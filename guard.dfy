/**
 * `check_recursion_depth`: an agent under test may itself start the harness.
 * The nesting depth travels in the environment variable AGENT_TEST_DEPTH; a
 * run that reads a depth above the cap exits at once, any other run stores
 * the next depth for the processes it starts.
 */
module RecursionGuard {
  import opened Wrappers
  import opened JsonValues
  import opened Text

  const MaxRecursionDepth: int := 2
  const DepthVariable: string := "AGENT_TEST_DEPTH"

  /** What the guard decides for a depth: stop, or go on and store `stored`. */
  datatype Step = Halt | Continue(depth: int, stored: int)

  function GuardStep(depth: int): Step {
    if depth > MaxRecursionDepth then Halt else Continue(depth, depth + 1)
  }

  /**
   * How many runs, each started by the one before it, get past the guard when
   * the outermost one reads `depth`.
   */
  function RunsAdmitted(depth: int): nat
    decreases if depth > MaxRecursionDepth then 0 else MaxRecursionDepth + 1 - depth
  {
    match GuardStep(depth)
    case Halt => 0
    case Continue(_, next) => 1 + RunsAdmitted(next)
  }

  /** The guard admits exactly the depths 0 ..= 2 in a chain: at most three nested runs. */
  lemma {:induction false} RunsAdmittedCount(depth: int)
    ensures RunsAdmitted(depth) == if depth > MaxRecursionDepth then 0 else MaxRecursionDepth + 1 - depth
    decreases if depth > MaxRecursionDepth then 0 else MaxRecursionDepth + 1 - depth
  {
    if depth <= MaxRecursionDepth {
      RunsAdmittedCount(depth + 1);
    }
  }

  /** Why a run stops at the guard. */
  datatype Exit =
    | DepthExceeded(message: string)  // sys.exit with the message
    | BadDepth(fault: Fault)          // int() of the variable raised ValueError

  const ExceededMessage: string :=
    "Error: Maximum test recursion depth (" + IntText(MaxRecursionDepth) + ") exceeded"

  /** The process environment (`os.environ`). */
  class Environment {
    var vars: map<string, string>

    constructor (initial: map<string, string>)
      ensures vars == initial
    {
      vars := initial;
    }

    /** `int(os.environ.get("AGENT_TEST_DEPTH", "0"))` */
    function ReadDepth(rt: Runtime): Result<int, Fault>
      reads this
    {
      var text := if DepthVariable in vars then vars[DepthVariable] else "0";
      match rt.intOf(text)
      case Some(d) => Ok(d)
      case None => Err(Fault(ValueError, JStr(text)))
    }

    /**
     * Reads the depth; above the cap the run exits and nothing is stored,
     * otherwise it returns the depth it read and stores the next one.
     */
    method CheckRecursionDepth(rt: Runtime) returns (r: Result<int, Exit>)
      modifies this
      ensures old(ReadDepth(rt)).Err? ==>
                r == Err(BadDepth(old(ReadDepth(rt)).error)) && vars == old(vars)
      ensures old(ReadDepth(rt)).Ok? && old(ReadDepth(rt)).value > MaxRecursionDepth ==>
                r == Err(DepthExceeded(ExceededMessage)) && vars == old(vars)
      ensures old(ReadDepth(rt)).Ok? && old(ReadDepth(rt)).value <= MaxRecursionDepth ==>
                r == Ok(old(ReadDepth(rt)).value)
                && vars == old(vars)[DepthVariable := IntText(r.value + 1)]
      ensures r.Ok? && rt.intOf(IntText(r.value + 1)) == Some(r.value + 1) ==>
                ReadDepth(rt) == Ok(r.value + 1)
    {
      var read := ReadDepth(rt);
      if read.Err? {
        return Err(BadDepth(read.error));
      }
      match GuardStep(read.value)
      case Halt =>
        r := Err(DepthExceeded(ExceededMessage));
      case Continue(depth, next) =>
        vars := vars[DepthVariable := IntText(next)];
        r := Ok(depth);
    }
  }
}
