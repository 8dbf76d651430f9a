/**
 * `run_claude_command` once the `claude` subprocess has returned (or raised):
 * how its JSON output, return code and exceptions become one turn's result.
 * The subprocess itself is an input, `ProcessOutcome`.
 */
module Invoker {
  import opened Wrappers
  import opened JsonValues
  import opened Text

  /** What `subprocess.run` gave back, or the exception it raised. */
  datatype ProcessOutcome =
    | Exited(returnCode: int, stdout: string, stderr: string)
    | TimedOut                 // subprocess.TimeoutExpired
    | CliNotFound              // FileNotFoundError
    | Raised(message: string)  // any other exception, with its text

  /** The prompt of a call: a test's own prompt, or the fixed reflection prompt. */
  datatype Prompt = TaskPrompt(text: Json) | ReflectionTurn

  /** The arguments of one call: everything the command line and `subprocess.run` get. */
  datatype Request = Request(
    prompt: Prompt,
    agentDir: string,
    allowedTools: Json,
    permissionMode: Json,
    maxTurns: Json,
    sessionId: Json,
    timeout: Option<int>)

  /** The dict `run_claude_command` returns; `error == None` is Python's None. */
  datatype TurnResult = TurnResult(
    success: bool,
    result: Json,
    sessionId: Json,
    costUsd: real,
    numTurns: int,
    error: Option<string>)

  const TextKeys: seq<string> := ["result", "message"]
  const SessionKeys: seq<string> := ["session_id", "sessionId"]
  const CostKeys: seq<string> := ["total_cost_usd", "cost_usd", "costUsd"]
  const TurnKeys: seq<string> := ["num_turns", "numTurns"]

  const MaxTurnsSubtype: Json := JStr("error_max_turns")
  const MaxTurnsPlaceholder: string := "[Task incomplete - max turns reached]"
  const NotFoundMessage: string := "claude CLI not found. Is it installed and in PATH?"
  const ParseFailurePrefix: string := "Failed to parse JSON output: "

  /**
   * The value of the first of `keys` that is present in `d`, or `default`.
   * Presence decides, not truthiness: a key present with `null` wins.
   */
  function FirstPresent(d: Dict, keys: seq<string>, default: Json): Json {
    if keys == [] then default
    else
      match Lookup(d, keys[0])
      case Some(v) => v
      case None => FirstPresent(d, keys[1..], default)
  }

  /** The first present key decides the value. */
  lemma {:induction false} FirstPresentPicks(d: Dict, keys: seq<string>, default: Json, i: nat)
    requires i < |keys| && Has(d, keys[i])
    requires forall j :: 0 <= j < i ==> !Has(d, keys[j])
    ensures FirstPresent(d, keys, default) == Lookup(d, keys[i]).value
    decreases i
  {
    if i > 0 {
      assert !Has(d, keys[0]);
      FirstPresentPicks(d, keys[1..], default, i - 1);
    }
  }

  /** With none of the keys present the default is the value. */
  lemma {:induction false} FirstPresentDefault(d: Dict, keys: seq<string>, default: Json)
    requires forall j :: 0 <= j < |keys| ==> !Has(d, keys[j])
    ensures FirstPresent(d, keys, default) == default
    decreases |keys|
  {
    if keys != [] {
      assert !Has(d, keys[0]);
      FirstPresentDefault(d, keys[1..], default);
    }
  }

  /** Looking up a list of keys is a `get` of the first whose default is the rest. */
  lemma FirstPresentCons(d: Dict, keys: seq<string>, default: Json)
    requires keys != []
    ensures FirstPresent(d, keys, default) == Get(d, keys[0], FirstPresent(d, keys[1..], default))
  {
  }

  /** The fields read from the CLI's JSON output, before conversion. */
  datatype Reply = Reply(subtype: Json, text: Json, session: Json, cost: Json, turns: Json)

  /** The nested `output.get(…, output.get(…))` lookups of the source. */
  function ReadReply(d: Dict): (r: Reply)
    ensures r.subtype == FirstPresent(d, ["subtype"], JStr("success"))
    ensures r.text == FirstPresent(d, TextKeys, JStr(""))
    ensures r.session == FirstPresent(d, SessionKeys, JNull)
    ensures r.cost == FirstPresent(d, CostKeys, JNum(0.0))
    ensures r.turns == FirstPresent(d, TurnKeys, JNum(1.0))
  {
    FirstPresentCons(d, ["subtype"], JStr("success"));
    FirstPresentCons(d, TextKeys, JStr(""));
    FirstPresentCons(d, TextKeys[1..], JStr(""));
    FirstPresentCons(d, SessionKeys, JNull);
    FirstPresentCons(d, SessionKeys[1..], JNull);
    FirstPresentCons(d, CostKeys, JNum(0.0));
    FirstPresentCons(d, CostKeys[1..], JNum(0.0));
    FirstPresentCons(d, CostKeys[2..], JNum(0.0));
    FirstPresentCons(d, TurnKeys, JNum(1.0));
    FirstPresentCons(d, TurnKeys[1..], JNum(1.0));
    Reply(
      Get(d, "subtype", JStr("success")),
      Get(d, "result", Get(d, "message", JStr(""))),
      Get(d, "session_id", Get(d, "sessionId", JNull)),
      Get(d, "total_cost_usd", Get(d, "cost_usd", Get(d, "costUsd", JNum(0.0)))),
      Get(d, "num_turns", Get(d, "numTurns", JNum(1.0))))
  }

  /** `float(cost) if cost else 0.0` */
  function Cost(rt: Runtime, cost: Json): Result<real, Fault> {
    if Truthy(cost) then PyFloat(rt, cost) else Ok(0.0)
  }

  /** `int(num_turns) if num_turns else 1` */
  function Turns(rt: Runtime, turns: Json): Result<int, Fault> {
    if Truthy(turns) then PyInt(rt, turns) else Ok(1)
  }

  function MaxTurnsMessage(rt: Runtime, turns: Json): string {
    "Task did not complete within " + Str(rt, turns) + " turns (max_turns limit reached)"
  }

  /** `{timeout}` in the timeout message. */
  function TimeoutText(timeout: Option<int>): string {
    match timeout
    case Some(n) => IntText(n)
    case None => "None"
  }

  /** The record of a call that failed before a usable reply was read. */
  function Failed(result: Json, message: string): TurnResult {
    TurnResult(false, result, JNull, 0.0, 0, Some(message))
  }

  /**
   * The result built from parsed output. `Err` is an exception raised on the
   * way: `.get` on output that is not an object, or a failed conversion.
   */
  function Interpret(rt: Runtime, returnCode: int, stderr: string, output: Json): (r: Result<TurnResult, Fault>)
  {
    if !output.JObj? then Err(Fault(AttributeError, output))
    else
      var reply := ReadReply(output.fields);
      var text := if reply.text.JObj? then JStr(rt.dumps(reply.text)) else reply.text;
      var maxTurns := reply.subtype == MaxTurnsSubtype;
      var error :=
        if maxTurns then Some(MaxTurnsMessage(rt, reply.turns))
        else if returnCode != 0 then Some(stderr)
        else None;
      var shown := if maxTurns && !Truthy(text) then JStr(MaxTurnsPlaceholder) else text;
      var cost :- Cost(rt, reply.cost);
      var turns :- Turns(rt, reply.turns);
      Ok(TurnResult(returnCode == 0 && reply.subtype == JStr("success"), shown, reply.session, cost, turns, error))
  }

  /** The output parsed to an object whose fields convert and whose subtype is "success". */
  predicate CleanRun(rt: Runtime, outcome: ProcessOutcome) {
    && outcome.Exited? && outcome.returnCode == 0
    && rt.loads(outcome.stdout).Some?
    && var output := rt.loads(outcome.stdout).value;
       Interpret(rt, 0, outcome.stderr, output).Ok?
       && ReadReply(output.fields).subtype == JStr("success")
  }

  /** The call went wrong before a reply could be read: an exception or unparseable output. */
  predicate Abandoned(rt: Runtime, outcome: ProcessOutcome) {
    !outcome.Exited? || rt.loads(outcome.stdout).None?
    || Interpret(rt, outcome.returnCode, outcome.stderr, rt.loads(outcome.stdout).value).Err?
  }

  /** `run_claude_command` after the subprocess. */
  function Normalize(rt: Runtime, timeout: Option<int>, outcome: ProcessOutcome): (t: TurnResult)
  {
    match outcome
    case TimedOut => Failed(JStr(""), "Test timed out after " + TimeoutText(timeout) + " seconds")
    case CliNotFound => Failed(JStr(""), NotFoundMessage)
    case Raised(m) => Failed(JStr(""), m)
    case Exited(rc, out, err) =>
      match rt.loads(out)
      case None => Failed(JStr(out), ParseFailurePrefix + err)
      case Some(output) =>
        match Interpret(rt, rc, err, output)
        case Ok(t) => t
        case Err(f) => Failed(JStr(""), rt.faultText(f))
  }

  /**
   * What the fields of a parsed reply become: success needs return code 0
   * and subtype "success"; cost and turns are converted; a dict reply text
   * is serialised with `json.dumps`; error_max_turns has an error naming the
   * turn count and keeps a truthy text, putting the placeholder in place of a
   * falsy one; otherwise a non-zero return code gives stderr as the error.
   */
  lemma InterpretFields(rt: Runtime, returnCode: int, stderr: string, output: Json)
    ensures var r := Interpret(rt, returnCode, stderr, output);
            r.Ok? <==> output.JObj? && Cost(rt, ReadReply(output.fields).cost).Ok?
                                    && Turns(rt, ReadReply(output.fields).turns).Ok?
    ensures !output.JObj? ==> Interpret(rt, returnCode, stderr, output) == Err(Fault(AttributeError, output))
    ensures var r := Interpret(rt, returnCode, stderr, output);
            r.Ok? ==>
              var reply := ReadReply(output.fields);
              && (r.value.success <==> returnCode == 0 && reply.subtype == JStr("success"))
              && r.value.sessionId == reply.session
              && r.value.costUsd == Cost(rt, reply.cost).value
              && r.value.numTurns == Turns(rt, reply.turns).value
              && (reply.subtype == MaxTurnsSubtype ==>
                    r.value.error == Some(MaxTurnsMessage(rt, reply.turns)) && Truthy(r.value.result))
              && (reply.subtype != MaxTurnsSubtype ==>
                    r.value.error == (if returnCode != 0 then Some(stderr) else None))
              && (reply.subtype != MaxTurnsSubtype && !reply.text.JObj? ==> r.value.result == reply.text)
              && (reply.subtype != MaxTurnsSubtype && reply.text.JObj? ==> r.value.result == JStr(rt.dumps(reply.text)))
              && (reply.subtype == MaxTurnsSubtype && Truthy(reply.text) && !reply.text.JObj? ==> r.value.result == reply.text)
              && (reply.subtype == MaxTurnsSubtype && !Truthy(reply.text) && !reply.text.JObj? ==>
                    r.value.result == JStr(MaxTurnsPlaceholder))
              && (reply.subtype == MaxTurnsSubtype && reply.text.JObj? ==>
                    r.value.result == JStr(if rt.dumps(reply.text) == "" then MaxTurnsPlaceholder else rt.dumps(reply.text)))
  {
  }

  /**
   * The outcomes of a call: success exactly for a clean run; every exception
   * and unparseable output give no session, no cost, no turns and an error;
   * only unparseable output keeps stdout as the result text.
   */
  lemma NormalizeOutcomes(rt: Runtime, timeout: Option<int>, outcome: ProcessOutcome)
    ensures Normalize(rt, timeout, outcome).success <==> CleanRun(rt, outcome)
    ensures var t := Normalize(rt, timeout, outcome);
            Abandoned(rt, outcome) ==>
              !t.success && t.sessionId == JNull && t.costUsd == 0.0 && t.numTurns == 0 && t.error.Some?
              && t.result == (if outcome.Exited? && rt.loads(outcome.stdout).None? then JStr(outcome.stdout) else JStr(""))
    ensures var t := Normalize(rt, timeout, outcome);
            && (outcome.Exited? && rt.loads(outcome.stdout).None? ==> t.error == Some(ParseFailurePrefix + outcome.stderr))
            && (outcome.TimedOut? ==> t.error == Some("Test timed out after " + TimeoutText(timeout) + " seconds"))
            && (outcome.CliNotFound? ==> t.error == Some(NotFoundMessage))
            && (outcome.Raised? ==> t.error == Some(outcome.message))
    ensures !Abandoned(rt, outcome) ==>
              Normalize(rt, timeout, outcome)
              == Interpret(rt, outcome.returnCode, outcome.stderr, rt.loads(outcome.stdout).value).value
  {
    if outcome.Exited? && rt.loads(outcome.stdout).Some? {
      InterpretFields(rt, outcome.returnCode, outcome.stderr, rt.loads(outcome.stdout).value);
    }
  }

  /**
   * The error_max_turns subtype is never a success and always has an error;
   * when the fields convert, the error names the turn count and the result
   * text is not empty.
   */
  lemma MaxTurnsOutcome(rt: Runtime, timeout: Option<int>, outcome: ProcessOutcome)
    requires outcome.Exited? && rt.loads(outcome.stdout).Some?
    requires var output := rt.loads(outcome.stdout).value;
             output.JObj? && ReadReply(output.fields).subtype == MaxTurnsSubtype
    ensures !Normalize(rt, timeout, outcome).success
    ensures Normalize(rt, timeout, outcome).error.Some?
    ensures !Abandoned(rt, outcome) ==>
              && Truthy(Normalize(rt, timeout, outcome).result)
              && Normalize(rt, timeout, outcome).error
                 == Some(MaxTurnsMessage(rt, ReadReply(rt.loads(outcome.stdout).value.fields).turns))
  {
    var output := rt.loads(outcome.stdout).value;
    InterpretFields(rt, outcome.returnCode, outcome.stderr, output);
    NormalizeOutcomes(rt, timeout, outcome);
  }

  /** A cost under `total_cost_usd` wins over the other spellings, even when it is falsy. */
  lemma CostPriority(d: Dict)
    ensures Has(d, "total_cost_usd") ==> ReadReply(d).cost == Lookup(d, "total_cost_usd").value
    ensures !Has(d, "total_cost_usd") && Has(d, "cost_usd") ==>
              ReadReply(d).cost == Lookup(d, "cost_usd").value
    ensures !Has(d, "total_cost_usd") && !Has(d, "cost_usd") && Has(d, "costUsd") ==>
              ReadReply(d).cost == Lookup(d, "costUsd").value
    ensures !Has(d, "total_cost_usd") && !Has(d, "cost_usd") && !Has(d, "costUsd") ==>
              ReadReply(d).cost == JNum(0.0)
  {
    if Has(d, "total_cost_usd") {
      FirstPresentPicks(d, CostKeys, JNum(0.0), 0);
    } else if Has(d, "cost_usd") {
      FirstPresentPicks(d, CostKeys, JNum(0.0), 1);
    } else if Has(d, "costUsd") {
      FirstPresentPicks(d, CostKeys, JNum(0.0), 2);
    } else {
      FirstPresentDefault(d, CostKeys, JNum(0.0));
    }
  }
}
