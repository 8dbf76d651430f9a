/**
 * `parse_reflection`: the reflection turn's reply, read as a JSON object with
 * four list-valued keys. Anything else counts as prose and gives four empty
 * lists.
 */
module Reflections {
  import opened Wrappers
  import opened JsonValues
  import opened Text
  import opened Fences

  /** The four keys `parse_reflection` returns; each holds whatever the reply held there. */
  datatype Parsed = Parsed(improvementSuggestions: Json, whatWorked: Json, whatDidntWork: Json, processSteps: Json)

  /** `empty_result` */
  const EmptyParsed: Parsed := Parsed(JArr([]), JArr([]), JArr([]), JArr([]))

  /** The four keys of a parsed reply, each defaulting to `[]`. */
  function FromDict(d: Dict): Parsed {
    Parsed(Get(d, "improvement_suggestions", JArr([])), Get(d, "what_worked", JArr([])),
           Get(d, "what_didnt_work", JArr([])), Get(d, "process_steps", JArr([])))
  }

  /** `reflection.get("result", "")` */
  function ReplyText(reflection: Json): Json
    requires reflection.JObj?
  {
    Get(reflection.fields, "result", JStr(""))
  }

  /**
   * `parse_reflection(reflection)`. A truthy reflection that is not a dict, or a
   * truthy reply that is not a string, reaches a method it does not have and
   * raises AttributeError.
   */
  function ParseReflection(rt: Runtime, reflection: Json): Result<Parsed, Fault> {
    if !Truthy(reflection) then Ok(EmptyParsed)
    else if !reflection.JObj? then Err(Fault(AttributeError, reflection))
    else
      var text := ReplyText(reflection);
      if !Truthy(text) then Ok(EmptyParsed)
      else if !text.JStr? then Err(Fault(AttributeError, text))
      else
        match rt.loads(FenceStripped(text.s))
        case Some(JObj(d)) => Ok(FromDict(d))
        case _ => Ok(EmptyParsed)
  }

  /** A reflection is refused exactly when it, or its reply, has the wrong type. */
  lemma ParseReflectionFaults(rt: Runtime, reflection: Json)
    ensures ParseReflection(rt, reflection).Err? <==>
              Truthy(reflection)
              && (!reflection.JObj? || (Truthy(ReplyText(reflection)) && !ReplyText(reflection).JStr?))
  {
  }

  /** A missing reflection, or one with an empty reply, gives four empty lists. */
  lemma ParseReflectionAbsent(rt: Runtime, reflection: Json)
    requires reflection == JNull || (reflection.JObj? && ReplyText(reflection) == JStr(""))
    ensures ParseReflection(rt, reflection) == Ok(EmptyParsed)
  {
  }

  /**
   * A reply that wraps a JSON object in a fenced block gives that object's
   * four keys: the fence is removed before the text is decoded.
   */
  lemma ParseFencedReply(rt: Runtime, f: Dict, opener: string, payload: string, d: Dict)
    requires StartsWith(opener, Fence) && '\n' !in opener
    requires Lookup(f, "result") == Some(JStr(opener + "\n" + payload + "\n" + Fence))
    requires rt.loads(Strip(payload)) == Some(JObj(d))
    ensures ParseReflection(rt, JObj(f)) == Ok(FromDict(d))
  {
    FencedPayload(opener, payload);
    assert Truthy(JObj(f)) by {
      assert Has(f, "result");
      HasIndex(f, "result");
    }
  }

  /** A reply that does not decode to an object gives four empty lists. */
  lemma ParseProseReply(rt: Runtime, f: Dict, text: string)
    requires text != [] && Lookup(f, "result") == Some(JStr(text))
    requires rt.loads(FenceStripped(text)).None? || !rt.loads(FenceStripped(text)).value.JObj?
    ensures ParseReflection(rt, JObj(f)) == Ok(EmptyParsed)
  {
    assert Truthy(JObj(f)) by {
      assert Has(f, "result");
      HasIndex(f, "result");
    }
  }
}
