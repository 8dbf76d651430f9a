/**
 * `strip_markdown_code_fences`, which both scripts define identically: take the
 * text out of a ```-fenced block that wraps a whole reply.
 *
 * The closing fence is found by scanning back from the last line, so it is the
 * LAST line after the opener whose stripped text is exactly three backticks,
 * not the first one after the opener.
 */
module Fences {
  import opened Text

  const Fence: string := "```"

  /** A line that closes a block: it strips to exactly three backticks. */
  predicate IsClosingFence(line: string) {
    Strip(line) == Fence
  }

  /** Line `k` is the last line after the first one that closes a block. */
  predicate ClosesLast(lines: seq<string>, k: int) {
    0 < k < |lines| && IsClosingFence(lines[k])
    && forall j :: k < j < |lines| ==> !IsClosingFence(lines[j])
  }

  /** The stripped text opens a block and some later line closes it. */
  predicate IsFenced(t: string) {
    var lines := SplitLines(t);
    StartsWith(t, Fence) && exists k :: 0 < k < |lines| && IsClosingFence(lines[k])
  }

  /**
   * The position the backward scan stops at when it starts from line `hi`:
   * the last closing line in 1..hi, or 0 when there is none.
   */
  function LastFence(lines: seq<string>, hi: nat): (k: nat)
    requires hi < |lines|
    ensures k <= hi
    ensures k > 0 ==> IsClosingFence(lines[k])
    ensures forall j :: k < j <= hi && 0 < j ==> !IsClosingFence(lines[j])
    decreases hi
  {
    if hi == 0 || IsClosingFence(lines[hi]) then hi else LastFence(lines, hi - 1)
  }

  /** The result of `strip_markdown_code_fences(text)`. */
  function FenceStripped(text: string): string {
    if text == [] then text
    else
      var t := Strip(text);
      if StartsWith(t, Fence) then
        var lines := SplitLines(t);
        FirstLineKeepsPrefix(t, Fence);
        if StartsWith(lines[0], Fence) then
          var k := LastFence(lines, |lines| - 1);
          if k > 0 then Strip(JoinLines(lines[1..k])) else t
        else t
      else t
  }

  /**
   * Empty text comes back as it is; stripped text that is not a fenced block
   * comes back stripped; a fenced block gives the lines strictly between the
   * opener and the last closing fence, joined and stripped.
   */
  lemma FenceStrippedCases(text: string)
    ensures text == [] ==> FenceStripped(text) == text
    ensures text != [] && !IsFenced(Strip(text)) ==> FenceStripped(text) == Strip(text)
    ensures text != [] && IsFenced(Strip(text)) ==>
              exists k :: ClosesLast(SplitLines(Strip(text)), k)
                          && FenceStripped(text) == Strip(JoinLines(SplitLines(Strip(text))[1..k]))
  {
    if text != [] {
      var t := Strip(text);
      if IsFenced(t) {
        FirstLineKeepsPrefix(t, Fence);
        var lines := SplitLines(t);
        var k := LastFence(lines, |lines| - 1);
        assert k > 0;
        assert ClosesLast(lines, k);
      }
    }
  }

  /** `strip_markdown_code_fences(text)` */
  method StripMarkdownCodeFences(text: string) returns (r: string)
    ensures r == FenceStripped(text)
  {
    if text == [] {
      return text;
    }
    var t := Strip(text);
    if StartsWith(t, Fence) {
      var lines := SplitLines(t);
      if StartsWith(lines[0], Fence) {
        var endIdx := ScanBack(lines);
        if endIdx > 0 {
          return Strip(JoinLines(lines[1..endIdx]));
        }
      }
    }
    return t;
  }

  /** The loop of the source: scan back from the last line for a closing fence. */
  method ScanBack(lines: seq<string>) returns (endIdx: nat)
    requires |lines| >= 1
    ensures endIdx == LastFence(lines, |lines| - 1)
  {
    endIdx := |lines| - 1;
    while endIdx > 0 && Strip(lines[endIdx]) != Fence
      invariant 0 <= endIdx < |lines|
      invariant LastFence(lines, endIdx) == LastFence(lines, |lines| - 1)
      decreases endIdx
    {
      endIdx := endIdx - 1;
    }
  }

  /**
   * A reply wrapped as opener line, payload, closing fence gives back the
   * payload, stripped: the same text the unwrapped payload gives.
   */
  lemma FencedPayload(opener: string, payload: string)
    requires StartsWith(opener, Fence) && '\n' !in opener
    ensures FenceStripped(opener + "\n" + payload + "\n" + Fence) == Strip(payload)
  {
    var text := opener + "\n" + payload + "\n" + Fence;
    assert text[0] == opener[0] == '`' && text[|text| - 1] == '`';
    StripUnpadded(text);
    assert StartsWith(text, Fence) by {
      assert text[..|Fence|] == opener[..|Fence|];
    }
    SplitAtNewline(opener, payload + "\n" + Fence);
    SplitAtNewline(payload, Fence);
    assert opener + "\n" + (payload + "\n" + Fence) == text;
    SplitSingleLine(opener);
    SplitSingleLine(Fence);
    var lines := SplitLines(text);
    var body := SplitLines(payload);
    assert lines == [opener] + body + [Fence];
    assert IsClosingFence(lines[|lines| - 1]) by {
      StripUnpadded(Fence);
    }
    assert LastFence(lines, |lines| - 1) == |lines| - 1;
    assert lines[1..|lines| - 1] == body;
    JoinSplit(payload);
  }

  /**
   * The closing fence is the last one: a block followed by more lines and a
   * second closing fence yields everything up to that second fence, the first
   * closing fence included.
   */
  lemma LastFenceWins(a: string, b: string)
    ensures FenceStripped(Fence + "\n" + a + "\n" + Fence + "\n" + b + "\n" + Fence)
            == Strip(a + "\n" + Fence + "\n" + b)
  {
    var payload := a + "\n" + Fence + "\n" + b;
    assert Fence + "\n" + a + "\n" + Fence + "\n" + b + "\n" + Fence
           == Fence + "\n" + payload + "\n" + Fence;
    assert StartsWith(Fence, Fence);
    FencedPayload(Fence, payload);
  }
}
