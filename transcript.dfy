/**
 * The diagnostic transcript: the list of lines a run appends to, and the
 * text it is read as (`string.Join(Environment.NewLine, lines)`).
 */
module Transcript {

  /** `Environment.NewLine` on the Linux host the function runs on. */
  const NewLine: char := '\n'

  predicate IsSingleLine(s: string) {
    NewLine !in s
  }

  predicate AllSingleLines(lines: seq<string>) {
    forall i :: 0 <= i < |lines| ==> IsSingleLine(lines[i])
  }

  /** `string.Join(Environment.NewLine, lines)`. */
  function Join(lines: seq<string>): string
    decreases |lines|
  {
    if |lines| == 0 then ""
    else if |lines| == 1 then lines[0]
    else lines[0] + [NewLine] + Join(lines[1..])
  }

  /** Cutting a text at every line break: the inverse reading of Join. */
  function Split(s: string): (parts: seq<string>)
    ensures |parts| > 0
    decreases |s|
  {
    if |s| == 0 then [""]
    else if s[0] == NewLine then [""] + Split(s[1..])
    else
      var rest := Split(s[1..]);
      [[s[0]] + rest[0]] + rest[1..]
  }

  lemma {:induction false} SplitSingleLine(a: string)
    requires IsSingleLine(a)
    ensures Split(a) == [a]
    decreases |a|
  {
    if |a| > 0 {
      SplitSingleLine(a[1..]);
      assert [a[0]] + a[1..] == a;
    }
  }

  lemma {:induction false} SplitAtFirstBreak(a: string, t: string)
    requires IsSingleLine(a)
    ensures Split(a + [NewLine] + t) == [a] + Split(t)
    decreases |a|
  {
    var s := a + [NewLine] + t;
    if |a| == 0 {
      assert s[1..] == t;
    } else {
      assert s[1..] == a[1..] + [NewLine] + t;
      SplitAtFirstBreak(a[1..], t);
      assert [a[0]] + a[1..] == a;
    }
  }

  /** Reading a transcript of single-line entries back gives the same lines. */
  lemma {:induction false} SplitJoin(lines: seq<string>)
    requires |lines| > 0
    requires AllSingleLines(lines)
    ensures Split(Join(lines)) == lines
    decreases |lines|
  {
    if |lines| == 1 {
      SplitSingleLine(lines[0]);
    } else {
      SplitAtFirstBreak(lines[0], Join(lines[1..]));
      SplitJoin(lines[1..]);
    }
  }

  /**
   * Appending lines only extends the text: the text read before is a
   * prefix of the text read after.
   */
  lemma {:induction false} JoinAppend(lines: seq<string>, more: seq<string>)
    requires |lines| > 0 && |more| > 0
    ensures Join(lines + more) == Join(lines) + [NewLine] + Join(more)
    decreases |lines|
  {
    if |lines| == 1 {
      assert (lines + more)[1..] == more;
    } else {
      assert (lines + more)[1..] == lines[1..] + more;
      JoinAppend(lines[1..], more);
    }
  }

  /** `_outputBuffer`: one run's transcript, appended to in place. */
  class OutputBuffer {
    var lines: seq<string>

    constructor ()
      ensures lines == []
    {
      lines := [];
    }

    /** `AddOutput`: the only way a line gets into the transcript. */
    method AddOutput(message: string)
      modifies this
      ensures lines == old(lines) + [message]
    {
      lines := lines + [message];
    }

    /** `_outputBuffer.Clear()`, done once at the start of a run. */
    method Clear()
      modifies this
      ensures lines == []
    {
      lines := [];
    }

    /** `GetOutputText`: the transcript as one text, one line per entry. */
    function GetOutputText(): (text: string)
      reads this
      ensures |lines| > 0 && AllSingleLines(lines) ==> Split(text) == lines
    {
      SplitJoinIfSingleLines(lines);
      Join(lines)
    }
  }

  lemma SplitJoinIfSingleLines(lines: seq<string>)
    ensures |lines| > 0 && AllSingleLines(lines) ==> Split(Join(lines)) == lines
  {
    if |lines| > 0 && AllSingleLines(lines) {
      SplitJoin(lines);
    }
  }
}
