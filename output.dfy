/** Where the output commands write: standard output, or a file the command opened. */
module Output {

  /** Whether the operating system accepts the write with number `i` (counted from 0)
      on a stream whose outcomes are `outcomes`; writes past the end are accepted. */
  predicate Accepts(outcomes: seq<bool>, i: nat)
  {
    i >= |outcomes| || outcomes[i]
  }

  /** How many of `n` writes starting at write number `start` go through before the
      first refused one, for a writer that stops at the first refusal. */
  function StopsAt(outcomes: seq<bool>, start: nat, n: nat): (k: nat)
    ensures k <= n
    ensures forall i | start <= i < start + k :: Accepts(outcomes, i)
    ensures k < n ==> !Accepts(outcomes, start + k)
  {
    if n == 0 then 0
    else
      var j := StopsAt(outcomes, start, n - 1);
      if j < n - 1 then j
      else if Accepts(outcomes, start + n - 1) then n
      else n - 1
  }

  /** The strings that land when each of `lines` is written in turn from write number
      `start`, whatever the earlier writes returned. */
  function AcceptedLines(lines: seq<string>, outcomes: seq<bool>, start: nat): (r: seq<string>)
    ensures |r| <= |lines|
    ensures forall s | s in r :: s in lines
    ensures (forall i | start <= i < start + |lines| :: Accepts(outcomes, i)) ==> r == lines
    ensures (forall i | start <= i < start + |lines| :: !Accepts(outcomes, i)) ==> r == []
  {
    if |lines| == 0 then []
    else
      var rest := AcceptedLines(lines[1..], outcomes, start + 1);
      assert lines == [lines[0]] + lines[1..];
      (if Accepts(outcomes, start) then [lines[0]] else []) + rest
  }

  /** Filtering a concatenation filters each part with its own outcomes and keeps the
      parts in order; with the one-line case this fixes the order of the kept lines. */
  lemma {:induction false} AcceptedLinesConcat(a: seq<string>, b: seq<string>, outcomes: seq<bool>, start: nat)
    ensures AcceptedLines(a + b, outcomes, start)
         == AcceptedLines(a, outcomes, start) + AcceptedLines(b, outcomes, start + |a|)
  {
    if |a| > 0 {
      assert (a + b)[1..] == a[1..] + b;
      AcceptedLinesConcat(a[1..], b, outcomes, start + 1);
    } else {
      assert a + b == b;
    }
  }

  /** A single line is kept iff its write is accepted. */
  lemma AcceptedLine(line: string, outcomes: seq<bool>, start: nat)
    ensures AcceptedLines([line], outcomes, start) == if Accepts(outcomes, start) then [line] else []
  {
  }

  /** An open file or standard output: the strings written to it so far, in order,
      how many writes were attempted, and which attempts the operating system accepts. */
  class Stream {
    var written: seq<string>
    var attempts: nat
    const outcomes: seq<bool>

    constructor (outcomes: seq<bool>)
      ensures written == [] && attempts == 0 && this.outcomes == outcomes
    {
      written := [];
      attempts := 0;
      this.outcomes := outcomes;
    }

    /** The O_TRUNC part of opening a file for writing: what it held is dropped. */
    method Truncate()
      modifies this
      ensures written == [] && attempts == old(attempts)
    {
      written := [];
    }

    /** `file.WriteString(s)`: appends `s`, or reports an error and writes nothing. */
    method WriteString(s: string) returns (ok: bool)
      modifies this
      ensures ok == Accepts(outcomes, old(attempts))
      ensures attempts == old(attempts) + 1
      ensures written == if ok then old(written) + [s] else old(written)
    {
      ok := Accepts(outcomes, attempts);
      attempts := attempts + 1;
      if ok {
        written := written + [s];
      }
    }
  }

  /** What os.OpenFile returned for the output path: the file it opened (before the
      truncation the open asks for) or the error. */
  datatype OpenResult = Opened(stream: Stream) | OpenFailed(message: string)
}
