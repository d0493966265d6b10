/** Newline splitting of a byte stream, stated on whole streams. */
module Lines {

  type byte = b: int | 0 <= b < 256

  type Line = seq<byte>

  const NEWLINE: byte := 0x0A

  /** Index of the first newline, or the length when there is none. */
  function FirstNewline(s: seq<byte>): (i: nat)
    ensures i <= |s|
    ensures NEWLINE !in s[..i]
    ensures i < |s| ==> s[i] == NEWLINE
    ensures i < |s| <==> NEWLINE in s
  {
    if s == [] then 0 else if s[0] == NEWLINE then 0 else
      var j := FirstNewline(s[1..]);
      assert s == [s[0]] + s[1..];
      assert s[..j + 1] == [s[0]] + s[1..][..j];
      j + 1
  }

  /** The newline-terminated lines of `s`, without their newlines. */
  function Complete(s: seq<byte>): seq<Line> {
    var i := FirstNewline(s);
    if i == |s| then [] else [s[..i]] + Complete(s[i + 1..])
  }

  /** What follows the last newline of `s`. */
  function Rest(s: seq<byte>): seq<byte> {
    var i := FirstNewline(s);
    if i == |s| then s else Rest(s[i + 1..])
  }

  /** Every line of a finished stream: a trailing empty piece is dropped. */
  function AllLines(s: seq<byte>): seq<Line> {
    Complete(s) + if Rest(s) == [] then [] else [Rest(s)]
  }

  /** Put lines back together, each followed by a newline. */
  function Join(lines: seq<Line>): seq<byte> {
    if lines == [] then [] else lines[0] + [NEWLINE] + Join(lines[1..])
  }

  ghost predicate IsSplit(s: seq<byte>, lines: seq<Line>, rest: seq<byte>) {
    && Join(lines) + rest == s
    && NEWLINE !in rest
    && forall i | 0 <= i < |lines| :: NEWLINE !in lines[i]
  }

  lemma FirstNewlineAfter(line: Line, tail: seq<byte>)
    requires NEWLINE !in line
    ensures FirstNewline(line + [NEWLINE] + tail) == |line|
  {
    var s := line + [NEWLINE] + tail;
    var i := FirstNewline(s);
    assert s[|line|] == NEWLINE;
    assert forall k | 0 <= k < |line| :: s[k] == line[k];
    assert forall k | 0 <= k < i :: s[..i][k] == s[k];
  }

  lemma SplitOfLine(line: Line, tail: seq<byte>)
    requires NEWLINE !in line
    ensures Complete(line + [NEWLINE] + tail) == [line] + Complete(tail)
    ensures Rest(line + [NEWLINE] + tail) == Rest(tail)
  {
    FirstNewlineAfter(line, tail);
    var s := line + [NEWLINE] + tail;
    assert s[..|line|] == line && s[|line| + 1..] == tail;
  }

  lemma Regroup(a: seq<byte>, i: nat, b: seq<byte>)
    requires i < |a| && a[i] == NEWLINE
    ensures a == a[..i] + [NEWLINE] + a[i + 1..]
    ensures a + b == a[..i] + [NEWLINE] + (a[i + 1..] + b)
  {
  }

  lemma JoinCons(line: Line, lines: seq<Line>, rest: seq<byte>)
    ensures Join([line] + lines) == line + [NEWLINE] + Join(lines)
    ensures Join([line] + lines) + rest == line + [NEWLINE] + (Join(lines) + rest)
  {
    assert ([line] + lines)[1..] == lines;
  }

  lemma {:induction false} SplitIsSplit(s: seq<byte>)
    ensures IsSplit(s, Complete(s), Rest(s))
    decreases |s|
  {
    var i := FirstNewline(s);
    if i < |s| {
      var line, tail := s[..i], s[i + 1..];
      SplitIsSplit(tail);
      Regroup(s, i, []);
      SplitOfLine(line, tail);
      JoinCons(line, Complete(tail), Rest(tail));
    }
  }

  /** Part way through `whole`: `lines` are taken and `pending` is left. */
  ghost predicate Taken(whole: seq<byte>, lines: seq<Line>, pending: seq<byte>) {
    Complete(whole) == lines + Complete(pending) && Rest(whole) == Rest(pending)
  }

  lemma NothingTaken(whole: seq<byte>)
    ensures Taken(whole, [], whole)
  {
    assert [] + Complete(whole) == Complete(whole);
  }

  /** One line more. */
  lemma TakeLine(whole: seq<byte>, lines: seq<Line>, pending: seq<byte>)
    requires Taken(whole, lines, pending) && NEWLINE in pending
    ensures var i := FirstNewline(pending); Taken(whole, lines + [pending[..i]], pending[i + 1..])
  {
    var i := FirstNewline(pending);
    var line, tail := pending[..i], pending[i + 1..];
    Regroup(pending, i, []);
    SplitOfLine(line, tail);
    assert lines + ([line] + Complete(tail)) == lines + [line] + Complete(tail);
  }

  lemma AllTaken(whole: seq<byte>, lines: seq<Line>, pending: seq<byte>)
    requires Taken(whole, lines, pending) && NEWLINE !in pending
    ensures lines == Complete(whole) && pending == Rest(whole)
  {
  }

  /** A byte stream is cut into newline-free lines and a newline-free rest in one way only. */
  lemma {:induction false} SplitIsUnique(s: seq<byte>, lines: seq<Line>, rest: seq<byte>)
    requires IsSplit(s, lines, rest)
    ensures lines == Complete(s) && rest == Rest(s)
    decreases |lines|
  {
    if lines == [] {
      assert s == rest;
    } else {
      var line, more := lines[0], lines[1..];
      assert lines == [line] + more;
      JoinCons(line, more, rest);
      SplitIsUnique(Join(more) + rest, more, rest);
      SplitOfLine(line, Join(more) + rest);
    }
  }

  /** Splitting may be resumed from the unfinished rest: where a stream is cut does not matter. */
  lemma {:induction false} SplitAppend(a: seq<byte>, b: seq<byte>)
    ensures Complete(a + b) == Complete(a) + Complete(Rest(a) + b)
    ensures Rest(a + b) == Rest(Rest(a) + b)
    decreases |a|
  {
    var i := FirstNewline(a);
    if i < |a| {
      var line, tail := a[..i], a[i + 1..];
      SplitAppend(tail, b);
      Regroup(a, i, b);
      SplitOfLine(line, tail);
      SplitOfLine(line, tail + b);
    }
  }

  lemma SplitOfRest(s: seq<byte>)
    ensures NEWLINE !in Rest(s) && Complete(Rest(s)) == [] && Rest(Rest(s)) == Rest(s)
  {
    SplitIsSplit(s);
  }

  function Concat(chunks: seq<seq<byte>>): seq<byte> {
    if chunks == [] then [] else Concat(chunks[..|chunks| - 1]) + chunks[|chunks| - 1]
  }
}

/** The `LineBuffer` class of ProcessRunner.swift, at byte level. */
module LineBuffers {
  import opened Lines

  class LineBuffer {
    var pending: seq<byte>
    var all: seq<byte>

    /** `pending` never holds a newline between calls. */
    ghost predicate Valid()
      reads this
    {
      NEWLINE !in pending
    }

    constructor ()
      ensures Valid() && pending == [] && all == []
    {
      pending, all := [], [];
    }

    method Append(data: seq<byte>) returns (lines: seq<Line>)
      requires Valid()
      modifies this
      ensures Valid()
      ensures all == old(all) + data
      ensures lines == Complete(old(pending) + data)
      ensures pending == Rest(old(pending) + data)
    {
      all := all + data;
      pending := pending + data;
      lines := [];
      ghost var whole := pending;
      NothingTaken(whole);
      while NEWLINE in pending
        invariant Taken(whole, lines, pending)
        invariant all == old(all) + data
        decreases |pending|
      {
        var newline := FirstNewline(pending);
        TakeLine(whole, lines, pending);
        lines := lines + [pending[..newline]];
        pending := pending[newline + 1..];
      }
      AllTaken(whole, lines, pending);
    }

    method Flush() returns (lines: seq<Line>)
      requires Valid()
      modifies this`pending
      ensures Valid() && pending == []
      ensures lines == if old(pending) == [] then [] else [old(pending)]
    {
      if pending == [] {
        return [];
      }
      lines := [pending];
      pending := [];
    }
  }

  /**
   * What ProcessRunner does with one stream: append each chunk as it is read,
   * append what is left at termination, flush. The chunking is the caller's;
   * the lines are those of the whole stream, however it was cut.
   */
  method StreamLines(chunks: seq<seq<byte>>) returns (lines: seq<Line>, text: seq<byte>)
    ensures lines == AllLines(Concat(chunks))
    ensures text == Concat(chunks)
  {
    var buffer := new LineBuffer();
    lines := [];
    for k := 0 to |chunks|
      invariant buffer.Valid() && fresh(buffer)
      invariant buffer.all == Concat(chunks[..k])
      invariant lines == Complete(buffer.all)
      invariant buffer.pending == Rest(buffer.all)
    {
      SplitAppend(buffer.all, chunks[k]);
      assert chunks[..k + 1][..k] == chunks[..k];
      var more := buffer.Append(chunks[k]);
      lines := lines + more;
    }
    assert chunks[..|chunks|] == chunks;
    var last := buffer.Flush();
    lines := lines + last;
    text := buffer.all;
  }
}
