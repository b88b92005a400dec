/**
 * Cutting the server's event stream into events on blank lines while it arrives in arbitrary chunks.
 */
module EventStream {
  import opened Options

  predicate At(s: string, i: nat, c: char) {
    i < |s| && s[i] == c
  }

  /** The length of a line end at position i: a line feed, optionally after a carriage return; 0 if there is none. */
  function LineEnd(s: string, i: nat): nat {
    if At(s, i, '\n') then 1
    else if At(s, i, '\r') && At(s, i + 1, '\n') then 2
    else 0
  }

  /** The length of a blank line at position i: two line ends in a row; 0 if there is none. */
  function BlankLine(s: string, i: nat): nat {
    var first := LineEnd(s, i);
    if first == 0 then 0
    else
      var second := LineEnd(s, i + first);
      if second == 0 then 0 else first + second
  }

  /** The leftmost blank line at or after position i. */
  function FindBlankLine(s: string, i: nat): (m: Option<nat>)
    ensures m.Some? ==> i <= m.value && BlankLine(s, m.value) > 0 && m.value + BlankLine(s, m.value) <= |s|
    ensures m.Some? ==> forall k | i <= k < m.value :: BlankLine(s, k) == 0
    ensures m.None? ==> forall k: nat | i <= k :: BlankLine(s, k) == 0
    decreases |s| - i
  {
    if i >= |s| then None else if BlankLine(s, i) > 0 then Some(i) else FindBlankLine(s, i + 1)
  }

  /** Splitting on blank lines, as a whole. */
  function Split(s: string): (pieces: seq<string>)
    ensures pieces != []
    decreases |s|
  {
    var m := FindBlankLine(s, 0);
    if m.None? then [s] else [s[..m.value]] + Split(s[m.value + BlankLine(s, m.value)..])
  }

  function Init(pieces: seq<string>): seq<string>
    requires pieces != []
  {
    pieces[..|pieces| - 1]
  }

  function Last(pieces: seq<string>): string
    requires pieces != []
  {
    pieces[|pieces| - 1]
  }

  // ---------------------------------------------------------------------------
  // Text that arrives later
  // ---------------------------------------------------------------------------

  /** A blank line that is complete stays where it is, whatever follows. */
  lemma CompleteBlankLine(s: string, t: string, i: nat)
    requires BlankLine(s, i) > 0
    ensures BlankLine(s + t, i) == BlankLine(s, i)
  {
  }

  /** No later text puts a blank line in front of the first complete one, even across the cut. */
  lemma NoEarlierBlankLine(s: string, t: string, m: nat, k: nat)
    requires BlankLine(s, m) > 0 && k < m && BlankLine(s, k) == 0
    ensures BlankLine(s + t, k) == 0
  {
    assert (s + t)[k] == s[k] && (s + t)[k + 1] == s[k + 1];
  }

  lemma SameFirstBlankLine(s: string, t: string, m: nat)
    requires FindBlankLine(s, 0) == Some(m)
    ensures FindBlankLine(s + t, 0) == Some(m)
  {
    CompleteBlankLine(s, t, m);
    forall k | 0 <= k < m ensures BlankLine(s + t, k) == 0 {
      NoEarlierBlankLine(s, t, m, k);
    }
  }

  lemma InitLastOfCons(head: string, pieces: seq<string>)
    requires pieces != []
    ensures Init([head] + pieces) == [head] + Init(pieces) && Last([head] + pieces) == Last(pieces)
  {
  }

  lemma SplitAt(s: string, m: nat)
    requires FindBlankLine(s, 0) == Some(m)
    ensures Split(s) == [s[..m]] + Split(s[m + BlankLine(s, m)..])
  {
  }

  /** Splitting can be resumed from the last, incomplete piece. */
  lemma {:induction false} SplitResumes(s: string, t: string)
    ensures Split(s + t) == Init(Split(s)) + Split(Last(Split(s)) + t)
    decreases |s|
  {
    hide Init, Last, BlankLine;
    var m := FindBlankLine(s, 0);
    if m.None? {
      OnePiece(s, t);
    } else {
      var end := m.value + BlankLine(s, m.value);
      var head, rest := s[..m.value], s[end..];
      SameFirstBlankLine(s, t, m.value);
      CompleteBlankLine(s, t, m.value);
      assert (s + t)[..m.value] == head && (s + t)[end..] == rest + t;
      SplitAt(s, m.value);
      SplitAt(s + t, m.value);
      InitLastOfCons(head, Split(rest));
      SplitResumes(rest, t);
      Associative([head], Init(Split(rest)), Split(Last(Split(rest)) + t));
    }
  }

  lemma Associative<T>(a: seq<T>, b: seq<T>, c: seq<T>)
    ensures a + (b + c) == (a + b) + c
  {
  }

  lemma OnePiece(s: string, t: string)
    requires FindBlankLine(s, 0).None?
    ensures Split(s + t) == Init(Split(s)) + Split(Last(Split(s)) + t)
  {
    assert Init([s]) == [] && Last([s]) == s;
  }

  // ---------------------------------------------------------------------------
  // Reading
  // ---------------------------------------------------------------------------

  function Concat(chunks: seq<string>): string {
    if chunks == [] then "" else Concat(chunks[..|chunks| - 1]) + chunks[|chunks| - 1]
  }

  lemma OneChunk(events: seq<string>, buffer: string, before: string, chunk: string)
    requires events + [buffer] == Split(before)
    ensures var pieces := Split(buffer + chunk);
            events + Init(pieces) + [Last(pieces)] == Split(before + chunk)
  {
    hide Split, Init, Last;
    var pieces := Split(buffer + chunk);
    InitLast(events, buffer);
    SplitResumes(before, chunk);
    InitThenLast(pieces);
    assert events + Init(pieces) + [Last(pieces)] == events + (Init(pieces) + [Last(pieces)]);
  }

  lemma InitLast(pieces: seq<string>, last: string)
    ensures Init(pieces + [last]) == pieces && Last(pieces + [last]) == last
  {
  }

  lemma InitThenLast(pieces: seq<string>)
    requires pieces != []
    ensures Init(pieces) + [Last(pieces)] == pieces
  {
  }

  /**
   * Handles each chunk as it comes: the complete pieces are events, the last piece waits for more. The events
   * are those of splitting the whole stream once, so they do not depend on where it was cut.
   */
  method ReadStream(chunks: seq<string>) returns (events: seq<string>, buffer: string)
    ensures events + [buffer] == Split(Concat(chunks))
  {
    events, buffer := [], "";
    for i := 0 to |chunks|
      invariant events + [buffer] == Split(Concat(chunks[..i]))
    {
      hide Split, Init, Last;
      assert chunks[..i + 1][..i] == chunks[..i];
      OneChunk(events, buffer, Concat(chunks[..i]), chunks[i]);
      buffer := buffer + chunks[i];
      var pieces := Split(buffer);
      buffer := Last(pieces);
      events := events + Init(pieces);
    }
    assert chunks[..|chunks|] == chunks;
  }

  predicate AllWhole(pieces: seq<string>) {
    pieces != [] ==> FindBlankLine(pieces[0], 0).None? && AllWhole(pieces[1..])
  }

  lemma AllWholeCons(head: string, pieces: seq<string>)
    requires FindBlankLine(head, 0).None? && AllWhole(pieces)
    ensures AllWhole([head] + pieces)
  {
    assert ([head] + pieces)[1..] == pieces;
  }

  /** No event contains a blank line: none is left unsplit. */
  lemma {:induction false} PiecesHaveNoBlankLine(s: string)
    ensures AllWhole(Split(s))
    decreases |s|
  {
    var m := FindBlankLine(s, 0);
    if m.Some? {
      SplitAt(s, m.value);
      HeadHasNoBlankLine(s, m.value);
      hide Split, BlankLine, FindBlankLine, AllWhole;
      var rest := s[m.value + BlankLine(s, m.value)..];
      PiecesHaveNoBlankLine(rest);
      AllWholeCons(s[..m.value], Split(rest));
    }
  }

  lemma HeadHasNoBlankLine(s: string, m: nat)
    requires FindBlankLine(s, 0) == Some(m)
    ensures FindBlankLine(s[..m], 0).None?
  {
    var k := FindBlankLine(s[..m], 0);
    if k.Some? {
      assert s == s[..m] + s[m..];
      CompleteBlankLine(s[..m], s[m..], k.value);
    }
  }

  /** The separators between consecutive pieces, in order. */
  function Separators(s: string): seq<string>
    decreases |s|
  {
    var m := FindBlankLine(s, 0);
    if m.None? then []
    else
      var end := m.value + BlankLine(s, m.value);
      [s[m.value..end]] + Separators(s[end..])
  }

  function Interleave(pieces: seq<string>, separators: seq<string>): string
    requires |pieces| == |separators| + 1
  {
    if separators == [] then pieces[0] else pieces[0] + separators[0] + Interleave(pieces[1..], separators[1..])
  }

  predicate IsBlankLine(s: string) {
    s in {"\n\n", "\r\n\n", "\n\r\n", "\r\n\r\n"}
  }

  /** Nothing of the stream is lost or invented: pieces and blank lines alternate and make up all of it. */
  lemma {:induction false} SplitLosesNothing(s: string)
    ensures |Split(s)| == |Separators(s)| + 1
    ensures Interleave(Split(s), Separators(s)) == s
    ensures forall i | 0 <= i < |Separators(s)| :: IsBlankLine(Separators(s)[i])
    decreases |s|
  {
    var m := FindBlankLine(s, 0);
    if m.Some? {
      var end := m.value + BlankLine(s, m.value);
      SplitAt(s, m.value);
      hide Split, BlankLine, IsBlankLine, Interleave;
      SplitLosesNothing(s[end..]);
      BlankLineIs(s, m.value);
      InterleaveCons(s[..m.value], Split(s[end..]), s[m.value..end], Separators(s[end..]));
      CutTwice(s, m.value, end);
    }
  }

  lemma InterleaveCons(piece: string, pieces: seq<string>, separator: string, separators: seq<string>)
    requires |pieces| == |separators| + 1
    ensures Interleave([piece] + pieces, [separator] + separators) == piece + separator + Interleave(pieces, separators)
  {
    assert ([piece] + pieces)[1..] == pieces && ([separator] + separators)[1..] == separators;
  }

  lemma CutTwice(s: string, m: nat, end: nat)
    requires m <= end <= |s|
    ensures s == s[..m] + s[m..end] + s[end..]
  {
  }

  lemma BlankLineIs(s: string, i: nat)
    requires BlankLine(s, i) > 0
    ensures i + BlankLine(s, i) <= |s| && IsBlankLine(s[i..i + BlankLine(s, i)])
  {
    var n := BlankLine(s, i);
    var w := s[i..i + n];
    if n == 2 {
      assert w == [s[i], s[i + 1]];
    } else if n == 3 {
      assert w == [s[i], s[i + 1], s[i + 2]];
    } else {
      assert w == [s[i], s[i + 1], s[i + 2], s[i + 3]];
    }
  }
}
