/**
 * The framing of the event stream against section 9.2 of the WHATWG HTML Standard, which also ends lines at a
 * carriage return alone: when do the two dispatch the same events?
 */
module EventFraming {
  import opened Options
  import opened EventStream

  /** A carriage return that no line feed follows. */
  predicate LoneReturn(s: string, i: nat) {
    At(s, i, '\r') && !At(s, i + 1, '\n')
  }

  predicate HasLoneReturn(s: string) {
    exists i | 0 <= i < |s| :: LoneReturn(s, i)
  }

  /** The length of the line end at the front; lone says whether a carriage return alone is one. */
  function FrontLineEnd(s: string, lone: bool): nat {
    if lone && LoneReturn(s, 0) then 1 else LineEnd(s, 0)
  }

  /** The lines; the last one is unfinished. */
  function Lines(s: string, lone: bool): (lines: seq<string>)
    ensures lines != []
    decreases |s|
  {
    if s == "" then [""]
    else
      var n := FrontLineEnd(s, lone);
      if n > 0 then [""] + Lines(s[n..], lone)
      else
        Longer(s[0], Lines(s[1..], lone))
  }

  /** The first line, one character longer. */
  function Longer(c: char, lines: seq<string>): (longer: seq<string>)
    requires lines != []
    ensures longer != []
  {
    [[c] + lines[0]] + lines[1..]
  }

  /** A group without lines is no event. */
  function Event(lines: seq<string>): seq<seq<string>> {
    if lines == [] then [] else [lines]
  }

  /** An empty line dispatches the non-empty ones before it; whatever no empty line follows is dropped. */
  function Groups(open: seq<string>, lines: seq<string>): seq<seq<string>>
    decreases |lines|
  {
    if lines == [] then []
    else if lines[0] == "" then Event(open) + Groups([], lines[1..])
    else Groups(open + [lines[0]], lines[1..])
  }

  /** The events of the standard. */
  function Standard(s: string): seq<seq<string>> {
    Groups([], Init(Lines(s, true)))
  }

  function NonEmpty(lines: seq<string>): seq<string> {
    if lines == [] then []
    else (if lines[0] == "" then [] else [lines[0]]) + NonEmpty(lines[1..])
  }

  /** The events of the reader: the non-empty lines of each complete piece. */
  function Events(pieces: seq<string>): seq<seq<string>> {
    if pieces == [] then [] else Event(NonEmpty(Lines(pieces[0], false))) + Events(pieces[1..])
  }

  function Framed(s: string): seq<seq<string>> {
    Events(Init(Split(s)))
  }

  // ---------------------------------------------------------------------------
  // Lines around a blank line
  // ---------------------------------------------------------------------------

  predicate IsLineEnd(e: string) {
    e in {"\n", "\r\n"}
  }

  /** No carriage return in front of e completes e to a longer line end. */
  predicate Apart(s: string, e: string) {
    e == "\n" && s != "" ==> s[|s| - 1] != '\r'
  }

  lemma LineEndTurns(e: string, t: string, lone: bool)
    requires IsLineEnd(e)
    ensures Lines(e + t, lone) == [""] + Lines(t, lone)
  {
    assert (e + t)[|e|..] == t;
    if e == "\n" {
      assert (e + t)[0] == '\n';
    } else {
      assert (e + t)[0] == '\r' && (e + t)[1] == '\n';
    }
  }

  lemma SameFrontEnd(s: string, e: string, t: string, lone: bool)
    requires s != "" && IsLineEnd(e) && Apart(s, e)
    ensures FrontLineEnd(s + e + t, lone) == FrontLineEnd(s, lone) <= |s|
  {
    var u := s + e + t;
    assert u[0] == s[0];
    if |s| > 1 {
      assert u[1] == s[1];
    } else {
      assert u[1] == e[0];
    }
  }

  /** A line end between two texts separates their lines. */
  lemma {:induction false} LinesConcat(s: string, e: string, t: string, lone: bool)
    requires IsLineEnd(e) && Apart(s, e)
    ensures Lines(s + e + t, lone) == Lines(s, lone) + Lines(t, lone)
    decreases |s|
  {
    hide FrontLineEnd, IsLineEnd, Lines, Longer;
    if s == "" {
      assert s + e + t == e + t;
      LineEndTurns(e, t, lone);
      NoLines(lone);
    } else {
      SameFrontEnd(s, e, t, lone);
      LinesStep(s, lone);
      LinesStep(s + e + t, lone);
      var n := FrontLineEnd(s, lone);
      var k := if n > 0 then n else 1;
      Onwards(s, e, t, k);
      hide Apart;
      LinesConcat(s[k..], e, t, lone);
      LongerConcat(s[0], Lines(s[k..], lone), Lines(t, lone));
      assert [""] + (Lines(s[k..], lone) + Lines(t, lone)) == [""] + Lines(s[k..], lone) + Lines(t, lone);
    }
  }

  lemma NoLines(lone: bool)
    ensures Lines("", lone) == [""]
  {
  }

  lemma LinesStep(s: string, lone: bool)
    requires s != "" && FrontLineEnd(s, lone) <= |s|
    ensures var n := FrontLineEnd(s, lone);
            Lines(s, lone) == if n > 0 then [""] + Lines(s[n..], lone) else Longer(s[0], Lines(s[1..], lone))
  {
  }

  lemma LongerConcat(c: char, a: seq<string>, b: seq<string>)
    requires a != []
    ensures Longer(c, a + b) == Longer(c, a) + b
  {
  }

  lemma Onwards(s: string, e: string, t: string, k: nat)
    requires 0 < k <= |s| && Apart(s, e)
    ensures (s + e + t)[k..] == s[k..] + e + t && (s + e + t)[0] == s[0] && Apart(s[k..], e)
  {
  }

  /** A stream around its first blank line: the first piece, two line ends, and the rest. */
  lemma Parts(s: string, m: nat) returns (p: string, e: string, f: string, rest: string)
    requires FindBlankLine(s, 0) == Some(m)
    ensures m + BlankLine(s, m) <= |s| && p == s[..m] && rest == s[m + BlankLine(s, m)..]
    ensures s == p + e + (f + rest) && IsLineEnd(e) && IsLineEnd(f) && Apart(p, e)
    ensures |p| == m && |e| + |f| == BlankLine(s, m)
  {
    LineEndIs(s, m);
    LineEndIs(s, m + LineEnd(s, m));
    if m > 0 {
      NoReturnBefore(s, m);
    }
    var first, n := LineEnd(s, m), BlankLine(s, m);
    hide BlankLine, LineEnd, FindBlankLine, IsLineEnd;
    p, e, f, rest := s[..m], s[m..m + first], s[m + first..m + n], s[m + n..];
    assert s == p + e + (f + rest);
  }

  /** A carriage return in front of a blank line would be part of it. */
  lemma NoReturnBefore(s: string, m: nat)
    requires m > 0 && BlankLine(s, m) > 0 && BlankLine(s, m - 1) == 0
    ensures s[m] == '\n' ==> s[m - 1] != '\r'
  {
  }

  lemma LineEndIs(s: string, i: nat)
    requires LineEnd(s, i) > 0
    ensures i + LineEnd(s, i) <= |s| && IsLineEnd(s[i..i + LineEnd(s, i)])
  {
    if At(s, i, '\n') {
      assert s[i..i + 1] == "\n";
    } else {
      assert s[i..i + 2] == "\r\n";
    }
  }

  lemma LinesAt(s: string, m: nat, lone: bool)
    requires FindBlankLine(s, 0) == Some(m)
    ensures m + BlankLine(s, m) <= |s|
    ensures Lines(s, lone) == Lines(s[..m], lone) + [""] + Lines(s[m + BlankLine(s, m)..], lone)
  {
    hide FindBlankLine, BlankLine, Lines, IsLineEnd, Apart;
    var p, e, f, rest := Parts(s, m);
    LinesConcat(p, e, f + rest, lone);
    LineEndTurns(f, rest, lone);
  }

  // ---------------------------------------------------------------------------
  // Groups
  // ---------------------------------------------------------------------------

  /** An empty line closes everything before it. */
  lemma {:induction false} GroupsConcat(open: seq<string>, a: seq<string>, b: seq<string>)
    ensures Groups(open, a + [""] + b) == Groups(open, a + [""]) + Groups([], b)
    decreases |a|
  {
    if a == [] {
      assert [] + [""] + b == [""] + b && ([""] + b)[1..] == b && [] + [""] == [""];
    } else {
      assert (a + [""] + b)[1..] == a[1..] + [""] + b && (a + [""])[1..] == a[1..] + [""];
      GroupsConcat([], a[1..], b);
      GroupsConcat(open + [a[0]], a[1..], b);
    }
  }

  lemma StandardAt(s: string, m: nat)
    requires FindBlankLine(s, 0) == Some(m)
    ensures m + BlankLine(s, m) <= |s|
    ensures Standard(s) == Groups([], Lines(s[..m], true) + [""]) + Standard(s[m + BlankLine(s, m)..])
  {
    hide FindBlankLine, BlankLine, Lines, Groups;
    LinesAt(s, m, true);
    var p, rest := Lines(s[..m], true), Lines(s[m + BlankLine(s, m)..], true);
    assert Init(p + [""] + rest) == p + [""] + Init(rest);
    GroupsConcat([], p, Init(rest));
  }

  lemma FramedAt(s: string, m: nat)
    requires FindBlankLine(s, 0) == Some(m)
    ensures m + BlankLine(s, m) <= |s|
    ensures Framed(s) == Event(NonEmpty(Lines(s[..m], false))) + Framed(s[m + BlankLine(s, m)..])
  {
    var rest := s[m + BlankLine(s, m)..];
    SplitAt(s, m);
    InitLastOfCons(s[..m], Split(rest));
    assert ([s[..m]] + Init(Split(rest)))[1..] == Init(Split(rest));
  }

  // ---------------------------------------------------------------------------
  // One piece
  // ---------------------------------------------------------------------------

  /** Only the first and the last line may be empty. */
  predicate Tight(lines: seq<string>) {
    forall i | 0 < i < |lines| - 1 :: lines[i] != ""
  }

  lemma TightFurther(c: char, lines: seq<string>)
    requires lines != [] && Tight(lines)
    ensures Tight(Longer(c, lines))
    ensures (|lines| > 1 ==> lines[0] != "") ==> Tight([""] + lines)
  {
  }

  lemma {:induction false} PieceIsTight(p: string)
    requires FindBlankLine(p, 0).None?
    ensures Tight(Lines(p, false))
    decreases |p|
  {
    hide Tight, Lines, LineEnd, BlankLine, Longer, FindBlankLine;
    if p == "" {
      OneLineIsTight();
    } else {
      LineEndInside(p);
      LinesStep(p, false);
      var n := LineEnd(p, 0);
      var k := if n > 0 then n else 1;
      SuffixHasNoBlankLine(p, k);
      PieceIsTight(p[k..]);
      TightFurther(p[0], Lines(p[k..], false));
      if n > 0 {
        NoSecondLineEnd(p);
        FirstLineNotEmpty(p[n..]);
      }
    }
  }

  lemma LineEndInside(p: string)
    ensures LineEnd(p, 0) <= |p| && FrontLineEnd(p, false) == LineEnd(p, 0)
  {
  }

  lemma OneLineIsTight()
    ensures Tight(Lines("", false))
  {
  }

  lemma NoSecondLineEnd(p: string)
    requires FindBlankLine(p, 0).None? && LineEnd(p, 0) > 0
    ensures LineEnd(p, 0) <= |p| && LineEnd(p[LineEnd(p, 0)..], 0) == 0
  {
    assert BlankLine(p, 0) == 0;
    LineEndInSuffix(p, LineEnd(p, 0), 0);
  }

  lemma FirstLineNotEmpty(s: string)
    requires LineEnd(s, 0) == 0
    ensures |Lines(s, false)| > 1 ==> Lines(s, false)[0] != ""
  {
  }

  lemma SuffixHasNoBlankLine(p: string, k: nat)
    requires FindBlankLine(p, 0).None? && k <= |p|
    ensures FindBlankLine(p[k..], 0).None?
  {
    var m := FindBlankLine(p[k..], 0);
    if m.Some? {
      BlankLineInSuffix(p, k, m.value);
    }
  }

  lemma BlankLineInSuffix(p: string, k: nat, i: nat)
    requires k <= |p|
    ensures BlankLine(p, k + i) == BlankLine(p[k..], i)
  {
    LineEndInSuffix(p, k, i);
    LineEndInSuffix(p, k, i + LineEnd(p[k..], i));
  }

  lemma LineEndInSuffix(p: string, k: nat, i: nat)
    requires k <= |p|
    ensures LineEnd(p, k + i) == LineEnd(p[k..], i)
  {
    assert At(p, k + i, '\n') == At(p[k..], i, '\n') && At(p, k + i, '\r') == At(p[k..], i, '\r');
    assert At(p, k + i + 1, '\n') == At(p[k..], i + 1, '\n');
  }

  lemma {:induction false} NonEmptyStays(lines: seq<string>)
    requires forall i | 0 <= i < |lines| :: lines[i] != ""
    ensures NonEmpty(lines) == lines
  {
    if lines != [] {
      NonEmptyStays(lines[1..]);
    }
  }

  lemma {:induction false} NonEmptyConcat(a: seq<string>, b: seq<string>)
    ensures NonEmpty(a + b) == NonEmpty(a) + NonEmpty(b)
    decreases |a|
  {
    if a == [] {
      assert a + b == b;
    } else {
      assert (a + b)[1..] == a[1..] + b;
      NonEmptyConcat(a[1..], b);
    }
  }

  lemma {:induction false} GroupsOpen(open: seq<string>, a: seq<string>, b: seq<string>)
    requires forall i | 0 <= i < |a| :: a[i] != ""
    ensures Groups(open, a + b) == Groups(open + a, b)
    decreases |a|
  {
    if a == [] {
      assert a + b == b && open + a == open;
    } else {
      assert (a + b)[1..] == a[1..] + b && open + [a[0]] + a[1..] == open + a;
      GroupsOpen(open + [a[0]], a[1..], b);
    }
  }

  lemma FullLinesAreOneEvent(lines: seq<string>)
    requires lines != [] && forall i | 0 <= i < |lines| - 1 :: lines[i] != ""
    ensures Groups([], lines + [""]) == Event(NonEmpty(lines))
  {
    hide Groups, NonEmpty, Event;
    var last := |lines| - 1;
    var inner, end := lines[..last], [lines[last]];
    assert lines == inner + end && lines + [""] == inner + (end + [""]) && [] + inner == inner;
    GroupsOpen([], inner, end + [""]);
    CloseOnce(inner, lines[last]);
    NonEmptyConcat(inner, end);
    NonEmptyStays(inner);
  }

  /** The lines of a piece, closed by an empty line, are one event. */
  lemma TightIsOneEvent(lines: seq<string>)
    requires lines != [] && Tight(lines)
    ensures Groups([], lines + [""]) == Event(NonEmpty(lines))
  {
    if |lines| > 1 && lines[0] == "" {
      SkipEmpty(lines);
      FullLinesAreOneEvent(lines[1..]);
    } else {
      FullLinesAreOneEvent(lines);
    }
  }

  lemma CloseOnce(open: seq<string>, last: string)
    ensures Groups(open, [last] + [""]) == Event(open + NonEmpty([last]))
  {
    assert ([last] + [""])[1..] == [""] && [""][1..] == [] && [last][1..] == [];
    assert forall o: seq<string> :: Groups(o, [""]) == Event(o);
    if last == "" {
      assert NonEmpty([last]) == [] && open + [] == open;
    } else {
      assert NonEmpty([last]) == [last];
    }
  }

  lemma SkipEmpty(lines: seq<string>)
    requires lines != []
    ensures lines[0] == "" ==>
              && Groups([], lines + [""]) == Groups([], lines[1..] + [""])
              && NonEmpty(lines) == NonEmpty(lines[1..])
  {
    assert (lines + [""])[1..] == lines[1..] + [""];
  }

  /** What no empty line closes is not dispatched. */
  lemma TightIsUnfinished(lines: seq<string>)
    requires lines != [] && Tight(lines)
    ensures Groups([], Init(lines)) == []
  {
    var open := Init(lines);
    var from := if open != [] && open[0] == "" then 1 else 0;
    assert open[from..] + [] == open[from..];
    GroupsOpen([], open[from..], []);
  }

  // ---------------------------------------------------------------------------
  // Carriage returns
  // ---------------------------------------------------------------------------

  lemma SuffixHasNoLoneReturn(s: string, k: nat)
    requires !HasLoneReturn(s) && k <= |s|
    ensures !HasLoneReturn(s[k..])
  {
    if HasLoneReturn(s[k..]) {
      var i :| 0 <= i < |s[k..]| && LoneReturn(s[k..], i);
      LoneReturnInSuffix(s, k, i);
    }
  }

  lemma LoneReturnInSuffix(s: string, k: nat, i: nat)
    requires k <= |s|
    ensures LoneReturn(s, k + i) == LoneReturn(s[k..], i)
  {
  }

  lemma {:induction false} SameLines(s: string)
    requires !HasLoneReturn(s)
    ensures Lines(s, true) == Lines(s, false)
    decreases |s|
  {
    if s != "" {
      assert !LoneReturn(s, 0);
      var n := LineEnd(s, 0);
      var k := if n > 0 then n else 1;
      SuffixHasNoLoneReturn(s, k);
      SameLines(s[k..]);
    }
  }

  predicate NoReturns(lines: seq<string>) {
    forall i | 0 <= i < |lines| :: '\r' !in lines[i]
  }

  predicate Clean(events: seq<seq<string>>) {
    forall i | 0 <= i < |events| :: NoReturns(events[i])
  }

  /** A line of the standard never holds a carriage return. */
  lemma {:induction false} StandardLinesHoldNoReturn(s: string)
    ensures NoReturns(Lines(s, true))
    decreases |s|
  {
    if s != "" {
      var n := FrontLineEnd(s, true);
      StandardLinesHoldNoReturn(s[if n > 0 then n else 1..]);
    }
  }

  lemma {:induction false} GroupsAreClean(open: seq<string>, lines: seq<string>)
    requires NoReturns(open) && NoReturns(lines)
    ensures Clean(Groups(open, lines))
    decreases |lines|
  {
    if lines != [] {
      if lines[0] == "" {
        GroupsAreClean([], lines[1..]);
      } else {
        GroupsAreClean(open + [lines[0]], lines[1..]);
      }
    }
  }

  /** A carriage return alone stays inside a line of the reader. */
  lemma {:induction false} LoneReturnStays(s: string)
    requires NoReturns(Lines(s, false))
    ensures !HasLoneReturn(s)
    decreases |s|
  {
    if s != "" {
      var n := LineEnd(s, 0);
      var k := if n > 0 then n else 1;
      FrontHoldsNoReturn(s);
      hide Lines, NoReturns, LineEnd, LoneReturn;
      LoneReturnStays(s[k..]);
      forall i | 0 <= i < |s| ensures !LoneReturn(s, i) {
        if i < k {
          NoLoneReturnInFront(s, i);
        } else {
          LoneReturnInSuffix(s, k, i - k);
        }
      }
    }
  }

  lemma NoReturnsFurther(c: char, lines: seq<string>)
    requires lines != []
    ensures NoReturns(Longer(c, lines)) <==> c != '\r' && NoReturns(lines)
    ensures NoReturns([""] + lines) <==> NoReturns(lines)
  {
    var longer, below := Longer(c, lines), [""] + lines;
    assert longer[0] == [c] + lines[0] && forall i | 0 < i < |lines| :: longer[i] == lines[i];
    assert forall i | 0 <= i < |lines| :: below[i + 1] == lines[i];
  }

  lemma NoLoneReturnInFront(s: string, i: nat)
    requires (s != "" && s[0] != '\r') || LineEnd(s, 0) > 0
    requires i < LineEnd(s, 0) || i == 0
    ensures !LoneReturn(s, i)
  {
  }

  lemma FrontHoldsNoReturn(s: string)
    requires s != "" && NoReturns(Lines(s, false))
    ensures LineEnd(s, 0) <= |s|
    ensures LineEnd(s, 0) == 0 ==> s[0] != '\r' && NoReturns(Lines(s[1..], false))
    ensures LineEnd(s, 0) > 0 ==> NoReturns(Lines(s[LineEnd(s, 0)..], false))
  {
    LineEndInside(s);
    LinesStep(s, false);
    hide Lines, Longer, NoReturns, LineEnd, FrontLineEnd;
    var n := LineEnd(s, 0);
    NoReturnsFurther(s[0], Lines(s[if n > 0 then n else 1..], false));
  }

  lemma {:induction false} NonEmptyHoldsAll(lines: seq<string>)
    requires NoReturns(NonEmpty(lines))
    ensures NoReturns(lines)
  {
    if lines != [] {
      var rest := NonEmpty(lines[1..]);
      forall i | 0 <= i < |rest| ensures '\r' !in rest[i] {
        assert rest[i] == NonEmpty(lines)[if lines[0] == "" then i else i + 1];
      }
      NonEmptyHoldsAll(lines[1..]);
      assert lines[0] != "" ==> lines[0] == NonEmpty(lines)[0];
    }
  }

  // ---------------------------------------------------------------------------
  // The whole stream
  // ---------------------------------------------------------------------------

  predicate WithoutLoneReturns(pieces: seq<string>) {
    forall i | 0 <= i < |pieces| :: !HasLoneReturn(pieces[i])
  }

  lemma OnePieceFramed(p: string)
    requires FindBlankLine(p, 0).None? && !HasLoneReturn(p)
    ensures Groups([], Lines(p, true) + [""]) == Event(NonEmpty(Lines(p, false)))
    ensures Standard(p) == []
  {
    PieceIsTight(p);
    SameLines(p);
    TightIsOneEvent(Lines(p, false));
    TightIsUnfinished(Lines(p, false));
  }

  /** Without lone returns in complete pieces the reader is ahead of the standard by nothing but the last piece. */
  lemma {:induction false} FramedThenTail(s: string)
    requires WithoutLoneReturns(Init(Split(s)))
    ensures Standard(s) == Framed(s) + Standard(Last(Split(s)))
    decreases |s|
  {
    hide Split, Standard, Framed, Init, Last, WithoutLoneReturns, HasLoneReturn, BlankLine, FindBlankLine;
    hide Lines, Groups, NonEmpty, Event;
    var m := FindBlankLine(s, 0);
    if m.None? {
      OnePieceFrames(s);
    } else {
      StandardAt(s, m.value);
      FramedAt(s, m.value);
      var p, rest := s[..m.value], s[m.value + BlankLine(s, m.value)..];
      HeadAndRest(s, m.value);
      PiecesWithoutLoneReturns(p, Init(Split(rest)));
      OnePieceFramed(p);
      FramedThenTail(rest);
      assert Event(NonEmpty(Lines(p, false))) + (Framed(rest) + Standard(Last(Split(s))))
          == Event(NonEmpty(Lines(p, false))) + Framed(rest) + Standard(Last(Split(s)));
    }
  }

  lemma OnePieceFrames(s: string)
    requires FindBlankLine(s, 0).None?
    ensures Standard(s) == Framed(s) + Standard(Last(Split(s)))
  {
    assert Split(s) == [s] && Init([s]) == [] && Last([s]) == s;
  }

  lemma HeadAndRest(s: string, m: nat)
    requires FindBlankLine(s, 0) == Some(m)
    ensures m + BlankLine(s, m) <= |s| && FindBlankLine(s[..m], 0).None? && BlankLine(s, m) > 0
    ensures Init(Split(s)) == [s[..m]] + Init(Split(s[m + BlankLine(s, m)..]))
    ensures Last(Split(s)) == Last(Split(s[m + BlankLine(s, m)..]))
  {
    SplitAt(s, m);
    HeadHasNoBlankLine(s, m);
    InitLastOfCons(s[..m], Split(s[m + BlankLine(s, m)..]));
  }

  lemma PiecesWithoutLoneReturns(p: string, pieces: seq<string>)
    requires WithoutLoneReturns([p] + pieces)
    ensures !HasLoneReturn(p) && WithoutLoneReturns(pieces)
  {
    hide HasLoneReturn;
    assert ([p] + pieces)[0] == p;
    assert forall i | 0 <= i < |pieces| :: pieces[i] == ([p] + pieces)[i + 1];
  }

  lemma CleanConcat(a: seq<seq<string>>, b: seq<seq<string>>)
    requires Clean(a + b)
    ensures Clean(a) && Clean(b)
  {
    assert forall i | 0 <= i < |a| :: a[i] == (a + b)[i];
    assert forall i | 0 <= i < |b| :: b[i] == (a + b)[|a| + i];
  }

  /** A lone return in a complete piece shows in an event of the reader. */
  lemma {:induction false} CleanEvents(pieces: seq<string>)
    requires Clean(Events(pieces))
    ensures WithoutLoneReturns(pieces)
  {
    if pieces != [] {
      var lines := Lines(pieces[0], false);
      CleanConcat(Event(NonEmpty(lines)), Events(pieces[1..]));
      assert NonEmpty(lines) != [] ==> NoReturns(Event(NonEmpty(lines))[0]);
      NonEmptyHoldsAll(lines);
      LoneReturnStays(pieces[0]);
      CleanEvents(pieces[1..]);
      assert forall i | 0 < i < |pieces| :: pieces[i] == pieces[1..][i - 1];
    }
  }

  /**
   * For every stream: the reader's events are those of the standard if and only if no complete piece holds
   * a lone carriage return and the standard finds no event in the last piece either.
   */
  lemma FramingIsStandardIff(s: string)
    ensures Framed(s) == Standard(s)
       <==> WithoutLoneReturns(Init(Split(s))) && Standard(Last(Split(s))) == []
  {
    hide Split, Init, Last, Lines, Groups, Events, HasLoneReturn;
    if Framed(s) == Standard(s) {
      StandardLinesHoldNoReturn(s);
      InitHoldsNoReturn(Lines(s, true));
      GroupsAreClean([], Init(Lines(s, true)));
      CleanEvents(Init(Split(s)));
    }
    if WithoutLoneReturns(Init(Split(s))) {
      FramedThenTail(s);
    }
  }

  lemma InitHoldsNoReturn(lines: seq<string>)
    requires lines != [] && NoReturns(lines)
    ensures NoReturns(Init(lines))
  {
  }

  /** Cutting at blank lines neither hides nor makes a lone return. */
  lemma {:induction false} LoneReturnInPiece(s: string)
    ensures HasLoneReturn(s) <==> !WithoutLoneReturns(Split(s))
    decreases |s|
  {
    hide HasLoneReturn, WithoutLoneReturns, BlankLine;
    var m := FindBlankLine(s, 0);
    if m.None? {
      assert Split(s) == [s] && [s] == [s] + [];
      ConsLoneReturns(s, []);
      NothingWithoutLoneReturns();
    } else {
      var p, rest := s[..m.value], s[m.value + BlankLine(s, m.value)..];
      SplitAt(s, m.value);
      hide Split;
      LoneReturnAt(s, m.value);
      LoneReturnInPiece(rest);
      ConsLoneReturns(p, Split(rest));
    }
  }

  lemma NothingWithoutLoneReturns()
    ensures WithoutLoneReturns([])
  {
  }

  lemma ConsLoneReturns(p: string, pieces: seq<string>)
    ensures WithoutLoneReturns([p] + pieces) <==> !HasLoneReturn(p) && WithoutLoneReturns(pieces)
  {
    hide HasLoneReturn;
    if WithoutLoneReturns([p] + pieces) {
      PiecesWithoutLoneReturns(p, pieces);
    }
  }

  lemma LoneReturnAt(s: string, m: nat)
    requires FindBlankLine(s, 0) == Some(m)
    ensures m + BlankLine(s, m) <= |s|
    ensures HasLoneReturn(s) <==> HasLoneReturn(s[..m]) || HasLoneReturn(s[m + BlankLine(s, m)..])
  {
    var end := m + BlankLine(s, m);
    hide BlankLine, LoneReturn, FindBlankLine;
    if HasLoneReturn(s) {
      var i :| 0 <= i < |s| && LoneReturn(s, i);
      if i < m {
        LoneReturnInPrefix(s, m, i);
      } else {
        NoLoneReturnBetween(s, m, i);
        LoneReturnInSuffix(s, end, i - end);
      }
    }
    if HasLoneReturn(s[..m]) {
      var i :| 0 <= i < m && LoneReturn(s[..m], i);
      LoneReturnInPrefix(s, m, i);
    }
    if HasLoneReturn(s[end..]) {
      var i :| 0 <= i < |s[end..]| && LoneReturn(s[end..], i);
      LoneReturnInSuffix(s, end, i);
    }
  }

  lemma LoneReturnInPrefix(s: string, m: nat, i: nat)
    requires FindBlankLine(s, 0) == Some(m) && i < m
    ensures LoneReturn(s, i) == LoneReturn(s[..m], i)
  {
    NoReturnBefore(s, m);
  }

  lemma NoLoneReturnBetween(s: string, m: nat, i: nat)
    requires FindBlankLine(s, 0) == Some(m) && m <= i && LoneReturn(s, i)
    ensures i >= m + BlankLine(s, m)
  {
  }

  /** The last piece never holds a blank line. */
  lemma {:induction false} TailHasNoBlankLine(s: string)
    ensures FindBlankLine(Last(Split(s)), 0).None?
    decreases |s|
  {
    var m := FindBlankLine(s, 0);
    if m.Some? {
      var rest := s[m.value + BlankLine(s, m.value)..];
      SplitAt(s, m.value);
      InitLastOfCons(s[..m.value], Split(rest));
      TailHasNoBlankLine(rest);
    }
  }

  /** A stream without lone carriage returns is framed as the standard says, wherever it breaks off. */
  lemma FramingWithoutLoneReturns(s: string)
    requires !HasLoneReturn(s)
    ensures Framed(s) == Standard(s)
  {
    hide Split, HasLoneReturn, Standard, Framed, Lines;
    LoneReturnInPiece(s);
    InitThenLast(Split(s));
    assert Last(Split(s)) == Split(s)[|Split(s)| - 1];
    TailHasNoBlankLine(s);
    OnePieceFramed(Last(Split(s)));
    FramingIsStandardIff(s);
  }

  /** What the reader has dispatched after any chunks is what it dispatches of the whole text. */
  lemma ReadIsFramed(chunks: seq<string>, events: seq<string>, buffer: string)
    requires events + [buffer] == Split(Concat(chunks))
    ensures Events(events) == Framed(Concat(chunks))
  {
    InitLast(events, buffer);
  }

  /** A stream that ends with a blank line is framed as the standard says exactly if it holds no lone return. */
  lemma CompleteFramingIsStandardIff(s: string)
    requires Last(Split(s)) == ""
    ensures Framed(s) == Standard(s) <==> !HasLoneReturn(s)
  {
    hide Split, Framed;
    FramingIsStandardIff(s);
    LoneReturnInPiece(s);
    InitThenLast(Split(s));
    var pieces := Split(s);
    assert forall i | 0 <= i < |pieces| - 1 :: Init(pieces)[i] == pieces[i];
    assert !HasLoneReturn("");
  }

  const MISSED: string := "a\rb\n\n"

  lemma MissedIsCut()
    ensures FindBlankLine(MISSED, 0) == Some(3) && BlankLine(MISSED, 3) == 2
    ensures MISSED[..3] == "a\rb" && MISSED[5..] == ""
  {
    assert LineEnd(MISSED, 0) == 0 && LineEnd(MISSED, 1) == 0 && LineEnd(MISSED, 2) == 0;
  }

  /** Letters only lengthen the line behind them. */
  lemma LetterLines(c: char, t: string, lone: bool)
    requires c != '\r' && c != '\n'
    ensures Lines([c] + t, lone) == Longer(c, Lines(t, lone))
  {
    assert ([c] + t)[1..] == t;
  }

  lemma ReturnLines()
    ensures Lines("\rb", false) == ["\rb"] && Lines("\rb", true) == ["", "b"]
  {
    var q := "\rb";
    assert "b" + "" == "b" && q[1..] == "b";
    LetterLines('b', "", false);
    LetterLines('b', "", true);
    assert "b" + [] == "b" && ["b"] + [] == ["b"];
    LinesStep(q, true);
    LinesStep(q, false);
    assert "\r" + "b" == q && ["b"][1..] == [];
    assert Lines(q, false) == Longer('\r', ["b"]) == [q];
  }

  lemma MissedLines()
    ensures Lines("a\rb", false) == ["a\rb"] && Lines("a\rb", true) == ["a", "b"]
  {
    hide Lines;
    var q := "\rb";
    ReturnLines();
    LetterLines('a', q, false);
    LetterLines('a', q, true);
    assert ['a'] + q == "a\rb" && ['a'] + "" == "a";
    assert [q][1..] == [] && ["", "b"][1..] == ["b"];
  }

  lemma NothingFramed()
    ensures Framed("") == [] && Standard("") == []
  {
    assert Split("") == [""] && Init([""]) == [];
  }

  /** Two lines for the standard, one for the reader. */
  lemma LoneReturnIsMissed()
    ensures Framed(MISSED) == [["a\rb"]] && Standard(MISSED) == [["a", "b"]]
  {
    hide Lines, FindBlankLine, BlankLine, Split;
    MissedIsCut();
    MissedLines();
    FramedAt(MISSED, 3);
    StandardAt(MISSED, 3);
    NothingFramed();
    TightIsOneEvent(["a", "b"]);
    NonEmptyStays(["a", "b"]);
    NonEmptyStays(["a\rb"]);
  }
}
