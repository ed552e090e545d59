/** `setDirection`, completed: which single direction continues the track
    from the current field, or which defect stops the walk there. */
module Resolver {
  import opened Outcomes
  import opened Glyphs
  import opened Matrix

  /** A neighbour the walk may move to: in bounds for its own row and holding a track glyph. */
  predicate IsExit(m: Grid, p: Position, d: Direction) {
    IsGlyphAt(m, Neighbour(p, d))
  }

  /** True when `d` would go straight back to the field the walk came from. */
  predicate IsReverse(heading: Option<Direction>, d: Direction) {
    heading == Some(Opposite(d))
  }

  /** True when `d` leaves the axis of the heading; before the first step every direction does. */
  predicate Crosses(heading: Option<Direction>, d: Direction) {
    heading.None? || IsVertical(d) != IsVertical(heading.value)
  }

  /** `[d]` when `b` holds, else nothing. */
  function Pick(b: bool, d: Direction): seq<Direction> {
    if b then [d] else []
  }

  /** One probe of `setDirection`: `[d]` when direction `d` is wanted and leads onto the track. */
  function Probe(m: Grid, p: Position, wanted: bool, d: Direction): seq<Direction> {
    Pick(wanted && IsExit(m, p, d), d)
  }

  /** The `directions` array of `setDirection`: the exits of `p` in the order the source
      probes them (up, down, right, left), leaving out the way back. */
  function Candidates(m: Grid, p: Position, heading: Option<Direction>): seq<Direction> {
    Probe(m, p, !IsReverse(heading, Up), Up) + Probe(m, p, !IsReverse(heading, Down), Down)
    + Probe(m, p, !IsReverse(heading, Right), Right) + Probe(m, p, !IsReverse(heading, Left), Left)
  }

  /** The exits of `p` a turn may leave by: those on the other axis than the heading. */
  function TurnExits(m: Grid, p: Position, heading: Option<Direction>): seq<Direction> {
    Probe(m, p, Crosses(heading, Up), Up) + Probe(m, p, Crosses(heading, Down), Down)
    + Probe(m, p, Crosses(heading, Right), Right) + Probe(m, p, Crosses(heading, Left), Left)
  }

  /** The completed `setDirection`. No exit is a dead end; a start field with several
      exits is misplaced; a turn must leave on the other axis through exactly one exit;
      any other field keeps the heading when it can, and otherwise needs a single exit.
      A chosen direction leads onto the track and never straight back. */
  function Resolve(m: Grid, p: Position, heading: Option<Direction>, glyph: Cell): (r: Result<Direction>)
    ensures r.Ok? ==> IsExit(m, p, r.value) && !IsReverse(heading, r.value)
    ensures r.Ok? ==> InBounds(m, Neighbour(p, r.value))
  {
    CandidatesAreExits(m, p, heading);
    TurnExitsAreExits(m, p, heading);
    var cs := Candidates(m, p, heading);
    if |cs| == 0 then Err(BrokenPath)
    else if glyph == START && |cs| > 1 then Err(MisplacedStartGlyph)
    else if glyph == TURN then
      var turns := TurnExits(m, p, heading);
      if |turns| == 0 then Err(FakeTurn)
      else if |turns| > 1 then Err(Fork)
      else
        assert turns[0] in turns;
        Ok(turns[0])
    else if heading.Some? && heading.value in cs then Ok(heading.value)
    else if |cs| == 1 then
      assert cs[0] in cs;
      Ok(cs[0])
    else Err(Fork)
  }

  lemma DirectionCases(d: Direction)
    ensures d == Up || d == Down || d == Right || d == Left
  {
  }

  /** Four picks in probing order: each direction at most once, and present exactly
      when it was picked. */
  lemma FourPicks(u: bool, dn: bool, r: bool, l: bool)
    ensures var s := Pick(u, Up) + Pick(dn, Down) + Pick(r, Right) + Pick(l, Left);
      && (forall d :: d in s <==> (d == Up && u) || (d == Down && dn) || (d == Right && r) || (d == Left && l))
      && (forall i, j :: 0 <= i < j < |s| ==> s[i] != s[j])
  {
  }

  /** The candidates are exactly the exits other than the way back, each once. */
  lemma CandidatesAreExits(m: Grid, p: Position, heading: Option<Direction>)
    ensures forall d :: d in Candidates(m, p, heading) <==> IsExit(m, p, d) && !IsReverse(heading, d)
    ensures forall i, j :: 0 <= i < j < |Candidates(m, p, heading)| ==>
      Candidates(m, p, heading)[i] != Candidates(m, p, heading)[j]
  {
    FourPicks(!IsReverse(heading, Up) && IsExit(m, p, Up), !IsReverse(heading, Down) && IsExit(m, p, Down),
      !IsReverse(heading, Right) && IsExit(m, p, Right), !IsReverse(heading, Left) && IsExit(m, p, Left));
    forall d
      ensures d in Candidates(m, p, heading) <==> IsExit(m, p, d) && !IsReverse(heading, d)
    {
      DirectionCases(d);
    }
  }

  /** The turn exits are exactly the exits on the other axis than the heading, each once. */
  lemma TurnExitsAreExits(m: Grid, p: Position, heading: Option<Direction>)
    ensures forall d :: d in TurnExits(m, p, heading) <==> IsExit(m, p, d) && Crosses(heading, d)
    ensures forall i, j :: 0 <= i < j < |TurnExits(m, p, heading)| ==>
      TurnExits(m, p, heading)[i] != TurnExits(m, p, heading)[j]
  {
    FourPicks(Crosses(heading, Up) && IsExit(m, p, Up), Crosses(heading, Down) && IsExit(m, p, Down),
      Crosses(heading, Right) && IsExit(m, p, Right), Crosses(heading, Left) && IsExit(m, p, Left));
    forall d
      ensures d in TurnExits(m, p, heading) <==> IsExit(m, p, d) && Crosses(heading, d)
    {
      DirectionCases(d);
    }
  }

  /** The two directions on the other axis than `h`, in the order they are probed. */
  function Sideways(h: Direction): (ds: (Direction, Direction))
    ensures IsVertical(ds.0) != IsVertical(h) && IsVertical(ds.1) != IsVertical(h) && ds.0 != ds.1
  {
    if IsVertical(h) then (Right, Left) else (Up, Down)
  }

  /** Arriving with heading `h`, the turn exits are the sideways exits, in probing order,
      and the candidates are the sideways exits with the exit straight ahead. */
  lemma ProbesWhileHeading(m: Grid, p: Position, h: Direction)
    ensures var (a, b) := Sideways(h);
      TurnExits(m, p, Some(h)) == Probe(m, p, true, a) + Probe(m, p, true, b)
    ensures var (a, b) := Sideways(h);
      |Candidates(m, p, Some(h))|
        == |Probe(m, p, true, h)| + |Probe(m, p, true, a)| + |Probe(m, p, true, b)|
  {
    DirectionCases(h);
  }

  /** A turn reached while heading `h`, with `a` and `b` its sideways neighbours:
      one sideways exit is taken, two are a fork, none is a fake turn when the
      track goes on straight, and a broken path when it does not. */
  lemma TurnVerdicts(m: Grid, p: Position, h: Direction)
    ensures var (a, b) := Sideways(h);
      var r := Resolve(m, p, Some(h), TURN);
      && (r == Ok(a) <==> IsExit(m, p, a) && !IsExit(m, p, b))
      && (r == Ok(b) <==> IsExit(m, p, b) && !IsExit(m, p, a))
      && (r == Err(Fork) <==> IsExit(m, p, a) && IsExit(m, p, b))
      && (r == Err(FakeTurn) <==> !IsExit(m, p, a) && !IsExit(m, p, b) && IsExit(m, p, h))
      && (r == Err(BrokenPath) <==> !IsExit(m, p, a) && !IsExit(m, p, b) && !IsExit(m, p, h))
  {
    ProbesWhileHeading(m, p, h);
  }

  /** On a field other than a turn or the start, arriving with heading `h` and no track
      ahead: the walk bends to the one sideways exit; two sideways exits are a fork and
      none a broken path. */
  lemma Bends(m: Grid, p: Position, h: Direction, glyph: Cell)
    requires glyph != TURN && glyph != START && !IsExit(m, p, h)
    ensures var (a, b) := Sideways(h);
      var r := Resolve(m, p, Some(h), glyph);
      && (r == Ok(a) <==> IsExit(m, p, a) && !IsExit(m, p, b))
      && (r == Ok(b) <==> IsExit(m, p, b) && !IsExit(m, p, a))
      && (r == Err(Fork) <==> IsExit(m, p, a) && IsExit(m, p, b))
      && (r == Err(BrokenPath) <==> !IsExit(m, p, a) && !IsExit(m, p, b))
  {
    CandidatesAreExits(m, p, Some(h));
    ProbesWhileHeading(m, p, h);
    var (a, b) := Sideways(h);
    var cs := Candidates(m, p, Some(h));
    assert h !in cs;
    if IsExit(m, p, a) && !IsExit(m, p, b) {
      assert cs == Probe(m, p, true, a) by { DirectionCases(h); }
    } else if IsExit(m, p, b) && !IsExit(m, p, a) {
      assert cs == Probe(m, p, true, b) by { DirectionCases(h); }
    }
  }

  /** On a field other than a turn or the start, arriving with heading `h`: straight on
      when the track goes on ahead, otherwise a bend, a fork or a broken path. */
  lemma StraightOrBend(m: Grid, p: Position, h: Direction, glyph: Cell)
    requires glyph != TURN && glyph != START
    ensures var (a, b) := Sideways(h);
      var r := Resolve(m, p, Some(h), glyph);
      && (IsExit(m, p, h) ==> r == Ok(h))
      && (!IsExit(m, p, h) ==>
        && (r == Ok(a) <==> IsExit(m, p, a) && !IsExit(m, p, b))
        && (r == Ok(b) <==> IsExit(m, p, b) && !IsExit(m, p, a))
        && (r == Err(Fork) <==> IsExit(m, p, a) && IsExit(m, p, b))
        && (r == Err(BrokenPath) <==> !IsExit(m, p, a) && !IsExit(m, p, b)))
  {
    if IsExit(m, p, h) {
      KeepsHeading(m, p, h, glyph);
    } else {
      Bends(m, p, h, glyph);
    }
  }

  /** Leaving the start field: the one exit is taken; none is a broken path; several
      mean the start sits at a junction rather than at an end of the track. */
  lemma StartVerdicts(m: Grid, p: Position, d: Direction)
    ensures var r := Resolve(m, p, None, START);
      && (r == Ok(d) <==> IsExit(m, p, d) && forall e :: IsExit(m, p, e) ==> e == d)
      && (r == Err(BrokenPath) <==> forall e :: !IsExit(m, p, e))
      && (r == Err(MisplacedStartGlyph) <==> exists e, f :: e != f && IsExit(m, p, e) && IsExit(m, p, f))
  {
    CandidatesAreExits(m, p, None);
    var cs := Candidates(m, p, None);
    var r := Resolve(m, p, None, START);
    assert r == if |cs| == 0 then Err(BrokenPath) else if |cs| > 1 then Err(MisplacedStartGlyph) else Ok(cs[0]);
    if |cs| > 1 {
      assert cs[0] != cs[1] && IsExit(m, p, cs[0]) && IsExit(m, p, cs[1]);
      assert !(forall e :: !IsExit(m, p, e));
      assert !(forall e :: IsExit(m, p, e) ==> e == d);
    } else if |cs| == 1 {
      assert forall e :: IsExit(m, p, e) ==> e == cs[0] by {
        forall e | IsExit(m, p, e)
          ensures e == cs[0]
        {
          assert e in cs;
        }
      }
      assert IsExit(m, p, cs[0]);
    } else {
      assert forall e :: !IsExit(m, p, e) by {
        forall e
          ensures !IsExit(m, p, e)
        {
          assert e !in cs;
        }
      }
    }
  }

  /** On a field other than a turn or the start, with the track going on ahead, the walk
      keeps its heading. */
  lemma KeepsHeading(m: Grid, p: Position, h: Direction, glyph: Cell)
    requires glyph != TURN && glyph != START && IsExit(m, p, h)
    ensures Resolve(m, p, Some(h), glyph) == Ok(h)
  {
    CandidatesAreExits(m, p, Some(h));
  }

  /** On a field other than a turn or the start, with no track ahead and exactly one
      sideways exit `d`, the walk bends towards `d`. */
  lemma BendsTo(m: Grid, p: Position, h: Direction, glyph: Cell, d: Direction)
    requires glyph != TURN && glyph != START && !IsExit(m, p, h) && IsExit(m, p, d)
    requires || (d == Sideways(h).0 && !IsExit(m, p, Sideways(h).1))
             || (d == Sideways(h).1 && !IsExit(m, p, Sideways(h).0))
    ensures Resolve(m, p, Some(h), glyph) == Ok(d)
  {
    Bends(m, p, h, glyph);
  }

  /** On a turn with the track going on to exactly one side, the walk turns to that side. */
  lemma TurnsTo(m: Grid, p: Position, h: Direction, d: Direction)
    requires IsExit(m, p, d)
    requires || (d == Sideways(h).0 && !IsExit(m, p, Sideways(h).1))
             || (d == Sideways(h).1 && !IsExit(m, p, Sideways(h).0))
    ensures Resolve(m, p, Some(h), TURN) == Ok(d)
  {
    TurnVerdicts(m, p, h);
  }

  /** On the start field, with the track leaving in direction `d` only, the walk sets off
      in direction `d`. */
  lemma SetsOff(m: Grid, p: Position, d: Direction)
    requires IsExit(m, p, Up) == (d == Up) && IsExit(m, p, Down) == (d == Down)
    requires IsExit(m, p, Right) == (d == Right) && IsExit(m, p, Left) == (d == Left)
    ensures Resolve(m, p, None, START) == Ok(d)
  {
    forall e | IsExit(m, p, e)
      ensures e == d
    {
      DirectionCases(e);
    }
    StartVerdicts(m, p, d);
  }
}
