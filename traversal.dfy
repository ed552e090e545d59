/** The walk from `@` to the first `x`, as a function of the matrix: the
    specification the Pathfinder class's loop is proved against. */
module Traversal {
  import opened Outcomes
  import opened Glyphs
  import opened Matrix
  import opened Sequences
  import opened Locator
  import opened Resolver

  /** The walk-related fields of a Pathfinder: current position and direction, the
      visited positions and the visited letter positions (both with repeats). */
  datatype Walker = Walker(
    position: Position,
    direction: Option<Direction>,
    path: seq<Position>,
    letterCoordinates: seq<Position>)

  /** `{path, word}`: the glyphs walked over and the letters collected. */
  datatype PathResult = PathResult(path: string, word: string)

  /** What `updateVariables(p)` does to the walk-related fields. */
  function Record(m: Grid, w: Walker, p: Position): Walker {
    w.(position := p,
       path := w.path + [p],
       letterCoordinates := if IsLetterAt(m, p) then w.letterCoordinates + [p] else w.letterCoordinates)
  }

  /** Number of fields of the matrix. */
  function FieldCount(m: Grid): nat {
    if m == [] then 0 else |m[0]| + FieldCount(m[1..])
  }

  /** Every row's fields are among the fields of the matrix. */
  lemma {:induction false} FieldCountCoversRow(m: Grid, i: int)
    requires 0 <= i < |m|
    ensures |m[i]| <= FieldCount(m)
  {
    if i > 0 {
      FieldCountCoversRow(m[1..], i - 1);
    }
  }

  /** The step budget: every field entered from each of four sides. */
  function StepBound(m: Grid): nat {
    4 * FieldCount(m)
  }

  /** A direction rule: given the matrix, the field a walk stands on, the heading it
      arrived with and that field's glyph, the direction to leave in or the reason the
      walk stops. */
  type Rule = (Grid, Position, Option<Direction>, Cell) -> Result<Direction>

  /** `walk(p)`: record `p`; stop at an end glyph; otherwise resolve a direction and
      walk on from the neighbour, at most `fuel` more steps. A neighbour that holds no
      track glyph is an invalid glyph on the path. */
  function WalkFrom(rule: Rule, m: Grid, w: Walker, p: Position, fuel: nat): (r: Result<Walker>)
    requires InBounds(m, p)
    decreases fuel
  {
    var w' := Record(m, w, p);
    var glyph := m[p.row][p.col];
    if glyph == END then Ok(w')
    else if fuel == 0 then Err(BrokenPath)
    else
      match rule(m, p, w.direction, glyph)
      case Err(e) => Err(e)
      case Ok(d) =>
        var q := Neighbour(p, d);
        if !IsGlyphAt(m, q) then Err(InvalidGlyph)
        else WalkFrom(rule, m, w'.(direction := Some(d)), q, fuel - 1)
  }

  /** `findPath`: locate the start, then the end, then walk from the start. */
  function Walked(rule: Rule, m: Grid): Result<Walker> {
    match Locate(m, START)
    case Err(e) => Err(e)
    case Ok(start) =>
      match Locate(m, END)
      case Err(e) => Err(e)
      case Ok(_) => WalkFrom(rule, m, Walker(start, None, [], []), start, StepBound(m))
  }

  /** One move of the walk: `p` is a field of the matrix that is not an end, the
      direction rule sends a walk arriving there with `heading` on in direction `d`, and
      the field it reaches holds a track glyph. */
  predicate Moves(rule: Rule, m: Grid, p: Position, heading: Option<Direction>, d: Direction) {
    && InBounds(m, p) && m[p.row][p.col] != END && rule(m, p, heading, m[p.row][p.col]) == Ok(d)
    && IsGlyphAt(m, Neighbour(p, d))
  }

  /** The heading with which a walk that started with heading `h0` and made the moves
      `ds[..k]` arrives at its `k`-th field. */
  function HeadingAt(h0: Option<Direction>, ds: seq<Direction>, k: int): Option<Direction>
    requires 0 <= k <= |ds|
  {
    if k == 0 then h0 else Some(ds[k - 1])
  }

  /** The `k`-th move of the route `ps`, `ds` of a walk that started with heading `h0`:
      the walk leaves field `ps[k]` in direction `ds[k]` and reaches `ps[k + 1]`. */
  predicate MoveAt(rule: Rule, m: Grid, h0: Option<Direction>, ps: seq<Position>, ds: seq<Direction>, k: int)
    requires |ps| == |ds| + 1 && 0 <= k < |ds|
  {
    Moves(rule, m, ps[k], HeadingAt(h0, ds, k), ds[k]) && ps[k + 1] == Neighbour(ps[k], ds[k])
  }

  /** `ps` is the sequence of fields a walk starting with heading `h0` goes through
      when it makes the moves `ds`, each move being the one the direction rule picks. */
  predicate IsRoute(rule: Rule, m: Grid, h0: Option<Direction>, ps: seq<Position>, ds: seq<Direction>) {
    |ps| == |ds| + 1 && forall k :: 0 <= k < |ds| ==> MoveAt(rule, m, h0, ps, ds, k)
  }

  /** The positions of `s` that hold a station letter, in order, repeats included. */
  function LetterPositions(m: Grid, s: seq<Position>): (ls: seq<Position>)
  {
    if s == [] then []
    else (if IsLetterAt(m, s[0]) then [s[0]] else []) + LetterPositions(m, s[1..])
  }

  /** Taking the letter positions commutes with joining sequences of positions. */
  lemma {:induction false} LetterPositionsAppend(m: Grid, s: seq<Position>, t: seq<Position>)
    ensures LetterPositions(m, s + t) == LetterPositions(m, s) + LetterPositions(m, t)
  {
    if s == [] {
      assert s + t == t;
    } else {
      var rest := s[1..];
      assert (s + t)[0] == s[0] && (s + t)[1..] == rest + t;
      LetterPositionsAppend(m, rest, t);
      var h := if IsLetterAt(m, s[0]) then [s[0]] else [];
      assert LetterPositions(m, s + t) == h + LetterPositions(m, rest + t);
      assert LetterPositions(m, s) == h + LetterPositions(m, rest);
      assert h + (LetterPositions(m, rest) + LetterPositions(m, t))
        == (h + LetterPositions(m, rest)) + LetterPositions(m, t);
    }
  }

  /** The walker after a walk from `w` has recorded every field of the route `ps` but the
      last and made the moves `ds`. */
  function Advanced(m: Grid, w: Walker, ps: seq<Position>, ds: seq<Direction>): Walker
    requires |ps| == |ds| + 1
  {
    var n := |ds|;
    Walker(
      if n == 0 then w.position else ps[n - 1],
      HeadingAt(w.direction, ds, n),
      w.path + ps[..n],
      w.letterCoordinates + LetterPositions(m, ps[..n]))
  }

  /** A route that makes at least one move is that move followed by a route. */
  lemma RouteTail(rule: Rule, m: Grid, h0: Option<Direction>, ps: seq<Position>, ds: seq<Direction>)
    requires IsRoute(rule, m, h0, ps, ds) && |ds| > 0
    ensures Moves(rule, m, ps[0], h0, ds[0]) && ps[1] == Neighbour(ps[0], ds[0])
    ensures IsRoute(rule, m, Some(ds[0]), ps[1..], ds[1..])
  {
    assert MoveAt(rule, m, h0, ps, ds, 0);
    forall k | 0 <= k < |ds| - 1
      ensures MoveAt(rule, m, Some(ds[0]), ps[1..], ds[1..], k)
    {
      assert MoveAt(rule, m, h0, ps, ds, k + 1);
    }
  }

  /** A move followed by a route from the field it reaches is a route. */
  lemma RouteCons(rule: Rule, m: Grid, h0: Option<Direction>, p: Position, d: Direction, ps: seq<Position>, ds: seq<Direction>)
    requires Moves(rule, m, p, h0, d) && IsRoute(rule, m, Some(d), ps, ds) && ps[0] == Neighbour(p, d)
    ensures IsRoute(rule, m, h0, [p] + ps, [d] + ds)
  {
    var ps', ds' := [p] + ps, [d] + ds;
    forall k | 0 <= k < |ds'|
      ensures MoveAt(rule, m, h0, ps', ds', k)
    {
      if k > 0 {
        assert MoveAt(rule, m, Some(d), ps, ds, k - 1);
        assert ps'[k] == ps[k - 1] && ds'[k] == ds[k - 1] && ps'[k + 1] == ps[k];
      }
    }
  }

  /** Recording a field and moving on, then advancing along a route, is advancing along
      the longer route. */
  lemma AdvancedCons(m: Grid, w: Walker, p: Position, d: Direction, ps: seq<Position>, ds: seq<Direction>)
    requires |ps| == |ds| + 1
    ensures Advanced(m, Record(m, w, p).(direction := Some(d)), ps, ds) == Advanced(m, w, [p] + ps, [d] + ds)
  {
    var n := |ds|;
    var ps', ds' := [p] + ps, [d] + ds;
    var a := Advanced(m, Record(m, w, p).(direction := Some(d)), ps, ds);
    var b := Advanced(m, w, ps', ds');
    assert ps'[..n + 1] == [p] + ps[..n];
    assert a.path == b.path by {
      assert (w.path + [p]) + ps[..n] == w.path + ([p] + ps[..n]);
    }
    assert a.letterCoordinates == b.letterCoordinates by {
      LetterPositionsAppend(m, [p], ps[..n]);
      assert LetterPositions(m, [p]) == if IsLetterAt(m, p) then [p] else [];
      var l := w.letterCoordinates;
      assert (l + LetterPositions(m, [p])) + LetterPositions(m, ps[..n])
        == l + (LetterPositions(m, [p]) + LetterPositions(m, ps[..n]));
    }
    assert a.position == b.position by {
      if n > 0 {
        assert ps'[n] == ps[n - 1];
      }
    }
  }

  /** One move of the walk: a field that is not an end and lets the walk move on in
      direction `d` is recorded, and the walk continues from its neighbour with one step
      less. */
  lemma WalkStep(rule: Rule, m: Grid, w: Walker, p: Position, fuel: nat, d: Direction)
    requires Moves(rule, m, p, w.direction, d) && fuel > 0
    ensures InBounds(m, Neighbour(p, d))
    ensures WalkFrom(rule, m, w, p, fuel)
      == WalkFrom(rule, m, Record(m, w, p).(direction := Some(d)), Neighbour(p, d), fuel - 1)
  {
  }

  /** Along a route the walk makes exactly the route's moves, recording every field of the
      route but the last, as long as the step budget lasts. */
  lemma {:induction false} WalkAlongRoute(rule: Rule, m: Grid, w: Walker, ps: seq<Position>, ds: seq<Direction>, fuel: nat)
    requires IsRoute(rule, m, w.direction, ps, ds) && |ds| <= fuel && InBounds(m, ps[0])
    ensures InBounds(m, ps[|ds|])
    ensures WalkFrom(rule, m, w, ps[0], fuel) == WalkFrom(rule, m, Advanced(m, w, ps, ds), ps[|ds|], fuel - |ds|)
    decreases |ds|
  {
    if ds == [] {
      assert w.path + ps[..0] == w.path;
      assert w.letterCoordinates + LetterPositions(m, ps[..0]) == w.letterCoordinates;
      assert Advanced(m, w, ps, ds) == w;
    } else {
      var n := |ds|;
      var ps1, ds1 := ps[1..], ds[1..];
      assert [ps[0]] + ps1 == ps && [ds[0]] + ds1 == ds;
      assert ps1[0] == ps[1] && ps1[|ds1|] == ps[n] && |ds1| == n - 1;
      RouteTail(rule, m, w.direction, ps, ds);
      WalkStep(rule, m, w, ps[0], fuel, ds[0]);
      var w1 := Record(m, w, ps[0]).(direction := Some(ds[0]));
      WalkAlongRoute(rule, m, w1, ps1, ds1, fuel - 1);
      AdvancedCons(m, w, ps[0], ds[0], ps1, ds1);
      assert WalkFrom(rule, m, w, ps[0], fuel) == WalkFrom(rule, m, w1, ps1[0], fuel - 1);
      assert Advanced(m, w1, ps1, ds1) == Advanced(m, w, ps, ds);
    }
  }

  /** The walk from `p` with the step budget `fuel` goes along the route `ps`, `ds` to an
      end field and its result records every field of that route. */
  predicate EndsAlong(rule: Rule, m: Grid, w: Walker, p: Position, fuel: nat, ps: seq<Position>, ds: seq<Direction>) {
    && IsRoute(rule, m, w.direction, ps, ds) && ps[0] == p && |ds| <= fuel
    && InBounds(m, ps[|ds|]) && m[ps[|ds|].row][ps[|ds|].col] == END
    && InBounds(m, p) && WalkFrom(rule, m, w, p, fuel).Ok?
    && WalkFrom(rule, m, w, p, fuel).value == Record(m, Advanced(m, w, ps, ds), ps[|ds|])
  }

  /** A walk that starts on an end field ends along the route made of that field alone. */
  lemma EndsAlongHere(rule: Rule, m: Grid, w: Walker, p: Position, fuel: nat)
    requires InBounds(m, p) && m[p.row][p.col] == END
    ensures EndsAlong(rule, m, w, p, fuel, [p], [])
  {
    var ps: seq<Position> := [p];
    assert w.path + ps[..0] == w.path;
    assert w.letterCoordinates + LetterPositions(m, ps[..0]) == w.letterCoordinates;
    assert Advanced(m, w, ps, []) == w;
  }

  /** A walk that moves on from `p` in direction `d` and then ends along a route has gone
      along that route with the move from `p` in front. */
  lemma EndsAlongCons(rule: Rule, m: Grid, w: Walker, p: Position, fuel: nat, d: Direction,
                      ps: seq<Position>, ds: seq<Direction>)
    requires Moves(rule, m, p, w.direction, d) && fuel > 0
    requires EndsAlong(rule, m, Record(m, w, p).(direction := Some(d)), Neighbour(p, d), fuel - 1, ps, ds)
    ensures EndsAlong(rule, m, w, p, fuel, [p] + ps, [d] + ds)
  {
    WalkStep(rule, m, w, p, fuel, d);
    RouteCons(rule, m, w.direction, p, d, ps, ds);
    AdvancedCons(m, w, p, d, ps, ds);
    assert ([p] + ps)[|[d] + ds|] == ps[|ds|];
  }

  /** Every successful walk went along a route to the first end field it met, and its result
      records every field of that route. */
  lemma {:induction false} WalkIsRoute(rule: Rule, m: Grid, w: Walker, p: Position, fuel: nat)
    requires InBounds(m, p) && WalkFrom(rule, m, w, p, fuel).Ok?
    ensures exists ps: seq<Position>, ds: seq<Direction> :: EndsAlong(rule, m, w, p, fuel, ps, ds)
    decreases fuel
  {
    if m[p.row][p.col] == END {
      EndsAlongHere(rule, m, w, p, fuel);
    } else {
      var d := rule(m, p, w.direction, m[p.row][p.col]).value;
      var w1 := Record(m, w, p).(direction := Some(d));
      assert Moves(rule, m, p, w.direction, d);
      WalkStep(rule, m, w, p, fuel, d);
      WalkIsRoute(rule, m, w1, Neighbour(p, d), fuel - 1);
      var ps: seq<Position>, ds: seq<Direction> :| EndsAlong(rule, m, w1, Neighbour(p, d), fuel - 1, ps, ds);
      EndsAlongCons(rule, m, w, p, fuel, d, ps, ds);
    }
  }

  /** The fields a walk reaches from `p` by the moves `ds`, one per move. */
  function Steps(p: Position, ds: seq<Direction>): (qs: seq<Position>)
    ensures |qs| == |ds|
    decreases |ds|
  {
    if ds == [] then [] else [Neighbour(p, ds[0])] + Steps(Neighbour(p, ds[0]), ds[1..])
  }

  /** The field a walk reaches from `p` by the moves `ds`. */
  function End(p: Position, ds: seq<Direction>): Position
    decreases |ds|
  {
    if ds == [] then p else End(Neighbour(p, ds[0]), ds[1..])
  }

  /** The walk from `p`, arriving there with heading `h`, makes the moves `ds`, each one
      the move the direction rule picks. */
  predicate Follows(rule: Rule, m: Grid, p: Position, h: Option<Direction>, ds: seq<Direction>)
    decreases |ds|
  {
    ds == [] || (Moves(rule, m, p, h, ds[0]) && Follows(rule, m, Neighbour(p, ds[0]), Some(ds[0]), ds[1..]))
  }

  /** Making the moves `ds` from `p` is making the route `p` then `Steps(p, ds)`. */
  lemma {:induction false} FollowsIsRoute(rule: Rule, m: Grid, p: Position, h: Option<Direction>, ds: seq<Direction>)
    requires Follows(rule, m, p, h, ds)
    ensures IsRoute(rule, m, h, [p] + Steps(p, ds), ds)
    decreases |ds|
  {
    if ds != [] {
      var q := Neighbour(p, ds[0]);
      FollowsIsRoute(rule, m, q, Some(ds[0]), ds[1..]);
      RouteCons(rule, m, h, p, ds[0], [q] + Steps(q, ds[1..]), ds[1..]);
      assert [ds[0]] + ds[1..] == ds;
    }
  }

  /** Moves made one after the other: the second run starts where the first one ended,
      with the first run's last heading. */
  lemma {:induction false} FollowsJoin(rule: Rule, m: Grid, p: Position, h: Option<Direction>,
                                       ds1: seq<Direction>, q: Position, ds2: seq<Direction>)
    requires Follows(rule, m, p, h, ds1) && End(p, ds1) == q && |ds1| > 0
    requires Follows(rule, m, q, Some(ds1[|ds1| - 1]), ds2)
    ensures Follows(rule, m, p, h, ds1 + ds2) && End(p, ds1 + ds2) == End(q, ds2)
    decreases |ds1|
  {
    var r := Neighbour(p, ds1[0]);
    assert (ds1 + ds2)[0] == ds1[0] && (ds1 + ds2)[1..] == ds1[1..] + ds2;
    if |ds1| > 1 {
      FollowsJoin(rule, m, r, Some(ds1[0]), ds1[1..], q, ds2);
    } else {
      assert ds1[1..] + ds2 == ds2;
    }
  }

  /** The fields reached by moves made one after the other: the second run starts where
      the first one ended. */
  lemma {:induction false} StepsJoin(p: Position, ds1: seq<Direction>, q: Position, ds2: seq<Direction>)
    requires End(p, ds1) == q
    ensures Steps(p, ds1 + ds2) == Steps(p, ds1) + Steps(q, ds2) && End(p, ds1 + ds2) == End(q, ds2)
    decreases |ds1|
  {
    if ds1 == [] {
      assert ds1 + ds2 == ds2;
    } else {
      var r := Neighbour(p, ds1[0]);
      assert (ds1 + ds2)[0] == ds1[0] && (ds1 + ds2)[1..] == ds1[1..] + ds2;
      StepsJoin(r, ds1[1..], q, ds2);
    }
  }

  /** The last field reached is the end of the moves. */
  lemma {:induction false} StepsLast(p: Position, ds: seq<Direction>)
    requires ds != []
    ensures Steps(p, ds)[|ds| - 1] == End(p, ds)
    decreases |ds|
  {
    if |ds| > 1 {
      StepsLast(Neighbour(p, ds[0]), ds[1..]);
    }
  }

  /** The field at `p` as text (empty outside the matrix). */
  function FieldText(m: Grid, p: Position): string {
    if InBounds(m, p) then m[p.row][p.col] else ""
  }

  /** The fields at the positions of `s`, joined without separator. */
  function Text(m: Grid, s: seq<Position>): string {
    if s == [] then "" else FieldText(m, s[0]) + Text(m, s[1..])
  }

  /** The path text of two joined sequences of positions is the two texts joined. */
  lemma {:induction false} TextConcat(m: Grid, s: seq<Position>, t: seq<Position>)
    ensures Text(m, s + t) == Text(m, s) + Text(m, t)
  {
    if s == [] {
      assert s + t == t;
    } else {
      assert (s + t)[0] == s[0] && (s + t)[1..] == s[1..] + t;
      TextConcat(m, s[1..], t);
    }
  }
  /** The text and the letter fields of a walk from `s`, when its moves are made in two runs:
      those of the first run, followed by those of the second from where the first ended. */
  lemma RouteJoin(m: Grid, s: Position, ds1: seq<Direction>, q: Position, ds2: seq<Direction>)
    requires End(s, ds1) == q
    ensures Text(m, [s] + Steps(s, ds1 + ds2)) == Text(m, [s] + Steps(s, ds1)) + Text(m, Steps(q, ds2))
    ensures LetterPositions(m, [s] + Steps(s, ds1 + ds2))
         == LetterPositions(m, [s] + Steps(s, ds1)) + LetterPositions(m, Steps(q, ds2))
  {
    StepsJoin(s, ds1, q, ds2);
    var a, b := Steps(s, ds1), Steps(q, ds2);
    assert [s] + (a + b) == ([s] + a) + b;
    TextConcat(m, [s] + a, b);
    LetterPositionsAppend(m, [s] + a, b);
  }


  /** The result collector: every visited glyph in order, and each letter position's glyph
      once, at its first visit. */
  function Collect(m: Grid, w: Walker): PathResult {
    PathResult(Text(m, w.path), Text(m, Dedup(w.letterCoordinates)))
  }

  /** The outcome of `findPath` on a fresh Pathfinder whose walk follows `rule`. */
  function FindPathWith(rule: Rule, m: Grid): Result<PathResult> {
    match Walked(rule, m)
    case Err(e) => Err(e)
    case Ok(w) => Ok(Collect(m, w))
  }

  /** The outcome of `findPath` on a fresh Pathfinder, with the completed direction rule. */
  function FindPathSpec(m: Grid): Result<PathResult> {
    FindPathWith(Resolve, m)
  }

  /** The start marker is located first: its defect is reported whatever else is wrong with
      the matrix, and a defect of the end marker only when the start is unique. */
  lemma StartDefectFirst(rule: Rule, m: Grid)
    ensures Locate(m, START).Err? ==> FindPathWith(rule, m) == Err(Locate(m, START).error)
    ensures Locate(m, START).Ok? && Locate(m, END).Err? ==> FindPathWith(rule, m) == Err(Locate(m, END).error)
    ensures FindPathWith(rule, m).Ok? ==> Locate(m, START).Ok? && Locate(m, END).Ok?
  {
  }

  /** The letter positions of `s` are exactly the positions of `s` that hold a letter. */
  lemma {:induction false} LetterPositionsMembers(m: Grid, s: seq<Position>)
    ensures forall q :: q in LetterPositions(m, s) <==> q in s && IsLetterAt(m, q)
  {
    if s != [] {
      LetterPositionsMembers(m, s[1..]);
      assert s == [s[0]] + s[1..];
    }
  }

  /** A walk from a fresh start at `ps[0]` that went along the route `ps`, `ds` and stands
      on the route's last field. */
  function Arrived(m: Grid, ps: seq<Position>, ds: seq<Direction>): Walker
    requires |ps| == |ds| + 1
  {
    Record(m, Advanced(m, Walker(ps[0], None, [], []), ps, ds), ps[|ds|])
  }

  /** Such a walk has recorded every field of the route and every letter field on it. */
  lemma ArrivedRecordsRoute(m: Grid, ps: seq<Position>, ds: seq<Direction>)
    requires |ps| == |ds| + 1
    ensures Arrived(m, ps, ds).path == ps
    ensures Arrived(m, ps, ds).letterCoordinates == LetterPositions(m, ps)
  {
    var n := |ds|;
    var a := Advanced(m, Walker(ps[0], None, [], []), ps, ds);
    assert a.path == ps[..n];
    assert a.letterCoordinates == LetterPositions(m, ps[..n]);
    assert ps[..n] + [ps[n]] == ps;
    LetterPositionsAppend(m, ps[..n], [ps[n]]);
    assert LetterPositions(m, [ps[n]]) == if IsLetterAt(m, ps[n]) then [ps[n]] else [];
  }

  /** `ps`, `ds` is a route of the walk from the matrix's only `@` to its only `x`,
      within the step budget. */
  predicate StartToEnd(rule: Rule, m: Grid, ps: seq<Position>, ds: seq<Direction>) {
    && IsRoute(rule, m, None, ps, ds) && |ds| <= StepBound(m)
    && Locate(m, START) == Ok(ps[0]) && Locate(m, END) == Ok(ps[|ds|])
  }

  /** The result of walking such a route: the route's glyphs, and the glyph of each letter
      field on it once, at its first visit. */
  function RouteResult(m: Grid, ps: seq<Position>): PathResult {
    PathResult(Text(m, ps), Text(m, Dedup(LetterPositions(m, ps))))
  }

  /** A route from the located `@` to the located `x` is what `findPath` walks. */
  lemma FindPathAlongRoute(rule: Rule, m: Grid, ps: seq<Position>, ds: seq<Direction>)
    requires StartToEnd(rule, m, ps, ds)
    ensures FindPathWith(rule, m) == Ok(RouteResult(m, ps))
  {
    var n := |ds|;
    var w0 := Walker(ps[0], None, [], []);
    WalkAlongRoute(rule, m, w0, ps, ds, StepBound(m));
    var a := Advanced(m, w0, ps, ds);
    assert WalkFrom(rule, m, a, ps[n], StepBound(m) - n) == Ok(Record(m, a, ps[n]));
    ArrivedRecordsRoute(m, ps, ds);
  }

  /** A walk that makes the moves `ds` from the located `@` to the located `x`, within the
      step budget, is what `findPath` walks. */
  lemma FindPathFollowing(rule: Rule, m: Grid, start: Position, ds: seq<Direction>)
    requires Follows(rule, m, start, None, ds) && |ds| <= StepBound(m)
    requires Locate(m, START) == Ok(start) && Locate(m, END) == Ok(End(start, ds))
    ensures FindPathWith(rule, m) == Ok(RouteResult(m, [start] + Steps(start, ds)))
  {
    FollowsIsRoute(rule, m, start, None, ds);
    if ds != [] {
      StepsLast(start, ds);
    }
    FindPathAlongRoute(rule, m, [start] + Steps(start, ds), ds);
  }

  /** A walk that makes the moves `ds` from the located `@` (the `x` being located too) to a
      field where the direction rule reports a defect makes `findPath` report that defect. */
  lemma FindPathStopsFollowing(rule: Rule, m: Grid, start: Position, ds: seq<Direction>, e: Glitch)
    requires Follows(rule, m, start, None, ds) && |ds| < StepBound(m)
    requires Locate(m, START) == Ok(start) && Locate(m, END).Ok?
    requires var p := End(start, ds);
      && InBounds(m, p) && m[p.row][p.col] != END
      && rule(m, p, HeadingAt(None, ds, |ds|), m[p.row][p.col]) == Err(e)
    ensures FindPathWith(rule, m) == Err(e)
  {
    var ps := [start] + Steps(start, ds);
    var n := |ds|;
    FollowsIsRoute(rule, m, start, None, ds);
    if ds != [] {
      StepsLast(start, ds);
    }
    assert ps[n] == End(start, ds);
    var w0 := Walker(start, None, [], []);
    WalkAlongRoute(rule, m, w0, ps, ds, StepBound(m));
    var a := Advanced(m, w0, ps, ds);
    assert WalkFrom(rule, m, a, ps[n], StepBound(m) - n) == Err(e);
  }

  /** A successful walk from a fresh start went along a route to an `x`. */
  lemma WalkFromStartIsRoute(rule: Rule, m: Grid, start: Position, fuel: nat)
    requires InBounds(m, start) && WalkFrom(rule, m, Walker(start, None, [], []), start, fuel).Ok?
    ensures exists ps: seq<Position>, ds: seq<Direction> ::
      && IsRoute(rule, m, None, ps, ds) && ps[0] == start && |ds| <= fuel
      && InBounds(m, ps[|ds|]) && m[ps[|ds|].row][ps[|ds|].col] == END
      && WalkFrom(rule, m, Walker(start, None, [], []), start, fuel) == Ok(Arrived(m, ps, ds))
  {
    var w := Walker(start, None, [], []);
    WalkIsRoute(rule, m, w, start, fuel);
    var ps: seq<Position>, ds: seq<Direction> :| EndsAlong(rule, m, w, start, fuel, ps, ds);
    assert WalkFrom(rule, m, w, start, fuel) == Ok(Arrived(m, ps, ds));
  }

  /** Every successful walk of `findPath` went along a route from the `@` to the `x`. */
  lemma WalkedAlongRoute(rule: Rule, m: Grid)
    requires Walked(rule, m).Ok?
    ensures exists ps: seq<Position>, ds: seq<Direction> ::
      StartToEnd(rule, m, ps, ds) && Walked(rule, m) == Ok(Arrived(m, ps, ds))
  {
    var start := Locate(m, START).value;
    WalkFromStartIsRoute(rule, m, start, StepBound(m));
    var ps: seq<Position>, ds: seq<Direction> :|
      && IsRoute(rule, m, None, ps, ds) && ps[0] == start && |ds| <= StepBound(m)
      && InBounds(m, ps[|ds|]) && m[ps[|ds|].row][ps[|ds|].col] == END
      && WalkFrom(rule, m, Walker(start, None, [], []), start, StepBound(m)) == Ok(Arrived(m, ps, ds));
    LocatedFieldIsUnique(m, END, ps[|ds|]);
    assert StartToEnd(rule, m, ps, ds);
    assert Walked(rule, m) == Ok(Arrived(m, ps, ds));
  }

  /** Conversely, every result of `findPath` comes from such a route: the walk starts on the
      `@`, follows the direction rule at every field and stops on the `x`. */
  lemma FindPathIsRoute(rule: Rule, m: Grid)
    requires FindPathWith(rule, m).Ok?
    ensures exists ps: seq<Position>, ds: seq<Direction> ::
      StartToEnd(rule, m, ps, ds) && FindPathWith(rule, m).value == RouteResult(m, ps)
  {
    WalkedAlongRoute(rule, m);
    var ps: seq<Position>, ds: seq<Direction> :| StartToEnd(rule, m, ps, ds) && Walked(rule, m) == Ok(Arrived(m, ps, ds));
    ArrivedRecordsRoute(m, ps, ds);
  }

  /** A route of the walk follows the track: each move goes to an adjacent field that holds
      a track glyph, never straight back the way the walk came, and no field but the last
      is an `x`. */
  lemma RouteFollowsTrack(m: Grid, h0: Option<Direction>, ps: seq<Position>, ds: seq<Direction>)
    requires IsRoute(Resolve, m, h0, ps, ds)
    ensures forall k :: 0 <= k < |ds| ==> Adjacent(ps[k], Neighbour(ps[k], ds[k])) && ps[k + 1] == Neighbour(ps[k], ds[k])
    ensures forall k :: 0 <= k < |ds| ==> IsGlyphAt(m, Neighbour(ps[k], ds[k]))
    ensures forall k :: 0 <= k < |ds| ==> InBounds(m, ps[k]) && m[ps[k].row][ps[k].col] != END
    ensures forall k :: 0 <= k < |ds| ==> HeadingAt(h0, ds, k) != Some(Opposite(ds[k]))
  {
    forall k | 0 <= k < |ds|
      ensures Adjacent(ps[k], Neighbour(ps[k], ds[k])) && ps[k + 1] == Neighbour(ps[k], ds[k])
      ensures IsGlyphAt(m, Neighbour(ps[k], ds[k]))
      ensures InBounds(m, ps[k]) && m[ps[k].row][ps[k].col] != END
      ensures HeadingAt(h0, ds, k) != Some(Opposite(ds[k]))
    {
      assert MoveAt(Resolve, m, h0, ps, ds, k);
      StepThenOppositeStepReturns(ps[k], ds[k]);
    }
  }
}
