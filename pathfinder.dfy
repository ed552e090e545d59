/** The `Pathfinder` class: a matrix, its located markers, and the walk state
    that `updateVariables`, `setDirection` and `walk` change step by step. */
module Pathfinding {
  import opened Outcomes
  import opened Glyphs
  import opened Matrix
  import opened Locator
  import opened Resolver
  import opened Traversal

  /** What `getNewPositionData` returns: the neighbouring field, the direction
      taken to reach it, and its content (`None` where JavaScript yields `undefined`). */
  datatype PositionData = PositionData(position: Position, direction: Direction, glyph: Option<Cell>)

  /** How one step of the walk ended: on an `x`, with a defect, or with the next field. */
  datatype StepOutcome = Arrived | Stopped(glitch: Glitch) | Continue(next: Position)

  /** What a walk that reports `glitch` and leaves the walker `w` amounts to. */
  function Reported(glitch: Option<Glitch>, w: Walker): Result<Walker> {
    if glitch.None? then Ok(w) else Err(glitch.value)
  }

  class Pathfinder {
    const matrix: Grid
    /** The located `@`, or the defect the locator threw. */
    const startPosition: Result<Position>
    /** The located `x`, or the defect the locator threw. */
    const endPosition: Result<Position>
    var currentGlyph: Option<Cell>
    var currentDirection: Option<Direction>
    /** `None` while the start could not be located (`undefined` in the source). */
    var currentPosition: Option<Position>
    var path: seq<Position>
    var letterCoordinates: seq<Position>

    /** The markers were located in this object's own matrix. */
    ghost predicate Valid()
      reads this
    {
      startPosition == Locate(matrix, START) && endPosition == Locate(matrix, END)
    }

    /** The state of a Pathfinder that has not walked yet. */
    ghost predicate Fresh()
      reads this
    {
      && Valid()
      && currentGlyph == None && currentDirection == None
      && currentPosition == (if startPosition.Ok? then Some(startPosition.value) else None)
      && path == [] && letterCoordinates == []
    }

    /** The walk-related fields as one value. */
    function State(): Walker
      reads this
      requires currentPosition.Some?
    {
      Walker(currentPosition.value, currentDirection, path, letterCoordinates)
    }

    /** Locates both markers, start first, and sets up an empty walk at the start. */
    constructor (matrix: Grid)
      ensures this.matrix == matrix && Fresh()
    {
      this.matrix := matrix;
      var start := FindStartAndFinishPosition(matrix, START);
      var end := FindStartAndFinishPosition(matrix, END);
      startPosition := start;
      endPosition := end;
      currentGlyph := None;
      currentDirection := None;
      currentPosition := if start.Ok? then Some(start.value) else None;
      path := [];
      letterCoordinates := [];
    }

    /** `getNewPositionData(direction)`: the field one step away from the current
        position, and what the matrix holds there. */
    method GetNewPositionData(direction: Direction) returns (data: PositionData)
      requires currentPosition.Some?
      ensures var p := currentPosition.value;
        && data.position.row == p.row + (if direction == Up then -1 else if direction == Down then 1 else 0)
        && data.position.col == p.col + (if direction == Left then -1 else if direction == Right then 1 else 0)
      ensures data.direction == direction
      ensures data.glyph.Some? <==> InBounds(matrix, data.position)
      ensures data.glyph.Some? ==> data.glyph.value == matrix[data.position.row][data.position.col]
    {
      var p := Neighbour(currentPosition.value, direction);
      data := PositionData(p, direction, CellAt(matrix, p));
    }

    /** `updateVariables(position)`: move onto `position`, record it on the path, and
        record it among the letter fields when it holds a station letter. A column
        outside the row reads as `undefined`, which is no letter. */
    method UpdateVariables(position: Position)
      requires 0 <= position.row < |matrix|
      modifies this`currentPosition, this`currentGlyph, this`path, this`letterCoordinates
      ensures currentPosition == Some(position)
      ensures currentGlyph == CellAt(matrix, position)
      ensures path == old(path) + [position]
      ensures letterCoordinates ==
        if IsLetterAt(matrix, position) then old(letterCoordinates) + [position] else old(letterCoordinates)
      ensures old(currentPosition).Some? ==> State() == Record(matrix, old(State()), position)
    {
      currentPosition := Some(position);
      path := path + [position];
      currentGlyph := CellAt(matrix, position);
      if currentGlyph.Some? && IsValidLetter(currentGlyph.value) {
        letterCoordinates := letterCoordinates + [position];
      }
    }

    /** Whether the neighbour in direction `d` is in bounds and holds a track glyph. */
    method IsTrackNeighbour(d: Direction) returns (b: bool)
      requires currentPosition.Some?
      ensures b == IsExit(matrix, currentPosition.value, d)
    {
      var data := GetNewPositionData(d);
      b := data.glyph.Some? && IsValidGlyph(data.glyph.value);
    }

    /** The probing half of `setDirection()`: look at the four neighbours in the order
        up, down, right, left, and push each one that holds a track glyph onto
        `directions` unless it is the way back, and onto `turns` when it leaves the axis
        of the current direction. */
    method ProbeNeighbours() returns (directions: seq<Direction>, turns: seq<Direction>)
      requires currentPosition.Some?
      ensures directions == Candidates(matrix, currentPosition.value, currentDirection)
      ensures turns == TurnExits(matrix, currentPosition.value, currentDirection)
    {
      var heading := currentDirection;
      var up := IsTrackNeighbour(Up);
      var down := IsTrackNeighbour(Down);
      var right := IsTrackNeighbour(Right);
      var left := IsTrackNeighbour(Left);

      ghost var p := currentPosition.value;
      directions := [];
      if up && heading != Some(Down) { directions := directions + [Up]; }
      assert directions == Probe(matrix, p, !IsReverse(heading, Up), Up);
      if down && heading != Some(Up) { directions := directions + [Down]; }
      assert directions == Probe(matrix, p, !IsReverse(heading, Up), Up) + Probe(matrix, p, !IsReverse(heading, Down), Down);
      if right && heading != Some(Left) { directions := directions + [Right]; }
      assert directions == Probe(matrix, p, !IsReverse(heading, Up), Up) + Probe(matrix, p, !IsReverse(heading, Down), Down)
        + Probe(matrix, p, !IsReverse(heading, Right), Right);
      if left && heading != Some(Right) { directions := directions + [Left]; }

      turns := [];
      if up && Crosses(heading, Up) { turns := turns + [Up]; }
      assert turns == Probe(matrix, p, Crosses(heading, Up), Up);
      if down && Crosses(heading, Down) { turns := turns + [Down]; }
      assert turns == Probe(matrix, p, Crosses(heading, Up), Up) + Probe(matrix, p, Crosses(heading, Down), Down);
      if right && Crosses(heading, Right) { turns := turns + [Right]; }
      assert turns == Probe(matrix, p, Crosses(heading, Up), Up) + Probe(matrix, p, Crosses(heading, Down), Down)
        + Probe(matrix, p, Crosses(heading, Right), Right);
      if left && Crosses(heading, Left) { turns := turns + [Left]; }
    }

    /** `setDirection()`, completed: probe the neighbours, then choose as the direction
        rule does; the chosen direction becomes the current one. */
    method SetDirection() returns (r: Result<Direction>)
      requires currentPosition.Some? && currentGlyph.Some?
      modifies this`currentDirection
      ensures r == Resolve(matrix, currentPosition.value, old(currentDirection), currentGlyph.value)
      ensures currentDirection == if r.Ok? then Some(r.value) else old(currentDirection)
    {
      var heading := currentDirection;
      var glyph := currentGlyph.value;
      var directions, turns := ProbeNeighbours();
      if |directions| == 0 {
        r := Err(BrokenPath);
      } else if glyph == START && |directions| > 1 {
        r := Err(MisplacedStartGlyph);
      } else if glyph == TURN {
        if |turns| == 0 {
          r := Err(FakeTurn);
        } else if |turns| > 1 {
          r := Err(Fork);
        } else {
          r := Ok(turns[0]);
        }
      } else if heading.Some? && heading.value in directions {
        r := Ok(heading.value);
      } else if |directions| == 1 {
        r := Ok(directions[0]);
      } else {
        r := Err(Fork);
      }
      if r.Ok? {
        currentDirection := Some(r.value);
      }
    }

    /** One call of `walk(position)` without its recursive tail: record the field, stop
        on an `x`, otherwise choose a direction and name the next field. `fuel` is what is
        left of the step budget. */
    method Step(position: Position, fuel: nat) returns (outcome: StepOutcome)
      requires currentPosition.Some? && InBounds(matrix, position)
      modifies this`currentPosition, this`currentGlyph, this`currentDirection, this`path, this`letterCoordinates
      ensures currentPosition == Some(position) && path == old(path) + [position]
      ensures currentGlyph == Some(matrix[position.row][position.col])
      ensures outcome.Continue? ==>
        && currentDirection.Some? && outcome.next == Neighbour(position, currentDirection.value)
        && Resolve(matrix, position, old(currentDirection), matrix[position.row][position.col]) == Ok(currentDirection.value)
        && State() == Record(matrix, old(State()), position).(direction := currentDirection)
      ensures !outcome.Continue? ==> State() == Record(matrix, old(State()), position)
      ensures var spec := WalkFrom(Resolve, matrix, old(State()), position, fuel);
        match outcome
        case Arrived => spec == Ok(State())
        case Stopped(glitch) => spec == Err(glitch)
        case Continue(next) =>
          && fuel > 0 && InBounds(matrix, next)
          && spec == WalkFrom(Resolve, matrix, State(), next, fuel - 1)
    {
      ghost var before := State();
      UpdateVariables(position);
      if currentGlyph == Some(END) {
        return Arrived;
      }
      if fuel == 0 {
        return Stopped(BrokenPath);
      }
      var direction := SetDirection();
      if direction.Err? {
        return Stopped(direction.error);
      }
      var data := GetNewPositionData(direction.value);
      assert data.position == Neighbour(position, direction.value);
      WalkStep(Resolve, matrix, before, position, fuel, direction.value);
      outcome := Continue(data.position);
    }

    /** `walk(position)`, completed: one step, then the recursive call on the next
        field, with `fuel` steps left. Succeeds (`None`) exactly when the walk function
        does, leaving its walker in the fields; otherwise reports the same defect. */
    method Walk(position: Position, fuel: nat) returns (glitch: Option<Glitch>)
      requires currentPosition.Some? && InBounds(matrix, position)
      modifies this`currentPosition, this`currentGlyph, this`currentDirection, this`path, this`letterCoordinates
      ensures currentPosition.Some? && currentGlyph == CellAt(matrix, currentPosition.value)
      ensures Reported(glitch, State()) == WalkFrom(Resolve, matrix, old(State()), position, fuel)
      decreases fuel
    {
      ghost var spec := WalkFrom(Resolve, matrix, State(), position, fuel);
      var outcome := Step(position, fuel);
      match outcome {
        case Arrived =>
          glitch := None;
        case Stopped(g) =>
          glitch := Some(g);
        case Continue(next) =>
          assert spec == WalkFrom(Resolve, matrix, State(), next, fuel - 1);
          glitch := Walk(next, fuel - 1);
      }
    }

    /** `findPath()`, completed: report a start defect, then an end defect, and
        otherwise walk from the start and collect the path and the word. */
    method FindPath() returns (r: Result<PathResult>)
      requires Fresh()
      modifies this`currentPosition, this`currentGlyph, this`currentDirection, this`path, this`letterCoordinates
      ensures r == FindPathSpec(matrix)
    {
      if startPosition.Err? {
        return Err(startPosition.error);
      }
      if endPosition.Err? {
        return Err(endPosition.error);
      }
      var glitch := Walk(startPosition.value, StepBound(matrix));
      if glitch.Some? {
        return Err(glitch.value);
      }
      r := Ok(Collect(matrix, State()));
    }
  }
}
