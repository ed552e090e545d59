/** `findStartAndFinishPosition`: the unique field holding a marker, or a
    missing / multiple defect carrying the total count over all rows. */
module Locator {
  import opened Outcomes
  import opened Glyphs
  import opened Matrix
  import opened Sequences

  /** `row.filter(g => g === glyph).length`. */
  function Occurrences(row: seq<Cell>, glyph: Cell): (n: nat)
    ensures n <= |row|
    ensures n == 0 <==> glyph !in row
  {
    if row == [] then 0
    else
      assert row == [row[0]] + row[1..];
      (if row[0] == glyph then 1 else 0) + Occurrences(row[1..], glyph)
  }

  /** `rowResults` after scanning the rows of `m`. */
  function RowCounts(m: Grid, glyph: Cell): (counts: seq<nat>)
    ensures |counts| == |m|
  {
    if m == [] then [] else RowCounts(m[..|m| - 1], glyph) + [Occurrences(m[|m| - 1], glyph)]
  }

  /** `reduce((acc, currentValue) => acc + currentValue, 0)`. */
  function Sum(s: seq<nat>): nat {
    if s == [] then 0 else s[0] + Sum(s[1..])
  }

  /** Adding one more value at the end adds it to the sum. */
  lemma {:induction false} SumSnoc(s: seq<nat>, x: nat)
    ensures Sum(s + [x]) == Sum(s) + x
  {
    if s != [] {
      assert (s + [x])[1..] == s[1..] + [x];
      SumSnoc(s[1..], x);
    }
  }

  /** `numberOfGlyphs`: how many fields of the whole matrix hold `glyph`. */
  function Total(m: Grid, glyph: Cell): nat {
    Sum(RowCounts(m, glyph))
  }

  /** The flat `position` array: `[i, indexOf]` pushed for every row holding the glyph once. */
  function Pairs(m: Grid, glyph: Cell): seq<int> {
    if m == [] then []
    else
      var i := |m| - 1;
      Pairs(m[..i], glyph) + (if Occurrences(m[i], glyph) == 1 then [i, IndexOf(m[i], glyph)] else [])
  }

  /** The first row that holds `glyph`, or -1. */
  function FirstRow(m: Grid, glyph: Cell): (r: int)
    ensures -1 <= r < |m|
    ensures r == -1 <==> forall i :: 0 <= i < |m| ==> glyph !in m[i]
    ensures 0 <= r ==> glyph in m[r] && forall i :: 0 <= i < r ==> glyph !in m[i]
  {
    if m == [] then -1
    else
      var i := |m| - 1;
      var f := FirstRow(m[..i], glyph);
      assert forall k :: 0 <= k < i ==> m[..i][k] == m[k];
      if 0 <= f then f else if glyph in m[i] then i else -1
  }

  /** Scanning one more row adds that row's count to the total. */
  lemma TotalOfLastRow(m: Grid, glyph: Cell)
    requires m != []
    ensures Total(m, glyph) == Total(m[..|m| - 1], glyph) + Occurrences(m[|m| - 1], glyph)
  {
    SumSnoc(RowCounts(m[..|m| - 1], glyph), Occurrences(m[|m| - 1], glyph));
  }

  /** The total is zero exactly when no field holds the glyph; then nothing was pushed. */
  lemma {:induction false} TotalZero(m: Grid, glyph: Cell)
    ensures Total(m, glyph) == 0 <==> forall i :: 0 <= i < |m| ==> glyph !in m[i]
    ensures Total(m, glyph) == 0 ==> Pairs(m, glyph) == []
  {
    if m != [] {
      var i := |m| - 1;
      TotalOfLastRow(m, glyph);
      TotalZero(m[..i], glyph);
      assert forall k :: 0 <= k < i ==> m[..i][k] == m[k];
    }
  }

  /** With a total of one, exactly one pair was pushed: the first (only) holding row and its index. */
  lemma {:induction false} PairsOfSingle(m: Grid, glyph: Cell)
    requires Total(m, glyph) == 1
    ensures 0 <= FirstRow(m, glyph)
    ensures Pairs(m, glyph) == [FirstRow(m, glyph), IndexOf(m[FirstRow(m, glyph)], glyph)]
    ensures Occurrences(m[FirstRow(m, glyph)], glyph) == 1
    ensures forall i :: 0 <= i < |m| && i != FirstRow(m, glyph) ==> glyph !in m[i]
  {
    assert m != [];
    var i := |m| - 1;
    TotalOfLastRow(m, glyph);
    assert forall k :: 0 <= k < i ==> m[..i][k] == m[k];
    if Occurrences(m[i], glyph) == 0 {
      PairsOfSingle(m[..i], glyph);
      assert Pairs(m, glyph) == Pairs(m[..i], glyph);
    } else {
      TotalZero(m[..i], glyph);
      assert FirstRow(m[..i], glyph) == -1;
      assert Pairs(m, glyph) == [] + [i, IndexOf(m[i], glyph)];
    }
  }

  /** A row holding the glyph once holds it nowhere but at its `indexOf`. */
  lemma {:induction false} OnlyOccurrence(row: seq<Cell>, glyph: Cell, j: int)
    requires Occurrences(row, glyph) == 1
    requires 0 <= j < |row| && row[j] == glyph
    ensures j == IndexOf(row, glyph)
  {
    if row[0] != glyph {
      OnlyOccurrence(row[1..], glyph, j - 1);
    }
  }

  /** Counting over two joined rows adds the counts. */
  lemma {:induction false} OccurrencesAppend(r: seq<Cell>, s: seq<Cell>, glyph: Cell)
    ensures Occurrences(r + s, glyph) == Occurrences(r, glyph) + Occurrences(s, glyph)
  {
    if r != [] {
      assert (r + s)[1..] == r[1..] + s;
      OccurrencesAppend(r[1..], s, glyph);
    } else {
      assert r + s == s;
    }
  }

  /** A row's count is the count before field `c`, field `c` itself, and the count after it. */
  lemma OccurrencesAround(row: seq<Cell>, glyph: Cell, c: int)
    requires 0 <= c < |row|
    ensures Occurrences(row, glyph)
      == Occurrences(row[..c], glyph) + (if row[c] == glyph then 1 else 0) + Occurrences(row[c + 1..], glyph)
  {
    assert row == row[..c] + ([row[c]] + row[c + 1..]);
    OccurrencesAppend(row[..c], [row[c]] + row[c + 1..], glyph);
    OccurrencesAppend([row[c]], row[c + 1..], glyph);
  }

  /** Counting over two joined matrices adds the totals. */
  lemma {:induction false} TotalAppend(a: Grid, b: Grid, glyph: Cell)
    ensures Total(a + b, glyph) == Total(a, glyph) + Total(b, glyph)
  {
    if b == [] {
      assert a + b == a;
    } else {
      var ab := a + b;
      TotalOfLastRow(ab, glyph);
      TotalOfLastRow(b, glyph);
      assert ab[..|ab| - 1] == a + b[..|b| - 1];
      TotalAppend(a, b[..|b| - 1], glyph);
    }
  }

  /** A matrix's total is the total above row `r`, row `r`'s count, and the total below it. */
  lemma TotalAround(m: Grid, glyph: Cell, r: int)
    requires 0 <= r < |m|
    ensures Total(m, glyph) == Total(m[..r], glyph) + Occurrences(m[r], glyph) + Total(m[r + 1..], glyph)
  {
    assert m == m[..r] + ([m[r]] + m[r + 1..]);
    TotalAppend(m[..r], [m[r]] + m[r + 1..], glyph);
    TotalAppend([m[r]], m[r + 1..], glyph);
    TotalOfLastRow([m[r]], glyph);
  }

  /** `rowResults` holds, row by row, how often the row holds the glyph. */
  lemma {:induction false} RowCountsPointwise(m: Grid, glyph: Cell)
    ensures forall i :: 0 <= i < |m| ==> RowCounts(m, glyph)[i] == Occurrences(m[i], glyph)
  {
    if m != [] {
      var n := |m| - 1;
      RowCountsPointwise(m[..n], glyph);
      assert forall i :: 0 <= i < n ==> m[..n][i] == m[i];
    }
  }

  /** The total is the sum of the row counts. */
  lemma TotalOfCounts(m: Grid, glyph: Cell, counts: seq<nat>)
    requires |counts| == |m| && forall i :: 0 <= i < |m| ==> Occurrences(m[i], glyph) == counts[i]
    ensures Total(m, glyph) == Sum(counts)
  {
    RowCountsPointwise(m, glyph);
    assert RowCounts(m, glyph) == counts;
  }

  /** The meaning of the locator: succeed exactly on a valid glyph that occurs once in the
      matrix and return its field; otherwise report how many there are, naming the marker. */
  function Locate(m: Grid, glyph: Cell): (r: Result<Position>)
    ensures r.Ok? <==> IsValidGlyph(glyph) && Total(m, glyph) == 1
    ensures r.Ok? ==> InBounds(m, r.value) && m[r.value.row][r.value.col] == glyph
    ensures !IsValidGlyph(glyph) ==> r == Err(InvalidGlyph)
    ensures IsValidGlyph(glyph) && Total(m, glyph) == 0 ==>
      r == Err(if glyph == START then MissingStartGlyph
               else if glyph == END then MissingEndGlyph
               else MissingUniqueGlyph(glyph))
    ensures IsValidGlyph(glyph) && Total(m, glyph) > 1 ==>
      r == Err(if glyph == START then MultipleStartGlyphs(Total(m, glyph))
               else if glyph == END then MultipleEndGlyphs(Total(m, glyph))
               else MultipleUniqueGlyphs(Total(m, glyph)))
  {
    if !IsValidGlyph(glyph) then Err(InvalidGlyph)
    else
      var n := Total(m, glyph);
      if n == 1 then
        PairsOfSingle(m, glyph);
        var i := FirstRow(m, glyph);
        Ok(Position(i, IndexOf(m[i], glyph)))
      else if n == 0 then
        Err(if glyph == START then MissingStartGlyph
            else if glyph == END then MissingEndGlyph
            else MissingUniqueGlyph(glyph))
      else
        Err(if glyph == START then MultipleStartGlyphs(n)
            else if glyph == END then MultipleEndGlyphs(n)
            else MultipleUniqueGlyphs(n))
  }

  /** A located field is the only field of the matrix holding the glyph. */
  lemma LocatedFieldIsUnique(m: Grid, glyph: Cell, q: Position)
    requires Locate(m, glyph).Ok?
    requires InBounds(m, q) && m[q.row][q.col] == glyph
    ensures q == Locate(m, glyph).value
  {
    PairsOfSingle(m, glyph);
    OnlyOccurrence(m[q.row], glyph, q.col);
  }

  /** The converse of `LocatedFieldIsUnique`: a valid glyph held by field `p` and by no
      other field of the matrix is located at `p`. */
  lemma LocateAt(m: Grid, glyph: Cell, p: Position)
    requires IsValidGlyph(glyph) && InBounds(m, p) && m[p.row][p.col] == glyph
    requires glyph !in m[p.row][..p.col] && glyph !in m[p.row][p.col + 1..]
    requires forall i :: 0 <= i < |m| && i != p.row ==> glyph !in m[i]
    ensures Locate(m, glyph) == Ok(p)
  {
    OccurrencesAround(m[p.row], glyph, p.col);
    TotalAround(m, glyph, p.row);
    TotalZero(m[..p.row], glyph);
    var after := m[p.row + 1..];
    forall i | 0 <= i < |after|
      ensures glyph !in after[i]
    {
      assert after[i] == m[p.row + 1 + i];
    }
    TotalZero(after, glyph);
    LocatedFieldIsUnique(m, glyph, p);
  }

  /** The source's loop: count the glyph row by row, push `[i, indexOf]` for rows
      holding it once, sum the counts, and decide on the total. */
  method FindStartAndFinishPosition(grid: Grid, glyph: Cell) returns (r: Result<Position>)
    ensures r == Locate(grid, glyph)
  {
    var rowResults: seq<nat> := [];
    var position: seq<int> := [];
    if IsValidGlyph(glyph) {
      var i := 0;
      while i < |grid|
        invariant 0 <= i <= |grid|
        invariant rowResults == RowCounts(grid[..i], glyph)
        invariant position == Pairs(grid[..i], glyph)
      {
        assert grid[..i + 1][..i] == grid[..i];
        var rowResult := Occurrences(grid[i], glyph);
        rowResults := rowResults + [rowResult];
        if rowResult == 1 {
          position := position + [i, IndexOf(grid[i], glyph)];
        }
        i := i + 1;
      }
      assert grid[..i] == grid;
    } else {
      return Err(InvalidGlyph);
    }
    var numberOfGlyphs := Sum(rowResults);
    if numberOfGlyphs == 1 {
      PairsOfSingle(grid, glyph);
      return Ok(Position(position[0], position[1]));
    } else if numberOfGlyphs == 0 {
      if glyph == START {
        return Err(MissingStartGlyph);
      } else if glyph == END {
        return Err(MissingEndGlyph);
      } else {
        return Err(MissingUniqueGlyph(glyph));
      }
    } else {
      if glyph == START {
        return Err(MultipleStartGlyphs(numberOfGlyphs));
      } else if glyph == END {
        return Err(MultipleEndGlyphs(numberOfGlyphs));
      } else {
        return Err(MultipleUniqueGlyphs(numberOfGlyphs));
      }
    }
  }
}
