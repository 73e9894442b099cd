/**
 * `Face`: one side of the cube, a 3×3 grid of colours updated in place.
 *
 * Positions 1..9 are read row by row. `__getitem__` and `__setitem__` turn an
 * item into a row and a column with Python's floor division and modulo, then
 * index nested lists, which also accept a row from -3 to -1 counted from the
 * end. So every item from -8 to 9 reaches a cell (item `i <= 0` the same cell
 * as `i + 9`) and any other item raises IndexError, which is `None` / `false`
 * here.
 */
module FaceGrid {
  import opened Permutation
  import opened CubeData
  import opened Wrappers

  /** A row and a column of the grid. */
  datatype Index = Index(row: int, col: int)

  /** The position 1..9 an item in -8..9 addresses: negative rows count from the end. */
  function Canonical(item: int): int
  {
    if item <= 0 then item + 9 else item
  }

  /**
   * The row and column `__getitem__` / `__setitem__` index with: the row is
   * `(item - 1) // 3`, taken from the end when negative, the column
   * `(item - 1) % 3` (for a positive divisor Python's floor division and
   * modulo agree with Dafny's).
   */
  function Locate(item: int): (r: Option<Index>)
    ensures r.Some? <==> -8 <= item <= 9
    ensures r.Some? ==>
      0 <= r.value.row < 3 && 0 <= r.value.col < 3 &&
      3 * r.value.row + r.value.col + 1 == Canonical(item)
  {
    var row, col := (item - 1) / 3, (item - 1) % 3;
    if -3 <= row < 3 then Some(Index(if row < 0 then row + 3 else row, col)) else None
  }

  /** Distinct positions 1..9 are distinct cells of the grid. */
  lemma LocateInjective(p: int, q: int)
    requires 1 <= p <= 9 && 1 <= q <= 9 && p != q
    ensures Locate(p) != Locate(q)
  {
  }

  /** The three rows of a solved face (`solved_config`). */
  function SolvedRows(colour: char): seq<seq<char>>
  {
    [[colour, colour, colour], [colour, colour, colour], [colour, colour, colour]]
  }

  class Face {
    /** `self.name` */
    const name: FaceId
    /** `self.face`, the grid the moves update. */
    const grid: array2<char>
    /** `self.solved_config`, never changed after construction. */
    const solvedConfig: seq<seq<char>>

    predicate Valid()
    {
      grid.Length0 == 3 && grid.Length1 == 3 && solvedConfig == SolvedRows(FaceColour(name))
    }

    /** The colour at position `p`. */
    function At(p: int): char
      requires Valid() && 1 <= p <= 9
      reads grid
    {
      grid[(p - 1) / 3, (p - 1) % 3]
    }

    /** `Face(face)` with no configuration: all nine cells show the face's colour. */
    constructor (face: FaceId)
      ensures name == face && Valid() && fresh(grid)
      ensures forall p | 1 <= p <= 9 :: At(p) == FaceColour(face)
    {
      var colour := FaceColour(face);
      name := face;
      solvedConfig := SolvedRows(colour);
      grid := new char[3, 3]((i, j) => colour);
    }

    /** `__getitem__`: the colour at the item, or `None` where Python raises IndexError. */
    function Get(item: int): (r: Option<char>)
      requires Valid()
      reads grid
      ensures r.Some? <==> -8 <= item <= 9
      ensures r.Some? ==> r.value == At(Canonical(item))
    {
      match Locate(item)
      case None => None
      case Some(ix) => Some(grid[ix.row, ix.col])
    }

    /** `__setitem__`: writes one cell and no other; an item out of range changes nothing. */
    method Set(item: int, value: char) returns (ok: bool)
      requires Valid()
      modifies grid
      ensures ok <==> -8 <= item <= 9
      ensures forall p | 1 <= p <= 9 :: At(p) == if ok && p == Canonical(item) then value else old(At(p))
    {
      var ix := Locate(item);
      if ix.None? {
        return false;
      }
      grid[ix.value.row, ix.value.col] := value;
      ok := true;
    }

    /** `is_solved`: the grid equals `solved_config`, i.e. every cell shows the face's colour. */
    predicate IsSolved()
      requires Valid()
      reads grid
      ensures IsSolved() <==> forall p | 1 <= p <= 9 :: At(p) == FaceColour(name)
    {
      PositionsCoverGrid(FaceColour(name));
      forall i, j | 0 <= i < 3 && 0 <= j < 3 :: grid[i, j] == solvedConfig[i][j]
    }

    /** Positions 1..9 and the nine (row, column) pairs address the same cells. */
    lemma PositionsCoverGrid(colour: char)
      requires Valid()
      ensures (forall i, j | 0 <= i < 3 && 0 <= j < 3 :: grid[i, j] == colour) <==>
              (forall p | 1 <= p <= 9 :: At(p) == colour)
      ensures forall i, j | 0 <= i < 3 && 0 <= j < 3 :: solvedConfig[i][j] == FaceColour(name)
    {
      if forall p | 1 <= p <= 9 :: At(p) == colour {
        forall i, j | 0 <= i < 3 && 0 <= j < 3 ensures grid[i, j] == colour {
          var p := 3 * i + j + 1;
          assert (p - 1) / 3 == i && (p - 1) % 3 == j;
          assert At(p) == colour;
        }
      }
    }
  }
}
