/**
 * `Cube`: the six faces, keyed by face letter, and `rotate`, which updates
 * them in place from a snapshot.
 *
 * The dictionary `configuration` is filled once by the constructor and its
 * entries are never replaced: `rotate` writes into the faces' grids through
 * `Face.__setitem__`. The facelets the grids hold are `State()`, and every
 * method is specified against the functions of `Engine`.
 */
module CubeModel {
  import opened Permutation
  import opened CubeData
  import opened Notation
  import opened Engine
  import opened FaceGrid

  class Cube {
    /** `self.configuration`: one `Face` per face letter. */
    const configuration: map<FaceId, Face>

    /**
     * Every face is present under its own letter, valid, and has a grid of its own.
     * It reads only constant fields and array lengths, so no write to a grid
     * changes it, and the methods below need no `ensures Valid()`.
     */
    ghost predicate Valid()
    {
      (forall f: FaceId :: f in configuration) &&
      (forall f | f in configuration :: configuration[f].Valid() && configuration[f].name == f) &&
      (forall f, g :: Distinct(f, g))
    }

    /**
     * Different faces hold different grids. Kept behind its own predicate so
     * that a proof asks for the pairs it needs.
     */
    ghost predicate Distinct(f: FaceId, g: FaceId)
    {
      f in configuration && g in configuration && f != g ==> configuration[f].grid != configuration[g].grid
    }

    /** The grids `rotate` may write. */
    ghost function Grids(): set<object>
    {
      set f | f in configuration :: configuration[f].grid as object
    }

    /** The colour at one cell. */
    function Val(c: Cell): char
      requires Valid() && OnFace(c)
      reads configuration[c.face].grid
    {
      configuration[c.face].At(c.pos)
    }

    /** The 54 facelets the grids hold. */
    ghost function State(): (s: Facelets)
      requires Valid()
      reads Grids()
      ensures Shaped(s)
      ensures forall c {:trigger s[c]} | c in s :: s[c] == Val(c)
    {
      forall c ensures c in AllCells <==> OnFace(c) {
        AllCellsOnFace(c);
      }
      map c | c in AllCells :: Val(c)
    }

    /** `Cube()` without a configuration: one solved `Face` per entry of `Faces`. */
    constructor ()
      ensures Valid() && fresh(Grids())
      ensures State() == Solved()
    {
      var m: map<FaceId, Face> := map[];
      for i := 0 to |Faces|
        invariant forall f :: f in m <==> f in Faces[..i]
        invariant forall f | f in m :: m[f].Valid() && m[f].name == f && fresh(m[f].grid)
        invariant forall f | f in m :: forall p | 1 <= p <= 9 :: m[f].At(p) == FaceColour(f)
        invariant forall f, g | f in m && g in m && f != g :: m[f].grid != m[g].grid
      {
        var face := new Face(Faces[i]);
        m := m[Faces[i] := face];
      }
      assert Faces[..|Faces|] == Faces;
      assert forall f: FaceId :: f in Faces by {
        forall f: FaceId ensures f in Faces {
          AllCellsOnFace(Cell(f, 1));
        }
      }
      configuration := m;
      new;
      SolvedIff(State());
    }

    /** `is_solved`: every face is solved, which is to say the cube is the new cube. */
    predicate IsSolved()
      requires Valid()
      reads Grids()
      ensures IsSolved() <==> State() == Solved()
    {
      SolvedByFaces();
      forall f | f in configuration :: configuration[f].IsSolved()
    }

    lemma SolvedByFaces()
      requires Valid()
      ensures (forall f | f in configuration :: configuration[f].IsSolved()) <==> State() == Solved()
    {
      var s := State();
      SolvedIff(s);
      if forall f | f in configuration :: configuration[f].IsSolved() {
        forall c | c in s ensures s[c] == FaceColour(c.face) {
          assert configuration[c.face].IsSolved();
        }
      } else {
        var f :| f in configuration && !configuration[f].IsSolved();
        var p :| 1 <= p <= 9 && configuration[f].At(p) != FaceColour(f);
        assert s[Cell(f, p)] != FaceColour(f);
      }
    }

    /** The snapshot `_temp` taken before any pass writes: a copy of every cell. */
    method Snapshot() returns (temp: Facelets)
      requires Valid()
      ensures temp == State()
    {
      temp := map[];
      for k := 0 to |Faces|
        invariant forall c {:trigger c in temp} :: c in temp <==> c.face in Faces[..k] && OnFace(c)
        invariant forall c | c in temp :: temp[c] == Val(c)
      {
        var face := Faces[k];
        for i := 0 to 9
          invariant forall c {:trigger c in temp} :: c in temp <==> (c.face in Faces[..k] && OnFace(c)) || (c.face == face && 1 <= c.pos <= i)
          invariant forall c | c in temp :: temp[c] == Val(c)
        {
          var v := configuration[face].Get(i + 1);
          temp := temp[Cell(face, i + 1) := v.value];
        }
        assert Faces[..k + 1] == Faces[..k] + [face];
      }
      assert Faces[..|Faces|] == Faces;
      var s := State();
      forall c ensures c in temp <==> c in s {
        AllCellsOnFace(c);
      }
      assert temp.Keys == s.Keys;
    }

    /**
     * One pass of `rotate` over a table: for every face and key the table
     * lists, the cell is set to the snapshot's value `rotations` quarter turns
     * back. The dictionary's iteration order does not matter: each cell is
     * written once, from the snapshot.
     */
    method Pass(t: Table, rotations: int, temp: Facelets)
      requires Valid() && WellFormed(t) && rotations >= 1 && Shaped(temp)
      modifies Grids()
      ensures State() == Overwrite(old(State()), temp, t, rotations)
    {
      NextPowOnFaces(t, rotations);
      for k := 0 to |Faces|
        invariant forall c | OnFace(c) ::
          (Val(c) == if Listed(t, c) && c.face in Faces[..k] then temp[NextPow(t, c, rotations)] else old(Val(c)))
      {
        var face := Faces[k];
        if face in t {
          WriteFace(t, face, rotations, temp);
        }
        assert Faces[..k + 1] == Faces[..k] + [face];
      }
      assert Faces[..|Faces|] == Faces;
      ghost var s, s0 := State(), old(State());
      forall c | c in s ensures s[c] == if Listed(t, c) then temp[NextPow(t, c, rotations)] else s0[c] {
      }
      OverwriteByCells(s, s0, temp, t, rotations);
    }

    /**
     * The inner loop of a pass, over the keys the table lists for one face
     * (taken in increasing order): that face's listed cells are written, every
     * other cell of the cube keeps its value.
     */
    method WriteFace(t: Table, face: FaceId, rotations: int, temp: Facelets)
      requires Valid() && WellFormed(t) && rotations >= 1 && Shaped(temp) && face in t
      modifies configuration[face].grid
      ensures forall c | OnFace(c) ::
        (OnFace(NextPow(t, c, rotations)) &&
         Val(c) == if c.face == face && Listed(t, c) then temp[NextPow(t, c, rotations)] else old(Val(c)))
    {
      NextPowOnFaces(t, rotations);
      for key := 1 to 10
        invariant forall p | 1 <= p <= 9 ::
          (configuration[face].At(p) ==
            if Listed(t, Cell(face, p)) && p < key then temp[NextPow(t, Cell(face, p), rotations)] else old(configuration[face].At(p)))
      {
        if key in t[face].keys {
          var source := RotationKeys(t, face, key, rotations);
          var _ := configuration[face].Set(key, temp[source]);
        }
      }
      forall c | OnFace(c) ensures
        Val(c) == if c.face == face && Listed(t, c) then temp[NextPow(t, c, rotations)] else old(Val(c))
      {
        assert Distinct(c.face, face);
      }
    }

    /** Lines 158-175: the face pass of `rotate`, for a face or wide letter. */
    method TurnFaceLayer(direction: char, rotations: int, inverted: bool, temp: Facelets)
      requires Valid() && Shaped(temp) && 1 <= rotations <= 3
      modifies Grids()
      ensures WellFormed(TurnMap(FaceLayer(direction)))
      ensures State() == Overwrite(old(State()), temp, TurnMap(FaceLayer(direction)), if inverted then 4 - rotations else rotations)
    {
      var layer := FaceLayer(direction);
      var turnData := TurnMap(layer);
      var faceRotations := if inverted then 4 - rotations else rotations;
      TurnMapLaws(layer);
      Pass(turnData, faceRotations, temp);
    }

    /** Lines 177-191: the slice pass of `rotate`, for a slice or wide letter. */
    method TurnSliceLayer(direction: char, rotations: int, inverted: bool, temp: Facelets)
      requires Valid() && Shaped(temp) && 1 <= rotations <= 3
      modifies Grids()
      ensures WellFormed(TurnMap(SliceLayer(direction))) && SliceRotations(direction, rotations, inverted) >= 1
      ensures State() == Overwrite(old(State()), temp, TurnMap(SliceLayer(direction)), SliceRotations(direction, rotations, inverted))
    {
      var layer, sliceRotations := SliceLayer(direction), SliceRotations(direction, rotations, inverted);
      var turnData := TurnMap(layer);
      TurnMapLaws(layer);
      Pass(turnData, sliceRotations, temp);
    }

    /**
     * `rotate`: a token the pattern refuses changes nothing (Python raises
     * before any write); otherwise the decoded move is made.
     */
    method Rotate(rotation: string) returns (ok: bool)
      requires Valid()
      modifies Grids()
      ensures ok <==> Parse(rotation).Some?
      ensures ok ==> State() == ApplyMove(AsWritten, old(State()), Parse(rotation).value)
      ensures !ok ==> State() == old(State())
    {
      var pattern := Parse(rotation);
      if pattern.None? {
        return false;
      }
      Turn(pattern.value);
      ok := true;
    }

    /**
     * Lines 153-191 of `rotate`, once the token is decoded: the snapshot is
     * taken, the face pass runs for face and wide letters and the slice pass
     * for slice and wide letters, both reading the snapshot.
     */
    method Turn(mv: Move)
      requires Valid() && 1 <= mv.count <= 3
      modifies Grids()
      ensures State() == ApplyMove(AsWritten, old(State()), mv)
    {
      var rotations, direction, inverted := mv.count, Letter(mv.family), mv.inverted;
      var temp := Snapshot();
      TablesOfFamily(AsWritten, mv.family);
      ghost var faceTable, sliceTable := FaceTable(AsWritten, mv.family), SliceTable(mv.family);
      assert (direction in "RrLlUuDdFfBb" <==> !mv.family.SliceTurn?) && (direction in "MESrludfb" <==> !mv.family.FaceTurn?) by {
        DispatchByLetter(mv);
      }
      if direction in "RrLlUuDdFfBb" {
        assert TurnMap(FaceLayer(direction)) == faceTable && (if inverted then 4 - rotations else rotations) == FaceCount(mv) by {
          DispatchByLetter(mv);
        }
        TurnFaceLayer(direction, rotations, inverted, temp);
      }
      ghost var afterFace := State();
      assert afterFace == if mv.family.SliceTurn? then temp else Overwrite(temp, temp, faceTable, FaceCount(mv));
      if direction in "MESrludfb" {
        assert TurnMap(SliceLayer(direction)) == sliceTable && SliceRotations(direction, rotations, inverted) == SliceCount(mv) by {
          DispatchByLetter(mv);
        }
        TurnSliceLayer(direction, rotations, inverted, temp);
      }
      assert State() == if mv.family.FaceTurn? then afterFace else Overwrite(afterFace, temp, sliceTable, SliceCount(mv));
      ApplyMoveByPasses(AsWritten, temp, mv);
    }
  }

  /** Lines 160-171: the face table a face or wide letter selects. */
  function FaceLayer(direction: char): (l: Layer)
    ensures l.Outer?
  {
    if direction in "Rr" then Outer(R)
    else if direction in "Ll" then Outer(L)
    else if direction in "Uu" then Outer(U)
    else if direction in "Dd" then Outer(D)
    else if direction in "Ff" then Outer(F)
    else Outer(B)
  }

  /** Lines 178-187: the slice table a slice or wide letter selects. */
  function SliceLayer(direction: char): (l: Layer)
    ensures l.Middle?
  {
    if direction in "Mrl" then Middle(M)
    else if direction in "Eud" then Middle(E)
    else Middle(S)
  }

  /** Lines 181, 184, 187: the slice turns backwards for 'r', 'u', 'b' unless inverted, and for the others when inverted. */
  function SliceRotations(direction: char, rotations: int, inverted: bool): (r: int)
    ensures 1 <= rotations <= 3 ==> 1 <= r <= 3
    ensures direction in "MESldf" ==> r == if inverted then 4 - rotations else rotations
    ensures direction in "rub" ==> r == if inverted then rotations else 4 - rotations
  {
    var reversed := if direction in "Mrl" then 'r' else if direction in "Eud" then 'u' else 'b';
    if (direction == reversed && !inverted) || (direction != reversed && inverted) then 4 - rotations else rotations
  }

  /**
   * `rotate` dispatches on the letter; the letter of a decoded move runs the
   * face pass exactly for face and wide moves, the slice pass exactly for slice
   * and wide moves, with the tables and quarter turns `Engine` resolves.
   */
  lemma DispatchByLetter(mv: Move)
    requires 1 <= mv.count <= 3
    ensures Letter(mv.family) in "RrLlUuDdFfBb" <==> !mv.family.SliceTurn?
    ensures Letter(mv.family) in "MESrludfb" <==> !mv.family.FaceTurn?
    ensures !mv.family.SliceTurn? ==> FaceLayer(Letter(mv.family)) == Outer(FaceOf(mv.family))
    ensures !mv.family.FaceTurn? ==>
      SliceLayer(Letter(mv.family)) == Middle(SliceOf(mv.family)) &&
      SliceRotations(Letter(mv.family), mv.count, mv.inverted) == SliceCount(mv)
  {
    match mv.family
    case FaceTurn(f) =>
    case SliceTurn(sl) =>
    case WideTurn(f) =>
  }

  /** A state that agrees with `Overwrite` at every cell is `Overwrite`. */
  lemma OverwriteByCells(s: Facelets, s0: Facelets, temp: Facelets, t: Table, rotations: int)
    requires Shaped(s) && Shaped(s0) && Shaped(temp) && WellFormed(t) && rotations >= 1
    requires forall c | OnFace(c) :: OnFace(NextPow(t, c, rotations))
    requires forall c | c in s :: s[c] == if Listed(t, c) then temp[NextPow(t, c, rotations)] else s0[c]
    ensures s == Overwrite(s0, temp, t, rotations)
  {
    var r := Overwrite(s0, temp, t, rotations);
    forall c | c in s ensures s[c] == r[c] {
    }
    assert s.Keys == r.Keys;
  }
}
