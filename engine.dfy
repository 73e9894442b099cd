/**
 * What one call of `Cube.rotate` does to the 54 facelets, as a function of the
 * facelets before the call, and the laws that follow from the turn tables.
 * Every function takes the `Edition` of the F table: `AsWritten` is what
 * `rotate` computes, `Corrected` the same engine with the intended F table.
 * In both, a move is a permutation of the cells, counts compose as quarter
 * turns, an inverted move is the complementary count, only the cells of the
 * resolved tables change, face turns keep every centre, a wide turn is its
 * face turn plus the slice turn in the sense the parity rule picks, and eight
 * applications are the identity. Where the face table has period four (every
 * letter when corrected, every letter but 'F' and 'f' as written) a move
 * followed by its inverse restores the cube and four applications are the
 * identity. As written, 'F' and 'f' fail the first at every count and the
 * second at counts 1 and 3; the count digit is a repetition count for every
 * move but '2Fi' and '2fi' as written.
 */
module Engine {
  import opened Permutation
  import opened CubeData
  import opened Notation

  /** The facelets of a cube: the value shown at each of the 54 cells. */
  type Facelets = map<Cell, char>

  /** A state holds exactly the 54 cells. */
  ghost predicate Shaped(s: Facelets)
  {
    forall c {:trigger c in s} :: c in s <==> OnFace(c)
  }

  lemma NextPowOnFace(t: Table, c: Cell, n: nat)
    requires WellFormed(t) && OnFace(c)
    ensures OnFace(NextPow(t, c, n))
  {
    NextPowListed(t, c, n);
  }

  lemma NextPowOnFaces(t: Table, n: nat)
    requires WellFormed(t)
    ensures forall c | OnFace(c) :: OnFace(NextPow(t, c, n))
  {
    forall c | OnFace(c) ensures OnFace(NextPow(t, c, n)) {
      NextPowOnFace(t, c, n);
    }
  }

  /**
   * One pass of `rotate` over a table (lines 172-175, 188-191): every cell the
   * table names is written with the value the snapshot holds `rotations`
   * quarter turns back (`rotation_keys`); every other cell keeps its value in
   * `base`.
   */
  function Overwrite(base: Facelets, snapshot: Facelets, t: Table, rotations: int): (r: Facelets)
    requires Shaped(base) && Shaped(snapshot) && WellFormed(t) && rotations >= 1
    ensures Shaped(r)
    ensures forall c {:trigger r[c]} | c in r ::
      OnFace(NextPow(t, c, rotations)) &&
      r[c] == if Listed(t, c) then snapshot[NextPow(t, c, rotations)] else base[c]
  {
    NextPowOnFaces(t, rotations);
    map c | c in base :: if Listed(t, c) then snapshot[RotationKeys(t, c.face, c.pos, rotations)] else base[c]
  }

  // ---------------------------------------------------------------------------
  // Resolving a move (rotate, lines 158-187)

  /** The wide letters whose slice turns against the slice table's own sense: 'r', 'u', 'b'. */
  predicate ReversesSlice(f: FaceId)
  {
    f == R || f == U || f == B
  }

  /** Quarter turns of the face table (line 171). */
  function FaceTurns(mv: Move): int
  {
    if mv.inverted then 4 - mv.count else mv.count
  }

  /** Quarter turns of the slice table (lines 181, 184, 187). */
  function SliceTurns(mv: Move): int
  {
    var reversed := mv.family.WideTurn? && ReversesSlice(mv.family.face);
    if (reversed && !mv.inverted) || (!reversed && mv.inverted) then 4 - mv.count else mv.count
  }

  /**
   * The slice a family turns: its own for a slice move, the middle layer next
   * to the face for a face or wide move (which a face move turns zero times).
   */
  function SliceOf(fam: Family): SliceId
  {
    match fam
    case SliceTurn(slice) => slice
    case FaceTurn(face) => SliceFor(face)
    case WideTurn(face) => SliceFor(face)
  }

  /** The face a family turns: for a slice move a face parallel to it, which it turns zero times. */
  function FaceOf(fam: Family): FaceId
  {
    match fam
    case SliceTurn(slice) => ParallelFace(slice)
    case FaceTurn(face) => face
    case WideTurn(face) => face
  }

  /** The face table a family uses in the edition. */
  function FaceTable(ed: Edition, fam: Family): Table
  {
    LayerTable(ed, Outer(FaceOf(fam)))
  }

  /** The face table of the family has period four: all but 'F' and 'f' as written. */
  predicate PeriodFour(ed: Edition, fam: Family)
  {
    ed == Corrected || FaceOf(fam) != F
  }

  /** The slice table a family uses. */
  function SliceTable(fam: Family): Table
  {
    TurnMap(Middle(SliceOf(fam)))
  }

  /** Quarter turns of the face table: none for a slice move. */
  function FaceCount(mv: Move): nat
    requires 1 <= mv.count <= 3
  {
    if mv.family.SliceTurn? then 0 else FaceTurns(mv)
  }

  /** Quarter turns of the slice table: none for a face move. */
  function SliceCount(mv: Move): nat
    requires 1 <= mv.count <= 3
  {
    if mv.family.FaceTurn? then 0 else SliceTurns(mv)
  }

  /**
   * Both tables of a family are well formed with period eight; the slice table
   * has period four, the face table exactly when `PeriodFour`; the tables of a
   * wide move are disjoint.
   */
  lemma TablesOfFamily(ed: Edition, fam: Family)
    ensures WellFormed(FaceTable(ed, fam)) && HasPeriod(FaceTable(ed, fam), 8)
    ensures HasPeriod(FaceTable(ed, fam), 4) <==> PeriodFour(ed, fam)
    ensures WellFormed(SliceTable(fam)) && HasPeriod(SliceTable(fam), 4) && HasPeriod(SliceTable(fam), 8)
    ensures fam.WideTurn? ==> Disjoint(FaceTable(ed, fam), SliceTable(fam))
  {
    LayerTableLaws(ed, Outer(FaceOf(fam)));
    TurnMapLaws(Middle(SliceOf(fam)));
    if fam.WideTurn? {
      forall c ensures !(Listed(FaceTable(ed, fam), c) && Listed(SliceTable(fam), c)) {
        WideLayersDisjoint(ed, fam.face, c);
      }
    }
  }

  /** What a move needs of the two tables it turns: both well formed, and disjoint for a wide move. */
  ghost predicate Fits(mv: Move, t1: Table, t2: Table)
  {
    WellFormed(t1) && WellFormed(t2) && (mv.family.WideTurn? ==> Disjoint(t1, t2))
  }

  /** The tables an edition gives a move fit it. */
  lemma TablesFit(ed: Edition, mv: Move)
    ensures Fits(mv, FaceTable(ed, mv.family), SliceTable(mv.family))
  {
    TablesOfFamily(ed, mv.family);
  }

  /**
   * The cell whose value `c` shows after the move turns face table `t1` and
   * slice table `t2`: `SliceCount` turns of `t2` back, then `FaceCount` turns
   * of `t1` back.
   */
  function Back(mv: Move, t1: Table, t2: Table, c: Cell): Cell
    requires 1 <= mv.count <= 3
  {
    NextPow(t1, NextPow(t2, c, SliceCount(mv)), FaceCount(mv))
  }

  /** The cell whose value `c` shows after the move, with the edition's tables. */
  function Source(ed: Edition, mv: Move, c: Cell): Cell
    requires 1 <= mv.count <= 3
  {
    Back(mv, FaceTable(ed, mv.family), SliceTable(mv.family), c)
  }

  /** Where the two passes read `c` from: the slice pass if it writes `c`, else the face pass if it does, else `c`. */
  function PassRead(mv: Move, t1: Table, t2: Table, c: Cell): Cell
    requires 1 <= mv.count <= 3
  {
    if !mv.family.FaceTurn? && Listed(t2, c) then NextPow(t2, c, SliceCount(mv))
    else if !mv.family.SliceTurn? && Listed(t1, c) then NextPow(t1, c, FaceCount(mv))
    else c
  }

  /** Where the two passes of `rotate` read the value of `c` from, with the edition's tables. */
  function PassSource(ed: Edition, mv: Move, c: Cell): Cell
    requires 1 <= mv.count <= 3
  {
    PassRead(mv, FaceTable(ed, mv.family), SliceTable(mv.family), c)
  }

  /**
   * For tables that fit the move, reading `c` pass by pass agrees with `Back`:
   * a cell the slice pass writes reads the slice table back, else a cell the
   * face pass writes reads the face table back, else it keeps its value.
   */
  lemma BackByPass(mv: Move, t1: Table, t2: Table, c: Cell)
    requires 1 <= mv.count <= 3 && OnFace(c) && Fits(mv, t1, t2)
    ensures OnFace(Back(mv, t1, t2, c)) && Back(mv, t1, t2, c) == PassRead(mv, t1, t2, c)
  {
    var a, b := FaceCount(mv), SliceCount(mv);
    NextPowListed(t2, c, b);
    NextPowListed(t1, c, a);
    NextPowListed(t1, NextPow(t2, c, b), a);
    NextPowOnFace(t2, c, b);
    NextPowOnFace(t1, NextPow(t2, c, b), a);
  }

  /** Read cell by cell, the two passes of `rotate` agree with `Source`. */
  lemma SourceByPass(ed: Edition, mv: Move, c: Cell)
    requires 1 <= mv.count <= 3 && OnFace(c)
    ensures OnFace(Source(ed, mv, c)) && Source(ed, mv, c) == PassSource(ed, mv, c)
  {
    TablesFit(ed, mv);
    BackByPass(mv, FaceTable(ed, mv.family), SliceTable(mv.family), c);
  }

  /**
   * The passes of `rotate` after a successful parse, over face table `t1` and
   * slice table `t2`: the face pass for face and wide letters, then the slice
   * pass for slice and wide letters, both reading the snapshot taken before
   * either writes.
   */
  function Passes(s: Facelets, mv: Move, t1: Table, t2: Table): (r: Facelets)
    requires Shaped(s) && 1 <= mv.count <= 3 && WellFormed(t1) && WellFormed(t2)
    ensures Shaped(r)
  {
    match mv.family
    case FaceTurn(_) => Overwrite(s, s, t1, FaceCount(mv))
    case SliceTurn(_) => Overwrite(s, s, t2, SliceCount(mv))
    case WideTurn(_) => Overwrite(Overwrite(s, s, t1, FaceCount(mv)), s, t2, SliceCount(mv))
  }

  /** `Cube.rotate` after a successful parse: the passes over the edition's tables of the move. */
  function ApplyMove(ed: Edition, s: Facelets, mv: Move): (r: Facelets)
    requires Shaped(s) && 1 <= mv.count <= 3
    ensures Shaped(r)
  {
    TablesOfFamily(ed, mv.family);
    Passes(s, mv, FaceTable(ed, mv.family), SliceTable(mv.family))
  }

  /** `ApplyMove` as `rotate` runs it: the face pass unless a slice letter, then the slice pass unless a face letter. */
  lemma ApplyMoveByPasses(ed: Edition, s: Facelets, mv: Move)
    requires Shaped(s) && 1 <= mv.count <= 3
    ensures WellFormed(FaceTable(ed, mv.family)) && WellFormed(SliceTable(mv.family))
    ensures var afterFace := if mv.family.SliceTurn? then s else Overwrite(s, s, FaceTable(ed, mv.family), FaceCount(mv));
      ApplyMove(ed, s, mv) == if mv.family.FaceTurn? then afterFace else Overwrite(afterFace, s, SliceTable(mv.family), SliceCount(mv))
  {
    TablesOfFamily(ed, mv.family);
  }

  /** For tables that fit the move, the passes permute the cells: every cell shows the old value of its `Back`. */
  lemma PassesAt(s: Facelets, mv: Move, t1: Table, t2: Table, c: Cell)
    requires Shaped(s) && 1 <= mv.count <= 3 && OnFace(c) && Fits(mv, t1, t2)
    ensures OnFace(Back(mv, t1, t2, c)) && Passes(s, mv, t1, t2)[c] == s[Back(mv, t1, t2, c)]
  {
    BackByPass(mv, t1, t2, c);
  }

  /** A move permutes the cells: every cell shows the old value of its `Source`. */
  lemma ApplyMoveAt(ed: Edition, s: Facelets, mv: Move, c: Cell)
    requires Shaped(s) && 1 <= mv.count <= 3 && OnFace(c)
    ensures OnFace(Source(ed, mv, c)) && ApplyMove(ed, s, mv)[c] == s[Source(ed, mv, c)]
  {
    TablesFit(ed, mv);
    PassesAt(s, mv, FaceTable(ed, mv.family), SliceTable(mv.family), c);
  }

  // ---------------------------------------------------------------------------
  // Laws of moves

  /** The passes over the same tables run `n` times in a row. */
  function PassesPow(s: Facelets, mv: Move, t1: Table, t2: Table, n: nat): (r: Facelets)
    requires Shaped(s) && 1 <= mv.count <= 3 && WellFormed(t1) && WellFormed(t2)
    ensures Shaped(r)
  {
    if n == 0 then s else Passes(PassesPow(s, mv, t1, t2, n - 1), mv, t1, t2)
  }

  /** The cell whose value `c` shows after the passes run `n` times. */
  function BackPow(mv: Move, t1: Table, t2: Table, c: Cell, n: nat): Cell
    requires 1 <= mv.count <= 3
    decreases n
  {
    if n == 0 then c else BackPow(mv, t1, t2, Back(mv, t1, t2, c), n - 1)
  }

  /** The move applied `n` times in a row (`RepeatUnfolds`). */
  function Repeat(ed: Edition, s: Facelets, mv: Move, n: nat): (r: Facelets)
    requires Shaped(s) && 1 <= mv.count <= 3
    ensures Shaped(r)
  {
    TablesOfFamily(ed, mv.family);
    PassesPow(s, mv, FaceTable(ed, mv.family), SliceTable(mv.family), n)
  }

  /** No application leaves the state, and each further one is one more `ApplyMove`. */
  lemma RepeatUnfolds(ed: Edition, s: Facelets, mv: Move, n: nat)
    requires Shaped(s) && 1 <= mv.count <= 3
    ensures Repeat(ed, s, mv, 0) == s
    ensures n > 0 ==> Repeat(ed, s, mv, n) == ApplyMove(ed, Repeat(ed, s, mv, n - 1), mv)
  {
  }

  /** The cell whose value `c` shows after `n` applications of the move. */
  function SourcePow(ed: Edition, mv: Move, c: Cell, n: nat): Cell
    requires 1 <= mv.count <= 3
  {
    BackPow(mv, FaceTable(ed, mv.family), SliceTable(mv.family), c, n)
  }

  /** For tables that fit the move, after `n` runs of the passes every cell shows the old value of its `BackPow`. */
  lemma {:induction false} PassesPowAt(s: Facelets, mv: Move, t1: Table, t2: Table, n: nat, c: Cell)
    requires Shaped(s) && 1 <= mv.count <= 3 && OnFace(c) && Fits(mv, t1, t2)
    ensures OnFace(BackPow(mv, t1, t2, c, n)) && PassesPow(s, mv, t1, t2, n)[c] == s[BackPow(mv, t1, t2, c, n)]
  {
    if n > 0 {
      PassesAt(PassesPow(s, mv, t1, t2, n - 1), mv, t1, t2, c);
      PassesPowAt(s, mv, t1, t2, n - 1, Back(mv, t1, t2, c));
    }
  }

  /** After `n` applications every cell shows the old value of its `SourcePow`. */
  lemma RepeatAt(ed: Edition, s: Facelets, mv: Move, n: nat, c: Cell)
    requires Shaped(s) && 1 <= mv.count <= 3 && OnFace(c)
    ensures OnFace(SourcePow(ed, mv, c, n)) && Repeat(ed, s, mv, n)[c] == s[SourcePow(ed, mv, c, n)]
  {
    TablesFit(ed, mv);
    PassesPowAt(s, mv, FaceTable(ed, mv.family), SliceTable(mv.family), n, c);
  }

  /** For tables that fit, two moves of one family turn each table by the sum of their counts. */
  lemma BackCompose(mv1: Move, mv2: Move, t1: Table, t2: Table, c: Cell)
    requires 1 <= mv1.count <= 3 && 1 <= mv2.count <= 3 && mv1.family == mv2.family && Fits(mv1, t1, t2)
    ensures Back(mv2, t1, t2, Back(mv1, t1, t2, c)) ==
      NextPow(t1, NextPow(t2, c, SliceCount(mv1) + SliceCount(mv2)), FaceCount(mv1) + FaceCount(mv2))
  {
    assert Disjoint(t1, t2) || FaceCount(mv1) == 0 || SliceCount(mv2) == 0;
    TwoTablesCompose(t1, t2, FaceCount(mv2), SliceCount(mv2), FaceCount(mv1), SliceCount(mv1), c);
  }

  /** Two moves of one family compose by adding their quarter turns table by table. */
  lemma SourceCompose(ed: Edition, mv1: Move, mv2: Move, c: Cell)
    requires 1 <= mv1.count <= 3 && 1 <= mv2.count <= 3 && mv1.family == mv2.family
    ensures Source(ed, mv2, Source(ed, mv1, c)) ==
      NextPow(FaceTable(ed, mv1.family), NextPow(SliceTable(mv1.family), c, SliceCount(mv1) + SliceCount(mv2)), FaceCount(mv1) + FaceCount(mv2))
  {
    TablesFit(ed, mv1);
    BackCompose(mv1, mv2, FaceTable(ed, mv1.family), SliceTable(mv1.family), c);
  }

  /** For tables that fit, `n` runs of the passes turn each table `n` times as far. */
  lemma {:induction false} BackPowTurns(mv: Move, t1: Table, t2: Table, c: Cell, n: nat)
    requires 1 <= mv.count <= 3 && Fits(mv, t1, t2)
    ensures BackPow(mv, t1, t2, c, n) == NextPow(t1, NextPow(t2, c, n * SliceCount(mv)), n * FaceCount(mv))
    decreases n
  {
    if n > 0 {
      BackPowTurns(mv, t1, t2, Back(mv, t1, t2, c), n - 1);
      RoundsStep(t1, t2, FaceCount(mv), SliceCount(mv), n, c);
    }
  }

  /** `n` applications of a move turn each of its tables `n` times as far. */
  lemma SourcePowTurns(ed: Edition, mv: Move, c: Cell, n: nat)
    requires 1 <= mv.count <= 3
    ensures SourcePow(ed, mv, c, n) ==
      NextPow(FaceTable(ed, mv.family), NextPow(SliceTable(mv.family), c, n * SliceCount(mv)), n * FaceCount(mv))
  {
    TablesFit(ed, mv);
    BackPowTurns(mv, FaceTable(ed, mv.family), SliceTable(mv.family), c, n);
  }

  /** The same letter and count with the inversion flipped. */
  function Inverse(mv: Move): Move
  {
    Move(mv.count, mv.family, !mv.inverted)
  }

  /** Undoing a move's turns: the inverse's sources followed back through the move lead home. */
  lemma SourceUndo(ed: Edition, mv: Move, c: Cell)
    requires 1 <= mv.count <= 3 && PeriodFour(ed, mv.family)
    ensures Source(ed, mv, Source(ed, Inverse(mv), c)) == c
  {
    SourceCompose(ed, Inverse(mv), mv, c);
    TablesOfFamily(ed, mv.family);
    InverseCounts(mv);
    MultipleOfFour(FaceTable(ed, mv.family), SliceTable(mv.family), if mv.family.SliceTurn? then 0 else 1, if mv.family.FaceTurn? then 0 else 1, c);
  }

  /** A move and its inverse turn each table they use four times in all. */
  lemma InverseCounts(mv: Move)
    requires 1 <= mv.count <= 3
    ensures FaceCount(Inverse(mv)) + FaceCount(mv) == if mv.family.SliceTurn? then 0 else 4
    ensures SliceCount(Inverse(mv)) + SliceCount(mv) == if mv.family.FaceTurn? then 0 else 4
  {
  }

  /**
   * Four applications turn each table a multiple of four times, and a
   * multiple of eight times for a count of two.
   */
  lemma SourceFour(ed: Edition, mv: Move, c: Cell)
    requires 1 <= mv.count <= 3 && (PeriodFour(ed, mv.family) || mv.count == 2)
    ensures SourcePow(ed, mv, c, 4) == c
  {
    var t1, t2 := FaceTable(ed, mv.family), SliceTable(mv.family);
    assert HasPeriod(t1, 8) && HasPeriod(t2, 8) && (PeriodFour(ed, mv.family) ==> HasPeriod(t1, 4) && HasPeriod(t2, 4)) by {
      TablesOfFamily(ed, mv.family);
    }
    SourcePowTurns(ed, mv, c, 4);
    if mv.count == 2 {
      var a, b := FaceCount(mv), SliceCount(mv);
      assert 4 * a == 8 * (a / 2) && 4 * b == 8 * (b / 2);
      WholeRounds(t2, 8, b / 2, c);
      WholeRounds(t1, 8, a / 2, c);
    } else {
      MultipleOfFour(t1, t2, FaceCount(mv), SliceCount(mv), c);
    }
  }

  /**
   * Where the face table has period four (every move when corrected, all but
   * 'F' and 'f' as written), a move followed by its inverse restores every
   * facelet.
   */
  lemma RoundTrip(ed: Edition, s: Facelets, mv: Move)
    requires Shaped(s) && 1 <= mv.count <= 3 && PeriodFour(ed, mv.family)
    ensures ApplyMove(ed, ApplyMove(ed, s, mv), Inverse(mv)) == s
  {
    forall c | OnFace(c) ensures ApplyMove(ed, ApplyMove(ed, s, mv), Inverse(mv))[c] == s[c] {
      RoundTripAt(ed, s, mv, c);
    }
    SameCells(ApplyMove(ed, ApplyMove(ed, s, mv), Inverse(mv)), s);
  }

  lemma RoundTripAt(ed: Edition, s: Facelets, mv: Move, c: Cell)
    requires Shaped(s) && 1 <= mv.count <= 3 && OnFace(c) && PeriodFour(ed, mv.family)
    ensures ApplyMove(ed, ApplyMove(ed, s, mv), Inverse(mv))[c] == s[c]
  {
    ApplyMoveAt(ed, ApplyMove(ed, s, mv), Inverse(mv), c);
    ApplyMoveAt(ed, s, mv, Source(ed, Inverse(mv), c));
    SourceUndo(ed, mv, c);
  }

  /** Two states that agree on every cell are equal. */
  lemma SameCells(x: Facelets, y: Facelets)
    requires Shaped(x) && Shaped(y)
    requires forall c | OnFace(c) :: x[c] == y[c]
    ensures x == y
  {
    assert x.Keys == y.Keys;
  }

  /**
   * Four applications of a move are the identity: where the face table has
   * period four, and for a count of two (eight quarter turns) in any case.
   */
  lemma FourTimes(ed: Edition, s: Facelets, mv: Move)
    requires Shaped(s) && 1 <= mv.count <= 3 && (PeriodFour(ed, mv.family) || mv.count == 2)
    ensures Repeat(ed, s, mv, 4) == s
  {
    var y := Repeat(ed, s, mv, 4);
    forall c | c in y ensures y[c] == s[c] {
      RepeatAt(ed, s, mv, 4, c);
      SourceFour(ed, mv, c);
    }
    assert y.Keys == s.Keys;
  }

  /** Eight applications of any move, in either edition, are the identity. */
  lemma EightTimes(ed: Edition, s: Facelets, mv: Move)
    requires Shaped(s) && 1 <= mv.count <= 3
    ensures Repeat(ed, s, mv, 8) == s
  {
    var y := Repeat(ed, s, mv, 8);
    forall c | c in y ensures y[c] == s[c] {
      RepeatAt(ed, s, mv, 8, c);
      SourceEight(ed, mv, c);
    }
    assert y.Keys == s.Keys;
  }

  /** Eight applications turn each table a multiple of eight times. */
  lemma SourceEight(ed: Edition, mv: Move, c: Cell)
    requires 1 <= mv.count <= 3
    ensures SourcePow(ed, mv, c, 8) == c
  {
    var t1, t2 := FaceTable(ed, mv.family), SliceTable(mv.family);
    assert Fits(mv, t1, t2) && HasPeriod(t1, 8) && HasPeriod(t2, 8) by {
      TablesFit(ed, mv);
      TablesOfFamily(ed, mv.family);
    }
    BackEight(mv, t1, t2, c);
  }

  /** For tables that fit, one more run of the passes reads back from where `n` runs read back to. */
  lemma {:induction false} BackPowLast(mv: Move, t1: Table, t2: Table, c: Cell, n: nat)
    requires 1 <= mv.count <= 3 && Fits(mv, t1, t2) && OnFace(c)
    ensures OnFace(BackPow(mv, t1, t2, c, n))
    ensures BackPow(mv, t1, t2, c, n + 1) == Back(mv, t1, t2, BackPow(mv, t1, t2, c, n))
    decreases n
  {
    BackByPass(mv, t1, t2, c);
    if n > 0 {
      BackPowLast(mv, t1, t2, Back(mv, t1, t2, c), n - 1);
    }
  }

  /** With both tables of period eight, eight runs of the passes read every cell from itself. */
  lemma BackEight(mv: Move, t1: Table, t2: Table, c: Cell)
    requires 1 <= mv.count <= 3 && Fits(mv, t1, t2) && HasPeriod(t1, 8) && HasPeriod(t2, 8)
    ensures BackPow(mv, t1, t2, c, 8) == c
  {
    BackPowTurns(mv, t1, t2, c, 8);
    WholeRounds(t2, 8, SliceCount(mv), c);
    WholeRounds(t1, 8, FaceCount(mv), c);
  }

  /** With both tables of period eight, distinct cells read from distinct cells. */
  lemma BackInjective(mv: Move, t1: Table, t2: Table, c1: Cell, c2: Cell)
    requires 1 <= mv.count <= 3 && Fits(mv, t1, t2) && HasPeriod(t1, 8) && HasPeriod(t2, 8)
    requires Back(mv, t1, t2, c1) == Back(mv, t1, t2, c2)
    ensures c1 == c2
  {
    BackEight(mv, t1, t2, c1);
    BackEight(mv, t1, t2, c2);
    assert BackPow(mv, t1, t2, c1, 8) == BackPow(mv, t1, t2, Back(mv, t1, t2, c1), 7);
    assert BackPow(mv, t1, t2, c2, 8) == BackPow(mv, t1, t2, Back(mv, t1, t2, c2), 7);
  }

  /** With both tables of period eight, every cell is read by a cell: the one seven runs back. */
  lemma BackOnto(mv: Move, t1: Table, t2: Table, d: Cell)
    requires 1 <= mv.count <= 3 && Fits(mv, t1, t2) && HasPeriod(t1, 8) && HasPeriod(t2, 8) && OnFace(d)
    ensures OnFace(BackPow(mv, t1, t2, d, 7)) && Back(mv, t1, t2, BackPow(mv, t1, t2, d, 7)) == d
  {
    BackPowLast(mv, t1, t2, d, 7);
    BackEight(mv, t1, t2, d);
  }

  /** In either edition a move reads distinct cells from distinct cells. */
  lemma SourceInjective(ed: Edition, mv: Move, c1: Cell, c2: Cell)
    requires 1 <= mv.count <= 3 && Source(ed, mv, c1) == Source(ed, mv, c2)
    ensures c1 == c2
  {
    var t1, t2 := FaceTable(ed, mv.family), SliceTable(mv.family);
    assert Fits(mv, t1, t2) && HasPeriod(t1, 8) && HasPeriod(t2, 8) by {
      TablesFit(ed, mv);
      TablesOfFamily(ed, mv.family);
    }
    BackInjective(mv, t1, t2, c1, c2);
  }

  /** In either edition every cell is the source of some cell: with `ApplyMoveAt`, a move permutes the cells. */
  lemma SourceOnto(ed: Edition, mv: Move, d: Cell)
    requires 1 <= mv.count <= 3 && OnFace(d)
    ensures OnFace(SourcePow(ed, mv, d, 7)) && Source(ed, mv, SourcePow(ed, mv, d, 7)) == d
  {
    var t1, t2 := FaceTable(ed, mv.family), SliceTable(mv.family);
    assert Fits(mv, t1, t2) && HasPeriod(t1, 8) && HasPeriod(t2, 8) by {
      TablesFit(ed, mv);
      TablesOfFamily(ed, mv.family);
    }
    BackOnto(mv, t1, t2, d);
  }

  /**
   * The count digit is a repetition count: `kX` is `X` applied `k` times. It
   * holds for every move except `2Fi` and `2fi` as written.
   */
  lemma CountIsRepetition(ed: Edition, s: Facelets, mv: Move)
    requires Shaped(s) && 1 <= mv.count <= 3 && (PeriodFour(ed, mv.family) || !(mv.inverted && mv.count == 2))
    ensures ApplyMove(ed, s, mv) == Repeat(ed, s, Move(1, mv.family, mv.inverted), mv.count)
  {
    var one := Move(1, mv.family, mv.inverted);
    forall c | OnFace(c) ensures ApplyMove(ed, s, mv)[c] == Repeat(ed, s, one, mv.count)[c] {
      CountIsRepetitionAt(ed, s, mv, c);
    }
    SameCells(ApplyMove(ed, s, mv), Repeat(ed, s, one, mv.count));
  }

  lemma CountIsRepetitionAt(ed: Edition, s: Facelets, mv: Move, c: Cell)
    requires Shaped(s) && 1 <= mv.count <= 3 && OnFace(c) && (PeriodFour(ed, mv.family) || !(mv.inverted && mv.count == 2))
    ensures ApplyMove(ed, s, mv)[c] == Repeat(ed, s, Move(1, mv.family, mv.inverted), mv.count)[c]
  {
    ApplyMoveAt(ed, s, mv, c);
    RepeatAt(ed, s, Move(1, mv.family, mv.inverted), mv.count, c);
    SourceIsPow(ed, mv, c);
  }

  /**
   * A move of count `k` reads where `k` moves of count 1 read. With period
   * four that is any move; with period eight only `2Fi` and `2fi` (two
   * quarter turns against six) fail, and `3Fi` (one against nine) holds.
   */
  lemma SourceIsPow(ed: Edition, mv: Move, c: Cell)
    requires 1 <= mv.count <= 3 && (PeriodFour(ed, mv.family) || !(mv.inverted && mv.count == 2))
    ensures Source(ed, mv, c) == SourcePow(ed, Move(1, mv.family, mv.inverted), c, mv.count)
  {
    var one := Move(1, mv.family, mv.inverted);
    var t1, t2 := FaceTable(ed, mv.family), SliceTable(mv.family);
    var p: nat := if PeriodFour(ed, mv.family) then 4 else 8;
    assert HasPeriod(t1, p) && HasPeriod(t2, 4) by {
      TablesOfFamily(ed, mv.family);
    }
    SourcePowTurns(ed, one, c, mv.count);
    CountsModFour(mv);
    if p == 8 {
      FaceCountsModEight(mv);
    }
    SameTurnsMod(t1, t2, p, 4, FaceCount(mv), SliceCount(mv), mv.count * FaceCount(one), mv.count * SliceCount(one), c);
  }

  /** `k` single quarter turns agree modulo four with the counts of the move of count `k`. */
  lemma CountsModFour(mv: Move)
    requires 1 <= mv.count <= 3
    ensures FaceCount(mv) % 4 == (mv.count * FaceCount(Move(1, mv.family, mv.inverted))) % 4
    ensures SliceCount(mv) % 4 == (mv.count * SliceCount(Move(1, mv.family, mv.inverted))) % 4
  {
    var one := Move(1, mv.family, mv.inverted);
    var reversed := mv.family.WideTurn? && ReversesSlice(mv.family.face);
    if mv.family.SliceTurn? {
      assert mv.count * FaceCount(one) == 0;
    } else {
      TurnsModFour(mv.count, mv.inverted);
    }
    if mv.family.FaceTurn? {
      assert mv.count * SliceCount(one) == 0;
    } else {
      TurnsModFour(mv.count, reversed != mv.inverted);
    }
  }

  /** `k` quarter turns, taken back when `flip`, are `k` single ones of the same sense. */
  lemma TurnsModFour(k: int, flip: bool)
    requires 1 <= k <= 3
    ensures (if flip then 4 - k else k) % 4 == (k * (if flip then 3 else 1)) % 4
  {
    if k == 2 {
      assert 2 * 3 == 6;
    } else if k == 3 {
      assert 3 * 3 == 9;
    }
  }

  /** Except for an inverted count of two, `k` single face quarter turns agree with the count-`k` move modulo eight. */
  lemma FaceCountsModEight(mv: Move)
    requires 1 <= mv.count <= 3 && !(mv.inverted && mv.count == 2)
    ensures FaceCount(mv) % 8 == (mv.count * FaceCount(Move(1, mv.family, mv.inverted))) % 8
  {
    if mv.inverted && mv.count == 3 {
      assert 3 * 3 == 9;
    }
  }

  /** Passes whose cells read back from the same cells act alike on every state. */
  lemma SameBacks(s: Facelets, mv1: Move, t1: Table, t2: Table, mv2: Move, u1: Table, u2: Table)
    requires Shaped(s) && 1 <= mv1.count <= 3 && 1 <= mv2.count <= 3 && Fits(mv1, t1, t2) && Fits(mv2, u1, u2)
    requires forall c | OnFace(c) :: Back(mv1, t1, t2, c) == Back(mv2, u1, u2, c)
    ensures Passes(s, mv1, t1, t2) == Passes(s, mv2, u1, u2)
  {
    var x, y := Passes(s, mv1, t1, t2), Passes(s, mv2, u1, u2);
    forall c | c in x ensures x[c] == y[c] {
      PassesAt(s, mv1, t1, t2, c);
      PassesAt(s, mv2, u1, u2, c);
    }
    assert x.Keys == y.Keys;
  }

  /** Two moves whose cells have the same sources act alike on every state. */
  lemma SameSources(ed: Edition, s: Facelets, mv1: Move, mv2: Move)
    requires Shaped(s) && 1 <= mv1.count <= 3 && 1 <= mv2.count <= 3
    requires forall c | OnFace(c) :: Source(ed, mv1, c) == Source(ed, mv2, c)
    ensures ApplyMove(ed, s, mv1) == ApplyMove(ed, s, mv2)
  {
    var t1, t2 := FaceTable(ed, mv1.family), SliceTable(mv1.family);
    var u1, u2 := FaceTable(ed, mv2.family), SliceTable(mv2.family);
    TablesFit(ed, mv1);
    TablesFit(ed, mv2);
    SameBacks(s, mv1, t1, t2, mv2, u1, u2);
  }

  /** An inverted move of count `k` is the plain move of count `4 - k`. */
  lemma InvertedIsComplement(ed: Edition, s: Facelets, k: int, fam: Family)
    requires Shaped(s) && 1 <= k <= 3
    ensures ApplyMove(ed, s, Move(k, fam, true)) == ApplyMove(ed, s, Move(4 - k, fam, false))
  {
    forall c | OnFace(c) ensures Source(ed, Move(k, fam, true), c) == Source(ed, Move(4 - k, fam, false), c) {
      SourceComplement(ed, k, fam, c);
    }
    SameSources(ed, s, Move(k, fam, true), Move(4 - k, fam, false));
  }

  lemma SourceComplement(ed: Edition, k: int, fam: Family, c: Cell)
    requires 1 <= k <= 3
    ensures Source(ed, Move(k, fam, true), c) == Source(ed, Move(4 - k, fam, false), c)
  {
    assert FaceCount(Move(k, fam, true)) == FaceCount(Move(4 - k, fam, false));
    assert SliceCount(Move(k, fam, true)) == SliceCount(Move(4 - k, fam, false));
  }

  /**
   * A wide move is its face move followed by the slice move of the same count,
   * inverted exactly when the wide move's inversion differs from the parity
   * rule of lines 181, 184 and 187 ('r', 'u', 'b' turn their slice backwards).
   */
  lemma WideIsFaceThenSlice(ed: Edition, s: Facelets, k: int, f: FaceId, inverted: bool)
    requires Shaped(s) && 1 <= k <= 3
    ensures ApplyMove(ed, s, Move(k, WideTurn(f), inverted)) ==
      ApplyMove(ed, ApplyMove(ed, s, Move(k, FaceTurn(f), inverted)), Move(k, SliceTurn(SliceFor(f)), inverted != ReversesSlice(f)))
  {
    var x := ApplyMove(ed, s, Move(k, WideTurn(f), inverted));
    var y := ApplyMove(ed, ApplyMove(ed, s, Move(k, FaceTurn(f), inverted)), Move(k, SliceTurn(SliceFor(f)), inverted != ReversesSlice(f)));
    forall c | OnFace(c) ensures x[c] == y[c] {
      WideAt(ed, s, k, f, inverted, c);
    }
    SameCells(x, y);
  }

  lemma WideAt(ed: Edition, s: Facelets, k: int, f: FaceId, inverted: bool, c: Cell)
    requires Shaped(s) && 1 <= k <= 3 && OnFace(c)
    ensures ApplyMove(ed, s, Move(k, WideTurn(f), inverted))[c] ==
      ApplyMove(ed, ApplyMove(ed, s, Move(k, FaceTurn(f), inverted)), Move(k, SliceTurn(SliceFor(f)), inverted != ReversesSlice(f)))[c]
  {
    var wide, face, slice := Move(k, WideTurn(f), inverted), Move(k, FaceTurn(f), inverted), Move(k, SliceTurn(SliceFor(f)), inverted != ReversesSlice(f));
    ApplyMoveAt(ed, s, wide, c);
    ApplyMoveAt(ed, ApplyMove(ed, s, face), slice, c);
    ApplyMoveAt(ed, s, face, Source(ed, slice, c));
    SourceWide(ed, k, f, inverted, c);
  }

  lemma SourceWide(ed: Edition, k: int, f: FaceId, inverted: bool, c: Cell)
    requires 1 <= k <= 3
    ensures Source(ed, Move(k, WideTurn(f), inverted), c) ==
      Source(ed, Move(k, FaceTurn(f), inverted), Source(ed, Move(k, SliceTurn(SliceFor(f)), inverted != ReversesSlice(f)), c))
  {
    var wide, face, slice := Move(k, WideTurn(f), inverted), Move(k, FaceTurn(f), inverted), Move(k, SliceTurn(SliceFor(f)), inverted != ReversesSlice(f));
    assert SliceCount(wide) == SliceCount(slice) && FaceCount(wide) == FaceCount(face);
    assert FaceCount(slice) == 0 && SliceCount(face) == 0;
  }

  /** The cell is written by one of the passes a family runs. */
  predicate Writes(ed: Edition, fam: Family, c: Cell)
  {
    (!fam.SliceTurn? && Listed(FaceTable(ed, fam), c)) || (!fam.FaceTurn? && Listed(SliceTable(fam), c))
  }

  /**
   * Only cells named by the resolved tables change: any other cell keeps its
   * value, and a written cell reads a cell the same pass writes.
   */
  lemma Frame(ed: Edition, s: Facelets, mv: Move, c: Cell)
    requires Shaped(s) && 1 <= mv.count <= 3 && OnFace(c)
    ensures !Writes(ed, mv.family, c) ==> ApplyMove(ed, s, mv)[c] == s[c]
    ensures Writes(ed, mv.family, c) ==> Writes(ed, mv.family, Source(ed, mv, c))
  {
    ApplyMoveAt(ed, s, mv, c);
    SourceByPass(ed, mv, c);
    TablesOfFamily(ed, mv.family);
    NextPowListed(FaceTable(ed, mv.family), c, FaceCount(mv));
    NextPowListed(SliceTable(mv.family), c, SliceCount(mv));
  }

  /** Face moves never move a centre: each face keeps the value at position 5. */
  lemma CentresStay(ed: Edition, s: Facelets, mv: Move, g: FaceId)
    requires Shaped(s) && 1 <= mv.count <= 3 && mv.family.FaceTurn?
    ensures ApplyMove(ed, s, mv)[Cell(g, 5)] == s[Cell(g, 5)]
  {
    var t := FaceTable(ed, mv.family);
    ApplyMoveAt(ed, s, mv, Cell(g, 5));
    FaceTurnsKeepCentres(ed, mv.family.face, g);
    assert Next(t, Cell(g, 5)) == Cell(g, 5);
    NextPowFixed(t, Cell(g, 5), FaceCount(mv));
  }

  /** `R` lifts the right column of Front onto Up and of Down onto Front; `Ri` brings Back's onto Up. */
  lemma RightTurnExample(s: Facelets)
    requires Shaped(s)
    ensures ApplyMove(AsWritten, s, Move(1, FaceTurn(R), false))[Cell(U, 3)] == s[Cell(F, 3)]
    ensures ApplyMove(AsWritten, s, Move(1, FaceTurn(R), false))[Cell(F, 3)] == s[Cell(D, 3)]
    ensures ApplyMove(AsWritten, s, Move(1, FaceTurn(R), true))[Cell(U, 3)] == s[Cell(B, 7)]
  {
    RightTurnSources();
    ApplyMoveAt(AsWritten, s, Move(1, FaceTurn(R), false), Cell(U, 3));
    ApplyMoveAt(AsWritten, s, Move(1, FaceTurn(R), false), Cell(F, 3));
    ApplyMoveAt(AsWritten, s, Move(1, FaceTurn(R), true), Cell(U, 3));
  }

  lemma RightTurnSources()
    ensures Source(AsWritten, Move(1, FaceTurn(R), false), Cell(U, 3)) == Cell(F, 3)
    ensures Source(AsWritten, Move(1, FaceTurn(R), false), Cell(F, 3)) == Cell(D, 3)
    ensures Source(AsWritten, Move(1, FaceTurn(R), true), Cell(U, 3)) == Cell(B, 7)
  {
    var t := TurnMap(Outer(R));
    assert Next(t, Cell(U, 3)) == Cell(F, 3);
    assert Next(t, Cell(F, 3)) == Cell(D, 3);
    assert Next(t, Cell(D, 3)) == Cell(B, 7);
    assert NextPow(t, Cell(U, 3), 1) == Cell(F, 3);
    assert NextPow(t, Cell(F, 3), 1) == Cell(D, 3);
    NextPowAdd(t, Cell(U, 3), 1, 1);
    NextPowAdd(t, Cell(U, 3), 2, 1);
    assert NextPow(t, Cell(U, 3), 3) == Cell(B, 7);
  }

  // ---------------------------------------------------------------------------
  // The solved cube (Cube.__init__ without a configuration, Cube.is_solved)

  /** The 54 cells. */
  const AllCells: set<Cell> := set f, p | f in Faces && 1 <= p <= 9 :: Cell(f, p)

  lemma AllCellsOnFace(c: Cell)
    ensures c in AllCells <==> OnFace(c)
  {
    assert c.face in Faces by {
      match c.face
      case R => case L => case U => case D => case F => case B =>
    }
  }

  /** A new cube: every face shows its colour from `Face_Color_Map` at all nine cells. */
  function Solved(): (r: Facelets)
    ensures Shaped(r)
  {
    forall c ensures c in AllCells <==> OnFace(c) {
      AllCellsOnFace(c);
    }
    map c | c in AllCells :: FaceColour(c.face)
  }

  /** `Cube.is_solved`: every face equals its solved configuration. */
  ghost predicate IsSolvedState(s: Facelets)
  {
    forall c {:trigger s[c]} | c in s :: s[c] == FaceColour(c.face)
  }

  /** A cube is solved exactly when it is the new cube. */
  lemma SolvedIff(s: Facelets)
    requires Shaped(s)
    ensures IsSolvedState(s) <==> s == Solved()
  {
    var t := Solved();
    if IsSolvedState(s) {
      forall c | c in s ensures s[c] == t[c] {
        AllCellsOnFace(c);
      }
      assert s.Keys == t.Keys;
    }
    if s == Solved() {
      forall c | c in s ensures s[c] == FaceColour(c.face) {
        AllCellsOnFace(c);
      }
    }
  }

  /** One `R` from a solved cube leaves it unsolved: Up 3 shows Front's colour. */
  lemma RightTurnUnsolves(s: Facelets)
    requires Shaped(s) && IsSolvedState(s)
    ensures ApplyMove(AsWritten, s, Move(1, FaceTurn(R), false))[Cell(U, 3)] == FaceColour(F)
    ensures !IsSolvedState(ApplyMove(AsWritten, s, Move(1, FaceTurn(R), false)))
  {
    RightTurnExample(s);
    UnsolvedAfter(s, ApplyMove(AsWritten, s, Move(1, FaceTurn(R), false)), Cell(U, 3), Cell(F, 3));
  }

  /** A cell that receives the value of a cell of another face leaves a solved state unsolved. */
  lemma UnsolvedAfter(s: Facelets, r: Facelets, c: Cell, d: Cell)
    requires Shaped(s) && IsSolvedState(s) && Shaped(r) && OnFace(c) && OnFace(d)
    requires r[c] == s[d] && c.face != d.face
    ensures r[c] == FaceColour(d.face) && !IsSolvedState(r)
  {
    assert FaceColour(d.face) != FaceColour(c.face) by {
      match d.face
      case R => case L => case U => case D => case F => case B =>
    }
  }

  // ---------------------------------------------------------------------------
  // The F table as written

  /**
   * As written, `F` followed by `Fi` (and `f` followed by `fi`) moves the value
   * of Right 7 to Right 1: the pair fails to restore any cube whose Right 1 and
   * Right 7 differ.
   */
  lemma FThenFiAsWritten(s: Facelets, mv: Move)
    requires Shaped(s) && mv.count == 1 && !mv.inverted && !mv.family.SliceTurn? && mv.family.face == F
    ensures ApplyMove(AsWritten, ApplyMove(AsWritten, s, mv), Inverse(mv))[Cell(R, 1)] == s[Cell(R, 7)]
    ensures s[Cell(R, 1)] != s[Cell(R, 7)] ==> ApplyMove(AsWritten, ApplyMove(AsWritten, s, mv), Inverse(mv)) != s
  {
    var c := Cell(R, 1);
    ApplyMoveAt(AsWritten, ApplyMove(AsWritten, s, mv), Inverse(mv), c);
    ApplyMoveAt(AsWritten, s, mv, Source(AsWritten, Inverse(mv), c));
    SourceCompose(AsWritten, Inverse(mv), mv, c);
    RightOneOffSlice(SliceCount(Inverse(mv)) + SliceCount(mv));
    FTableAsWrittenNotPeriodFour();
  }

  /**
   * As written, `2Fi` is not `Fi` twice (nor `2fi` `fi` twice): the first
   * brings Left 3 to Right 1, the second Left 9.
   */
  lemma CountAsWritten(s: Facelets, mv: Move)
    requires Shaped(s) && mv.count == 2 && mv.inverted && !mv.family.SliceTurn? && mv.family.face == F
    ensures ApplyMove(AsWritten, s, mv)[Cell(R, 1)] == s[Cell(L, 3)]
    ensures Repeat(AsWritten, s, Move(1, mv.family, true), 2)[Cell(R, 1)] == s[Cell(L, 9)]
    ensures s[Cell(L, 3)] != s[Cell(L, 9)] ==> ApplyMove(AsWritten, s, mv) != Repeat(AsWritten, s, Move(1, mv.family, true), 2)
  {
    var c, one := Cell(R, 1), Move(1, mv.family, true);
    ApplyMoveAt(AsWritten, s, mv, c);
    RepeatAt(AsWritten, s, one, 2, c);
    SourcePowTurns(AsWritten, one, c, 2);
    RightOneOffSlice(SliceCount(mv));
    RightOneOffSlice(2 * SliceCount(one));
    FTableAsWrittenOrbit();
  }

  /** The S slice never writes Right 1. */
  lemma RightOneOffSlice(n: nat)
    ensures NextPow(TurnMap(Middle(S)), Cell(R, 1), n) == Cell(R, 1)
  {
    TurnMapLaws(Middle(S));
    NextPowListed(TurnMap(Middle(S)), Cell(R, 1), n);
  }
}
