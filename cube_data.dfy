/**
 * The static data of the cube: the colour of each face and the nine turn
 * tables (`CubeData.Turn_Map`), with the facts about each table that the move
 * engine relies on: it is closed, it names positions 1..9 only, eight quarter
 * turns are the identity and, for every table but the F table as written, so
 * are four; face turns keep every centre, and a face table and the slice table
 * a wide turn adds to it write disjoint cells.
 *
 * `TurnMap` is the data exactly as written. Its F table reads Left 3 into
 * Up 7 and Left 9 into Up 9, which joins the eight corner facelets around
 * Front into one 8-cycle: as written that table has period eight, not four.
 * `CorrectedF` is the F table with that entry as intended, and an `Edition`
 * says which of the two a move uses.
 */
module CubeData {
  import opened Permutation

  /** `Face_Color_Map`: the colour letter each face shows when solved. */
  function FaceColour(f: FaceId): char
  {
    match f
    case R => 'R'
    case L => 'O'
    case U => 'Y'
    case D => 'W'
    case F => 'B'
    case B => 'G'
  }

  /** The three middle slices. */
  datatype SliceId = M | E | S

  /** The nine keys of `Turn_Map`: six outer faces and three middle slices. */
  datatype Layer = Outer(face: FaceId) | Middle(slice: SliceId)

  /** The slice table a wide turn of face `f` adds to the face table ('Mrl', 'Eud', 'Sfb'). */
  function SliceFor(f: FaceId): SliceId
  {
    match f
    case R | L => M
    case U | D => E
    case F | B => S
  }

  /**
   * A face parallel to the slice (M to L, E to D, S to B): the face table a
   * slice move selects and turns zero times.
   */
  function ParallelFace(s: SliceId): FaceId
  {
    match s
    case M => L
    case E => D
    case S => B
  }

  /** A face turning its own nine facelets a quarter turn clockwise (position 5 stays). */
  const Spin: map<int, int> := map[1 := 7, 2 := 4, 3 := 1, 4 := 8, 5 := 5, 6 := 2, 7 := 9, 8 := 6, 9 := 3]

  /** `Turn_Map`, exactly as written. */
  function TurnMap(l: Layer): Table
  {
    match l
    case Outer(R) =>
      map[U := Entry(F, map[3 := 3, 6 := 6, 9 := 9]),
          D := Entry(B, map[3 := 7, 6 := 4, 9 := 1]),
          F := Entry(D, map[3 := 3, 6 := 6, 9 := 9]),
          B := Entry(U, map[1 := 9, 4 := 6, 7 := 3]),
          R := Entry(R, Spin)]
    case Outer(L) =>
      map[U := Entry(B, map[1 := 9, 4 := 6, 7 := 3]),
          D := Entry(F, map[1 := 1, 4 := 4, 7 := 7]),
          F := Entry(U, map[1 := 1, 4 := 4, 7 := 7]),
          B := Entry(D, map[3 := 7, 6 := 4, 9 := 1]),
          L := Entry(L, Spin)]
    case Outer(U) =>
      map[R := Entry(B, map[1 := 1, 2 := 2, 3 := 3]),
          L := Entry(F, map[1 := 1, 2 := 2, 3 := 3]),
          F := Entry(R, map[1 := 1, 2 := 2, 3 := 3]),
          B := Entry(L, map[1 := 1, 2 := 2, 3 := 3]),
          U := Entry(U, Spin)]
    case Outer(D) =>
      map[R := Entry(F, map[7 := 7, 8 := 8, 9 := 9]),
          L := Entry(B, map[7 := 7, 8 := 8, 9 := 9]),
          F := Entry(L, map[7 := 7, 8 := 8, 9 := 9]),
          B := Entry(R, map[7 := 7, 8 := 8, 9 := 9]),
          D := Entry(D, Spin)]
    case Outer(F) =>
      map[R := Entry(U, map[1 := 7, 4 := 8, 7 := 9]),
          L := Entry(D, map[3 := 1, 6 := 2, 9 := 3]),
          U := Entry(L, map[7 := 3, 8 := 6, 9 := 9]),
          D := Entry(R, map[1 := 7, 2 := 4, 3 := 1]),
          F := Entry(F, Spin)]
    case Outer(B) =>
      map[R := Entry(D, map[3 := 9, 6 := 8, 9 := 7]),
          L := Entry(U, map[1 := 3, 4 := 2, 7 := 1]),
          U := Entry(R, map[1 := 3, 2 := 6, 3 := 9]),
          D := Entry(L, map[7 := 1, 8 := 4, 9 := 7]),
          B := Entry(B, Spin)]
    case Middle(M) =>
      map[U := Entry(B, map[2 := 8, 5 := 5, 8 := 2]),
          D := Entry(F, map[2 := 2, 5 := 5, 8 := 8]),
          F := Entry(U, map[2 := 2, 5 := 5, 8 := 8]),
          B := Entry(D, map[2 := 8, 5 := 5, 8 := 2])]
    case Middle(E) =>
      map[R := Entry(F, map[4 := 4, 5 := 5, 6 := 6]),
          L := Entry(B, map[4 := 4, 5 := 5, 6 := 6]),
          F := Entry(L, map[4 := 4, 5 := 5, 6 := 6]),
          B := Entry(R, map[4 := 4, 5 := 5, 6 := 6])]
    case Middle(S) =>
      map[R := Entry(U, map[2 := 4, 5 := 5, 8 := 6]),
          L := Entry(D, map[2 := 4, 5 := 5, 8 := 6]),
          U := Entry(L, map[4 := 8, 5 := 5, 6 := 2]),
          D := Entry(R, map[4 := 8, 5 := 5, 6 := 2])]
  }

  /**
   * The F table as intended: its Up entry reads positions 9, 6, 3 of Left into
   * positions 7, 8, 9 of Up. A clockwise turn of F carries Left 9, the Left
   * sticker of the front-down-left corner, up to Up 7, and Left 3, that of the
   * front-up-left corner, to Up 9.
   */
  function CorrectedF(): Table
  {
    map[R := Entry(U, map[1 := 7, 4 := 8, 7 := 9]),
        L := Entry(D, map[3 := 1, 6 := 2, 9 := 3]),
        U := Entry(L, map[7 := 9, 8 := 6, 9 := 3]),
        D := Entry(R, map[1 := 7, 2 := 4, 3 := 1]),
        F := Entry(F, Spin)]
  }

  /** Which F table the moves use: the data as written, or with the F table corrected. */
  datatype Edition = AsWritten | Corrected

  /** The table of a layer in an edition. */
  function LayerTable(ed: Edition, l: Layer): Table
  {
    if ed == Corrected && l == Outer(F) then CorrectedF() else TurnMap(l)
  }

  // ---------------------------------------------------------------------------
  // Checking a table cell by cell

  lemma NextPowFour(t: Table, c: Cell)
    ensures NextPow(t, c, 4) == Next(t, Next(t, Next(t, Next(t, c))))
  {
    assert NextPow(t, c, 1) == Next(t, c);
    assert NextPow(t, c, 2) == Next(t, NextPow(t, c, 1));
    assert NextPow(t, c, 3) == Next(t, NextPow(t, c, 2));
  }

  lemma NextPowEight(t: Table, c: Cell)
    ensures NextPow(t, c, 8) == NextPow(t, NextPow(t, c, 4), 4)
  {
    NextPowAdd(t, c, 4, 4);
  }

  /** The checks made of each cell a table names. */
  predicate CellChecks(t: Table, c: Cell)
  {
    Listed(t, c) && OnFace(c) && Listed(t, Src(t, c)) && Next(t, Next(t, Next(t, Next(t, c)))) == c
  }

  /**
   * A table whose cells are all among `cells`, each a position 1..9 whose
   * source is again among `cells` and which four quarter turns bring back, is
   * well formed and has period four.
   */
  lemma CheckTable(t: Table, cells: set<Cell>)
    requires forall c :: Listed(t, c) ==> c in cells
    requires forall c | c in cells :: CellChecks(t, c)
    ensures WellFormed(t) && HasPeriod(t, 4)
  {
    forall c ensures NextPow(t, c, 4) == c {
      NextPowFour(t, c);
    }
  }

  const CellsR: set<Cell> := {
    Cell(U, 3), Cell(U, 6), Cell(U, 9), Cell(D, 3), Cell(D, 6), Cell(D, 9), Cell(F, 3), Cell(F, 6), Cell(F, 9),
    Cell(B, 1), Cell(B, 4), Cell(B, 7), Cell(R, 1), Cell(R, 2), Cell(R, 3), Cell(R, 4), Cell(R, 5), Cell(R, 6),
    Cell(R, 7), Cell(R, 8), Cell(R, 9)}
  const CellsL: set<Cell> := {
    Cell(U, 1), Cell(U, 4), Cell(U, 7), Cell(D, 1), Cell(D, 4), Cell(D, 7), Cell(F, 1), Cell(F, 4), Cell(F, 7),
    Cell(B, 3), Cell(B, 6), Cell(B, 9), Cell(L, 1), Cell(L, 2), Cell(L, 3), Cell(L, 4), Cell(L, 5), Cell(L, 6),
    Cell(L, 7), Cell(L, 8), Cell(L, 9)}
  const CellsU: set<Cell> := {
    Cell(R, 1), Cell(R, 2), Cell(R, 3), Cell(L, 1), Cell(L, 2), Cell(L, 3), Cell(F, 1), Cell(F, 2), Cell(F, 3),
    Cell(B, 1), Cell(B, 2), Cell(B, 3), Cell(U, 1), Cell(U, 2), Cell(U, 3), Cell(U, 4), Cell(U, 5), Cell(U, 6),
    Cell(U, 7), Cell(U, 8), Cell(U, 9)}
  const CellsD: set<Cell> := {
    Cell(R, 7), Cell(R, 8), Cell(R, 9), Cell(L, 7), Cell(L, 8), Cell(L, 9), Cell(F, 7), Cell(F, 8), Cell(F, 9),
    Cell(B, 7), Cell(B, 8), Cell(B, 9), Cell(D, 1), Cell(D, 2), Cell(D, 3), Cell(D, 4), Cell(D, 5), Cell(D, 6),
    Cell(D, 7), Cell(D, 8), Cell(D, 9)}
  const CellsF: set<Cell> := {
    Cell(R, 1), Cell(R, 4), Cell(R, 7), Cell(L, 3), Cell(L, 6), Cell(L, 9), Cell(U, 7), Cell(U, 8), Cell(U, 9),
    Cell(D, 1), Cell(D, 2), Cell(D, 3), Cell(F, 1), Cell(F, 2), Cell(F, 3), Cell(F, 4), Cell(F, 5), Cell(F, 6),
    Cell(F, 7), Cell(F, 8), Cell(F, 9)}
  const CellsB: set<Cell> := {
    Cell(R, 3), Cell(R, 6), Cell(R, 9), Cell(L, 1), Cell(L, 4), Cell(L, 7), Cell(U, 1), Cell(U, 2), Cell(U, 3),
    Cell(D, 7), Cell(D, 8), Cell(D, 9), Cell(B, 1), Cell(B, 2), Cell(B, 3), Cell(B, 4), Cell(B, 5), Cell(B, 6),
    Cell(B, 7), Cell(B, 8), Cell(B, 9)}
  const CellsM: set<Cell> := {
    Cell(U, 2), Cell(U, 5), Cell(U, 8), Cell(D, 2), Cell(D, 5), Cell(D, 8), Cell(F, 2), Cell(F, 5), Cell(F, 8),
    Cell(B, 2), Cell(B, 5), Cell(B, 8)}
  const CellsE: set<Cell> := {
    Cell(R, 4), Cell(R, 5), Cell(R, 6), Cell(L, 4), Cell(L, 5), Cell(L, 6), Cell(F, 4), Cell(F, 5), Cell(F, 6),
    Cell(B, 4), Cell(B, 5), Cell(B, 6)}
  const CellsS: set<Cell> := {
    Cell(R, 2), Cell(R, 5), Cell(R, 8), Cell(L, 2), Cell(L, 5), Cell(L, 8), Cell(U, 4), Cell(U, 5), Cell(U, 6),
    Cell(D, 4), Cell(D, 5), Cell(D, 6)}

  /**
   * Every table of `Turn_Map` is well formed (so `rotation_keys` never misses
   * a key) and eight quarter turns of it are the identity; four are, for every
   * table except F.
   */
  lemma TurnMapLaws(l: Layer)
    ensures WellFormed(TurnMap(l)) && HasPeriod(TurnMap(l), 8)
    ensures HasPeriod(TurnMap(l), 4) <==> l != Outer(F)
  {
    match l
    case Outer(R) => LawsR(); FourGivesEightAll(TurnMap(l));
    case Outer(L) => LawsL(); FourGivesEightAll(TurnMap(l));
    case Outer(U) => LawsU(); FourGivesEightAll(TurnMap(l));
    case Outer(D) => LawsD(); FourGivesEightAll(TurnMap(l));
    case Outer(F) => FTableAsWrittenPeriodEight(); FTableAsWrittenNotPeriodFour();
    case Outer(B) => LawsB(); FourGivesEightAll(TurnMap(l));
    case Middle(M) => LawsM(); FourGivesEightAll(TurnMap(l));
    case Middle(E) => LawsE(); FourGivesEightAll(TurnMap(l));
    case Middle(S) => LawsS(); FourGivesEightAll(TurnMap(l));
  }

  /**
   * In either edition every table is well formed with period eight; it has
   * period four exactly when it is not the F table as written.
   */
  lemma LayerTableLaws(ed: Edition, l: Layer)
    ensures WellFormed(LayerTable(ed, l)) && HasPeriod(LayerTable(ed, l), 8)
    ensures HasPeriod(LayerTable(ed, l), 4) <==> (ed == Corrected || l != Outer(F))
  {
    if ed == Corrected && l == Outer(F) {
      LawsCorrectedF();
      FourGivesEightAll(CorrectedF());
    } else {
      TurnMapLaws(l);
    }
  }

  /** A table with period four has period eight. */
  lemma FourGivesEightAll(t: Table)
    requires HasPeriod(t, 4)
    ensures HasPeriod(t, 8)
  {
    forall c ensures NextPow(t, c, 8) == c {
      NextPowEight(t, c);
    }
  }

  lemma LawsR()
    ensures WellFormed(TurnMap(Outer(R))) && HasPeriod(TurnMap(Outer(R)), 4)
  {
    assert forall c :: Listed(TurnMap(Outer(R)), c) ==> c in CellsR;
    CheckR();
    CheckTable(TurnMap(Outer(R)), CellsR);
  }

  lemma LawsL()
    ensures WellFormed(TurnMap(Outer(L))) && HasPeriod(TurnMap(Outer(L)), 4)
  {
    assert forall c :: Listed(TurnMap(Outer(L)), c) ==> c in CellsL;
    CheckL();
    CheckTable(TurnMap(Outer(L)), CellsL);
  }

  lemma LawsU()
    ensures WellFormed(TurnMap(Outer(U))) && HasPeriod(TurnMap(Outer(U)), 4)
  {
    assert forall c :: Listed(TurnMap(Outer(U)), c) ==> c in CellsU;
    CheckU();
    CheckTable(TurnMap(Outer(U)), CellsU);
  }

  lemma LawsD()
    ensures WellFormed(TurnMap(Outer(D))) && HasPeriod(TurnMap(Outer(D)), 4)
  {
    assert forall c :: Listed(TurnMap(Outer(D)), c) ==> c in CellsD;
    CheckD();
    CheckTable(TurnMap(Outer(D)), CellsD);
  }

  lemma LawsCorrectedF()
    ensures WellFormed(CorrectedF()) && HasPeriod(CorrectedF(), 4)
  {
    assert forall c :: Listed(CorrectedF(), c) ==> c in CellsF;
    CheckF();
    CheckTable(CorrectedF(), CellsF);
  }

  lemma LawsB()
    ensures WellFormed(TurnMap(Outer(B))) && HasPeriod(TurnMap(Outer(B)), 4)
  {
    assert forall c :: Listed(TurnMap(Outer(B)), c) ==> c in CellsB;
    CheckB();
    CheckTable(TurnMap(Outer(B)), CellsB);
  }

  lemma LawsM()
    ensures WellFormed(TurnMap(Middle(M))) && HasPeriod(TurnMap(Middle(M)), 4)
  {
    assert forall c :: Listed(TurnMap(Middle(M)), c) ==> c in CellsM;
    CheckM();
    CheckTable(TurnMap(Middle(M)), CellsM);
  }

  lemma LawsE()
    ensures WellFormed(TurnMap(Middle(E))) && HasPeriod(TurnMap(Middle(E)), 4)
  {
    assert forall c :: Listed(TurnMap(Middle(E)), c) ==> c in CellsE;
    CheckE();
    CheckTable(TurnMap(Middle(E)), CellsE);
  }

  lemma LawsS()
    ensures WellFormed(TurnMap(Middle(S))) && HasPeriod(TurnMap(Middle(S)), 4)
  {
    assert forall c :: Listed(TurnMap(Middle(S)), c) ==> c in CellsS;
    CheckS();
    CheckTable(TurnMap(Middle(S)), CellsS);
  }

  /**
   * Four cells at positions 1..9, each taking its value from the next and the
   * last from the first, pass the checks.
   */
  lemma CycleChecks(t: Table, a: Cell, b: Cell, c: Cell, d: Cell)
    requires Listed(t, a) && Src(t, a) == b && Listed(t, b) && Src(t, b) == c
    requires Listed(t, c) && Src(t, c) == d && Listed(t, d) && Src(t, d) == a
    requires OnFace(a) && OnFace(b) && OnFace(c) && OnFace(d)
    ensures CellChecks(t, a) && CellChecks(t, b) && CellChecks(t, c) && CellChecks(t, d)
  {
  }

  /** The nine cells of a face whose own entry is `Spin` pass the checks. */
  lemma SpinChecks(t: Table, f: FaceId)
    requires f in t && t[f] == Entry(f, Spin)
    ensures forall p | 1 <= p <= 9 :: CellChecks(t, Cell(f, p))
  {
    CycleChecks(t, Cell(f, 1), Cell(f, 7), Cell(f, 9), Cell(f, 3));
    CycleChecks(t, Cell(f, 2), Cell(f, 4), Cell(f, 8), Cell(f, 6));
    assert CellChecks(t, Cell(f, 5));
  }

  /** The cells of the R table form the spin of its face and three 4-cycles. */
  lemma CheckR()
    ensures forall c | c in CellsR :: CellChecks(TurnMap(Outer(R)), c)
  {
    var t := TurnMap(Outer(R));
    SpinChecks(t, R);
    CycleChecks(t, Cell(U, 3), Cell(F, 3), Cell(D, 3), Cell(B, 7));
    CycleChecks(t, Cell(U, 6), Cell(F, 6), Cell(D, 6), Cell(B, 4));
    CycleChecks(t, Cell(U, 9), Cell(F, 9), Cell(D, 9), Cell(B, 1));
  }

  /** The cells of the L table form the spin of its face and three 4-cycles. */
  lemma CheckL()
    ensures forall c | c in CellsL :: CellChecks(TurnMap(Outer(L)), c)
  {
    var t := TurnMap(Outer(L));
    SpinChecks(t, L);
    CycleChecks(t, Cell(U, 1), Cell(B, 9), Cell(D, 1), Cell(F, 1));
    CycleChecks(t, Cell(U, 4), Cell(B, 6), Cell(D, 4), Cell(F, 4));
    CycleChecks(t, Cell(U, 7), Cell(B, 3), Cell(D, 7), Cell(F, 7));
  }

  /** The cells of the U table form the spin of its face and three 4-cycles. */
  lemma CheckU()
    ensures forall c | c in CellsU :: CellChecks(TurnMap(Outer(U)), c)
  {
    var t := TurnMap(Outer(U));
    SpinChecks(t, U);
    CycleChecks(t, Cell(R, 1), Cell(B, 1), Cell(L, 1), Cell(F, 1));
    CycleChecks(t, Cell(R, 2), Cell(B, 2), Cell(L, 2), Cell(F, 2));
    CycleChecks(t, Cell(R, 3), Cell(B, 3), Cell(L, 3), Cell(F, 3));
  }

  /** The cells of the D table form the spin of its face and three 4-cycles. */
  lemma CheckD()
    ensures forall c | c in CellsD :: CellChecks(TurnMap(Outer(D)), c)
  {
    var t := TurnMap(Outer(D));
    SpinChecks(t, D);
    CycleChecks(t, Cell(R, 7), Cell(F, 7), Cell(L, 7), Cell(B, 7));
    CycleChecks(t, Cell(R, 8), Cell(F, 8), Cell(L, 8), Cell(B, 8));
    CycleChecks(t, Cell(R, 9), Cell(F, 9), Cell(L, 9), Cell(B, 9));
  }

  /** The cells of the corrected F table form the spin of its face and three 4-cycles. */
  lemma CheckF()
    ensures forall c | c in CellsF :: CellChecks(CorrectedF(), c)
  {
    var t := CorrectedF();
    SpinChecks(t, F);
    CycleChecks(t, Cell(R, 1), Cell(U, 7), Cell(L, 9), Cell(D, 3));
    CycleChecks(t, Cell(R, 4), Cell(U, 8), Cell(L, 6), Cell(D, 2));
    CycleChecks(t, Cell(R, 7), Cell(U, 9), Cell(L, 3), Cell(D, 1));
  }

  /** The cells of the B table form the spin of its face and three 4-cycles. */
  lemma CheckB()
    ensures forall c | c in CellsB :: CellChecks(TurnMap(Outer(B)), c)
  {
    var t := TurnMap(Outer(B));
    SpinChecks(t, B);
    CycleChecks(t, Cell(R, 3), Cell(D, 9), Cell(L, 7), Cell(U, 1));
    CycleChecks(t, Cell(R, 6), Cell(D, 8), Cell(L, 4), Cell(U, 2));
    CycleChecks(t, Cell(R, 9), Cell(D, 7), Cell(L, 1), Cell(U, 3));
  }

  /** The cells of the M table form three 4-cycles. */
  lemma CheckM()
    ensures forall c | c in CellsM :: CellChecks(TurnMap(Middle(M)), c)
  {
    var t := TurnMap(Middle(M));
    CycleChecks(t, Cell(U, 2), Cell(B, 8), Cell(D, 2), Cell(F, 2));
    CycleChecks(t, Cell(U, 5), Cell(B, 5), Cell(D, 5), Cell(F, 5));
    CycleChecks(t, Cell(U, 8), Cell(B, 2), Cell(D, 8), Cell(F, 8));
  }

  /** The cells of the E table form three 4-cycles. */
  lemma CheckE()
    ensures forall c | c in CellsE :: CellChecks(TurnMap(Middle(E)), c)
  {
    var t := TurnMap(Middle(E));
    CycleChecks(t, Cell(R, 4), Cell(F, 4), Cell(L, 4), Cell(B, 4));
    CycleChecks(t, Cell(R, 5), Cell(F, 5), Cell(L, 5), Cell(B, 5));
    CycleChecks(t, Cell(R, 6), Cell(F, 6), Cell(L, 6), Cell(B, 6));
  }

  /** The cells of the S table form three 4-cycles. */
  lemma CheckS()
    ensures forall c | c in CellsS :: CellChecks(TurnMap(Middle(S)), c)
  {
    var t := TurnMap(Middle(S));
    CycleChecks(t, Cell(R, 2), Cell(U, 4), Cell(L, 8), Cell(D, 6));
    CycleChecks(t, Cell(R, 5), Cell(U, 5), Cell(L, 5), Cell(D, 5));
    CycleChecks(t, Cell(R, 8), Cell(U, 6), Cell(L, 2), Cell(D, 4));
  }

  /** Every table of `Turn_Map` as written, the F table included, is a bijection of the cells it names. */
  lemma TurnMapBijective(l: Layer)
    ensures forall c1, c2 :: Listed(TurnMap(l), c1) && Listed(TurnMap(l), c2) && Src(TurnMap(l), c1) == Src(TurnMap(l), c2) ==> c1 == c2
    ensures forall c :: Listed(TurnMap(l), c) ==> exists d :: Listed(TurnMap(l), d) && Src(TurnMap(l), d) == c
  {
    TurnMapLaws(l);
    PeriodGivesBijection(TurnMap(l), 8);
  }

  /** A face turn writes the centre of its own face only, and from itself. */
  lemma FaceTurnsKeepCentres(ed: Edition, f: FaceId, g: FaceId)
    ensures Listed(LayerTable(ed, Outer(f)), Cell(g, 5)) <==> g == f
    ensures g == f ==> Src(LayerTable(ed, Outer(f)), Cell(g, 5)) == Cell(f, 5)
  {
    if f == F {
      FTableCorrection(Cell(g, 5));
    }
  }

  /** A wide turn's face table and slice table never write the same cell. */
  lemma WideLayersDisjoint(ed: Edition, f: FaceId, c: Cell)
    ensures !(Listed(LayerTable(ed, Outer(f)), c) && Listed(TurnMap(Middle(SliceFor(f))), c))
  {
    match f
    case R => DisjointR(c);
    case L => DisjointL(c);
    case U => DisjointU(c);
    case D => DisjointD(c);
    case F => DisjointF(c); FTableCorrection(c);
    case B => DisjointB(c);
  }

  lemma DisjointR(c: Cell)
    ensures !(Listed(TurnMap(Outer(R)), c) && Listed(TurnMap(Middle(SliceFor(R))), c))
  {
  }

  lemma DisjointL(c: Cell)
    ensures !(Listed(TurnMap(Outer(L)), c) && Listed(TurnMap(Middle(SliceFor(L))), c))
  {
  }

  lemma DisjointU(c: Cell)
    ensures !(Listed(TurnMap(Outer(U)), c) && Listed(TurnMap(Middle(SliceFor(U))), c))
  {
  }

  lemma DisjointD(c: Cell)
    ensures !(Listed(TurnMap(Outer(D)), c) && Listed(TurnMap(Middle(SliceFor(D))), c))
  {
  }

  lemma DisjointF(c: Cell)
    ensures !(Listed(TurnMap(Outer(F)), c) && Listed(TurnMap(Middle(SliceFor(F))), c))
  {
  }

  lemma DisjointB(c: Cell)
    ensures !(Listed(TurnMap(Outer(B)), c) && Listed(TurnMap(Middle(SliceFor(B))), c))
  {
  }

  // ---------------------------------------------------------------------------
  // The F table as written

  /** The checks made of each cell of the written F table: eight quarter turns bring it back. */
  predicate CellChecksAsWritten(t: Table, c: Cell)
  {
    Listed(t, c) && OnFace(c) && Listed(t, Src(t, c)) &&
    Next(t, Next(t, Next(t, Next(t, Next(t, Next(t, Next(t, Next(t, c)))))))) == c
  }

  /** Eight cells at positions 1..9, each taking its value from the next and the last from the first. */
  lemma Cycle8Checks(t: Table, c0: Cell, c1: Cell, c2: Cell, c3: Cell, c4: Cell, c5: Cell, c6: Cell, c7: Cell)
    requires Listed(t, c0) && Src(t, c0) == c1 && Listed(t, c1) && Src(t, c1) == c2
    requires Listed(t, c2) && Src(t, c2) == c3 && Listed(t, c3) && Src(t, c3) == c4
    requires Listed(t, c4) && Src(t, c4) == c5 && Listed(t, c5) && Src(t, c5) == c6
    requires Listed(t, c6) && Src(t, c6) == c7 && Listed(t, c7) && Src(t, c7) == c0
    requires OnFace(c0) && OnFace(c1) && OnFace(c2) && OnFace(c3)
    requires OnFace(c4) && OnFace(c5) && OnFace(c6) && OnFace(c7)
    ensures CellChecksAsWritten(t, c0) && CellChecksAsWritten(t, c1) && CellChecksAsWritten(t, c2) && CellChecksAsWritten(t, c3)
    ensures CellChecksAsWritten(t, c4) && CellChecksAsWritten(t, c5) && CellChecksAsWritten(t, c6) && CellChecksAsWritten(t, c7)
  {
  }

  /** A cell that four quarter turns bring back is brought back by eight. */
  lemma FourGivesEight(t: Table, c: Cell)
    requires CellChecks(t, c)
    ensures CellChecksAsWritten(t, c)
  {
  }

  /** The written F table: one 8-cycle of corners around Front, one 4-cycle of edges, and the spin of Front. */
  lemma CheckFAsWritten()
    ensures forall c | c in CellsF :: CellChecksAsWritten(TurnMap(Outer(F)), c)
  {
    var t := TurnMap(Outer(F));
    Cycle8Checks(t, Cell(R, 1), Cell(U, 7), Cell(L, 3), Cell(D, 1), Cell(R, 7), Cell(U, 9), Cell(L, 9), Cell(D, 3));
    CycleChecks(t, Cell(R, 4), Cell(U, 8), Cell(L, 6), Cell(D, 2));
    FourGivesEight(t, Cell(R, 4));
    FourGivesEight(t, Cell(U, 8));
    FourGivesEight(t, Cell(L, 6));
    FourGivesEight(t, Cell(D, 2));
    SpinChecks(t, F);
    forall p | 1 <= p <= 9 ensures CellChecksAsWritten(t, Cell(F, p)) {
      FourGivesEight(t, Cell(F, p));
    }
  }

  /** The written F table names the cells of `CellsF`, as the corrected one does. */
  lemma ListedFAsWritten()
    ensures forall c :: Listed(TurnMap(Outer(F)), c) ==> c in CellsF
  {
  }

  /** The written F table is still closed, but has period eight. */
  lemma FTableAsWrittenPeriodEight()
    ensures WellFormed(TurnMap(Outer(F))) && HasPeriod(TurnMap(Outer(F)), 8)
  {
    ListedFAsWritten();
    CheckFAsWritten();
    CheckTableEight(TurnMap(Outer(F)), CellsF);
  }

  lemma CheckTableEight(t: Table, cells: set<Cell>)
    requires forall c :: Listed(t, c) ==> c in cells
    requires forall c | c in cells :: CellChecksAsWritten(t, c)
    ensures WellFormed(t) && HasPeriod(t, 8)
  {
    forall c ensures NextPow(t, c, 8) == c {
      NextPowEight(t, c);
      NextPowFour(t, c);
      NextPowFour(t, NextPow(t, c, 4));
    }
  }

  /**
   * Four quarter turns of the written F table move the value of Right 7 to
   * Right 1: the eight corner facelets around Front form one 8-cycle.
   */
  lemma FTableAsWrittenNotPeriodFour()
    ensures NextPow(TurnMap(Outer(F)), Cell(R, 1), 4) == Cell(R, 7)
    ensures !HasPeriod(TurnMap(Outer(F)), 4)
  {
    NextPowFour(TurnMap(Outer(F)), Cell(R, 1));
  }

  /**
   * Along the 8-cycle of the written F table, two quarter turns back from
   * Right 1 reach Left 3 and six reach Left 9.
   */
  lemma FTableAsWrittenOrbit()
    ensures NextPow(TurnMap(Outer(F)), Cell(R, 1), 2) == Cell(L, 3)
    ensures NextPow(TurnMap(Outer(F)), Cell(R, 1), 6) == Cell(L, 9)
  {
    var t := TurnMap(Outer(F));
    assert NextPow(t, Cell(R, 1), 1) == Cell(U, 7);
    assert NextPow(t, Cell(R, 1), 2) == Cell(L, 3);
    FTableAsWrittenNotPeriodFour();
    assert NextPow(t, Cell(R, 1), 5) == Next(t, Cell(R, 7));
    assert NextPow(t, Cell(R, 1), 6) == Next(t, Cell(U, 9));
  }

  /** The written and the corrected F tables differ only at Up 7 and Up 9. */
  lemma FTableCorrection(c: Cell)
    ensures Listed(TurnMap(Outer(F)), c) <==> Listed(CorrectedF(), c)
    ensures c != Cell(U, 7) && c != Cell(U, 9) ==> Next(TurnMap(Outer(F)), c) == Next(CorrectedF(), c)
    ensures Next(TurnMap(Outer(F)), Cell(U, 7)) == Cell(L, 3) && Next(CorrectedF(), Cell(U, 7)) == Cell(L, 9)
  {
  }
}
