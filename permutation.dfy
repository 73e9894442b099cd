/**
 * Facelet addresses and the shape of a turn table.
 *
 * A turn table maps a destination face to the face its values come from,
 * together with a map from destination position to source position, exactly as
 * each entry of `CubeData.Turn_Map` is written (`'U': ['F', {3: 3, 6: 6, 9: 9}]`).
 * This module holds what is true of every such table: how `rotation_keys`
 * follows a table back a number of quarter turns, and what follows when a
 * table is closed (every source it names is itself a destination).
 */
module Permutation {

  /** The six faces, in the order of `CubeData.Faces`. */
  datatype FaceId = R | L | U | D | F | B

  const Faces: seq<FaceId> := [R, L, U, D, F, B]

  /** One facelet: a face and a position 1..9 read row by row. */
  datatype Cell = Cell(face: FaceId, pos: int)

  /** A position 1..9 of some face. */
  predicate OnFace(c: Cell)
  {
    1 <= c.pos <= 9
  }

  /** One entry of a turn table: the source face and destination-to-source positions. */
  datatype Entry = Entry(source: FaceId, keys: map<int, int>)

  type Table = map<FaceId, Entry>

  /** The table has an entry for `c`, so a quarter turn writes `c`. */
  predicate Listed(t: Table, c: Cell)
  {
    c.face in t && c.pos in t[c.face].keys
  }

  /** The facelet whose pre-move value `c` receives after one quarter turn. */
  function Src(t: Table, c: Cell): Cell
    requires Listed(t, c)
  {
    Cell(t[c.face].source, t[c.face].keys[c.pos])
  }

  /** Every source the table names is itself one of its destinations. */
  ghost predicate Closed(t: Table)
  {
    forall c {:trigger Src(t, c)} :: Listed(t, c) ==> Listed(t, Src(t, c))
  }

  /** Every destination the table names is a position 1..9. */
  ghost predicate InRange(t: Table)
  {
    forall c :: Listed(t, c) ==> OnFace(c)
  }

  ghost predicate WellFormed(t: Table)
  {
    Closed(t) && InRange(t)
  }

  /** One quarter turn on addresses, extended by the identity to cells the table does not name. */
  function Next(t: Table, c: Cell): Cell
  {
    if Listed(t, c) then Src(t, c) else c
  }

  /** `n` quarter turns on addresses: where the value now at `c` is found `n` turns back. */
  function NextPow(t: Table, c: Cell, n: nat): Cell
  {
    if n == 0 then c else Next(t, NextPow(t, c, n - 1))
  }

  /** `n` quarter turns of the table return every cell to itself. */
  ghost predicate HasPeriod(t: Table, n: nat)
  {
    forall c :: NextPow(t, c, n) == c
  }

  /**
   * `CubeData.rotation_keys`: follow the table back `rotations` hops from
   * (`face`, `key`). Every hop looks up a face and a key in the table; closure
   * makes every lookup succeed, and the count falls by one per call.
   */
  function RotationKeys(t: Table, face: FaceId, key: int, rotations: int): (r: Cell)
    requires Closed(t) && Listed(t, Cell(face, key)) && rotations >= 1
    ensures Listed(t, r)
    ensures r == NextPow(t, Cell(face, key), rotations)
    decreases rotations
  {
    var c := Src(t, Cell(face, key));
    if rotations == 1 then
      c
    else
      var r := RotationKeys(t, c.face, c.pos, rotations - 1);
      NextPowShift(t, Cell(face, key), rotations - 1);
      r
  }

  lemma {:induction false} NextPowShift(t: Table, c: Cell, n: nat)
    ensures NextPow(t, Next(t, c), n) == NextPow(t, c, n + 1)
  {
    if n > 0 {
      NextPowShift(t, c, n - 1);
    }
  }

  /** Quarter turns compose by adding their counts. */
  lemma {:induction false} NextPowAdd(t: Table, c: Cell, a: nat, b: nat)
    ensures NextPow(t, NextPow(t, c, a), b) == NextPow(t, c, a + b)
  {
    if b > 0 {
      NextPowAdd(t, c, a, b - 1);
    }
  }

  /** Following a closed table never leaves its cells; cells it does not name never move. */
  lemma {:induction false} NextPowListed(t: Table, c: Cell, n: nat)
    requires Closed(t)
    ensures Listed(t, NextPow(t, c, n)) <==> Listed(t, c)
    ensures !Listed(t, c) ==> NextPow(t, c, n) == c
  {
    if n > 0 {
      NextPowListed(t, c, n - 1);
    }
  }

  /** A cell the table reads from itself stays put however many turns are made. */
  lemma {:induction false} NextPowFixed(t: Table, c: Cell, n: nat)
    requires Next(t, c) == c
    ensures NextPow(t, c, n) == c
  {
    if n > 0 {
      NextPowFixed(t, c, n - 1);
    }
  }

  /** Two tables that write no cell in common. */
  ghost predicate Disjoint(t1: Table, t2: Table)
  {
    forall c :: !(Listed(t1, c) && Listed(t2, c))
  }

  /** Turns of tables that write disjoint cells commute. */
  lemma NextPowCommute(t1: Table, a: nat, t2: Table, b: nat, c: Cell)
    requires Closed(t1) && Closed(t2) && Disjoint(t1, t2)
    ensures NextPow(t1, NextPow(t2, c, b), a) == NextPow(t2, NextPow(t1, c, a), b)
  {
    NextPowListed(t1, c, a);
    NextPowListed(t2, c, b);
    NextPowListed(t1, NextPow(t2, c, b), a);
    NextPowListed(t2, NextPow(t1, c, a), b);
  }

  /**
   * Two rounds of "`b` turns of `t2`, then `a` turns of `t1`" add up when the
   * tables are disjoint or the middle two counts leave nothing to reorder.
   */
  lemma TwoTablesCompose(t1: Table, t2: Table, a1: nat, b1: nat, a2: nat, b2: nat, c: Cell)
    requires Closed(t1) && Closed(t2)
    requires Disjoint(t1, t2) || a2 == 0 || b1 == 0
    ensures NextPow(t1, NextPow(t2, NextPow(t1, NextPow(t2, c, b2), a2), b1), a1) == NextPow(t1, NextPow(t2, c, b1 + b2), a1 + a2)
  {
    var e := NextPow(t2, c, b2);
    if Disjoint(t1, t2) {
      NextPowCommute(t1, a2, t2, b1, e);
    }
    assert NextPow(t2, NextPow(t1, e, a2), b1) == NextPow(t1, NextPow(t2, e, b1), a2);
    NextPowAdd(t1, NextPow(t2, e, b1), a2, a1);
    NextPowAdd(t2, c, b2, b1);
  }

  /**
   * A round of `b` turns of `t2` then `a` turns of `t1`, ahead of `n - 1`
   * further rounds, makes `n` rounds: each table turned `n` times as far.
   */
  lemma RoundsStep(t1: Table, t2: Table, a: nat, b: nat, n: nat, c: Cell)
    requires Closed(t1) && Closed(t2) && n > 0
    requires Disjoint(t1, t2) || a == 0 || b == 0
    ensures NextPow(t1, NextPow(t2, NextPow(t1, NextPow(t2, c, b), a), (n - 1) * b), (n - 1) * a) ==
            NextPow(t1, NextPow(t2, c, n * b), n * a)
  {
    var k, l := (n - 1) * a, (n - 1) * b;
    assert k + a == n * a && l + b == n * b;
    assert b == 0 ==> l == 0;
    TwoTablesCompose(t1, t2, k, l, a, b, c);
  }

  /** With period `p` only the count modulo `p` matters. */
  lemma NextPowMod(t: Table, p: nat, c: Cell, n: nat)
    requires p > 0 && HasPeriod(t, p)
    ensures NextPow(t, c, n) == NextPow(t, c, n % p)
  {
    var k, r := n / p, n % p;
    assert n == p * k + r;
    WholeRounds(t, p, k, c);
    NextPowAdd(t, c, p * k, r);
  }

  /** Two tables of period four, each turned a multiple of four times, move nothing. */
  lemma MultipleOfFour(t1: Table, t2: Table, a: nat, b: nat, c: Cell)
    requires HasPeriod(t1, 4) && HasPeriod(t2, 4)
    ensures NextPow(t1, NextPow(t2, c, 4 * b), 4 * a) == c
  {
    NextPowMod(t2, 4, c, 4 * b);
    NextPowMod(t1, 4, c, 4 * a);
  }

  /** With periods `p1` and `p2`, counts that agree modulo the period turn two tables alike. */
  lemma SameTurnsMod(t1: Table, t2: Table, p1: nat, p2: nat, a: nat, b: nat, a': nat, b': nat, c: Cell)
    requires p1 > 0 && p2 > 0 && HasPeriod(t1, p1) && HasPeriod(t2, p2)
    requires a % p1 == a' % p1 && b % p2 == b' % p2
    ensures NextPow(t1, NextPow(t2, c, b), a) == NextPow(t1, NextPow(t2, c, b'), a')
  {
    NextPowMod(t2, p2, c, b);
    NextPowMod(t2, p2, c, b');
    NextPowMod(t1, p1, NextPow(t2, c, b), a);
    NextPowMod(t1, p1, NextPow(t2, c, b), a');
  }

  /** With period `p`, any number of whole rounds of `p` turns moves nothing. */
  lemma {:induction false} WholeRounds(t: Table, p: nat, k: nat, c: Cell)
    requires HasPeriod(t, p)
    ensures NextPow(t, c, p * k) == c
  {
    if k > 0 {
      WholeRounds(t, p, k - 1, c);
      NextPowAdd(t, c, p * (k - 1), p);
      assert p * (k - 1) + p == p * k;
    }
  }

  /**
   * A closed table with a period is a bijection of its own cells: distinct
   * destinations read distinct sources, and every listed cell is the source of
   * some listed cell.
   */
  lemma PeriodGivesBijection(t: Table, p: nat)
    requires Closed(t) && p >= 1 && HasPeriod(t, p)
    ensures forall c1, c2 :: Listed(t, c1) && Listed(t, c2) && Src(t, c1) == Src(t, c2) ==> c1 == c2
    ensures forall c :: Listed(t, c) ==> exists d :: Listed(t, d) && Src(t, d) == c
  {
    forall c1, c2 | Listed(t, c1) && Listed(t, c2) && Src(t, c1) == Src(t, c2)
      ensures c1 == c2
    {
      NextPowShift(t, c1, p - 1);
      NextPowShift(t, c2, p - 1);
    }
    forall c | Listed(t, c)
      ensures exists d :: Listed(t, d) && Src(t, d) == c
    {
      var d := NextPow(t, c, p - 1);
      NextPowListed(t, c, p - 1);
      assert Next(t, d) == NextPow(t, c, p);
    }
  }
}
