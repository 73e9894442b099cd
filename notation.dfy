/**
 * Move tokens: `Turn_Pattern` (`^([1-3])*([RLUDFBrludfbMES]{1})(i)*$`) and
 * the decoding `Cube.rotate` makes of its three groups.
 *
 * The grammar is read directly, not through a regular-expression engine: any
 * number of count digits 1..3, exactly one family letter, any number of `i`
 * marks. The count is the last digit (a repeated group keeps its last match)
 * or 1 when there is none; the move is inverted when at least one `i` is
 * present. As with Python's `$`, a single newline may end the token.
 */
module Notation {
  import opened Permutation
  import opened CubeData
  import opened Wrappers

  /** The fifteen letters: six face turns, three slice turns, six wide turns. */
  datatype Family = FaceTurn(face: FaceId) | SliceTurn(slice: SliceId) | WideTurn(face: FaceId)

  /** A decoded token: how many quarter turns, of what, and whether inverted. */
  datatype Move = Move(count: int, family: Family, inverted: bool)

  /** The family named by one letter of `[RLUDFBrludfbMES]`. */
  function FamilyOf(ch: char): Option<Family>
  {
    match ch
    case 'R' => Some(FaceTurn(R))
    case 'L' => Some(FaceTurn(L))
    case 'U' => Some(FaceTurn(U))
    case 'D' => Some(FaceTurn(D))
    case 'F' => Some(FaceTurn(F))
    case 'B' => Some(FaceTurn(B))
    case 'r' => Some(WideTurn(R))
    case 'l' => Some(WideTurn(L))
    case 'u' => Some(WideTurn(U))
    case 'd' => Some(WideTurn(D))
    case 'f' => Some(WideTurn(F))
    case 'b' => Some(WideTurn(B))
    case 'M' => Some(SliceTurn(M))
    case 'E' => Some(SliceTurn(E))
    case 'S' => Some(SliceTurn(S))
    case _ => None
  }

  /** The letter that names a family. */
  function Letter(fam: Family): char
  {
    match fam
    case FaceTurn(R) => 'R'
    case FaceTurn(L) => 'L'
    case FaceTurn(U) => 'U'
    case FaceTurn(D) => 'D'
    case FaceTurn(F) => 'F'
    case FaceTurn(B) => 'B'
    case WideTurn(R) => 'r'
    case WideTurn(L) => 'l'
    case WideTurn(U) => 'u'
    case WideTurn(D) => 'd'
    case WideTurn(F) => 'f'
    case WideTurn(B) => 'b'
    case SliceTurn(M) => 'M'
    case SliceTurn(E) => 'E'
    case SliceTurn(S) => 'S'
  }

  /** Letters and families correspond one to one. */
  lemma LetterRoundTrip(fam: Family, ch: char)
    ensures FamilyOf(Letter(fam)) == Some(fam)
    ensures FamilyOf(ch) == Some(fam) <==> ch == Letter(fam)
  {
  }

  /** `[1-3]` */
  predicate IsCountDigit(ch: char)
  {
    '1' <= ch <= '3'
  }

  predicate AllCountDigits(s: string)
  {
    forall j :: 0 <= j < |s| ==> IsCountDigit(s[j])
  }

  predicate AllMarks(s: string)
  {
    forall j :: 0 <= j < |s| ==> s[j] == 'i'
  }

  /** How many count digits open `s`: the extent of `([1-3])*`. */
  function LeadingCount(s: string): (n: nat)
    ensures n <= |s|
    ensures AllCountDigits(s[..n])
    ensures n < |s| ==> !IsCountDigit(s[n])
  {
    if |s| > 0 && IsCountDigit(s[0]) then
      var n := 1 + LeadingCount(s[1..]);
      assert s[..n] == [s[0]] + s[1..][..n - 1];
      n
    else
      0
  }

  /** Python's `$` also matches just before one newline that ends the string. */
  function Body(token: string): string
  {
    if |token| > 0 && token[|token| - 1] == '\n' then token[..|token| - 1] else token
  }

  /** The count a run of digits gives: the last one, or 1 when there are none. */
  function CountOf(digits: string): int
  {
    if |digits| == 0 then 1 else digits[|digits| - 1] as int - '0' as int
  }

  /**
   * `Turn_Pattern.match(rotation).groups()` and lines 150-152 of `rotate`:
   * `None` is the token the pattern does not match.
   */
  function Parse(token: string): (r: Option<Move>)
    ensures r.Some? ==> 1 <= r.value.count <= 3
  {
    Decode(Body(token))
  }

  /** The grammar and its decoding, on a token without its optional final newline. */
  function Decode(b: string): (r: Option<Move>)
    ensures r.Some? ==> 1 <= r.value.count <= 3
  {
    var n := LeadingCount(b);
    if n < |b| && FamilyOf(b[n]).Some? && AllMarks(b[n + 1..]) then
      Some(Move(CountOf(b[..n]), FamilyOf(b[n]).value, n + 1 < |b|))
    else
      None
  }

  /** The token with count digits `digits`, letter of `fam` and `marks` trailing `i`s. */
  function Render(digits: string, fam: Family, marks: nat): string
  {
    digits + [Letter(fam)] + seq(marks, _ => 'i')
  }

  lemma {:induction false} LeadingCountAppend(digits: string, rest: string)
    requires AllCountDigits(digits)
    requires |rest| > 0 && !IsCountDigit(rest[0])
    ensures LeadingCount(digits + rest) == |digits|
  {
    if |digits| > 0 {
      assert (digits + rest)[1..] == digits[1..] + rest;
      LeadingCountAppend(digits[1..], rest);
    } else {
      assert digits + rest == rest;
    }
  }

  /**
   * Every token of the grammar is accepted and decoded to the last digit (or
   * 1), its letter, and inverted exactly when an `i` follows; so is the same
   * token followed by one newline.
   */
  lemma ParseRender(digits: string, fam: Family, marks: nat)
    requires AllCountDigits(digits)
    ensures Parse(Render(digits, fam, marks)) == Some(Move(CountOf(digits), fam, marks > 0))
    ensures Parse(Render(digits, fam, marks) + "\n") == Some(Move(CountOf(digits), fam, marks > 0))
  {
    RenderBody(digits, fam, marks);
    DecodeRender(digits, fam, marks);
  }

  lemma RenderBody(digits: string, fam: Family, marks: nat)
    ensures Body(Render(digits, fam, marks)) == Render(digits, fam, marks)
    ensures Body(Render(digits, fam, marks) + "\n") == Render(digits, fam, marks)
  {
    var t := Render(digits, fam, marks);
    assert t[|t| - 1] == if marks == 0 then Letter(fam) else 'i';
  }

  lemma DecodeRender(digits: string, fam: Family, marks: nat)
    requires AllCountDigits(digits)
    ensures Decode(Render(digits, fam, marks)) == Some(Move(CountOf(digits), fam, marks > 0))
  {
    var t := Render(digits, fam, marks);
    var rest := [Letter(fam)] + seq(marks, _ => 'i');
    assert t == digits + rest;
    LeadingCountAppend(digits, rest);
    assert t[|digits|] == Letter(fam);
    assert t[..|digits|] == digits;
    assert t[|digits| + 1..] == seq(marks, _ => 'i');
    LetterRoundTrip(fam, Letter(fam));
  }

  /**
   * Only tokens of the grammar are accepted: an accepted token is, up to one
   * final newline, count digits, the letter of the decoded family and `i`
   * marks, with the count and inversion they spell.
   */
  lemma ParseOnlyRendered(token: string)
    requires Parse(token).Some?
    ensures exists digits, marks: nat ::
      AllCountDigits(digits) &&
      (token == Render(digits, Parse(token).value.family, marks) ||
       token == Render(digits, Parse(token).value.family, marks) + "\n") &&
      Parse(token).value == Move(CountOf(digits), Parse(token).value.family, marks > 0)
  {
    var b := Body(token);
    var n := LeadingCount(b);
    var fam := Parse(token).value.family;
    var marks := |b| - n - 1;
    LetterRoundTrip(fam, b[n]);
    assert b[n + 1..] == seq(marks, _ => 'i');
    assert b == Render(b[..n], fam, marks);
    assert token == b || token == b + "\n";
  }

  /** Tokens outside the grammar are refused: a count 5, an unknown letter, an empty token, a space. */
  lemma ParseRefuses()
    ensures Parse("5R").None? && Parse("X").None? && Parse("").None? && Parse("R ").None? && Parse("Ri2").None?
  {
  }
}
