/**
 * D6 notation and rolling. A rating `value` of 3 or more is a pool of
 * `value / 3` six-sided dice plus `value % 3` pips; Python 2 `/` on integers
 * is floor division, which for these non-negative operands is Dafny's `/`.
 * A rating below 3 forms no pool.
 *
 * The dice themselves come from a random source outside this model: a roll
 * is given the faces the source produced, one per die rolled.
 */
module Utils {
  import opened Wrappers
  import opened Text

  /** Number of dice rolled for `value`: none below 3. */
  function DiceCount(value: int): nat
  {
    if value < 3 then 0 else value / 3
  }

  /** The notation for a pool of `dice` dice and `pips` pips: "dD", or "dD+p" when p > 0. */
  function Notation(dice: nat, pips: nat): string
  {
    NatToString(dice) + "D" + (if pips < 1 then "" else "+" + NatToString(pips))
  }

  /** `d6str(value)`: the D6 notation of a rating, "" below 3. */
  function D6Str(value: int): (s: string)
    ensures s == "" <==> value < 3
  {
    if value < 3 then "" else Notation(value / 3, value % 3)
  }

  /**
   * Reads a D6 notation back into the rating it stands for: a numeral, "D",
   * and optionally "+1" or "+2". Anything else is not a notation.
   */
  function DecodeD6(s: string): Option<int>
  {
    var n := |s|;
    if n >= 3 && s[n - 3] == 'D' && s[n - 2] == '+' && (s[n - 1] == '1' || s[n - 1] == '2')
       && IsNumeral(s[..n - 3])
    then Some(3 * ParseDigits(s[..n - 3]) + DigitValue(s[n - 1]))
    else if n >= 1 && s[n - 1] == 'D' && IsNumeral(s[..n - 1])
    then Some(3 * ParseDigits(s[..n - 1]))
    else None
  }

  /** A pool without pips reads back as three times its dice. */
  lemma DecodeWholeDice(d: nat)
    ensures DecodeD6(Notation(d, 0)) == Some(3 * d)
  {
    var num := NatToString(d);
    var s := Notation(d, 0);
    assert s == num + "D";
    var n := |s|;
    ParseNatToString(d);
    assert s[..n - 1] == num;
    if n >= 3 {
      assert s[n - 2] == num[n - 2];
    }
  }

  /** A pool with one or two pips reads back as three times its dice plus the pips. */
  lemma DecodeDiceWithPips(d: nat, p: nat)
    requires p == 1 || p == 2
    ensures DecodeD6(Notation(d, p)) == Some(3 * d + p)
  {
    var num := NatToString(d);
    var s := Notation(d, p);
    assert s == num + "D" + "+" + [DigitChar(p)];
    ParseNatToString(d);
    assert s[..|s| - 3] == num;
    assert DigitValue(DigitChar(p)) == p;
  }

  /** The notation of every rating of 3 or more reads back as that rating. */
  lemma D6StrRoundTrip(value: int)
    requires value >= 3
    ensures DecodeD6(D6Str(value)) == Some(value)
  {
    var d, p := value / 3, value % 3;
    assert D6Str(value) == Notation(d, p);
    if p == 0 {
      DecodeWholeDice(d);
    } else {
      DecodeDiceWithPips(d, p);
    }
  }

  /** Distinct ratings of 3 or more have distinct notations. */
  lemma D6StrInjective(a: int, b: int)
    requires a >= 3 && b >= 3 && D6Str(a) == D6Str(b)
    ensures a == b
  {
    D6StrRoundTrip(a);
    D6StrRoundTrip(b);
  }

  /**
   * A notation ends in "D" exactly when the rating is a multiple of 3, and
   * otherwise in "+1" or "+2": a "+" is only ever followed by the pip count
   * 1 or 2, so neither "+0" nor "+3" can appear.
   */
  lemma D6StrPips(value: int)
    requires value >= 3
    ensures var s := D6Str(value);
      && (s[|s| - 1] == 'D' <==> value % 3 == 0)
      && (forall i :: 0 <= i < |s| && s[i] == '+' ==>
            i == |s| - 2 && s[i + 1] == DigitChar(value % 3) && (s[i + 1] == '1' || s[i + 1] == '2'))
  {
    var s, num := D6Str(value), NatToString(value / 3);
    if value % 3 == 0 {
      assert s == num + "D";
    } else {
      assert s == num + "D" + "+" + [DigitChar(value % 3)];
      assert forall i :: 0 <= i < |num| ==> s[i] == num[i];
    }
  }

  /** The test table of d6str. */
  lemma D6StrTable()
    ensures D6Str(3) == "1D" && D6Str(4) == "1D+1" && D6Str(5) == "1D+2"
    ensures D6Str(6) == "2D" && D6Str(7) == "2D+1" && D6Str(8) == "2D+2"
    ensures D6Str(9) == "3D" && D6Str(10) == "3D+1" && D6Str(11) == "3D+2"
  {
  }

  predicate IsDie(face: int) { 1 <= face <= 6 }

  /** Faces a six-sided die can show. */
  predicate ValidFaces(faces: seq<int>)
  {
    forall i :: 0 <= i < |faces| ==> IsDie(faces[i])
  }

  /** The total of the dice rolled: at least one and at most six per die. */
  function SumFaces(faces: seq<int>): (total: int)
    requires ValidFaces(faces)
    ensures |faces| <= total <= 6 * |faces|
  {
    if faces == [] then 0 else SumFaces(faces[..|faces| - 1]) + faces[|faces| - 1]
  }

  /** Lowest roll of a rating: every die shows 1. */
  function MinRoll(value: int): int
  {
    if value < 3 then 0 else value / 3 + value % 3
  }

  /** Highest roll of a rating: every die shows 6. */
  function MaxRoll(value: int): int
  {
    if value < 3 then 0 else 6 * (value / 3) + value % 3
  }

  /**
   * `d6roll(value)`: below 3 no dice are rolled and the result is 0;
   * otherwise the sum of `value / 3` dice, plus `value % 3` when that is not 0.
   */
  function D6Roll(value: int, faces: seq<int>): (r: int)
    requires ValidFaces(faces) && |faces| == DiceCount(value)
    ensures value < 3 ==> r == 0
    ensures MinRoll(value) <= r <= MaxRoll(value)
  {
    if value < 3 then 0
    else if value % 3 == 0 then SumFaces(faces)
    else SumFaces(faces) + value % 3
  }

  /**
   * The notation and the roll agree on the pool: the notation of a rating is
   * the notation of the dice the roll uses and the bonus it adds to them.
   */
  lemma RollMatchesNotation(value: int, faces: seq<int>)
    requires value >= 3
    requires ValidFaces(faces) && |faces| == DiceCount(value)
    ensures D6Str(value) == Notation(|faces|, D6Roll(value, faces) - SumFaces(faces))
    ensures 0 <= D6Roll(value, faces) - SumFaces(faces) <= 2
  {
  }

  /** A choice of faces for `n` dice that totals `total`. */
  function FacesWithSum(n: nat, total: int): (faces: seq<int>)
    requires n <= total <= 6 * n
    ensures |faces| == n && ValidFaces(faces) && SumFaces(faces) == total
  {
    if n == 0 then []
    else
      var last := if total - (n - 1) <= 6 then total - (n - 1) else 6;
      var init := FacesWithSum(n - 1, total - last);
      assert (init + [last])[..n - 1] == init;
      init + [last]
  }

  /** Every total between the lowest and the highest roll of a rating can come up. */
  lemma RollRangeIsTight(value: int, total: int)
    requires value >= 3 && MinRoll(value) <= total <= MaxRoll(value)
    ensures exists faces :: ValidFaces(faces) && |faces| == DiceCount(value) && D6Roll(value, faces) == total
  {
    var faces := FacesWithSum(value / 3, total - value % 3);
    assert D6Roll(value, faces) == total;
  }
}
