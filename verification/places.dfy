/**
 * The five result slots read as a five-digit amount (script.js, the
 * `multipliers` of the game state, updateHint and checkAllRolled).
 */
module Places {
  import opened Wrappers
  import opened Faces

  /** Number of dice, one per decimal place. */
  const Slots: nat := 5

  /** Ten-thousands, thousands, hundreds, tens, units. */
  const Multipliers: seq<int> := [10000, 1000, 100, 10, 1]

  /** The place names shown beside each die in the breakdown. */
  const PlaceLabels: seq<string> := ["萬", "千", "百", "十", "個"]

  /** Every slot holds a value (`results.every(r => r !== null)`). */
  predicate AllRolled(results: seq<Option<int>>)
    ensures AllRolled(results) <==> None !in results
  {
    forall i :: 0 <= i < |results| ==> results[i].Some?
  }

  /** The number of empty slots (`results.filter(r => r === null).length`). */
  function Remaining(results: seq<Option<int>>): (n: nat)
    ensures n <= |results|
    ensures n == 0 <==> AllRolled(results)
    ensures n == |results| <==> forall i :: 0 <= i < |results| ==> results[i].None?
  {
    if results == [] then 0
    else
      assert forall i :: 1 <= i < |results| ==> results[i] == results[1..][i - 1];
      (if results[0].None? then 1 else 0) + Remaining(results[1..])
  }

  /** Filling one empty slot leaves exactly one die fewer to roll. */
  lemma {:induction false} FillOneSlot(results: seq<Option<int>>, i: nat, v: int)
    requires i < |results| && results[i].None?
    ensures Remaining(results[i := Some(v)]) == Remaining(results) - 1
  {
    if i > 0 {
      assert results[i := Some(v)][1..] == results[1..][i - 1 := Some(v)];
      FillOneSlot(results[1..], i - 1, v);
    }
  }

  /** The number a string of decimal digits stands for, most significant digit first. */
  function DecimalValue(s: string): int
  {
    if s == [] then 0 else 10 * DecimalValue(s[..|s| - 1]) + (s[|s| - 1] as int - '0' as int)
  }

  /** The decimal digits of a natural number, as a template literal writes it. */
  function DecimalText(n: nat): (s: string)
    ensures |s| >= 1
    ensures forall k :: 0 <= k < |s| ==> '0' <= s[k] <= '9'
    ensures DecimalValue(s) == n
  {
    var digit := ['0' + (n % 10) as char];
    if n < 10 then digit else DecimalText(n / 10) + digit
  }

  /** The hint line: how many dice are left, or nothing once all are rolled. */
  function HintText(results: seq<Option<int>>): (h: string)
    ensures h == "" <==> AllRolled(results)
  {
    var n := Remaining(results);
    if n == 0 then "" else "還剩 " + DecimalText(n) + " 顆骰子，繼續點選吧！"
  }

  /** With three of the five dice rolled, the hint says two are left. */
  lemma HintAfterThreeRolls(results: seq<Option<int>>)
    requires |results| == Slots && Remaining(results) == 2
    ensures HintText(results) == "還剩 2 顆骰子，繼續點選吧！"
  {
  }

  /** The values of the slots, once every slot is filled. */
  function Values(results: seq<Option<int>>): (vals: seq<int>)
    requires AllRolled(results)
    ensures |vals| == |results|
    ensures forall i :: 0 <= i < |results| ==> results[i] == Some(vals[i])
  {
    seq(|results|, i requires 0 <= i < |results| => results[i].value)
  }

  /**
   * The amount: each value weighted by its place (`results.reduce((sum,
   * val, i) => sum + val * multipliers[i], 0)`), summed left to right.
   */
  function PlaceSum(vals: seq<int>): (t: int)
    requires |vals| <= Slots
    ensures (forall i :: 0 <= i < |vals| ==> IsDigit(vals[i])) ==>
              0 <= t < 100000 && (vals != [] ==> t % Multipliers[|vals| - 1] == 0)
  {
    if vals == [] then 0
    else PlaceSum(vals[..|vals| - 1]) + vals[|vals| - 1] * Multipliers[|vals| - 1]
  }

  predicate IsDigit(v: int) { 0 <= v <= 9 }

  /** Digit `k` of `n`, counting the units as digit 0. */
  function Digit(n: int, k: nat): int
    decreases k
  {
    if k == 0 then n % 10 else Digit(n / 10, k - 1)
  }

  /** The five digits of an amount, ten-thousands first. */
  function Decode(n: int): (vals: seq<int>)
    ensures |vals| == Slots
  {
    [Digit(n, 4), Digit(n, 3), Digit(n, 2), Digit(n, 1), Digit(n, 0)]
  }

  /** Written out, the amount is the five values as decimal digits. */
  lemma PlaceSumOfFive(vals: seq<int>)
    requires |vals| == Slots
    ensures PlaceSum(vals) == 10000 * vals[0] + 1000 * vals[1] + 100 * vals[2] + 10 * vals[3] + vals[4]
  {
    assert vals[..4][..3] == vals[..3] && vals[..3][..2] == vals[..2];
    assert vals[..2][..1] == vals[..1] && vals[..1][..0] == [];
    assert PlaceSum(vals[..1]) == 10000 * vals[0];
    assert PlaceSum(vals[..2]) == 10000 * vals[0] + 1000 * vals[1];
    assert PlaceSum(vals[..3]) == 10000 * vals[0] + 1000 * vals[1] + 100 * vals[2];
  }

  lemma DigitStep(q: int, r: int, k: nat)
    requires 0 <= r <= 9
    ensures Digit(10 * q + r, k + 1) == Digit(q, k)
    ensures Digit(10 * q + r, 0) == r
  {
  }

  /** Five digits written side by side read back as the same five digits. */
  lemma DecodeDigits(a: int, b: int, c: int, d: int, e: int)
    requires IsDigit(a) && IsDigit(b) && IsDigit(c) && IsDigit(d) && IsDigit(e)
    ensures Decode(10000 * a + 1000 * b + 100 * c + 10 * d + e) == [a, b, c, d, e]
  {
    var n1 := 1000 * a + 100 * b + 10 * c + d;
    var n2 := 100 * a + 10 * b + c;
    var n3 := 10 * a + b;
    assert 10000 * a + 1000 * b + 100 * c + 10 * d + e == 10 * n1 + e;
    assert n1 == 10 * n2 + d;
    assert n2 == 10 * n3 + c;
    DigitStep(n1, e, 3);
    DigitStep(n2, d, 2);
    DigitStep(n3, c, 1);
    DigitStep(a, b, 0);
    assert Digit(a, 0) == a;
    DigitStep(n1, e, 2);
    DigitStep(n2, d, 1);
    DigitStep(n3, c, 0);
    DigitStep(n1, e, 1);
    DigitStep(n2, d, 0);
    DigitStep(n1, e, 0);
  }

  /** Decoding the amount gives back the five values: each die is one digit. */
  lemma DecodePlaceSum(vals: seq<int>)
    requires |vals| == Slots && forall i :: 0 <= i < |vals| ==> IsDigit(vals[i])
    ensures Decode(PlaceSum(vals)) == vals
  {
    PlaceSumOfFive(vals);
    DecodeDigits(vals[0], vals[1], vals[2], vals[3], vals[4]);
    assert vals == [vals[0], vals[1], vals[2], vals[3], vals[4]];
  }

  /** Two different outcomes never give the same amount. */
  lemma PlaceSumIsInjective(vals: seq<int>, other: seq<int>)
    requires |vals| == Slots && forall i :: 0 <= i < |vals| ==> IsDigit(vals[i])
    requires |other| == Slots && forall i :: 0 <= i < |other| ==> IsDigit(other[i])
    requires PlaceSum(vals) == PlaceSum(other)
    ensures vals == other
  {
    DecodePlaceSum(vals);
    DecodePlaceSum(other);
  }

  /** The dice 1, 2, 3, 4, 5, from the ten-thousands down, make 12345. */
  lemma PlaceSumExample()
    ensures PlaceSum([1, 2, 3, 4, 5]) == 12345
  {
    PlaceSumOfFive([1, 2, 3, 4, 5]);
  }

  /** With pips on every die, the amount lies between 11111 and 66666. */
  lemma PlaceSumBounds(vals: seq<int>)
    requires |vals| == Slots && forall i :: 0 <= i < |vals| ==> IsPip(vals[i])
    ensures 11111 <= PlaceSum(vals) <= 66666
  {
    PlaceSumOfFive(vals);
  }

  /** One entry of the per-die breakdown. */
  datatype PlaceEntry = PlaceEntry(place: string, value: int)

  /** What the result panel reveals: the amount and the per-die breakdown. */
  datatype Reveal = Reveal(total: int, breakdown: seq<PlaceEntry>)

  /**
   * The completion check: nothing while a slot is empty; otherwise the
   * amount and the values labelled by place.
   */
  function CheckAllRolled(results: seq<Option<int>>): (r: Option<Reveal>)
    requires |results| == Slots
    ensures r.Some? <==> AllRolled(results)
    ensures r.Some? ==> |r.value.breakdown| == Slots
    ensures r.Some? ==> forall i :: 0 <= i < Slots ==>
              r.value.breakdown[i] == PlaceEntry(PlaceLabels[i], results[i].value)
  {
    if !AllRolled(results) then None
    else
      var vals := Values(results);
      Some(Reveal(PlaceSum(vals), seq(Slots, i requires 0 <= i < Slots => PlaceEntry(PlaceLabels[i], vals[i]))))
  }

  /** The revealed amount spells out the five rolled values, digit by digit. */
  lemma RevealedTotalSpellsResults(results: seq<Option<int>>)
    requires |results| == Slots && AllRolled(results)
    requires forall i :: 0 <= i < Slots ==> IsPip(results[i].value)
    ensures CheckAllRolled(results).Some?
    ensures Decode(CheckAllRolled(results).value.total) == Values(results)
    ensures 11111 <= CheckAllRolled(results).value.total <= 66666
  {
    var vals := Values(results);
    DecodePlaceSum(vals);
    PlaceSumBounds(vals);
  }
}
