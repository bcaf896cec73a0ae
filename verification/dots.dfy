/** The pip markup of one face (script.js, createDots). */
module Dots {
  /** The markup of one pip. */
  const Dot: string := "<div class=\"dot\"></div>"

  /** `n` pips, one after another. */
  function DotsMarkup(n: nat): (m: string)
    ensures |m| == |Dot| * n
  {
    if n == 0 then "" else DotsMarkup(n - 1) + Dot
  }

  /** Every `|Dot|`-long block of the markup, and nothing else, is one pip. */
  lemma {:induction false} DotsMarkupBlock(n: nat, k: nat)
    requires k < n
    ensures |Dot| * (k + 1) <= |DotsMarkup(n)|
    ensures DotsMarkup(n)[|Dot| * k .. |Dot| * (k + 1)] == Dot
  {
    if k < n - 1 {
      DotsMarkupBlock(n - 1, k);
      assert DotsMarkup(n)[..|Dot| * (n - 1)] == DotsMarkup(n - 1);
    } else {
      assert DotsMarkup(n)[|Dot| * (n - 1)..] == Dot;
    }
  }

  /** The pip count can be read back from the markup. */
  lemma DotsMarkupIsInjective(n: nat, p: nat)
    ensures DotsMarkup(n) == DotsMarkup(p) ==> n == p
  {
  }

  /** Appends the pip markup `num` times; a count below one gives no pips. */
  method CreateDots(num: int) returns (dots: string)
    ensures dots == DotsMarkup(if num < 0 then 0 else num)
  {
    dots := "";
    var i := 0;
    while i < num
      invariant 0 <= i <= (if num < 0 then 0 else num)
      invariant dots == DotsMarkup(i)
    {
      dots := dots + Dot;
      i := i + 1;
    }
  }
}
