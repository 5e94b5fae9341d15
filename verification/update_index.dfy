/** The flag-to-index codec. Each SpotifyInfo member other than Clear is a distinct
    power of two and Clear is zero; ToUpdateInt numbers the members by bit position,
    starting at 1, with Clear at 0. The argument here is the member's underlying
    integer value. */
module UpdateIndex {

  /** 2 to the power k. */
  function Pow2(k: nat): (r: nat)
    ensures r >= 1
  {
    if k == 0 then 1 else 2 * Pow2(k - 1)
  }

  /** v has exactly one bit set. */
  predicate IsSingleBit(v: int)
    decreases if v > 0 then v else 0
  {
    v == 1 || (v > 1 && v % 2 == 0 && IsSingleBit(v / 2))
  }

  /** A value ToUpdateInt accepts: the Clear value or a single-bit flag. */
  predicate IsInfoValue(v: int)
  {
    v == 0 || IsSingleBit(v)
  }

  /** Integer log2, rounded down: the position of the highest set bit. */
  function Log2(v: nat): (r: nat)
    requires v > 0
    ensures Pow2(r) <= v < 2 * Pow2(r)
  {
    if v == 1 then 0 else 1 + Log2(v / 2)
  }

  /** A single-bit value is exactly 2 to the power of its log2. */
  lemma {:induction false} SingleBitIsPow2(v: int)
    requires IsSingleBit(v)
    ensures v > 0 && v == Pow2(Log2(v))
  {
    if v != 1 {
      SingleBitIsPow2(v / 2);
    }
  }

  /** Every power of two has a single bit set. */
  lemma {:induction false} Pow2IsSingleBit(k: nat)
    ensures IsSingleBit(Pow2(k))
  {
    if k > 0 {
      Pow2IsSingleBit(k - 1);
      assert Pow2(k) / 2 == Pow2(k - 1);
    }
  }

  /** The update index of a flag: Clear gives 0 and the flag
      2^k gives k + 1, so the index recovers the flag. */
  function ToUpdateInt(info: int): (r: nat)
    requires IsInfoValue(info)
    ensures r == 0 <==> info == 0
    ensures r > 0 ==> Pow2(r - 1) == info
  {
    if info == 0 then 0
    else
      SingleBitIsPow2(info);
      Log2(info) + 1
  }

  /** The flag 2^k is numbered k + 1. */
  lemma ToUpdateIntOfPow2(k: nat)
    ensures IsInfoValue(Pow2(k))
    ensures ToUpdateInt(Pow2(k)) == k + 1
  {
    Pow2IsSingleBit(k);
    IndexOfPow2(Pow2(k), k);
  }

  lemma IndexOfPow2(v: int, k: nat)
    requires IsInfoValue(v) && v == Pow2(k)
    ensures ToUpdateInt(v) == k + 1
  {
    Pow2Injective(ToUpdateInt(v) - 1, k);
  }

  /** Distinct exponents give distinct powers of two. */
  lemma {:induction false} Pow2Injective(j: nat, k: nat)
    requires Pow2(j) == Pow2(k)
    ensures j == k
  {
    if j > 0 && k > 0 {
      Pow2Injective(j - 1, k - 1);
    } else if j > 0 {
      Pow2AtLeastTwo(j);
    } else if k > 0 {
      Pow2AtLeastTwo(k);
    }
  }

  lemma Pow2AtLeastTwo(k: nat)
    requires k > 0
    ensures Pow2(k) >= 2
  {
  }

  /** Distinct flags get distinct indices. */
  lemma ToUpdateIntInjective(v: int, w: int)
    requires IsInfoValue(v) && IsInfoValue(w)
    requires ToUpdateInt(v) == ToUpdateInt(w)
    ensures v == w
  {
  }
}
