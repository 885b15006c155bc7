/**
 * The 32-bit left rotation `rotl` of `src/lib/xorshift128plus.ts` and its
 * laws, kept apart from the generator so that the bit-level proofs see only
 * the rotation. The inverse law is proved for one quarter of the counts at a
 * time, which keeps the bit-blasted problems small.
 */
module Rotation {
  /**
   * `rotl(x, k)`: JavaScript masks shift counts to their low five bits, so the
   * count is a `bv5` and `32 - k` is `0 - k` in that width.
   */
  function Rotl(x: bv32, k: bv5): bv32
  {
    (x << k) | (x >> (0 - k))
  }

  lemma Inverse0(x: bv32, k: bv5)
    requires 0 < k < 8
    ensures Rotl(Rotl(x, k), 0 - k) == x
  {
  }

  lemma Inverse1(x: bv32, k: bv5)
    requires 8 <= k < 16
    ensures Rotl(Rotl(x, k), 0 - k) == x
  {
  }

  lemma Inverse2(x: bv32, k: bv5)
    requires 16 <= k < 24
    ensures Rotl(Rotl(x, k), 0 - k) == x
  {
  }

  lemma Inverse3(x: bv32, k: bv5)
    requires 24 <= k
    ensures Rotl(Rotl(x, k), 0 - k) == x
  {
  }

  /** Rotating by `k` and then by `32 - k` gives back the word. */
  lemma RotlInverse(x: bv32, k: bv5)
    requires k != 0
    ensures Rotl(Rotl(x, k), 0 - k) == x
  {
    if k < 8 {
      Inverse0(x, k);
    } else if k < 16 {
      Inverse1(x, k);
    } else if k < 24 {
      Inverse2(x, k);
    } else {
      Inverse3(x, k);
    }
  }
}
