/**
 * The 128-bit generator of `src/lib/xorshift128plus.ts`: four 32-bit words of
 * state, an additive output word and an update that resembles xoshiro128+ but
 * follows its own rule (shift by 11 into word 0, rotations by 9, 19 and 11).
 * JavaScript's `>>> 0` truncation to an unsigned 32-bit number is the `bv32`
 * arithmetic of Dafny.
 */
module Xorshift {
  import opened Wrappers
  import opened Rotation

  /** The output word of `next()` before the float scaling. */
  function Output(w: seq<bv32>): bv32
    requires |w| == 4
  {
    w[0] + w[3]
  }

  /** The state after one call of `next()`. */
  function NextState(w: seq<bv32>): (r: seq<bv32>)
    requires |w| == 4
    ensures |r| == 4
  {
    var s1 := w[1] ^ w[0];
    [Rotl(w[0], 9) ^ s1 ^ (s1 << 11), Rotl(s1, 19), w[2] ^ w[3], Rotl(w[3], 11)]
  }

  /** The first `n` output words from state `w`. */
  function Outputs(w: seq<bv32>, n: nat): (r: seq<bv32>)
    requires |w| == 4
    ensures |r| == n
    decreases n
  {
    if n == 0 then [] else [Output(w)] + Outputs(NextState(w), n - 1)
  }

  class Xoshiro128Plus {
    var state: array<bv32>

    ghost predicate Valid()
      reads this
    {
      state.Length == 4
    }

    /**
     * Copies a four-word seed; any other seed (absent or of another length)
     * falls back to `entropy`, the four words `crypto.getRandomValues` would
     * supply.
     */
    constructor (seed: Option<array<bv32>>, entropy: seq<bv32>)
      requires |entropy| == 4
      ensures Valid() && fresh(state)
      ensures seed.Some? && seed.value.Length == 4 ==> state[..] == seed.value[..]
      ensures !(seed.Some? && seed.value.Length == 4) ==> state[..] == entropy
    {
      if seed.Some? && seed.value.Length == 4 {
        var a := new bv32[4];
        forall i | 0 <= i < 4 {
          a[i] := seed.value[i];
        }
        state := a;
      } else {
        var a := new bv32[4];
        forall i | 0 <= i < 4 {
          a[i] := entropy[i];
        }
        state := a;
      }
    }

    /** A fresh copy of the state. */
    method GetSeed() returns (copy: array<bv32>)
      requires Valid()
      ensures fresh(copy) && copy[..] == state[..]
    {
      copy := new bv32[4];
      forall i | 0 <= i < 4 {
        copy[i] := state[i];
      }
    }

    /** Overwrites the state with a four-word seed; any other length is the thrown error. */
    method SetSeed(seed: array<bv32>) returns (outcome: Result<(), string>)
      requires Valid()
      modifies state
      ensures Valid()
      ensures outcome.Failure? <==> seed.Length != 4
      ensures outcome.Failure? ==> state[..] == old(state[..])
      ensures outcome.Success? ==> state[..] == old(seed[..])
    {
      if seed.Length != 4 {
        return Failure("Seed must be an array of 4 unsigned 32-bit integers.");
      }
      forall i | 0 <= i < 4 {
        state[i] := seed[i];
      }
      outcome := Success(());
    }

    /** `next()` returns the output word and advances the state in place. */
    method Next() returns (result: bv32)
      requires Valid()
      modifies state
      ensures Valid()
      ensures result == Output(old(state[..]))
      ensures state[..] == NextState(old(state[..]))
    {
      var w := state[..];
      result := Output(w);
      var r := NextState(w);
      state[0], state[1], state[2], state[3] := r[0], r[1], r[2], r[3];
      assert state[..] == r;
    }
  }

  /** Calls `next()` `n` times on `g` and collects the words. */
  method Draw(g: Xoshiro128Plus, n: nat) returns (out: seq<bv32>)
    requires g.Valid()
    modifies g.state
    ensures g.Valid()
    ensures out == Outputs(old(g.state[..]), n)
  {
    ghost var w := g.state[..];
    out := [];
    var k := 0;
    while k < n
      invariant 0 <= k <= n
      invariant g.Valid()
      invariant out + Outputs(g.state[..], n - k) == Outputs(w, n)
    {
      ghost var cur := g.state[..];
      var x := g.Next();
      assert Outputs(cur, n - k) == [x] + Outputs(g.state[..], n - k - 1);
      out := out + [x];
      k := k + 1;
    }
  }

  /**
   * Two generators built from the same seed give the same `n` words, and
   * neither is disturbed when the caller later overwrites the seed array.
   */
  method SameSeedSameOutputs(seed: array<bv32>, n: nat) returns (first: seq<bv32>, second: seq<bv32>)
    requires seed.Length == 4
    modifies seed
    ensures first == second == Outputs(old(seed[..]), n)
  {
    var g1 := new Xoshiro128Plus(Some(seed), [0, 0, 0, 0]);
    var g2 := new Xoshiro128Plus(Some(seed), [0, 0, 0, 0]);
    seed[0] := seed[0] + 1;
    first := Draw(g1, n);
    second := Draw(g2, n);
  }
}
