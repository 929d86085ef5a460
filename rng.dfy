/** The Mersenne Twister MT19937 generator `QRng`: 624 words of `u32` state updated in
    place, and an index into them. */
module Rng {

  import opened Fixed
  import opened Wrappers

  /** Degree of recurrence: the number of state words. */
  const N: nat := 624
  /** Middle word offset of the recurrence. */
  const M: nat := 397

  /** The most significant bit of a word, and the 31 bits below it. */
  const UPPER_MASK: bv32 := 0x8000_0000
  const LOWER_MASK: bv32 := 0x7fff_ffff
  /** The last row of the twist matrix A. */
  const MATRIX_A: bv32 := 0x9908_b0df
  /** The tempering masks. */
  const TEMPER_B: bv32 := 0x9d2c_5680
  const TEMPER_C: bv32 := 0xefc6_0000

  // ---------------------------------------------------------------- seeding

  /** `i as u32` for a word index: i ones added up in 32-bit arithmetic. Built by
      counting rather than by conversion, which keeps the verifier's reasoning about
      words apart from its reasoning about integers. */
  function AsU32(i: nat): bv32
    requires i < N
  {
    if i == 0 then 0 else AsU32(i - 1) + 1
  }

  /** The product of `from_seed`: `wrapping_mul` of the seeding multiplier 1812433253 and
      the previous word xored with its top two bits. */
  function SeedProduct(prev: bv32): bv32
  {
    1812433253 * (prev ^ (prev >> 30))
  }

  /** One step of `from_seed` with the addition wrapping modulo 2^32, as MT19937
      initialises its state: word i is SeedProduct(word i - 1) + i. */
  function SeedStep(prev: bv32, i: bv32): bv32
  {
    SeedProduct(prev) + i
  }

  /** The `u32` `+` of `from_seed` as written: in a debug build it panics (`None`) when
      the sum leaves `u32`, that is, exactly when the wrapped sum falls below the first
      operand; otherwise it is the wrapped sum. */
  function CheckedAdd(p: bv32, i: bv32): (r: Option<bv32>)
    ensures r.None? <==> p + i < p
    ensures r.Some? ==> r.value == p + i
    ensures r.None? ==> i != 0
  {
    if p + i < p then None else Some(p + i)
  }

  /** The seeding step exactly as written: `wrapping_mul`, then the checked `+`. Where it
      does not panic it is `SeedStep`. */
  function SeedStepAsWritten(prev: bv32, i: bv32): Option<bv32>
  {
    CheckedAdd(SeedProduct(prev), i)
  }

  /** A seed whose first step overflows: 1812433253 * (seed ^ (seed >> 30)) wraps to
      0xffffffff, so adding 1 panics, although MT19937 defines the word as 0. */
  lemma SeedStepOverflows()
    ensures SeedStepAsWritten(0x69c7_7f92, AsU32(1)).None?
    ensures SeedStep(0x69c7_7f92, AsU32(1)) == 0
  {
    assert SeedProduct(0x69c7_7f92) == 0xffff_ffff;
  }

  // ------------------------------------------------------------------- twist

  /** The two masked words of `twist` share no bit, so their `+` never carries out of
      a `u32` (the sum is not below either word) and equals their bitwise OR. */
  lemma MaskedSumIsOr(u: bv32, l: bv32)
    ensures (u & UPPER_MASK) + (l & LOWER_MASK) == (u & UPPER_MASK) | (l & LOWER_MASK)
    ensures (u & UPPER_MASK) + (l & LOWER_MASK) >= u & UPPER_MASK
    ensures (u & UPPER_MASK) + (l & LOWER_MASK) >= l & LOWER_MASK
  {
  }

  /** The top bit of `u` joined with the low 31 bits of `l`, by the `+` of `twist`. */
  function MaskedSum(u: bv32, l: bv32): bv32
  {
    (u & UPPER_MASK) + (l & LOWER_MASK)
  }

  /** Multiplication by the twist matrix A: a shift right, then MATRIX_A xored in when
      the dropped bit was set. */
  function MultiplyA(x: bv32): bv32
  {
    if x % 2 != 0 then (x >> 1) ^ MATRIX_A else x >> 1
  }

  /** The word `twist` xors into the middle word. */
  function Mix(u: bv32, l: bv32): bv32
  {
    MultiplyA(MaskedSum(u, l))
  }

  /** The new word of the recurrence from the middle word and the two words `Mix`
      joins. */
  function Combine(middle: bv32, u: bv32, l: bv32): bv32
  {
    middle ^ Mix(u, l)
  }

  /** The MT19937 recurrence, over any word type: words 0 .. N-1 are the state `s`, and
      word k + N is `step` of words k + M, k and k + 1. */
  function Recurrence<T>(s: seq<T>, k: nat, step: (T, T, T) -> T): T
    requires |s| == N && k < 2 * N
  {
    if k < N then s[k]
    else step(Recurrence(s, k - N + M, step), Recurrence(s, k - N, step), Recurrence(s, k - N + 1, step))
  }

  /** The next N words of the recurrence. */
  function NextWords<T>(s: seq<T>, step: (T, T, T) -> T): (r: seq<T>)
    requires |s| == N
    ensures |r| == N
    ensures forall j :: 0 <= j < N ==> r[j] == Recurrence(s, N + j, step)
  {
    seq(N, j requires 0 <= j < N => Recurrence(s, N + j, step))
  }

  /** The state after one `twist`, the reference the in-place loop is proved against. */
  function TwistedState(s: seq<bv32>): seq<bv32>
    requires |s| == N
  {
    NextWords(s, Combine)
  }

  /** Word N - 1 of the next words reads the already computed word 0, and each word
      i >= N - M reads the already computed word i + M - N. */
  lemma {:induction false} TwistReadsUpdated<T>(s: seq<T>, i: nat, step: (T, T, T) -> T)
    requires |s| == N && N - M <= i < N
    ensures NextWords(s, step)[i]
         == step(NextWords(s, step)[i + M - N], s[i], if i == N - 1 then NextWords(s, step)[0] else s[i + 1])
  {
    var t := NextWords(s, step);
    var j := i + M - N;
    assert t[i] == Recurrence(s, N + i, step);
    assert Recurrence(s, i, step) == s[i];
    assert N + j == i + M;
    assert t[j] == Recurrence(s, N + j, step);
    if i < N - 1 {
      assert Recurrence(s, i + 1, step) == s[i + 1];
    } else {
      assert t[0] == Recurrence(s, N + 0, step);
      assert N + 0 == i + 1;
    }
  }

  // ------------------------------------------------------------------ output

  /** The four tempering steps of `next_unit`, in order. */
  function TemperShift11(y: bv32): bv32 { y ^ (y >> 11) }
  function TemperShift7(y: bv32): bv32 { y ^ ((y << 7) & TEMPER_B) }
  function TemperShift15(y: bv32): bv32 { y ^ ((y << 15) & TEMPER_C) }
  function TemperShift18(y: bv32): bv32 { y ^ (y >> 18) }

  /** The tempering transform of `next_unit`. */
  function Temper(y: bv32): bv32
  {
    TemperShift18(TemperShift15(TemperShift7(TemperShift11(y))))
  }

  /** `Q64::from_bits(y as i64)`: the u32 zero-extended, so the value lies in [0, 1). */
  function UnitOf(y: bv32): (r: Q64)
    ensures 0 <= r.raw < ONE.raw
    ensures r.raw == y as int
  {
    Q64(y as int)
  }

  // ------------------------------------------------------------- generator

  class QRng {
    var state: array<bv32>
    /** A `u32` in the source; it never exceeds N. */
    var index: nat

    predicate Valid()
      reads this
    {
      state.Length == N && index <= N
    }

    /** `from_seed`: word 0 is the seed, each later word follows `SeedStep` from the one
        before, and the index is N so that the first `next_unit` twists. */
    constructor FromSeed(seed: bv32)
      ensures Valid() && fresh(state)
      ensures index == N
      ensures state[0] == seed
      ensures forall i :: 1 <= i < N ==> state[i] == SeedStep(state[i - 1], AsU32(i))
    {
      var words := new bv32[N](_ => 0);
      words[0] := seed;
      for i := 1 to N
        invariant words[0] == seed
        invariant forall j :: 1 <= j < i ==> words[j] == SeedStep(words[j - 1], AsU32(j))
      {
        words[i] := SeedStep(words[i - 1], AsU32(i));
      }
      state := words;
      index := N;
    }

    /** `twist`: rewrites the words in ascending order, in place, so that later words
        read earlier rewritten ones; the result is the next N words of the MT19937
        recurrence, and the index returns to 0. */
    method Twist()
      requires Valid()
      modifies this, state
      ensures Valid() && state == old(state)
      ensures state[..] == TwistedState(old(state[..]))
      ensures index == 0
    {
      ghost var s0 := state[..];
      for i := 0 to N
        invariant Valid() && state == old(state)
        invariant forall j :: 0 <= j < i ==> state[j] == Recurrence(s0, N + j, Combine)
        invariant forall j :: i <= j < N ==> state[j] == s0[j]
      {
        TwistStep(s0, state[..], i, Combine);
        TwistWord(i);
      }
      assert state[..] == TwistedState(s0);
      index := 0;
    }

    /** One pass of the loop of `twist`: word i becomes the word M ahead xored with
        `Mix` of word i and the word after it (indices modulo N); no other word changes. */
    method TwistWord(i: nat)
      requires Valid() && i < N
      modifies state
      ensures state[i] == Combine(old(state[(i + M) % N]), old(state[i]), old(state[(i + 1) % N]))
      ensures forall j :: 0 <= j < N && j != i ==> state[j] == old(state[j])
    {
      state[i] := Combine(state[(i + M) % N], state[i], state[(i + 1) % N]);
    }

    /** `next_unit`: twists when the words are used up, tempers the word at the index,
        advances the index by one, and returns the tempered word as a value in [0, 1). */
    method NextUnit() returns (r: Q64)
      requires Valid()
      modifies this, state
      ensures Valid() && state == old(state)
      ensures 0 <= r.raw < ONE.raw
      ensures old(index) < N ==> state[..] == old(state[..]) && index == old(index) + 1
      ensures old(index) >= N ==> state[..] == TwistedState(old(state[..])) && index == 1
      ensures r == UnitOf(Temper(state[index - 1]))
    {
      if index >= N {
        Twist();
      }
      var y := state[index];
      y := TemperShift11(y);
      y := TemperShift7(y);
      y := TemperShift15(y);
      y := TemperShift18(y);
      index := index + 1;
      r := UnitOf(y);
    }
  }

  /** The values the in-place loop of `twist` reads at step i: its own word and the next
      are still the recurrence's words i and i + 1 (word 0 already rewritten as word N
      when i = N - 1), and the middle word is the recurrence's word i + M, rewritten or
      not; the new word is then word N + i. */
  lemma TwistStep<T>(s0: seq<T>, cur: seq<T>, i: nat, step: (T, T, T) -> T)
    requires |s0| == N && |cur| == N && i < N
    requires forall j :: 0 <= j < i ==> cur[j] == Recurrence(s0, N + j, step)
    requires forall j :: i <= j < N ==> cur[j] == s0[j]
    ensures cur[i] == Recurrence(s0, i, step)
    ensures cur[(i + 1) % N] == Recurrence(s0, i + 1, step)
    ensures cur[(i + M) % N] == Recurrence(s0, i + M, step)
    ensures Recurrence(s0, N + i, step) == step(cur[(i + M) % N], cur[i], cur[(i + 1) % N])
  {
    TwistIndices(i);
    var next := (i + 1) % N;
    var middle := (i + M) % N;
    if i + 1 < N {
      assert cur[next] == s0[i + 1] == Recurrence(s0, i + 1, step);
    } else {
      assert cur[next] == Recurrence(s0, N + 0, step);
    }
    if i + M < N {
      assert cur[middle] == s0[i + M] == Recurrence(s0, i + M, step);
    } else {
      var j := i + M - N;
      assert cur[middle] == Recurrence(s0, N + j, step);
    }
  }

  /** Where `(i + 1) % N` and `(i + M) % N` fall. */
  lemma TwistIndices(i: nat)
    requires i < N
    ensures (i + 1) % N == if i + 1 < N then i + 1 else 0
    ensures (i + M) % N == if i + M < N then i + M else i + M - N
  {
  }
}
