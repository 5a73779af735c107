/**
 * Bitwise arithmetic on non-negative integers, as the mission format uses it:
 * `&` to test or mask, `|` to combine single-bit flags, and the shifts of the
 * composite fields. Everything is stated on `nat`, which is what the packed
 * fields are (each is declared `ge=0`).
 */
module Bits {

  /** 2 to the power k, i.e. `1 << k`. */
  function Pow2(k: nat): (r: nat)
    ensures r >= 1
  {
    if k == 0 then 1 else 2 * Pow2(k - 1)
  }

  /** Bit k of v is set. */
  predicate HasBit(v: nat, k: nat)
    decreases k
  {
    if k == 0 then v % 2 == 1 else HasBit(v / 2, k - 1)
  }

  /** `a | b` on non-negative integers. */
  function Or(a: nat, b: nat): nat
    decreases a + b
  {
    if a == 0 then b
    else if b == 0 then a
    else 2 * Or(a / 2, b / 2) + (if a % 2 == 1 || b % 2 == 1 then 1 else 0)
  }

  /** `a & b` on non-negative integers. */
  function And(a: nat, b: nat): nat
    decreases a + b
  {
    if a == 0 || b == 0 then 0
    else 2 * And(a / 2, b / 2) + (if a % 2 == 1 && b % 2 == 1 then 1 else 0)
  }

  lemma {:induction false} NoBitOfZero(k: nat)
    ensures !HasBit(0, k)
  {
    if k > 0 {
      NoBitOfZero(k - 1);
    }
  }

  /** A power of two has exactly one bit set. */
  lemma {:induction false} BitOfPow2(j: nat, k: nat)
    ensures HasBit(Pow2(j), k) <==> j == k
  {
    if j == 0 {
      if k > 0 {
        NoBitOfZero(k - 1);
      }
    } else if k > 0 {
      BitOfPow2(j - 1, k - 1);
    }
  }

  /** A bit of `a | b` is set exactly when it is set in `a` or in `b`. */
  lemma {:induction false} BitOfOr(a: nat, b: nat, k: nat)
    ensures HasBit(Or(a, b), k) <==> HasBit(a, k) || HasBit(b, k)
    decreases k
  {
    if a == 0 || b == 0 {
      NoBitOfZero(k);
    } else {
      var low := if a % 2 == 1 || b % 2 == 1 then 1 else 0;
      var o := Or(a, b);
      assert o == 2 * Or(a / 2, b / 2) + low;
      assert o % 2 == low && o / 2 == Or(a / 2, b / 2);
      if k > 0 {
        BitOfOr(a / 2, b / 2, k - 1);
      }
    }
  }

  /** Masking with a single bit keeps that bit and nothing else: `v & (1 << k)`. */
  lemma {:induction false} AndSingleBit(v: nat, k: nat)
    ensures And(v, Pow2(k)) == if HasBit(v, k) then Pow2(k) else 0
    decreases k
  {
    if v == 0 {
      NoBitOfZero(k);
    } else if k > 0 {
      AndSingleBit(v / 2, k - 1);
    }
  }

  /** `a | b` is `a + b` when `a` and `b` share no bit. */
  lemma {:induction false} OrOfDisjoint(a: nat, b: nat)
    requires And(a, b) == 0
    ensures Or(a, b) == a + b
    decreases a + b
  {
    if a != 0 && b != 0 {
      OrOfDisjoint(a / 2, b / 2);
    }
  }

  lemma DivModUnique(n: int, d: int, q: int, r: int)
    requires d > 0 && 0 <= r < d && n == d * q + r
    ensures n / d == q && n % d == r
  {
    var q', r' := n / d, n % d;
    assert d * (q - q') == r' - r;
    MulAtLeast(d, q - q');
    MulAtLeast(d, q' - q);
  }

  /** A positive multiple of d is at least d. */
  lemma {:induction false} MulAtLeast(d: int, x: int)
    requires d > 0
    ensures x >= 1 ==> d * x >= d
    decreases if x < 0 then 0 else x
  {
    if x > 1 {
      MulAtLeast(d, x - 1);
      assert d * x == d * (x - 1) + d;
    }
  }

  /** Halving first and then dividing by p is dividing by 2p. */
  lemma HalfThenDiv(v: nat, p: nat)
    requires p > 0
    ensures v / (2 * p) == (v / 2) / p
    ensures v % (2 * p) == 2 * ((v / 2) % p) + v % 2
  {
    var h, b := v / 2, v % 2;
    var q, s := h / p, h % p;
    assert h == p * q + s;
    assert v == (2 * p) * q + (2 * s + b);
    DivModUnique(v, 2 * p, q, 2 * s + b);
  }

  /** Bit k is the k-th binary digit: `(v >> k) & 1`. */
  lemma {:induction false} BitIsDivMod(v: nat, k: nat)
    ensures HasBit(v, k) <==> (v / Pow2(k)) % 2 == 1
    decreases k
  {
    if k > 0 {
      BitIsDivMod(v / 2, k - 1);
      HalfThenDiv(v, Pow2(k - 1));
    }
  }

  /** The n low binary digits of v, read as a number. */
  function LowBits(v: nat, n: nat): nat {
    if n == 0 then 0 else 2 * LowBits(v / 2, n - 1) + v % 2
  }

  /** Masking with n one-bits keeps the n low digits: `v & ((1 << n) - 1)`. */
  lemma {:induction false} AndLowOnes(v: nat, n: nat)
    ensures And(v, Pow2(n) - 1) == LowBits(v, n)
    decreases n
  {
    if n > 0 {
      var p := Pow2(n - 1);
      var m := 2 * p - 1;
      assert Pow2(n) - 1 == m;
      assert m / 2 == p - 1 && m % 2 == 1;
      AndLowOnes(v / 2, n - 1);
      if v > 0 {
        assert And(v, m) == 2 * And(v / 2, p - 1) + v % 2;
      }
    }
  }

  /** The n low digits of v are its remainder modulo 2^n. */
  lemma {:induction false} LowBitsAreMod(v: nat, n: nat)
    ensures LowBits(v, n) == v % Pow2(n)
    decreases n
  {
    if n > 0 {
      LowBitsAreMod(v / 2, n - 1);
      HalfThenDiv(v, Pow2(n - 1));
    }
  }

  /** Masking with the n low bits is taking the remainder: `v & ((1 << n) - 1) == v % (1 << n)`. */
  lemma AndLowMask(v: nat, n: nat)
    ensures And(v, Pow2(n) - 1) == v % Pow2(n)
  {
    AndLowOnes(v, n);
    LowBitsAreMod(v, n);
  }

  lemma {:induction false} Pow2Monotone(n: nat, k: nat)
    requires n <= k
    ensures Pow2(n) <= Pow2(k)
    decreases k
  {
    if n < k {
      Pow2Monotone(n, k - 1);
    }
  }

  /** Two distinct single bits share nothing: `(1 << j) & (1 << k) == 0`. */
  lemma AndOfDistinctBits(j: nat, k: nat)
    requires j != k
    ensures And(Pow2(j), Pow2(k)) == 0
  {
    AndSingleBit(Pow2(j), k);
    BitOfPow2(j, k);
  }

  /** A bit at or above n is outside the low mask: `((1 << n) - 1) & (1 << k) == 0` for k >= n. */
  lemma AndOfMaskAndHigherBit(n: nat, k: nat)
    requires n <= k
    ensures And(Pow2(n) - 1, Pow2(k)) == 0
  {
    var x := Pow2(n) - 1;
    Pow2Monotone(n, k);
    DivModUnique(x, Pow2(k), 0, x);
    BitIsDivMod(x, k);
    AndSingleBit(x, k);
  }

  /** A positive number has some bit set. */
  lemma {:induction false} SomeBitSet(v: nat)
    requires v > 0
    ensures exists k: nat :: HasBit(v, k)
  {
    if v % 2 == 0 {
      SomeBitSet(v / 2);
      var k: nat :| HasBit(v / 2, k);
      assert HasBit(v, k + 1);
    } else {
      assert HasBit(v, 0);
    }
  }

  /** Numbers with the same bits are equal. */
  lemma {:induction false} BitsExtensional(a: nat, b: nat)
    requires forall k: nat :: HasBit(a, k) <==> HasBit(b, k)
    ensures a == b
    decreases a + b
  {
    if a != 0 || b != 0 {
      assert HasBit(a, 0) <==> HasBit(b, 0);
      forall j: nat
        ensures HasBit(a / 2, j) <==> HasBit(b / 2, j)
      {
        assert HasBit(a, j + 1) <==> HasBit(b, j + 1);
      }
      BitsExtensional(a / 2, b / 2);
    }
  }

  /** v has no bit at or above n. */
  ghost predicate BitsBelow(v: nat, n: nat)
  {
    forall k: nat :: HasBit(v, k) ==> k < n
  }

  lemma BitsBelowOfHalf(v: nat, n: nat)
    requires n > 0
    ensures BitsBelow(v, n) <==> BitsBelow(v / 2, n - 1)
  {
    if BitsBelow(v / 2, n - 1) {
      forall k: nat | HasBit(v, k)
        ensures k < n
      {
        if k > 0 {
          assert HasBit(v / 2, k - 1);
        }
      }
    }
    if BitsBelow(v, n) {
      forall j: nat | HasBit(v / 2, j)
        ensures j < n - 1
      {
        assert HasBit(v, j + 1);
      }
    }
  }

  /** v is below 2^n exactly when it has no bit at or above n. */
  lemma {:induction false} BelowPow2(v: nat, n: nat)
    ensures v < Pow2(n) <==> BitsBelow(v, n)
    decreases n
  {
    if n == 0 {
      if v == 0 {
        forall k: nat
          ensures !HasBit(v, k)
        {
          NoBitOfZero(k);
        }
      } else {
        SomeBitSet(v);
      }
    } else {
      BelowPow2(v / 2, n - 1);
      BitsBelowOfHalf(v, n);
    }
  }

  // ---- Sets of single-bit flags -------------------------------------------------

  /** The flags of `fs`, OR-ed together; `bit` gives each flag's bit position. */
  function Combine<T>(fs: seq<T>, bit: T -> nat): nat
  {
    if fs == [] then 0 else Or(Combine(fs[1..], bit), Pow2(bit(fs[0])))
  }

  /** The sum of the values of the flags of `fs`. */
  function SumOfFlags<T>(fs: seq<T>, bit: T -> nat): nat
  {
    if fs == [] then 0 else Pow2(bit(fs[0])) + SumOfFlags(fs[1..], bit)
  }

  /** No two flags share a bit. */
  ghost predicate Injective<T(!new)>(bit: T -> nat)
  {
    forall f, g :: bit(f) == bit(g) ==> f == g
  }

  ghost predicate NoDuplicates<T>(fs: seq<T>)
  {
    forall i, j :: 0 <= i < j < |fs| ==> fs[i] != fs[j]
  }

  /** A bit of the combination is set exactly when some flag of `fs` has that bit. */
  lemma {:induction false} BitOfCombine<T>(fs: seq<T>, bit: T -> nat, k: nat)
    ensures HasBit(Combine(fs, bit), k) <==> exists i :: 0 <= i < |fs| && bit(fs[i]) == k
  {
    if fs == [] {
      NoBitOfZero(k);
    } else {
      BitOfCombine(fs[1..], bit, k);
      BitOfOr(Combine(fs[1..], bit), Pow2(bit(fs[0])), k);
      BitOfPow2(bit(fs[0]), k);
      if exists i :: 0 <= i < |fs| && bit(fs[i]) == k {
        var i :| 0 <= i < |fs| && bit(fs[i]) == k;
        if i > 0 {
          assert bit(fs[1..][i - 1]) == k;
        }
      }
      if exists i :: 0 <= i < |fs[1..]| && bit(fs[1..][i]) == k {
        var i :| 0 <= i < |fs[1..]| && bit(fs[1..][i]) == k;
        assert bit(fs[i + 1]) == k;
      }
    }
  }

  /** Each flag is recoverable from the combination: `(Combine(fs) & flag) != 0` iff the flag is in `fs`. */
  lemma FlagOfCombine<T(!new)>(fs: seq<T>, bit: T -> nat, g: T)
    requires Injective(bit)
    ensures And(Combine(fs, bit), Pow2(bit(g))) != 0 <==> g in fs
  {
    BitOfCombine(fs, bit, bit(g));
    AndSingleBit(Combine(fs, bit), bit(g));
    if g in fs {
      var i :| 0 <= i < |fs| && fs[i] == g;
      assert bit(fs[i]) == bit(g);
    }
  }

  /** OR-ing distinct single-bit flags is adding them. */
  lemma {:induction false} CombineIsSum<T(!new)>(fs: seq<T>, bit: T -> nat)
    requires Injective(bit) && NoDuplicates(fs)
    ensures Combine(fs, bit) == SumOfFlags(fs, bit)
  {
    if fs != [] {
      var rest := fs[1..];
      CombineIsSum(rest, bit);
      BitOfCombine(rest, bit, bit(fs[0]));
      forall i | 0 <= i < |rest|
        ensures bit(rest[i]) != bit(fs[0])
      {
        assert rest[i] == fs[i + 1];
      }
      AndSingleBit(Combine(rest, bit), bit(fs[0]));
      OrOfDisjoint(Combine(rest, bit), Pow2(bit(fs[0])));
    }
  }

  /** The flags among `all` whose bit is set in v: the flag set a stored value denotes. */
  function FlagSet<T>(v: nat, all: seq<T>, bit: T -> nat): set<T> {
    set f | f in all && And(v, Pow2(bit(f))) != 0
  }

  /** Decoding the combination of `fs` gives back exactly the flags of `fs`. */
  lemma FlagSetOfCombine<T(!new)>(fs: seq<T>, all: seq<T>, bit: T -> nat)
    requires Injective(bit)
    requires forall f :: f in all
    ensures FlagSet(Combine(fs, bit), all, bit) == set f | f in fs
  {
    forall g | g in all
      ensures And(Combine(fs, bit), Pow2(bit(g))) != 0 <==> g in fs
    {
      FlagOfCombine(fs, bit, g);
    }
  }

  /** The members of `all` whose bit is set in v, in the order of `all`: a value decoded to a list of flags. */
  function Members<T>(v: nat, all: seq<T>, bit: T -> nat): seq<T>
  {
    if all == [] then []
    else (if HasBit(v, bit(all[0])) then [all[0]] else []) + Members(v, all[1..], bit)
  }

  lemma {:induction false} InMembers<T>(v: nat, all: seq<T>, bit: T -> nat, f: T)
    ensures f in Members(v, all, bit) <==> f in all && HasBit(v, bit(f))
  {
    if all != [] {
      InMembers(v, all[1..], bit, f);
      assert f in all <==> f == all[0] || f in all[1..];
    }
  }

  /** Every set bit of v is the bit of some member of `all`. */
  ghost predicate OnlyFlagBits<T>(v: nat, all: seq<T>, bit: T -> nat)
  {
    forall k: nat :: HasBit(v, k) ==> exists f :: f in all && bit(f) == k
  }

  /** The list of decoded flags denotes the same flags as the decoded set. */
  lemma FlagSetOfMembers<T(!new)>(v: nat, all: seq<T>, bit: T -> nat)
    ensures (set f | f in Members(v, all, bit)) == FlagSet(v, all, bit)
  {
    var ms, fs := Members(v, all, bit), FlagSet(v, all, bit);
    forall f
      ensures f in ms <==> f in fs
    {
      InMembers(v, all, bit, f);
      AndSingleBit(v, bit(f));
    }
  }

  /** Re-encoding the decoded flags gives v back exactly when v holds nothing but flag bits. */
  lemma CombineOfMembers<T>(v: nat, all: seq<T>, bit: T -> nat)
    ensures Combine(Members(v, all, bit), bit) == v <==> OnlyFlagBits(v, all, bit)
  {
    var ms := Members(v, all, bit);
    var c := Combine(ms, bit);
    forall k: nat
      ensures HasBit(c, k) <==> HasBit(v, k) && exists f :: f in all && bit(f) == k
    {
      BitOfCombine(ms, bit, k);
      if HasBit(c, k) {
        var i :| 0 <= i < |ms| && bit(ms[i]) == k;
        InMembers(v, all, bit, ms[i]);
      }
      if HasBit(v, k) && exists f :: f in all && bit(f) == k {
        var f :| f in all && bit(f) == k;
        InMembers(v, all, bit, f);
        var i :| 0 <= i < |ms| && ms[i] == f;
      }
    }
    if OnlyFlagBits(v, all, bit) {
      BitsExtensional(c, v);
    }
  }
}
