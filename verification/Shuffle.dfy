/** The client's ballot shuffle: a string hash seeding a linear congruential generator
    that drives an in-place Fisher-Yates. */
module Shuffle {

  const TWO32: nat := 0x1_0000_0000
  const TWO53: nat := 0x20_0000_0000_0000

  /** The non-negative integers a JavaScript number holds exactly. Every intermediate
      below is given this type, so the verifier checks that none is ever rounded. */
  type Safe = x: nat | x < TWO53

  /** A UTF-16 code unit. */
  type Unit = x: nat | x < 0x1_0000

  /** `x >>> 0` for an exact non-negative `x`. */
  function ToUint32(x: Safe): (r: Safe)
    ensures r < TWO32
  {
    x % TWO32
  }

  function HashStep(seed: Safe, unit: Unit): (r: Safe)
    requires seed < TWO32
    ensures r < TWO32
  {
    var sum: Safe := seed * 31 + unit;
    ToUint32(sum)
  }

  function LcgStep(seed: Safe): (r: Safe)
    requires seed < TWO32
    ensures r < TWO32
  {
    var product: Safe := seed * 1664525;
    var sum: Safe := product + 1013904223;
    ToUint32(sum)
  }

  ghost function Hash(units: seq<Unit>): (h: Safe)
    ensures h < TWO32
  {
    if units == [] then 0 else HashStep(Hash(units[..|units| - 1]), units[|units| - 1])
  }

  ghost function Swap<T>(s: seq<T>, i: nat, j: nat): (r: seq<T>)
    requires i < |s| && j < |s|
    ensures |r| == |s|
  {
    s[i := s[j]][j := s[i]]
  }

  /** Fisher-Yates from position `i` down, starting at generator state `seed`. */
  ghost function Shuffled<T>(s: seq<T>, i: nat, seed: Safe): (r: seq<T>)
    requires i < |s| || i == 0
    requires seed < TWO32
    ensures |r| == |s|
    decreases i
  {
    if i == 0 then s
    else
      var next := LcgStep(seed);
      Shuffled(Swap(s, i, next % (i + 1)), i - 1, next)
  }

  function Last(n: nat): nat {
    if n == 0 then 0 else n - 1
  }

  /** Drawing without replacement, as the reference: the generator picks one of the pool for the
      last place, the pool's last element takes the gap, and so on with what is left. */
  ghost function Drawn<T>(pool: seq<T>, seed: nat): (r: seq<T>)
    ensures |r| == |pool|
    decreases |pool|
  {
    if |pool| < 2 then pool
    else
      var next := (1664525 * seed + 1013904223) % 4294967296;
      var at, last := next % |pool|, |pool| - 1;
      Drawn(pool[at := pool[last]][..last], next) + [pool[at]]
  }

  /** The position that the first step of the generator picks among `n`. */
  ghost function FirstPick(n: nat, seed: nat): (at: nat)
    requires n > 0
    ensures at < n
  {
    ((1664525 * seed + 1013904223) % 4294967296) % n
  }

  method ShuffleStable<T>(arr: array<T>, seedStr: seq<Unit>) returns (out: array<T>)
    ensures fresh(out)
    ensures out[..] == Shuffled(arr[..], Last(arr.Length), Hash(seedStr))
    ensures out[..] == Drawn(arr[..], Hash(seedStr))
    ensures arr.Length > 1 ==> out[arr.Length - 1] == arr[FirstPick(arr.Length, Hash(seedStr))]
    ensures multiset(out[..]) == multiset(arr[..])
  {
    out := new T[arr.Length](i requires 0 <= i < arr.Length reads arr => arr[i]);
    assert out[..] == arr[..];
    var seed: Safe := 0;
    for i := 0 to |seedStr|
      invariant seed < TWO32
      invariant seed == Hash(seedStr[..i])
    {
      assert seedStr[..i + 1][..i] == seedStr[..i];
      seed := HashStep(seed, seedStr[i]);
    }
    assert seedStr[..|seedStr|] == seedStr;
    ghost var goal := Shuffled(arr[..], Last(arr.Length), seed);
    var i := out.Length - 1;
    while i > 0
      invariant -1 <= i < out.Length
      invariant out.Length == arr.Length && arr[..] == old(arr[..]) && fresh(out)
      invariant seed < TWO32
      invariant Shuffled(out[..], if i < 0 then 0 else i, seed) == goal
      invariant out.Length > 0 ==> i >= 0
    {
      ghost var before := out[..];
      seed := LcgStep(seed);
      var j := seed % (i + 1);
      var tmp := out[i];
      out[i] := out[j];
      out[j] := tmp;
      assert out[..] == Swap(before, i, j);
      i := i - 1;
    }
    ShuffledIsPermutation(arr[..], Last(arr.Length), Hash(seedStr));
    ShuffleDraws(arr[..], Hash(seedStr));
    if arr.Length > 1 {
      LastIsFirstPick(arr[..], Hash(seedStr));
    }
  }

  /** The hash of the seed string: 31 times what came before, plus the next code unit, in 32 bits. */
  lemma HashSteps(units: seq<Unit>, unit: Unit)
    ensures Hash([]) == 0
    ensures Hash(units + [unit]) == (31 * Hash(units) + unit) % 4294967296
  {
    assert (units + [unit])[..|units|] == units;
  }

  /** A shuffle from position `i` down leaves everything above `i` alone. */
  lemma {:induction false} ShuffledBelow<T>(s: seq<T>, i: nat, seed: Safe)
    requires i < |s| && seed < TWO32
    ensures Shuffled(s, i, seed) == Shuffled(s[..i + 1], i, seed) + s[i + 1..]
    decreases i
  {
    if i > 0 {
      var next := LcgStep(seed);
      var j := next % (i + 1);
      var t, u := Swap(s, i, j), Swap(s[..i + 1], i, j);
      ShuffledBelow(t, i - 1, next);
      ShuffledBelow(u, i - 1, next);
      assert t[..i] == u[..i] && t[i..] == u[i..] + s[i + 1..];
    }
  }

  lemma LcgIsLinear(seed: Safe)
    requires seed < TWO32
    ensures LcgStep(seed) == (1664525 * seed + 1013904223) % 4294967296
  {
  }

  lemma SwapStep<T>(s: seq<T>, i: nat, j: nat, next: Safe)
    requires 0 < i < |s| && j <= i && next < TWO32
    ensures var r := Shuffled(Swap(s, i, j), i - 1, next);
            && r[i] == s[j] && r[i + 1..] == s[i + 1..]
            && r[..i] == Shuffled(s[j := s[i]][..i], i - 1, next)
  {
    var t := Swap(s, i, j);
    ShuffledBelow(t, i - 1, next);
    assert t[..i] == s[j := s[i]][..i] && t[i] == s[j] && t[i + 1..] == s[i + 1..];
  }

  /** One step of the shuffle: the next state of the generator says which element ends up in
      position `i`; nothing above moves; below, the shuffle goes on with the element that stood
      at `i` in the vacated place. */
  lemma ShuffleStep<T>(s: seq<T>, i: nat, seed: Safe)
    requires 0 < i < |s| && seed < TWO32
    ensures var next := (1664525 * seed + 1013904223) % 4294967296;
            var r, j := Shuffled(s, i, seed), next % (i + 1);
            && r[i] == s[j] && r[i + 1..] == s[i + 1..]
            && r[..i] == Shuffled(s[j := s[i]][..i], i - 1, next)
  {
    LcgIsLinear(seed);
    var next := LcgStep(seed);
    SwapStep(s, i, next % (i + 1), next);
  }

  lemma LastIsFirstPick<T>(s: seq<T>, seed: Safe)
    requires |s| > 1 && seed < TWO32
    ensures Shuffled(s, Last(|s|), seed)[|s| - 1] == s[FirstPick(|s|, seed)]
  {
    ShuffleStep(s, |s| - 1, seed);
  }

  /** The in-place shuffle is drawing without replacement. */
  lemma {:induction false} ShuffleDraws<T>(s: seq<T>, seed: Safe)
    requires seed < TWO32
    ensures Shuffled(s, Last(|s|), seed) == Drawn(s, seed)
    decreases |s|
  {
    if |s| > 1 {
      var last, next := |s| - 1, (1664525 * seed + 1013904223) % 4294967296;
      var at := next % |s|;
      ShuffleStep(s, last, seed);
      ShuffleDraws(s[at := s[last]][..last], next);
      var r := Shuffled(s, last, seed);
      assert r == r[..last] + [r[last]] + r[last + 1..];
    }
  }

  /** The order of three lines under the empty seed string. */
  lemma ThreeUnderEmptySeed()
    ensures Shuffled(["a", "b", "c"], 2, Hash([])) == ["c", "a", "b"]
  {
    ShuffleStep(["a", "b", "c"], 2, 0);
    var left := ["a", "b", "c"][1 := "c"][..2];
    assert left == ["a", "c"];
    ShuffleStep(left, 1, 1013904223);
  }

  lemma SwapIsPermutation<T>(s: seq<T>, i: nat, j: nat)
    requires i < |s| && j < |s|
    ensures multiset(Swap(s, i, j)) == multiset(s)
  {
  }

  lemma {:induction false} ShuffledIsPermutation<T>(s: seq<T>, i: nat, seed: Safe)
    requires i < |s| || i == 0
    requires seed < TWO32
    ensures multiset(Shuffled(s, i, seed)) == multiset(s)
    decreases i
  {
    if i > 0 {
      var next := LcgStep(seed);
      SwapIsPermutation(s, i, next % (i + 1));
      ShuffledIsPermutation(Swap(s, i, next % (i + 1)), i - 1, next);
    }
  }

  /** Reading `s` at the positions listed in `at`. */
  ghost function Pick<T>(s: seq<T>, at: seq<nat>): (r: seq<T>)
    requires forall k :: 0 <= k < |at| ==> at[k] < |s|
    ensures |r| == |at|
    ensures forall k :: 0 <= k < |at| ==> r[k] == s[at[k]]
  {
    seq(|at|, k requires 0 <= k < |at| => s[at[k]])
  }

  lemma {:induction false} ShuffledStaysInRange(at: seq<nat>, n: nat, i: nat, seed: Safe)
    requires forall k :: 0 <= k < |at| ==> at[k] < n
    requires i < |at| || i == 0
    requires seed < TWO32
    ensures forall k :: 0 <= k < |at| ==> Shuffled<nat>(at, i, seed)[k] < n
    decreases i
  {
    if i > 0 {
      var next := LcgStep(seed);
      ShuffledStaysInRange(Swap(at, i, next % (i + 1)), n, i - 1, next);
    }
  }

  /** The shuffle looks at positions only: one reordering of the indices, fixed by the
      length and the seed, is applied to whatever the array holds. */
  lemma {:induction false} ShuffleIsPositional<T>(s: seq<T>, at: seq<nat>, i: nat, seed: Safe)
    requires forall k :: 0 <= k < |at| ==> at[k] < |s|
    requires i < |at| || i == 0
    requires seed < TWO32
    ensures forall k :: 0 <= k < |at| ==> Shuffled<nat>(at, i, seed)[k] < |s|
    ensures Shuffled(Pick(s, at), i, seed) == Pick(s, Shuffled<nat>(at, i, seed))
    decreases i
  {
    if i > 0 {
      var next := LcgStep(seed);
      var j := next % (i + 1);
      assert Swap(Pick(s, at), i, j) == Pick(s, Swap(at, i, j));
      ShuffleIsPositional(s, Swap(at, i, j), i - 1, next);
      ShuffledStaysInRange(at, |s|, i, seed);
    }
  }
}
