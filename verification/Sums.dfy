/** Sums and counts, and the interchange laws the scoring proofs rest on. */
module Sums {
  import opened Prelude

  ghost function Sum<T>(xs: seq<T>, f: T -> int): int {
    if xs == [] then 0 else Sum(xs[..|xs| - 1], f) + f(xs[|xs| - 1])
  }

  /** How often `x` occurs in `xs`. */
  ghost function Count<T>(xs: seq<T>, x: T): (n: nat)
    ensures x !in xs ==> n == 0
  {
    if xs == [] then 0 else Count(xs[..|xs| - 1], x) + if xs[|xs| - 1] == x then 1 else 0
  }

  lemma SumSnoc<T>(xs: seq<T>, x: T, f: T -> int)
    ensures Sum(xs + [x], f) == Sum(xs, f) + f(x)
  {
    assert (xs + [x])[..|xs|] == xs;
  }

  lemma CountSnoc<T>(xs: seq<T>, x: T, y: T)
    ensures Count(xs + [x], y) == Count(xs, y) + if x == y then 1 else 0
  {
    assert (xs + [x])[..|xs|] == xs;
  }

  lemma {:induction false} SumAppend<T>(xs: seq<T>, ys: seq<T>, f: T -> int)
    ensures Sum(xs + ys, f) == Sum(xs, f) + Sum(ys, f)
  {
    if ys == [] {
      assert xs + ys == xs;
    } else {
      SumAppend(xs, ys[..|ys| - 1], f);
      assert (xs + ys)[..|xs + ys| - 1] == xs + ys[..|ys| - 1];
    }
  }

  lemma {:induction false} SumPlus<T>(xs: seq<T>, f: T -> int, g: T -> int, h: T -> int)
    requires forall x :: x in xs ==> h(x) == f(x) + g(x)
    ensures Sum(xs, h) == Sum(xs, f) + Sum(xs, g)
  {
    if xs != [] {
      SumPlus(xs[..|xs| - 1], f, g, h);
    }
  }

  lemma {:induction false} SumZero<T>(xs: seq<T>, f: T -> int)
    requires forall x :: x in xs ==> f(x) == 0
    ensures Sum(xs, f) == 0
  {
    if xs != [] {
      SumZero(xs[..|xs| - 1], f);
    }
  }

  /** Removing one position from a sum. */
  lemma {:induction false} SumRemove<T>(xs: seq<T>, i: nat, f: T -> int)
    requires i < |xs|
    ensures Sum(xs, f) == Sum(xs[..i] + xs[i + 1..], f) + f(xs[i])
  {
    SumAppend(xs[..i], xs[i + 1..], f);
    SumSnoc(xs[..i], xs[i], f);
    SumAppend(xs[..i + 1], xs[i + 1..], f);
    assert xs[..i] + [xs[i]] == xs[..i + 1];
    assert xs[..i + 1] + xs[i + 1..] == xs;
  }

  lemma EnumerationExists<T(!new)>(s: set<T>)
    ensures exists xs :: Enumerates(xs, s)
  {
    if s == {} {
      assert Enumerates([], s);
    } else {
      var x :| x in s;
      EnumerationExists(s - {x});
      var xs :| Enumerates(xs, s - {x});
      assert Enumerates(xs + [x], s);
    }
  }

  /** The sum over a finite set. */
  ghost function SumOver<T(!new)>(s: set<T>, f: T -> int): int {
    EnumerationExists(s);
    var xs :| Enumerates(xs, s);
    Sum(xs, f)
  }

  /** Two listings of one set give one sum: map iteration order does not matter. */
  lemma {:induction false} SumOfEnumerations<T(!new)>(xs: seq<T>, ys: seq<T>, s: set<T>, f: T -> int)
    requires Enumerates(xs, s) && Enumerates(ys, s)
    ensures Sum(xs, f) == Sum(ys, f)
    decreases |xs|
  {
    if xs == [] {
      SumZero(ys, f);
    } else {
      var init, last := xs[..|xs| - 1], xs[|xs| - 1];
      assert last in s;
      var i :| 0 <= i < |ys| && ys[i] == last;
      EnumerationRemove(xs, |xs| - 1, s);
      assert init + xs[|xs|..] == init;
      EnumerationRemove(ys, i, s);
      SumRemove(ys, i, f);
      SumOfEnumerations(init, ys[..i] + ys[i + 1..], s - {last}, f);
    }
  }

  lemma EnumerationRemove<T(!new)>(xs: seq<T>, i: nat, s: set<T>)
    requires Enumerates(xs, s) && i < |xs|
    ensures Enumerates(xs[..i] + xs[i + 1..], s - {xs[i]})
  {
    var ys := xs[..i] + xs[i + 1..];
    forall x
      ensures x in ys <==> x in s - {xs[i]}
    {
      if x in s && x != xs[i] {
        var k :| 0 <= k < |xs| && xs[k] == x;
        assert ys[if k < i then k else k - 1] == x;
      }
    }
  }

  lemma SumOverIs<T(!new)>(xs: seq<T>, s: set<T>, f: T -> int)
    requires Enumerates(xs, s)
    ensures SumOver(s, f) == Sum(xs, f)
  {
    EnumerationExists(s);
    var ys :| Enumerates(ys, s) && SumOver(s, f) == Sum(ys, f);
    SumOfEnumerations(xs, ys, s, f);
  }

  /** Summing the counts of a list over players who include all its members gives its length. */
  lemma {:induction false} CountsTotal<T>(players: seq<T>, xs: seq<T>, count: T -> int)
    requires forall i, j :: 0 <= i < j < |players| ==> players[i] != players[j]
    requires forall x :: x in xs ==> x in players
    requires forall p :: p in players ==> count(p) == Count(xs, p)
    ensures Sum(players, count) == |xs|
    decreases |xs|
  {
    if xs == [] {
      SumZero(players, count);
    } else {
      var init, last := xs[..|xs| - 1], xs[|xs| - 1];
      var before := p => Count(init, p);
      var hit := p => if last == p then 1 else 0;
      CountsTotal(players, init, before);
      SumPlus(players, before, hit, count);
      SumIndicator(players, last, hit);
    }
  }

  lemma {:induction false} SumIndicator<T>(players: seq<T>, x: T, hit: T -> int)
    requires forall i, j :: 0 <= i < j < |players| ==> players[i] != players[j]
    requires forall p :: p in players ==> hit(p) == if x == p then 1 else 0
    ensures Sum(players, hit) == if x in players then 1 else 0
  {
    if players != [] {
      SumIndicator(players[..|players| - 1], x, hit);
    }
  }

  lemma {:induction false} SumScale<T>(xs: seq<T>, f: T -> int, g: T -> int, c: int)
    requires forall x :: x in xs ==> g(x) == c * f(x)
    ensures Sum(xs, g) == c * Sum(xs, f)
  {
    if xs != [] {
      SumScale(xs[..|xs| - 1], f, g, c);
    }
  }
}
