/** Text comparison, as the game does it on ASCII: trimming, lowering, folding, and the
    order on ids. */
module Text {

  /** The characters below U+0100 that Go's TrimSpace removes. */
  predicate IsSpace(c: char) {
    '\t' <= c <= '\r' || c == ' ' || c == '\U{85}' || c == '\U{a0}'
  }

  function Lower(c: char): char {
    if 'A' <= c <= 'Z' then (c as int + 32) as char else c
  }

  function ToLower(s: string): (r: string)
    ensures |r| == |s|
  {
    seq(|s|, i requires 0 <= i < |s| => Lower(s[i]))
  }

  function TrimSpace(s: string): (r: string)
    ensures |r| <= |s|
  {
    if s != [] && IsSpace(s[0]) then TrimSpace(s[1..])
    else if s != [] && IsSpace(s[|s| - 1]) then TrimSpace(s[..|s| - 1])
    else s
  }

  lemma {:induction false} TrimIsIdempotent(s: string)
    ensures TrimSpace(TrimSpace(s)) == TrimSpace(s)
    decreases |s|
  {
    if s != [] && IsSpace(s[0]) {
      TrimIsIdempotent(s[1..]);
    } else if s != [] && IsSpace(s[|s| - 1]) {
      TrimIsIdempotent(s[..|s| - 1]);
    }
  }

  predicate AllSpace(s: string) {
    forall k :: 0 <= k < |s| ==> IsSpace(s[k])
  }

  /** Trimming takes off all the space at both ends, and nothing else. */
  lemma {:induction false} TrimmedInFull(s: string) returns (front: string, back: string)
    ensures s == front + TrimSpace(s) + back && AllSpace(front) && AllSpace(back)
    ensures TrimSpace(s) != [] ==> !IsSpace(TrimSpace(s)[0]) && !IsSpace(TrimSpace(s)[|TrimSpace(s)| - 1])
    decreases |s|
  {
    front, back := [], [];
    if s != [] && IsSpace(s[0]) {
      front, back := TrimmedInFull(s[1..]);
      front := [s[0]] + front;
    } else if s != [] && IsSpace(s[|s| - 1]) {
      front, back := TrimmedInFull(s[..|s| - 1]);
      back := back + [s[|s| - 1]];
    }
  }

  /** What counts as space. */
  lemma SpacesListed(c: char)
    ensures IsSpace(c) <==> c in {'\t', '\n', '\U{b}', '\U{c}', '\r', ' ', '\U{85}', '\U{a0}'}
  {
    assert '\t' as int == 9 && '\r' as int == 13;
  }

  /** Lowering maps each capital letter to its small one and leaves all else. */
  lemma LowerLetters(i: nat, c: char)
    ensures i < 26 ==> Lower("ABCDEFGHIJKLMNOPQRSTUVWXYZ"[i]) == "abcdefghijklmnopqrstuvwxyz"[i]
    ensures c < 'A' || c > 'Z' ==> Lower(c) == c
  {
  }

  /** The key under which fakes are merged. */
  function Normalize(s: string): string {
    ToLower(TrimSpace(s))
  }

  /** Case-insensitive comparison, character by character, as strings.EqualFold. */
  predicate EqualFold(a: string, b: string) {
    && |a| == |b|
    && forall i :: 0 <= i < |a| ==> a[i] == b[i] || Lower(a[i]) == Lower(b[i])
  }

  /** The gate that rejects a fake equal to the prompt and the key of the collision merge
      are two different computations; they draw the same line. */
  lemma GateMatchesMerge(a: string, b: string)
    ensures EqualFold(TrimSpace(a), TrimSpace(b)) <==> Normalize(a) == Normalize(b)
  {
    var x, y := TrimSpace(a), TrimSpace(b);
    if ToLower(x) == ToLower(y) {
      forall i | 0 <= i < |x|
        ensures Lower(x[i]) == Lower(y[i])
      {
        assert ToLower(x)[i] == ToLower(y)[i];
      }
    }
  }

  // ----- the order on ids -----

  /** Byte-wise lexicographic order, as Go compares strings. */
  predicate Le(a: string, b: string) {
    a == [] || (b != [] && (a[0] < b[0] || (a[0] == b[0] && Le(a[1..], b[1..]))))
  }

  /** ... : one is a prefix of the other, or the first difference decides. */
  lemma {:induction false} LeIsLexicographic(a: string, b: string)
    ensures Le(a, b) <==> a <= b || exists k :: 0 <= k < |a| && k < |b| && a[..k] == b[..k] && a[k] < b[k]
  {
    if a != [] && b != [] {
      var c, d := a[1..], b[1..];
      if a[0] == b[0] {
        LeIsLexicographic(c, d);
        assert a == [a[0]] + c && b == [b[0]] + d;
        LongerDifference(a, b);
      } else {
        assert a[..0] == b[..0];
      }
    }
  }

  lemma LongerDifference(a: string, b: string)
    requires a != [] && b != [] && a[0] == b[0]
    ensures (exists k :: 0 <= k < |a| && k < |b| && a[..k] == b[..k] && a[k] < b[k]) <==>
            var c, d := a[1..], b[1..]; exists k :: 0 <= k < |c| && k < |d| && c[..k] == d[..k] && c[k] < d[k]
  {
    var c, d := a[1..], b[1..];
    if k :| 0 <= k < |a| && k < |b| && a[..k] == b[..k] && a[k] < b[k] {
      assert k > 0 && c[..k - 1] == a[..k][1..] && d[..k - 1] == b[..k][1..] && c[k - 1] < d[k - 1];
    }
    if k :| 0 <= k < |c| && k < |d| && c[..k] == d[..k] && c[k] < d[k] {
      assert a[..k + 1] == [a[0]] + c[..k] && b[..k + 1] == [b[0]] + d[..k] && a[k + 1] < b[k + 1];
    }
  }

  lemma {:induction false} LeTotal(a: string, b: string)
    ensures Le(a, b) || Le(b, a)
  {
    if a != [] && b != [] && a[0] == b[0] {
      LeTotal(a[1..], b[1..]);
    }
  }

  lemma {:induction false} LeTransitive(a: string, b: string, c: string)
    requires Le(a, b) && Le(b, c)
    ensures Le(a, c)
  {
    if a != [] && a[0] == b[0] == c[0] {
      LeTransitive(a[1..], b[1..], c[1..]);
    }
  }
}
