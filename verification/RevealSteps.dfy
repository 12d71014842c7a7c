/** The leaderboard's reveal queue: which choice to grey out next, and when to show the
    points of a drawing. It repeats the scoring arithmetic drawing by drawing. */
module RevealSteps {
  import opened Prelude
  import opened Sums
  import opened Text
  import opened Game
  import opened Scores

  // ----- sorting -----

  ghost predicate SortedBy<T>(xs: seq<T>, key: T -> string) {
    forall i, j :: 0 <= i < j < |xs| ==> Le(key(xs[i]), key(xs[j]))
  }

  ghost predicate DistinctBy<T>(xs: seq<T>, key: T -> string) {
    forall i, j :: 0 <= i < j < |xs| ==> key(xs[i]) != key(xs[j])
  }

  ghost predicate IsInserted<T>(ys: seq<T>, xs: seq<T>, x: T) {
    exists i :: 0 <= i <= |xs| && ys == xs[..i] + [x] + xs[i..]
  }

  method InsertSorted<T>(xs: seq<T>, x: T, key: T -> string) returns (ys: seq<T>)
    requires SortedBy(xs, key)
    ensures SortedBy(ys, key)
    ensures IsInserted(ys, xs, x)
  {
    var i := |xs|;
    while i > 0 && !Le(key(xs[i - 1]), key(x))
      invariant 0 <= i <= |xs|
      invariant forall k :: i <= k < |xs| ==> Le(key(x), key(xs[k]))
    {
      LeTotal(key(xs[i - 1]), key(x));
      i := i - 1;
    }
    ys := xs[..i] + [x] + xs[i..];
    forall k | 0 <= k < i
      ensures Le(key(xs[k]), key(x))
    {
      if k < i - 1 {
        LeTransitive(key(xs[k]), key(xs[i - 1]), key(x));
      }
    }
  }

  lemma InsertKeeps<T>(xs: seq<T>, i: nat, x: T, key: T -> string)
    requires i <= |xs|
    ensures multiset(xs[..i] + [x] + xs[i..]) == multiset(xs + [x])
    ensures DistinctBy(xs + [x], key) ==> DistinctBy(xs[..i] + [x] + xs[i..], key)
  {
    assert xs + [x] == xs[..i] + xs[i..] + [x];
    var ys := xs[..i] + [x] + xs[i..];
    if DistinctBy(xs + [x], key) {
      var from := (k: int) => if k < i then k else if k == i then |xs| else k - 1;
      forall a, b | 0 <= a < b < |ys|
        ensures key(ys[a]) != key(ys[b])
      {
        assert ys[a] == (xs + [x])[from(a)] && ys[b] == (xs + [x])[from(b)];
      }
    }
  }

  ghost predicate SameMembers<T>(xs: seq<T>, ys: seq<T>) {
    && (forall x :: x in xs ==> x in ys)
    && (forall y :: y in ys ==> y in xs)
  }

  lemma SameMultisetSameMembers<T>(xs: seq<T>, ys: seq<T>)
    requires multiset(xs) == multiset(ys)
    ensures SameMembers(xs, ys)
  {
    forall x | x in xs
      ensures x in ys
    {
      assert x in multiset(ys);
    }
    forall y | y in ys
      ensures y in xs
    {
      assert y in multiset(xs);
    }
  }

  /** sort.Slice: some arrangement of the elements in ascending key order. */
  method Sort<T>(xs: seq<T>, key: T -> string) returns (ys: seq<T>)
    ensures SortedBy(ys, key)
    ensures multiset(ys) == multiset(xs)
    ensures DistinctBy(xs, key) ==> DistinctBy(ys, key)
  {
    ys := [];
    for i := 0 to |xs|
      invariant SortedBy(ys, key) && multiset(ys) == multiset(xs[..i])
      invariant DistinctBy(xs, key) ==> DistinctBy(ys, key)
    {
      ghost var prev := ys;
      ys := InsertSorted(ys, xs[i], key);
      InsertedNext(prev, ys, xs, i, key);
    }
    assert xs[..|xs|] == xs;
  }

  lemma InsertedNext<T>(prev: seq<T>, ys: seq<T>, xs: seq<T>, i: nat, key: T -> string)
    requires i < |xs| && multiset(prev) == multiset(xs[..i]) && IsInserted(ys, prev, xs[i])
    ensures multiset(ys) == multiset(xs[..i + 1])
    ensures DistinctBy(xs, key) && DistinctBy(prev, key) ==> DistinctBy(ys, key)
  {
    var at :| 0 <= at <= |prev| && ys == prev[..at] + [xs[i]] + prev[at..];
    InsertKeeps(prev, at, xs[i], key);
    assert xs[..i + 1] == xs[..i] + [xs[i]];
    if DistinctBy(xs, key) && DistinctBy(prev, key) {
      NextIsDistinct(prev, xs, i, key);
    }
  }

  lemma NextIsDistinct<T>(prev: seq<T>, xs: seq<T>, i: nat, key: T -> string)
    requires i < |xs| && multiset(prev) == multiset(xs[..i])
    requires DistinctBy(xs, key) && DistinctBy(prev, key)
    ensures DistinctBy(prev + [xs[i]], key)
  {
    SameMultisetSameMembers(prev, xs[..i]);
    forall a | 0 <= a < |prev|
      ensures key(prev[a]) != key(xs[i])
    {
      assert prev[a] in xs[..i];
    }
  }

  // ----- what a queue must be -----

  ghost predicate UniqueFakeIds(dr: DrawingReveal) {
    forall i, j :: 0 <= i < j < |dr.choices| && !dr.choices[i].isTrue && !dr.choices[j].isTrue ==>
                     dr.choices[i].id != dr.choices[j].id
  }

  ghost predicate IsFakeOf(dr: DrawingReveal, id: string) {
    exists ch :: ch in dr.choices && !ch.isTrue && ch.id == id
  }

  /** Points listed award by award. */
  ghost function AwardSum(awards: seq<Award>, p: PlayerID): int {
    if awards == [] then 0
    else AwardSum(awards[..|awards| - 1], p) +
         if awards[|awards| - 1].player == p then awards[|awards| - 1].points else 0
  }

  /** What an award is for: the drawer is paid for all who found the truth, each of these for
      finding it, and each author of a fake an equal share of what it earned. */
  ghost predicate IsDue(a: Award, ch: Choice, drawer: PlayerID) {
    if ch.isTrue then
      || a == Award(drawer, 1000 * |ch.voters|, "drawer_truth")
      || (a.player in ch.voters && a == Award(a.player, 1000, "guesser_truth"))
    else
      a.player in ch.authors && |ch.authors| > 0 && a == Award(a.player, 500 * |ch.voters| / |ch.authors|, "faker_fool")
  }

  ghost predicate AreDue(awards: seq<Award>, choices: seq<Choice>, drawer: PlayerID) {
    forall a :: a in awards ==> exists ch :: ch in choices && IsDue(a, ch, drawer)
  }

  ghost predicate Pays(deltas: Deltas, awards: seq<Award>, choices: seq<Choice>, drawer: PlayerID) {
    && (forall p :: At(deltas, p) == AwardSum(awards, p) == ChoicesPoints(choices, drawer, p))
    && AreDue(awards, choices, drawer)
  }

  ghost predicate StepOk(s: Step, rr: Reveals) {
    && s.drawing in rr
    && match s
       case Eliminate(d, c) => IsFakeOf(rr[d], c)
       case Final(d, deltas, awards) => Pays(deltas, awards, rr[d].choices, rr[d].author)
  }

  predicate Below(a: string, b: string) {
    a != b && Le(a, b)
  }

  /** The order of the animation: by drawing, fakes in id order, then the truth. */
  ghost predicate StepLt(a: Step, b: Step) {
    || Below(a.drawing, b.drawing)
    || (a.drawing == b.drawing && a.Eliminate? && (b.Eliminate? ==> Below(a.choice, b.choice)))
  }

  /** `q` shows the drawings `done`: in strictly ascending order, it eliminates each fake
      once and finishes each drawing once, with the right points. */
  ghost predicate IsQueue(q: seq<Step>, done: set<DrawingID>, rr: Reveals) {
    && (forall i, j :: 0 <= i < j < |q| ==> StepLt(q[i], q[j]))
    && (forall s :: s in q ==> s.drawing in done && StepOk(s, rr))
    && (forall d :: d in done ==> exists s :: s in q && s.Final? && s.drawing == d)
    && (forall d, c :: d in done && d in rr && IsFakeOf(rr[d], c) ==> Eliminate(d, c) in q)
  }

  ghost predicate AllUnique(rr: Reveals) {
    forall d :: d in rr ==> UniqueFakeIds(rr[d])
  }

  // ----- building it -----

  method AwardEach(deltas0: Deltas, awards0: seq<Award>, who: seq<PlayerID>, points: int, reason: string)
    returns (deltas: Deltas, awards: seq<Award>)
    ensures forall p :: At(deltas, p) == At(deltas0, p) + points * Count(who, p)
    ensures forall p :: AwardSum(awards, p) == AwardSum(awards0, p) + points * Count(who, p)
    ensures forall a :: a in awards ==> a in awards0 || (a.player in who && a == Award(a.player, points, reason))
  {
    deltas, awards := deltas0, awards0;
    for i := 0 to |who|
      invariant forall a :: a in awards ==> a in awards0 || (a.player in who && a == Award(a.player, points, reason))
      invariant forall p :: At(deltas, p) == At(deltas0, p) + points * Count(who[..i], p)
      invariant forall p :: AwardSum(awards, p) == AwardSum(awards0, p) + points * Count(who[..i], p)
    {
      ghost var prev, prevAwards := deltas, awards;
      deltas := deltas[who[i] := At(deltas, who[i]) + points];
      awards := awards + [Award(who[i], points, reason)];
      forall p
        ensures At(deltas, p) == At(deltas0, p) + points * Count(who[..i + 1], p)
        ensures AwardSum(awards, p) == AwardSum(awards0, p) + points * Count(who[..i + 1], p)
      {
        assert who[..i + 1] == who[..i] + [who[i]];
        CountSnoc(who[..i], who[i], p);
        assert awards[..|prevAwards|] == prevAwards;
        assert At(deltas, p) == At(prev, p) + if p == who[i] then points else 0;
        Distribute(points, Count(who[..i], p), if p == who[i] then 1 else 0);
      }
    }
    assert who[..|who|] == who;
  }

  method AwardChoice(deltas0: Deltas, awards0: seq<Award>, ch: Choice, drawer: PlayerID)
    returns (deltas: Deltas, awards: seq<Award>)
    ensures forall p :: At(deltas, p) == At(deltas0, p) + ChoicePoints(ch, drawer, p)
    ensures forall p :: AwardSum(awards, p) == AwardSum(awards0, p) + ChoicePoints(ch, drawer, p)
    ensures forall a :: a in awards ==> a in awards0 || IsDue(a, ch, drawer)
  {
    deltas, awards := deltas0, awards0;
    if ch.isTrue {
      if |ch.voters| > 0 {
        var points := DRAWER_PER_CORRECT_VOTE * |ch.voters|;
        deltas := deltas[drawer := At(deltas, drawer) + points];
        awards := awards + [Award(drawer, points, "drawer_truth")];
        assert awards[..|awards0|] == awards0;
      }
      deltas, awards := AwardEach(deltas, awards, ch.voters, GUESSER_FOR_TRUE, "guesser_truth");
      return;
    }
    if |ch.authors| == 0 || |ch.voters| == 0 {
      return;
    }
    deltas, awards := AwardEach(deltas, awards, ch.authors, Share(ch), "faker_fool");
  }

  lemma MoreAreDue(before: seq<Award>, awards: seq<Award>, choices: seq<Choice>, ch: Choice, drawer: PlayerID)
    requires AreDue(before, choices, drawer) && forall a :: a in awards ==> a in before || IsDue(a, ch, drawer)
    ensures AreDue(awards, choices + [ch], drawer)
  {
    forall a | a in awards
      ensures exists c :: c in choices + [ch] && IsDue(a, c, drawer)
    {
      if a in before {
        var c :| c in choices && IsDue(a, c, drawer);
        assert c in choices + [ch];
      } else {
        assert ch in choices + [ch];
      }
    }
  }

  method AwardDrawing(dr: DrawingReveal) returns (deltas: Deltas, awards: seq<Award>)
    ensures Pays(deltas, awards, dr.choices, dr.author)
  {
    deltas, awards := map[], [];
    for j := 0 to |dr.choices|
      invariant Pays(deltas, awards, dr.choices[..j], dr.author)
    {
      assert dr.choices[..j + 1][..j] == dr.choices[..j];
      assert dr.choices[..j + 1] == dr.choices[..j] + [dr.choices[j]];
      ghost var before := awards;
      deltas, awards := AwardChoice(deltas, awards, dr.choices[j], dr.author);
      MoreAreDue(before, awards, dr.choices[..j], dr.choices[j], dr.author);
    }
    assert dr.choices[..|dr.choices|] == dr.choices;
  }

  /** The fakes of a drawing in id order. */
  method SortedFakes(dr: DrawingReveal) returns (fakes: seq<Choice>)
    ensures forall ch :: ch in fakes <==> ch in dr.choices && !ch.isTrue
    ensures UniqueFakeIds(dr) ==> forall i, j :: 0 <= i < j < |fakes| ==> Below(fakes[i].id, fakes[j].id)
  {
    var key := (ch: Choice) => ch.id;
    var listed := [];
    for j := 0 to |dr.choices|
      invariant forall ch :: ch in listed <==> ch in dr.choices[..j] && !ch.isTrue
      invariant UniqueFakeIds(dr) ==> DistinctBy(listed, key)
    {
      assert dr.choices[..j + 1] == dr.choices[..j] + [dr.choices[j]];
      if !dr.choices[j].isTrue {
        listed := listed + [dr.choices[j]];
      }
    }
    assert dr.choices[..|dr.choices|] == dr.choices;
    fakes := Sort(listed, key);
    SameMultisetSameMembers(fakes, listed);
    assert forall i :: 0 <= i < |fakes| ==> key(fakes[i]) == fakes[i].id;
  }

  // ----- what the queue pays -----

  ghost function StepDelta(s: Step, p: PlayerID): int {
    if s.Final? then At(s.deltas, p) else 0
  }

  ghost function StepAward(s: Step, p: PlayerID): int {
    if s.Final? then AwardSum(s.awards, p) else 0
  }

  /** Everything `p` is shown by the final steps of `q`. */
  ghost function FinalTotal(q: seq<Step>, p: PlayerID): int {
    if q == [] then 0 else FinalTotal(q[..|q| - 1], p) + StepDelta(q[|q| - 1], p)
  }

  ghost function AwardTotal(q: seq<Step>, p: PlayerID): int {
    if q == [] then 0 else AwardTotal(q[..|q| - 1], p) + StepAward(q[|q| - 1], p)
  }

  lemma {:induction false} TotalsAppend(q: seq<Step>, r: seq<Step>, p: PlayerID)
    ensures FinalTotal(q + r, p) == FinalTotal(q, p) + FinalTotal(r, p)
    ensures AwardTotal(q + r, p) == AwardTotal(q, p) + AwardTotal(r, p)
  {
    if r == [] {
      assert q + r == q;
    } else {
      assert (q + r)[..|q + r| - 1] == q + r[..|r| - 1];
      TotalsAppend(q, r[..|r| - 1], p);
    }
  }

  ghost predicate Shows(q: seq<Step>, rr: Reveals, ids: seq<DrawingID>) {
    forall p :: FinalTotal(q, p) == AwardTotal(q, p) == PointsOver(rr, ids, p)
  }

  lemma ShowsMore(q: seq<Step>, block: seq<Step>, rr: Reveals, ids: seq<DrawingID>, id: DrawingID)
    requires Shows(q, rr, ids) && Shows(block, rr, [id])
    ensures Shows(q + block, rr, ids + [id])
  {
    forall p
      ensures FinalTotal(q + block, p) == AwardTotal(q + block, p) == PointsOver(rr, ids + [id], p)
    {
      TotalsAppend(q, block, p);
      PointsOverSnoc(rr, ids, id, p);
      PointsOverSnoc(rr, [], id, p);
      assert [] + [id] == [id];
    }
  }

  lemma PointsOverSnoc(rr: Reveals, ids: seq<DrawingID>, id: DrawingID, p: PlayerID)
    ensures PointsOver(rr, ids + [id], p) == PointsOver(rr, ids, p) + PointsAt(rr, id, p)
  {
    SumSnoc(ids, id, d => PointsAt(rr, d, p));
  }

  /** The steps of one drawing: each fake in id order, then the points. */
  method DrawingSteps(rr: Reveals, id: DrawingID) returns (block: seq<Step>)
    requires id in rr
    ensures UniqueFakeIds(rr[id]) ==> IsQueue(block, {id}, rr)
    ensures Shows(block, rr, [id])
  {
    var dr := rr[id];
    var fakes := SortedFakes(dr);
    var deltas, awards := AwardDrawing(dr);
    block := [];
    for i := 0 to |fakes|
      invariant |block| == i && forall k :: 0 <= k < i ==> block[k] == Eliminate(id, fakes[k].id)
      invariant forall p :: FinalTotal(block, p) == AwardTotal(block, p) == 0
    {
      assert (block + [Eliminate(id, fakes[i].id)])[..i] == block;
      block := block + [Eliminate(id, fakes[i].id)];
    }
    var last := Final(id, deltas, awards);
    forall p
      ensures FinalTotal(block + [last], p) == AwardTotal(block + [last], p) == PointsOver(rr, [id], p)
    {
      assert (block + [last])[..|block|] == block;
      PointsOverSnoc(rr, [], id, p);
      assert [] + [id] == [id];
    }
    if UniqueFakeIds(dr) {
      BlockIsQueue(block, last, fakes, rr, id);
    }
    block := block + [last];
  }

  lemma BlockIsQueue(block: seq<Step>, last: Step, fakes: seq<Choice>, rr: Reveals, id: DrawingID)
    requires id in rr && last.Final? && last.drawing == id
    requires Pays(last.deltas, last.awards, rr[id].choices, rr[id].author)
    requires |block| == |fakes| && forall k :: 0 <= k < |fakes| ==> block[k] == Eliminate(id, fakes[k].id)
    requires forall ch :: ch in fakes <==> ch in rr[id].choices && !ch.isTrue
    requires forall i, j :: 0 <= i < j < |fakes| ==> Below(fakes[i].id, fakes[j].id)
    ensures IsQueue(block + [last], {id}, rr)
  {
    var q := block + [last];
    assert last in q;
    forall s | s in block
      ensures s.drawing == id && StepOk(s, rr)
    {
      var k :| 0 <= k < |block| && block[k] == s;
      assert fakes[k] in fakes;
    }
    forall c | IsFakeOf(rr[id], c)
      ensures Eliminate(id, c) in q
    {
      var ch :| ch in rr[id].choices && !ch.isTrue && ch.id == c;
      var k :| 0 <= k < |fakes| && fakes[k] == ch;
      assert q[k] == Eliminate(id, c);
    }
  }

  /** Putting a later drawing's steps behind a queue gives a queue. */
  lemma QueueAppend(q: seq<Step>, block: seq<Step>, done: set<DrawingID>, id: DrawingID, rr: Reveals)
    requires IsQueue(q, done, rr) && IsQueue(block, {id}, rr)
    requires forall d :: d in done ==> Below(d, id)
    ensures IsQueue(q + block, done + {id}, rr)
  {
    var r := q + block;
    forall i, j | 0 <= i < j < |r|
      ensures StepLt(r[i], r[j])
    {
      if i < |q| <= j {
        assert q[i] in q && block[j - |q|] in block;
      }
    }
  }

  function Members(ids: seq<DrawingID>): set<DrawingID> {
    set d | d in ids
  }

  /** The drawings of a round, in id order. */
  method DrawingOrder(rr: Reveals) returns (ids: seq<DrawingID>)
    ensures Enumerates(ids, rr.Keys)
    ensures forall i, d :: 0 <= i < |ids| && d in ids[..i] ==> Below(d, ids[i])
  {
    var listed := AnyOrder(rr.Keys);
    ids := Sort(listed, (d: DrawingID) => d);
    SameMultisetSameMembers(ids, listed);
    assert DistinctBy(listed, (d: DrawingID) => d);
  }

  /** The whole queue: drawings in id order. `None` stands for a missing reveal result. */
  method BuildRevealSteps(result: Option<Reveals>) returns (q: seq<Step>)
    ensures result.None? ==> q == []
    ensures result.Some? && AllUnique(result.value) ==> IsQueue(q, result.value.Keys, result.value)
    ensures result.Some? ==>
              forall p :: FinalTotal(q, p) == AwardTotal(q, p) == RoundPoints(result.value, p)
  {
    q := [];
    if result.None? {
      return;
    }
    var rr := result.value;
    var ids := DrawingOrder(rr);
    for i := 0 to |ids|
      invariant AllUnique(rr) ==> IsQueue(q, Members(ids[..i]), rr)
      invariant Shows(q, rr, ids[..i])
    {
      assert ids[..i + 1] == ids[..i] + [ids[i]];
      var block := DrawingSteps(rr, ids[i]);
      ShowsMore(q, block, rr, ids[..i], ids[i]);
      if AllUnique(rr) {
        QueueAppend(q, block, Members(ids[..i]), ids[i], rr);
        assert Members(ids[..i + 1]) == Members(ids[..i]) + {ids[i]};
      }
      q := q + block;
    }
    assert ids[..|ids|] == ids;
    assert Members(ids) == rr.Keys;
    forall p
      ensures RoundPoints(rr, p) == PointsOver(rr, ids, p)
    {
      RoundPointsAre(rr, ids, p);
    }
  }

  // ----- consequences -----

  /** No step occurs twice, and a drawing is finished once. */
  lemma QueueHasNoRepeats(q: seq<Step>, done: set<DrawingID>, rr: Reveals, i: nat, j: nat)
    requires IsQueue(q, done, rr) && i < j < |q|
    ensures q[i] != q[j]
    ensures q[i].Final? ==> q[i].drawing != q[j].drawing
  {
    assert StepLt(q[i], q[j]);
    if Below(q[i].drawing, q[j].drawing) && q[i].drawing == q[j].drawing {
      assert false;
    }
  }

  /** A non-empty queue ends by finishing a drawing. */
  lemma QueueEndsWithFinal(q: seq<Step>, done: set<DrawingID>, rr: Reveals)
    requires IsQueue(q, done, rr) && q != []
    ensures q[|q| - 1].Final?
  {
    var last := q[|q| - 1];
    assert last in q;
    var s :| s in q && s.Final? && s.drawing == last.drawing;
    NothingAfterFinal(s, last);
  }

  lemma NothingAfterFinal(s: Step, t: Step)
    requires s.Final? && s.drawing == t.drawing
    ensures !StepLt(s, t)
  {
  }

  /** The drawings finished by `q`, in order. */
  ghost function FinishedIn(q: seq<Step>): seq<DrawingID> {
    if q == [] then []
    else FinishedIn(q[..|q| - 1]) + if q[|q| - 1].Final? then [q[|q| - 1].drawing] else []
  }

  lemma {:induction false} FinishedMembers(q: seq<Step>, d: DrawingID)
    ensures d in FinishedIn(q) <==> exists s :: s in q && s.Final? && s.drawing == d
  {
    if q != [] {
      var init, last := q[..|q| - 1], q[|q| - 1];
      FinishedMembers(init, d);
      assert q == init + [last];
      assert forall s :: s in q <==> s in init || s == last;
    }
  }

  lemma {:induction false} FinishedOnce(q: seq<Step>, n: nat, rr: Reveals)
    requires IsQueue(q, rr.Keys, rr) && n <= |q|
    ensures forall i, j :: 0 <= i < j < |FinishedIn(q[..n])| ==> FinishedIn(q[..n])[i] != FinishedIn(q[..n])[j]
  {
    if n > 0 {
      FinishedOnce(q, n - 1, rr);
      var earlier := FinishedIn(q[..n - 1]);
      assert q[..n][..n - 1] == q[..n - 1];
      assert FinishedIn(q[..n]) == earlier + if q[n - 1].Final? then [q[n - 1].drawing] else [];
      if q[n - 1].Final? {
        forall i | 0 <= i < |earlier|
          ensures earlier[i] != q[n - 1].drawing
        {
          FinishedMembers(q[..n - 1], earlier[i]);
          var k :| 0 <= k < n - 1 && q[k].Final? && q[k].drawing == earlier[i];
          QueueHasNoRepeats(q, rr.Keys, rr, k, n - 1);
        }
      } else {
        assert FinishedIn(q[..n]) == earlier;
      }
    }
  }

  lemma {:induction false} TotalsAreOverFinished(q: seq<Step>, rr: Reveals, p: PlayerID)
    requires forall s :: s in q ==> StepOk(s, rr)
    ensures FinalTotal(q, p) == AwardTotal(q, p) == PointsOver(rr, FinishedIn(q), p)
  {
    if q != [] {
      var init, last := q[..|q| - 1], q[|q| - 1];
      TotalsAreOverFinished(init, rr, p);
      assert last in q && StepOk(last, rr);
      if last.Final? {
        PointsOverSnoc(rr, FinishedIn(init), last.drawing, p);
      } else {
        assert FinishedIn(q) == FinishedIn(init);
      }
    }
  }

  /** The two scorers agree, player by player: what any well-formed reveal queue shows, as
      deltas and as awards, is what the scoring phase computes. */
  lemma TwoScorersAgree(rr: Reveals, deltas: Deltas, q: seq<Step>, p: PlayerID)
    requires IsQueue(q, rr.Keys, rr) && IsRoundScore(rr, deltas)
    ensures At(deltas, p) == FinalTotal(q, p) == AwardTotal(q, p)
  {
    var ids := FinishedIn(q);
    assert q[..|q|] == q;
    FinishedOnce(q, |q|, rr);
    forall d
      ensures d in ids <==> d in rr.Keys
    {
      FinishedMembers(q, d);
    }
    TotalsAreOverFinished(q, rr, p);
    RoundPointsAre(rr, ids, p);
  }
}
