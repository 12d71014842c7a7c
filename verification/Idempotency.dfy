/** The per-connection cache of recently seen message ids: a fixed ring of 128 slots,
    overwritten in place, proved to refine a look-back over an unbounded log. */
module Idempotency {

  const RING_SIZE: nat := 128

  /** Sixty seconds, in nanoseconds. */
  const RING_TTL: int := 60_000_000_000

  /** One acceptance: the id and the time it was recorded. */
  datatype Entry = Entry(id: string, at: int)

  /** `e` answers for `id` at time `now`. The empty id marks an unused slot, so it never does. */
  ghost predicate Live(e: Entry, id: string, now: int) {
    e.id == id && id != "" && now - e.at <= RING_TTL
  }

  /** Look back over the last 128 entries. */
  ghost predicate InWindow(log: seq<Entry>, id: string, now: int) {
    exists i :: |log| - RING_SIZE <= i < |log| && 0 <= i && Live(log[i], id, now)
  }

  /** The ideal filter: look back over everything ever accepted. */
  ghost predicate InHistory(log: seq<Entry>, id: string, now: int) {
    exists i :: 0 <= i < |log| && Live(log[i], id, now)
  }

  /** Every entry was fresh, by the ring's own test, when it was accepted. */
  ghost predicate Accepted(log: seq<Entry>) {
    forall j :: 0 <= j < |log| ==> !InWindow(log[..j], log[j].id, log[j].at)
  }

  ghost predicate MonotoneClock(log: seq<Entry>) {
    forall i, j :: 0 <= i <= j < |log| ==> log[i].at <= log[j].at
  }

  /** The log position held by slot `k` once `n` entries have been accepted (if `k < n`). */
  function Latest(k: nat, n: nat): (i: int)
    requires k < RING_SIZE
  {
    if k < n % RING_SIZE then n - n % RING_SIZE + k else n - n % RING_SIZE - RING_SIZE + k
  }

  lemma LatestInWindow(k: nat, n: nat)
    requires k < RING_SIZE
    ensures n - RING_SIZE <= Latest(k, n) < n
    ensures 0 <= Latest(k, n) <==> k < n
  {
  }

  lemma LatestCoversWindow(i: nat, n: nat)
    requires n - RING_SIZE <= i < n
    ensures Latest(i % RING_SIZE, n) == i
  {
  }

  /** Accepting entry number `n` changes what slot `n % 128` stands for, and nothing else. */
  lemma LatestStep(k: nat, n: nat)
    requires k < RING_SIZE
    ensures Latest(k, n + 1) == if k == n % RING_SIZE then n else Latest(k, n)
  {
  }

  ghost predicate SlotHolds(id: string, at: int, k: nat, log: seq<Entry>)
    requires k < RING_SIZE
  {
    if k < |log| then
      (LatestInWindow(k, |log|); Entry(id, at) == log[Latest(k, |log|)])
    else id == ""
  }

  /** The slots of the ring hold exactly the last 128 entries of the log. */
  ghost predicate Holds(ids: seq<string>, ts: seq<int>, log: seq<Entry>) {
    && |ids| == |ts| == RING_SIZE
    && forall k :: 0 <= k < RING_SIZE ==> SlotHolds(ids[k], ts[k], k, log)
  }

  class Ring {
    const ids: array<string>
    const ts: array<int>
    var pos: nat
    ghost var log: seq<Entry>

    ghost predicate Valid()
      reads this, ids, ts
    {
      && Holds(ids[..], ts[..], log)
      && pos == |log| % RING_SIZE
      && Accepted(log)
    }

    constructor ()
      ensures Valid() && fresh(ids) && fresh(ts) && log == []
    {
      ids := new string[RING_SIZE](_ => "");
      ts := new int[RING_SIZE](_ => 0);
      pos := 0;
      log := [];
    }

    method Seen(id: string, now: int) returns (dup: bool)
      requires Valid()
      modifies this, ids, ts
      ensures Valid()
      ensures dup == InWindow(old(log), id, now)
      ensures dup <==> id != "" && exists i :: 0 <= i < |old(log)| && |old(log)| - 128 <= i
                                             && old(log)[i].id == id && now - old(log)[i].at <= 60_000_000_000
      ensures log == if dup then old(log) else old(log) + [Entry(id, now)]
    {
      var k := 0;
      while k < RING_SIZE
        invariant k <= RING_SIZE == ids.Length == ts.Length
        invariant forall m :: 0 <= m < k ==> !Live(Entry(ids[m], ts[m]), id, now)
      {
        if ids[k] != "" && now - ts[k] <= RING_TTL && ids[k] == id {
          SlotAnswers(ids[..], ts[..], log, k, id, now);
          return true;
        }
        k := k + 1;
      }
      NoSlotAnswers(ids[..], ts[..], log, id, now);
      AcceptedSnoc(log, Entry(id, now));
      Overwrite(ids[..], ts[..], log, Entry(id, now));
      ids[pos] := id;
      ts[pos] := now;
      assert ids[..] == old(ids[..])[pos := id] && ts[..] == old(ts[..])[pos := now];
      pos := (pos + 1) % RING_SIZE;
      log := log + [Entry(id, now)];
      return false;
    }
  }

  lemma SlotAnswers(ids: seq<string>, ts: seq<int>, log: seq<Entry>, k: nat, id: string, now: int)
    requires Holds(ids, ts, log)
    requires k < RING_SIZE && Live(Entry(ids[k], ts[k]), id, now)
    ensures InWindow(log, id, now)
  {
    LatestInWindow(k, |log|);
    assert SlotHolds(ids[k], ts[k], k, log);
    assert Live(log[Latest(k, |log|)], id, now);
  }

  lemma NoSlotAnswers(ids: seq<string>, ts: seq<int>, log: seq<Entry>, id: string, now: int)
    requires Holds(ids, ts, log)
    requires forall k :: 0 <= k < RING_SIZE ==> !Live(Entry(ids[k], ts[k]), id, now)
    ensures !InWindow(log, id, now)
  {
    forall i | |log| - RING_SIZE <= i < |log| && 0 <= i
      ensures !Live(log[i], id, now)
    {
      var k := i % RING_SIZE;
      LatestCoversWindow(i, |log|);
      LatestInWindow(k, |log|);
      assert SlotHolds(ids[k], ts[k], k, log);
    }
  }

  /** Writing slot `|log| % 128` keeps the ring in step with the longer log. */
  lemma Overwrite(ids: seq<string>, ts: seq<int>, log: seq<Entry>, e: Entry)
    requires Holds(ids, ts, log)
    ensures var pos := |log| % RING_SIZE;
            Holds(ids[pos := e.id], ts[pos := e.at], log + [e])
  {
    var pos := |log| % RING_SIZE;
    var ids', ts' := ids[pos := e.id], ts[pos := e.at];
    forall k | 0 <= k < RING_SIZE
      ensures SlotHolds(ids'[k], ts'[k], k, log + [e])
    {
      assert SlotHolds(ids[k], ts[k], k, log);
      LatestStep(k, |log|);
      LatestInWindow(k, |log|);
    }
  }

  lemma AcceptedSnoc(log: seq<Entry>, e: Entry)
    requires Accepted(log) && !InWindow(log, e.id, e.at)
    ensures Accepted(log + [e])
  {
    forall j | 0 <= j < |log| + 1
      ensures !InWindow((log + [e])[..j], (log + [e])[j].id, (log + [e])[j].at)
    {
      assert (log + [e])[..j] == log[..j];
      assert log[..|log|] == log;
    }
  }

  /** Two acceptances of one id within the TTL have at least 128 acceptances between them. */
  lemma RepeatsAreFarApart(log: seq<Entry>, i: nat, j: nat)
    requires Accepted(log) && i < j < |log|
    requires log[i].id == log[j].id != "" && log[j].at - log[i].at <= 60_000_000_000
    ensures j - i - 1 >= 128
  {
    var before := log[..j];
    assert !InWindow(before, log[j].id, log[j].at);
    assert Live(before[i], log[j].id, log[j].at);
  }

  /** Under a monotone clock the acceptances between two such repeats are pairwise distinct
      in every stretch of 128 of them. */
  lemma StretchIsDistinct(log: seq<Entry>, lo: nat, hi: nat, a: nat, b: nat)
    requires Accepted(log) && MonotoneClock(log)
    requires lo <= a < b < hi <= |log| && hi - lo <= 129
    requires log[hi - 1].at - log[lo].at <= 60_000_000_000
    requires log[a].id != ""
    ensures log[a].id != log[b].id
  {
    if log[a].id == log[b].id {
      RepeatsAreFarApart(log, a, b);
    }
  }

  /** Exactly when forgetting is harmless: the ring gives the ideal answer for every id
      if and only if the youngest forgotten entry has already expired. */
  lemma RingIsIdealIff(log: seq<Entry>, now: int)
    requires Accepted(log) && MonotoneClock(log)
    requires forall i :: 0 <= i < |log| ==> log[i].id != "" && log[i].at <= now
    ensures (forall id :: InWindow(log, id, now) <==> InHistory(log, id, now))
       <==> (|log| <= 128 || now - log[|log| - 129].at > 60_000_000_000)
  {
    var edge := |log| - RING_SIZE - 1;
    if edge < 0 || now - log[edge].at > RING_TTL {
      forall id | InHistory(log, id, now)
        ensures InWindow(log, id, now)
      {
        var i :| 0 <= i < |log| && Live(log[i], id, now);
      }
    } else {
      var id := log[edge].id;
      assert Live(log[edge], id, now);
      if InWindow(log, id, now) {
        var i :| |log| - RING_SIZE <= i < |log| && 0 <= i && Live(log[i], id, now);
        RepeatsAreFarApart(log, edge, i);
      }
      assert InHistory(log, id, now) && !InWindow(log, id, now);
    }
  }
}
