/** The collecting primitives: one item per player (drawings), and one item per player and
    drawing (fakes, votes). Each counts what is still missing to decide when to advance. */
module Collectors {
  import opened Prelude
  import opened Game
  import opened Conservation

  // ----- one item per player -----

  ghost function EligibleSet(players: Players, eligible: PlayerID -> bool): set<PlayerID> {
    set p | p in players && players[p].connected && eligible(p)
  }

  class CollectAll<R> {
    var items: map<PlayerID, R>

    constructor ()
      ensures items == map[]
    {
      items := map[];
    }

    method EligibleCount(players: Players, eligible: PlayerID -> bool) returns (n: nat)
      ensures n == |EligibleSet(players, eligible)|
    {
      n := 0;
      var ids := AnyOrder(players.Keys);
      ghost var counted: set<PlayerID> := {};
      for i := 0 to |ids|
        invariant n == |counted|
        invariant counted == set p | p in ids[..i] && players[p].connected && eligible(p)
      {
        assert ids[..i + 1] == ids[..i] + [ids[i]];
        assert ids[i] !in ids[..i];
        if players[ids[i]].connected && eligible(ids[i]) {
          n := n + 1;
          counted := counted + {ids[i]};
        }
      }
      assert ids[..|ids|] == ids;
      assert counted == EligibleSet(players, eligible);
    }

    /** With nobody to wait for, the phase is over at once. */
    method Start(players: Players, eligible: PlayerID -> bool) returns (advance: bool)
      ensures advance <==> EligibleSet(players, eligible) == {}
    {
      var n := EligibleCount(players, eligible);
      advance := n == 0;
    }

    method Handle(players: Players, eligible: PlayerID -> bool, pid: PlayerID, decoded: Result<R>)
      returns (r: Result<bool>)
      modifies this
      ensures r.Err? <==> !eligible(pid) || pid in old(items) || decoded.Err?
      ensures r.Err? ==> items == old(items)
      ensures r.Ok? ==> items == old(items)[pid := decoded.value]
      ensures r.Ok? ==> (r.value <==> |items| >= |EligibleSet(players, eligible)|)
    {
      if !eligible(pid) {
        return Err("not eligible");
      }
      if pid in items {
        return Err("already submitted");
      }
      if decoded.Err? {
        return Err(decoded.message);
      }
      items := items[pid := decoded.value];
      var n := EligibleCount(players, eligible);
      return Ok(|items| >= n);
    }
  }

  lemma SubsetOfSameSize<T>(a: set<T>, b: set<T>)
    requires a <= b && |a| == |b|
    ensures a == b
  {
    assert |b - a| == 0;
  }

  /** While every submitter is still connected and eligible, the collector advances exactly
      when all eligible players have submitted. */
  lemma AdvanceIsExactWithoutDepartures(submitted: set<PlayerID>, eligible: set<PlayerID>)
    requires submitted <= eligible
    ensures |submitted| >= |eligible| <==> submitted == eligible
  {
    SubsetSize(submitted, eligible);
    if |submitted| >= |eligible| {
      SubsetOfSameSize(submitted, eligible);
    }
  }

  /** The count includes the items of players who have since left, so the phase can end under
      a connected player who has not submitted: exactly when the leavers outnumber the surplus. */
  lemma AdvanceSkipsSomeoneIff(submitted: set<PlayerID>, eligible: set<PlayerID>)
    requires |submitted| >= |eligible|
    ensures !(eligible <= submitted) <==> |submitted - eligible| > |submitted| - |eligible|
  {
    assert submitted == (submitted - eligible) + submitted * eligible;
    if eligible <= submitted {
      assert submitted * eligible == eligible;
    }
    SubsetSize(submitted * eligible, eligible);
    if |submitted * eligible| == |eligible| {
      SubsetOfSameSize(submitted * eligible, eligible);
    }
  }

  // ----- one item per player and drawing -----

  type Collected<T> = map<PlayerID, map<DrawingID, T>>

  ghost predicate Owed(players: Players, drawings: Drawings, p: PlayerID, a: PlayerID) {
    Connected(players, p) && a in drawings && drawings[a].author != p
  }

  ghost predicate Has<T>(got: Collected<T>, p: PlayerID, id: DrawingID) {
    p in got && id in got[p]
  }

  /** Something is owed, and every connected player has an item for every drawing of others. */
  ghost predicate Complete<T>(players: Players, drawings: Drawings, got: Collected<T>) {
    && (exists p, a :: Owed(players, drawings, p, a))
    && (forall p, a :: Owed(players, drawings, p, a) ==> Has(got, p, drawings[a].id))
  }

  /** The nested counting loop of both collectors. */
  method AllSubmitted<T>(players: Players, drawings: Drawings, got: Collected<T>) returns (done: bool)
    ensures done <==> Complete(players, drawings, got)
  {
    var required, have := 0, 0;
    var pids := AnyOrder(players.Keys);
    var authors := AnyOrder(drawings.Keys);
    for i := 0 to |pids|
      invariant 0 <= have <= required
      invariant required > 0 <==> exists p, a :: p in pids[..i] && Owed(players, drawings, p, a)
      invariant have == required <==>
                forall p, a :: p in pids[..i] && Owed(players, drawings, p, a) ==> Has(got, p, drawings[a].id)
    {
      var pid := pids[i];
      assert pids[..i + 1] == pids[..i] + [pid];
      if !players[pid].connected {
        continue;
      }
      var r, h := CountFor(drawings, got, pid, authors);
      assert forall a :: Owed(players, drawings, pid, a) <==> a in drawings && drawings[a].author != pid;
      required, have := required + r, have + h;
    }
    assert pids[..|pids|] == pids;
    assert forall p, a :: Owed(players, drawings, p, a) ==> p in pids;
    done := have >= required && required > 0;
  }

  method CountFor<T>(drawings: Drawings, got: Collected<T>, pid: PlayerID, authors: seq<PlayerID>)
    returns (required: nat, have: nat)
    requires Enumerates(authors, drawings.Keys)
    ensures have <= required
    ensures required > 0 <==> exists a :: a in drawings && drawings[a].author != pid
    ensures have == required <==>
            forall a :: a in drawings && drawings[a].author != pid ==> Has(got, pid, drawings[a].id)
  {
    required, have := 0, 0;
    for j := 0 to |authors|
      invariant have <= required
      invariant required > 0 <==> exists a :: a in authors[..j] && drawings[a].author != pid
      invariant have == required <==>
                forall a :: a in authors[..j] && drawings[a].author != pid ==> Has(got, pid, drawings[a].id)
    {
      var d := drawings[authors[j]];
      assert authors[..j + 1] == authors[..j] + [authors[j]];
      if d.author == pid {
        continue;
      }
      required := required + 1;
      if pid in got {
        if d.id in got[pid] {
          have := have + 1;
        }
      }
    }
    assert authors[..|authors|] == authors;
  }

  ghost function Submitters<T>(got: Collected<T>, id: DrawingID): set<PlayerID> {
    set p | p in got && id in got[p]
  }

  /** `list` holds the items for drawing `id`, one per submitter, in some order. */
  ghost predicate Lists<T>(list: seq<T>, got: Collected<T>, id: DrawingID, order: seq<PlayerID>) {
    && Enumerates(order, Submitters(got, id))
    && |list| == |order|
    && forall i :: 0 <= i < |order| ==> Has(got, order[i], id) && list[i] == got[order[i]][id]
  }

  ghost predicate Regrouped<T>(grouped: map<DrawingID, seq<T>>, got: Collected<T>) {
    && (forall id :: Submitters(got, id) != {} ==> id in grouped)
    && (forall id :: id in grouped ==> Submitters(got, id) != {} && exists order :: Lists(grouped[id], got, id, order))
  }

  /** Turning the per-player maps into per-drawing lists, in map iteration order. */
  method Regroup<T>(got: Collected<T>) returns (grouped: map<DrawingID, seq<T>>)
    ensures Regrouped(grouped, got)
  {
    grouped := map[];
    var pids := AnyOrder(got.Keys);
    ghost var seen: Collected<T> := map[];
    for i := 0 to |pids|
      invariant seen.Keys == set p | p in pids[..i]
      invariant forall p :: p in seen ==> p in got && seen[p] == got[p]
      invariant Regrouped(grouped, seen)
    {
      var pid := pids[i];
      assert pids[..i + 1] == pids[..i] + [pid];
      assert pid !in pids[..i];
      grouped := AppendAll(grouped, seen, pid, got[pid]);
      seen := seen[pid := got[pid]];
    }
    assert pids[..|pids|] == pids;
    assert seen.Keys == got.Keys;
    assert seen == got;
  }

  method AppendAll<T>(before: map<DrawingID, seq<T>>, ghost seen: Collected<T>, pid: PlayerID, m: map<DrawingID, T>)
    returns (grouped: map<DrawingID, seq<T>>)
    requires Regrouped(before, seen) && pid !in seen
    ensures Regrouped(grouped, seen[pid := m])
  {
    grouped := before;
    var dids := AnyOrder(m.Keys);
    ghost var part: map<DrawingID, T> := map[];
    NothingYet(before, seen, pid);
    for i := 0 to |dids|
      invariant part.Keys == set d | d in dids[..i]
      invariant forall d :: d in part ==> d in m && part[d] == m[d]
      invariant Regrouped(grouped, seen[pid := part])
    {
      var did := dids[i];
      assert dids[..i + 1] == dids[..i] + [did];
      assert did !in dids[..i];
      AppendOne(grouped, seen, pid, part, did, m[did]);
      grouped := grouped[did := ListAt(grouped, did) + [m[did]]];
      part := part[did := m[did]];
    }
    assert dids[..|dids|] == dids;
    assert part.Keys == m.Keys;
    assert part == m;
  }

  lemma NothingYet<T>(grouped: map<DrawingID, seq<T>>, seen: Collected<T>, pid: PlayerID)
    requires Regrouped(grouped, seen) && pid !in seen
    ensures Regrouped(grouped, seen[pid := map[]])
  {
    var more := seen[pid := map[]];
    forall id
      ensures Submitters(more, id) == Submitters(seen, id)
    {
    }
    forall id | id in grouped
      ensures exists order :: Lists(grouped[id], more, id, order)
    {
      var order :| Lists(grouped[id], seen, id, order);
      assert Lists(grouped[id], more, id, order);
    }
  }

  lemma AppendOne<T>(grouped: map<DrawingID, seq<T>>, seen: Collected<T>, pid: PlayerID, part: map<DrawingID, T>,
                     did: DrawingID, item: T)
    requires Regrouped(grouped, seen[pid := part]) && did !in part
    ensures Regrouped(grouped[did := ListAt(grouped, did) + [item]], seen[pid := part[did := item]])
  {
    var was, now := seen[pid := part], seen[pid := part[did := item]];
    var after := grouped[did := ListAt(grouped, did) + [item]];
    forall id
      ensures Submitters(now, id) == Submitters(was, id) + if id == did then {pid} else {}
    {
    }
    forall id | id in after
      ensures exists order :: Lists(after[id], now, id, order)
    {
      var order: seq<PlayerID> := [];
      if id in grouped {
        order :| Lists(grouped[id], was, id, order);
      }
      ListMore(ListAt(grouped, id), was, now, pid, id, did, item, order);
      assert Lists(after[id], now, id, if id == did then order + [pid] else order);
    }
  }

  lemma ListMore<T>(list: seq<T>, was: Collected<T>, now: Collected<T>, pid: PlayerID, id: DrawingID, did: DrawingID,
                    item: T, order: seq<PlayerID>)
    requires pid in was && did !in was[pid] && now == was[pid := was[pid][did := item]]
    requires Lists(list, was, id, order)
    ensures Lists(if id == did then list + [item] else list, now, id, if id == did then order + [pid] else order)
  {
    assert Submitters(now, id) == Submitters(was, id) + if id == did then {pid} else {};
    assert pid !in Submitters(was, did);
  }

  /** The drawing with a given id, found by scanning in map order. */
  method FindDrawing(drawings: Drawings, id: DrawingID) returns (found: Option<Drawing>)
    ensures found.Some? ==> exists a :: a in drawings && drawings[a] == found.value && found.value.id == id
    ensures found.None? ==> forall a :: a in drawings ==> drawings[a].id != id
  {
    var authors := AnyOrder(drawings.Keys);
    for i := 0 to |authors|
      invariant forall a :: a in authors[..i] ==> drawings[a].id != id
    {
      assert authors[..i + 1] == authors[..i] + [authors[i]];
      if drawings[authors[i]].id == id {
        return Some(drawings[authors[i]]);
      }
    }
    assert authors[..|authors|] == authors;
    return None;
  }
}
