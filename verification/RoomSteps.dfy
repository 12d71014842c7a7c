/** What each message does to a room, as functions of the world, and what these keep. */
module RoomSteps {
  import opened Prelude
  import opened Game
  import opened RoundCollectors
  import opened Client
  import opened Records
  import opened RoomInvariants
  import P = Phases

  // ----- decisions that advance -----

  lemma RevealDecided(w: World, d: Decision, ds: seq<DrawingReveal>)
    requires Entered(w) && P.KindAt(w.s.phaseIdx) == P.Reveal
    requires d.result.Some? && Fits(w.s.phaseData, w.s.phaseIdx, d.result.value, w.issued)
    requires d.events == RevealEvents(ds) && AreReveals(ds, d.result.value.revealed)
    ensures Decided(w, d)
  {
    var v, i := ViewOf(w), w.s.phaseIdx;
    RevealEventsAppend(v, ds);
    var after := v.(revealed := v.revealed + ds);
    CollectedScoresNothing(w.s.scores, w.s.phaseData, i, d.result.value, w.issued);
    NowRevealing(v, after, ds, w.s.phaseData, i, d.result.value);
    NotLast(i, |w.s.phases|);
    assert after == ReduceAll(v, d.events);
    assert after.round == w.s.round && after.scores == w.s.scores;
    DecidedBy(w, d, after);
  }

  lemma NotLast(i: nat, n: nat)
    requires n % P.PHASES_PER_ROUND == 0 && i < n && P.KindAt(i) != P.Leaderboard
    ensures i + 1 < n
  {
  }

  lemma DecidedBy(w: World, d: Decision, after: View)
    requires Playing(w) && w.s.phaseIdx < |w.s.phases| && (w.s.phaseIdx + 1 == |w.s.phases| ==> Stopped(w.s))
    requires d.result.Some? && Fits(w.s.phaseData, w.s.phaseIdx, d.result.value, w.issued)
    requires LedgerPending(w.s.scores, w.s.phaseData, w.s.phaseIdx, d.result.value)
    requires after == ReduceAll(ViewOf(w), d.events) && after.round == w.s.round && after.scores == w.s.scores
    requires ViewReady(after, w.s.phaseData[KeyAt(w.s.phaseIdx) := d.result.value], w.s.phaseIdx + 1)
    ensures Decided(w, d)
  {
  }

  lemma NowRevealing(v: View, w: View, ds: seq<DrawingReveal>, data: PhaseData, i: nat, result: PhaseResult)
    requires P.KindAt(i) == P.Reveal && ViewReady(v, data, i) && result.RevealsResult?
    requires w == v.(revealed := v.revealed + ds) && AreReveals(ds, result.revealed)
    ensures ViewReady(w, data[KeyAt(i) := result], i + 1)
  {
    assert v.revealed + ds == ds;
    assert P.RoundAt(i + 1) == P.RoundAt(i) && P.KindAt(i + 1) == P.Scoring;
  }

  lemma ScoringDecided(w: World, d: Decision, after: Deltas)
    requires Entered(w) && P.KindAt(w.s.phaseIdx) == P.Scoring
    requires d.result.Some? && Fits(w.s.phaseData, w.s.phaseIdx, d.result.value, w.issued)
    requires d.events == [RoundResult(d.result.value.deltas, after)]
    requires forall p :: At(after, p) == At(w.s.scores, p) + At(d.result.value.deltas, p)
    ensures Decided(w.(s := w.s.(scores := after)), d)
  {
    var v, i, t := ViewOf(w), w.s.phaseIdx, w.(s := w.s.(scores := after));
    ReduceMore(v, [], d.events[0]);
    assert [] + d.events == d.events && ReduceAll(v, []) == v;
    NowScored(v, w.s.phaseData, i, d.result.value, after);
    PointsPending(w.s.scores, w.s.phaseData, i, d.result.value, after);
    NotLast(i, |w.s.phases|);
    DecidedBy(t, d, Reduce(v, d.events[0]));
  }

  lemma NowScored(v: View, data: PhaseData, i: nat, result: PhaseResult, after: Deltas)
    requires P.KindAt(i) == P.Scoring && ViewReady(v, data, i) && result.ScoresResult?
    ensures ViewReady(Reduce(v, RoundResult(result.deltas, after)), data[KeyAt(i) := result], i + 1)
  {
    assert P.RoundAt(i + 1) == P.RoundAt(i) && P.KindAt(i + 1) == P.Leaderboard;
  }

  lemma PointsPending(scores: Deltas, data: PhaseData, i: nat, result: PhaseResult, after: Deltas)
    requires LedgerOk(scores, data, i) && result.ScoresResult? && forall p :: At(result.deltas, p) >= 0
    requires forall p :: At(after, p) == At(scores, p) + At(result.deltas, p)
    ensures LedgerPending(after, data, i, result)
  {
    forall p
      ensures At(after, p) == Ledger(data, i, p) + Pending(result, p) && At(after, p) >= 0
    {
      assert At(scores, p) == Ledger(data, i, p);
    }
  }

  const DONE: Decision := Decision(true, [], Some(WaitResult))

  /** Leaving the leaderboard: the board may still be full, the next round clears it. */
  lemma LeaderboardDecided(w: World)
    requires Resting(w) && P.KindAt(w.s.phaseIdx) == P.Leaderboard && !w.s.paused
    ensures Decided(w, DONE)
  {
    var v, i := ViewOf(w), w.s.phaseIdx;
    assert ReduceAll(v, DONE.events) == v;
    CollectedScoresNothing(w.s.scores, w.s.phaseData, i, WaitResult, w.issued);
    LeaderboardHasNoClock(w.watch, w.s);
    NextRoundIsReady(v, w.s.phaseData[KeyAt(i) := WaitResult], i);
    DecidedBy(w, DONE, v);
  }

  lemma LeaderboardHasNoClock(watch: Watch, s: State)
    requires P.IsPlan(s.phases, s.settings) && s.phaseIdx < |s.phases| && P.KindAt(s.phaseIdx) == P.Leaderboard
    requires ClockOk(watch, s) && !s.paused
    ensures Stopped(s)
  {
    P.PlanFacts(s.phases, s.settings, s.phaseIdx);
  }

  lemma NextRoundIsReady(v: View, data: PhaseData, i: nat)
    requires P.KindAt(i) == P.Leaderboard
    ensures ViewReady(v, data, i + 1)
  {
    assert P.KindAt(i + 1) == P.PromptDistribute;
  }

  // ----- more ids -----

  lemma MoreIdsKeepEntered(w: World, more: set<string>)
    requires Entered(w) && w.issued <= more
    ensures Entered(w.(issued := more))
  {
    MoreIdsKeepData(w.s.phaseData, w.s.phaseIdx, w.issued, more);
  }

  lemma MoreIdsKeepGood(w: World, more: set<string>)
    requires Good(w) && w.issued <= more
    ensures Good(w.(issued := more))
  {
    MoreIdsKeepData(w.s.phaseData, w.s.phaseIdx, w.issued, more);
    MoreIdsKeepContents(w, more);
  }

  lemma MoreIdsKeepContents(w: World, more: set<string>)
    requires w.issued <= more
    ensures ContentsOk(w) ==> ContentsOk(w.(issued := more))
  {
  }

  // ----- state snapshots -----

  function Snapshot(s: State): Event {
    StateUpdate(ShownPhase(s), s.round, s.scores)
  }

  function BroadcastState(w: World): World {
    w.(sent := w.sent + [Snapshot(w.s)])
  }

  /** What the invariant asks of the view. */
  lemma SameViewKeepsGood(w: World, sent: seq<Event>)
    requires Good(w) && ReduceAll(Client.INITIAL, sent) == ViewOf(w)
    ensures Good(w.(sent := sent))
  {
    assert ContentsOk(w.(sent := sent)) == ContentsOk(w);
  }

  /** A snapshot never changes what an up-to-date client shows. */
  lemma SnapshotIsNoNews(w: World)
    requires Good(w)
    ensures ViewOf(BroadcastState(w)) == ViewOf(w) && Good(BroadcastState(w))
  {
    ReduceMore(Client.INITIAL, w.sent, Snapshot(w.s));
    SnapshotShowsNothingNew(w);
    SameViewKeepsGood(w, w.sent + [Snapshot(w.s)]);
  }

  lemma SnapshotShowsNothingNew(w: World)
    requires Good(w)
    ensures Reduce(ViewOf(w), Snapshot(w.s)) == ViewOf(w)
  {
  }

  // ----- seats -----

  /** `t` differs from `s` only in who sits where, and in the draw lock. */
  ghost predicate OnlySeats(s: State, t: State) {
    t == s.(players := t.players, conns := t.conns, joinOrder := t.joinOrder, leaderID := t.leaderID,
            pencilsDown := t.pencilsDown)
  }

  ghost predicate NobodyReady(players: Players) {
    forall p :: p in players ==> !players[p].ready
  }

  /** A change of seats leaves the rest of the invariant alone. */
  lemma SeatsKeepGood(w: World, t: State)
    requires Good(w) && OnlySeats(w.s, t) && SeatsOk(t.players, t.conns, t.joinOrder, t.leaderID)
    requires w.s.postGame ==> NobodyReady(t.players)
    ensures Good(w.(s := t))
  {
    if w.s.status == InGame {
      SeatsKeepResting(w, t);
    }
  }

  lemma SeatsKeepResting(w: World, t: State)
    requires Resting(w) && OnlySeats(w.s, t) && SeatsOk(t.players, t.conns, t.joinOrder, t.leaderID)
    ensures Resting(w.(s := t))
  {
    assert ContentsOk(w.(s := t)) == ContentsOk(w);
    assert ClockOk(w.watch, t) == ClockOk(w.watch, w.s);
  }

  /** A player whose token is still good is back, under their old id. */
  function Reconnected(s: State, pid: PlayerID, name: string, now: int): State {
    var seats := if pid in s.players then s.players else s.players[pid := Player(name, false, now, false)];
    s.(players := seats[pid := seats[pid].(connected := true, lastSeen := now)], conns := s.conns + {pid})
  }

  /** A new player takes a seat; the first one leads. */
  function Seated(s: State, pid: PlayerID, name: string, now: int): State {
    s.(players := s.players[pid := Player(name, true, now, false)], conns := s.conns + {pid},
       joinOrder := s.joinOrder + [pid], leaderID := if s.leaderID == NOBODY then pid else s.leaderID)
  }

  /** A player is gone; if they led, the earliest joiner still here leads. */
  function Departed(s: State, pid: PlayerID, now: int): State
    requires pid in s.players
  {
    var players := s.players[pid := s.players[pid].(connected := false, lastSeen := now)];
    s.(players := players, conns := s.conns - {pid},
       leaderID := if pid == s.leaderID then FirstConnected(s.joinOrder, players) else s.leaderID)
  }

  lemma ReconnectedSeats(s: State, pid: PlayerID, name: string, now: int)
    requires SeatsOk(s.players, s.conns, s.joinOrder, s.leaderID) && pid != NOBODY
    ensures var t := Reconnected(s, pid, name, now); SeatsOk(t.players, t.conns, t.joinOrder, t.leaderID)
  {
  }

  lemma SeatedSeats(s: State, pid: PlayerID, name: string, now: int)
    requires SeatsOk(s.players, s.conns, s.joinOrder, s.leaderID) && pid != NOBODY && pid !in s.players
    ensures var t := Seated(s, pid, name, now); SeatsOk(t.players, t.conns, t.joinOrder, t.leaderID)
  {
  }

  lemma DepartedSeats(s: State, pid: PlayerID, now: int)
    requires SeatsOk(s.players, s.conns, s.joinOrder, s.leaderID) && pid in s.players
    ensures var t := Departed(s, pid, now); SeatsOk(t.players, t.conns, t.joinOrder, t.leaderID)
  {
    PromotionPicksEarliest(s.joinOrder, Departed(s, pid, now).players);
  }

  // ----- leadership -----

  /** The post is vacant only if nobody who joined (and has kept their place) is connected. */
  ghost predicate LedIfPossible(s: State) {
    s.leaderID == NOBODY ==> forall p :: p in s.joinOrder ==> !Connected(s.players, p)
  }

  /** A reconnecting player does not take the vacant post, even if they joined long ago.
      Apart from that case the post is filled whenever it can be. */
  lemma ReconnectKeepsPostIff(s: State, pid: PlayerID, name: string, now: int)
    requires LedIfPossible(s)
    ensures LedIfPossible(Reconnected(s, pid, name, now)) <==> s.leaderID != NOBODY || pid !in s.joinOrder
  {
    var t := Reconnected(s, pid, name, now);
    if s.leaderID == NOBODY && pid in s.joinOrder {
      assert Connected(t.players, pid) && pid in t.joinOrder;
    }
  }

  lemma SeatingFillsPost(s: State, pid: PlayerID, name: string, now: int)
    requires pid != NOBODY
    ensures Seated(s, pid, name, now).leaderID != NOBODY
    ensures s.leaderID != NOBODY ==> Seated(s, pid, name, now).leaderID == s.leaderID
  {
  }

  lemma DepartureFillsPost(s: State, pid: PlayerID, now: int)
    requires LedIfPossible(s) && pid in s.players && NOBODY !in s.players
    ensures var t := Departed(s, pid, now);
            LedIfPossible(t) && (t.leaderID != s.leaderID ==> pid == s.leaderID)
  {
    var t := Departed(s, pid, now);
    PromotionPicksEarliest(s.joinOrder, t.players);
    assert forall p :: Connected(t.players, p) ==> Connected(s.players, p);
  }

  // ----- lobby -----

  /** Everyone from the last session is gone: back to an empty lobby. Clients of the next
      session start from nothing. */
  function Reset(w: World): World {
    w.(s := State(map[], 0, 0, w.s.settings, map[], map[], w.s.settings, [], Idle, {}, None,
                  false, [], NOBODY, false, false, None, 0, None, {}, {}),
       contents := Nothing, sent := [])
  }

  predicate Abandoned(s: State) {
    (s.postGame || s.status == InGame) && s.conns == {}
  }

  /** The reset never drops a connected player. */
  lemma ResetDropsNobody(w: World, p: PlayerID)
    requires Good(w) && Abandoned(w.s)
    ensures !Connected(w.s.players, p)
    ensures Good(Reset(w))
  {
    assert p in w.s.conns <==> Connected(w.s.players, p);
    assert LedgerOk(map[], map[], 0);
    assert ViewOf(Reset(w)) == Client.INITIAL;
  }

  /** The first ready after a game clears what is left of it. */
  function Cleared(s: State): State {
    if s.postGame then
      s.(postGame := false, phases := [], phaseIdx := 0, round := 0, stateSettings := s.settings,
         phaseData := map[], scores := map[], rerolled := {}, drawn := {})
    else s
  }

  function ReadySet(s: State, pid: PlayerID, ready: bool): State
    requires pid in s.players
  {
    var c := Cleared(s);
    c.(players := c.players[pid := c.players[pid].(ready := ready)])
  }

  lemma ReadyIsGood(w: World, pid: PlayerID, ready: bool)
    requires Good(w) && w.s.status == Idle && pid in w.s.players
    ensures var t := BroadcastState(w.(s := ReadySet(w.s, pid, ready)));
            Good(t) && !t.s.postGame && t.s.phases == [] && t.s.phaseData == map[] && t.s.scores == map[]
  {
    var t := BroadcastState(w.(s := Cleared(w.s)));
    ClearedIsGood(w);
    ReadySeats(w.s, pid, ready);
    assert BroadcastState(w.(s := ReadySet(w.s, pid, ready))) == t.(s := ReadySet(w.s, pid, ready));
    SeatsKeepGood(t, ReadySet(w.s, pid, ready));
  }

  lemma ClearedIsGood(w: World)
    requires Waiting(w)
    ensures var t := BroadcastState(w.(s := Cleared(w.s)));
            Waiting(t) && !t.s.postGame && t.s.phases == [] && t.s.phaseData == map[] && t.s.scores == map[]
  {
    if w.s.postGame {
      ReduceMore(Client.INITIAL, w.sent, Snapshot(Cleared(w.s)));
    } else {
      SnapshotIsNoNews(w);
    }
  }

  lemma ReadySeats(s: State, pid: PlayerID, ready: bool)
    requires SeatsOk(s.players, s.conns, s.joinOrder, s.leaderID) && pid in s.players
    ensures var t := ReadySet(s, pid, ready); SeatsOk(t.players, t.conns, t.joinOrder, t.leaderID)
  {
  }

  /** New settings from the leader: clamped into range, and everyone has to agree again. */
  function SettingsSet(s: State, next: P.Settings): State {
    var settings := NormalizeSettings(next);
    s.(settings := settings, stateSettings := settings, players := Unready(s.players))
  }

  lemma SettingsAreGood(w: World, next: P.Settings)
    requires Good(w) && w.s.status == Idle && !w.s.postGame
    ensures Good(w.(s := SettingsSet(w.s, next))) && NobodyReady(SettingsSet(w.s, next).players)
  {
    NormalizedIsOk(next);
    var t := SettingsSet(w.s, next);
    assert SeatsOk(t.players, t.conns, t.joinOrder, t.leaderID);
  }

  /** A game starts: the plan is drawn up for the settings, the record is empty. */
  function Started(w: World, phases: seq<P.Phase>): World {
    w.(s := w.s.(stateSettings := w.s.settings, rerolled := {}, drawn := {}, phases := phases, status := InGame,
                 round := 1, phaseIdx := 0, phaseData := map[]))
  }

  lemma StartedIsAtDoor(w: World, phases: seq<P.Phase>)
    requires Waiting(w) && !w.s.postGame && P.IsPlan(phases, w.s.settings) && phases != []
    ensures AtDoor(Started(w, phases))
  {
    assert DataOk(map[], 0, w.issued);
  }

  // ----- the cascade -----

  /** `t` is where the cascade out of `w` comes to rest, at position `rest`: the invariant
      holds, results, frames and ids have only been added, and the phase starts with an empty
      collector, an unused clock and, on the leaderboard, nothing shown. */
  ghost predicate Rested(w: World, t: World, rest: nat, now: int) {
    && Good(t) && CarriedOn(w.s, t.s, rest) && KeepsAll(w.s.phaseData, t.s.phaseData)
    && w.dict == t.dict && w.issued <= t.issued && w.sent <= t.sent
    && (t.s.status == InGame ==>
          && t.contents == EmptyContents(P.KindAt(t.s.phaseIdx))
          && JustBegun(t.watch, t.s, now)
          && (t.s.stepState.Some? ==> t.s.stepState.value.idx == 0))
  }

  lemma RestedFrom(w: World, m: World, t: World, rest: nat, now: int)
    requires Rested(m, t, rest, now) && KeepsRecord(w.s, m.s)
    requires m.s == w.s.(round := m.s.round, phaseIdx := m.s.phaseIdx, phaseData := m.s.phaseData, scores := m.s.scores,
                         phaseTimer := m.s.phaseTimer, phaseDeadline := m.s.phaseDeadline,
                         pauseRemaining := m.s.pauseRemaining, stepState := m.s.stepState)
    requires w.dict == m.dict && w.issued <= m.issued && w.sent <= m.sent && KeepsAll(w.s.phaseData, m.s.phaseData)
    ensures Rested(w, t, rest, now)
  {
    CarriedOnFrom(w.s, m.s, t.s, rest);
  }

  lemma FinishedRests(w: World, now: int)
    requires AtDoor(w) && w.s.phaseIdx == |w.s.phases|
    ensures Rested(w, Finished(w), w.s.phaseIdx, now)
  {
    FinishedIsGood(w);
  }

  lemma AnnouncedPasses(w: World, t: World, rest: nat, now: int)
    requires w.s.phaseIdx < |w.s.phases| && w.s.status == InGame
    requires Rested(Announced(w, now), t, rest, now)
    ensures Rested(w, t, rest, now)
  {
    var m := Announced(w, now);
    assert KeepsRecord(w.s, m.s);
    RestedFrom(w, m, t, rest, now);
  }

  /** The decision's result is on record under its phase, and its frames have been sent. */
  ghost predicate OnRecord(w: World, d: Decision, t: World) {
    && d.result.Some? && ResultAt(t.s.phaseData, P.KindAt(w.s.phaseIdx), P.RoundAt(w.s.phaseIdx)) == d.result
    && w.sent + d.events <= t.sent
  }

  lemma StoredPasses(w: World, d: Decision, t: World, now: int)
    requires Decided(w, d) && Rested(Stored(w, d), t, NextRest(w.s, d.result.value), now)
    ensures OnRecord(w, d, t) && Rested(w, t, NextRest(w.s, d.result.value), now)
  {
    var m := Stored(w, d);
    StoredKeepsRecord(w, d);
    StoredKeepsAll(w, d);
    assert KeyAt(w.s.phaseIdx) in m.s.phaseData;
    RestedFrom(w, m, t, NextRest(w.s, d.result.value), now);
  }

  lemma StoredKeepsAll(w: World, d: Decision)
    requires Decided(w, d)
    ensures KeepsAll(w.s.phaseData, Stored(w, d).s.phaseData)
  {
    NotStoredYet(w.s.phaseData, w.s.phaseIdx, w.issued);
  }

  /** A phase that waits has started. */
  lemma StaysPut(w: World, t: World, now: int)
    requires w.s.status == InGame && w.s.phaseIdx < |w.s.phases| && JustBegun(w.watch, w.s, now)
    requires w.contents == EmptyContents(P.KindAt(w.s.phaseIdx)) && w.sent <= t.sent
    requires t == w.(s := w.s.(stepState := t.s.stepState), sent := t.sent)
    requires t.s.stepState.Some? ==> t.s.stepState.value.idx == 0
    ensures Good(t) ==> Rested(w, t, w.s.phaseIdx, now)
  {
    assert KeepsRecord(w.s, t.s);
  }

  /** ... without news for the board. */
  lemma QuietStart(w: World, events: seq<Event>, now: int)
    requires Entered(w) && P.KindAt(w.s.phaseIdx) in {P.DrawingSubmit, P.FakePromptSubmit}
    requires JustBegun(w.watch, w.s, now) && forall ev :: ev in events ==> Quiet(ev)
    ensures Rested(w, w.(sent := w.sent + events), w.s.phaseIdx, now)
  {
    EnteredRests(w);
    QuietKeepsResting(w, events);
    StaysPut(w, w.(sent := w.sent + events), now);
  }

  lemma VotingStart(w: World, ballot: map<DrawingID, seq<VotingChoice>>, now: int)
    requires Entered(w) && P.KindAt(w.s.phaseIdx) == P.Voting && JustBegun(w.watch, w.s, now)
    requires AreBallots(ballot, DrawingsIn(w.s.phaseData, w.s.round), FakesIn(w.s.phaseData, w.s.round))
    ensures Rested(w, w.(sent := w.sent + [BallotShown(ballot)]), w.s.phaseIdx, now)
  {
    VotingRests(w, ballot);
    StaysPut(w, w.(sent := w.sent + [BallotShown(ballot)]), now);
  }

  lemma LeaderboardStart(w: World, stepState: Option<StepState>, now: int)
    requires Entered(w) && P.KindAt(w.s.phaseIdx) == P.Leaderboard && JustBegun(w.watch, w.s, now)
    requires CursorOk(stepState, w.s.phaseData, w.s.round)
    requires stepState.Some? ==> stepState.value.idx == 0
    ensures Rested(w, w.(s := w.s.(stepState := stepState), sent := w.sent + STAY.events), w.s.phaseIdx, now)
  {
    LeaderboardRests(w, stepState);
    assert w.sent + STAY.events == w.sent;
    StaysPut(w, w.(s := w.s.(stepState := stepState)), now);
  }

  lemma MoreIdsPass(w: World, more: set<string>, t: World, now: int)
    requires w.issued <= more && w.s.status == InGame
    ensures forall rest :: Rested(w.(issued := more), t, rest, now) ==> Rested(w, t, rest, now)
  {
  }

  /** Points are only ever added. */
  lemma ScoresPass(w: World, deltas: Deltas, after: Deltas, t: World, rest: nat, now: int)
    requires w.s.status == InGame && forall p :: At(deltas, p) >= 0
    requires forall p :: At(after, p) == At(w.s.scores, p) + At(deltas, p)
    requires Rested(w.(s := w.s.(scores := after)), t, rest, now)
    ensures Rested(w, t, rest, now)
  {
    var m := w.(s := w.s.(scores := after));
    forall p
      ensures At(w.s.scores, p) <= At(after, p)
    {
      assert At(after, p) == At(w.s.scores, p) + At(deltas, p);
    }
    RestedFrom(w, m, t, rest, now);
  }

  /** A room as it is constructed. */
  function NewWorld(dict: seq<string>): World {
    var settings := NormalizeSettings(P.Settings(0, 0, 0, 0, 0));
    World(State(map[], 0, 0, settings, map[], map[], settings, [], Idle, {}, None,
                false, [], NOBODY, false, false, None, 0, None, {}, {}),
          Nothing, dict, {}, [], Watch(Dead, 0, 0))
  }

  lemma NewWorldIsGood(dict: seq<string>)
    requires IsDictionary(dict) && |dict| >= 12
    ensures Good(NewWorld(dict))
  {
    NormalizedIsOk(P.Settings(0, 0, 0, 0, 0));
    assert LedgerOk(map[], map[], 0);
  }

  /** How a room answers a message: it acts on it, or sends the sender an error. */
  datatype Outcome = Accepted | Refused(code: Code)

  datatype Code = NotAllowed | WrongPhase

  lemma FirstRest(players: Players, n: nat)
    requires n >= P.PHASES_PER_ROUND && ConnectedSet(players) != {}
    ensures RestAt(0, n, players, map[]) == 1
  {
  }

  /** A lobby with nothing left of any game. */
  ghost predicate CleanLobby(w: World) {
    Waiting(w) && !w.s.postGame && w.s.phases == [] && w.s.phaseData == map[] && w.s.scores == map[]
  }

  /** Only a lobby with at least three connected players, all ready, starts a game. */
  lemma StartNeedsCleanLobby(w: World)
    requires Waiting(w) && CanStart(w.s.players)
    ensures CleanLobby(w)
  {
    var p :| p in ConnectedSet(w.s.players);
    assert Connected(w.s.players, p) && w.s.players[p].ready;
  }

  function Joined(w: World, pid: PlayerID, name: string, now: int): World {
    BroadcastState(w.(s := Seated(w.s, pid, name, now), issued := w.issued + {pid}))
  }

  lemma ReconnectIsGood(w: World, pid: PlayerID, name: string, now: int)
    requires Good(w) && pid != NOBODY
    ensures Good(BroadcastState(w.(s := Reconnected(w.s, pid, name, now))))
  {
    var t := Reconnected(w.s, pid, name, now);
    ReconnectedSeats(w.s, pid, name, now);
    SeatsKeepGood(w, t);
    SnapshotIsNoNews(w.(s := t));
  }

  lemma JoinIsGood(w: World, pid: PlayerID, name: string, now: int)
    requires Good(w) && pid != NOBODY && pid !in w.s.players
    ensures Good(Joined(w, pid, name, now))
  {
    var t := Seated(w.s, pid, name, now);
    SeatedSeats(w.s, pid, name, now);
    SeatsKeepGood(w, t);
    MoreIdsKeepGood(w.(s := t), w.issued + {pid});
    SnapshotIsNoNews(w.(s := t, issued := w.issued + {pid}));
  }

  lemma LeaveIsGood(w: World, pid: PlayerID, now: int)
    requires Good(w) && pid in w.s.players
    ensures Good(BroadcastState(w.(s := Departed(w.s, pid, now))))
  {
    var t := Departed(w.s, pid, now);
    DepartedSeats(w.s, pid, now);
    SeatsKeepGood(w, t);
    SnapshotIsNoNews(w.(s := t));
  }

  lemma PencilsAreGood(w: World, disabled: bool)
    requires Good(w)
    ensures Good(BroadcastState(w.(s := w.s.(pencilsDown := disabled))))
  {
    SeatsKeepGood(w, w.s.(pencilsDown := disabled));
    SnapshotIsNoNews(w.(s := w.s.(pencilsDown := disabled)));
  }
}
