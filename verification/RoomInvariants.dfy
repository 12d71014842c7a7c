/** What a room keeps between messages, stated over plain values: seats, lobby, timer, reveal
    cursor, and the view of a client that has received every frame. */
module RoomInvariants {
  import opened Prelude
  import opened Game
  import opened RevealSteps
  import opened Collectors
  import opened RoundCollectors
  import opened Client
  import opened Records
  import P = Phases

  datatype Status = Idle | InGame

  /** The cursor of the leaderboard animation. */
  datatype StepState = StepState(round: nat, queue: seq<Step>, idx: nat)

  /** Everything the room actor owns, apart from the collectors behind `current`. */
  datatype State = State(
    players: Players, phaseIdx: nat, round: nat, stateSettings: P.Settings, phaseData: PhaseData, scores: Deltas,
    settings: P.Settings, phases: seq<P.Phase>, status: Status, conns: set<PlayerID>, phaseTimer: Option<int>,
    postGame: bool, joinOrder: seq<PlayerID>, leaderID: PlayerID, paused: bool, pencilsDown: bool,
    phaseDeadline: Option<int>, pauseRemaining: int, stepState: Option<StepState>,
    rerolled: set<(nat, PlayerID)>, drawn: set<(nat, PlayerID)>)

  /** The current primitive as a value: none outside a game, one that computes or one that
      holds the screen, or a collector with what it has received. */
  datatype Contents =
    | Nothing
    | Computing
    | GotDrawings(items: Drawings)
    | GotFakes(fakes: Collected<FakePrompt>)
    | GotVotes(votes: Collected<Vote>)
    | Holding

  /** How the phase timer stands, and the unpaused time spent in the phase up to `since`. */
  datatype Watch = Watch(clock: Clock, spent: int, since: int)

  /** A room as a value: its state, its collector, the ids issued, the frames broadcast in
      this session, and the account of the phase timer. */
  datatype World = World(
    s: State, contents: Contents, dict: seq<string>, issued: set<string>, sent: seq<Event>, watch: Watch)

  /** The view of a client that has received every frame of the session. */
  function ViewOf(w: World): View {
    ReduceAll(Client.INITIAL, w.sent)
  }

  // ----- seats -----

  /** A player is connected exactly when the room holds their socket; a leader, if there is
      one, is connected and has a place in the joining order. */
  ghost predicate SeatsOk(players: Players, conns: set<PlayerID>, joinOrder: seq<PlayerID>, leaderID: PlayerID) {
    && (forall p :: p in conns <==> Connected(players, p))
    && NOBODY !in players
    && (forall p :: p in joinOrder ==> p in players)
    && (forall i, j :: 0 <= i < j < |joinOrder| ==> joinOrder[i] != joinOrder[j])
    && (leaderID != NOBODY ==> leaderID in joinOrder && Connected(players, leaderID))
  }

  /** The earliest joiner who is connected, or nobody. */
  function FirstConnected(joinOrder: seq<PlayerID>, players: Players): PlayerID {
    if joinOrder == [] then NOBODY
    else if Connected(players, joinOrder[0]) then joinOrder[0]
    else FirstConnected(joinOrder[1..], players)
  }

  /** Promotion is fair and total: it picks the earliest-joined connected player, and leaves
      the post empty only if no one in the joining order is connected. */
  lemma {:induction false} PromotionPicksEarliest(joinOrder: seq<PlayerID>, players: Players)
    requires NOBODY !in players
    ensures var next := FirstConnected(joinOrder, players);
            next != NOBODY ==>
              exists i :: 0 <= i < |joinOrder| && joinOrder[i] == next && Connected(players, next)
                          && forall j :: 0 <= j < i ==> !Connected(players, joinOrder[j])
    ensures FirstConnected(joinOrder, players) == NOBODY <==> forall p :: p in joinOrder ==> !Connected(players, p)
  {
    if joinOrder != [] {
      var rest := joinOrder[1..];
      PromotionPicksEarliest(rest, players);
      assert forall p :: p in joinOrder <==> p == joinOrder[0] || p in rest;
      var next := FirstConnected(joinOrder, players);
      if !Connected(players, joinOrder[0]) && next != NOBODY {
        var i :| 0 <= i < |rest| && rest[i] == next && Connected(players, next)
                 && forall j :: 0 <= j < i ==> !Connected(players, rest[j]);
        assert joinOrder[i + 1] == next;
        assert forall j :: 0 <= j < i + 1 ==> joinOrder[j] == if j == 0 then joinOrder[0] else rest[j - 1];
      }
    }
  }

  ghost function ConnectedSet(players: Players): set<PlayerID> {
    set p | p in players && players[p].connected
  }

  /** At least three players are connected, and all of those are ready. */
  ghost predicate CanStart(players: Players) {
    && |ConnectedSet(players)| >= 3
    && forall p :: Connected(players, p) ==> players[p].ready
  }

  function Unready(players: Players): (r: Players)
    ensures r.Keys == players.Keys
    ensures forall p :: p in players ==> r[p] == players[p].(ready := false)
  {
    map p | p in players :: players[p].(ready := false)
  }

  function UnreadyThese(players: Players, who: set<PlayerID>): Players {
    map p | p in players :: if p in who then players[p].(ready := false) else players[p]
  }

  lemma UnreadyOneMore(players: Players, who: set<PlayerID>, p: PlayerID)
    requires p in players
    ensures var t := UnreadyThese(players, who);
            p in t && t[p := t[p].(ready := false)] == UnreadyThese(players, who + {p})
  {
  }

  lemma UnreadyEveryone(players: Players)
    ensures UnreadyThese(players, {}) == players && UnreadyThese(players, players.Keys) == Unready(players)
  {
  }

  // ----- settings -----

  function Clamped(x: int, floor: int, low: int, high: int): int {
    var y := if x < floor then low else x;
    if y > high then high else y
  }

  function NormalizeSettings(s: P.Settings): P.Settings {
    P.Settings(
      Clamped(s.roundCount, 1, 1, 10), Clamped(s.generatedFakeCount, 0, 0, 6),
      Clamped(s.drawingSeconds, 15, 60, 300), Clamped(s.fakePromptSeconds, 15, 90, 300),
      Clamped(s.votingSeconds, 10, 20, 180))
  }

  predicate SettingsOk(s: P.Settings) {
    && 1 <= s.roundCount <= 10 && 0 <= s.generatedFakeCount <= 6
    && 15 <= s.drawingSeconds <= 300 && 15 <= s.fakePromptSeconds <= 300 && 10 <= s.votingSeconds <= 180
  }

  lemma NormalizedIsOk(s: P.Settings)
    ensures SettingsOk(NormalizeSettings(s))
    ensures SettingsOk(s) ==> NormalizeSettings(s) == s
  {
  }

  ghost predicate ConfigOk(dict: seq<string>, settings: P.Settings) {
    IsDictionary(dict) && |dict| >= 12 && SettingsOk(settings)
  }

  // ----- where the cascade rests -----

  /** The phases that wait: for submissions, or for the leader's clicks. */
  predicate Rests(k: P.Kind) {
    k.DrawingSubmit? || k.FakePromptSubmit? || k.Voting? || k.Leaderboard?
  }

  ghost function Drawers(players: Players, data: PhaseData, round: nat): set<PlayerID> {
    set p | p in players && players[p].connected && p in PromptsIn(data, round)
  }

  /** Entering phase `i` of `n`, the position at which the room comes to rest. */
  ghost function RestAt(i: nat, n: nat, players: Players, data: PhaseData): nat {
    if i >= n then n
    else match P.KindAt(i)
         case PromptDistribute => if ConnectedSet(players) != {} then i + 1 else i + 2
         case DrawingSubmit => if Drawers(players, data, P.RoundAt(i)) != {} then i else i + 1
         case FakePromptSubmit => i
         case Voting => i
         case Reveal => i + 2
         case Scoring => i + 1
         case Leaderboard => i
  }

  // ----- the phase timer -----

  /** How the phase timer came to be as it is.
      Regular: armed at phase start, and every pause so far had time left.
      Leaked: the phase began while the room was paused, and its timer was armed all the same.
      Dead: no timer; either the phase has no time limit, or the timer was lost on the way. */
  datatype Clock = Regular | Leaked | Dead

  ghost predicate ClockOk(watch: Watch, s: State)
    requires s.phaseIdx < |s.phases|
  {
    var limit := s.phases[s.phaseIdx].duration;
    match watch.clock
    case Regular =>
      && limit > 0
      && if s.paused
         then s.phaseTimer == None && s.pauseRemaining > 0 && watch.spent + s.pauseRemaining == limit
         else s.phaseTimer == s.phaseDeadline == Some(watch.since + (limit - watch.spent)) && s.pauseRemaining == 0
    case Leaked =>
      && limit > 0 && s.pauseRemaining == 0
      && s.phaseTimer == Some(watch.since + limit)
      && s.phaseDeadline == (if s.paused then s.phaseTimer else None)
    case Dead =>
      s.phaseTimer == None && s.pauseRemaining == 0 && (!s.paused ==> s.phaseDeadline == None)
  }

  // ----- the reveal cursor -----

  /** On the leaderboard the cursor walks the queue of the stored reveal; without drawings
      there is no cursor. */
  ghost predicate CursorOk(stepState: Option<StepState>, data: PhaseData, round: nat) {
    var rr := RevealsIn(data, round);
    match stepState
    case None => rr == map[]
    case Some(st) => rr != map[] && st.queue != [] && IsQueue(st.queue, rr.Keys, rr) && st.idx <= |st.queue|
  }

  function ShownSteps(stepState: Option<StepState>): seq<Step>
    requires stepState.Some? ==> stepState.value.idx <= |stepState.value.queue|
  {
    match stepState
    case None => []
    case Some(st) => st.queue[..st.idx]
  }

  function StepsLeft(stepState: Option<StepState>): nat {
    match stepState
    case None => 0
    case Some(st) => if st.idx <= |st.queue| then |st.queue| - st.idx else 0
  }

  // ----- the client's view -----

  /** The phase name sent in state snapshots. */
  function ShownPhase(s: State): string {
    if s.postGame then "game_end"
    else if s.phaseIdx < |s.phases| then s.phases[s.phaseIdx].name
    else ""
  }

  ghost predicate Blank(v: View) {
    v.revealed == [] && v.eliminated == map[] && v.finals == map[]
  }

  ghost predicate Revealing(v: View, rr: Reveals) {
    HoldsRound(v, rr) && v.eliminated == map[] && v.finals == map[]
  }

  /** The ballot on screen is one for the drawings and fakes on record. */
  ghost predicate HoldsBallot(v: View, data: PhaseData, r: nat) {
    AreBallots(v.ballot, DrawingsIn(data, r), FakesIn(data, r))
  }

  /** What a client holds when the room is about to enter phase `i`. */
  ghost predicate ViewReady(v: View, data: PhaseData, i: nat) {
    var r := P.RoundAt(i);
    match P.KindAt(i)
    case PromptDistribute => true
    case Reveal => Blank(v) && HoldsBallot(v, data, r)
    case Scoring => Revealing(v, RevealsIn(data, r)) && HoldsBallot(v, data, r)
    case Leaderboard =>
      Revealing(v, RevealsIn(data, r)) && HoldsBallot(v, data, r) && v.lastDeltas == Some(DeltasIn(data, r))
    case _ => Blank(v)
  }

  /** What a client holds while the room rests in phase `i`: from voting on, the ballot; on the
      leaderboard, each drawing of the round once, the round's deltas, and exactly the steps
      shown so far. */
  ghost predicate ViewAtRest(v: View, data: PhaseData, i: nat, stepState: Option<StepState>)
    requires stepState.Some? ==> stepState.value.idx <= |stepState.value.queue|
  {
    if P.KindAt(i) == P.Leaderboard then
      && HoldsRound(v, RevealsIn(data, P.RoundAt(i)))
      && HasReplayed(v, ShownSteps(stepState))
      && v.lastDeltas == Some(DeltasIn(data, P.RoundAt(i)))
      && HoldsBallot(v, data, P.RoundAt(i))
    else Blank(v) && (P.KindAt(i) == P.Voting ==> HoldsBallot(v, data, P.RoundAt(i)))
  }

  /** Broadcasts that touch neither the ballot nor what the leaderboard shows. */
  predicate Quiet(ev: Event) {
    ev.PromptIssued? || ev.DrawingsShown?
  }

  /** `w` differs from `v` only in what the quiet events set. */
  ghost predicate SameBoard(v: View, w: View) {
    && w.revealed == v.revealed && w.eliminated == v.eliminated && w.finals == v.finals
    && w.lastDeltas == v.lastDeltas && w.scores == v.scores && w.phase == v.phase && w.round == v.round
    && w.ballot == v.ballot
  }

  lemma {:induction false} QuietEvents(v: View, events: seq<Event>)
    requires forall ev :: ev in events ==> Quiet(ev)
    ensures SameBoard(v, ReduceAll(v, events))
  {
    if events != [] {
      QuietEvents(v, events[..|events| - 1]);
      assert events[|events| - 1] in events;
    }
  }

  /** A phase announcement resets the board exactly at the start of a round. */
  lemma AnnouncePhase(v: View, i: nat)
    ensures var w := Reduce(v, PhaseChange(Print(KeyAt(i)), P.RoundAt(i)));
            && w.phase == Print(KeyAt(i)) && w.round == P.RoundAt(i) && w.scores == v.scores
            && if P.KindAt(i) == P.PromptDistribute then Blank(w)
               else w.revealed == v.revealed && w.eliminated == v.eliminated && w.finals == v.finals
                    && w.lastDeltas == v.lastDeltas && w.ballot == v.ballot
  {
    P.PrefixTellsKind(P.KindAt(i), P.RoundAt(i), P.PromptDistribute);
    P.PrefixTellsKind(P.KindAt(i), P.RoundAt(i), P.Leaderboard);
  }

  ghost function RevealEvents(ds: seq<DrawingReveal>): (events: seq<Event>)
    ensures |events| == |ds| && forall i :: 0 <= i < |ds| ==> events[i] == Revealed(ds[i])
  {
    seq(|ds|, i requires 0 <= i < |ds| => Revealed(ds[i]))
  }

  lemma {:induction false} RevealEventsAppend(v: View, ds: seq<DrawingReveal>)
    ensures ReduceAll(v, RevealEvents(ds)) == v.(revealed := v.revealed + ds)
  {
    if ds == [] {
      assert v.revealed + ds == v.revealed;
    } else {
      var init := ds[..|ds| - 1];
      RevealEventsAppend(v, init);
      assert RevealEvents(ds)[..|ds| - 1] == RevealEvents(init);
      assert v.revealed + init + [ds[|ds| - 1]] == v.revealed + ds;
    }
  }

  // ----- one game, many messages -----

  /** Phases left, then reveal steps left. */
  datatype Measure = Measure(phases: nat, steps: nat)

  function MeasureOf(s: State): Measure {
    if s.status == InGame && s.phaseIdx <= |s.phases| then Measure(|s.phases| - s.phaseIdx, StepsLeft(s.stepState))
    else Measure(0, 0)
  }

  predicate Less(a: Measure, b: Measure) {
    a.phases < b.phases || (a.phases == b.phases && a.steps < b.steps)
  }

  predicate NoMore(a: Measure, b: Measure) {
    a == b || Less(a, b)
  }

  /** Nothing on record in `a` is missing or different in `b`. */
  ghost predicate KeepsAll(a: PhaseData, b: PhaseData) {
    forall k :: k in a ==> k in b && b[k] == a[k]
  }

  /** `b` is later in the game of `a`: same plan, no phase undone, no result but a prompt
      changed, no score lost. */
  ghost predicate KeepsRecord(a: State, b: State) {
    && b.phases == a.phases && a.phaseIdx <= b.phaseIdx
    && (b.status == InGame || b.postGame)
    && (forall k, r :: k != P.PromptDistribute && ResultAt(a.phaseData, k, r).Some? ==>
                         ResultAt(b.phaseData, k, r) == ResultAt(a.phaseData, k, r))
    && (forall p :: At(a.scores, p) <= At(b.scores, p))
  }

  /** ... and there is no more left to do. */
  ghost predicate Continues(a: State, b: State) {
    KeepsRecord(a, b) && NoMore(MeasureOf(b), MeasureOf(a))
  }

  lemma KeepsRecordTransitive(a: State, b: State, c: State)
    requires KeepsRecord(a, b) && KeepsRecord(b, c)
    ensures KeepsRecord(a, c)
  {
    forall p
      ensures At(a.scores, p) <= At(c.scores, p)
    {
      assert At(a.scores, p) <= At(b.scores, p) <= At(c.scores, p);
    }
  }

  /** A game in progress whose clock is stopped by a pause. */
  predicate Frozen(s: State) {
    s.status == InGame && s.paused && s.phaseTimer == None
  }

  /** Nothing of the game has moved. */
  ghost predicate StillFrozen(a: State, b: State) {
    && Frozen(b) && b.phases == a.phases && b.phaseIdx == a.phaseIdx && b.phaseData == a.phaseData
    && b.scores == a.scores && b.pauseRemaining == a.pauseRemaining && b.stepState == a.stepState
  }

  // ----- the invariant -----

  /** What holds all through a game, also while the cascade is under way. */
  ghost predicate Playing(w: World) {
    && SeatsOk(w.s.players, w.s.conns, w.s.joinOrder, w.s.leaderID)
    && ConfigOk(w.dict, w.s.settings) && w.s.stateSettings == w.s.settings
    && w.s.status == InGame && !w.s.postGame
    && P.IsPlan(w.s.phases, w.s.settings) && w.s.phaseIdx <= |w.s.phases|
    && DataOk(w.s.phaseData, w.s.phaseIdx, w.issued)
  }

  /** What the collector of the current phase has so far is fit to be stored. */
  ghost predicate ContentsOk(w: World) {
    var r := P.RoundAt(w.s.phaseIdx);
    match P.KindAt(w.s.phaseIdx)
    case DrawingSubmit =>
      w.contents.GotDrawings? && DrawingsOk(w.contents.items) && DrawingIds(w.contents.items) <= w.issued
    case FakePromptSubmit =>
      w.contents.GotFakes? && FakesOk(w.contents.fakes, DrawingsIn(w.s.phaseData, r), w.issued)
    case Voting =>
      w.contents.GotVotes? && VotesOk(w.contents.votes, DrawingsIn(w.s.phaseData, r), FakesIn(w.s.phaseData, r))
    case Leaderboard => w.contents.Holding?
    case _ => w.contents.Computing?
  }

  /** Resting in a phase: what holds between two messages of a game. */
  ghost predicate Resting(w: World) {
    && Playing(w)
    && w.s.phaseIdx < |w.s.phases| && Rests(P.KindAt(w.s.phaseIdx)) && w.s.round == P.RoundAt(w.s.phaseIdx)
    && LedgerOk(w.s.scores, w.s.phaseData, w.s.phaseIdx) && ViewOf(w).scores == w.s.scores
    && ContentsOk(w)
    && (if P.KindAt(w.s.phaseIdx) == P.Leaderboard then CursorOk(w.s.stepState, w.s.phaseData, w.s.round)
        else w.s.stepState == None)
    && ClockOk(w.watch, w.s)
    && ViewOf(w).phase == w.s.phases[w.s.phaseIdx].name && ViewOf(w).round == w.s.round
    && ViewAtRest(ViewOf(w), w.s.phaseData, w.s.phaseIdx, w.s.stepState)
  }

  /** No deadline runs and no time is put by. */
  predicate Stopped(s: State) {
    s.phaseDeadline == None && s.pauseRemaining == 0
  }

  /** In the lobby nothing is left of any game; after a game its record stays on show, all
      phases done and nobody ready, until a player readies up. */
  ghost predicate Waiting(w: World) {
    && SeatsOk(w.s.players, w.s.conns, w.s.joinOrder, w.s.leaderID)
    && ConfigOk(w.dict, w.s.settings) && w.s.stateSettings == w.s.settings
    && w.s.status == Idle && w.contents == Nothing && w.s.phaseTimer == None && Stopped(w.s)
    && DataOk(w.s.phaseData, w.s.phaseIdx, w.issued) && LedgerOk(w.s.scores, w.s.phaseData, w.s.phaseIdx)
    && ViewOf(w).phase == ShownPhase(w.s) && ViewOf(w).round == w.s.round && ViewOf(w).scores == w.s.scores
    && if w.s.postGame then
         && w.s.phaseIdx == |w.s.phases| && w.s.phases != [] && P.IsPlan(w.s.phases, w.s.settings)
         && forall p :: p in w.s.players ==> !w.s.players[p].ready
       else
         w.s.phases == [] && w.s.phaseData == map[] && w.s.scores == map[] && w.s.phaseIdx == 0
  }

  ghost predicate Good(w: World) {
    match w.s.status
    case InGame => Resting(w)
    case Idle => Waiting(w)
  }

  // ----- the steps of the cascade, as functions of the world -----

  /** The game is over: scores and record stay, everyone has to ready up again. */
  function Finished(w: World): World {
    w.(s := w.s.(players := Unready(w.s.players), status := Idle, postGame := true, phaseTimer := None),
       contents := Nothing, sent := w.sent + [GameEnd(w.s.scores)])
  }

  function EmptyContents(k: P.Kind): Contents {
    match k
    case DrawingSubmit => GotDrawings(map[])
    case FakePromptSubmit => GotFakes(map[])
    case Voting => GotVotes(map[])
    case Leaderboard => Holding
    case _ => Computing
  }

  /** A phase is announced, its primitive made and its timer armed. */
  function Announced(w: World, now: int): World
    requires w.s.phaseIdx < |w.s.phases|
  {
    var phase := w.s.phases[w.s.phaseIdx];
    var armed := if phase.duration > 0 then Some(now + phase.duration) else None;
    w.(s := w.s.(round := phase.round, phaseTimer := armed, phaseDeadline := armed, pauseRemaining := 0, stepState := None),
       contents := EmptyContents(phase.primitive), sent := w.sent + [PhaseChange(phase.name, phase.round)],
       watch := NewWatch(phase.duration, w.s.paused, now))
  }

  /** The account of a phase that begins now: a pause does not keep its timer from running. */
  function NewWatch(limit: nat, paused: bool, now: int): Watch {
    Watch(if limit == 0 then Dead else if paused then Leaked else Regular, 0, now)
  }

  /** The current phase began at `now`. */
  ghost predicate JustBegun(watch: Watch, s: State, now: int) {
    s.phaseIdx < |s.phases| && watch == NewWatch(s.phases[s.phaseIdx].duration, s.paused, now)
  }

  /** A phase has just been announced; its primitive has yet to start. */
  ghost predicate Entered(w: World) {
    && Playing(w) && w.s.phaseIdx < |w.s.phases| && w.s.round == P.RoundAt(w.s.phaseIdx)
    && LedgerOk(w.s.scores, w.s.phaseData, w.s.phaseIdx) && ViewOf(w).scores == w.s.scores
    && w.s.stepState == None
    && w.contents == EmptyContents(P.KindAt(w.s.phaseIdx))
    && ClockOk(w.watch, w.s)
    && ViewOf(w).phase == w.s.phases[w.s.phaseIdx].name && ViewOf(w).round == w.s.round
    && (P.KindAt(w.s.phaseIdx) == P.PromptDistribute ==> Blank(ViewOf(w)))
    && ViewReady(ViewOf(w), w.s.phaseData, w.s.phaseIdx)
  }

  /** Ready to enter the phase at `phaseIdx`, or to end the game. */
  ghost predicate AtDoor(w: World) {
    && Playing(w) && w.s.phases != []
    && LedgerOk(w.s.scores, w.s.phaseData, w.s.phaseIdx) && ViewOf(w).scores == w.s.scores
    && ViewReady(ViewOf(w), w.s.phaseData, w.s.phaseIdx)
    && (w.s.phaseIdx == |w.s.phases| ==> ViewOf(w).round == w.s.round && Stopped(w.s))
  }

  /** What a decision must bring so that the phase may advance. */
  ghost predicate Decided(w: World, d: Decision) {
    && Playing(w) && w.s.phaseIdx < |w.s.phases|
    && d.result.Some? && Fits(w.s.phaseData, w.s.phaseIdx, d.result.value, w.issued)
    && LedgerPending(w.s.scores, w.s.phaseData, w.s.phaseIdx, d.result.value)
    && (w.s.phaseIdx + 1 == |w.s.phases| ==> Stopped(w.s))
    && var v := ReduceAll(ViewOf(w), d.events);
       && v.round == w.s.round && v.scores == w.s.scores
       && ViewReady(v, w.s.phaseData[KeyAt(w.s.phaseIdx) := d.result.value], w.s.phaseIdx + 1)
  }

  /** The result is stored and the index moved on. */
  function Stored(w: World, d: Decision): World
    requires d.result.Some?
  {
    w.(s := w.s.(phaseData := w.s.phaseData[KeyAt(w.s.phaseIdx) := d.result.value], phaseIdx := w.s.phaseIdx + 1,
                 phaseTimer := None),
       sent := w.sent + d.events)
  }

  lemma FinishedIsGood(w: World)
    requires AtDoor(w) && w.s.phaseIdx == |w.s.phases|
    ensures Waiting(Finished(w))
  {
    ReduceMore(Client.INITIAL, w.sent, GameEnd(w.s.scores));
  }

  lemma AnnouncedIsEntered(w: World, now: int)
    requires AtDoor(w) && w.s.phaseIdx < |w.s.phases|
    ensures Entered(Announced(w, now))
  {
    P.PlanFacts(w.s.phases, w.s.settings, w.s.phaseIdx);
    AnnouncePhase(ViewOf(w), w.s.phaseIdx);
    AnnouncedClock(w, now);
    var phase := w.s.phases[w.s.phaseIdx];
    ReduceMore(Client.INITIAL, w.sent, PhaseChange(phase.name, phase.round));
    var v := ViewOf(Announced(w, now));
    assert ViewReady(v, w.s.phaseData, w.s.phaseIdx);
  }

  lemma AnnouncedClock(w: World, now: int)
    requires w.s.phaseIdx < |w.s.phases|
    ensures var a := Announced(w, now);
            ClockOk(a.watch, a.s)
  {
  }

  lemma StoredIsAtDoor(w: World, d: Decision)
    requires Decided(w, d)
    ensures AtDoor(Stored(w, d))
  {
    StoreResult(w.s.phaseData, w.s.phaseIdx, d.result.value, w.issued);
    StoreLedger(w.s.scores, w.s.phaseData, w.s.phaseIdx, d.result.value, w.issued);
    ReduceAllAppend(Client.INITIAL, w.sent, d.events);
  }

  lemma StoredKeepsRecord(w: World, d: Decision)
    requires Decided(w, d)
    ensures KeepsRecord(w.s, Stored(w, d).s)
  {
    assert KeyAt(w.s.phaseIdx) !in w.s.phaseData by {
      NotStoredYet(w.s.phaseData, w.s.phaseIdx, w.issued);
    }
  }

  lemma EnteredRests(w: World)
    requires Entered(w) && P.KindAt(w.s.phaseIdx) in {P.DrawingSubmit, P.FakePromptSubmit}
    ensures Resting(w)
  {
  }

  lemma VotingRests(w: World, ballot: map<DrawingID, seq<VotingChoice>>)
    requires Entered(w) && P.KindAt(w.s.phaseIdx) == P.Voting
    requires AreBallots(ballot, DrawingsIn(w.s.phaseData, w.s.round), FakesIn(w.s.phaseData, w.s.round))
    ensures Resting(w.(sent := w.sent + [BallotShown(ballot)]))
  {
    var t := w.(sent := w.sent + [BallotShown(ballot)]);
    ReduceMore(Client.INITIAL, w.sent, BallotShown(ballot));
    assert ContentsOk(t) == ContentsOk(w);
    BallotOnScreen(ViewOf(w), ballot, w.s.phaseData, w.s.phaseIdx);
  }

  lemma BallotOnScreen(v: View, ballot: map<DrawingID, seq<VotingChoice>>, data: PhaseData, i: nat)
    requires P.KindAt(i) == P.Voting && Blank(v)
    requires AreBallots(ballot, DrawingsIn(data, P.RoundAt(i)), FakesIn(data, P.RoundAt(i)))
    ensures ViewAtRest(Reduce(v, BallotShown(ballot)), data, i, None)
  {
  }

  lemma LeaderboardRests(w: World, stepState: Option<StepState>)
    requires Entered(w) && P.KindAt(w.s.phaseIdx) == P.Leaderboard
    requires CursorOk(stepState, w.s.phaseData, w.s.round)
    requires stepState.Some? ==> stepState.value.idx == 0
    ensures Resting(w.(s := w.s.(stepState := stepState)))
  {
    assert ShownSteps(stepState) == [];
    NothingReplayed(ViewOf(w));
    ClockIgnoresCursor(w.watch, w.s, stepState);
  }

  lemma NothingReplayed(v: View)
    requires v.eliminated == map[] && v.finals == map[]
    ensures HasReplayed(v, [])
  {
  }

  lemma ClockIgnoresCursor(watch: Watch, s: State, stepState: Option<StepState>)
    requires s.phaseIdx < |s.phases| && ClockOk(watch, s)
    ensures ClockOk(watch, s.(stepState := stepState))
  {
  }

  lemma QuietKeepsResting(w: World, events: seq<Event>)
    requires Resting(w) && forall ev :: ev in events ==> Quiet(ev)
    ensures Resting(w.(sent := w.sent + events))
  {
    var v, t := ViewOf(w), w.(sent := w.sent + events);
    QuietEvents(v, events);
    ReduceAllAppend(Client.INITIAL, w.sent, events);
    assert ViewOf(t) == ReduceAll(v, events);
    assert ContentsOk(t) && Playing(t);
    BoardKeepsRest(v, ViewOf(t), w.s.phaseData, w.s.phaseIdx, w.s.stepState);
  }

  lemma BoardKeepsRest(v: View, w: View, data: PhaseData, i: nat, stepState: Option<StepState>)
    requires SameBoard(v, w) && (stepState.Some? ==> stepState.value.idx <= |stepState.value.queue|)
    requires ViewAtRest(v, data, i, stepState)
    ensures ViewAtRest(w, data, i, stepState)
  {
  }

  /** `t` is `s` carried on by the cascade until it rests at position `rest`. */
  ghost predicate CarriedOn(s: State, t: State, rest: nat) {
    && KeepsRecord(s, t)
    && t.phaseIdx == rest
    && t.players == (if t.status == InGame then s.players else Unready(s.players))
    && t == s.(players := t.players, phaseIdx := t.phaseIdx, round := t.round, phaseData := t.phaseData,
               scores := t.scores, status := t.status, phaseTimer := t.phaseTimer, postGame := t.postGame,
               phaseDeadline := t.phaseDeadline, pauseRemaining := t.pauseRemaining, stepState := t.stepState)
  }

  /** Where advancing from phase `i` with `result` leads. */
  ghost function NextRest(s: State, result: PhaseResult): nat {
    RestAt(s.phaseIdx + 1, |s.phases|, s.players, s.phaseData[KeyAt(s.phaseIdx) := result])
  }

  lemma CarriedOnFrom(s: State, m: State, t: State, rest: nat)
    requires KeepsRecord(s, m) && CarriedOn(m, t, rest)
    requires m == s.(round := m.round, phaseIdx := m.phaseIdx, phaseData := m.phaseData, scores := m.scores,
                     phaseTimer := m.phaseTimer, phaseDeadline := m.phaseDeadline,
                     pauseRemaining := m.pauseRemaining, stepState := m.stepState)
    ensures CarriedOn(s, t, rest)
  {
    KeepsRecordTransitive(s, m, t);
  }

  /** The cascade from a phase that advances at once ends where `RestAt` says. */
  lemma RestAtStep(s: State, result: PhaseResult)
    requires s.phaseIdx < |s.phases| && |s.phases| % P.PHASES_PER_ROUND == 0
    requires match P.KindAt(s.phaseIdx)
             case PromptDistribute => result.PromptsResult? && result.prompts.Keys == ConnectedSet(s.players)
             case DrawingSubmit => Drawers(s.players, s.phaseData, P.RoundAt(s.phaseIdx)) == {}
             case Reveal => true
             case Scoring => true
             case _ => false
    ensures NextRest(s, result) == RestAt(s.phaseIdx, |s.phases|, s.players, s.phaseData)
  {
    var i := s.phaseIdx;
    assert i + 1 < |s.phases|;
    if P.KindAt(i) == P.PromptDistribute {
      var after := s.phaseData[KeyAt(i) := result];
      assert PromptsIn(after, P.RoundAt(i + 1)) == result.prompts;
      assert Drawers(s.players, after, P.RoundAt(i + 1)) == ConnectedSet(s.players);
    }
  }

  // ----- decisions that may advance -----

  lemma PromptsDecided(w: World, d: Decision)
    requires Entered(w) && P.KindAt(w.s.phaseIdx) == P.PromptDistribute
    requires d.result.Some? && d.result.value.PromptsResult?
    requires d.result.value.prompts.Keys == ConnectedSet(w.s.players)
    requires forall ev :: ev in d.events ==> Quiet(ev)
    ensures Decided(w, d)
  {
    QuietEvents(ViewOf(w), d.events);
    assert P.KindAt(w.s.phaseIdx + 1) == P.DrawingSubmit;
  }

  /** A collector's result, stored without news. */
  lemma CollectedDecided(w: World, d: Decision)
    requires Playing(w) && w.s.phaseIdx < |w.s.phases| && LedgerOk(w.s.scores, w.s.phaseData, w.s.phaseIdx)
    requires ViewOf(w).scores == w.s.scores && ViewOf(w).round == w.s.round && Blank(ViewOf(w))
    requires P.KindAt(w.s.phaseIdx) == P.Voting ==> HoldsBallot(ViewOf(w), w.s.phaseData, P.RoundAt(w.s.phaseIdx))
    requires P.KindAt(w.s.phaseIdx) in {P.DrawingSubmit, P.FakePromptSubmit, P.Voting}
    requires d.events == [] && d.result.Some? && Fits(w.s.phaseData, w.s.phaseIdx, d.result.value, w.issued)
    ensures Decided(w, d)
  {
    var v, i := ViewOf(w), w.s.phaseIdx;
    assert ReduceAll(v, d.events) == v;
    CollectedScoresNothing(w.s.scores, w.s.phaseData, i, d.result.value, w.issued);
    BlankBeforeReveal(v, w.s.phaseData, i, d.result.value);
  }

  lemma CollectedScoresNothing(scores: Deltas, data: PhaseData, i: nat, result: PhaseResult, issued: set<string>)
    requires LedgerOk(scores, data, i) && Fits(data, i, result, issued) && P.KindAt(i) != P.Scoring
    ensures LedgerPending(scores, data, i, result)
  {
  }

  lemma BlankBeforeReveal(v: View, data: PhaseData, i: nat, result: PhaseResult)
    requires Blank(v) && P.KindAt(i) in {P.DrawingSubmit, P.FakePromptSubmit, P.Voting}
    requires P.KindAt(i) == P.Voting ==> HoldsBallot(v, data, P.RoundAt(i))
    ensures ViewReady(v, data[KeyAt(i) := result], i + 1)
  {
    assert P.RoundAt(i + 1) == P.RoundAt(i) && P.KindAt(i + 1) in {P.FakePromptSubmit, P.Voting, P.Reveal};
  }
}
