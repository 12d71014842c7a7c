/** One message, any message: what it does to a room, exactly, and what every step keeps. */
module Steps {
  import opened Prelude
  import opened Game
  import opened Collectors
  import opened RoundCollectors
  import opened Records
  import opened RoomInvariants
  import opened RoomSteps
  import opened Cascades
  import opened RoomPlay
  import opened RoomClock
  import P = Phases

  datatype Message =
    | Reconnect(pid: PlayerID, name: string)
    | Join(cleaned: Option<string>)
    | Leave(pid: PlayerID)
    | Ready(pid: PlayerID, ready: bool)
    | SetPause(pid: PlayerID, pause: bool)
    | SetPencilsDown(pid: PlayerID, disabled: bool)
    | AdvanceReveal(pid: PlayerID)
    | UpdateSettings(pid: PlayerID, next: P.Settings)
    | RerollPrompt(pid: PlayerID)
    | SubmitDrawing(pid: PlayerID, contentOk: bool)
    | SubmitFake(pid: PlayerID, drawing: DrawingID, text: string)
    | SubmitVote(pid: PlayerID, drawing: DrawingID, choice: string)
    | TimerFires
    | Tick

  /** A message and the time at which the room takes it off its inbox. */
  datatype Entry = Entry(msg: Message, now: int)

  /** Only players who have joined get this far. */
  predicate FromSomeone(m: Message) {
    !m.Join? && !m.TimerFires? && !m.Tick? ==> m.pid != NOBODY
  }

  // ----- kinds of messages, told from the state before -----

  predicate Due(s: State, now: int) {
    s.phaseTimer.Some? && s.phaseTimer.value <= now
  }

  /** The timer goes off, or the leader clicks with effect: the two things that push a game on. */
  predicate Pushes(s: State, e: Entry) {
    (e.msg.TimerFires? && Due(s, e.now)) || Clicks(s, e)
  }

  predicate Clicks(s: State, e: Entry) {
    e.msg.AdvanceReveal? && AdvanceVerdict(s, e.msg.pid).Accepted?
  }

  predicate Resumes(s: State, e: Entry) {
    s.paused && e.msg == SetPause(s.leaderID, false)
  }

  predicate Resets(s: State, e: Entry) {
    e.msg.Join? && Abandoned(s)
  }

  function Cursor(s: State): nat {
    match s.stepState
    case None => 0
    case Some(st) => st.idx
  }

  // ----- what each message does -----

  /** The lobby after a player has readied up or left, before it is known whether that starts
      a game. */
  function LobbyAfter(w: World, e: Entry): World
    requires (e.msg.Ready? || e.msg.Leave?) && e.msg.pid in w.s.players
  {
    if e.msg.Ready? then BroadcastState(w.(s := ReadySet(w.s, e.msg.pid, e.msg.ready)))
    else BroadcastState(w.(s := Departed(w.s, e.msg.pid, e.now)))
  }

  ghost predicate LobbyMoves(lobby: World, t: World, now: int) {
    if lobby.s.status == Idle && CanStart(lobby.s.players) then Begun(lobby, t, now) else t == lobby
  }

  ghost predicate Joins(w: World, cleaned: Option<string>, t: World, now: int) {
    var base := if Abandoned(w.s) then Reset(w) else w;
    if base.s.status == InGame || cleaned.None? then t == base
    else exists pid :: pid !in w.s.players && pid !in w.issued && pid != NOBODY && t == Joined(base, pid, cleaned.value, now)
  }

  /** What the join handler answers. */
  lemma AnswersJoin(w: World, cleaned: Option<string>, r: Option<PlayerID>, t: World, now: int)
    requires var base := if Abandoned(w.s) then Reset(w) else w;
             && (r.None? <==> base.s.status == InGame || cleaned.None?)
             && (r.None? ==> t == base)
             && (r.Some? ==> t == Joined(base, r.value, cleaned.value, now))
    requires r.Some? ==> r.value !in w.s.players && r.value !in w.issued && r.value != NOBODY
    ensures Joins(w, cleaned, t, now)
  {
  }

  /** An accepted pause or resume that is not idle. */
  predicate Switches(s: State, e: Entry) {
    e.msg.SetPause? && e.msg.pid == s.leaderID && e.msg.pause != s.paused
  }

  function Switched(w: World, e: Entry): World
    requires e.msg.SetPause?
  {
    if e.msg.pause then Paused(w, e.now) else Resumed(w, e.now)
  }

  ghost predicate TakesDrawing(w: World, pid: PlayerID, contentOk: bool) {
    InputVerdict(w.s, P.DrawingSubmit).Accepted? && contentOk && MayDraw(w, pid)
  }

  ghost predicate TakesFake(w: World, pid: PlayerID, drawing: DrawingID, raw: string) {
    InputVerdict(w.s, P.FakePromptSubmit).Accepted? && MayFake(w, pid, drawing, raw)
  }

  ghost predicate TakesVote(w: World, pid: PlayerID, drawing: DrawingID, choice: string) {
    InputVerdict(w.s, P.Voting).Accepted? && MayVote(w, pid, drawing, choice)
  }

  predicate Submits(m: Message) {
    m.SubmitDrawing? || m.SubmitFake? || m.SubmitVote?
  }

  ghost predicate Ticked(w: World, t: World, now: int) {
    && (exists trace :: DefaultTrace(trace, w, t, now))
    && if w.s.paused || w.s.status != InGame then t == w
       else forall p :: Absent(w.s, p, now) ==> HadTheirTurn(w, p, t)
  }

  /** Handling `e` takes the room from `w` to `t`. A message that is refused changes nothing,
      except that a refused join may have reset an abandoned room. */
  ghost predicate Handled(w: World, e: Entry, t: World) {
    match e.msg
    case Reconnect(pid, name) => t == BroadcastState(w.(s := Reconnected(w.s, pid, name, e.now)))
    case Join(cleaned) => Joins(w, cleaned, t, e.now)
    case Leave(pid) => if pid in w.s.players then LobbyMoves(LobbyAfter(w, e), t, e.now) else t == w
    case Ready(pid, _) =>
      if w.s.status == Idle && pid in w.s.players then LobbyMoves(LobbyAfter(w, e), t, e.now) else t == w
    case SetPause(_, _) => t == if Switches(w.s, e) then BroadcastState(Switched(w, e)) else w
    case SetPencilsDown(pid, disabled) =>
      t == if pid == w.s.leaderID then BroadcastState(w.(s := w.s.(pencilsDown := disabled))) else w
    case AdvanceReveal(pid) => if AdvanceVerdict(w.s, pid).Accepted? then Clicked(w, t, e.now) else t == w
    case UpdateSettings(pid, next) =>
      t == if pid == w.s.leaderID && w.s.status == Idle && !w.s.postGame
           then BroadcastState(w.(s := SettingsSet(w.s, next))) else w
    case RerollPrompt(pid) =>
      if RerollVerdict(w.s, pid).Accepted? then exists prompt :: prompt in w.dict && t == Rerolled(w, pid, prompt)
      else t == w
    case SubmitDrawing(pid, contentOk) =>
      if TakesDrawing(w, pid, contentOk) then exists m, d :: DrawingTaken(w, pid, true, m, d, t, e.now) else t == w
    case SubmitFake(pid, drawing, text) =>
      if TakesFake(w, pid, drawing, text) then exists m, d :: FakeTaken(w, pid, drawing, text, m, d, t, e.now) else t == w
    case SubmitVote(pid, drawing, choice) =>
      if TakesVote(w, pid, drawing, choice) then exists m, d :: VoteTaken(w, pid, drawing, choice, m, d, t, e.now)
      else t == w
    case TimerFires =>
      if w.s.status == InGame && Due(w.s, e.now) then exists m, d :: TimedOut(w, m, d, t, e.now) else t == w
    case Tick => Ticked(w, t, e.now)
  }

  // ----- what every step keeps -----

  /** On the leaderboard only an accepted click changes anything: it shows the next step, or
      leaves when all steps have been shown. */
  ghost predicate BoardMoves(a: State, e: Entry, b: State) {
    if !Clicks(a, e) then b.phaseIdx == a.phaseIdx && b.stepState == a.stepState && b.phaseData == a.phaseData
    else if StepsLeft(a.stepState) > 0 then
      && b.phaseIdx == a.phaseIdx && b.phaseData == a.phaseData
      && a.stepState.Some? && b.stepState == Some(a.stepState.value.(idx := a.stepState.value.idx + 1))
    else b.phaseIdx > a.phaseIdx
  }

  ghost predicate OnLeaderboard(s: State) {
    s.status == InGame && P.KindAt(s.phaseIdx) == P.Leaderboard
  }

  ghost predicate GameMoves(a: State, e: Entry, b: State) {
    && Continues(a, b)
    && (Pushes(a, e) ==> Less(MeasureOf(b), MeasureOf(a)))
    && (e.msg.TimerFires? && Due(a, e.now) ==> b.phaseIdx > a.phaseIdx)
    && (Frozen(a) && !Resumes(a, e) ==> StillFrozen(a, b))
    && (OnLeaderboard(a) ==> BoardMoves(a, e, b))
  }

  /** Whatever `b` has and `a` lacks is from players who are absent. */
  ghost predicate OnlyAbsentAdd(s: State, a: Contents, b: Contents, now: int) {
    match a
    case GotDrawings(items) =>
      b.GotDrawings? && forall p :: p in b.items && p !in items ==> Absent(s, p, now) && b.items[p].author == p
    case GotFakes(got) =>
      b.GotFakes? && forall p, id :: Has(b.fakes, p, id) && !Has(got, p, id) ==>
                                       && Absent(s, p, now)
                                       && b.fakes[p][id] == FakePrompt(b.fakes[p][id].id, id, p, "...")
    case GotVotes(got) =>
      b.GotVotes? && forall p, id :: Has(b.votes, p, id) && !Has(got, p, id) ==>
                                       Absent(s, p, now) && b.votes[p][id].voter == p
    case _ => b == a
  }

  /** A drawing that is new in `c` has the prompt its author holds now. */
  ghost predicate Prompted(w: World, c: Contents) {
    var prompts := PromptsIn(w.s.phaseData, w.s.round);
    w.contents.GotDrawings? && c.GotDrawings? ==>
      forall p :: p in c.items && p !in w.contents.items ==> p in prompts && c.items[p].prompt == prompts[p]
  }

  /** A phase entered by this step has shown nothing yet and its collector is empty; if it is a
      drawing phase everyone who is here has a prompt, and on the leaderboard the reveal is as
      of now. Only a heartbeat may end one phase and then file defaults in the next, and it never
      begins a drawing phase. */
  ghost predicate Arrives(w: World, e: Entry, t: World) {
    t.s.status == InGame && t.s.phaseIdx != w.s.phaseIdx ==>
      && Cursor(t.s) == 0 && StartsWith(w.s, t, e.now) && EntersWithResults(t)
      && (!e.msg.Tick? ==> t.contents == EmptyContents(P.KindAt(t.s.phaseIdx)))
      && (e.msg.Tick? ==> P.KindAt(t.s.phaseIdx) != P.DrawingSubmit)
  }

  ghost predicate EntersWithResults(t: World) {
    && (P.KindAt(t.s.phaseIdx) == P.DrawingSubmit ==> AllDealt(t, P.RoundAt(t.s.phaseIdx)))
    && (P.KindAt(t.s.phaseIdx) == P.Leaderboard ==> RevealedNow(t.s, P.RoundAt(t.s.phaseIdx)))
  }

  ghost predicate StartsWith(s: State, t: World, now: int) {
    OnlyAbsentAdd(s, EmptyContents(P.KindAt(t.s.phaseIdx)), t.contents, now)
  }

  /** What the collector has once `e` has been handled: one accepted submission more, or any
      number of default inputs on a heartbeat, or what it had. Nothing is lost or changed. */
  ghost predicate Received(w: World, e: Entry, c: Contents) {
    match e.msg
    case SubmitDrawing(pid, contentOk) =>
      if TakesDrawing(w, pid, contentOk) then
        c.GotDrawings? && exists id :: id !in w.issued &&
                                       c.items == WithDrawing(w.contents.items, pid, id, PromptsIn(w.s.phaseData, w.s.round))
      else c == w.contents
    case SubmitFake(pid, drawing, text) =>
      if TakesFake(w, pid, drawing, text) then
        c.GotFakes? && IsNewFake(c.fakes, w.contents.fakes, pid, drawing, text, w.issued)
      else c == w.contents
    case SubmitVote(pid, drawing, choice) =>
      if TakesVote(w, pid, drawing, choice) then
        c == GotVotes(With(w.contents.votes, pid, drawing, Vote(pid, drawing, choice)))
      else c == w.contents
    case Tick => Defaulted(w, c, e.now)
    case _ => c == w.contents
  }

  /** `result` is what a phase with the primitive `c` stores. */
  ghost predicate StoredAs(c: Contents, w: World, result: PhaseResult) {
    var context := ContextOf(w.s, w.dict);
    match c
    case GotDrawings(items) => result == DrawingsResult(items)
    case GotFakes(got) =>
      result.FakesResult? && IsFakesResult(result.fakes, got, context.drawings, DecoysOf(context))
    case GotVotes(got) => result.VotesResult? && IsVotesResult(result.votes, got, context.drawings)
    case Holding => result.WaitResult?
    case _ => false
  }

  /** The phase of `w` has been left, and `c` is on record for it. */
  ghost predicate LeftBehind(w: World, c: Contents, t: World) {
    var stored := ResultAt(t.s.phaseData, P.KindAt(w.s.phaseIdx), P.RoundAt(w.s.phaseIdx));
    stored.Some? && StoredAs(c, w, stored.value)
  }

  ghost predicate SamePhase(w: World, t: World) {
    t.s.status == InGame && t.s.phaseIdx == w.s.phaseIdx
  }

  /** Within a phase the collector holds what has been received; leaving it stores just that. */
  ghost predicate CollectorMoves(w: World, e: Entry, t: World) {
    exists c :: Received(w, e, c) && if SamePhase(w, t) then t.contents == c else LeftBehind(w, c, t)
  }

  /** A drawing of one's own, once it is in, and a reroll are noted for the round. */
  ghost predicate NotesDrawing(w: World, e: Entry) {
    e.msg.SubmitDrawing? && TakesDrawing(w, e.msg.pid, e.msg.contentOk)
  }

  predicate NotesReroll(s: State, e: Entry) {
    e.msg.RerollPrompt? && RerollVerdict(s, e.msg.pid).Accepted?
  }

  ghost predicate NotesMove(w: World, e: Entry, t: World) {
    && t.s.drawn == (if NotesDrawing(w, e) then w.s.drawn + {(w.s.round, e.msg.pid)} else w.s.drawn)
    && t.s.rerolled == (if NotesReroll(w.s, e) then w.s.rerolled + {(w.s.round, e.msg.pid)} else w.s.rerolled)
  }

  predicate KeepsNotes(a: State, b: State) {
    b.drawn == a.drawn && b.rerolled == a.rerolled
  }

  ghost predicate SameClock(w: World, t: World) {
    && t.watch == w.watch && t.s.paused == w.s.paused && t.s.phaseTimer == w.s.phaseTimer
    && t.s.phaseDeadline == w.s.phaseDeadline && t.s.pauseRemaining == w.s.pauseRemaining
    && t.s.phaseIdx == w.s.phaseIdx && t.s.phases == w.s.phases
  }

  /** Only the leader's switch and the start of a phase touch the clock. */
  ghost predicate ClockMoves(w: World, e: Entry, t: World) {
    t.s.status == InGame ==>
      if Switches(w.s, e) then SameClock(Switched(w, e), t)
      else SameClock(w, t) || NewClock(w, t, e.now)
  }

  /** A later phase has begun, paused or not as before. */
  ghost predicate NewClock(w: World, t: World, now: int) {
    t.s.phaseIdx > w.s.phaseIdx && t.s.paused == w.s.paused && JustBegun(t.watch, t.s, now)
  }

  /** The leader changes only by leaving, or when there was none; and only a reconnect can
      leave a joiner who is here without a leader. */
  ghost predicate LeaderMoves(a: State, e: Entry, b: State) {
    && (b.leaderID != a.leaderID ==> a.leaderID == NOBODY || e.msg == Leave(a.leaderID))
    && (a.leaderID in a.players && e.msg == Leave(a.leaderID) ==> b.leaderID == FirstConnected(b.joinOrder, b.players))
    && (LedIfPossible(a) && !e.msg.Reconnect? ==> LedIfPossible(b))
  }

  /** A place in the join order is taken by joining, at the end, and kept; whoever joins a room
      that nobody leads leads it. */
  predicate OrderMoves(a: State, e: Entry, b: State) {
    if !e.msg.Join? then b.joinOrder == a.joinOrder
    else
      && a.joinOrder <= b.joinOrder && |b.joinOrder| <= |a.joinOrder| + 1
      && (|b.joinOrder| > |a.joinOrder| ==>
            var pid := b.joinOrder[|a.joinOrder|];
            pid !in a.players && (a.leaderID == NOBODY ==> b.leaderID == pid))
  }

  /** A player is away from their own leave on until they are back, and is ready only by their own
      word. */
  predicate PresenceMoves(a: State, e: Entry, b: State) {
    forall p :: p in b.players ==>
                  && (e.msg == Leave(p) ==> !b.players[p].connected && b.players[p].lastSeen == e.now)
                  && (!b.players[p].connected && e.msg != Leave(p) ==>
                        p in a.players && !a.players[p].connected && b.players[p].lastSeen == a.players[p].lastSeen)
                  && (b.players[p].ready ==>
                        || e.msg == Ready(p, true)
                        || (p in a.players && a.players[p].ready && (a.status == InGame || e.msg != Ready(p, false))))
  }

  predicate Configures(s: State, e: Entry) {
    e.msg.UpdateSettings? && e.msg.pid == s.leaderID && s.status == Idle && !s.postGame
  }

  /** Messages by which a game is played, and the clock's. */
  predicate InPlay(m: Message) {
    Submits(m) || m.AdvanceReveal? || m.TimerFires? || m.Tick?
  }

  predicate SameSeats(a: State, b: State) {
    && b.players == a.players && b.joinOrder == a.joinOrder && b.leaderID == a.leaderID
    && b.paused == a.paused && b.pencilsDown == a.pencilsDown && b.settings == a.settings
  }

  /** The pause, the draw lock and the settings are what the leader last made them. */
  predicate ControlsMove(a: State, e: Entry, b: State) {
    && b.paused == (if e.msg.SetPause? && e.msg.pid == a.leaderID then e.msg.pause else a.paused)
    && b.pencilsDown == (if e.msg.SetPencilsDown? && e.msg.pid == a.leaderID then e.msg.disabled else a.pencilsDown)
    && b.settings == (if Configures(a, e) then NormalizeSettings(e.msg.next) else a.settings)
    && (Configures(a, e) ==> forall p :: p in b.players ==> !b.players[p].ready)
  }

  ghost predicate SeatsMove(a: State, e: Entry, b: State) {
    LeaderMoves(a, e, b) && OrderMoves(a, e, b) && PresenceMoves(a, e, b) && ControlsMove(a, e, b)
  }

  /** A player readies up or leaves, and that leaves at least three players here, all ready. */
  ghost predicate StartsGame(w: World, e: Entry) {
    (e.msg.Ready? || e.msg.Leave?) && e.msg.pid in w.s.players && CanStart(LobbyAfter(w, e).s.players)
  }

  /** Out of `lobby` a game has begun: it is in the first drawing phase of a plan of as many rounds
      as configured, everyone has just been dealt a prompt, nothing is in the collector and
      nothing is noted. */
  ghost predicate FirstPhase(lobby: State, t: World, now: int) {
    && SameSeats(lobby, t.s) && t.s.status == InGame && t.s.phaseIdx == 1 && |t.s.phases| == 7 * t.s.settings.roundCount
    && JustBegun(t.watch, t.s, now) && AllDealt(t, 1) && t.contents == GotDrawings(map[])
    && t.s.drawn == {} && t.s.rerolled == {}
  }

  /** A game begins just then, out of a clean lobby. */
  ghost predicate LobbyStarts(w: World, e: Entry, t: World) {
    && (t.s.status == InGame <==> StartsGame(w, e))
    && (StartsGame(w, e) ==> CleanLobby(LobbyAfter(w, e)) && FirstPhase(LobbyAfter(w, e).s, t, e.now))
  }

  ghost predicate Plays(w: World, e: Entry, t: World) {
    && GameMoves(w.s, e, t.s) && ClockMoves(w, e, t) && CollectorMoves(w, e, t) && NotesMove(w, e, t)
    && Arrives(w, e, t)
  }

  /** The session goes on: frames and ids are only added, and the seats move as stated. */
  ghost predicate GoesOnFrom(w: World, e: Entry, t: World) {
    t.dict == w.dict && w.issued <= t.issued && w.sent <= t.sent && SeatsMove(w.s, e, t.s)
  }

  /** A new session, with nobody in the room or only the player who has just joined. */
  ghost predicate StartsOver(w: World, t: World) {
    && t.dict == w.dict && w.issued <= t.issued && CleanLobby(t) && LedIfPossible(t.s)
    && forall p :: p in t.s.players ==> t.s.players[p].connected && !t.s.players[p].ready
  }

  ghost predicate Next(w: World, e: Entry, t: World) {
    match w.s.status
    case Idle => if Resets(w.s, e) then StartsOver(w, t) else GoesOnFrom(w, e, t) && LobbyStarts(w, e, t)
    case InGame => if Resets(w.s, e) then StartsOver(w, t) else GoesOnFrom(w, e, t) && Plays(w, e, t)
  }

  // ----- steps that leave the game alone -----

  /** Nothing of a game in progress moves. */
  ghost predicate SameGame(w: World, t: World) {
    && t.contents == w.contents
    && t.s.status == w.s.status && t.s.phases == w.s.phases && t.s.phaseIdx == w.s.phaseIdx
    && t.s.phaseData == w.s.phaseData && t.s.scores == w.s.scores && t.s.stepState == w.s.stepState
    && KeepsNotes(w.s, t.s)
  }

  /** ... nor the clock. */
  lemma SameGamePlays(w: World, e: Entry, t: World)
    requires w.s.status == InGame && SameGame(w, t) && SameClock(w, t)
    requires !Pushes(w.s, e) && !Switches(w.s, e) && Received(w, e, w.contents)
    requires !NotesDrawing(w, e) && !NotesReroll(w.s, e)
    ensures Plays(w, e, t)
  {
  }

  lemma Itself(w: World, now: int)
    ensures Defaulted(w, w.contents, now)
  {
  }

  lemma NothingHappens(w: World, e: Entry)
    requires !Pushes(w.s, e) && !Resets(w.s, e) && !Switches(w.s, e) && Received(w, e, w.contents)
    requires !NotesDrawing(w, e) && !NotesReroll(w.s, e) && (w.s.status == Idle ==> !StartsGame(w, e))
    requires !Configures(w.s, e) && !(e.msg.SetPencilsDown? && e.msg.pid == w.s.leaderID)
    requires e.msg.Leave? || e.msg.Ready? ==> e.msg.pid !in w.s.players || (e.msg.Ready? && w.s.status == InGame)
    ensures Next(w, e, w)
  {
    if w.s.status == InGame {
      SameGamePlays(w, e, w);
    }
  }

  /** A change of the room's state that is announced by a snapshot. */
  lemma SnapshotPasses(w: World, e: Entry, t: State)
    requires !Resets(w.s, e) && SeatsMove(w.s, e, t) && t.status == w.s.status
    requires if w.s.status == InGame then Plays(w, e, w.(s := t)) else !StartsGame(w, e)
    ensures Next(w, e, BroadcastState(w.(s := t)))
  {
    if w.s.status == InGame {
      SnapshotPlays(w, e, w.(s := t));
    }
  }

  lemma SnapshotPlays(w: World, e: Entry, t: World)
    requires Plays(w, e, t)
    ensures Plays(w, e, BroadcastState(t))
  {
    var c :| Received(w, e, c) && if SamePhase(w, t) then t.contents == c else LeftBehind(w, c, t);
    assert SamePhase(w, BroadcastState(t)) == SamePhase(w, t);
  }

  // ----- seats -----

  lemma ReconnectIsNext(w: World, e: Entry)
    requires e.msg.Reconnect?
    ensures Next(w, e, BroadcastState(w.(s := Reconnected(w.s, e.msg.pid, e.msg.name, e.now))))
  {
    var back := Reconnected(w.s, e.msg.pid, e.msg.name, e.now);
    if w.s.status == InGame {
      SameGamePlays(w, e, w.(s := back));
    }
    SnapshotPasses(w, e, back);
  }

  lemma ResetIsClean(w: World)
    requires Good(w) && Abandoned(w.s)
    ensures Good(Reset(w)) && CleanLobby(Reset(w))
  {
    ResetDropsNobody(w, NOBODY);
  }

  lemma JoinIsNext(w: World, e: Entry, pid: PlayerID)
    requires Good(w) && e.msg.Join? && e.msg.cleaned.Some? && pid != NOBODY && pid !in w.s.players
    requires w.s.status == Idle && !Abandoned(w.s)
    ensures var t := Joined(w, pid, e.msg.cleaned.value, e.now);
            Good(t) && Next(w, e, t)
  {
    JoinIsGood(w, pid, e.msg.cleaned.value, e.now);
    SeatingFillsPost(w.s, pid, e.msg.cleaned.value, e.now);
  }

  /** The first player of a new session. */
  lemma FreshJoinIsNext(w: World, e: Entry, pid: PlayerID)
    requires Good(w) && e.msg.Join? && e.msg.cleaned.Some? && pid != NOBODY && Abandoned(w.s)
    ensures var t := Joined(Reset(w), pid, e.msg.cleaned.value, e.now);
            Good(t) && Next(w, e, t)
  {
    ResetIsClean(w);
    JoinIsGood(Reset(w), pid, e.msg.cleaned.value, e.now);
    FirstSeat(w, e, pid);
  }

  lemma FirstSeat(w: World, e: Entry, pid: PlayerID)
    requires e.msg.Join? && e.msg.cleaned.Some? && pid != NOBODY && Abandoned(w.s)
    ensures var t := Joined(Reset(w), pid, e.msg.cleaned.value, e.now);
            Good(t) ==> Next(w, e, t)
  {
    var t := Joined(Reset(w), pid, e.msg.cleaned.value, e.now);
    assert t.s.leaderID == pid;
  }

  lemma RefusedJoinIsNext(w: World, e: Entry)
    requires Good(w) && e.msg.Join?
    ensures var t := if Abandoned(w.s) then Reset(w) else w;
            Good(t) && Next(w, e, t)
  {
    if Abandoned(w.s) {
      ResetIsClean(w);
    } else {
      NothingHappens(w, e);
    }
  }

  lemma JoinAnswerIsNext(w: World, e: Entry, t: World)
    requires Good(w) && e.msg.Join? && Joins(w, e.msg.cleaned, t, e.now)
    ensures Good(t) && Next(w, e, t)
  {
    var base := if Abandoned(w.s) then Reset(w) else w;
    if base.s.status == Idle && e.msg.cleaned.Some? {
      var pid :| pid !in w.s.players && pid != NOBODY && t == Joined(base, pid, e.msg.cleaned.value, e.now);
      if Abandoned(w.s) {
        FreshJoinIsNext(w, e, pid);
      } else {
        JoinIsNext(w, e, pid);
      }
    } else {
      RefusedJoinIsNext(w, e);
    }
  }

  lemma PencilsAreNext(w: World, e: Entry)
    requires e.msg.SetPencilsDown? && e.msg.pid == w.s.leaderID
    ensures Next(w, e, BroadcastState(w.(s := w.s.(pencilsDown := e.msg.disabled))))
  {
    var after := w.s.(pencilsDown := e.msg.disabled);
    if w.s.status == InGame {
      SameGamePlays(w, e, w.(s := after));
    }
    SnapshotPasses(w, e, after);
  }

  lemma SettingsAreNext(w: World, e: Entry)
    requires Configures(w.s, e)
    ensures Next(w, e, BroadcastState(w.(s := SettingsSet(w.s, e.msg.next))))
  {
    SnapshotPasses(w, e, SettingsSet(w.s, e.msg.next));
  }

  lemma NewSettingsAreGood(w: World, next: P.Settings)
    requires Good(w) && w.s.status == Idle && !w.s.postGame
    ensures Good(BroadcastState(w.(s := SettingsSet(w.s, next))))
  {
    SettingsAreGood(w, next);
    SnapshotIsNoNews(w.(s := SettingsSet(w.s, next)));
  }

  // ----- a game begins -----

  /** What the lobby message itself does. */
  lemma LobbyIsGood(w: World, e: Entry)
    requires Good(w) && (e.msg.Ready? || e.msg.Leave?) && e.msg.pid in w.s.players
    requires e.msg.Ready? ==> w.s.status == Idle
    ensures Good(LobbyAfter(w, e)) && SeatsMove(w.s, e, LobbyAfter(w, e).s)
  {
    if e.msg.Ready? {
      ReadyIsGood(w, e.msg.pid, e.msg.ready);
      ReadySeat(w.s, e);
    } else {
      LeaveIsGood(w, e.msg.pid, e.now);
      NobodyIsNoPlayer(w);
      LeaveSeat(w.s, e);
    }
  }

  lemma NobodyIsNoPlayer(w: World)
    requires Good(w)
    ensures NOBODY !in w.s.players
  {
  }

  lemma ReadySeat(s: State, e: Entry)
    requires e.msg.Ready? && e.msg.pid in s.players && s.status == Idle
    ensures SeatsMove(s, e, ReadySet(s, e.msg.pid, e.msg.ready))
  {
  }

  lemma LeaveSeat(s: State, e: Entry)
    requires e.msg.Leave? && e.msg.pid in s.players && NOBODY !in s.players
    ensures SeatsMove(s, e, Departed(s, e.msg.pid, e.now))
  {
    if LedIfPossible(s) {
      DepartureFillsPost(s, e.msg.pid, e.now);
    }
  }

  lemma BegunIsFirstPhase(lobby: World, t: World, now: int)
    requires CleanLobby(lobby) && CanStart(lobby.s.players) && Begun(lobby, t, now)
    ensures Good(t) && t.dict == lobby.dict && lobby.issued <= t.issued && lobby.sent <= t.sent
    ensures FirstPhase(lobby.s, t, now)
  {
    var phases := BegunRests(lobby, t, now);
    CarriedIntoGame(Started(lobby, phases), t, now);
  }

  lemma CarriedIntoGame(w: World, t: World, now: int)
    requires w.s.status == InGame && 1 < |w.s.phases| && Rested(w, t, 1, now)
    ensures t.s.status == InGame && SameRoom(w.s, t.s) && JustBegun(t.watch, t.s, now)
    ensures t.contents == GotDrawings(map[]) && KeepsNotes(w.s, t.s) && t.s.phases == w.s.phases
  {
  }

  lemma StartIsNext(w: World, e: Entry, t: World)
    requires Good(w) && w.s.status == Idle && StartsGame(w, e) && Begun(LobbyAfter(w, e), t, e.now)
    ensures Good(t) && Next(w, e, t)
  {
    LobbyIsGood(w, e);
    StartKeepsSeats(LobbyAfter(w, e), t, e.now);
    StartMoves(w, e, LobbyAfter(w, e), t);
  }

  lemma StartMoves(w: World, e: Entry, lobby: World, t: World)
    requires w.s.status == Idle && StartsGame(w, e) && lobby == LobbyAfter(w, e)
    ensures SeatsMove(w.s, e, lobby.s) && CleanLobby(lobby) && FirstPhase(lobby.s, t, e.now)
            && t.dict == lobby.dict && lobby.issued <= t.issued && lobby.sent <= t.sent ==>
              GoesOnFrom(w, e, t) && LobbyStarts(w, e, t) && Next(w, e, t)
  {
    SameSeatsMove(w.s, e, lobby.s, t.s);
    LobbySends(w, e, t.sent);
  }

  lemma LobbySends(w: World, e: Entry, sent: seq<Event>)
    requires (e.msg.Ready? || e.msg.Leave?) && e.msg.pid in w.s.players
    ensures var lobby := LobbyAfter(w, e);
            lobby.dict == w.dict && lobby.issued == w.issued && (lobby.sent <= sent ==> w.sent <= sent)
  {
    assert w.sent <= LobbyAfter(w, e).sent;
  }

  lemma StartKeepsSeats(lobby: World, t: World, now: int)
    requires lobby.s.status == Idle && CanStart(lobby.s.players) && Begun(lobby, t, now)
    ensures Good(lobby) ==>
              && CleanLobby(lobby) && Good(t) && FirstPhase(lobby.s, t, now)
              && t.dict == lobby.dict && lobby.issued <= t.issued && lobby.sent <= t.sent
  {
    if Good(lobby) {
      StartNeedsCleanLobby(lobby);
      BegunIsFirstPhase(lobby, t, now);
    }
  }

  lemma StartIsBegun(w: World, e: Entry, t: World)
    requires Handled(w, e, t) && w.s.status == Idle && StartsGame(w, e)
    ensures Begun(LobbyAfter(w, e), t, e.now)
  {
  }

  lemma SameSeatsMove(a: State, e: Entry, b: State, c: State)
    ensures SameSeats(b, c) && SeatsMove(a, e, b) ==> SeatsMove(a, e, c)
  {
    if SameSeats(b, c) {
      assert LedIfPossible(c) == LedIfPossible(b);
    }
  }

  lemma LeaveIsNext(w: World, e: Entry)
    requires w.s.status == InGame && e.msg.Leave? && e.msg.pid in w.s.players
    ensures SeatsMove(w.s, e, LobbyAfter(w, e).s) ==> Next(w, e, LobbyAfter(w, e))
  {
    var after := Departed(w.s, e.msg.pid, e.now);
    if SeatsMove(w.s, e, LobbyAfter(w, e).s) {
      SameGamePlays(w, e, w.(s := after));
      SnapshotPasses(w, e, after);
    }
  }

  lemma LobbyMoveIsNext(w: World, e: Entry, t: World)
    requires (e.msg.Ready? || e.msg.Leave?) && e.msg.pid in w.s.players && (e.msg.Ready? ==> w.s.status == Idle)
    ensures Good(w) && LobbyMoves(LobbyAfter(w, e), t, e.now) ==> Good(t) && Next(w, e, t)
  {
    if Good(w) && LobbyMoves(LobbyAfter(w, e), t, e.now) {
      if w.s.status == Idle && StartsGame(w, e) {
        StartIsNext(w, e, t);
      } else {
        LobbyIsGood(w, e);
        LobbyStays(w, e);
      }
    }
  }

  lemma LobbyStays(w: World, e: Entry)
    requires (e.msg.Ready? || e.msg.Leave?) && e.msg.pid in w.s.players && (e.msg.Ready? ==> w.s.status == Idle)
    requires w.s.status == Idle ==> !StartsGame(w, e)
    ensures SeatsMove(w.s, e, LobbyAfter(w, e).s) ==> Next(w, e, LobbyAfter(w, e))
  {
    if w.s.status == InGame {
      LeaveIsNext(w, e);
    }
  }

  // ----- the clock -----

  lemma SwitchPlays(w: World, e: Entry)
    requires w.s.status == InGame && Switches(w.s, e)
    ensures Plays(w, e, Switched(w, e))
  {
    SwitchMoves(w, e);
    assert Received(w, e, w.contents);
  }

  lemma SwitchMoves(w: World, e: Entry)
    requires w.s.status == InGame && Switches(w.s, e)
    ensures GameMoves(w.s, e, Switched(w, e).s)
  {
    assert Continues(w.s, Switched(w, e).s);
  }

  lemma SwitchIsNext(w: World, e: Entry)
    requires Switches(w.s, e)
    ensures Next(w, e, BroadcastState(Switched(w, e)))
  {
    SwitchKeepsLeader(w, e);
    if w.s.status == InGame {
      SwitchPlaysOn(w, e);
    } else {
      SwitchStartsNothing(w, e);
    }
  }

  lemma SwitchStartsNothing(w: World, e: Entry)
    requires w.s.status == Idle && Switches(w.s, e)
    ensures LobbyStarts(w, e, BroadcastState(Switched(w, e)))
  {
  }

  lemma SwitchPlaysOn(w: World, e: Entry)
    requires w.s.status == InGame && Switches(w.s, e)
    ensures Plays(w, e, BroadcastState(Switched(w, e)))
  {
    SwitchPlays(w, e);
    SnapshotPlays(w, e, Switched(w, e));
  }

  lemma SwitchKeepsLeader(w: World, e: Entry)
    requires Switches(w.s, e)
    ensures SeatsMove(w.s, e, BroadcastState(Switched(w, e)).s)
    ensures var t := BroadcastState(Switched(w, e));
            t.dict == w.dict && t.issued == w.issued && w.sent <= t.sent
  {
    assert LedIfPossible(Switched(w, e).s) == LedIfPossible(w.s);
  }

  // ----- steps that move a game -----

  /** The phase of `w`, whose primitive ended up as `c`, has been left for good. */
  ghost predicate MovedOn(w: World, c: Contents, t: World, now: int) {
    && t.s.phaseIdx > w.s.phaseIdx && t.dict == w.dict && w.issued <= t.issued && w.sent <= t.sent
    && Continues(w.s, t.s) && Less(MeasureOf(t.s), MeasureOf(w.s)) && SameRoom(w.s, t.s)
    && LeftBehind(w, c, t)
    && (t.s.status == InGame ==>
          && NewClock(w, t, now) && Cursor(t.s) == 0 && StartsWith(w.s, t, now) && EntersWithResults(t)
          && (P.KindAt(t.s.phaseIdx) == P.DrawingSubmit ==> P.KindAt(w.s.phaseIdx) == P.Leaderboard))
  }

  ghost predicate EmptyAt(t: World) {
    t.s.status == InGame ==> t.contents == EmptyContents(P.KindAt(t.s.phaseIdx))
  }

  lemma ClosesStores(m: World, d: Decision)
    requires ClosesWith(m, d)
    ensures d.advance && d.result.Some? && StoredAs(m.contents, m, d.result.value)
  {
  }

  lemma RestedArrives(m: World, t: World, rest: nat, now: int)
    requires Rested(m, t, rest, now) && rest > m.s.phaseIdx
    ensures t.s.status == InGame ==>
              NewClock(m, t, now) && Cursor(t.s) == 0 && t.contents == EmptyContents(P.KindAt(t.s.phaseIdx))
    ensures t.dict == m.dict && m.issued <= t.issued && m.sent <= t.sent
  {
  }

  lemma AdvanceMovesOn(m: World, d: Decision, t: World, now: int)
    requires Decided(m, d) && ClosesWith(m, d) && Applies(m, d, t, now) && Rests(P.KindAt(m.s.phaseIdx))
    ensures Good(t) && MovedOn(m, m.contents, t, now) && EmptyAt(t) && KeepsNotes(m.s, t.s)
  {
    ClosesStores(m, d);
    NextDeal(m, d, t, now);
    NextReveal(m, d, t, now);
    AdvanceRests(m, d, t, now);
    AdvanceIsProgress(m, d, t, now);
    RestIsAhead(m.s, d.result.value);
    RestedArrives(m, t, NextRest(m.s, d.result.value), now);
    CarriedSameRoom(m.s, t.s, NextRest(m.s, d.result.value));
  }

  /** What is filed in between makes no difference. */
  lemma FiledMovesOn(w: World, m: World, c: Contents, t: World, now: int)
    requires m == Filed(w, m.contents, m.s.drawn, m.issued) && w.issued <= m.issued
    ensures MovedOn(m, c, t, now) ==> MovedOn(w, c, t, now)
  {
  }

  lemma MovedIsNext(w: World, e: Entry, c: Contents, t: World)
    requires w.s.status == InGame && !Frozen(w.s) && InPlay(e.msg)
    requires OnLeaderboard(w.s) ==> Clicks(w.s, e) && StepsLeft(w.s.stepState) == 0
    requires Received(w, e, c) && MovedOn(w, c, t, e.now) && NotesMove(w, e, t) && (!e.msg.Tick? ==> EmptyAt(t))
    ensures Next(w, e, t)
  {
    SameRoomKeepsLeader(w.s, e, t.s);
  }

  /** ... by the timer or the leader, with nothing new in the collector. */
  lemma PushedIsNext(w: World, e: Entry, t: World)
    requires w.s.status == InGame && !Frozen(w.s) && (e.msg.TimerFires? || e.msg.AdvanceReveal?)
    requires OnLeaderboard(w.s) ==> Clicks(w.s, e) && StepsLeft(w.s.stepState) == 0
    ensures MovedOn(w, w.contents, t, e.now) && EmptyAt(t) && KeepsNotes(w.s, t.s) ==> Next(w, e, t)
  {
    if MovedOn(w, w.contents, t, e.now) && EmptyAt(t) && KeepsNotes(w.s, t.s) {
      MovedIsNext(w, e, w.contents, t);
    }
  }

  lemma FiledIsNext(w: World, e: Entry, t: World)
    requires w.s.status == InGame && Received(w, e, t.contents)
    requires t == Filed(w, t.contents, t.s.drawn, t.issued) && w.issued <= t.issued && NotesMove(w, e, t)
    requires !Frozen(w.s) && !Resets(w.s, e) && !Switches(w.s, e) && !Pushes(w.s, e) && InPlay(e.msg)
    ensures Next(w, e, t)
  {
    SameRoomKeepsLeader(w.s, e, t.s);
  }

  lemma SameRoomKeepsLeader(a: State, e: Entry, b: State)
    requires SameRoom(a, b) && a.status == InGame && InPlay(e.msg)
    ensures SeatsMove(a, e, b)
  {
    assert forall p :: Connected(b.players, p) == Connected(a.players, p);
  }

  lemma TimeoutMoves(w: World, m: World, d: Decision, t: World, now: int)
    requires Good(w) && w.s.phaseTimer.Some? && TimedOut(w, m, d, t, now)
    ensures Good(t) && MovedOn(w, w.contents, t, now) && EmptyAt(t) && KeepsNotes(w.s, t.s)
  {
    TimeoutDecided(w, m, d, t, now);
    TimerNeedsGame(w);
    AdvanceMovesOn(m, d, t, now);
    FiledMovesOn(w, m, w.contents, t, now);
  }

  lemma TimeoutIsNext(w: World, e: Entry, m: World, d: Decision, t: World)
    requires Good(w) && e.msg.TimerFires? && w.s.phaseTimer.Some? && TimedOut(w, m, d, t, e.now)
    ensures Good(t) && Next(w, e, t)
  {
    TimeoutMoves(w, m, d, t, e.now);
    TimerNeedsGame(w);
    PushedIsNext(w, e, t);
  }

  lemma StepPlays(w: World, e: Entry)
    requires w.s.status == InGame && Clicks(w.s, e) && MoreSteps(w.s)
    requires Continues(w.s, StepShown(w).s) && Less(MeasureOf(StepShown(w).s), MeasureOf(w.s))
    ensures Plays(w, e, StepShown(w))
  {
    assert Received(w, e, w.contents);
  }

  lemma ClickIsNext(w: World, e: Entry, t: World)
    requires Good(w) && Clicks(w.s, e) && Clicked(w, t, e.now)
    ensures Good(t) && Next(w, e, t)
  {
    if MoreSteps(w.s) {
      StepIsNext(w, e);
    } else {
      LeavingIsNext(w, e, t);
    }
  }

  lemma StepIsNext(w: World, e: Entry)
    requires Good(w) && Clicks(w.s, e) && MoreSteps(w.s)
    ensures Good(StepShown(w)) && Next(w, e, StepShown(w))
  {
    ClickIsProgress(w, StepShown(w), e.now);
    StepPlays(w, e);
    SameRoomKeepsLeader(w.s, e, StepShown(w).s);
  }

  lemma LeavingMoves(w: World, t: World, now: int)
    requires Resting(w) && P.KindAt(w.s.phaseIdx) == P.Leaderboard && !w.s.paused && Applies(w, DONE, t, now)
    ensures Good(t) && MovedOn(w, w.contents, t, now) && EmptyAt(t) && KeepsNotes(w.s, t.s)
  {
    LeaderboardDecided(w);
    AdvanceMovesOn(w, DONE, t, now);
  }

  lemma LeavingIsNext(w: World, e: Entry, t: World)
    requires Good(w) && Clicks(w.s, e) && !MoreSteps(w.s) && Applies(w, DONE, t, e.now)
    ensures Good(t) && Next(w, e, t)
  {
    LeavingMoves(w, t, e.now);
    BoardIsThrough(w.s);
    PushedIsNext(w, e, t);
  }

  lemma BoardIsThrough(s: State)
    ensures !MoreSteps(s) ==> StepsLeft(s.stepState) == 0
  {
  }

  lemma RerollPlays(w: World, e: Entry, t: World)
    requires w.s.status == InGame && e.msg.RerollPrompt? && !Frozen(w.s) && !OnLeaderboard(w.s)
    requires Continues(w.s, t.s) && t.s == w.s.(phaseData := t.s.phaseData, rerolled := t.s.rerolled)
    requires t.contents == w.contents && t.watch == w.watch && NotesMove(w, e, t)
    ensures Plays(w, e, t)
  {
    assert Received(w, e, w.contents);
  }

  lemma RerollKeepsSeats(s: State, e: Entry, t: State)
    requires e.msg.RerollPrompt? && t == s.(phaseData := t.phaseData, rerolled := t.rerolled)
    ensures SeatsMove(s, e, t)
  {
    assert LedIfPossible(t) == LedIfPossible(s);
  }

  lemma RerollIsNext(w: World, e: Entry, prompt: string)
    requires Good(w) && e.msg.RerollPrompt? && RerollVerdict(w.s, e.msg.pid).Accepted?
    ensures var t := Rerolled(w, e.msg.pid, prompt);
            Good(t) && Next(w, e, t)
  {
    var t := Rerolled(w, e.msg.pid, prompt);
    RerollIsGood(w, e.msg.pid, prompt);
    RerollPlays(w, e, t);
    RerollKeepsSeats(w.s, e, t.s);
  }

  // ----- submissions -----

  lemma TakenIsNext(w: World, e: Entry, m: World, d: Decision, t: World)
    requires Good(w) && w.s.status == InGame && !w.s.paused && Resting(m) && Taken(w, m, d, t, e.now)
    requires Received(w, e, m.contents) && Submits(e.msg) && NotesMove(w, e, m)
    ensures Good(t) && Next(w, e, t)
  {
    if d.advance {
      TakenDecided(w, m, d, t, e.now);
      AdvanceMovesOn(m, d, t, e.now);
      FiledMovesOn(w, m, m.contents, t, e.now);
      MovedIsNext(w, e, m.contents, t);
    } else {
      FiledIsNext(w, e, t);
    }
  }

  lemma DrawingIsNext(w: World, e: Entry, m: World, d: Decision, t: World)
    requires Good(w) && e.msg.SubmitDrawing? && e.msg.pid != NOBODY && TakesDrawing(w, e.msg.pid, e.msg.contentOk)
    requires DrawingTaken(w, e.msg.pid, true, m, d, t, e.now)
    ensures Good(t) && Next(w, e, t)
  {
    DrawingIsTaken(w, e.msg.pid, true, m, d, t, e.now);
    DrawingFiledIsGood(w, m, e.msg.pid, true, d);
    TakenIsNext(w, e, m, d, t);
  }

  lemma FakeIsNext(w: World, e: Entry, m: World, d: Decision, t: World)
    requires Good(w) && e.msg.SubmitFake? && e.msg.pid != NOBODY && TakesFake(w, e.msg.pid, e.msg.drawing, e.msg.text)
    requires FakeTaken(w, e.msg.pid, e.msg.drawing, e.msg.text, m, d, t, e.now)
    ensures Good(t) && Next(w, e, t)
  {
    FakeIsTaken(w, e.msg.pid, e.msg.drawing, e.msg.text, m, d, t, e.now);
    FakeFiledIsGood(w, m, e.msg.pid, e.msg.drawing, e.msg.text, d);
    TakenIsNext(w, e, m, d, t);
  }

  lemma VoteIsNext(w: World, e: Entry, m: World, d: Decision, t: World)
    requires Good(w) && e.msg.SubmitVote? && TakesVote(w, e.msg.pid, e.msg.drawing, e.msg.choice)
    requires VoteTaken(w, e.msg.pid, e.msg.drawing, e.msg.choice, m, d, t, e.now)
    ensures Good(t) && Next(w, e, t)
  {
    VoteIsTaken(w, e.msg.pid, e.msg.drawing, e.msg.choice, m, d, t, e.now);
    VoteFiledIsGood(w, m, e.msg.pid, e.msg.drawing, e.msg.choice, d);
    TakenIsNext(w, e, m, d, t);
  }

  // ----- heartbeats -----

  /** `c` is the collector of `w` after some defaults for the absent. */
  ghost predicate Defaulted(w: World, c: Contents, now: int) {
    KeepsItems(w.contents, c) && OnlyAbsentAdd(w.s, w.contents, c, now) && Prompted(w, c)
  }

  /** The phase goes on, with more in the collector. */
  ghost predicate Filled(w: World, t: World, now: int) {
    && t == Filed(w, t.contents, w.s.drawn, t.issued) && w.issued <= t.issued && Defaulted(w, t.contents, now)
  }

  /** A heartbeat finds nothing to do, or files defaults, or ends a phase by them, keeping what
      was in its collector. */
  ghost predicate Beaten(w: World, t: World, now: int) {
    || t == w
    || (&& w.s.status == InGame && !w.s.paused && KeepsNotes(w.s, t.s)
        && P.KindAt(w.s.phaseIdx) in {P.DrawingSubmit, P.FakePromptSubmit, P.Voting}
        && (Filled(w, t, now) || exists c :: Defaulted(w, c, now) && MovedOn(w, c, t, now)))
  }

  lemma {:induction false} TraceIsBeat(trace: seq<World>, w: World, t: World, now: int)
    requires Good(w) && DefaultTrace(trace, w, t, now)
    ensures Good(t) && Beaten(w, t, now)
    decreases |trace|
  {
    if |trace| > 1 {
      var init, before := trace[..|trace| - 1], trace[|trace| - 2];
      assert DefaultTrace(init, w, before, now) by {
        forall i | 0 <= i < |init| - 1
          ensures DefaultStep(init[i], init[i + 1], now)
        {
          assert DefaultStep(trace[i], trace[i + 1], now);
        }
      }
      TraceIsBeat(init, w, before, now);
      assert DefaultStep(trace[|trace| - 2], trace[|trace| - 1], now);
      OneMoreBeat(w, before, t, now);
    }
  }

  lemma DefaultIsForAbsent(w: World, pid: PlayerID, m: World, d: Decision, t: World, now: int)
    requires Absent(w.s, pid, now) && DefaultInput(w, pid, m, d, t, now)
    ensures Defaulted(w, m.contents, now) && KeepsNotes(w.s, m.s)
  {
    DefaultIsTaken(w, pid, m, d, t, now);
  }

  /** One default input. */
  lemma DefaultMoves(w: World, t: World, now: int)
    requires Good(w) && DefaultStep(w, t, now)
    ensures Good(t) && w.s.status == InGame && Beaten(w, t, now)
  {
    var pid :| Absent(w.s, pid, now) && DefaultTaken(w, pid, t, now);
    var m, d := UnpackDefault(w, pid, t, now);
    DefaultIsForAbsent(w, pid, m, d, t, now);
    DefaultBeats(w, m, d, t, now);
  }

  lemma DefaultBeats(w: World, m: World, d: Decision, t: World, now: int)
    requires w.s.status == InGame && !w.s.paused && Resting(m) && Taken(w, m, d, t, now)
    requires Defaulted(w, m.contents, now) && KeepsNotes(w.s, m.s)
    ensures Good(t) && Beaten(w, t, now)
  {
    TakenCollects(w, m, d, t, now);
    if d.advance {
      TakenDecided(w, m, d, t, now);
      AdvanceMovesOn(m, d, t, now);
      FiledMovesOn(w, m, m.contents, t, now);
    }
  }

  lemma TakenCollects(w: World, m: World, d: Decision, t: World, now: int)
    requires Resting(m) && Taken(w, m, d, t, now)
    ensures P.KindAt(w.s.phaseIdx) in {P.DrawingSubmit, P.FakePromptSubmit, P.Voting}
  {
  }

  lemma OneMoreBeat(w: World, before: World, t: World, now: int)
    requires Beaten(w, before, now) && Good(before) && DefaultStep(before, t, now)
    ensures Good(t) && Beaten(w, t, now)
  {
    DefaultMoves(before, t, now);
    BeatsAddUp(w, before, t, now);
  }

  lemma BeatsAddUp(w: World, before: World, t: World, now: int)
    requires Beaten(w, before, now) && Beaten(before, t, now) && before.s.status == InGame
    ensures Beaten(w, t, now)
  {
    if before != w && t != before {
      if Filled(w, before, now) {
        FilledThen(w, before, t, now);
      } else {
        var c :| Defaulted(w, c, now) && MovedOn(w, c, before, now);
        MovedThen(w, c, before, t, now);
      }
    }
  }

  lemma DefaultsAddUp(w: World, m: World, c: Contents, now: int)
    requires Filled(w, m, now) && Defaulted(m, c, now)
    ensures Defaulted(w, c, now)
  {
    KeepsItemsTransitive(w.contents, m.contents, c);
  }

  lemma FilledThen(w: World, m: World, t: World, now: int)
    requires Filled(w, m, now)
    ensures Filled(m, t, now) ==> Filled(w, t, now)
    ensures (exists c :: Defaulted(m, c, now) && MovedOn(m, c, t, now)) ==>
              exists c :: Defaulted(w, c, now) && MovedOn(w, c, t, now)
  {
    if Filled(m, t, now) {
      DefaultsAddUp(w, m, t.contents, now);
    }
    if c :| Defaulted(m, c, now) && MovedOn(m, c, t, now) {
      DefaultsAddUp(w, m, c, now);
      FiledMovesOn(w, m, c, t, now);
      assert Defaulted(w, c, now) && MovedOn(w, c, t, now);
    }
  }

  lemma MovedThen(w: World, c: Contents, m: World, t: World, now: int)
    requires MovedOn(w, c, m, now) && m.s.status == InGame && Rests(P.KindAt(w.s.phaseIdx))
    requires P.KindAt(m.s.phaseIdx) != P.Leaderboard
    requires Filled(m, t, now) || exists c2 :: MovedOn(m, c2, t, now)
    ensures MovedOn(w, c, t, now)
  {
    if Filled(m, t, now) {
    } else {
      var c2 :| MovedOn(m, c2, t, now);
      MovedTwice(w, c, m, c2, t, now);
    }
  }

  lemma MovedTwice(w: World, c: Contents, m: World, c2: Contents, t: World, now: int)
    requires MovedOn(w, c, m, now) && m.s.status == InGame && Rests(P.KindAt(w.s.phaseIdx))
    requires P.KindAt(m.s.phaseIdx) != P.Leaderboard
    requires MovedOn(m, c2, t, now)
    ensures MovedOn(w, c, t, now)
  {
    ContinuesTransitive(w.s, m.s, t.s);
  }

  lemma ContinuesTransitive(a: State, b: State, c: State)
    ensures Continues(a, b) && Continues(b, c) ==> Continues(a, c)
  {
    if Continues(a, b) && Continues(b, c) {
      KeepsRecordTransitive(a, b, c);
    }
  }

  lemma TickIsNext(w: World, e: Entry, t: World)
    requires Good(w) && e.msg.Tick? && Ticked(w, t, e.now)
    ensures Good(t) && Next(w, e, t)
  {
    var trace :| DefaultTrace(trace, w, t, e.now);
    TraceIsBeat(trace, w, t, e.now);
    BeatIsNext(w, e, t);
  }

  lemma BeatIsNext(w: World, e: Entry, t: World)
    requires e.msg.Tick? && Beaten(w, t, e.now)
    ensures Next(w, e, t)
  {
    if t == w {
      Itself(w, e.now);
      NothingHappens(w, e);
    } else if Filled(w, t, e.now) {
      FiledIsNext(w, e, t);
    } else {
      var c :| Defaulted(w, c, e.now) && MovedOn(w, c, t, e.now);
      MovedIsNext(w, e, c, t);
    }
  }

  // ----- every message -----

  /** Some messages change nothing of note when they are refused. */
  lemma RefusalIsNext(w: World, e: Entry)
    requires e.msg.SetPencilsDown? || e.msg.UpdateSettings? || e.msg.RerollPrompt?
    requires !NotesReroll(w.s, e) && !Configures(w.s, e) && !(e.msg.SetPencilsDown? && e.msg.pid == w.s.leaderID)
    ensures Next(w, e, w)
  {
    NothingHappens(w, e);
  }

  lemma ReconnectMessage(w: World, e: Entry, t: World)
    requires Good(w) && e.msg.Reconnect? && e.msg.pid != NOBODY && Handled(w, e, t)
    ensures Good(t) && Next(w, e, t)
  {
    ReconnectIsGood(w, e.msg.pid, e.msg.name, e.now);
    ReconnectIsNext(w, e);
  }

  lemma LobbyMessage(w: World, e: Entry, t: World)
    requires Good(w) && (e.msg.Leave? || e.msg.Ready?) && Handled(w, e, t)
    ensures Good(t) && Next(w, e, t)
  {
    if e.msg.pid in w.s.players && (e.msg.Ready? ==> w.s.status == Idle) {
      LobbyMoveIsNext(w, e, t);
    } else {
      NothingHappens(w, e);
    }
  }

  lemma PauseMessage(w: World, e: Entry, t: World)
    requires Good(w) && e.msg.SetPause? && Handled(w, e, t)
    ensures Good(t) && Next(w, e, t)
  {
    if Switches(w.s, e) {
      PauseSwitchIsGood(w, e.now);
      SwitchIsNext(w, e);
    } else {
      NothingHappens(w, e);
    }
  }

  lemma PencilsMessage(w: World, e: Entry, t: World)
    requires Good(w) && e.msg.SetPencilsDown? && Handled(w, e, t)
    ensures Good(t) && Next(w, e, t)
  {
    if e.msg.pid == w.s.leaderID {
      PencilsAreGood(w, e.msg.disabled);
      PencilsAreNext(w, e);
    } else {
      RefusalIsNext(w, e);
    }
  }

  lemma SettingsMessage(w: World, e: Entry, t: World)
    requires Good(w) && e.msg.UpdateSettings? && Handled(w, e, t)
    ensures Good(t) && Next(w, e, t)
  {
    if e.msg.pid == w.s.leaderID && w.s.status == Idle && !w.s.postGame {
      NewSettingsAreGood(w, e.msg.next);
      SettingsAreNext(w, e);
    } else {
      RefusalIsNext(w, e);
    }
  }

  lemma TimerMessage(w: World, e: Entry, t: World)
    requires Good(w) && e.msg.TimerFires? && Handled(w, e, t)
    ensures Good(t) && Next(w, e, t)
  {
    if Due(w.s, e.now) {
      TimerNeedsGame(w);
      var m, d :| TimedOut(w, m, d, t, e.now);
      TimeoutIsNext(w, e, m, d, t);
    } else {
      NothingHappens(w, e);
    }
  }

  lemma ClickMessage(w: World, e: Entry, t: World)
    requires Good(w) && e.msg.AdvanceReveal? && Handled(w, e, t)
    ensures Good(t) && Next(w, e, t)
  {
    if Clicks(w.s, e) {
      ClickIsNext(w, e, t);
    } else {
      NothingHappens(w, e);
    }
  }

  lemma RerollMessage(w: World, e: Entry, t: World)
    requires Good(w) && e.msg.RerollPrompt? && Handled(w, e, t)
    ensures Good(t) && Next(w, e, t)
  {
    if RerollVerdict(w.s, e.msg.pid).Accepted? {
      var prompt :| prompt in w.dict && t == Rerolled(w, e.msg.pid, prompt);
      RerollIsNext(w, e, prompt);
    } else {
      RefusalIsNext(w, e);
    }
  }

  lemma DrawingMessage(w: World, e: Entry, t: World)
    requires Good(w) && e.msg.SubmitDrawing? && e.msg.pid != NOBODY && Handled(w, e, t)
    ensures Good(t) && Next(w, e, t)
  {
    if TakesDrawing(w, e.msg.pid, e.msg.contentOk) {
      var m, d :| DrawingTaken(w, e.msg.pid, true, m, d, t, e.now);
      DrawingIsNext(w, e, m, d, t);
    } else {
      NothingHappens(w, e);
    }
  }

  lemma FakeMessage(w: World, e: Entry, t: World)
    requires Good(w) && e.msg.SubmitFake? && e.msg.pid != NOBODY && Handled(w, e, t)
    ensures Good(t) && Next(w, e, t)
  {
    if TakesFake(w, e.msg.pid, e.msg.drawing, e.msg.text) {
      var m, d :| FakeTaken(w, e.msg.pid, e.msg.drawing, e.msg.text, m, d, t, e.now);
      FakeIsNext(w, e, m, d, t);
    } else {
      NothingHappens(w, e);
    }
  }

  lemma VoteMessage(w: World, e: Entry, t: World)
    requires Good(w) && e.msg.SubmitVote? && Handled(w, e, t)
    ensures Good(t) && Next(w, e, t)
  {
    if TakesVote(w, e.msg.pid, e.msg.drawing, e.msg.choice) {
      var m, d :| VoteTaken(w, e.msg.pid, e.msg.drawing, e.msg.choice, m, d, t, e.now);
      VoteIsNext(w, e, m, d, t);
    } else {
      NothingHappens(w, e);
    }
  }

  lemma SeatMessage(w: World, e: Entry, t: World)
    requires e.msg.Reconnect? || e.msg.Join? || e.msg.Leave? || e.msg.Ready?
    ensures Good(w) && FromSomeone(e.msg) && Handled(w, e, t) ==> Good(t) && Next(w, e, t)
  {
    if Good(w) && FromSomeone(e.msg) && Handled(w, e, t) {
      if e.msg.Reconnect? {
        ReconnectMessage(w, e, t);
      } else if e.msg.Join? {
        JoinAnswerIsNext(w, e, t);
      } else {
        LobbyMessage(w, e, t);
      }
    }
  }

  lemma LeaderMessage(w: World, e: Entry, t: World)
    requires e.msg.SetPause? || e.msg.SetPencilsDown? || e.msg.UpdateSettings?
    ensures Good(w) && Handled(w, e, t) ==> Good(t) && Next(w, e, t)
  {
    if Good(w) && Handled(w, e, t) {
      if e.msg.SetPause? {
        PauseMessage(w, e, t);
      } else if e.msg.SetPencilsDown? {
        PencilsMessage(w, e, t);
      } else {
        SettingsMessage(w, e, t);
      }
    }
  }

  lemma PlayMessage(w: World, e: Entry, t: World)
    requires e.msg.TimerFires? || e.msg.Tick? || e.msg.RerollPrompt? || e.msg.AdvanceReveal?
    ensures Good(w) && Handled(w, e, t) ==> Good(t) && Next(w, e, t)
  {
    if Good(w) && Handled(w, e, t) {
      if e.msg.TimerFires? {
        TimerMessage(w, e, t);
      } else if e.msg.Tick? {
        TickIsNext(w, e, t);
      } else if e.msg.RerollPrompt? {
        RerollMessage(w, e, t);
      } else {
        ClickMessage(w, e, t);
      }
    }
  }

  lemma Submission(w: World, e: Entry, t: World)
    requires Submits(e.msg)
    ensures Good(w) && FromSomeone(e.msg) && Handled(w, e, t) ==> Good(t) && Next(w, e, t)
  {
    if Good(w) && FromSomeone(e.msg) && Handled(w, e, t) {
      if e.msg.SubmitDrawing? {
        DrawingMessage(w, e, t);
      } else if e.msg.SubmitFake? {
        FakeMessage(w, e, t);
      } else {
        VoteMessage(w, e, t);
      }
    }
  }

  /** Whatever the message, a room in good order stays so, and moves only as `Next` says. */
  lemma HandledIsNext(w: World, e: Entry, t: World)
    requires Good(w) && FromSomeone(e.msg) && Handled(w, e, t)
    ensures Good(t) && Next(w, e, t)
  {
    if Submits(e.msg) {
      Submission(w, e, t);
    } else if e.msg.TimerFires? || e.msg.Tick? || e.msg.RerollPrompt? || e.msg.AdvanceReveal? {
      PlayMessage(w, e, t);
    } else if e.msg.SetPause? || e.msg.SetPencilsDown? || e.msg.UpdateSettings? {
      LeaderMessage(w, e, t);
    } else {
      SeatMessage(w, e, t);
    }
  }
}
