/** Inputs on which the program does less than it says: games played on a new room, message by
    message, and one drawing of a round. */
module Witnesses {
  import opened Prelude
  import opened Sums
  import opened Text
  import opened Game
  import opened Scores
  import opened Merge
  import opened Conservation
  import opened Collectors
  import opened RoundCollectors
  import opened Records
  import opened RoomInvariants
  import opened RoomSteps
  import opened RoomPlay
  import opened RoomClock
  import opened Cascades
  import opened Rooms
  import opened Steps
  import P = Phases

  // ----- a lobby, and a game out of it -----

  ghost predicate AreIds(ids: seq<PlayerID>) {
    NOBODY !in ids && forall i, j :: 0 <= i < j < |ids| ==> ids[i] != ids[j]
  }

  function Guest(now: int, ready: bool): Player {
    Player("guest", true, now, ready)
  }

  /** A room no game has been played in. */
  predicate Untouched(s: State) {
    s.status == Idle && !s.postGame && s.players == map[]
  }

  /** The lobby in which `ids` have joined at `now`, one after the other, and the first `k` of
      them are ready. */
  ghost function LobbyOf(s: State, ids: seq<PlayerID>, k: nat, now: int): State
    requires k <= |ids|
  {
    s.(players := map p | p in ids :: Guest(now, p in ids[..k]), conns := Listed(ids), joinOrder := ids,
       leaderID := if ids == [] then NOBODY else ids[0])
  }

  lemma OneMoreSeat(s: State, ids: seq<PlayerID>, pid: PlayerID, now: int)
    requires AreIds(ids + [pid])
    ensures Seated(LobbyOf(s, ids, 0, now), pid, "guest", now) == LobbyOf(s, ids + [pid], 0, now)
  {
    var t, u := Seated(LobbyOf(s, ids, 0, now), pid, "guest", now), LobbyOf(s, ids + [pid], 0, now);
    assert t.players == u.players;
    assert t.conns == u.conns;
  }

  lemma OneMoreReady(s: State, ids: seq<PlayerID>, k: nat, now: int)
    requires AreIds(ids) && k < |ids| && !s.postGame
    ensures ReadySet(LobbyOf(s, ids, k, now), ids[k], true) == LobbyOf(s, ids, k + 1, now)
  {
    OneMoreGuest(s, ids, k, now);
  }

  lemma OneMoreGuest(s: State, ids: seq<PlayerID>, k: nat, now: int)
    requires AreIds(ids) && k < |ids|
    ensures LobbyOf(s, ids, k + 1, now).players == LobbyOf(s, ids, k, now).players[ids[k] := Guest(now, true)]
  {
    assert ids[..k + 1] == ids[..k] + [ids[k]];
  }

  lemma {:induction false} AsManyAsIds(ids: seq<PlayerID>)
    requires AreIds(ids)
    ensures |Listed(ids)| == |ids|
  {
    if ids != [] {
      var init, last := ids[..|ids| - 1], ids[|ids| - 1];
      assert ids == init + [last] && last !in init;
      AsManyAsIds(init);
      assert Listed(ids) == Listed(init) + {last};
    }
  }

  lemma StartsWhenAllReady(s: State, ids: seq<PlayerID>, k: nat, now: int)
    requires AreIds(ids) && 3 <= |ids| && k <= |ids|
    ensures CanStart(LobbyOf(s, ids, k, now).players) <==> k == |ids|
  {
    var players := LobbyOf(s, ids, k, now).players;
    AsManyAsIds(ids);
    assert ConnectedSet(players) == Listed(ids);
    if k < |ids| {
      assert ids[k] !in ids[..k];
      assert Connected(players, ids[k]) && !players[ids[k]].ready;
    } else {
      assert ids[..k] == ids;
    }
  }

  method JoinOne(room: Room, ghost base: State, ghost ids: seq<PlayerID>, now: int) returns (pid: PlayerID)
    requires room.Valid() && AreIds(ids) && Untouched(base) && room.s == LobbyOf(base, ids, 0, now)
    modifies room
    ensures room.Valid() && AreIds(ids + [pid]) && room.s == LobbyOf(base, ids + [pid], 0, now)
  {
    var r := room.OnJoin(Some("guest"), now);
    pid := r.value;
    assert pid !in ids;
    OneMoreSeat(base, ids, pid, now);
  }

  method OpenLobby(dict: seq<string>, n: nat, now: int) returns (room: Room, ids: seq<PlayerID>)
    requires IsDictionary(dict) && |dict| >= 12
    ensures fresh(room) && room.Valid() && |ids| == n && AreIds(ids)
    ensures room.s == LobbyOf(NewWorld(dict).s, ids, 0, now)
  {
    room := new Room(dict);
    ids := [];
    assert room.s.players == LobbyOf(NewWorld(dict).s, [], 0, now).players;
    for i := 0 to n
      invariant room.Valid() && |ids| == i && AreIds(ids)
      invariant room.s == LobbyOf(NewWorld(dict).s, ids, 0, now)
    {
      var pid := JoinOne(room, NewWorld(dict).s, ids, now);
      ids := ids + [pid];
    }
  }

  /** `t` is in the first drawing phase, as it began at `now` out of the lobby `l`. */
  ghost predicate FirstDrawing(l: State, t: World, now: int) {
    && t.s.status == InGame && t.s.phaseIdx == 1 < |t.s.phases|
    && t.s.paused == l.paused && t.s.pencilsDown == l.pencilsDown && t.s.players == l.players && t.s.leaderID == l.leaderID
    && t.s.phases[1].duration == l.settings.drawingSeconds && t.s.phaseTimer == Some(now + l.settings.drawingSeconds)
    && (!l.paused ==> t.s.phaseDeadline == t.s.phaseTimer)
    && AllDealt(t, 1) && t.contents == GotDrawings(map[])
  }

  ghost predicate FreshGame(base: State, ids: seq<PlayerID>, t: World, now: int) {
    FirstDrawing(LobbyOf(base, ids, |ids|, now), t, now)
  }

  lemma ReadyOutcome(w: World, base: State, ids: seq<PlayerID>, k: nat, t: World, now: int)
    requires Good(w) && AreIds(ids) && 3 <= |ids| && k < |ids| && Untouched(base) && w.s == LobbyOf(base, ids, k, now)
    requires LobbyMoves(BroadcastState(w.(s := ReadySet(w.s, ids[k], true))), t, now)
    ensures if k + 1 < |ids| then t.s == LobbyOf(base, ids, k + 1, now) else FreshGame(base, ids, t, now)
  {
    var lobby := BroadcastState(w.(s := ReadySet(w.s, ids[k], true)));
    ReadyIsGood(w, ids[k], true);
    OneMoreReady(base, ids, k, now);
    NowReady(lobby, base, ids, k + 1, t, now);
  }

  lemma NowReady(lobby: World, base: State, ids: seq<PlayerID>, k: nat, t: World, now: int)
    requires AreIds(ids) && 3 <= |ids| && k <= |ids| && Untouched(base) && lobby.s == LobbyOf(base, ids, k, now)
    requires LobbyMoves(lobby, t, now)
    ensures Good(lobby) ==> if k < |ids| then t.s == LobbyOf(base, ids, k, now) else FreshGame(base, ids, t, now)
  {
    StartsWhenAllReady(base, ids, k, now);
    if Good(lobby) && k == |ids| {
      StartsDrawing(lobby, t, now);
    }
  }

  lemma StartsDrawing(lobby: World, t: World, now: int)
    requires Good(lobby) && lobby.s.status == Idle && CanStart(lobby.s.players) && Begun(lobby, t, now)
    ensures FirstDrawing(lobby.s, t, now)
  {
    StartNeedsCleanLobby(lobby);
    FirstSeats(lobby, t, now);
    FirstDuration(lobby, t, now);
    FirstClock(lobby, t, now);
  }

  lemma FirstSeats(lobby: World, t: World, now: int)
    requires CleanLobby(lobby) && CanStart(lobby.s.players) && Begun(lobby, t, now)
    ensures t.s.status == InGame && t.s.phaseIdx == 1 && t.s.paused == lobby.s.paused && AllDealt(t, 1)
    ensures t.s.players == lobby.s.players && t.s.leaderID == lobby.s.leaderID
  {
    BegunIsFirstPhase(lobby, t, now);
  }

  lemma FirstDuration(lobby: World, t: World, now: int)
    requires CleanLobby(lobby) && CanStart(lobby.s.players) && Begun(lobby, t, now)
    ensures 1 < |t.s.phases| && t.s.phases[1].duration == lobby.s.settings.drawingSeconds > 0
  {
    var phases := BegunRests(lobby, t, now);
    CarriedIntoGame(Started(lobby, phases), t, now);
    P.PlanFacts(phases, lobby.s.settings, 1);
  }

  lemma FirstClock(lobby: World, t: World, now: int)
    requires CleanLobby(lobby) && CanStart(lobby.s.players) && Begun(lobby, t, now)
    ensures 1 < |t.s.phases| && t.s.phases[1].duration > 0 ==>
              && t.s.phaseTimer == Some(now + t.s.phases[1].duration) && t.contents == GotDrawings(map[])
              && (!lobby.s.paused ==> t.s.phaseDeadline == t.s.phaseTimer) && t.s.pencilsDown == lobby.s.pencilsDown
  {
    var phases := BegunRests(lobby, t, now);
    FirstContents(Started(lobby, phases), t, now);
  }

  lemma FirstContents(w: World, t: World, now: int)
    requires w.s.status == InGame && 1 < |w.s.phases| && Rested(w, t, 1, now)
    ensures 1 < |t.s.phases| && t.s.phases[1].duration > 0 ==>
              && t.s.phaseTimer == Some(now + t.s.phases[1].duration) && t.contents == GotDrawings(map[])
              && (!w.s.paused ==> t.s.phaseDeadline == t.s.phaseTimer) && t.s.pencilsDown == w.s.pencilsDown
  {
    CarriedIntoGame(w, t, now);
    assert ClockOk(t.watch, t.s);
  }

  method ReadyOne(room: Room, ghost base: State, ghost ids: seq<PlayerID>, pid: PlayerID, ghost k: nat, now: int)
    requires room.Valid() && AreIds(ids) && 3 <= |ids| && k < |ids| && pid == ids[k] && Untouched(base)
    requires room.s == LobbyOf(base, ids, k, now)
    modifies room
    ensures room.Valid() && fresh(room.Footprint())
    ensures if k + 1 < |ids| then room.s == LobbyOf(base, ids, k + 1, now) else FreshGame(base, ids, room.World(), now)
  {
    ghost var w := room.World();
    assert room.Footprint() == {};
    var r := room.OnReady(pid, true, now);
    ReadyOutcome(w, base, ids, k, room.World(), now);
  }

  // ----- the first drawing phase -----

  method ReadyUp(room: Room, ghost base: State, ids: seq<PlayerID>, now: int)
    requires room.Valid() && AreIds(ids) && 3 <= |ids| && Untouched(base) && room.s == LobbyOf(base, ids, 0, now)
    requires room.Footprint() == {}
    modifies room
    ensures room.Valid() && fresh(room.Footprint()) && FreshGame(base, ids, room.World(), now)
  {
    for k := 0 to |ids|
      invariant room.Valid() && fresh(room.Footprint())
      invariant if k < |ids| then room.s == LobbyOf(base, ids, k, now) else FreshGame(base, ids, room.World(), now)
    {
      ReadyOne(room, base, ids, ids[k], k, now);
    }
  }

  /** A game of `n` players on a new room. */
  method StartGame(dict: seq<string>, n: nat, now: int) returns (room: Room, ids: seq<PlayerID>)
    requires IsDictionary(dict) && |dict| >= 12 && 3 <= n
    ensures fresh(room) && room.Valid() && fresh(room.Footprint()) && |ids| == n && AreIds(ids)
    ensures FreshGame(NewWorld(dict).s, ids, room.World(), now)
  {
    room, ids := OpenLobby(dict, n, now);
    ReadyUp(room, NewWorld(dict).s, ids, now);
  }

  /** The same, but the leader pauses the room in the lobby. */
  method StartPaused(dict: seq<string>, n: nat, now: int) returns (room: Room, ids: seq<PlayerID>)
    requires IsDictionary(dict) && |dict| >= 12 && 3 <= n
    ensures fresh(room) && room.Valid() && fresh(room.Footprint()) && |ids| == n && AreIds(ids)
    ensures FreshGame(NewWorld(dict).s.(paused := true), ids, room.World(), now)
  {
    room, ids := OpenLobby(dict, n, now);
    PauseLobby(room, ids, NewWorld(dict).s, now);
    ReadyUp(room, NewWorld(dict).s.(paused := true), ids, now);
  }

  method PauseLobby(room: Room, ids: seq<PlayerID>, ghost base: State, now: int)
    requires room.Valid() && ids != [] && Untouched(base) && !base.paused && room.s == LobbyOf(base, ids, 0, now)
    requires base.phaseTimer == None && base.phaseDeadline == None && room.Footprint() == {}
    modifies room
    ensures room.Valid() && room.Footprint() == {} && room.s == LobbyOf(base.(paused := true), ids, 0, now)
  {
    var r := room.HandleSetPause(ids[0], true, now);
  }

  /** The first drawing phase is over; everybody's state is as before. */
  ghost predicate FirstFakes(w: World, t: World) {
    && t.s.status == InGame && t.s.phaseIdx == 2 && t.s.players == w.s.players && t.s.paused == w.s.paused
    && PromptsIn(t.s.phaseData, 1) == PromptsIn(w.s.phaseData, 1)
  }

  lemma FirstDrawingCloses(m: World, d: Decision, t: World, now: int)
    requires Resting(m) && m.s.phaseIdx == 1 && ClosesWith(m, d) && Applies(m, d, t, now)
    ensures FirstFakes(m, t) && m.contents.GotDrawings? && DrawingsIn(t.s.phaseData, 1) == m.contents.items
  {
    FirstPromptsStored(m);
    ClosesDecided(m, d);
    AdvanceRests(m, d, t, now);
    ClosedFirst(m, d, t, now);
  }

  lemma FirstPromptsStored(m: World)
    requires Resting(m) && m.s.phaseIdx == 1
    ensures Key(P.PromptDistribute, 1) in m.s.phaseData && 2 < |m.s.phases|
  {
    assert KeyAt(0) in m.s.phaseData;
  }

  lemma ClosedFirst(m: World, d: Decision, t: World, now: int)
    requires m.s.status == InGame && m.s.phaseIdx == 1 && 2 < |m.s.phases| && Key(P.PromptDistribute, 1) in m.s.phaseData
    requires m.contents.GotDrawings? && d == Decision(true, [], Some(DrawingsResult(m.contents.items)))
    requires OnRecord(m, d, t) && Rested(m, t, NextRest(m.s, d.result.value), now)
    ensures FirstFakes(m, t) && DrawingsIn(t.s.phaseData, 1) == m.contents.items
  {
  }

  lemma FirstTimeout(w: World, t: World, now: int)
    requires Good(w) && w.s.phaseIdx == 1 && w.s.phaseTimer.Some? && exists m, d :: TimedOut(w, m, d, t, now)
    ensures FirstFakes(w, t)
  {
    var m, d :| TimedOut(w, m, d, t, now);
    TimerNeedsGame(w);
    MoreIdsKeepGood(w, m.issued);
    FirstDrawingCloses(m, d, t, now);
  }

  /** The leader pauses the room in the lobby; the game begins paused, with its timer running;
      the timer goes off, and the paused game moves on to the next phase. */
  method LobbyPauseDoesNotHold(dict: seq<string>, now: int) returns (room: Room, ghost begun: State)
    requires IsDictionary(dict) && |dict| >= 12
    ensures begun.status == InGame && begun.phaseIdx == 1 && begun.paused && begun.phaseTimer == Some(now + 60)
    ensures room.s.status == InGame && room.s.phaseIdx == 2 && room.s.paused
  {
    var ids;
    room, ids := StartPaused(dict, 3, now);
    ghost var w := room.World();
    begun := room.s;
    room.OnTimeout(now + 60);
    FirstTimeout(w, room.World(), now + 60);
  }

  method PauseAndResume(room: Room, leader: PlayerID, now: int)
    requires room.Valid() && room.s.leaderID == leader && !room.s.paused
    requires room.s.phaseDeadline.Some? && room.s.phaseDeadline.value <= now
    modifies room
    ensures room.World() == BroadcastState(Resumed(BroadcastState(Paused(old(room.World()), now)), now))
    ensures !room.s.paused && room.s.phaseTimer == None && room.s.status == old(room.s).status
    ensures room.s.phaseIdx == old(room.s).phaseIdx && room.s.phases == old(room.s).phases
  {
    var r := room.HandleSetPause(leader, true, now);
    r := room.HandleSetPause(leader, false, now);
  }

  /** The leader pauses a moment too late, when the time is up but the room has yet to take the
      timeout off its inbox, and resumes: the drawing phase goes on without a timer. */
  method LatePauseLosesTimer(dict: seq<string>, now: int) returns (room: Room)
    requires IsDictionary(dict) && |dict| >= 12
    ensures room.s.status == InGame && room.s.phaseIdx == 1 < |room.s.phases| && room.s.phases[1].duration == 60
    ensures !room.s.paused && room.s.phaseTimer == None
  {
    var ids;
    room, ids := StartGame(dict, 3, now);
    PauseAndResume(room, ids[0], now + 60);
  }

  // ----- players come and go while they draw -----

  /** The first drawing phase: `ids` hold prompts, `here` are connected, `done` have drawn. */
  ghost predicate Sketching(w: World, ids: seq<PlayerID>, here: set<PlayerID>, done: set<PlayerID>) {
    && w.s.status == InGame && w.s.phaseIdx == 1 && !w.s.paused && !w.s.pencilsDown
    && PromptsIn(w.s.phaseData, 1).Keys == Listed(ids) && ConnectedSet(w.s.players) == here <= Listed(ids)
    && w.contents.GotDrawings? && w.contents.items.Keys == done
  }

  /** ... and it is over. */
  ghost predicate Sketched(t: World, ids: seq<PlayerID>, here: set<PlayerID>, done: set<PlayerID>) {
    && t.s.status == InGame && t.s.phaseIdx == 2 && ConnectedSet(t.s.players) == here
    && PromptsIn(t.s.phaseData, 1).Keys == Listed(ids) && DrawingsIn(t.s.phaseData, 1).Keys == done
  }

  lemma DrawingIsAccepted(w: World, ids: seq<PlayerID>, here: set<PlayerID>, done: set<PlayerID>, pid: PlayerID)
    requires Good(w) && Sketching(w, ids, here, done) && pid in ids && pid !in done
    ensures TakesDrawing(w, pid, true) && Drawers(w.s.players, w.s.phaseData, w.s.round) == here
  {
    assert w.s.round == 1;
  }

  lemma DrawOutcome(w: World, ids: seq<PlayerID>, here: set<PlayerID>, done: set<PlayerID>, pid: PlayerID, t: World, now: int)
    requires Good(w) && Sketching(w, ids, here, done) && pid in ids && pid !in done && pid != NOBODY
    requires exists m, d :: DrawingTaken(w, pid, true, m, d, t, now)
    ensures if |done| + 1 < |here| then Sketching(t, ids, here, done + {pid}) else Sketched(t, ids, here, done + {pid})
  {
    DrawingIsAccepted(w, ids, here, done, pid);
    var m, d :| DrawingTaken(w, pid, true, m, d, t, now);
    DrawingFiledIsGood(w, m, pid, true, d);
    OneMoreDrawing(w, ids, here, done, pid, m, d);
    if d.advance {
      FirstDrawingCloses(m, d, t, now);
    }
  }

  lemma OneMoreDrawing(w: World, ids: seq<PlayerID>, here: set<PlayerID>, done: set<PlayerID>, pid: PlayerID, m: World,
                       d: Decision)
    requires Sketching(w, ids, here, done) && pid !in done && IsDrawingFiled(w, m, pid, true, d)
    requires Drawers(w.s.players, w.s.phaseData, w.s.round) == here
    ensures Sketching(m, ids, here, done + {pid}) && (d.advance <==> |done| + 1 >= |here|)
  {
    var id :| id !in w.issued && m == DrawingFiled(w, pid, id, true);
    assert m.contents.items.Keys == done + {pid};
    assert |m.contents.items| == |m.contents.items.Keys|;
  }

  method Draw(room: Room, ghost ids: seq<PlayerID>, ghost here: set<PlayerID>, ghost done: set<PlayerID>, pid: PlayerID,
              now: int)
    requires room.Valid() && Sketching(room.World(), ids, here, done) && pid in ids && pid !in done && pid != NOBODY
    modifies room, room.Footprint()
    ensures room.Valid() && (room.Footprint() == old(room.Footprint()) || fresh(room.Footprint()))
    ensures if |done| + 1 < |here| then Sketching(room.World(), ids, here, done + {pid})
            else Sketched(room.World(), ids, here, done + {pid})
  {
    ghost var w := room.World();
    DrawingIsAccepted(w, ids, here, done, pid);
    var r := room.OnSubmitDrawing(pid, true, now);
    DrawOutcome(w, ids, here, done, pid, room.World(), now);
  }

  method WalkOut(room: Room, ghost ids: seq<PlayerID>, ghost here: set<PlayerID>, ghost done: set<PlayerID>, pid: PlayerID,
                 now: int)
    requires room.Valid() && Sketching(room.World(), ids, here, done) && pid in here
    modifies room
    ensures room.Valid() && (room.Footprint() == old(room.Footprint()) || fresh(room.Footprint()))
    ensures Sketching(room.World(), ids, here - {pid}, done)
  {
    ghost var w := room.World();
    room.OnLeave(pid, now);
    assert ConnectedSet(room.s.players) == here - {pid};
  }

  lemma FourPlayers(ids: seq<PlayerID>)
    requires AreIds(ids) && |ids| == 4
    ensures |Listed(ids)| == 4 && |Listed(ids) - {ids[0]}| == 3 && |{} + {ids[0]} + {ids[1]}| == 2
    ensures ids[0] in Listed(ids) && ids[3] in Listed(ids) - {ids[0]} && ids[3] !in {} + {ids[0]} + {ids[1]} + {ids[2]}
    ensures ids[1] !in {} + {ids[0]} && ids[2] !in {} + {ids[0]} + {ids[1]}
    ensures forall i :: 0 <= i < 4 ==> ids[i] in ids && ids[i] != NOBODY
  {
    AsManyAsIds(ids);
  }

  /** Four players; the first two draw, and the first one leaves. */
  method TwoDrawOneLeaves(dict: seq<string>, now: int) returns (room: Room, ids: seq<PlayerID>)
    requires IsDictionary(dict) && |dict| >= 12
    ensures fresh(room) && room.Valid() && fresh(room.Footprint()) && |ids| == 4 && AreIds(ids)
    ensures Sketching(room.World(), ids, Listed(ids) - {ids[0]}, {} + {ids[0]} + {ids[1]})
  {
    room, ids := StartGame(dict, 4, now);
    ghost var all := Listed(ids);
    FourSketch(NewWorld(dict).s, ids, room.World(), now);
    FourPlayers(ids);
    Draw(room, ids, all, {}, ids[0], now);
    Draw(room, ids, all, {} + {ids[0]}, ids[1], now);
    WalkOut(room, ids, all, {} + {ids[0]} + {ids[1]}, ids[0], now);
  }

  /** Of four players two draw, one of them leaves, and the third draws: with three drawings and
      three players here the phase is over, although the fourth is here and has not drawn. */
  method DrawingClosesOverSomeone(dict: seq<string>, now: int) returns (room: Room, ids: seq<PlayerID>)
    requires IsDictionary(dict) && |dict| >= 12
    ensures |ids| == 4 && room.s.status == InGame && room.s.phaseIdx == 2 && Connected(room.s.players, ids[3])
    ensures ids[3] in PromptsIn(room.s.phaseData, 1) && ids[3] !in DrawingsIn(room.s.phaseData, 1)
  {
    room, ids := TwoDrawOneLeaves(dict, now);
    FourPlayers(ids);
    Draw(room, ids, Listed(ids) - {ids[0]}, {} + {ids[0]} + {ids[1]}, ids[2], now);
    LeftOut(room.World(), ids, Listed(ids) - {ids[0]}, {} + {ids[0]} + {ids[1]} + {ids[2]}, ids[3]);
  }

  lemma LeftOut(t: World, ids: seq<PlayerID>, here: set<PlayerID>, done: set<PlayerID>, p: PlayerID)
    requires Sketched(t, ids, here, done) && p in here && p in ids && p !in done
    ensures Connected(t.s.players, p) && p in PromptsIn(t.s.phaseData, 1) && p !in DrawingsIn(t.s.phaseData, 1)
  {
    assert p in ConnectedSet(t.s.players) && p in Listed(ids);
  }

  lemma FourSketch(base: State, ids: seq<PlayerID>, t: World, now: int)
    requires AreIds(ids) && FreshGame(base, ids, t, now) && !base.paused && !base.pencilsDown
    ensures Sketching(t, ids, Listed(ids), {}) && |Listed(ids)| == |ids|
  {
    AsManyAsIds(ids);
    assert ConnectedSet(t.s.players) == Listed(ids);
  }

  // ----- a vote for one's own text -----

  /** `list` holds two fakes for drawing `d` by different players under different ids, with the
      same text after normalising. */
  ghost predicate Twins(list: seq<FakePrompt>, f: FakePrompt, g: FakePrompt, d: Drawing) {
    && (list == [f, g] || list == [g, f])
    && f.author != g.author && f.id != g.id && TRUE_ID !in {f.id, g.id}
    && Normalize(f.text) == Normalize(g.text) != Normalize(d.prompt)
  }

  lemma TwinsAreOneGroup(list: seq<FakePrompt>, f: FakePrompt, g: FakePrompt, d: Drawing)
    requires Twins(list, f, g, d)
    ensures Group(list, Normalize(f.text)) == list && KeysOf(list, d.prompt) == {Normalize(f.text)}
    ensures IdsOf(list) == {f.id, g.id}
  {
    var one := [list[0]];
    assert list[..1] == one && one[..0] == [];
    assert Group(one, Normalize(f.text)) == one;
    assert list[0] in list && list[1] in list;
  }

  lemma LoneVote(v: Vote, ids: set<string>)
    ensures VotersFor([v], ids) == if v.choice in ids then [v.voter] else []
  {
    assert [v][..0] == [];
  }

  /** The two texts are one choice, and the vote is for it. */
  lemma TwinsAreOneChoice(dr: DrawingReveal, list: seq<FakePrompt>, f: FakePrompt, g: FakePrompt, d: Drawing,
                          players: Players, v: Vote)
    requires Twins(list, f, g, d) && v.choice == g.id && forall p :: p in players ==> players[p].connected
    requires IsRevealOf(dr, d, list, players, [v])
    ensures |dr.choices| == 2 && dr.author == d.author
    ensures !dr.choices[0].isTrue && dr.choices[0].authors == AuthorsOf(list) && dr.choices[0].voters == [v.voter]
    ensures dr.choices[1].isTrue && dr.choices[1].voters == []
  {
    var defaults, keys := Unpack(dr, d, list, players, [v]);
    NoDefaults(defaults, d, list, players);
    assert list + defaults == list;
    TwinsByKeys(dr, keys, list, f, g, d, v);
  }

  lemma TwinsByKeys(dr: DrawingReveal, keys: seq<string>, list: seq<FakePrompt>, f: FakePrompt, g: FakePrompt, d: Drawing,
                    v: Vote)
    requires Twins(list, f, g, d) && v.choice == g.id && IsRevealBy(dr, keys, d, list, [v])
    ensures |dr.choices| == 2 && dr.author == d.author
    ensures !dr.choices[0].isTrue && dr.choices[0].authors == AuthorsOf(list) && dr.choices[0].voters == [v.voter]
    ensures dr.choices[1].isTrue && dr.choices[1].voters == []
  {
    TwinsAreOneGroup(list, f, g, d);
    OnlyKey(keys, Normalize(f.text));
    LoneVote(v, IdsOf(list));
    LoneVote(v, {TRUE_ID});
  }

  lemma OnlyKey(keys: seq<string>, key: string)
    requires Enumerates(keys, {key})
    ensures keys == [key]
  {
    EnumerationSize(keys, {key});
    assert keys[0] in keys;
  }

  lemma SomeMember<T>(xs: seq<T>)
    requires xs != []
    ensures exists x :: x in xs
  {
    assert xs[0] in xs;
  }

  lemma NoDefaults(defaults: seq<FakePrompt>, d: Drawing, fakes: seq<FakePrompt>, players: Players)
    requires AreDefaults(defaults, d, fakes, players) && forall p :: p in players ==> players[p].connected
    ensures defaults == []
  {
    if defaults != [] {
      SomeMember(defaults);
    }
  }

  lemma OneOfTwo(a: PlayerID, b: PlayerID)
    requires a != b
    ensures Count([a, b], a) == 1 && Count([a, b], b) == 1
  {
    assert [a, b][..1] == [a] && [a][..0] == [];
  }

  /** One fooled voter is worth 500 points, half of them for each author. */
  lemma HalfEach(dr: DrawingReveal, p: PlayerID)
    requires |dr.choices| == 2 && dr.choices[1].isTrue && dr.choices[1].voters == [] && p != dr.author
    requires !dr.choices[0].isTrue && |dr.choices[0].voters| == 1
    requires |dr.choices[0].authors| == 2 && Count(dr.choices[0].authors, p) == 1
    ensures DrawingPoints(dr, p) == 250
  {
    var points := ch => ChoicePoints(ch, dr.author, p);
    var first := [dr.choices[0]];
    assert dr.choices == first + [dr.choices[1]] && first == [] + first;
    SumSnoc(first, dr.choices[1], points);
    SumSnoc([], dr.choices[0], points);
    assert Share(dr.choices[0]) == 250;
  }

  lemma AuthorsOfTwins(list: seq<FakePrompt>, f: FakePrompt, g: FakePrompt, d: Drawing)
    requires Twins(list, f, g, d)
    ensures |AuthorsOf(list)| == 2 && Count(AuthorsOf(list), f.author) == 1
  {
    OneOfTwo(list[0].author, list[1].author);
    assert AuthorsOf(list) == [list[0].author, list[1].author];
  }

  lemma TwinsPayEachOther(dr: DrawingReveal, list: seq<FakePrompt>, f: FakePrompt, g: FakePrompt, d: Drawing,
                          players: Players, v: Vote)
    requires Twins(list, f, g, d) && v.choice == g.id && forall p :: p in players ==> players[p].connected
    requires IsRevealOf(dr, d, list, players, [v]) && f.author != d.author
    ensures DrawingPoints(dr, f.author) == 250
  {
    TwinsAreOneChoice(dr, list, f, g, d, players, v);
    AuthorsOfTwins(list, f, g, d);
    HalfEach(dr, f.author);
  }

  /** What two submissions on one drawing are stored as. */
  lemma StoredPair(list: seq<FakePrompt>, got: Collected<FakePrompt>, d: Drawing, p: PlayerID, q: PlayerID)
    requires p != q && got.Keys == {p, q} && Has(got, p, d.id) && Has(got, q, d.id)
    requires IsFakeList(list, got, d, Decoys(0, []))
    ensures list == [got[p][d.id], got[q][d.id]] || list == [got[q][d.id], got[p][d.id]]
  {
    var k, order :| 0 <= k <= |list| && Lists(list[..k], got, d.id, order) && AreGenerated(list[k..], d, Decoys(0, []));
    assert list[..k] == list;
    ListedPair(list, got, d.id, order, p, q);
  }

  lemma ListedPair(list: seq<FakePrompt>, got: Collected<FakePrompt>, id: DrawingID, order: seq<PlayerID>, p: PlayerID,
                   q: PlayerID)
    requires p != q && got.Keys == {p, q} && Has(got, p, id) && Has(got, q, id) && Lists(list, got, id, order)
    ensures list == [got[p][id], got[q][id]] || list == [got[q][id], got[p][id]]
  {
    assert Submitters(got, id) == {p, q};
    TwoOrders(order, p, q);
  }

  lemma TwoOrders(order: seq<PlayerID>, p: PlayerID, q: PlayerID)
    requires p != q && Enumerates(order, {p, q})
    ensures order == [p, q] || order == [q, p]
  {
    EnumerationSize(order, {p, q});
    assert order[0] in order && order[1] in order;
  }

  lemma StoredVote(votes: seq<Vote>, got: Collected<Vote>, id: DrawingID, p: PlayerID, order: seq<PlayerID>)
    requires got.Keys == {p} && Has(got, p, id) && Lists(votes, got, id, order)
    ensures votes == [got[p][id]]
  {
    assert Submitters(got, id) == {p};
    EnumerationSize(order, {p});
    assert order[0] in order;
  }

  lemma NormalizedWords()
    ensures Normalize("CAT") == Normalize("cat") == "cat" && Normalize("dog") == "dog"
    ensures CleanFakeText("CAT") == Ok("CAT") && CleanFakeText("cat") == Ok("cat")
  {
    assert TrimSpace("CAT") == "CAT" && ToLower("CAT") == "cat";
    assert TrimSpace("cat") == "cat" && ToLower("cat") == "cat";
    assert TrimSpace("dog") == "dog" && ToLower("dog") == "dog";
  }

  /** Ann, Bea and Cal are here; Ann has drawn the dog. */
  const TRIO: Players := map["ann" := Guest(0, true), "bea" := Guest(0, true), "cal" := Guest(0, true)]

  const DOG: Drawing := Drawing("d1", "ann", "dog")

  const BEAS: FakePrompt := FakePrompt("f1", "d1", "bea", "CAT")

  const CALS: FakePrompt := FakePrompt("f2", "d1", "cal", "cat")

  const VOTE: Vote := Vote("bea", "d1", "f2")

  /** One may not vote for one's own fake, but the rule compares ids. Bea writes "CAT" and Cal
      "cat"; both are accepted, and will be merged into one choice. */
  lemma TwinsAreAccepted(dict: seq<string>)
    ensures var c := Context(TRIO, map["ann" := DOG], 0, dict);
            && !FakeRejected(map[], c, "bea", "d1", "CAT")
            && !FakeRejected(map["bea" := map["d1" := BEAS]], c, "cal", "d1", "cat")
  {
    NormalizedWords();
    assert map["ann" := DOG]["ann"].id in DrawingIds(map["ann" := DOG]);
  }

  lemma StoredTwins(fakes: Fakes)
    requires IsFakesResult(fakes, map["bea" := map["d1" := BEAS], "cal" := map["d1" := CALS]], map["ann" := DOG], Decoys(0, []))
    ensures "d1" in fakes && Twins(fakes["d1"], BEAS, CALS, DOG) && CALS in fakes["d1"]
  {
    var got := map["bea" := map["d1" := BEAS], "cal" := map["d1" := CALS]];
    assert map["ann" := DOG]["ann"].id in DrawingIds(map["ann" := DOG]);
    StoredPair(fakes["d1"], got, DOG, "bea", "cal");
    NormalizedWords();
  }

  lemma StoredLoneVote(votes: Votes)
    requires IsVotesResult(votes, map["bea" := map["d1" := VOTE]], map["ann" := DOG])
    ensures "d1" in votes && votes["d1"] == [VOTE]
  {
    assert map["ann" := DOG]["ann"].id in DrawingIds(map["ann" := DOG]);
    var order :| Lists(votes["d1"], map["bea" := map["d1" := VOTE]], "d1", order);
    StoredVote(votes["d1"], map["bea" := map["d1" := VOTE]], "d1", "bea", order);
  }

  /** Bea's vote for Cal's fake is accepted, too, and in the reveal it pays Bea herself. */
  lemma CoAuthorsCanVoteForThemselves(fakes: Fakes, votes: Votes, dr: DrawingReveal)
    requires IsFakesResult(fakes, map["bea" := map["d1" := BEAS], "cal" := map["d1" := CALS]], map["ann" := DOG], Decoys(0, []))
    requires IsVotesResult(votes, map["bea" := map["d1" := VOTE]], map["ann" := DOG])
    requires IsRevealOf(dr, DOG, ListAt(fakes, "d1"), TRIO, ListAt(votes, "d1"))
    ensures !VoteRejected(map[], map["ann" := DOG], fakes, VOTE.voter, VOTE.drawing, VOTE.choice)
    ensures DrawingPoints(dr, VOTE.voter) == 250
  {
    assert map["ann" := DOG]["ann"].id in DrawingIds(map["ann" := DOG]);
    StoredTwins(fakes);
    StoredLoneVote(votes);
    TwinsPayEachOther(dr, fakes["d1"], BEAS, CALS, DOG, TRIO, VOTE);
  }
}
