/** The room actor: the single writer that owns the game state. One method per handler, and
    the phase runner whose two halves call each other. */
module Rooms {
  import opened Prelude
  import opened Game
  import opened RevealSteps
  import opened Merge
  import opened Conservation
  import opened Collectors
  import opened RoundCollectors
  import opened Client
  import opened Records
  import opened RoomInvariants
  import opened RoomSteps
  import opened Cascades
  import opened RoomPlay
  import opened RoomClock
  import opened Aggregates
  import P = Phases

  /** The primitive running the current phase. */
  datatype AnyPrimitive =
    | NoPrimitive
    | Aggregate
    | DrawingCollector(drawings: CollectAll<Drawing>)
    | FakeCollector(fakes: FakeCollect)
    | VoteCollector(votes: VoteCollect)
    | Wait

  class Room {
    const dict: seq<string>

    /** The actor's fields, updated one by one. */
    var s: State

    var current: AnyPrimitive

    /** Every UUID handed out so far. */
    var issued: set<string>

    /** The frames broadcast in this session, and the account of the phase timer. */
    ghost var sent: seq<Event>
    ghost var watch: Watch

    function Footprint(): set<object>
      reads this
    {
      match current
      case DrawingCollector(c) => {c}
      case FakeCollector(c) => {c}
      case VoteCollector(c) => {c}
      case _ => {}
    }

    function Contents(): Contents
      reads this, Footprint()
    {
      match current
      case DrawingCollector(c) => GotDrawings(c.items)
      case FakeCollector(c) => GotFakes(c.got)
      case VoteCollector(c) => GotVotes(c.got)
      case NoPrimitive => Nothing
      case Aggregate => Computing
      case Wait => Holding
    }

    ghost function World(): World
      reads this, Footprint()
    {
      RoomInvariants.World(s, Contents(), dict, issued, sent, watch)
    }

    ghost predicate Valid()
      reads this, Footprint()
    {
      Good(World())
    }

    constructor (dict: seq<string>)
      requires IsDictionary(dict) && |dict| >= 12
      ensures Valid() && World() == NewWorld(dict) && Footprint() == {}
    {
      this.dict := dict;
      var settings := NormalizeSettings(P.Settings(0, 0, 0, 0, 0));
      s := State(map[], 0, 0, settings, map[], map[], settings, [], Idle, {}, None,
                 false, [], NOBODY, false, false, None, 0, None, {}, {});
      current := NoPrimitive;
      issued := {};
      sent := [];
      watch := Watch(Dead, 0, 0);
      new;
      NewWorldIsGood(dict);
    }

    // ----- the phase runner -----

    method UnreadyAll()
      modifies this`s
      ensures s == old(s).(players := Unready(old(s).players))
    {
      ghost var before := s;
      var ids := AnyOrder(s.players.Keys);
      UnreadyEveryone(before.players);
      for i := 0 to |ids|
        invariant s == before.(players := UnreadyThese(before.players, Listed(ids[..i])))
      {
        ListedSnoc(ids, i);
        UnreadyOneMore(before.players, Listed(ids[..i]), ids[i]);
        s := s.(players := s.players[ids[i] := s.players[ids[i]].(ready := false)]);
      }
      ListedAll(ids, before.players.Keys);
    }

    method GameOver()
      modifies this
      ensures World() == Finished(old(World())) && Footprint() == {}
    {
      s := s.(status := Idle);
      sent := sent + [GameEnd(s.scores)];
      s := s.(postGame := true);
      UnreadyAll();
      current := NoPrimitive;
      s := s.(phaseTimer := None);
    }

    /** A fresh primitive for a phase, from the registry. */
    method Make(k: P.Kind)
      modifies this`current
      ensures Contents() == EmptyContents(k) && fresh(Footprint())
    {
      match k {
        case DrawingSubmit =>
          var c := new CollectAll<Drawing>();
          current := DrawingCollector(c);
        case FakePromptSubmit =>
          var c := new FakeCollect();
          current := FakeCollector(c);
        case Voting =>
          var c := new VoteCollect();
          current := VoteCollector(c);
        case Leaderboard => current := Wait;
        case _ => current := Aggregate;
      }
    }

    /** Announce the phase: its round read off its name, its primitive, its timer. The timer is
        armed whether or not the room is paused. */
    method EnterPhase(now: int)
      requires s.phaseIdx < |s.phases| && s.phases[s.phaseIdx].round > 0
      requires P.RoundIn(s.phases[s.phaseIdx].name) == s.phases[s.phaseIdx].round
      modifies this
      ensures World() == Announced(old(World()), now) && fresh(Footprint())
    {
      var phase := s.phases[s.phaseIdx];
      var named := P.RoundFromPhaseName(phase.name);
      if named > 0 {
        s := s.(round := named);
      }
      Make(phase.primitive);
      s := s.(phaseTimer := None);
      s := s.(stepState := None, phaseDeadline := None, pauseRemaining := 0);
      watch := Watch(Dead, 0, now);
      if phase.duration > 0 {
        s := s.(phaseDeadline := Some(now + phase.duration), phaseTimer := Some(now + phase.duration));
        watch := watch.(clock := if s.paused then Leaked else Regular);
      }
      sent := sent + [PhaseChange(phase.name, s.round)];
    }

    method StartPhase(now: int)
      requires AtDoor(World())
      modifies this
      ensures StartsPhase(old(World()), World(), now)
      ensures Valid() && Rested(old(World()), World(), RestOf(old(s)), now)
      ensures fresh(Footprint())
      decreases |s.phases| - s.phaseIdx, 3
    {
      ghost var w := World();
      if s.phaseIdx >= |s.phases| {
        FinishedIsGood(w);
        GameOver();
      } else {
        P.PlanFacts(s.phases, s.settings, s.phaseIdx);
        AnnouncedIsEntered(w, now);
        EnterPhase(now);
        RunPhase(now);
      }
      StartRests(w, World(), now);
    }

    /** Send the decision's events; if it advances, store its result and go on. */
    method Apply(d: Decision, now: int)
      requires d.advance ==> Decided(World(), d)
      modifies this
      ensures Applies(old(World()), d, World(), now)
      ensures !d.advance ==> Footprint() == old(Footprint())
      ensures d.advance ==> Valid() && fresh(Footprint())
      ensures d.advance ==>
                OnRecord(old(World()), d, World()) && Rested(old(World()), World(), NextRest(old(s), d.result.value), now)
      decreases |s.phases| - s.phaseIdx, 0
    {
      sent := sent + d.events;
      if d.advance {
        StoredIsAtDoor(old(World()), d);
        Store(d.result.value);
        assert World() == Stored(old(World()), d);
        StartPhase(now);
        AdvanceRests(old(World()), d, World(), now);
      }
    }

    /** File the result under the phase it belongs to and move on to the next. */
    method Store(result: PhaseResult)
      requires s.phaseIdx < |s.phases| && P.IsPlan(s.phases, s.settings)
      modifies this`s
      ensures s == old(s).(phaseData := old(s).phaseData[KeyAt(old(s).phaseIdx) := result], phaseTimer := None,
                           phaseIdx := old(s).phaseIdx + 1)
    {
      P.PlanFacts(s.phases, s.settings, s.phaseIdx);
      var phase := s.phases[s.phaseIdx];
      s := s.(phaseData := s.phaseData[Key(phase.primitive, phase.round) := result]);
      s := s.(phaseTimer := None);
      s := s.(phaseIdx := s.phaseIdx + 1);
    }

    /** Start the primitive, and act on its first decision. */
    method RunPhase(now: int)
      requires Entered(World()) && JustBegun(watch, s, now)
      modifies this
      ensures Valid() && BeginsPhase(old(World()), World(), now)
      ensures Footprint() == old(Footprint()) || fresh(Footprint())
      decreases |s.phases| - s.phaseIdx, 2
    {
      P.PlanFacts(s.phases, s.settings, s.phaseIdx);
      match s.phases[s.phaseIdx].primitive {
        case PromptDistribute => StartPrompts(now);
        case DrawingSubmit => StartDrawing(now);
        case FakePromptSubmit => StartFakes(now);
        case Voting => StartVotes(now);
        case Reveal => StartReveal(now);
        case Scoring => StartScoring(now);
        case Leaderboard => StartLeaderboard(now);
      }
    }

    method StartPrompts(now: int)
      requires Entered(World()) && P.KindAt(s.phaseIdx) == P.PromptDistribute
      modifies this
      ensures Valid() && BeginsPhase(old(World()), World(), now)
      ensures fresh(Footprint())
      ensures exists d :: IsDeal(d, old(s).players, dict) && OnRecord(old(World()), d, World())
      decreases |s.phases| - s.phaseIdx, 1
    {
      var d := DistributePrompts(s.players, dict);
      ghost var m := World();
      DealDecided(m, d);
      Apply(d, now);
      Began(m, m, d, World(), now);
    }

    method StartDrawing(now: int)
      requires Entered(World()) && P.KindAt(s.phaseIdx) == P.DrawingSubmit && JustBegun(watch, s, now)
      modifies this
      ensures Valid() && BeginsPhase(old(World()), World(), now)
      ensures Footprint() == old(Footprint()) || fresh(Footprint())
      decreases |s.phases| - s.phaseIdx, 1
    {
      var prompts := PromptsIn(s.phaseData, s.round);
      var eligible := p => p in prompts;
      var advance := current.drawings.Start(s.players, eligible);
      assert EligibleSet(s.players, eligible) == Drawers(s.players, s.phaseData, s.round);
      ghost var m := World();
      var d := if advance then Decision(true, [], Some(DrawingsResult(current.drawings.items))) else STAY;
      if advance {
        NoDrawingsDecided(m);
      } else {
        QuietStart(m, [], now);
      }
      Apply(d, now);
      Began(m, m, d, World(), now);
    }

    method StartFakes(now: int)
      requires Entered(World()) && P.KindAt(s.phaseIdx) == P.FakePromptSubmit && JustBegun(watch, s, now)
      modifies this
      ensures Valid() && BeginsPhase(old(World()), World(), now) && Footprint() == old(Footprint())
      ensures World() == old(World()).(sent := old(sent) + [DrawingsShown(DrawingsIn(s.phaseData, s.round))])
      decreases |s.phases| - s.phaseIdx, 1
    {
      var c := Context(s.players, DrawingsIn(s.phaseData, s.round), s.stateSettings.generatedFakeCount, dict);
      var d := current.fakes.Start(c);
      ghost var m := World();
      QuietStart(m, d.events, now);
      Apply(d, now);
      Began(m, m, d, World(), now);
    }

    method StartVotes(now: int)
      requires Entered(World()) && P.KindAt(s.phaseIdx) == P.Voting && JustBegun(watch, s, now)
      modifies this
      ensures Valid() && BeginsPhase(old(World()), World(), now) && Footprint() == old(Footprint())
      ensures exists ballot ::
                && AreBallots(ballot, DrawingsIn(s.phaseData, s.round), FakesIn(s.phaseData, s.round))
                && World() == old(World()).(sent := old(sent) + [BallotShown(ballot)])
      decreases |s.phases| - s.phaseIdx, 1
    {
      DrawingsAreStored(s.phaseData, s.phaseIdx, issued);
      var c := Context(s.players, DrawingsIn(s.phaseData, s.round), s.stateSettings.generatedFakeCount, dict);
      var d := current.votes.Start(c, FakesIn(s.phaseData, s.round));
      ghost var m, ballot := World(), d.events[0].ballot;
      assert d == Decision(false, [BallotShown(ballot)], None);
      VotingStart(m, ballot, now);
      Apply(d, now);
      Began(m, m, d, World(), now);
    }

    method StartReveal(now: int)
      requires Entered(World()) && P.KindAt(s.phaseIdx) == P.Reveal
      modifies this
      ensures Valid() && BeginsPhase(old(World()), World(), now)
      ensures fresh(Footprint())
      ensures exists d :: RevealsRound(d, old(s)) && OnRecord(old(World()), d, World())
      decreases |s.phases| - s.phaseIdx, 1
    {
      ghost var m := World();
      var d := ComputeReveal();
      ghost var n := World();
      RoundRevealDecided(m, n, d);
      Apply(d, now);
      Began(m, n, d, World(), now);
      assert RevealsRound(d, old(s)) && OnRecord(old(World()), d, World());
    }

    method ComputeReveal() returns (d: Decision)
      requires Entered(World()) && P.KindAt(s.phaseIdx) == P.Reveal
      modifies this`issued
      ensures Starts(old(World()), World(), d)
    {
      var drawings, fakes := DrawingsIn(s.phaseData, s.round), FakesIn(s.phaseData, s.round);
      DrawingsAreStored(s.phaseData, s.phaseIdx, issued);
      FakesAreStored(s.phaseData, s.phaseIdx, issued);
      ghost var ds;
      d, issued, ds := RevealRound(s.players, drawings, fakes, VotesIn(s.phaseData, s.round), issued);
      assert RevealsRound(d, s);
    }

    method StartScoring(now: int)
      requires Entered(World()) && P.KindAt(s.phaseIdx) == P.Scoring
      modifies this
      ensures Valid() && BeginsPhase(old(World()), World(), now)
      ensures fresh(Footprint())
      ensures exists d, after :: OnRecord(old(World()), d, World())
                                 && IsScoring(d, RevealsIn(old(s).phaseData, old(s).round), old(s).scores, after)
      decreases |s.phases| - s.phaseIdx, 1
    {
      ghost var m := World();
      var d, after := ScoreAndApply(s.scores, RevealsIn(s.phaseData, s.round));
      s := s.(scores := after);
      ghost var n := World();
      RoundScoreDecided(m, n, d);
      Apply(d, now);
      Began(m, n, d, World(), now);
      assert OnRecord(old(World()), d, World())
             && IsScoring(d, RevealsIn(old(s).phaseData, old(s).round), old(s).scores, after);
    }

    /** The wait primitive does nothing; the room sets up the animation beside it. */
    method StartLeaderboard(now: int)
      requires Entered(World()) && P.KindAt(s.phaseIdx) == P.Leaderboard && JustBegun(watch, s, now)
      modifies this
      ensures Valid() && BeginsPhase(old(World()), World(), now) && Footprint() == old(Footprint())
      decreases |s.phases| - s.phaseIdx, 1
    {
      ghost var m := World();
      SetUpBoard(now);
      ghost var n := World();
      Apply(STAY, now);
      Began(m, n, STAY, World(), now);
    }

    method SetUpBoard(now: int)
      requires Entered(World()) && P.KindAt(s.phaseIdx) == P.Leaderboard && JustBegun(watch, s, now)
      modifies this`s
      ensures Good(World().(sent := sent + STAY.events))
      ensures Footprint() == old(Footprint()) && Starts(old(World()), World(), STAY)
    {
      ghost var w := World();
      BoardIsReady(w);
      InitRevealSteps();
      assert World() == w.(s := w.s.(stepState := s.stepState));
      LeaderboardStart(w, s.stepState, now);
    }

    method InitRevealSteps()
      requires s.stepState == None && HasReveals(s.phaseData, s.round)
      modifies this`s
      ensures s == old(s).(stepState := s.stepState) && CursorOk(s.stepState, s.phaseData, s.round)
      ensures s.stepState.Some? ==> s.stepState.value.idx == 0 && s.stepState.value.round == s.round
      ensures Footprint() == old(Footprint())
    {
      var result := ResultAt(s.phaseData, P.Reveal, s.round);
      var queue := BuildRevealSteps(if result.Some? && result.value.RevealsResult? then Some(result.value.revealed) else None);
      QueueIsEmptyIff(queue, RevealsIn(s.phaseData, s.round));
      if |queue| == 0 {
        return;
      }
      s := s.(stepState := Some(StepState(s.round, queue, 0)));
    }

    // ----- joining and leaving -----

    /** A token that is still good brings its player back, in any status. */
    method OnReconnect(pid: PlayerID, name: string, now: int)
      requires Valid() && pid != NOBODY
      modifies this
      ensures Valid() && World() == BroadcastState(old(World()).(s := Reconnected(old(s), pid, name, now)))
      ensures Footprint() == old(Footprint())
    {
      ReconnectIsGood(World(), pid, name, now);
      TakeSeatBack(pid, name, now);
    }

    method TakeSeatBack(pid: PlayerID, name: string, now: int)
      modifies this
      ensures World() == BroadcastState(old(World()).(s := Reconnected(old(s), pid, name, now)))
      ensures Footprint() == old(Footprint())
    {
      if pid !in s.players {
        s := s.(players := s.players[pid := Player(name, false, now, false)]);
      }
      s := s.(players := s.players[pid := s.players[pid].(connected := true, lastSeen := now)]);
      s := s.(conns := s.conns + {pid});
      Broadcast(Snapshot(s));
    }

    method Broadcast(ghost ev: Event)
      modifies this`sent
      ensures sent == old(sent) + [ev]
    {
      sent := sent + [ev];
    }

    method ResetSession()
      modifies this
      ensures World() == Reset(old(World())) && Footprint() == {}
    {
      s := s.(postGame := false, phases := []);
      current := NoPrimitive;
      s := s.(phaseTimer := None, stepState := None, phaseDeadline := None, pauseRemaining := 0, status := Idle);
      s := s.(phaseIdx := 0, round := 0, stateSettings := s.settings, phaseData := map[], scores := map[], players := map[]);
      s := s.(joinOrder := [], leaderID := NOBODY, paused := false, pencilsDown := false, rerolled := {}, drawn := {});
      s := s.(conns := {});
      sent := [];
    }

    method RecoverIfAbandoned()
      requires Valid()
      modifies this
      ensures Valid() && (Footprint() == old(Footprint()) || Footprint() == {})
      ensures World() == if Abandoned(old(s)) then Reset(old(World())) else old(World())
    {
      if (s.postGame || s.status == InGame) && s.conns == {} {
        ResetDropsNobody(World(), NOBODY);
        ResetSession();
      }
    }

    method TakeSeat(pid: PlayerID, name: string, now: int)
      modifies this
      ensures World() == Joined(old(World()), pid, name, now) && Footprint() == old(Footprint())
    {
      issued := issued + {pid};
      s := s.(players := s.players[pid := Player(name, true, now, false)]);
      s := s.(conns := s.conns + {pid});
      s := s.(joinOrder := s.joinOrder + [pid]);
      if s.leaderID == NOBODY {
        s := s.(leaderID := pid);
      }
      Broadcast(Snapshot(s));
    }

    /** A fresh join, with the name after cleaning, if it survived that. An abandoned session
        is reset first, even when the join then fails over the name. */
    method OnJoin(name: Option<string>, now: int) returns (r: Option<PlayerID>)
      requires Valid()
      modifies this
      ensures Valid() && (Footprint() == old(Footprint()) || Footprint() == {})
      ensures var w := if Abandoned(old(s)) then Reset(old(World())) else old(World());
              && (r.None? <==> w.s.status == InGame || name.None?)
              && (r.None? ==> World() == w)
              && (r.Some? ==> World() == Joined(w, r.value, name.value, now))
      ensures r.Some? ==> r.value !in old(s).players && r.value !in old(issued) && r.value != NOBODY
    {
      var pid := FreshId(issued + s.players.Keys);
      RecoverIfAbandoned();
      if s.status == InGame || name.None? {
        return None;
      }
      JoinIsGood(World(), pid, name.value, now);
      TakeSeat(pid, name.value, now);
      return Some(pid);
    }

    /** The earliest joiner who is still connected. */
    method PickLeader() returns (id: PlayerID)
      ensures id == FirstConnected(s.joinOrder, s.players)
    {
      for i := 0 to |s.joinOrder|
        invariant FirstConnected(s.joinOrder, s.players) == FirstConnected(s.joinOrder[i..], s.players)
      {
        var next := s.joinOrder[i];
        assert s.joinOrder[i..][0] == next && s.joinOrder[i..][1..] == s.joinOrder[i + 1..];
        if next in s.players && s.players[next].connected {
          return next;
        }
      }
      return NOBODY;
    }

    method AllReadyAndEnough() returns (yes: bool)
      ensures yes <==> CanStart(s.players)
    {
      var connected, readies := 0, 0;
      var ids := AnyOrder(s.players.Keys);
      ghost var seen: set<PlayerID> := {};
      for i := 0 to |ids|
        invariant seen == set p | p in ids[..i] && s.players[p].connected
        invariant connected == |seen| && readies <= connected
        invariant readies == connected <==> forall p :: p in seen ==> s.players[p].ready
      {
        assert ids[..i + 1] == ids[..i] + [ids[i]];
        assert ids[i] !in ids[..i];
        if s.players[ids[i]].connected {
          connected := connected + 1;
          if s.players[ids[i]].ready {
            readies := readies + 1;
          }
          seen := seen + {ids[i]};
        }
      }
      assert ids[..|ids|] == ids;
      assert seen == ConnectedSet(s.players);
      yes := connected >= 3 && readies == connected;
    }

    method OnStartGame(now: int)
      requires Valid() && s.status == Idle && CanStart(s.players)
      modifies this
      ensures Valid() && Begun(old(World()), World(), now) && fresh(Footprint())
    {
      StartNeedsCleanLobby(World());
      NormalizedIsOk(s.settings);
      s := s.(settings := NormalizeSettings(s.settings));
      s := s.(stateSettings := s.settings, rerolled := {}, drawn := {});
      var connected := |s.conns|;
      var phases := P.BuildPhases(connected, s.stateSettings);
      P.PlansAreWellFormed(phases, s.stateSettings);
      var rejected := P.ValidatePhaseSequence(phases);
      assert !rejected;
      s := s.(phases := phases, status := InGame);
      s := s.(round := 1, phaseIdx := 0, phaseData := map[]);
      assert World() == Started(old(World()), phases);
      StartedIsAtDoor(old(World()), phases);
      StartPhase(now);
    }

    method GiveUpSeat(pid: PlayerID, now: int)
      requires pid in s.players
      modifies this
      ensures World() == BroadcastState(old(World()).(s := Departed(old(s), pid, now))) && Footprint() == old(Footprint())
    {
      s := s.(players := s.players[pid := s.players[pid].(connected := false, lastSeen := now)]);
      s := s.(conns := s.conns - {pid});
      if pid == s.leaderID {
        var next := PickLeader();
        if next != s.leaderID {
          s := s.(leaderID := next);
        }
      }
      Broadcast(Snapshot(s));
    }

    method OnLeave(pid: PlayerID, now: int)
      requires Valid()
      modifies this
      ensures Valid() && (Footprint() == old(Footprint()) || fresh(Footprint()))
      ensures pid !in old(s).players ==> World() == old(World())
      ensures pid in old(s).players ==>
                var w := BroadcastState(old(World()).(s := Departed(old(s), pid, now)));
                if w.s.status == Idle && CanStart(w.s.players) then Begun(w, World(), now) else World() == w
    {
      if pid !in s.players {
        return;
      }
      LeaveIsGood(World(), pid, now);
      GiveUpSeat(pid, now);
      StartIfReady(now);
    }

    method StartIfReady(now: int)
      requires Valid()
      modifies this
      ensures Valid() && (Footprint() == old(Footprint()) || fresh(Footprint()))
      ensures if old(s).status == Idle && CanStart(old(s).players) then Begun(old(World()), World(), now)
              else World() == old(World())
    {
      var start := AllReadyAndEnough();
      if s.status == Idle && start {
        OnStartGame(now);
      }
    }

    // ----- lobby messages and leader controls -----

    method OnReady(pid: PlayerID, ready: bool, now: int) returns (r: Outcome)
      requires Valid()
      modifies this
      ensures Valid() && (Footprint() == old(Footprint()) || fresh(Footprint()))
      ensures r == if old(s).status != Idle then Refused(WrongPhase) else Accepted
      ensures r.Refused? || pid !in old(s).players ==> World() == old(World())
      ensures r.Accepted? && pid in old(s).players ==>
                var w := BroadcastState(old(World()).(s := ReadySet(old(s), pid, ready)));
                if CanStart(w.s.players) then Begun(w, World(), now) else World() == w
    {
      if s.status != Idle {
        return Refused(WrongPhase);
      }
      if pid in s.players {
        ReadyIsGood(World(), pid, ready);
        SetReady(pid, ready);
        StartIfReady(now);
      }
      return Accepted;
    }

    /** The first ready after a game clears what is left of it. */
    method SetReady(pid: PlayerID, ready: bool)
      requires pid in s.players
      modifies this
      ensures World() == BroadcastState(old(World()).(s := ReadySet(old(s), pid, ready))) && Footprint() == old(Footprint())
    {
      if s.postGame {
        s := s.(postGame := false, phases := []);
        s := s.(phaseIdx := 0, round := 0, stateSettings := s.settings, phaseData := map[], scores := map[]);
        s := s.(rerolled := {}, drawn := {});
      }
      s := s.(players := s.players[pid := s.players[pid].(ready := ready)]);
      Broadcast(Snapshot(s));
    }

    method HandleSetPause(pid: PlayerID, pause: bool, now: int) returns (r: Outcome)
      requires Valid()
      modifies this
      ensures Valid() && Footprint() == old(Footprint())
      ensures r == if pid != old(s).leaderID then Refused(NotAllowed) else Accepted
      ensures World() == if r.Refused? || pause == old(s).paused then old(World())
                         else BroadcastState(if pause then Paused(old(World()), now) else Resumed(old(World()), now))
    {
      if pid != s.leaderID {
        return Refused(NotAllowed);
      }
      if pause == s.paused {
        return Accepted;
      }
      PauseSwitchIsGood(World(), now);
      SwitchPause(pause, now);
      return Accepted;
    }

    method SwitchPause(pause: bool, now: int)
      modifies this`s, this`watch, this`sent
      ensures Footprint() == old(Footprint())
      ensures World() == BroadcastState(if pause then Paused(old(World()), now) else Resumed(old(World()), now))
    {
      if pause {
        StopClock(now);
      } else {
        RestartClock(now);
      }
      Broadcast(Snapshot(s));
    }

    method StopClock(now: int)
      modifies this`s, this`watch
      ensures World() == Paused(old(World()), now)
    {
      watch := Paused(World(), now).watch;
      if s.phaseDeadline.Some? {
        var remaining := s.phaseDeadline.value - now;
        if remaining < 0 {
          remaining := 0;
        }
        s := s.(pauseRemaining := remaining);
      }
      s := s.(phaseTimer := None);
      s := s.(paused := true);
    }

    method RestartClock(now: int)
      modifies this`s, this`watch
      ensures World() == Resumed(old(World()), now)
    {
      watch := Resumed(World(), now).watch;
      s := s.(paused := false);
      if s.pauseRemaining > 0 {
        s := s.(phaseTimer := Some(now + s.pauseRemaining));
        s := s.(phaseDeadline := Some(now + s.pauseRemaining));
        s := s.(pauseRemaining := 0);
      } else {
        s := s.(phaseDeadline := None);
      }
    }

    method HandleSetPencilsDown(pid: PlayerID, disabled: bool) returns (r: Outcome)
      requires Valid()
      modifies this
      ensures Valid() && Footprint() == old(Footprint())
      ensures r == if pid != old(s).leaderID then Refused(NotAllowed) else Accepted
      ensures World() == if r.Refused? then old(World())
                         else BroadcastState(old(World()).(s := old(s).(pencilsDown := disabled)))
    {
      if pid != s.leaderID {
        return Refused(NotAllowed);
      }
      PencilsAreGood(World(), disabled);
      SetPencils(disabled);
      return Accepted;
    }

    method SetPencils(disabled: bool)
      modifies this`s, this`sent
      ensures World() == BroadcastState(old(World()).(s := old(s).(pencilsDown := disabled))) && Footprint() == old(Footprint())
    {
      s := s.(pencilsDown := disabled);
      Broadcast(Snapshot(s));
    }

    method HandleUpdateSettings(pid: PlayerID, next: P.Settings) returns (r: Outcome)
      requires Valid()
      modifies this
      ensures Valid() && Footprint() == old(Footprint())
      ensures r == if pid != old(s).leaderID then Refused(NotAllowed)
                   else if old(s).status != Idle || old(s).postGame then Refused(WrongPhase) else Accepted
      ensures World() == if r.Refused? then old(World())
                         else BroadcastState(old(World()).(s := SettingsSet(old(s), next)))
    {
      if pid != s.leaderID {
        return Refused(NotAllowed);
      }
      if s.status != Idle || s.postGame {
        return Refused(WrongPhase);
      }
      SettingsAreGood(World(), next);
      SnapshotIsNoNews(World().(s := SettingsSet(s, next)));
      var settings := NormalizeSettings(next);
      s := s.(settings := settings);
      s := s.(stateSettings := settings);
      UnreadyAll();
      Broadcast(Snapshot(s));
      return Accepted;
    }

    // ----- within a game -----

    /** Which family the current phase belongs to, read off its name. */
    method PhaseIs(k: P.Kind) returns (yes: bool)
      requires s.phaseIdx < |s.phases| && P.IsPlan(s.phases, s.settings)
      ensures yes <==> P.KindAt(s.phaseIdx) == k
    {
      P.PlanFacts(s.phases, s.settings, s.phaseIdx);
      P.PrefixTellsKind(P.KindAt(s.phaseIdx), P.RoundAt(s.phaseIdx), k);
      yes := P.KindName(k) <= s.phases[s.phaseIdx].name;
    }

    /** The decision of the current collector when its time is up. */
    method TimeoutDecision() returns (d: Decision)
      requires Resting(World()) && P.KindAt(s.phaseIdx) in {P.DrawingSubmit, P.FakePromptSubmit, P.Voting}
      modifies this`issued
      ensures Resting(World()) && World() == old(World()).(issued := issued) && old(issued) <= issued
      ensures ClosesWith(World(), d)
    {
      match current {
        case DrawingCollector(_) => d := CloseDrawings();
        case FakeCollector(_) => d := CloseFakes();
        case _ => d := CloseVotes();
      }
    }

    method CloseDrawings() returns (d: Decision)
      requires Resting(World()) && P.KindAt(s.phaseIdx) == P.DrawingSubmit
      ensures ClosesWith(World(), d)
    {
      d := Decision(true, [], Some(DrawingsResult(current.drawings.items)));
    }

    method CloseFakes() returns (d: Decision)
      requires Resting(World()) && P.KindAt(s.phaseIdx) == P.FakePromptSubmit
      modifies this`issued
      ensures Resting(World()) && World() == old(World()).(issued := issued) && old(issued) <= issued
      ensures ClosesWith(World(), d)
    {
      ContextIsOk(World());
      var c := ContextOf(s, dict);
      var more;
      d, more := current.fakes.Timeout(c, issued);
      MoreIdsKeepGood(World(), more);
      issued := more;
    }

    method CloseVotes() returns (d: Decision)
      requires Resting(World()) && P.KindAt(s.phaseIdx) == P.Voting
      ensures ClosesWith(World(), d)
    {
      ContextIsOk(World());
      var drawings, fakes := DrawingsIn(s.phaseData, s.round), FakesIn(s.phaseData, s.round);
      d := current.votes.Timeout(drawings, fakes);
    }

    /** The phase timer has gone off. Whether the room is paused is not looked at. Without a
        game the timer is only stopped; there is none then. */
    method OnTimeout(now: int)
      requires Valid() && (s.status == InGame ==> s.phaseTimer.Some? && s.phaseTimer.value <= now)
      modifies this
      ensures Valid() && (Footprint() == old(Footprint()) || fresh(Footprint()))
      ensures old(s).status != InGame ==> World() == old(World())
      ensures old(s).status == InGame ==> exists w, d :: TimedOut(old(World()), w, d, World(), now)
      ensures old(s).status == InGame ==> Continues(old(s), s) && Less(MeasureOf(s), MeasureOf(old(s)))
    {
      if s.status != InGame || current.NoPrimitive? {
        s := s.(phaseTimer := None);
        return;
      }
      TimeUp(now);
    }

    method TimeUp(now: int)
      requires Valid() && s.status == InGame && s.phaseTimer.Some?
      modifies this
      ensures Valid() && fresh(Footprint())
      ensures exists w, d :: TimedOut(old(World()), w, d, World(), now)
      ensures Continues(old(s), s) && Less(MeasureOf(s), MeasureOf(old(s)))
    {
      TimerNeedsGame(World());
      var d := TimeoutDecision();
      ghost var w := World();
      ClosesDecided(w, d);
      Apply(d, now);
      AdvanceIsProgress(w, d, World(), now);
      assert TimedOut(old(World()), w, d, World(), now);
    }

    /** Only the leader may go on, on a leaderboard that is not paused. */
    method CheckAdvance(pid: PlayerID) returns (r: Outcome)
      requires Valid()
      ensures r == AdvanceVerdict(s, pid)
      ensures r.Accepted? <==> pid == s.leaderID && s.status == InGame && s.phaseIdx % 7 == 6 && !s.paused
    {
      if pid != s.leaderID {
        return Refused(NotAllowed);
      }
      if s.status != InGame || current.NoPrimitive? {
        return Refused(WrongPhase);
      }
      var onBoard := PhaseIs(P.Leaderboard);
      if !onBoard {
        return Refused(WrongPhase);
      }
      if s.paused {
        return Refused(NotAllowed);
      }
      return Accepted;
    }

    /** The leader's click: the next step while there is one, then the next phase. */
    method HandleAdvanceReveal(pid: PlayerID, now: int) returns (r: Outcome)
      requires Valid()
      modifies this
      ensures Valid() && (Footprint() == old(Footprint()) || fresh(Footprint()))
      ensures r == AdvanceVerdict(old(s), pid)
      ensures r.Refused? ==> World() == old(World())
      ensures r.Accepted? ==> if MoreSteps(old(s)) then World() == StepShown(old(World()))
                              else Applies(old(World()), DONE, World(), now)
      ensures r.Accepted? ==> Continues(old(s), s) && Less(MeasureOf(s), MeasureOf(old(s)))
    {
      r := CheckAdvance(pid);
      assert World() == old(World());
      if r.Accepted? {
        NextClick(now);
      }
    }

    method NextClick(now: int)
      requires Valid() && s.status == InGame && P.KindAt(s.phaseIdx) == P.Leaderboard && !s.paused
      modifies this
      ensures Valid() && (Footprint() == old(Footprint()) || fresh(Footprint()))
      ensures MoreSteps(old(s)) ==> World() == StepShown(old(World()))
      ensures !MoreSteps(old(s)) ==> Applies(old(World()), DONE, World(), now)
      ensures Continues(old(s), s) && Less(MeasureOf(s), MeasureOf(old(s)))
    {
      if s.stepState.Some? && s.stepState.value.idx < |s.stepState.value.queue| {
        ShowNext();
      } else {
        LeaveBoard(now);
      }
    }

    method ShowNext()
      requires Valid() && s.status == InGame && P.KindAt(s.phaseIdx) == P.Leaderboard && MoreSteps(s)
      modifies this
      ensures Valid() && Footprint() == old(Footprint()) && World() == StepShown(old(World()))
      ensures Continues(old(s), s) && Less(MeasureOf(s), MeasureOf(old(s)))
    {
      StepIsGood(World());
      OnRevealStep();
    }

    method LeaveBoard(now: int)
      requires Valid() && s.status == InGame && P.KindAt(s.phaseIdx) == P.Leaderboard && !s.paused
      modifies this
      ensures Valid() && fresh(Footprint()) && Applies(old(World()), DONE, World(), now)
      ensures Continues(old(s), s) && Less(MeasureOf(s), MeasureOf(old(s)))
    {
      LeaderboardDecided(World());
      Apply(DONE, now);
      AdvanceIsProgress(old(World()), DONE, World(), now);
    }

    method OnRevealStep()
      requires s.stepState.Some? && s.stepState.value.idx < |s.stepState.value.queue|
      modifies this`s, this`sent
      ensures World() == StepShown(old(World())) && Footprint() == old(Footprint())
    {
      var st := s.stepState.value;
      var step := st.queue[st.idx];
      s := s.(stepState := Some(st.(idx := st.idx + 1)));
      Broadcast(RevealStep(step));
    }

    method CheckReroll(pid: PlayerID) returns (r: Outcome)
      requires Valid()
      ensures r == RerollVerdict(s, pid)
    {
      if s.status != InGame || current.NoPrimitive? {
        return Refused(WrongPhase);
      }
      if s.paused {
        return Refused(NotAllowed);
      }
      var drawing := PhaseIs(P.DrawingSubmit);
      if !drawing {
        return Refused(WrongPhase);
      }
      if (s.round, pid) in s.rerolled {
        return Refused(NotAllowed);
      }
      if (s.round, pid) in s.drawn {
        return Refused(NotAllowed);
      }
      if pid !in PromptsIn(s.phaseData, s.round) {
        return Refused(NotAllowed);
      }
      return Accepted;
    }

    method HandleRerollPrompt(pid: PlayerID) returns (r: Outcome)
      requires Valid()
      modifies this
      ensures Valid() && Footprint() == old(Footprint())
      ensures r == RerollVerdict(old(s), pid)
      ensures r.Accepted? <==>
              && old(s).status == InGame && !old(s).paused && old(s).phaseIdx % 7 == 1
              && pid in PromptsIn(old(s).phaseData, old(s).round)
              && (old(s).round, pid) !in old(s).rerolled && (old(s).round, pid) !in old(s).drawn
      ensures r.Refused? ==> World() == old(World())
      ensures r.Accepted? ==> exists prompt :: prompt in dict && World() == Rerolled(old(World()), pid, prompt)
      ensures r.Accepted? ==> Continues(old(s), s)
    {
      r := CheckReroll(pid);
      assert World() == old(World());
      if r.Accepted? {
        RerollNow(pid);
      }
    }

    method RerollNow(pid: PlayerID)
      requires Valid() && RerollVerdict(s, pid).Accepted?
      modifies this
      ensures Valid() && Footprint() == old(Footprint())
      ensures exists prompt :: prompt in dict && World() == Rerolled(old(World()), pid, prompt)
      ensures Continues(old(s), s)
    {
      var next := NextPrompts(dict, 1);
      var prompt := next[0];
      RerollIsGood(World(), pid, prompt);
      assert prompt in dict;
      Reissue(pid, prompt);
    }

    method Reissue(pid: PlayerID, prompt: string)
      modifies this`s, this`sent
      ensures World() == Rerolled(old(World()), pid, prompt) && Footprint() == old(Footprint())
    {
      var prompts := PromptsIn(s.phaseData, s.round);
      s := s.(phaseData := s.phaseData[Key(P.PromptDistribute, s.round) := PromptsResult(prompts[pid := prompt])]);
      s := s.(rerolled := s.rerolled + {(s.round, pid)});
      Broadcast(PromptIssued(pid, prompt));
    }

    // ----- submissions -----

    method CheckInput(k: P.Kind) returns (r: Outcome)
      requires Valid()
      ensures r == InputVerdict(s, k)
    {
      if s.status != InGame || current.NoPrimitive? {
        return Refused(WrongPhase);
      }
      if s.paused {
        return Refused(NotAllowed);
      }
      if s.pencilsDown && k == P.DrawingSubmit {
        return Refused(NotAllowed);
      }
      var accepts := PhaseIs(k);
      if !accepts {
        return Refused(WrongPhase);
      }
      return Accepted;
    }

    /** Pass a drawing to the collector. `contentOk` says whether the strokes were within their
        limits. */
    method TakeDrawing(pid: PlayerID, contentOk: bool, mark: bool) returns (r: Result<Decision>)
      requires current.DrawingCollector?
      modifies this`s, this`issued, Footprint()
      ensures current == old(current)
      ensures r.Ok? <==> contentOk && MayDraw(old(World()), pid)
      ensures r.Err? ==> World() == old(World())
      ensures r.Ok? ==> IsDrawingFiled(old(World()), World(), pid, mark, r.value)
    {
      var c, prompts := current.drawings, PromptsIn(s.phaseData, s.round);
      var eligible := p => p in prompts;
      var drawingId := FreshId(issued);
      var decoded := if contentOk && pid in prompts then Ok(Drawing(drawingId, pid, prompts[pid])) else Err("rejected");
      var done := c.Handle(s.players, eligible, pid, decoded);
      if done.Err? {
        return Err(done.message);
      }
      assert EligibleSet(s.players, eligible) == Drawers(s.players, s.phaseData, s.round);
      issued := issued + {drawingId};
      if mark {
        s := s.(drawn := s.drawn + {(s.round, pid)});
      }
      assert World() == DrawingFiled(old(World()), pid, drawingId, mark);
      r := Ok(if done.value then Decision(true, [], Some(DrawingsResult(c.items))) else STAY);
    }

    method FileDrawing(pid: PlayerID, contentOk: bool, mark: bool, now: int) returns (ok: bool)
      requires Valid() && s.status == InGame && P.KindAt(s.phaseIdx) == P.DrawingSubmit && pid != NOBODY
      modifies this, Footprint()
      ensures Valid() && (Footprint() == old(Footprint()) || fresh(Footprint()))
      ensures ok <==> contentOk && MayDraw(old(World()), pid)
      ensures !ok ==> World() == old(World())
      ensures ok ==> exists m, d :: DrawingTaken(old(World()), pid, mark, m, d, World(), now)
      ensures Continues(old(s), s)
    {
      ghost var w := World();
      var r := TakeDrawing(pid, contentOk, mark);
      if r.Err? {
        return false;
      }
      ghost var m := World();
      DrawingFiledIsGood(w, m, pid, mark, r.value);
      Settle(r.value, now);
      FilingContinues(w.s, m.s, s);
      assert DrawingTaken(w, pid, mark, m, r.value, World(), now);
      return true;
    }

    /** Act on the decision of the collector that has just taken something. */
    method Settle(d: Decision, now: int)
      requires Valid() && s.status == InGame && P.KindAt(s.phaseIdx) != P.Leaderboard
      requires d == STAY || ClosesWith(World(), d)
      modifies this
      ensures Valid() && (Footprint() == old(Footprint()) || fresh(Footprint()))
      ensures Settles(old(World()), d, World(), now) && Continues(old(s), s)
    {
      ghost var m := World();
      if d.advance {
        ClosesDecided(m, d);
      }
      Apply(d, now);
      if d.advance {
        AdvanceIsProgress(m, d, World(), now);
      } else {
        assert m.sent + d.events == m.sent;
      }
    }

    method FileFake(pid: PlayerID, drawing: DrawingID, raw: string, now: int) returns (ok: bool)
      requires Valid() && s.status == InGame && P.KindAt(s.phaseIdx) == P.FakePromptSubmit && pid != NOBODY
      modifies this, Footprint()
      ensures Valid() && (Footprint() == old(Footprint()) || fresh(Footprint()))
      ensures ok <==> MayFake(old(World()), pid, drawing, raw)
      ensures !ok ==> World() == old(World())
      ensures ok ==> exists m, d :: FakeTaken(old(World()), pid, drawing, raw, m, d, World(), now)
      ensures Continues(old(s), s)
    {
      ghost var w := World();
      ContextIsOk(w);
      var r := TakeFake(pid, drawing, raw);
      if r.Err? {
        return false;
      }
      ghost var m := World();
      FakeFiledIsGood(w, m, pid, drawing, raw, r.value);
      Settle(r.value, now);
      FilingContinues(w.s, m.s, s);
      assert FakeTaken(w, pid, drawing, raw, m, r.value, World(), now);
      return true;
    }

    method TakeFake(pid: PlayerID, drawing: DrawingID, raw: string) returns (r: Result<Decision>)
      requires current.FakeCollector? && pid != NOBODY
      requires ContextOk(ContextOf(s, dict)) && FakesOk(current.fakes.got, DrawingsIn(s.phaseData, s.round), issued)
      modifies this`issued, Footprint()
      ensures current == old(current)
      ensures r.Ok? <==> MayFake(old(World()), pid, drawing, raw)
      ensures r.Err? ==> World() == old(World())
      ensures r.Ok? ==> IsFakeFiled(old(World()), World(), pid, drawing, raw, r.value)
    {
      var more;
      r, more := current.fakes.Handle(ContextOf(s, dict), pid, drawing, raw, issued);
      issued := more;
    }

    method FileVote(pid: PlayerID, drawing: DrawingID, choice: string, now: int) returns (ok: bool)
      requires Valid() && s.status == InGame && P.KindAt(s.phaseIdx) == P.Voting
      modifies this, Footprint()
      ensures Valid() && (Footprint() == old(Footprint()) || fresh(Footprint()))
      ensures ok <==> MayVote(old(World()), pid, drawing, choice)
      ensures !ok ==> World() == old(World())
      ensures ok ==> exists m, d :: VoteTaken(old(World()), pid, drawing, choice, m, d, World(), now)
      ensures Continues(old(s), s)
    {
      ghost var w := World();
      VotingIsReady(w);
      var r := TakeVote(pid, drawing, choice);
      if r.Err? {
        return false;
      }
      ghost var m := World();
      VoteFiledIsGood(w, m, pid, drawing, choice, r.value);
      Settle(r.value, now);
      FilingContinues(w.s, m.s, s);
      assert VoteTaken(w, pid, drawing, choice, m, r.value, World(), now);
      return true;
    }

    method TakeVote(pid: PlayerID, drawing: DrawingID, choice: string) returns (r: Result<Decision>)
      requires current.VoteCollector?
      requires var drawings, fakes := DrawingsIn(s.phaseData, s.round), FakesIn(s.phaseData, s.round);
               DrawingsOk(drawings) && FakeIdsDistinct(fakes) && VotesOk(current.votes.got, drawings, fakes)
      modifies Footprint()
      ensures current == old(current)
      ensures r.Ok? <==> MayVote(old(World()), pid, drawing, choice)
      ensures r.Err? ==> World() == old(World())
      ensures r.Ok? ==> IsVoteFiled(old(World()), World(), pid, drawing, choice, r.value)
    {
      r := current.votes.Handle(ContextOf(s, dict), FakesIn(s.phaseData, s.round), pid, drawing, choice);
    }

    method OnSubmitDrawing(pid: PlayerID, contentOk: bool, now: int) returns (r: Outcome)
      requires Valid() && pid != NOBODY
      modifies this, Footprint()
      ensures Valid() && (Footprint() == old(Footprint()) || fresh(Footprint()))
      ensures r.Refused? ==> World() == old(World())
      ensures r.Accepted? <==>
              InputVerdict(old(s), P.DrawingSubmit).Accepted? && contentOk && MayDraw(old(World()), pid)
      ensures r.Accepted? ==> exists m, d :: DrawingTaken(old(World()), pid, true, m, d, World(), now)
      ensures old(s).status == InGame ==> Continues(old(s), s)
    {
      r := CheckInput(P.DrawingSubmit);
      assert World() == old(World());
      if r.Accepted? {
        var ok := FileDrawing(pid, contentOk, true, now);
        if !ok {
          return Refused(NotAllowed);
        }
      }
    }

    method OnSubmitFake(pid: PlayerID, drawing: DrawingID, raw: string, now: int) returns (r: Outcome)
      requires Valid() && pid != NOBODY
      modifies this, Footprint()
      ensures Valid() && (Footprint() == old(Footprint()) || fresh(Footprint()))
      ensures r.Refused? ==> World() == old(World())
      ensures r.Accepted? <==>
              InputVerdict(old(s), P.FakePromptSubmit).Accepted? && MayFake(old(World()), pid, drawing, raw)
      ensures r.Accepted? ==> exists m, d :: FakeTaken(old(World()), pid, drawing, raw, m, d, World(), now)
      ensures old(s).status == InGame ==> Continues(old(s), s)
    {
      r := CheckInput(P.FakePromptSubmit);
      assert World() == old(World());
      if r.Accepted? {
        var ok := FileFake(pid, drawing, raw, now);
        if !ok {
          return Refused(NotAllowed);
        }
      }
    }

    method OnSubmitVote(pid: PlayerID, drawing: DrawingID, choice: string, now: int) returns (r: Outcome)
      requires Valid() && pid != NOBODY
      modifies this, Footprint()
      ensures Valid() && (Footprint() == old(Footprint()) || fresh(Footprint()))
      ensures r.Refused? ==> World() == old(World())
      ensures r.Accepted? <==>
              InputVerdict(old(s), P.Voting).Accepted? && MayVote(old(World()), pid, drawing, choice)
      ensures r.Accepted? ==> exists m, d :: VoteTaken(old(World()), pid, drawing, choice, m, d, World(), now)
      ensures old(s).status == InGame ==> Continues(old(s), s)
    {
      r := CheckInput(P.Voting);
      assert World() == old(World());
      if r.Accepted? {
        var ok := FileVote(pid, drawing, choice, now);
        if !ok {
          return Refused(NotAllowed);
        }
      }
    }

    // ----- players who stay away -----

    /** Every heartbeat, absent players past their grace get a default input, through the same
        collectors as everyone else. `trace` holds the worlds in between. */
    method OnTick(now: int) returns (ghost trace: seq<World>)
      requires Valid()
      modifies this, Footprint()
      ensures Valid() && (Footprint() == old(Footprint()) || fresh(Footprint()))
      ensures DefaultTrace(trace, old(World()), World(), now)
      ensures old(s).paused || old(s).status != InGame ==> World() == old(World())
      ensures !old(s).paused && old(s).status == InGame ==>
                forall p :: Absent(old(s), p, now) ==> HadTheirTurn(old(World()), p, World())
    {
      trace := [World()];
      if s.paused {
        return;
      }
      var ids := AnyOrder(s.players.Keys);
      for i := 0 to |ids|
        invariant Valid() && (Footprint() == old(Footprint()) || fresh(Footprint()))
        invariant s.players.Keys == old(s).players.Keys && !s.paused
        invariant DefaultTrace(trace, old(World()), World(), now)
        invariant old(s).status != InGame ==> World() == old(World())
        invariant old(s).status == InGame ==> GoesOn(old(s), s)
        invariant old(s).status == InGame ==>
                    forall p :: p in ids[..i] && Absent(old(s), p, now) ==> HadTheirTurn(old(World()), p, World())
      {
        assert ids[..i + 1] == ids[..i] + [ids[i]];
        var p := s.players[ids[i]];
        if !p.connected && now - p.lastSeen > DISCONNECT_GRACE && s.status == InGame {
          trace := DefaultFor(ids[i], now, old(World()), trace, ids[..i]);
        }
      }
      assert ids[..|ids|] == ids;
    }

    /** One turn of the heartbeat's loop; `first` is the room as the heartbeat found it. */
    method DefaultFor(pid: PlayerID, now: int, ghost first: World, ghost trace: seq<World>, ghost done: seq<PlayerID>)
      returns (ghost longer: seq<World>)
      requires Valid() && s.status == InGame && !s.paused && Absent(s, pid, now)
      requires DefaultTrace(trace, first, World(), now) && GoesOn(first.s, s)
      requires forall p :: p in done && Absent(first.s, p, now) ==> HadTheirTurn(first, p, World())
      modifies this, Footprint()
      ensures Valid() && (Footprint() == old(Footprint()) || fresh(Footprint()))
      ensures s.players.Keys == old(s).players.Keys && !s.paused
      ensures DefaultTrace(longer, first, World(), now) && GoesOn(first.s, s)
      ensures forall p :: p in done && Absent(first.s, p, now) ==> HadTheirTurn(first, p, World())
      ensures HadTheirTurn(first, pid, World())
    {
      ghost var before := World();
      longer := trace;
      var ok := SubmitDefault(pid, now);
      if ok {
        DefaultGoesOn(first, before, pid, World(), now, done);
        DefaultSameRoom(before, pid, World(), now);
        DefaultTraceGrows(trace, first, before, pid, World(), now);
        longer := trace + [World()];
      }
      TurnsPass(first, before, pid, World());
    }

    /** The game's substitute for an absent player's input in the current phase. */
    method SubmitDefault(pid: PlayerID, now: int) returns (ok: bool)
      requires Valid() && s.status == InGame && pid != NOBODY
      modifies this, Footprint()
      ensures Valid() && (Footprint() == old(Footprint()) || fresh(Footprint()))
      ensures !ok ==> World() == old(World())
      ensures ok ==> DefaultTaken(old(World()), pid, World(), now)
      ensures HadTheirTurn(old(World()), pid, World())
    {
      P.PlanFacts(s.phases, s.settings, s.phaseIdx);
      match s.phases[s.phaseIdx].primitive {
        case DrawingSubmit => ok := DefaultDrawing(pid, now);
        case FakePromptSubmit => ok := DefaultFake(pid, now);
        case Voting => ok := DefaultVote(pid, now);
        case _ => ok := false;
      }
    }

    method DefaultDrawing(pid: PlayerID, now: int) returns (ok: bool)
      requires Valid() && s.status == InGame && P.KindAt(s.phaseIdx) == P.DrawingSubmit && pid != NOBODY
      modifies this, Footprint()
      ensures Valid() && (Footprint() == old(Footprint()) || fresh(Footprint()))
      ensures !ok ==> World() == old(World())
      ensures ok ==> DefaultTaken(old(World()), pid, World(), now)
      ensures HadTheirTurn(old(World()), pid, World())
    {
      ok := FileDrawing(pid, true, false, now);
      if ok {
        ghost var m, d :| DrawingTaken(old(World()), pid, false, m, d, World(), now);
        AcceptedDrawing(old(World()), pid, m, d, World(), now);
      }
    }

    method DefaultFake(pid: PlayerID, now: int) returns (ok: bool)
      requires Valid() && s.status == InGame && P.KindAt(s.phaseIdx) == P.FakePromptSubmit && pid != NOBODY
      modifies this, Footprint()
      ensures Valid() && (Footprint() == old(Footprint()) || fresh(Footprint()))
      ensures !ok ==> World() == old(World())
      ensures ok ==> DefaultTaken(old(World()), pid, World(), now)
      ensures HadTheirTurn(old(World()), pid, World())
    {
      var target;
      ghost var a;
      target, a := DrawingOfSomeoneElse(pid);
      assert World() == old(World());
      if target.None? {
        NoTarget(World(), pid);
        return false;
      }
      ok := SubmitDefaultFake(pid, target.value.id, a, now);
    }

    method SubmitDefaultFake(pid: PlayerID, drawing: DrawingID, ghost a: PlayerID, now: int) returns (ok: bool)
      requires Valid() && s.status == InGame && P.KindAt(s.phaseIdx) == P.FakePromptSubmit && pid != NOBODY
      requires OthersDrawing(World(), pid, a, drawing)
      modifies this, Footprint()
      ensures Valid() && (Footprint() == old(Footprint()) || fresh(Footprint()))
      ensures !ok ==> World() == old(World())
      ensures ok ==> DefaultTaken(old(World()), pid, World(), now)
      ensures HadTheirTurn(old(World()), pid, World())
    {
      ok := FileFake(pid, drawing, DEFAULT_FAKE_TEXT, now);
      if ok {
        ghost var m, d :| FakeTaken(old(World()), pid, drawing, DEFAULT_FAKE_TEXT, m, d, World(), now);
        AcceptedFake(old(World()), pid, a, m, d, World(), now);
      } else {
        assert FakeSpent(World(), pid, a);
      }
    }

    method DefaultVote(pid: PlayerID, now: int) returns (ok: bool)
      requires Valid() && s.status == InGame && P.KindAt(s.phaseIdx) == P.Voting && pid != NOBODY
      modifies this, Footprint()
      ensures Valid() && (Footprint() == old(Footprint()) || fresh(Footprint()))
      ensures !ok ==> World() == old(World())
      ensures ok ==> DefaultTaken(old(World()), pid, World(), now)
      ensures HadTheirTurn(old(World()), pid, World())
    {
      var target;
      ghost var a;
      target, a := DrawingOfSomeoneElse(pid);
      assert World() == old(World());
      if target.None? {
        NoTarget(World(), pid);
        return false;
      }
      ok := VoteOnAny(pid, target.value.id, a, now);
    }

    method VoteOnAny(pid: PlayerID, id: DrawingID, ghost a: PlayerID, now: int) returns (ok: bool)
      requires Valid() && s.status == InGame && P.KindAt(s.phaseIdx) == P.Voting && pid != NOBODY
      requires OthersDrawing(World(), pid, a, id)
      modifies this, Footprint()
      ensures Valid() && (Footprint() == old(Footprint()) || fresh(Footprint()))
      ensures !ok ==> World() == old(World())
      ensures ok ==> DefaultTaken(old(World()), pid, World(), now)
      ensures HadTheirTurn(old(World()), pid, World())
    {
      var choice := PickChoice(pid, ListAt(FakesIn(s.phaseData, s.round), id));
      assert World() == old(World());
      ok := CastDefault(pid, id, a, choice, now);
    }

    method CastDefault(pid: PlayerID, id: DrawingID, ghost a: PlayerID, choice: string, now: int) returns (ok: bool)
      requires Valid() && s.status == InGame && P.KindAt(s.phaseIdx) == P.Voting && pid != NOBODY
      requires OthersDrawing(World(), pid, a, id)
      modifies this, Footprint()
      ensures Valid() && (Footprint() == old(Footprint()) || fresh(Footprint()))
      ensures !ok ==> World() == old(World())
      ensures ok ==> DefaultTaken(old(World()), pid, World(), now)
      ensures MayChoose(pid, choice, ListAt(FakesIn(old(s).phaseData, old(s).round), id)) ==>
                HadTheirTurn(old(World()), pid, World())
    {
      ghost var w := World();
      VotingIsReady(w);
      ok := FileVote(pid, id, choice, now);
      if ok {
        ghost var m, d :| VoteTaken(w, pid, id, choice, m, d, World(), now);
        AcceptedVote(w, pid, a, choice, m, d, World(), now);
      } else {
        RefusedVoteIsSpent(w, pid, a, choice);
      }
    }

    method DrawingOfSomeoneElse(pid: PlayerID) returns (found: Option<Drawing>, ghost a: PlayerID)
      ensures found.Some? ==> OthersDrawing(World(), pid, a, found.value.id)
      ensures found.None? ==> NoneOfOthers(World(), pid)
    {
      var drawings := DrawingsIn(s.phaseData, s.round);
      var authors := AnyOrder(drawings.Keys);
      for i := 0 to |authors|
        invariant forall a :: a in authors[..i] ==> drawings[a].author == pid
      {
        assert authors[..i + 1] == authors[..i] + [authors[i]];
        if drawings[authors[i]].author != pid {
          return Some(drawings[authors[i]]), authors[i];
        }
      }
      assert authors[..|authors|] == authors;
      return None, NOBODY;
    }

    /** Any of the choices open to the player among the fakes of a drawing, and the truth. */
    static method PickChoice(pid: PlayerID, list: seq<FakePrompt>) returns (pick: string)
      ensures MayChoose(pid, pick, list)
    {
      var choices := [TRUE_ID];
      for i := 0 to |list|
        invariant choices != [] && forall c :: c in choices ==> MayChoose(pid, c, list)
      {
        if list[i].author != pid {
          choices := choices + [list[i].id];
        }
      }
      var at :| 0 <= at < |choices|;
      return choices[at];
    }
  }
}
