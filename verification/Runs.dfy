/** Whole runs of a room: any messages, in any order, at any times. */
module Runs {
  import opened Game
  import opened RoundCollectors
  import opened RoomInvariants
  import opened RoomSteps
  import opened Rooms
  import opened Steps

  // ----- the actor's loop -----

  method StepJoin(room: Room, e: Entry)
    requires room.Valid() && e.msg.Join?
    modifies room
    ensures room.Valid() && Handled(old(room.World()), e, room.World())
    ensures room.Footprint() == old(room.Footprint()) || fresh(room.Footprint())
  {
    ghost var w := room.World();
    var r := room.OnJoin(e.msg.cleaned, e.now);
    AnswersJoin(w, e.msg.cleaned, r, room.World(), e.now);
  }

  method StepSeats(room: Room, e: Entry)
    requires room.Valid() && FromSomeone(e.msg) && (e.msg.Reconnect? || e.msg.Leave?)
    modifies room
    ensures room.Valid() && Handled(old(room.World()), e, room.World())
    ensures room.Footprint() == old(room.Footprint()) || fresh(room.Footprint())
  {
    if e.msg.Reconnect? {
      room.OnReconnect(e.msg.pid, e.msg.name, e.now);
    } else {
      room.OnLeave(e.msg.pid, e.now);
    }
  }

  method StepReady(room: Room, e: Entry)
    requires room.Valid() && e.msg.Ready?
    modifies room
    ensures room.Valid() && Handled(old(room.World()), e, room.World())
    ensures room.Footprint() == old(room.Footprint()) || fresh(room.Footprint())
  {
    var r := room.OnReady(e.msg.pid, e.msg.ready, e.now);
  }

  method StepLeader(room: Room, e: Entry)
    requires room.Valid() && (e.msg.SetPause? || e.msg.SetPencilsDown?)
    modifies room
    ensures room.Valid() && Handled(old(room.World()), e, room.World())
    ensures room.Footprint() == old(room.Footprint()) || fresh(room.Footprint())
  {
    if e.msg.SetPause? {
      var r := room.HandleSetPause(e.msg.pid, e.msg.pause, e.now);
    } else {
      var r := room.HandleSetPencilsDown(e.msg.pid, e.msg.disabled);
    }
  }

  method StepSettings(room: Room, e: Entry)
    requires room.Valid() && e.msg.UpdateSettings?
    modifies room
    ensures room.Valid() && Handled(old(room.World()), e, room.World())
    ensures room.Footprint() == old(room.Footprint()) || fresh(room.Footprint())
  {
    var r := room.HandleUpdateSettings(e.msg.pid, e.msg.next);
  }

  method StepClick(room: Room, e: Entry)
    requires room.Valid() && e.msg.AdvanceReveal?
    modifies room
    ensures room.Valid() && Handled(old(room.World()), e, room.World())
    ensures room.Footprint() == old(room.Footprint()) || fresh(room.Footprint())
  {
    var r := room.HandleAdvanceReveal(e.msg.pid, e.now);
  }

  method StepReroll(room: Room, e: Entry)
    requires room.Valid() && e.msg.RerollPrompt?
    modifies room
    ensures room.Valid() && Handled(old(room.World()), e, room.World())
    ensures room.Footprint() == old(room.Footprint()) || fresh(room.Footprint())
  {
    var r := room.HandleRerollPrompt(e.msg.pid);
  }

  method StepSubmission(room: Room, e: Entry)
    requires room.Valid() && FromSomeone(e.msg) && Submits(e.msg)
    modifies room, room.Footprint()
    ensures room.Valid() && Handled(old(room.World()), e, room.World())
    ensures room.Footprint() == old(room.Footprint()) || fresh(room.Footprint())
  {
    match e.msg {
      case SubmitDrawing(pid, contentOk) => var r := room.OnSubmitDrawing(pid, contentOk, e.now);
      case SubmitFake(pid, drawing, text) => var r := room.OnSubmitFake(pid, drawing, text, e.now);
      case SubmitVote(pid, drawing, choice) => var r := room.OnSubmitVote(pid, drawing, choice, e.now);
    }
  }

  /** The timer's channel only fires when it is due. */
  method StepClock(room: Room, e: Entry)
    requires room.Valid() && (e.msg.TimerFires? || e.msg.Tick?)
    modifies room, room.Footprint()
    ensures room.Valid() && Handled(old(room.World()), e, room.World())
    ensures room.Footprint() == old(room.Footprint()) || fresh(room.Footprint())
  {
    if e.msg.Tick? {
      ghost var trace := room.OnTick(e.now);
    } else if Due(room.s, e.now) {
      room.OnTimeout(e.now);
    }
  }

  /** One message through the actor: what it does is `Handled`, and the room stays in order. */
  method Step(room: Room, e: Entry)
    requires room.Valid() && FromSomeone(e.msg)
    modifies room, room.Footprint()
    ensures room.Valid() && Handled(old(room.World()), e, room.World())
    ensures room.Footprint() == old(room.Footprint()) || fresh(room.Footprint())
  {
    match e.msg {
      case Join(_) => StepJoin(room, e);
      case Reconnect(_, _) => StepSeats(room, e);
      case Leave(_) => StepSeats(room, e);
      case Ready(_, _) => StepReady(room, e);
      case UpdateSettings(_, _) => StepSettings(room, e);
      case SetPause(_, _) => StepLeader(room, e);
      case SetPencilsDown(_, _) => StepLeader(room, e);
      case AdvanceReveal(_) => StepClick(room, e);
      case RerollPrompt(_) => StepReroll(room, e);
      case SubmitDrawing(_, _) => StepSubmission(room, e);
      case SubmitFake(_, _, _) => StepSubmission(room, e);
      case SubmitVote(_, _, _) => StepSubmission(room, e);
      case TimerFires => StepClock(room, e);
      case Tick => StepClock(room, e);
    }
  }

  /** `run` lists the worlds that a room goes through under `script`. */
  ghost predicate Follows(run: seq<World>, script: seq<Entry>) {
    && |run| == |script| + 1
    && forall i {:trigger StepAt(run, script, i)} :: 0 <= i < |script| ==> StepAt(run, script, i)
  }

  /** ... from its construction on. */
  ghost predicate IsRun(run: seq<World>, script: seq<Entry>) {
    && Follows(run, script)
    && run[0] == NewWorld(run[0].dict) && IsDictionary(run[0].dict) && |run[0].dict| >= 12
  }

  ghost predicate StepAt(run: seq<World>, script: seq<Entry>, i: nat)
    requires i < |script| && |run| == |script| + 1
  {
    FromSomeone(script[i].msg) && Handled(run[i], script[i], run[i + 1])
  }

  /** The actor takes messages off its inbox one by one. */
  method Loop(room: Room, script: seq<Entry>) returns (ghost run: seq<World>)
    requires room.Valid() && forall e :: e in script ==> FromSomeone(e.msg)
    modifies room, room.Footprint()
    ensures room.Valid() && Follows(run, script)
    ensures run[0] == old(room.World()) && run[|script|] == room.World()
  {
    run := [room.World()];
    for i := 0 to |script|
      invariant room.Valid() && Follows(run, script[..i])
      invariant run[0] == old(room.World()) && run[i] == room.World()
      invariant room.Footprint() == old(room.Footprint()) || fresh(room.Footprint())
    {
      assert script[i] in script;
      ghost var before := run;
      Step(room, script[i]);
      run := run + [room.World()];
      RunGrows(before, script, i, room.World());
    }
    assert script[..|script|] == script;
  }

  /** A room from its construction on. */
  method Serve(dict: seq<string>, script: seq<Entry>) returns (room: Room, ghost run: seq<World>)
    requires IsDictionary(dict) && |dict| >= 12 && forall e :: e in script ==> FromSomeone(e.msg)
    ensures IsRun(run, script) && run[0].dict == dict
    ensures room.Valid() && room.World() == run[|script|]
  {
    room := new Room(dict);
    run := Loop(room, script);
  }

  lemma SameStep(run: seq<World>, script: seq<Entry>, longer: seq<World>, part: seq<Entry>, k: nat)
    requires Follows(run, script) && k < |script| && k < |part| && |longer| == |part| + 1
    requires longer[k] == run[k] && longer[k + 1] == run[k + 1] && part[k] == script[k]
    ensures StepAt(longer, part, k)
  {
    assert StepAt(run, script, k);
  }

  lemma RunGrows(run: seq<World>, script: seq<Entry>, i: nat, t: World)
    requires i < |script| && Follows(run, script[..i]) && FromSomeone(script[i].msg) && Handled(run[i], script[i], t)
    ensures Follows(run + [t], script[..i + 1])
  {
    var longer, part := run + [t], script[..i + 1];
    forall k | 0 <= k < |part|
      ensures StepAt(longer, part, k)
    {
      if k < i {
        SameStep(run, script[..i], longer, part, k);
      }
    }
  }
}
