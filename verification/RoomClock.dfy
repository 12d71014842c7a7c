/** Pausing and resuming as functions of the world, and what they do to the phase clock. */
module RoomClock {
  import opened Prelude
  import opened RoomInvariants
  import opened RoomSteps

  /** The unpaused time spent in the phase by `now`, on a clock that runs. */
  function SpentBy(watch: Watch, now: int): int {
    watch.spent + (now - watch.since)
  }

  /** What the pause puts by: the time to the deadline, if one runs. */
  function TimeLeft(s: State, now: int): int {
    match s.phaseDeadline
    case Some(deadline) => if deadline > now then deadline - now else 0
    case None => s.pauseRemaining
  }

  function Paused(w: World, now: int): World {
    var left := TimeLeft(w.s, now);
    w.(s := w.s.(pauseRemaining := left, phaseTimer := None, paused := true),
       watch := if w.watch.clock == Regular && left > 0 then Watch(Regular, SpentBy(w.watch, now), now)
                else w.watch.(clock := Dead))
  }

  function Resumed(w: World, now: int): World {
    if w.s.pauseRemaining > 0 then
      var again := Some(now + w.s.pauseRemaining);
      w.(s := w.s.(paused := false, phaseTimer := again, phaseDeadline := again, pauseRemaining := 0),
         watch := w.watch.(since := now))
    else w.(s := w.s.(paused := false, phaseDeadline := None))
  }

  /** A pause or resume touches nothing but the clock. */
  ghost predicate OnlyClock(w: World, t: World) {
    t == w.(s := w.s.(paused := t.s.paused, phaseTimer := t.s.phaseTimer, phaseDeadline := t.s.phaseDeadline,
                      pauseRemaining := t.s.pauseRemaining),
            watch := t.watch)
  }

  lemma ClockKeepsResting(w: World, t: World)
    requires Resting(w) && OnlyClock(w, t) && ClockOk(t.watch, t.s)
    ensures Resting(t)
  {
    assert ContentsOk(t) == ContentsOk(w);
  }

  /** An accepted pause in a game stops the clock, whatever its history. */
  lemma PauseIsGood(w: World, now: int)
    requires Good(w) && !w.s.paused
    ensures Good(Paused(w, now)) && (w.s.status == InGame ==> Frozen(Paused(w, now).s))
  {
    if w.s.status == InGame {
      PausedClock(w, now);
      ClockKeepsResting(w, Paused(w, now));
    }
  }

  lemma PausedClock(w: World, now: int)
    requires w.s.phaseIdx < |w.s.phases| && ClockOk(w.watch, w.s) && !w.s.paused
    ensures ClockOk(Paused(w, now).watch, Paused(w, now).s)
  {
  }

  lemma ResumeIsGood(w: World, now: int)
    requires Good(w) && w.s.paused
    ensures Good(Resumed(w, now))
  {
    if w.s.status == InGame {
      ResumedClock(w, now);
      ClockKeepsResting(w, Resumed(w, now));
    }
  }

  lemma ResumedClock(w: World, now: int)
    requires w.s.phaseIdx < |w.s.phases| && ClockOk(w.watch, w.s) && w.s.paused
    ensures ClockOk(Resumed(w, now).watch, Resumed(w, now).s)
  {
  }

  /** Whatever the leader may switch to, the invariant survives it. */
  lemma PauseSwitchIsGood(w: World, now: int)
    requires Good(w)
    ensures !w.s.paused ==> Good(BroadcastState(Paused(w, now)))
    ensures w.s.paused ==> Good(BroadcastState(Resumed(w, now)))
  {
    if w.s.paused {
      ResumeIsGood(w, now);
      SnapshotIsNoNews(Resumed(w, now));
    } else {
      PauseIsGood(w, now);
      SnapshotIsNoNews(Paused(w, now));
    }
  }

  /** A pause taken with time left conserves it: the time spent and the time put by add up to
      the phase's duration, the deadline moves by exactly the length of the pause, and the
      pause itself does not count as time spent. */
  lemma PauseConservesTime(w: World, now: int, later: int, x: int)
    requires Resting(w) && !w.s.paused && w.s.phaseDeadline.Some? && now < w.s.phaseDeadline.value
    ensures var t := Paused(w, now);
            && t.s.pauseRemaining > 0
            && SpentBy(w.watch, now) + t.s.pauseRemaining == w.s.phases[w.s.phaseIdx].duration
            && Resumed(t, later).s.phaseTimer == Some(w.s.phaseDeadline.value + (later - now))
            && Resumed(t, later).s.phaseDeadline == Resumed(t, later).s.phaseTimer
            && SpentBy(Resumed(t, later).watch, x) == SpentBy(w.watch, now) + (x - later)
  {
  }

  /** A running timer does not survive a pause and resume exactly when it had no deadline on
      the books (the phase began while the room was paused, and was resumed since) or the
      deadline had passed. The phase, though timed, then has no timer. */
  lemma TimerIsLostIff(w: World, now: int, later: int)
    requires Resting(w) && !w.s.paused && w.s.phaseTimer.Some?
    ensures Resumed(Paused(w, now), later).s.phaseTimer == None
            <==> w.s.phaseDeadline.None? || now >= w.s.phaseDeadline.value
    ensures w.s.phases[w.s.phaseIdx].duration > 0
  {
  }

  /** In a room that is not paused, a timed phase runs without a timer exactly on a dead
      clock; on a regular clock the timer goes off when the whole duration has been spent. */
  lemma TimerTellsClock(w: World)
    requires Resting(w) && !w.s.paused && w.s.phases[w.s.phaseIdx].duration > 0
    ensures w.s.phaseTimer == None <==> w.watch.clock == Dead
    ensures w.watch.clock == Regular ==>
              SpentBy(w.watch, w.s.phaseTimer.value) == w.s.phases[w.s.phaseIdx].duration
  {
  }
}
