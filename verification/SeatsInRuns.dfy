/** Who sits where over a run: places in the join order, promotion, absence, and consent. */
module SeatsInRuns {
  import opened Game
  import opened RoomInvariants
  import opened RoomPlay
  import opened Steps
  import opened Runs
  import opened WholeRuns

  lemma SeatStep(run: seq<World>, script: seq<Entry>, k: nat, next: nat)
    requires IsRun(run, script) && k + 1 == next < |run|
    ensures if Resets(run[k].s, script[k]) then StartsOver(run[k], run[next]) else SeatsMove(run[k].s, script[k], run[next].s)
  {
    StepMoves(run, script, k, next);
  }

  // ----- places and promotion -----

  /** As long as the room is not reset, places in the join order are kept. */
  lemma {:induction false} PlacesAreKept(run: seq<World>, script: seq<Entry>, i: nat, j: nat)
    requires IsRun(run, script) && i <= j < |run| && forall k :: i <= k < j ==> !Resets(run[k].s, script[k])
    ensures run[i].s.joinOrder <= run[j].s.joinOrder
    decreases j
  {
    if i < j {
      PlacesAreKept(run, script, i, j - 1);
      SeatStep(run, script, j - 1, j);
    }
  }

  /** ... and given out one by one: whoever has place `n` took it by joining when exactly `n`
      others had. */
  lemma {:induction false} PlaceWasTaken(run: seq<World>, script: seq<Entry>, i: nat, j: nat, n: nat) returns (k: nat)
    requires IsRun(run, script) && i <= j < |run| && forall k :: i <= k < j ==> !Resets(run[k].s, script[k])
    requires |run[i].s.joinOrder| <= n < |run[j].s.joinOrder|
    ensures i <= k < j && script[k].msg.Join? && |run[k].s.joinOrder| == n
    ensures run[k + 1].s.joinOrder == run[k].s.joinOrder + [run[j].s.joinOrder[n]]
    ensures run[j].s.joinOrder[n] !in run[k].s.players
    decreases j
  {
    SeatStep(run, script, j - 1, j);
    k := j - 1;
    if n < |run[k].s.joinOrder| {
      k := PlaceWasTaken(run, script, i, j - 1, n);
    }
  }

  /** When the leader leaves, the post goes to the first in the join order who is here, and to
      nobody only if none of them is. */
  lemma LeaderIsSucceeded(run: seq<World>, script: seq<Entry>, i: nat)
    requires IsRun(run, script) && i < |script| && run[i].s.leaderID != NOBODY && script[i].msg == Leave(run[i].s.leaderID)
    ensures var s := run[i + 1].s;
            if s.leaderID == NOBODY then forall p :: p in s.joinOrder ==> !Connected(s.players, p)
            else exists n: nat :: IsFirstHere(s, n) && s.joinOrder[n] == s.leaderID
  {
    SeatStep(run, script, i, i + 1);
    AlwaysGood(run, script, i);
    AlwaysGood(run, script, i + 1);
    Successor(run[i], script[i], run[i + 1]);
  }

  /** Entry `n` of the join order is here, and none before it is. */
  ghost predicate IsFirstHere(s: State, n: nat) {
    && n < |s.joinOrder| && Connected(s.players, s.joinOrder[n])
    && forall m :: 0 <= m < n ==> !Connected(s.players, s.joinOrder[m])
  }

  lemma Successor(w: World, e: Entry, t: World)
    requires Good(w) && Good(t) && w.s.leaderID != NOBODY && e.msg == Leave(w.s.leaderID)
    ensures SeatsMove(w.s, e, t.s) ==>
              if t.s.leaderID == NOBODY then forall p :: p in t.s.joinOrder ==> !Connected(t.s.players, p)
              else exists n: nat :: IsFirstHere(t.s, n) && t.s.joinOrder[n] == t.s.leaderID
  {
    PromotionPicksEarliest(t.s.joinOrder, t.s.players);
    if SeatsMove(w.s, e, t.s) && t.s.leaderID != NOBODY {
      var n :| 0 <= n < |t.s.joinOrder| && t.s.joinOrder[n] == t.s.leaderID && Connected(t.s.players, t.s.leaderID)
               && forall m :: 0 <= m < n ==> !Connected(t.s.players, t.s.joinOrder[m]);
      assert IsFirstHere(t.s, n);
    }
  }

  // ----- absence -----

  /** Player `p` last left with message `k`, and has been away since, up to world `i`. */
  ghost predicate AwaySince(run: seq<World>, script: seq<Entry>, k: nat, i: nat, p: PlayerID)
    requires i < |run| == |script| + 1
  {
    && k < i && script[k].msg == Leave(p)
    && forall m :: k < m <= i ==>
                     p in run[m].s.players && !run[m].s.players[p].connected && (m < i ==> script[m].msg != Leave(p))
  }

  /** Whoever is not connected has left, and was last seen then. */
  lemma {:induction false} AwayPlayersLeft(run: seq<World>, script: seq<Entry>, i: nat, p: PlayerID) returns (k: nat)
    requires IsRun(run, script) && i < |run| && p in run[i].s.players && !run[i].s.players[p].connected
    ensures AwaySince(run, script, k, i, p) && run[i].s.players[p].lastSeen == script[k].now
    decreases i
  {
    SeatStep(run, script, i - 1, i);
    k := i - 1;
    if script[k].msg != Leave(p) {
      k := AwayPlayersLeft(run, script, i - 1, p);
    }
  }

  /** A player counts as absent, and gets defaults, exactly once more than 60 seconds have passed
      since they left for good. */
  lemma AbsentIff(run: seq<World>, script: seq<Entry>, i: nat, p: PlayerID, now: int)
    requires IsRun(run, script) && i < |run|
    ensures Absent(run[i].s, p, now) <==> exists k: nat :: AwaySince(run, script, k, i, p) && now - script[k].now > 60
  {
    if p in run[i].s.players && !run[i].s.players[p].connected {
      var k := AwayPlayersLeft(run, script, i, p);
      forall m | AwaySince(run, script, m, i, p)
        ensures m == k
      {
        OneDeparture(run, script, k, m, i, p);
      }
    }
  }

  lemma OneDeparture(run: seq<World>, script: seq<Entry>, k: nat, m: nat, i: nat, p: PlayerID)
    requires i < |run| == |script| + 1 && AwaySince(run, script, k, i, p) && AwaySince(run, script, m, i, p)
    ensures k == m
  {
  }

  // ----- consent -----

  /** Nobody is ready but by their own word. */
  lemma {:induction false} ReadyIsOwnWord(run: seq<World>, script: seq<Entry>, i: nat, p: PlayerID) returns (k: nat)
    requires IsRun(run, script) && i < |run| && p in run[i].s.players && run[i].s.players[p].ready
    ensures k < i && script[k].msg == Ready(p, true)
    decreases i
  {
    SeatStep(run, script, i - 1, i);
    k := i - 1;
    if script[k].msg != Ready(p, true) {
      k := ReadyIsOwnWord(run, script, i - 1, p);
    }
  }

  /** Nothing but the leader's own word changes the pause, the draw lock or the settings, short of
      the reset of an abandoned room. */
  lemma ControlsStay(run: seq<World>, script: seq<Entry>, i: nat)
    requires IsRun(run, script) && i < |script| && !Resets(run[i].s, script[i])
    requires script[i].msg.SetPause? || script[i].msg.SetPencilsDown? || script[i].msg.UpdateSettings? ==>
               script[i].msg.pid != run[i].s.leaderID
    ensures var a, b := run[i].s, run[i + 1].s;
            b.paused == a.paused && b.pencilsDown == a.pencilsDown && b.settings == a.settings
  {
    SeatStep(run, script, i, i + 1);
  }

  /** A game is played through under the settings it began with. */
  lemma {:induction false} GameKeepsSettings(run: seq<World>, script: seq<Entry>, i: nat, j: nat)
    requires IsRun(run, script) && i <= j < |run| && OneGame(run, script, i, j)
    ensures run[j].s.settings == run[i].s.settings && run[j].dict == run[i].dict
    decreases j
  {
    if i < j {
      GameKeepsSettings(run, script, i, j - 1);
      assert run[j - 1].s.status == InGame && !Resets(run[j - 1].s, script[j - 1]);
      StepMoves(run, script, j - 1, j);
    }
  }
}
