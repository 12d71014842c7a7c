/** From the messages of a run to the rounds on record: whoever is present gets a prompt, every
    vote that is accepted is counted in the reveal, no other vote is, and the reveal is of the
    ballot that was on screen. */
module RoundsInRuns {
  import opened Prelude
  import opened Game
  import opened Merge
  import opened Conservation
  import opened Offers
  import opened Collectors
  import opened RoundCollectors
  import opened Client
  import opened Records
  import opened RoomInvariants
  import opened RoomPlay
  import opened Aggregates
  import opened Cascades
  import opened Steps
  import opened Runs
  import opened Rounds
  import opened WholeRuns
  import P = Phases

  // ----- votes -----

  predicate IsVoting(s: State) {
    s.status == InGame && P.KindAt(s.phaseIdx) == P.Voting
  }

  ghost predicate VoteAccepted(w: World, e: Entry) {
    e.msg.SubmitVote? && TakesVote(w, e.msg.pid, e.msg.drawing, e.msg.choice)
  }

  function VoteOf(m: Message): Vote
    requires m.SubmitVote?
  {
    Vote(m.pid, m.drawing, m.choice)
  }

  ghost predicate Holds(c: Contents, v: Vote) {
    c.GotVotes? && Has(c.votes, v.voter, v.drawing) && c.votes[v.voter][v.drawing] == v
  }

  ghost predicate OnRecordFor(data: PhaseData, round: nat, v: Vote) {
    v in ListAt(VotesIn(data, round), v.drawing)
  }

  /** A vote cast in phase `idx` is in the collector, or on record once that phase is over. */
  ghost predicate VoteKept(w: World, idx: nat, v: Vote) {
    if w.s.status == InGame && w.s.phaseIdx == idx then Holds(w.contents, v)
    else w.s.phaseIdx > idx && OnRecordFor(w.s.phaseData, P.RoundAt(idx), v)
  }

  /** Handling a message loses nothing from the collector. */
  lemma ReceivedKeeps(w: World, e: Entry, c: Contents)
    requires Received(w, e, c)
    ensures KeepsItems(w.contents, c)
  {
    match e.msg
    case SubmitFake(pid, drawing, text) =>
      if TakesFake(w, pid, drawing, text) {
        WithKeepsEach(w.contents.fakes, pid, drawing, c.fakes[pid][drawing]);
      }
    case SubmitVote(pid, drawing, choice) =>
      if TakesVote(w, pid, drawing, choice) {
        WithKeepsEach(w.contents.votes, pid, drawing, Vote(pid, drawing, choice));
      }
    case _ =>
  }

  /** What the collector holds at the end is what goes on record. */
  lemma HeldIsStored(w: World, c: Contents, t: World, v: Vote)
    requires LeftBehind(w, c, t) && P.KindAt(w.s.phaseIdx) == P.Voting && w.s.round == P.RoundAt(w.s.phaseIdx)
    requires Holds(c, v) && v.drawing in DrawingIds(DrawingsIn(w.s.phaseData, w.s.round))
    ensures OnRecordFor(t.s.phaseData, P.RoundAt(w.s.phaseIdx), v)
  {
    var drawings, votes := DrawingsIn(w.s.phaseData, w.s.round), VotesIn(t.s.phaseData, P.RoundAt(w.s.phaseIdx));
    assert IsVotesResult(votes, c.votes, drawings);
    var a :| a in drawings && drawings[a].id == v.drawing;
    var order :| Lists(votes[v.drawing], c.votes, v.drawing, order);
    assert v.voter in Submitters(c.votes, v.drawing);
    var i :| 0 <= i < |order| && order[i] == v.voter;
    assert votes[v.drawing][i] == v;
  }

  lemma HeldIsForADrawing(w: World, v: Vote)
    requires Resting(w) && Holds(w.contents, v)
    ensures IsVoting(w.s) && w.s.round == P.RoundAt(w.s.phaseIdx)
    ensures v.drawing in DrawingIds(DrawingsIn(w.s.phaseData, w.s.round))
  {
    var drawings, fakes := DrawingsIn(w.s.phaseData, w.s.round), FakesIn(w.s.phaseData, w.s.round);
    assert VoteOk(v, v.voter, v.drawing, drawings, fakes);
  }

  /** A vote that the collector comes to hold in this step, or held before it, is kept by it. */
  lemma VoteSurvives(w: World, e: Entry, t: World, v: Vote)
    requires CollectorMoves(w, e, t) && P.KindAt(w.s.phaseIdx) == P.Voting && w.s.round == P.RoundAt(w.s.phaseIdx)
    requires v.drawing in DrawingIds(DrawingsIn(w.s.phaseData, w.s.round)) && t.s.phaseIdx >= w.s.phaseIdx
    requires t.s.phaseIdx > w.s.phaseIdx || t.s.status == InGame
    requires Holds(w.contents, v) || (VoteAccepted(w, e) && v == VoteOf(e.msg))
    ensures VoteKept(t, w.s.phaseIdx, v)
  {
    var c :| Received(w, e, c) && if SamePhase(w, t) then t.contents == c else LeftBehind(w, c, t);
    ReceivedKeeps(w, e, c);
    assert Holds(c, v);
    if !SamePhase(w, t) {
      HeldIsStored(w, c, t, v);
    }
  }

  lemma RecordSurvives(a: State, b: State, idx: nat, v: Vote)
    requires KeepsRecord(a, b) && OnRecordFor(a.phaseData, P.RoundAt(idx), v)
    ensures OnRecordFor(b.phaseData, P.RoundAt(idx), v)
  {
    assert ResultAt(a.phaseData, P.Voting, P.RoundAt(idx)).Some?;
  }

  lemma AcceptedIsForADrawing(w: World, e: Entry)
    requires Good(w) && VoteAccepted(w, e)
    ensures IsVoting(w.s) && w.s.round == P.RoundAt(w.s.phaseIdx)
    ensures e.msg.drawing in DrawingIds(DrawingsIn(w.s.phaseData, w.s.round))
  {
  }

  /** No game in progress is left idle in the phase it was in. */
  lemma LeavesForward(w: World, t: World)
    requires Good(w) && Good(t) && w.s.status == InGame && Continues(w.s, t.s)
    ensures t.s.phaseIdx > w.s.phaseIdx || (t.s.status == InGame && t.s.phaseIdx == w.s.phaseIdx)
  {
  }

  lemma GameStep(run: seq<World>, script: seq<Entry>, j: nat, next: nat)
    requires IsRun(run, script) && j + 1 == next < |run| && run[j].s.status == InGame && !Resets(run[j].s, script[j])
    ensures Continues(run[j].s, run[next].s) && CollectorMoves(run[j], script[j], run[next])
    ensures run[next].s.phaseIdx > run[j].s.phaseIdx
            || (run[next].s.status == InGame && run[next].s.phaseIdx == run[j].s.phaseIdx)
  {
    StepMoves(run, script, j, next);
    AlwaysGood(run, script, j);
    AlwaysGood(run, script, next);
    LeavesForward(run[j], run[next]);
  }

  /** An accepted vote stays: in the collector while the phase lasts, then on record. */
  lemma {:induction false} AcceptedVoteIsKept(run: seq<World>, script: seq<Entry>, k: nat, j: nat)
    requires IsRun(run, script) && k < j < |run| && OneGame(run, script, k, j) && VoteAccepted(run[k], script[k])
    ensures VoteKept(run[j], run[k].s.phaseIdx, VoteOf(script[k].msg))
    decreases j
  {
    var idx, v := run[k].s.phaseIdx, VoteOf(script[k].msg);
    assert run[j - 1].s.status == InGame && !Resets(run[j - 1].s, script[j - 1]);
    GameStep(run, script, j - 1, j);
    if j == k + 1 {
      AlwaysGood(run, script, k);
      AcceptedIsForADrawing(run[k], script[k]);
      VoteSurvives(run[k], script[k], run[j], v);
    } else {
      AcceptedVoteIsKept(run, script, k, j - 1);
      KeptVoteStays(run, script, j - 1, j, idx, v);
    }
  }

  lemma KeptVoteStays(run: seq<World>, script: seq<Entry>, j: nat, next: nat, idx: nat, v: Vote)
    requires IsRun(run, script) && j + 1 == next < |run| && run[j].s.status == InGame && !Resets(run[j].s, script[j])
    requires VoteKept(run[j], idx, v)
    ensures VoteKept(run[next], idx, v)
  {
    GameStep(run, script, j, next);
    if run[j].s.phaseIdx == idx {
      AlwaysGood(run, script, j);
      HeldIsForADrawing(run[j], v);
      VoteSurvives(run[j], script[j], run[next], v);
    } else {
      RecordSurvives(run[j].s, run[next].s, idx, v);
    }
  }

  /** Votes are conserved from the moment they are accepted to the reveal: in every later world
      of the game in which the round's reveal is over, the vote is on record, and exactly one
      choice of the reveal lists the voter, the true one exactly if the vote was for it. */
  lemma AcceptedVoteCountsOnce(run: seq<World>, script: seq<Entry>, k: nat, j: nat)
    requires IsRun(run, script) && k < j < |run| && OneGame(run, script, k, j) && VoteAccepted(run[k], script[k])
    requires run[j].s.phaseIdx > run[k].s.phaseIdx + 1
    ensures var v, data, r := VoteOf(script[k].msg), run[j].s.phaseData, P.RoundAt(run[k].s.phaseIdx);
            && OnRecordFor(data, r, v) && v.drawing in RevealsIn(data, r)
            && exists i :: IsVotersChoice(RevealsIn(data, r)[v.drawing].choices, i, v)
  {
    AcceptedVoteIsKept(run, script, k, j);
    AlwaysGood(run, script, k);
    AcceptedIsForADrawing(run[k], script[k]);
    FinishedRoundsAreStored(run, script, j, run[k].s.phaseIdx + 2);
    RecordedVoteCounts(run[j].s.phaseData, run[k].s.phaseIdx, run[j].issued, VoteOf(script[k].msg));
  }

  lemma RecordedVoteCounts(data: PhaseData, idx: nat, issued: set<string>, v: Vote)
    requires StoredUpTo(data, idx + 2, issued) && P.KindAt(idx) == P.Voting && OnRecordFor(data, P.RoundAt(idx), v)
    ensures v.drawing in RevealsIn(data, P.RoundAt(idx))
    ensures exists i :: IsVotersChoice(RevealsIn(data, P.RoundAt(idx))[v.drawing].choices, i, v)
  {
    var n := idx + 2;
    assert P.RoundAt(n) == P.RoundAt(idx) && 4 < n % P.PHASES_PER_ROUND;
    VotesAreStored(data, n, issued);
    assert v.drawing in VotesIn(data, P.RoundAt(n));
    var a :| a in DrawingsIn(data, P.RoundAt(n)) && DrawingsIn(data, P.RoundAt(n))[a].id == v.drawing;
    EveryVoteCountsOnce(data, n, issued, a, v);
  }

  // ----- no vote out of nowhere -----

  /** Message `k` brought vote `v`: it was submitted and accepted, or it is the default of a
      player who was absent when a heartbeat came. */
  ghost predicate Cast(run: seq<World>, script: seq<Entry>, k: nat, v: Vote)
    requires k < |script| && |run| == |script| + 1
  {
    || (VoteAccepted(run[k], script[k]) && VoteOf(script[k].msg) == v)
    || (script[k].msg.Tick? && Absent(run[k].s, v.voter, script[k].now))
  }

  /** A vote that is new in the collector has been cast by the message at hand. */
  lemma NewVoteIsCast(w: World, e: Entry, c: Contents, v: Vote)
    requires Received(w, e, c) && w.contents.GotVotes? && Holds(c, v) && !Holds(w.contents, v)
    ensures (VoteAccepted(w, e) && VoteOf(e.msg) == v) || (e.msg.Tick? && Absent(w.s, v.voter, e.now))
  {
    match e.msg
    case SubmitDrawing(_, _) =>
    case SubmitFake(_, _, _) =>
    case SubmitVote(pid, drawing, choice) =>
      assert c.votes[v.voter][v.drawing] == v;
    case Tick =>
      assert KeepsEach(w.contents.votes, c.votes);
    case _ =>
  }

  /** A voting phase begins with nothing in the collector but what the message that began it,
      a heartbeat, may have put there. */
  lemma FirstVotesAreCast(run: seq<World>, script: seq<Entry>, i: nat, v: Vote)
    requires IsRun(run, script) && 0 < i < |run| && PhaseBegins(run, i) && IsVoting(run[i].s) && Holds(run[i].contents, v)
    ensures Cast(run, script, i - 1, v)
  {
    VotingComesLater(run, script, i);
    StepIsPlay(run, script, i - 1, i);
    AbsentVoteFirst(run[i - 1], script[i - 1], run[i], v);
  }

  lemma VotingComesLater(run: seq<World>, script: seq<Entry>, i: nat)
    requires IsRun(run, script) && 0 < i < |run| && IsVoting(run[i].s)
    ensures run[i - 1].s.status == InGame
  {
    if run[i - 1].s.status == Idle {
      GamesStartFromScratch(run, script, i - 1, NOBODY);
    }
  }

  lemma AbsentVoteFirst(w: World, e: Entry, t: World, v: Vote)
    requires Arrives(w, e, t) && t.s.phaseIdx != w.s.phaseIdx && IsVoting(t.s) && Holds(t.contents, v)
    ensures e.msg.Tick? && Absent(w.s, v.voter, e.now)
  {
    assert StartsWith(w.s, t, e.now);
  }

  /** Every vote in the collector of a voting phase was cast by the message that began the
      phase or by one since. */
  lemma {:induction false} HeldVoteWasCast(run: seq<World>, script: seq<Entry>, i: nat, j: nat, v: Vote) returns (k: nat)
    requires IsRun(run, script) && 0 < i <= j < |run| && PhaseBegins(run, i) && OnePhase(run, script, i, j)
    requires Holds(run[j].contents, v)
    ensures i - 1 <= k < j && Cast(run, script, k, v)
    decreases j
  {
    HeldWhileVoting(run, script, j, v);
    if i == j {
      FirstVotesAreCast(run, script, i, v);
      k := i - 1;
    } else {
      k := j - 1;
      SamePhaseStep(run, script, i, j);
      if Holds(run[k].contents, v) {
        k := HeldVoteWasCast(run, script, i, j - 1, v);
      } else {
        LatestVoteIsCast(run, script, k, j, v);
      }
    }
  }

  lemma LatestVoteIsCast(run: seq<World>, script: seq<Entry>, k: nat, next: nat, v: Vote)
    requires IsRun(run, script) && k + 1 == next < |run| && IsVoting(run[k].s) && !Resets(run[k].s, script[k])
    requires SamePhase(run[k], run[next]) && Holds(run[next].contents, v) && !Holds(run[k].contents, v)
    ensures Cast(run, script, k, v)
  {
    VotingCollects(run, script, k);
    GameStep(run, script, k, next);
    NewVoteIsCast(run[k], script[k], run[next].contents, v);
  }

  lemma HeldWhileVoting(run: seq<World>, script: seq<Entry>, j: nat, v: Vote)
    requires IsRun(run, script) && j < |run| && run[j].s.status == InGame && Holds(run[j].contents, v)
    ensures IsVoting(run[j].s)
  {
    AlwaysGood(run, script, j);
    HeldIsForADrawing(run[j], v);
  }

  lemma VotingCollects(run: seq<World>, script: seq<Entry>, k: nat)
    requires IsRun(run, script) && k < |run| && IsVoting(run[k].s)
    ensures run[k].contents.GotVotes? && run[k].s.round == P.RoundAt(run[k].s.phaseIdx)
    ensures VotesOk(run[k].contents.votes, DrawingsIn(run[k].s.phaseData, run[k].s.round),
                    FakesIn(run[k].s.phaseData, run[k].s.round))
  {
    AlwaysGood(run, script, k);
  }

  /** What goes on record when voting ends was in the collector. */
  lemma StoredWasHeld(w: World, e: Entry, c: Contents, t: World, v: Vote)
    requires IsVoting(w.s) && w.s.round == P.RoundAt(w.s.phaseIdx) && w.contents.GotVotes?
    requires VotesOk(w.contents.votes, DrawingsIn(w.s.phaseData, w.s.round), FakesIn(w.s.phaseData, w.s.round))
    requires Received(w, e, c) && LeftBehind(w, c, t) && OnRecordFor(t.s.phaseData, w.s.round, v)
    ensures Holds(c, v)
  {
    ReceivedKeeps(w, e, c);
    var drawings, votes := DrawingsIn(w.s.phaseData, w.s.round), VotesIn(t.s.phaseData, w.s.round);
    assert IsVotesResult(votes, c.votes, drawings);
    var a :| a in drawings && drawings[a].id == v.drawing;
    var order :| Lists(votes[v.drawing], c.votes, v.drawing, order);
    var i :| 0 <= i < |order| && votes[v.drawing][i] == v;
    HeldIsByVoter(w, e, c, order[i], v.drawing);
  }

  lemma HeldIsByVoter(w: World, e: Entry, c: Contents, p: PlayerID, id: DrawingID)
    requires w.contents.GotVotes? && Received(w, e, c) && KeepsItems(w.contents, c) && Has(c.votes, p, id)
    requires VotesOk(w.contents.votes, DrawingsIn(w.s.phaseData, w.s.round), FakesIn(w.s.phaseData, w.s.round))
    ensures c.votes[p][id].voter == p
  {
    if Has(w.contents.votes, p, id) {
      assert VoteOk(w.contents.votes[p][id], p, id, DrawingsIn(w.s.phaseData, w.s.round),
                    FakesIn(w.s.phaseData, w.s.round));
    }
  }

  /** No vote comes out of nowhere: every vote that a finished voting phase has left on record
      was submitted and accepted in that phase, or was the default of an absent player. */
  lemma {:induction false} RecordedVoteWasCast(run: seq<World>, script: seq<Entry>, i: nat, j: nat, v: Vote)
    returns (k: nat)
    requires IsRun(run, script) && 0 < i < j < |run| && PhaseBegins(run, i) && IsVoting(run[i].s)
    requires OneGame(run, script, i, j) && run[j].s.phaseIdx > run[i].s.phaseIdx
    requires OnRecordFor(run[j].s.phaseData, P.RoundAt(run[i].s.phaseIdx), v)
    ensures i - 1 <= k < j && Cast(run, script, k, v)
    decreases j
  {
    k := j - 1;
    assert run[k].s.status == InGame && !Resets(run[k].s, script[k]);
    GameStep(run, script, k, j);
    OnlyForward(run, script, i, k);
    if run[k].s.phaseIdx > run[i].s.phaseIdx {
      VotesOnRecord(run, script, k, run[i].s.phaseIdx);
      assert OnRecordFor(run[k].s.phaseData, P.RoundAt(run[i].s.phaseIdx), v);
      k := RecordedVoteWasCast(run, script, i, k, v);
    } else {
      StillInPhase(run, script, i, k);
      VotingCollects(run, script, k);
      var c :| Received(run[k], script[k], c) && LeftBehind(run[k], c, run[j]);
      StoredWasHeld(run[k], script[k], c, run[j], v);
      if Holds(run[k].contents, v) {
        k := HeldVoteWasCast(run, script, i, k, v);
      } else {
        NewVoteIsCast(run[k], script[k], c, v);
      }
    }
  }

  lemma VotesOnRecord(run: seq<World>, script: seq<Entry>, k: nat, idx: nat)
    requires IsRun(run, script) && k < |run| && idx < run[k].s.phaseIdx && P.KindAt(idx) == P.Voting
    ensures ResultAt(run[k].s.phaseData, P.Voting, P.RoundAt(idx)).Some?
  {
    AlwaysGood(run, script, k);
    assert KeyAt(idx) in run[k].s.phaseData;
  }

  /** A game that is in the same phase later has been in it all along. */
  lemma StillInPhase(run: seq<World>, script: seq<Entry>, i: nat, j: nat)
    requires IsRun(run, script) && i <= j < |run| && OneGame(run, script, i, j)
    requires run[i].s.status == InGame && run[j].s.status == InGame && run[j].s.phaseIdx == run[i].s.phaseIdx
    ensures OnePhase(run, script, i, j)
  {
    forall k | i <= k <= j
      ensures run[k].s.status == InGame && run[k].s.phaseIdx == run[i].s.phaseIdx
    {
      if k < j {
        OnlyForward(run, script, i, k);
        OnlyForward(run, script, k, j);
      }
    }
  }

  // ----- the ballot on screen -----

  /** The ballot that clients show while a vote is on, and the reveal that goes on record for
      it: every line comes back with its id and text, and the reveal adds at most the "..."
      choice. */
  lemma BallotSeenIsRevealed(run: seq<World>, script: seq<Entry>, i: nat, j: nat, a: PlayerID)
    requires IsRun(run, script) && i <= j < |run| && OneGame(run, script, i, j)
    requires IsVoting(run[i].s) && run[j].s.phaseIdx > run[i].s.phaseIdx + 1
    requires a in DrawingsIn(run[i].s.phaseData, run[i].s.round)
    ensures var id, r := DrawingsIn(run[i].s.phaseData, run[i].s.round)[a].id, P.RoundAt(run[i].s.phaseIdx);
            && id in ViewOf(run[i]).ballot && id in RevealsIn(run[j].s.phaseData, r)
            && RevealsBallot(ViewOf(run[i]).ballot[id], RevealsIn(run[j].s.phaseData, r)[id].choices)
  {
    var idx, r := run[i].s.phaseIdx, P.RoundAt(run[i].s.phaseIdx);
    var before, after := run[i].s.phaseData, run[j].s.phaseData;
    BallotOnScreenNow(run, script, i);
    GameOnlyGrows(run, script, i, j);
    RecordIsKept(run[i].s, run[j].s, r);
    FinishedRoundsAreStored(run, script, j, idx + 2);
    SeenBallotIsRevealed(after, idx, run[j].issued, a, ViewOf(run[i]).ballot);
  }

  /** What clients show for the drawing of `a` while a vote is on: the truth and the fakes on
      record, each text once. */
  ghost predicate ShowsFullBallot(w: World, a: PlayerID)
    requires a in DrawingsIn(w.s.phaseData, w.s.round)
  {
    var d := DrawingsIn(w.s.phaseData, w.s.round)[a];
    && d.id in ViewOf(w).ballot
    && IsFullBallot(ViewOf(w).ballot[d.id], d, ListAt(FakesIn(w.s.phaseData, w.s.round), d.id))
  }

  lemma BallotSeenInFull(run: seq<World>, script: seq<Entry>, i: nat, a: PlayerID)
    requires IsRun(run, script) && i < |run| && IsVoting(run[i].s) && a in DrawingsIn(run[i].s.phaseData, run[i].s.round)
    ensures ShowsFullBallot(run[i], a)
  {
    BallotOnScreenNow(run, script, i);
    FakesOnRecord(run, script, i, a);
    ShownInFull(run[i], a);
  }

  lemma ShownInFull(w: World, a: PlayerID)
    requires a in DrawingsIn(w.s.phaseData, w.s.round) && HoldsBallot(ViewOf(w), w.s.phaseData, w.s.round)
    requires FakesFit(w.s, a)
    ensures ShowsFullBallot(w, a)
  {
    var d := DrawingsIn(w.s.phaseData, w.s.round)[a];
    assert d.id in DrawingIds(DrawingsIn(w.s.phaseData, w.s.round));
    BallotInFull(ViewOf(w).ballot[d.id], d, ListAt(FakesIn(w.s.phaseData, w.s.round), d.id));
  }

  ghost predicate FakesFit(s: State, a: PlayerID)
    requires a in DrawingsIn(s.phaseData, s.round)
  {
    var d := DrawingsIn(s.phaseData, s.round)[a];
    FakesFor(d, ListAt(FakesIn(s.phaseData, s.round), d.id))
  }

  lemma FakesOnRecord(run: seq<World>, script: seq<Entry>, i: nat, a: PlayerID)
    requires IsRun(run, script) && i < |run| && run[i].s.status == InGame && run[i].s.phaseIdx % 7 in {3, 6}
    requires a in DrawingsIn(run[i].s.phaseData, run[i].s.round)
    ensures FakesFit(run[i].s, a)
  {
    AlwaysGood(run, script, i);
    FakesAreStored(run[i].s.phaseData, run[i].s.phaseIdx, run[i].issued);
  }

  lemma SeenBallotIsRevealed(data: PhaseData, idx: nat, issued: set<string>, a: PlayerID,
                             ballot: map<DrawingID, seq<VotingChoice>>)
    requires P.KindAt(idx) == P.Voting && StoredUpTo(data, idx + 2, issued) && a in DrawingsIn(data, P.RoundAt(idx))
    requires AreBallots(ballot, DrawingsIn(data, P.RoundAt(idx)), FakesIn(data, P.RoundAt(idx)))
    ensures var id := DrawingsIn(data, P.RoundAt(idx))[a].id;
            && id in ballot && id in RevealsIn(data, P.RoundAt(idx))
            && RevealsBallot(ballot[id], RevealsIn(data, P.RoundAt(idx))[id].choices)
  {
    assert P.RoundAt(idx + 2) == P.RoundAt(idx) && 4 < (idx + 2) % P.PHASES_PER_ROUND;
    RevealMatchesBallot(data, idx + 2, issued, a, ballot);
  }

  lemma RecordIsKept(a: State, b: State, r: nat)
    requires KeepsRecord(a, b)
    requires ResultAt(a.phaseData, P.DrawingSubmit, r).Some? && ResultAt(a.phaseData, P.FakePromptSubmit, r).Some?
    ensures DrawingsIn(b.phaseData, r) == DrawingsIn(a.phaseData, r)
    ensures FakesIn(b.phaseData, r) == FakesIn(a.phaseData, r)
  {
  }

  lemma BallotOnScreenNow(run: seq<World>, script: seq<Entry>, i: nat)
    requires IsRun(run, script) && i < |run| && IsVoting(run[i].s)
    ensures var r := P.RoundAt(run[i].s.phaseIdx);
            && run[i].s.round == r && HoldsBallot(ViewOf(run[i]), run[i].s.phaseData, r)
            && ResultAt(run[i].s.phaseData, P.DrawingSubmit, r).Some?
            && ResultAt(run[i].s.phaseData, P.FakePromptSubmit, r).Some?
  {
    AlwaysGood(run, script, i);
    var s := run[i].s;
    var d := StoredAt(s.phaseData, s.phaseIdx, run[i].issued, P.DrawingSubmit);
    var f := StoredAt(s.phaseData, s.phaseIdx, run[i].issued, P.FakePromptSubmit);
  }

  // ----- the deal -----

  /** When players begin to draw, everyone who is here holds a prompt, and nobody else does. */
  lemma PresentHoldPrompts(run: seq<World>, script: seq<Entry>, i: nat)
    requires IsRun(run, script) && 0 < i < |run| && PhaseBegins(run, i)
    requires P.KindAt(run[i].s.phaseIdx) == P.DrawingSubmit
    ensures PromptsIn(run[i].s.phaseData, P.RoundAt(run[i].s.phaseIdx)).Keys == ConnectedSet(run[i].s.players)
  {
    if run[i - 1].s.status == Idle {
      StepStarts(run, script, i - 1, i);
      DealtAtStart(run[i - 1], script[i - 1], run[i]);
    } else {
      StepIsPlay(run, script, i - 1, i);
    }
  }

  lemma DealtAtStart(w: World, e: Entry, t: World)
    requires LobbyStarts(w, e, t) && t.s.status == InGame
    ensures AllDealt(t, P.RoundAt(t.s.phaseIdx))
  {
  }

  // ----- the reveal -----

  /** When the leaderboard comes up, each drawing's reveal on record is the one for its fakes,
      its votes, and the players as they are: "..." is credited to players of the room who are
      absent and owe a fake, and to nobody else. */
  lemma RevealIsOfTheAbsent(run: seq<World>, script: seq<Entry>, i: nat, a: PlayerID)
    requires IsRun(run, script) && 0 < i < |run| && PhaseBegins(run, i) && OnLeaderboard(run[i].s)
    requires a in DrawingsIn(run[i].s.phaseData, run[i].s.round)
    ensures var s := run[i].s;
            var d := DrawingsIn(s.phaseData, s.round)[a];
            && d.id in RevealsIn(s.phaseData, s.round)
            && IsRevealOf(RevealsIn(s.phaseData, s.round)[d.id], d, ListAt(FakesIn(s.phaseData, s.round), d.id), s.players,
                          ListAt(VotesIn(s.phaseData, s.round), d.id))
  {
    BoardComesLater(run, script, i);
    StepIsPlay(run, script, i - 1, i);
    RoundOfPhase(run, script, i);
    RevealedDrawing(run[i].s, run[i].s.round, a);
  }

  /** What the reveal of the drawing of `a` offers and whom it credits, spelled out. */
  ghost predicate BoardIsFull(s: State, a: PlayerID)
    requires a in DrawingsIn(s.phaseData, s.round)
  {
    var d := DrawingsIn(s.phaseData, s.round)[a];
    var fakes := ListAt(FakesIn(s.phaseData, s.round), d.id);
    && d.id in RevealsIn(s.phaseData, s.round)
    && IsFullReveal(RevealsIn(s.phaseData, s.round)[d.id], d, fakes, s.players)
    && CreditsAreDue(RevealsIn(s.phaseData, s.round)[d.id], d, fakes, s.players)
  }

  lemma BoardInFull(run: seq<World>, script: seq<Entry>, i: nat, a: PlayerID)
    requires IsRun(run, script) && 0 < i < |run| && PhaseBegins(run, i) && OnLeaderboard(run[i].s)
    requires a in DrawingsIn(run[i].s.phaseData, run[i].s.round)
    ensures BoardIsFull(run[i].s, a)
  {
    RevealIsOfTheAbsent(run, script, i, a);
    FakesOnRecord(run, script, i, a);
    OneRevealInFull(run[i].s, a);
  }

  lemma OneRevealInFull(s: State, a: PlayerID)
    requires a in DrawingsIn(s.phaseData, s.round) && FakesFit(s, a)
    requires var d := DrawingsIn(s.phaseData, s.round)[a];
             && d.id in RevealsIn(s.phaseData, s.round)
             && IsRevealOf(RevealsIn(s.phaseData, s.round)[d.id], d, ListAt(FakesIn(s.phaseData, s.round), d.id), s.players,
                           ListAt(VotesIn(s.phaseData, s.round), d.id))
    ensures BoardIsFull(s, a)
  {
    var d := DrawingsIn(s.phaseData, s.round)[a];
    var dr, fakes := RevealsIn(s.phaseData, s.round)[d.id], ListAt(FakesIn(s.phaseData, s.round), d.id);
    RevealInFull(dr, d, fakes, s.players, ListAt(VotesIn(s.phaseData, s.round), d.id));
    CreditsInFull(dr, d, fakes, s.players, ListAt(VotesIn(s.phaseData, s.round), d.id));
  }

  lemma BoardComesLater(run: seq<World>, script: seq<Entry>, i: nat)
    requires IsRun(run, script) && 0 < i < |run| && OnLeaderboard(run[i].s)
    ensures run[i - 1].s.status == InGame
  {
    if run[i - 1].s.status == Idle {
      GamesStartFromScratch(run, script, i - 1, NOBODY);
    }
  }

  lemma RevealedDrawing(s: State, round: nat, a: PlayerID)
    requires RevealedNow(s, round) && a in DrawingsIn(s.phaseData, round)
    ensures var d := DrawingsIn(s.phaseData, round)[a];
            && d.id in RevealsIn(s.phaseData, round)
            && IsRevealOf(RevealsIn(s.phaseData, round)[d.id], d, ListAt(FakesIn(s.phaseData, round), d.id), s.players,
                          ListAt(VotesIn(s.phaseData, round), d.id))
  {
    var drawings := DrawingsIn(s.phaseData, round);
    assert drawings[a].id in IdsOfAuthors(drawings.Keys, drawings);
  }
}
