/** The steps within a game as functions of the world: submissions, the leader's clicks, and
    the pause. */
module RoomPlay {
  import opened Prelude
  import opened Game
  import opened Scores
  import opened RevealSteps
  import opened Merge
  import opened Conservation
  import opened Collectors
  import opened RoundCollectors
  import opened Client
  import opened Records
  import opened RoomInvariants
  import opened RoomSteps
  import opened Cascades
  import P = Phases

  // ----- reading the record of the current round -----

  /** An earlier phase of the same round has left a result that fits. */
  lemma StoredAt(data: PhaseData, n: nat, issued: set<string>, k: P.Kind)
    returns (j: nat)
    requires StoredUpTo(data, n, issued) && P.Offset(k) < n % P.PHASES_PER_ROUND
    ensures j < n && P.KindAt(j) == k && P.RoundAt(j) == P.RoundAt(n)
    ensures Key(k, P.RoundAt(n)) in data && Fits(data, j, data[Key(k, P.RoundAt(n))], issued)
  {
    j := n - n % P.PHASES_PER_ROUND + P.Offset(k);
    InSameRound(n, P.Offset(k));
    assert KeyAt(j) == Key(k, P.RoundAt(n));
  }

  lemma InSameRound(n: nat, o: nat)
    requires o < P.PHASES_PER_ROUND
    ensures var j := n - n % P.PHASES_PER_ROUND + o;
            j >= 0 && P.KindAt(j) == P.KindAt(o) && P.RoundAt(j) == P.RoundAt(n)
  {
  }

  lemma DrawingsAreStored(data: PhaseData, n: nat, issued: set<string>)
    requires StoredUpTo(data, n, issued) && 1 < n % P.PHASES_PER_ROUND
    ensures DrawingsOk(DrawingsIn(data, P.RoundAt(n)))
  {
    var j := StoredAt(data, n, issued, P.DrawingSubmit);
  }

  lemma FakesAreStored(data: PhaseData, n: nat, issued: set<string>)
    requires StoredUpTo(data, n, issued) && 2 < n % P.PHASES_PER_ROUND
    ensures FakesFit(DrawingsIn(data, P.RoundAt(n)), FakesIn(data, P.RoundAt(n)), issued)
  {
    var j := StoredAt(data, n, issued, P.FakePromptSubmit);
  }

  lemma FakeIdsAreDistinct(drawings: Drawings, fakes: Fakes, issued: set<string>)
    requires FakesFit(drawings, fakes, issued)
    ensures FakeIdsDistinct(fakes)
  {
    forall id
      ensures DistinctIds(ListAt(fakes, id))
    {
      if id in fakes {
        var a :| a in drawings && drawings[a].id == id;
        assert FakesFor(drawings[a], ListAt(fakes, id));
      }
    }
  }

  lemma RevealsAreStored(data: PhaseData, n: nat, issued: set<string>)
    requires StoredUpTo(data, n, issued) && 4 < n % P.PHASES_PER_ROUND
    ensures var r := P.RoundAt(n);
            RevealsFit(DrawingsIn(data, r), FakesIn(data, r), VotesIn(data, r), RevealsIn(data, r))
    ensures var stored := ResultAt(data, P.Reveal, P.RoundAt(n)); stored.Some? && stored.value.RevealsResult?
    ensures AllUnique(RevealsIn(data, P.RoundAt(n))) && NonEmptyIds(RevealsIn(data, P.RoundAt(n)))
  {
    var j := StoredAt(data, n, issued, P.Reveal);
    var r := P.RoundAt(n);
    StoredRevealsAreUnique(DrawingsIn(data, r), FakesIn(data, r), VotesIn(data, r), RevealsIn(data, r));
  }

  /** The round's reveal is on record, and its fakes can be told apart. */
  ghost predicate HasReveals(data: PhaseData, round: nat) {
    var stored := ResultAt(data, P.Reveal, round);
    stored.Some? && stored.value.RevealsResult? && AllUnique(stored.value.revealed)
  }

  lemma BoardIsReady(w: World)
    requires Entered(w) && P.KindAt(w.s.phaseIdx) == P.Leaderboard
    ensures w.s.stepState == None && HasReveals(w.s.phaseData, w.s.round)
  {
    RevealsAreStored(w.s.phaseData, w.s.phaseIdx, w.issued);
  }

  // ----- what the collectors hand over is fit to be stored -----

  lemma FakesResultFits(got: Collected<FakePrompt>, c: Context, issued0: set<string>, dec: Decision, issued: set<string>)
    requires DrawingsOk(c.drawings) && FakesOk(got, c.drawings, issued0) && FakesDecided(dec, got, c, issued)
    ensures FakesFit(c.drawings, dec.result.value.fakes, issued)
  {
    var fakes := dec.result.value.fakes;
    forall a | a in c.drawings
      ensures FakesFor(c.drawings[a], ListAt(fakes, c.drawings[a].id))
      ensures IdsOf(ListAt(fakes, c.drawings[a].id)) <= issued
    {
      StoredFakesAreGood(fakes, got, c.drawings, DecoysOf(c), issued0, a);
      assert ListIssued(fakes, c.drawings[a].id, issued);
    }
  }

  lemma VotesResultFits(got: Collected<Vote>, drawings: Drawings, fakes: Fakes, dec: Decision)
    requires DrawingsOk(drawings) && VotesOk(got, drawings, fakes) && VotesDecided(dec, got, drawings)
    ensures VotesFit(drawings, fakes, dec.result.value.votes)
  {
    var votes := dec.result.value.votes;
    forall a | a in drawings
      ensures VotesFor(drawings[a], ListAt(fakes, drawings[a].id), ListAt(votes, drawings[a].id))
    {
      StoredVotesAreGood(votes, got, drawings, fakes, a);
    }
  }

  /** The context the collectors of the current phase work in. */
  function ContextOf(s: State, dict: seq<string>): Context {
    Context(s.players, DrawingsIn(s.phaseData, s.round), s.stateSettings.generatedFakeCount, dict)
  }

  lemma ContextIsOk(w: World)
    requires Resting(w) && P.KindAt(w.s.phaseIdx) in {P.FakePromptSubmit, P.Voting}
    ensures ContextOk(ContextOf(w.s, w.dict))
  {
    DrawingsAreStored(w.s.phaseData, w.s.phaseIdx, w.issued);
  }

  // ----- submissions -----

  /** The world with `contents` in the collector, ids handed out up to `issued`, and the
      submission noted in `drawn`. */
  function Filed(w: World, contents: Contents, drawn: set<(nat, PlayerID)>, issued: set<string>): World {
    w.(s := w.s.(drawn := drawn), contents := contents, issued := issued)
  }

  lemma FilingContinues(a: State, b: State, c: State)
    requires b == a.(drawn := b.drawn)
    ensures Continues(b, c) ==> Continues(a, c)
  {
  }

  lemma FiledIsGood(w: World, contents: Contents, drawn: set<(nat, PlayerID)>, issued: set<string>)
    requires Resting(w) && w.issued <= issued && ContentsOk(w.(contents := contents, issued := issued))
    ensures Resting(Filed(w, contents, drawn, issued))
  {
    var t := Filed(w, contents, drawn, issued);
    MoreIdsKeepData(w.s.phaseData, w.s.phaseIdx, w.issued, issued);
    assert ContentsOk(t) == ContentsOk(w.(contents := contents, issued := issued));
    assert ClockOk(w.watch, t.s) == ClockOk(w.watch, w.s);
  }

  /** A new drawing in the collector. */
  function WithDrawing(items: Drawings, pid: PlayerID, id: DrawingID, prompts: Prompts): Drawings
    requires pid in prompts
  {
    items[pid := Drawing(id, pid, prompts[pid])]
  }

  lemma DrawingFits(items: Drawings, pid: PlayerID, id: DrawingID, prompts: Prompts, issued: set<string>)
    requires DrawingsOk(items) && DrawingIds(items) <= issued && id !in issued
    requires pid in prompts && pid !in items && pid != NOBODY
    ensures DrawingsOk(WithDrawing(items, pid, id, prompts))
    ensures DrawingIds(WithDrawing(items, pid, id, prompts)) <= issued + {id}
  {
    forall a | a in items
      ensures items[a].id != id
    {
      assert items[a].id in DrawingIds(items);
    }
  }

  // ----- the leaderboard -----

  predicate MoreSteps(s: State) {
    s.stepState.Some? && s.stepState.value.idx < |s.stepState.value.queue|
  }

  /** The leader's click shows the next step. */
  function StepShown(w: World): World
    requires w.s.stepState.Some? && w.s.stepState.value.idx < |w.s.stepState.value.queue|
  {
    var st := w.s.stepState.value;
    w.(s := w.s.(stepState := Some(st.(idx := st.idx + 1))), sent := w.sent + [RevealStep(st.queue[st.idx])])
  }

  /** Every click moves every client on by exactly that step, and there is one less to go. */
  lemma StepIsGood(w: World)
    requires Resting(w) && P.KindAt(w.s.phaseIdx) == P.Leaderboard
    requires w.s.stepState.Some? && w.s.stepState.value.idx < |w.s.stepState.value.queue|
    ensures Resting(StepShown(w)) && Less(MeasureOf(StepShown(w).s), MeasureOf(w.s))
  {
    var st, v := w.s.stepState.value, ViewOf(w);
    StepViewRests(v, w.s.phaseData, w.s.phaseIdx, w.issued, st);
    CursorMoves(w, Reduce(v, RevealStep(st.queue[st.idx])));
    OneStepLess(w);
  }

  lemma OneStepLess(w: World)
    requires w.s.status == InGame && w.s.phaseIdx <= |w.s.phases| && MoreSteps(w.s)
    ensures Less(MeasureOf(StepShown(w).s), MeasureOf(w.s))
  {
  }

  lemma CursorMoves(w: World, after: View)
    requires Resting(w) && P.KindAt(w.s.phaseIdx) == P.Leaderboard && MoreSteps(w.s)
    requires after == Reduce(ViewOf(w), RevealStep(w.s.stepState.value.queue[w.s.stepState.value.idx]))
    requires ViewAtRest(after, w.s.phaseData, w.s.phaseIdx, StepShown(w).s.stepState) && SameHeader(ViewOf(w), after)
    ensures Resting(StepShown(w))
  {
    var st, t := w.s.stepState.value, StepShown(w);
    ReduceMore(Client.INITIAL, w.sent, RevealStep(st.queue[st.idx]));
    CursorStaysOk(w.s.stepState, w.s.phaseData, w.s.round);
    ClockIgnoresCursor(w.watch, w.s, t.s.stepState);
    BoardRests(w, t);
  }

  /** Only the cursor and the view have moved. */
  lemma BoardRests(w: World, t: World)
    requires P.KindAt(w.s.phaseIdx) == P.Leaderboard && w.s.phaseIdx < |w.s.phases|
    requires t == w.(s := w.s.(stepState := t.s.stepState), sent := t.sent)
    requires SameHeader(ViewOf(w), ViewOf(t)) && ClockOk(t.watch, t.s)
    requires CursorOk(t.s.stepState, t.s.phaseData, t.s.round)
    requires ViewAtRest(ViewOf(t), t.s.phaseData, t.s.phaseIdx, t.s.stepState)
    ensures Resting(w) ==> Resting(t)
  {
    assert ContentsOk(t) == ContentsOk(w);
  }

  lemma CursorStaysOk(stepState: Option<StepState>, data: PhaseData, round: nat)
    requires CursorOk(stepState, data, round)
    requires stepState.Some? && stepState.value.idx < |stepState.value.queue|
    ensures CursorOk(Some(stepState.value.(idx := stepState.value.idx + 1)), data, round)
  {
  }

  ghost predicate SameHeader(v: View, w: View) {
    w.scores == v.scores && w.phase == v.phase && w.round == v.round
  }

  lemma StepMarksOnly(v: View, step: Step)
    ensures var w := Reduce(v, RevealStep(step));
            w.revealed == v.revealed && w.lastDeltas == v.lastDeltas && w.ballot == v.ballot && SameHeader(v, w)
  {
  }

  lemma StepReplays(v: View, data: PhaseData, i: nat, issued: set<string>, st: StepState)
    requires DataOk(data, i, issued) && P.KindAt(i) == P.Leaderboard
    requires IsQueue(st.queue, RevealsIn(data, P.RoundAt(i)).Keys, RevealsIn(data, P.RoundAt(i)))
    requires st.idx < |st.queue| && HasReplayed(v, st.queue[..st.idx])
    ensures HasReplayed(Reduce(v, RevealStep(st.queue[st.idx])), st.queue[..st.idx + 1])
  {
    RevealsAreStored(data, i, issued);
    ReplayStep(v, st.queue, st.idx, RevealsIn(data, P.RoundAt(i)));
  }

  lemma StepViewRests(v: View, data: PhaseData, i: nat, issued: set<string>, st: StepState)
    requires DataOk(data, i, issued) && CursorOk(Some(st), data, P.RoundAt(i)) && st.idx < |st.queue|
    requires P.KindAt(i) == P.Leaderboard && ViewAtRest(v, data, i, Some(st))
    ensures var w := Reduce(v, RevealStep(st.queue[st.idx]));
            ViewAtRest(w, data, i, Some(st.(idx := st.idx + 1))) && SameHeader(v, w)
  {
    var w := Reduce(v, RevealStep(st.queue[st.idx]));
    StepReplays(v, data, i, issued, st);
    StepMarksOnly(v, st.queue[st.idx]);
    BoardKept(v, w, data, i, st);
  }

  lemma BoardKept(v: View, w: View, data: PhaseData, i: nat, st: StepState)
    requires st.idx < |st.queue| && P.KindAt(i) == P.Leaderboard && ViewAtRest(v, data, i, Some(st))
    requires w.revealed == v.revealed && w.lastDeltas == v.lastDeltas && w.ballot == v.ballot
    requires HasReplayed(w, st.queue[..st.idx + 1])
    ensures ViewAtRest(w, data, i, Some(st.(idx := st.idx + 1)))
  {
  }

  /** The button on a client's screen says "next round" exactly when the next click leaves. */
  lemma ButtonTellsTheNextClick(w: World)
    requires Resting(w) && P.KindAt(w.s.phaseIdx) == P.Leaderboard && RevealsIn(w.s.phaseData, w.s.round) != map[]
    ensures AllRevealed(ViewOf(w)) <==> StepsLeft(w.s.stepState) == 0
  {
    var st, rr := w.s.stepState.value, RevealsIn(w.s.phaseData, w.s.round);
    AllRevealedIff(ViewOf(w), st.queue, st.idx, rr);
  }

  /** Once the queue is through, each player's running total on every client is the delta of
      the round, which is what the round added to their score. */
  lemma BoardAddsUp(w: World, p: PlayerID)
    requires Resting(w) && P.KindAt(w.s.phaseIdx) == P.Leaderboard && StepsLeft(w.s.stepState) == 0
    ensures var v := ViewOf(w);
            v.lastDeltas.Some? && Running(v.revealed, v.finals, p) == At(v.lastDeltas.value, p)
            && At(v.lastDeltas.value, p) == At(DeltasIn(w.s.phaseData, w.s.round), p)
  {
    var j := StoredAt(w.s.phaseData, w.s.phaseIdx, w.issued, P.Scoring);
    BoardShows(ViewOf(w), RevealsIn(w.s.phaseData, w.s.round), DeltasIn(w.s.phaseData, w.s.round), w.s.stepState, p);
  }

  lemma BoardShows(v: View, rr: Reveals, deltas: Deltas, stepState: Option<StepState>, p: PlayerID)
    requires IsRoundScore(rr, deltas) && HoldsRound(v, rr)
    requires match stepState
             case None => rr == map[]
             case Some(st) => IsQueue(st.queue, rr.Keys, rr) && st.idx == |st.queue| && HasReplayed(v, st.queue[..st.idx])
    ensures Running(v.revealed, v.finals, p) == At(deltas, p)
  {
    if stepState.Some? {
      var q := stepState.value.queue;
      assert q[..|q|] == q;
      RunningTotalIsRoundDelta(v, q, rr, deltas, p);
    } else {
      EnumerationSize(IdsOfReveals(v.revealed), rr.Keys);
      RoundPointsAre(rr, [], p);
    }
  }

  /** A queue is empty exactly when there is nothing to reveal. */
  lemma QueueIsEmptyIff(q: seq<Step>, rr: Reveals)
    requires IsQueue(q, rr.Keys, rr)
    ensures q == [] <==> rr == map[]
  {
    if q != [] {
      assert q[0] in q && StepOk(q[0], rr);
    }
    if rr != map[] {
      var d :| d in rr.Keys;
    }
  }

  // ----- rerolling a prompt -----

  function Rerolled(w: World, pid: PlayerID, prompt: string): World {
    var prompts := PromptsIn(w.s.phaseData, w.s.round)[pid := prompt];
    w.(s := w.s.(phaseData := w.s.phaseData[Key(P.PromptDistribute, w.s.round) := PromptsResult(prompts)],
                 rerolled := w.s.rerolled + {(w.s.round, pid)}),
       sent := w.sent + [PromptIssued(pid, prompt)])
  }

  lemma RerollIsGood(w: World, pid: PlayerID, prompt: string)
    requires Resting(w) && P.KindAt(w.s.phaseIdx) == P.DrawingSubmit
    requires pid in PromptsIn(w.s.phaseData, w.s.round)
    ensures Resting(Rerolled(w, pid, prompt)) && Continues(w.s, Rerolled(w, pid, prompt).s)
  {
    var m := w.(s := Rerolled(w, pid, prompt).s);
    RerolledRests(w, pid, prompt);
    QuietKeepsResting(m, [PromptIssued(pid, prompt)]);
    RerolledContinues(w, pid, prompt);
  }

  lemma RerolledContinues(w: World, pid: PlayerID, prompt: string)
    requires w.s.status == InGame
    ensures Continues(w.s, Rerolled(w, pid, prompt).s)
  {
    RerolledRecord(w, pid, prompt);
  }

  lemma RerolledRests(w: World, pid: PlayerID, prompt: string)
    requires Resting(w) && P.KindAt(w.s.phaseIdx) == P.DrawingSubmit
    requires pid in PromptsIn(w.s.phaseData, w.s.round)
    ensures Resting(w.(s := Rerolled(w, pid, prompt).s))
  {
    var m := w.(s := Rerolled(w, pid, prompt).s);
    RerolledData(w, pid, prompt);
    assert ContentsOk(m) == ContentsOk(w);
    assert ClockOk(w.watch, m.s) == ClockOk(w.watch, w.s);
  }

  lemma RerolledData(w: World, pid: PlayerID, prompt: string)
    requires Resting(w) && P.KindAt(w.s.phaseIdx) == P.DrawingSubmit
    requires pid in PromptsIn(w.s.phaseData, w.s.round)
    ensures var data := Rerolled(w, pid, prompt).s.phaseData;
            DataOk(data, w.s.phaseIdx, w.issued) && LedgerOk(w.s.scores, data, w.s.phaseIdx)
  {
    var t := Rerolled(w, pid, prompt);
    var j := StoredAt(w.s.phaseData, w.s.phaseIdx, w.issued, P.PromptDistribute);
    RerollKeeps(w.s.phaseData, w.s.phaseIdx, w.s.round, PromptsIn(t.s.phaseData, w.s.round), w.issued);
    forall p
      ensures Ledger(t.s.phaseData, w.s.phaseIdx, p) == Ledger(w.s.phaseData, w.s.phaseIdx, p)
    {
      RerollLedger(w.s.phaseData, t.s.phaseData, w.s.phaseIdx, p);
    }
  }

  lemma RerolledRecord(w: World, pid: PlayerID, prompt: string)
    requires w.s.status == InGame
    ensures KeepsRecord(w.s, Rerolled(w, pid, prompt).s)
    ensures MeasureOf(Rerolled(w, pid, prompt).s) == MeasureOf(w.s)
  {
  }

  // ----- moving on -----

  /** `d` ends the phase with what its primitive holds. */
  ghost predicate ClosesWith(w: World, d: Decision) {
    var c := ContextOf(w.s, w.dict);
    match w.contents
    case Nothing => false
    case Computing => false
    case GotDrawings(items) => d == Decision(true, [], Some(DrawingsResult(items)))
    case GotFakes(got) => FakesDecided(d, got, c, w.issued)
    case GotVotes(got) => VotesDecided(d, got, c.drawings)
    case Holding => d == DONE
  }

  lemma ClosesFits(w: World, d: Decision)
    requires Resting(w) && ClosesWith(w, d)
    ensures d.advance && d.events == [] && d.result.Some?
    ensures Fits(w.s.phaseData, w.s.phaseIdx, d.result.value, w.issued)
  {
    match P.KindAt(w.s.phaseIdx)
    case DrawingSubmit =>
    case FakePromptSubmit =>
      ContextIsOk(w);
      FakesResultFits(w.contents.fakes, ContextOf(w.s, w.dict), w.issued, d, w.issued);
    case Voting =>
      VotingIsReady(w);
      VotesResultFits(w.contents.votes, DrawingsIn(w.s.phaseData, w.s.round), FakesIn(w.s.phaseData, w.s.round), d);
    case Leaderboard =>
  }

  /** ... and it is one the phase runner can act on. */
  lemma ClosesDecided(w: World, d: Decision)
    requires Resting(w) && ClosesWith(w, d) && (P.KindAt(w.s.phaseIdx) == P.Leaderboard ==> !w.s.paused)
    ensures d.advance && Decided(w, d)
  {
    ClosesFits(w, d);
    if P.KindAt(w.s.phaseIdx) == P.Leaderboard {
      LeaderboardDecided(w);
    } else {
      CollectedDecided(w, d);
    }
  }

  /** A timer only runs in a game, in a phase that collects; then there is a primitive. */
  lemma TimerNeedsGame(w: World)
    requires Good(w) && w.s.phaseTimer.Some?
    ensures Resting(w) && P.KindAt(w.s.phaseIdx) in {P.DrawingSubmit, P.FakePromptSubmit, P.Voting}
    ensures w.contents.GotDrawings? || w.contents.GotFakes? || w.contents.GotVotes?
  {
    if w.s.status == InGame {
      P.PlanFacts(w.s.phases, w.s.settings, w.s.phaseIdx);
    }
  }

  /** Moving on makes progress, and never costs anyone points. */
  lemma AdvanceIsProgress(w: World, d: Decision, t: World, now: int)
    requires Decided(w, d) && d.advance && Applies(w, d, t, now)
    ensures Good(t) && Continues(w.s, t.s) && Less(MeasureOf(t.s), MeasureOf(w.s))
  {
    AdvanceRests(w, d, t, now);
    RestIsAhead(w.s, d.result.value);
    AheadIsLess(w.s, t.s, NextRest(w.s, d.result.value));
  }

  lemma RestIsAhead(s: State, result: PhaseResult)
    requires s.phaseIdx < |s.phases|
    ensures NextRest(s, result) > s.phaseIdx
  {
  }

  lemma AheadIsLess(a: State, b: State, rest: nat)
    ensures CarriedOn(a, b, rest) && a.status == InGame && a.phaseIdx < |a.phases| && rest > a.phaseIdx ==>
              Continues(a, b) && Less(MeasureOf(b), MeasureOf(a))
  {
  }

  /** The timeout of `w` closed its phase, having drawn the ids that `m` has on top. */
  ghost predicate TimedOut(w: World, m: World, d: Decision, t: World, now: int) {
    m == w.(issued := m.issued) && w.issued <= m.issued && ClosesWith(m, d) && Applies(m, d, t, now)
  }

  lemma TimeoutDecided(w: World, m: World, d: Decision, t: World, now: int)
    requires Good(w) && w.s.phaseTimer.Some? && TimedOut(w, m, d, t, now)
    ensures d.advance && Decided(m, d)
  {
    TimerNeedsGame(w);
    MoreIdsKeepGood(w, m.issued);
    ClosesDecided(m, d);
  }

  /** What an accepted click does: it shows the next step, or moves on when there is none left. */
  ghost predicate Clicked(w: World, t: World, now: int) {
    if MoreSteps(w.s) then t == StepShown(w) else Applies(w, DONE, t, now)
  }

  /** Either way there is less to do. */
  lemma ClickIsProgress(w: World, t: World, now: int)
    requires Resting(w) && P.KindAt(w.s.phaseIdx) == P.Leaderboard && !w.s.paused && Clicked(w, t, now)
    ensures Good(t) && Continues(w.s, t.s) && Less(MeasureOf(t.s), MeasureOf(w.s))
  {
    if MoreSteps(w.s) {
      StepIsGood(w);
    } else {
      LeaderboardDecided(w);
      AdvanceIsProgress(w, DONE, t, now);
    }
  }

  // ----- verdicts -----

  function AdvanceVerdict(s: State, pid: PlayerID): Outcome {
    if pid != s.leaderID then Refused(NotAllowed)
    else if s.status != InGame || P.KindAt(s.phaseIdx) != P.Leaderboard then Refused(WrongPhase)
    else if s.paused then Refused(NotAllowed)
    else Accepted
  }

  function RerollVerdict(s: State, pid: PlayerID): Outcome {
    if s.status != InGame then Refused(WrongPhase)
    else if s.paused then Refused(NotAllowed)
    else if P.KindAt(s.phaseIdx) != P.DrawingSubmit then Refused(WrongPhase)
    else if (s.round, pid) in s.rerolled || (s.round, pid) in s.drawn || pid !in PromptsIn(s.phaseData, s.round)
    then Refused(NotAllowed)
    else Accepted
  }

  /** The guards every submission passes before its collector sees it. */
  function InputVerdict(s: State, k: P.Kind): Outcome {
    if s.status != InGame then Refused(WrongPhase)
    else if s.paused then Refused(NotAllowed)
    else if s.pencilsDown && k == P.DrawingSubmit then Refused(NotAllowed)
    else if P.KindAt(s.phaseIdx) != k then Refused(WrongPhase)
    else Accepted
  }

  ghost predicate MayDraw(w: World, pid: PlayerID) {
    && w.contents.GotDrawings?
    && pid in PromptsIn(w.s.phaseData, w.s.round) && pid !in w.contents.items
  }

  ghost predicate MayFake(w: World, pid: PlayerID, drawing: DrawingID, raw: string) {
    w.contents.GotFakes? && !FakeRejected(w.contents.fakes, ContextOf(w.s, w.dict), pid, drawing, raw)
  }

  ghost predicate MayVote(w: World, pid: PlayerID, drawing: DrawingID, choice: string) {
    && w.contents.GotVotes?
    && !VoteRejected(w.contents.votes, DrawingsIn(w.s.phaseData, w.s.round), FakesIn(w.s.phaseData, w.s.round),
                     pid, drawing, choice)
  }

  // ----- accepted submissions -----

  /** A collector only ever gains items; those it has stay as they are. */
  ghost predicate KeepsItems(a: Contents, b: Contents) {
    match a
    case GotDrawings(items) => b.GotDrawings? && forall p :: p in items ==> p in b.items && b.items[p] == items[p]
    case GotFakes(got) => b.GotFakes? && KeepsEach(got, b.fakes)
    case GotVotes(got) => b.GotVotes? && KeepsEach(got, b.votes)
    case _ => b == a
  }

  ghost predicate KeepsEach<T(!new)>(a: Collected<T>, b: Collected<T>) {
    forall p, id :: Has(a, p, id) ==> Has(b, p, id) && b[p][id] == a[p][id]
  }

  lemma KeepsItemsTransitive(a: Contents, b: Contents, c: Contents)
    requires KeepsItems(a, b) && KeepsItems(b, c)
    ensures KeepsItems(a, c)
  {
  }

  lemma WithKeepsEach<T(!new)>(got: Collected<T>, p: PlayerID, id: DrawingID, item: T)
    requires !Has(got, p, id)
    ensures KeepsEach(got, With(got, p, id, item))
  {
  }

  /** The collector's decision is acted on. */
  ghost predicate Settles(m: World, d: Decision, t: World, now: int) {
    if d.advance then Applies(m, d, t, now) else t == m
  }

  /** `m` is `w` with something filed; if that was the last to come, the phase is over. */
  ghost predicate Taken(w: World, m: World, d: Decision, t: World, now: int) {
    && m == Filed(w, m.contents, m.s.drawn, m.issued) && w.issued <= m.issued
    && KeepsItems(w.contents, m.contents) && !w.contents.Nothing? && !w.contents.Computing? && !w.contents.Holding?
    && (d.advance ==> ClosesWith(m, d))
    && Settles(m, d, t, now)
  }

  /** The drawing is in the collector, under a new id, and noted as drawn. */
  function DrawingFiled(w: World, pid: PlayerID, id: DrawingID, mark: bool): World
    requires w.contents.GotDrawings? && pid in PromptsIn(w.s.phaseData, w.s.round)
  {
    Filed(w, GotDrawings(WithDrawing(w.contents.items, pid, id, PromptsIn(w.s.phaseData, w.s.round))),
          if mark then w.s.drawn + {(w.s.round, pid)} else w.s.drawn, w.issued + {id})
  }

  /** `m` is `w` with one new drawing in the collector, which has decided `d` by counting. */
  ghost predicate IsDrawingFiled(w: World, m: World, pid: PlayerID, mark: bool, d: Decision) {
    && MayDraw(w, pid)
    && (exists id :: id !in w.issued && m == DrawingFiled(w, pid, id, mark))
    && d == if |m.contents.items| >= |Drawers(w.s.players, w.s.phaseData, w.s.round)|
            then Decision(true, [], Some(DrawingsResult(m.contents.items))) else STAY
  }

  /** `m` is `w` with one new fake in the collector, which has decided `d`. */
  ghost predicate IsFakeFiled(w: World, m: World, pid: PlayerID, drawing: DrawingID, raw: string, d: Decision) {
    && MayFake(w, pid, drawing, raw)
    && m == Filed(w, m.contents, w.s.drawn, m.issued) && w.issued <= m.issued && m.contents.GotFakes?
    && IsNewFake(m.contents.fakes, w.contents.fakes, pid, drawing, raw, w.issued)
    && m.contents.fakes[pid][drawing].id in m.issued
    && if Complete(w.s.players, DrawingsIn(w.s.phaseData, w.s.round), m.contents.fakes)
       then FakesDecided(d, m.contents.fakes, ContextOf(w.s, w.dict), m.issued) else d == STAY
  }

  /** `m` is `w` with one new vote in the collector, which has decided `d`. */
  ghost predicate IsVoteFiled(w: World, m: World, pid: PlayerID, drawing: DrawingID, choice: string, d: Decision) {
    && MayVote(w, pid, drawing, choice)
    && m == w.(contents := GotVotes(With(w.contents.votes, pid, drawing, Vote(pid, drawing, choice))))
    && if Complete(w.s.players, DrawingsIn(w.s.phaseData, w.s.round), m.contents.votes)
       then VotesDecided(d, m.contents.votes, DrawingsIn(w.s.phaseData, w.s.round)) else d == STAY
  }

  ghost predicate DrawingTaken(w: World, pid: PlayerID, mark: bool, m: World, d: Decision, t: World, now: int) {
    IsDrawingFiled(w, m, pid, mark, d) && Settles(m, d, t, now)
  }

  ghost predicate FakeTaken(w: World, pid: PlayerID, drawing: DrawingID, raw: string, m: World, d: Decision, t: World,
                            now: int)
  {
    IsFakeFiled(w, m, pid, drawing, raw, d) && Settles(m, d, t, now)
  }

  ghost predicate VoteTaken(w: World, pid: PlayerID, drawing: DrawingID, choice: string, m: World, d: Decision, t: World,
                            now: int)
  {
    IsVoteFiled(w, m, pid, drawing, choice, d) && Settles(m, d, t, now)
  }

  /** As long as everyone who has drawn is still here, the drawing phase closes early exactly
      when all who are here have drawn. With departures it closes over the head of someone
      exactly when more of the drawings are from departed players than are to spare. */
  lemma DrawingsCloseExactly(w: World, pid: PlayerID, mark: bool, m: World, d: Decision, t: World, now: int)
    requires DrawingTaken(w, pid, mark, m, d, t, now)
    ensures m.contents.GotDrawings?
    ensures var got, due := m.contents.items.Keys, Drawers(w.s.players, w.s.phaseData, w.s.round);
            && (got <= due ==> (d.advance <==> got == due))
            && (d.advance ==> (!(due <= got) <==> |got - due| > |got| - |due|))
  {
    var got, due := m.contents.items.Keys, Drawers(w.s.players, w.s.phaseData, w.s.round);
    assert |got| == |m.contents.items|;
    if got <= due {
      AdvanceIsExactWithoutDepartures(got, due);
    }
    if d.advance {
      AdvanceSkipsSomeoneIff(got, due);
    }
  }

  // ----- what an accepted submission keeps -----

  lemma DrawingIsTaken(w: World, pid: PlayerID, mark: bool, m: World, d: Decision, t: World, now: int)
    requires DrawingTaken(w, pid, mark, m, d, t, now)
    ensures Taken(w, m, d, t, now)
  {
  }

  lemma FakeIsTaken(w: World, pid: PlayerID, drawing: DrawingID, raw: string, m: World, d: Decision, t: World, now: int)
    requires FakeTaken(w, pid, drawing, raw, m, d, t, now)
    ensures Taken(w, m, d, t, now)
  {
    WithKeepsEach(w.contents.fakes, pid, drawing, m.contents.fakes[pid][drawing]);
  }

  lemma VoteIsTaken(w: World, pid: PlayerID, drawing: DrawingID, choice: string, m: World, d: Decision, t: World, now: int)
    requires VoteTaken(w, pid, drawing, choice, m, d, t, now)
    ensures Taken(w, m, d, t, now)
  {
    WithKeepsEach(w.contents.votes, pid, drawing, Vote(pid, drawing, choice));
  }

  lemma DrawingFiledIsGood(w: World, m: World, pid: PlayerID, mark: bool, d: Decision)
    requires Resting(w) && pid != NOBODY && IsDrawingFiled(w, m, pid, mark, d)
    ensures Resting(m) && (d == STAY || ClosesWith(m, d))
  {
    var id :| id !in w.issued && m == DrawingFiled(w, pid, id, mark);
    DrawingFits(w.contents.items, pid, id, PromptsIn(w.s.phaseData, w.s.round), w.issued);
    FiledIsGood(w, m.contents, m.s.drawn, m.issued);
  }

  lemma FakeFiledIsGood(w: World, m: World, pid: PlayerID, drawing: DrawingID, raw: string, d: Decision)
    requires Resting(w) && pid != NOBODY && IsFakeFiled(w, m, pid, drawing, raw, d)
    ensures Resting(m) && (d == STAY || ClosesWith(m, d))
  {
    ContextIsOk(w);
    NewFakeFits(w.contents.fakes, ContextOf(w.s, w.dict), pid, drawing, raw, m.contents.fakes, w.issued, m.issued);
    FiledIsGood(w, m.contents, m.s.drawn, m.issued);
  }

  lemma VoteFiledIsGood(w: World, m: World, pid: PlayerID, drawing: DrawingID, choice: string, d: Decision)
    requires Resting(w) && IsVoteFiled(w, m, pid, drawing, choice, d)
    ensures Resting(m) && (d == STAY || ClosesWith(m, d))
  {
    VotingIsReady(w);
    VoteIsRecorded(w.contents.votes, DrawingsIn(w.s.phaseData, w.s.round), FakesIn(w.s.phaseData, w.s.round), pid, drawing,
                   choice);
    FiledIsGood(w, m.contents, m.s.drawn, m.issued);
  }

  /** What the vote collector relies on. */
  lemma VotingIsReady(w: World)
    requires Resting(w) && P.KindAt(w.s.phaseIdx) == P.Voting
    ensures DrawingsOk(DrawingsIn(w.s.phaseData, w.s.round)) && FakeIdsDistinct(FakesIn(w.s.phaseData, w.s.round))
  {
    DrawingsAreStored(w.s.phaseData, w.s.phaseIdx, w.issued);
    FakesAreStored(w.s.phaseData, w.s.phaseIdx, w.issued);
    FakeIdsAreDistinct(DrawingsIn(w.s.phaseData, w.s.round), FakesIn(w.s.phaseData, w.s.round), w.issued);
  }

  /** Only a collecting phase takes anything, and a decision to end it can be acted on. */
  lemma TakenDecided(w: World, m: World, d: Decision, t: World, now: int)
    requires Resting(m) && Taken(w, m, d, t, now) && d.advance
    ensures Decided(m, d)
  {
    ClosesDecided(m, d);
  }

  // ----- default inputs -----

  const DISCONNECT_GRACE: int := 60

  ghost predicate Absent(s: State, pid: PlayerID, now: int) {
    pid in s.players && !s.players[pid].connected && now - s.players[pid].lastSeen > DISCONNECT_GRACE
  }

  /** A default input of player `pid` was accepted. */
  ghost predicate DefaultTaken(w: World, pid: PlayerID, t: World, now: int) {
    w.s.status == InGame && exists m, d :: DefaultInput(w, pid, m, d, t, now)
  }

  ghost predicate DefaultInput(w: World, pid: PlayerID, m: World, d: Decision, t: World, now: int) {
    || DrawingTaken(w, pid, false, m, d, t, now)
    || (exists drawing :: FakeTaken(w, pid, drawing, DEFAULT_FAKE_TEXT, m, d, t, now))
    || (exists drawing, choice :: VoteTaken(w, pid, drawing, choice, m, d, t, now))
  }

  /** A default input is a submission like any other. */
  lemma DefaultIsTaken(w: World, pid: PlayerID, m: World, d: Decision, t: World, now: int)
    requires DefaultInput(w, pid, m, d, t, now)
    ensures Taken(w, m, d, t, now)
  {
    if DrawingTaken(w, pid, false, m, d, t, now) {
      DrawingIsTaken(w, pid, false, m, d, t, now);
    } else if drawing :| FakeTaken(w, pid, drawing, DEFAULT_FAKE_TEXT, m, d, t, now) {
      FakeIsTaken(w, pid, drawing, DEFAULT_FAKE_TEXT, m, d, t, now);
    } else {
      var drawing, choice :| VoteTaken(w, pid, drawing, choice, m, d, t, now);
      VoteIsTaken(w, pid, drawing, choice, m, d, t, now);
    }
  }

  lemma DefaultFiledIsGood(w: World, pid: PlayerID, m: World, d: Decision, t: World, now: int)
    requires Resting(w) && pid != NOBODY && DefaultInput(w, pid, m, d, t, now)
    ensures Resting(m)
  {
    if DrawingTaken(w, pid, false, m, d, t, now) {
      DrawingFiledIsGood(w, m, pid, false, d);
    } else if drawing :| FakeTaken(w, pid, drawing, DEFAULT_FAKE_TEXT, m, d, t, now) {
      FakeFiledIsGood(w, m, pid, drawing, DEFAULT_FAKE_TEXT, d);
    } else {
      var drawing, choice :| VoteTaken(w, pid, drawing, choice, m, d, t, now);
      VoteFiledIsGood(w, m, pid, drawing, choice, d);
    }
  }

  /** The parts of an accepted default input. */
  lemma UnpackDefault(w: World, pid: PlayerID, t: World, now: int) returns (m: World, d: Decision)
    requires Good(w) && pid in w.s.players && DefaultTaken(w, pid, t, now)
    ensures DefaultInput(w, pid, m, d, t, now) && Taken(w, m, d, t, now) && Resting(m)
  {
    m, d :| DefaultInput(w, pid, m, d, t, now);
    DefaultIsTaken(w, pid, m, d, t, now);
    DefaultFiledIsGood(w, pid, m, d, t, now);
  }

  ghost predicate DefaultStep(w: World, t: World, now: int) {
    !w.s.paused && exists pid :: Absent(w.s, pid, now) && DefaultTaken(w, pid, t, now)
  }

  /** `trace` leads from `w` to `t` by default inputs alone. */
  ghost predicate DefaultTrace(trace: seq<World>, w: World, t: World, now: int) {
    && trace != [] && trace[0] == w && trace[|trace| - 1] == t
    && forall i :: 0 <= i < |trace| - 1 ==> DefaultStep(trace[i], trace[i + 1], now)
  }

  lemma DefaultTraceGrows(trace: seq<World>, first: World, w: World, pid: PlayerID, t: World, now: int)
    requires DefaultTrace(trace, first, w, now) && !w.s.paused && Absent(w.s, pid, now) && DefaultTaken(w, pid, t, now)
    ensures DefaultTrace(trace + [t], first, t, now)
  {
    assert DefaultStep(w, t, now);
  }

  /** Submissions leave the seats, the pause and the lobby alone. */
  ghost predicate SameRoom(a: State, b: State) {
    && b.players == (if b.status == InGame then a.players else Unready(a.players))
    && b.conns == a.conns && b.joinOrder == a.joinOrder && b.leaderID == a.leaderID
    && b.paused == a.paused && b.pencilsDown == a.pencilsDown && b.settings == a.settings && b.rerolled == a.rerolled
  }

  lemma CarriedSameRoom(a: State, b: State, rest: nat)
    requires a.status == InGame && CarriedOn(a, b, rest)
    ensures SameRoom(a, b) && b.phaseIdx == rest
  {
  }

  /** A submission ends the phase or is filed. */
  lemma TakenMovesOrFiles(w: World, m: World, d: Decision, t: World, now: int)
    requires w.s.status == InGame && Resting(m) && Taken(w, m, d, t, now)
    ensures SameRoom(w.s, t.s)
    ensures if d.advance then t.s.phaseIdx > w.s.phaseIdx else t == m
  {
    if d.advance {
      TakenDecided(w, m, d, t, now);
      AdvanceRests(m, d, t, now);
      RestIsAhead(m.s, d.result.value);
      CarriedSameRoom(m.s, t.s, NextRest(m.s, d.result.value));
    }
  }

  lemma DefaultSameRoom(w: World, pid: PlayerID, t: World, now: int)
    requires Good(w) && pid in w.s.players && DefaultTaken(w, pid, t, now)
    ensures SameRoom(w.s, t.s) && t.s.players.Keys == w.s.players.Keys
  {
    var m, d := UnpackDefault(w, pid, t, now);
    TakenMovesOrFiles(w, m, d, t, now);
  }

  // ----- every absent player gets their default -----

  /** There is nothing to submit for player `pid`, or on some drawing of someone else nothing
      more can be submitted. The default goes to one such drawing, picked in map order. */
  ghost predicate DefaultSpent(w: World, pid: PlayerID) {
    match w.contents
    case GotDrawings(_) => !MayDraw(w, pid)
    case GotFakes(_) => NoneOfOthers(w, pid) || exists a :: FakeSpent(w, pid, a)
    case GotVotes(_) => NoneOfOthers(w, pid) || exists a :: VoteSpent(w, pid, a)
    case _ => true
  }

  ghost predicate NoneOfOthers(w: World, pid: PlayerID) {
    var drawings := DrawingsIn(w.s.phaseData, w.s.round);
    forall a :: a in drawings ==> drawings[a].author == pid
  }

  /** Drawing `id` is by `a`, and not by `pid`. */
  ghost predicate OthersDrawing(w: World, pid: PlayerID, a: PlayerID, id: DrawingID) {
    var drawings := DrawingsIn(w.s.phaseData, w.s.round);
    a in drawings && drawings[a].author != pid && drawings[a].id == id
  }

  ghost predicate FakeSpent(w: World, pid: PlayerID, a: PlayerID) {
    var drawings := DrawingsIn(w.s.phaseData, w.s.round);
    a in drawings && drawings[a].author != pid && !MayFake(w, pid, drawings[a].id, DEFAULT_FAKE_TEXT)
  }

  ghost predicate VoteSpent(w: World, pid: PlayerID, a: PlayerID) {
    var drawings := DrawingsIn(w.s.phaseData, w.s.round);
    w.contents.GotVotes? && a in drawings && drawings[a].author != pid && Has(w.contents.votes, pid, drawings[a].id)
  }

  /** After player `pid` had their turn: the phase is over, or their default is spent. */
  ghost predicate HadTheirTurn(w: World, pid: PlayerID, t: World) {
    || t.s.phaseIdx > w.s.phaseIdx
    || (t.s.status == InGame && t.s.phaseIdx == w.s.phaseIdx && DefaultSpent(t, pid))
  }

  /** What was accepted for a player is spent for them. */
  lemma DrawingSpends(w: World, pid: PlayerID, m: World, d: Decision)
    requires IsDrawingFiled(w, m, pid, false, d)
    ensures DefaultSpent(m, pid)
  {
  }

  lemma FakeSpends(w: World, pid: PlayerID, a: PlayerID, m: World, d: Decision)
    requires var drawings := DrawingsIn(w.s.phaseData, w.s.round);
             && a in drawings && drawings[a].author != pid
             && IsFakeFiled(w, m, pid, drawings[a].id, DEFAULT_FAKE_TEXT, d)
    ensures DefaultSpent(m, pid)
  {
    assert FakeSpent(m, pid, a);
  }

  lemma VoteSpends(w: World, pid: PlayerID, a: PlayerID, choice: string, m: World, d: Decision)
    requires var drawings := DrawingsIn(w.s.phaseData, w.s.round);
             && a in drawings && drawings[a].author != pid
             && IsVoteFiled(w, m, pid, drawings[a].id, choice, d)
    ensures DefaultSpent(m, pid)
  {
    assert VoteSpent(m, pid, a);
  }

  /** A default vote is refused only if the player has voted on that drawing before. */
  lemma RefusedVoteIsSpent(w: World, pid: PlayerID, a: PlayerID, choice: string)
    requires w.contents.GotVotes?
    requires var drawings := DrawingsIn(w.s.phaseData, w.s.round);
             && DrawingsOk(drawings) && a in drawings && drawings[a].author != pid
             && !MayVote(w, pid, drawings[a].id, choice)
    ensures MayChoose(pid, choice, ListAt(FakesIn(w.s.phaseData, w.s.round), DrawingsIn(w.s.phaseData, w.s.round)[a].id)) ==>
              DefaultSpent(w, pid)
  {
    if MayChoose(pid, choice, ListAt(FakesIn(w.s.phaseData, w.s.round), DrawingsIn(w.s.phaseData, w.s.round)[a].id)) {
      assert VoteSpent(w, pid, a);
    }
  }

  /** Without a drawing of someone else there is nothing to submit. */
  lemma NoTarget(w: World, pid: PlayerID)
    requires w.s.status == InGame && P.KindAt(w.s.phaseIdx) != P.DrawingSubmit && NoneOfOthers(w, pid)
    ensures Good(w) ==> HadTheirTurn(w, pid, w)
  {
  }

  lemma SettledTurn(w: World, pid: PlayerID, m: World, d: Decision, t: World, now: int)
    requires w.s.status == InGame && Resting(m) && Taken(w, m, d, t, now) && DefaultSpent(m, pid)
    ensures HadTheirTurn(w, pid, t)
  {
    TakenMovesOrFiles(w, m, d, t, now);
  }

  lemma AcceptedDrawing(w: World, pid: PlayerID, m: World, d: Decision, t: World, now: int)
    requires Resting(w) && pid != NOBODY && DrawingTaken(w, pid, false, m, d, t, now)
    ensures DefaultTaken(w, pid, t, now) && HadTheirTurn(w, pid, t)
  {
    assert DefaultInput(w, pid, m, d, t, now);
    DrawingIsTaken(w, pid, false, m, d, t, now);
    DrawingFiledIsGood(w, m, pid, false, d);
    DrawingSpends(w, pid, m, d);
    SettledTurn(w, pid, m, d, t, now);
  }

  lemma AcceptedFake(w: World, pid: PlayerID, a: PlayerID, m: World, d: Decision, t: World, now: int)
    requires Resting(w) && pid != NOBODY
    requires var drawings := DrawingsIn(w.s.phaseData, w.s.round);
             && a in drawings && drawings[a].author != pid
             && FakeTaken(w, pid, drawings[a].id, DEFAULT_FAKE_TEXT, m, d, t, now)
    ensures DefaultTaken(w, pid, t, now) && HadTheirTurn(w, pid, t)
  {
    var id := DrawingsIn(w.s.phaseData, w.s.round)[a].id;
    assert DefaultInput(w, pid, m, d, t, now);
    FakeIsTaken(w, pid, id, DEFAULT_FAKE_TEXT, m, d, t, now);
    FakeFiledIsGood(w, m, pid, id, DEFAULT_FAKE_TEXT, d);
    FakeSpends(w, pid, a, m, d);
    SettledTurn(w, pid, m, d, t, now);
  }

  lemma AcceptedVote(w: World, pid: PlayerID, a: PlayerID, choice: string, m: World, d: Decision, t: World, now: int)
    requires Resting(w) && pid != NOBODY
    requires var drawings := DrawingsIn(w.s.phaseData, w.s.round);
             && a in drawings && drawings[a].author != pid
             && VoteTaken(w, pid, drawings[a].id, choice, m, d, t, now)
    ensures DefaultTaken(w, pid, t, now) && HadTheirTurn(w, pid, t)
  {
    var id := DrawingsIn(w.s.phaseData, w.s.round)[a].id;
    assert DefaultInput(w, pid, m, d, t, now);
    VoteIsTaken(w, pid, id, choice, m, d, t, now);
    VoteFiledIsGood(w, m, pid, id, choice, d);
    VoteSpends(w, pid, a, choice, m, d);
    SettledTurn(w, pid, m, d, t, now);
  }

  /** What is spent stays spent while others get theirs. */
  lemma SpentStays(w: World, q: PlayerID, t: World, now: int, p: PlayerID)
    requires Good(w) && q in w.s.players && DefaultTaken(w, q, t, now) && DefaultSpent(w, p)
    ensures HadTheirTurn(w, p, t)
  {
    var m, d := UnpackDefault(w, q, t, now);
    FilingKeepsSpent(w, m, p);
    SettledTurn(w, p, m, d, t, now);
  }

  lemma FilingKeepsSpent(w: World, m: World, p: PlayerID)
    requires m == Filed(w, m.contents, m.s.drawn, m.issued) && KeepsItems(w.contents, m.contents)
    requires DefaultSpent(w, p)
    ensures DefaultSpent(m, p)
  {
    match w.contents
    case GotDrawings(_) =>
    case GotFakes(_) =>
      if !NoneOfOthers(w, p) {
        var a :| FakeSpent(w, p, a);
        assert FakeSpent(m, p, a);
      }
    case GotVotes(_) =>
      if !NoneOfOthers(w, p) {
        var a :| VoteSpent(w, p, a);
        assert VoteSpent(m, p, a);
      }
    case _ =>
  }

  /** A heartbeat never undoes a phase nor touches who is present. */
  ghost predicate GoesOn(a: State, b: State) {
    && a.phaseIdx <= b.phaseIdx && (b.status == InGame || b.phaseIdx > a.phaseIdx)
    && b.players.Keys == a.players.Keys
    && forall p :: p in a.players ==>
                     b.players[p].connected == a.players[p].connected && b.players[p].lastSeen == a.players[p].lastSeen
  }

  lemma DefaultGoesOn(first: World, w: World, q: PlayerID, t: World, now: int, done: seq<PlayerID>)
    requires Good(w) && q in w.s.players && DefaultTaken(w, q, t, now) && GoesOn(first.s, w.s)
    requires forall p :: p in done && Absent(first.s, p, now) ==> HadTheirTurn(first, p, w)
    ensures GoesOn(first.s, t.s)
    ensures forall p :: p in done && Absent(first.s, p, now) ==> HadTheirTurn(first, p, t)
  {
    DefaultStays(w, q, t, now);
    forall p | p in done && Absent(first.s, p, now)
      ensures HadTheirTurn(first, p, t)
    {
      if w.s.phaseIdx == first.s.phaseIdx {
        SpentStays(w, q, t, now, p);
      }
    }
  }

  lemma DefaultStays(w: World, q: PlayerID, t: World, now: int)
    requires Good(w) && q in w.s.players && DefaultTaken(w, q, t, now)
    ensures GoesOn(w.s, t.s)
  {
    var m, d := UnpackDefault(w, q, t, now);
    TakenMovesOrFiles(w, m, d, t, now);
    SameRoomGoesOn(w.s, t.s);
  }

  lemma SameRoomGoesOn(a: State, b: State)
    requires SameRoom(a, b) && a.phaseIdx <= b.phaseIdx && (b.status == InGame || b.phaseIdx > a.phaseIdx)
    ensures GoesOn(a, b)
  {
  }

  lemma TurnsPass(first: World, w: World, p: PlayerID, t: World)
    ensures first.s.phaseIdx <= w.s.phaseIdx && HadTheirTurn(w, p, t) ==> HadTheirTurn(first, p, t)
  {
  }
}
