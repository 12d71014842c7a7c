/** Who may do what: for every message of a run, exactly when it has an effect. A message that has
    none leaves the whole room as it is, down to the frames it has sent. */
module Permissions {
  import opened Prelude
  import opened Text
  import opened Game
  import opened Collectors
  import opened RoundCollectors
  import opened Records
  import opened RoomInvariants
  import opened RoomSteps
  import opened RoomPlay
  import opened Steps
  import opened Runs
  import opened WholeRuns
  import P = Phases

  /** Message `i` of the run changes the room. */
  ghost predicate HasEffect(run: seq<World>, i: nat)
    requires i + 1 < |run|
  {
    run[i + 1] != run[i]
  }

  lemma StepFacts(run: seq<World>, script: seq<Entry>, i: nat)
    requires IsRun(run, script) && i < |script|
    ensures Good(run[i]) && Handled(run[i], script[i], run[i + 1]) && Next(run[i], script[i], run[i + 1])
  {
    AlwaysGood(run, script, i);
    StepMoves(run, script, i, i + 1);
    assert StepAt(run, script, i);
  }

  // ----- the leader's controls -----

  /** Only the leader clicks through the reveal, on a leaderboard, and not while paused. */
  lemma ClickTakesEffectIff(run: seq<World>, script: seq<Entry>, i: nat)
    requires IsRun(run, script) && i < |script| && script[i].msg.AdvanceReveal?
    ensures var s := run[i].s;
            HasEffect(run, i) <==>
            script[i].msg.pid == s.leaderID && s.status == InGame && s.phaseIdx % 7 == 6 && !s.paused
  {
    StepFacts(run, script, i);
    ClickCounts(run[i], script[i], run[i + 1]);
  }

  lemma ClickCounts(w: World, e: Entry, t: World)
    requires e.msg.AdvanceReveal?
    ensures Handled(w, e, t) && Next(w, e, t) ==>
              (t != w <==> e.msg.pid == w.s.leaderID && w.s.status == InGame && w.s.phaseIdx % 7 == 6 && !w.s.paused)
  {
    if Handled(w, e, t) && Next(w, e, t) && Clicks(w.s, e) {
      assert Less(MeasureOf(t.s), MeasureOf(w.s));
    }
  }

  /** Only the leader pauses and resumes, in any status; asking for what is the case does nothing. */
  lemma PauseTakesEffectIff(run: seq<World>, script: seq<Entry>, i: nat)
    requires IsRun(run, script) && i < |script| && script[i].msg.SetPause?
    ensures HasEffect(run, i) <==> script[i].msg.pid == run[i].s.leaderID && script[i].msg.pause != run[i].s.paused
    ensures run[i + 1].s.paused ==
            if script[i].msg.pid == run[i].s.leaderID then script[i].msg.pause else run[i].s.paused
  {
    StepFacts(run, script, i);
    SwitchCounts(run[i], script[i], run[i + 1]);
  }

  lemma SwitchCounts(w: World, e: Entry, t: World)
    requires e.msg.SetPause?
    ensures Handled(w, e, t) && Next(w, e, t) ==>
              && (t != w <==> e.msg.pid == w.s.leaderID && e.msg.pause != w.s.paused)
              && t.s.paused == if e.msg.pid == w.s.leaderID then e.msg.pause else w.s.paused
  {
  }

  /** Only the leader locks and unlocks drawing, and nothing but the lock changes. */
  lemma LockTakesEffectIff(run: seq<World>, script: seq<Entry>, i: nat)
    requires IsRun(run, script) && i < |script| && script[i].msg.SetPencilsDown?
    ensures HasEffect(run, i) <==> script[i].msg.pid == run[i].s.leaderID
    ensures run[i + 1].s == if script[i].msg.pid == run[i].s.leaderID then run[i].s.(pencilsDown := script[i].msg.disabled)
                            else run[i].s
  {
    StepFacts(run, script, i);
    LockCounts(run[i], script[i], run[i + 1]);
  }

  lemma LockCounts(w: World, e: Entry, t: World)
    requires e.msg.SetPencilsDown?
    ensures Handled(w, e, t) ==>
              && (t != w <==> e.msg.pid == w.s.leaderID)
              && t.s == if e.msg.pid == w.s.leaderID then w.s.(pencilsDown := e.msg.disabled) else w.s
  {
    SnapshotDiffers(w, w.s.(pencilsDown := e.msg.disabled));
  }

  lemma SnapshotDiffers(w: World, s: State)
    ensures BroadcastState(w.(s := s)) != w
  {
    assert |BroadcastState(w.(s := s)).sent| == |w.sent| + 1;
  }

  /** Only the leader changes the settings, and only in a lobby without a finished game on show;
      then everybody has to agree again. */
  lemma SettingsTakeEffectIff(run: seq<World>, script: seq<Entry>, i: nat)
    requires IsRun(run, script) && i < |script| && script[i].msg.UpdateSettings?
    ensures var s := run[i].s;
            HasEffect(run, i) <==> script[i].msg.pid == s.leaderID && s.status == Idle && !s.postGame
    ensures HasEffect(run, i) ==>
              InRangeOf(script[i].msg.next, run[i + 1].s.settings) && NobodyReady(run[i + 1].s.players)
  {
    StepFacts(run, script, i);
    SettingsCount(run[i], script[i], run[i + 1]);
  }

  /** Each setting as asked for if that is in its range; too much becomes the most there is; too
      little becomes the least for the counts and the default for the times. */
  predicate InRangeOf(asked: P.Settings, got: P.Settings) {
    && got.roundCount == (if asked.roundCount < 1 then 1 else if asked.roundCount > 10 then 10 else asked.roundCount)
    && got.generatedFakeCount ==
       (if asked.generatedFakeCount < 0 then 0 else if asked.generatedFakeCount > 6 then 6 else asked.generatedFakeCount)
    && got.drawingSeconds ==
       (if asked.drawingSeconds < 15 then 60 else if asked.drawingSeconds > 300 then 300 else asked.drawingSeconds)
    && got.fakePromptSeconds ==
       (if asked.fakePromptSeconds < 15 then 90 else if asked.fakePromptSeconds > 300 then 300 else asked.fakePromptSeconds)
    && got.votingSeconds ==
       (if asked.votingSeconds < 10 then 20 else if asked.votingSeconds > 180 then 180 else asked.votingSeconds)
  }

  lemma SettingsCount(w: World, e: Entry, t: World)
    requires e.msg.UpdateSettings?
    ensures Handled(w, e, t) ==>
              && (t != w <==> e.msg.pid == w.s.leaderID && w.s.status == Idle && !w.s.postGame)
              && (t != w ==> InRangeOf(e.msg.next, t.s.settings) && NobodyReady(t.s.players))
  {
    SnapshotDiffers(w, SettingsSet(w.s, e.msg.next));
  }

  // ----- the lobby and the clock -----

  /** Readying up works in the lobby, for a player of the room; leaving works for any player. */
  lemma SeatTakesEffectIff(run: seq<World>, script: seq<Entry>, i: nat)
    requires IsRun(run, script) && i < |script| && (script[i].msg.Ready? || script[i].msg.Leave?)
    ensures HasEffect(run, i) <==>
            script[i].msg.pid in run[i].s.players && (script[i].msg.Ready? ==> run[i].s.status == Idle)
  {
    StepFacts(run, script, i);
    SeatCounts(run[i], script[i], run[i + 1]);
  }

  lemma SeatCounts(w: World, e: Entry, t: World)
    requires e.msg.Ready? || e.msg.Leave?
    ensures Handled(w, e, t) && Next(w, e, t) ==>
              (t != w <==> e.msg.pid in w.s.players && (e.msg.Ready? ==> w.s.status == Idle))
  {
    if e.msg.pid in w.s.players {
      if e.msg.Ready? {
        SnapshotDiffers(w, ReadySet(w.s, e.msg.pid, e.msg.ready));
      } else {
        SnapshotDiffers(w, Departed(w.s, e.msg.pid, e.now));
      }
    }
  }

  /** The timer does something exactly if a game is on and it is due. */
  lemma TimerTakesEffectIff(run: seq<World>, script: seq<Entry>, i: nat)
    requires IsRun(run, script) && i < |script| && script[i].msg.TimerFires?
    ensures var s := run[i].s;
            HasEffect(run, i) <==> s.status == InGame && s.phaseTimer.Some? && s.phaseTimer.value <= script[i].now
  {
    StepFacts(run, script, i);
    TimerCounts(run[i], script[i], run[i + 1]);
  }

  lemma TimerCounts(w: World, e: Entry, t: World)
    requires e.msg.TimerFires?
    ensures Handled(w, e, t) && Next(w, e, t) ==>
              (t != w <==> w.s.status == InGame && w.s.phaseTimer.Some? && w.s.phaseTimer.value <= e.now)
  {
  }

  // ----- submissions -----

  /** A drawing is taken from whoever holds a prompt of the round and has none in, while players
      draw, the room is not paused and drawing is not locked. */
  lemma DrawingTakesEffectIff(run: seq<World>, script: seq<Entry>, i: nat)
    requires IsRun(run, script) && i < |script| && script[i].msg.SubmitDrawing?
    ensures var s, c, pid := run[i].s, run[i].contents, script[i].msg.pid;
            HasEffect(run, i) <==>
            && s.status == InGame && !s.paused && !s.pencilsDown && s.phaseIdx % 7 == 1 && script[i].msg.contentOk
            && pid in PromptsIn(s.phaseData, s.round) && c.GotDrawings? && pid !in c.items
  {
    StepFacts(run, script, i);
    DrawingCounts(run[i], script[i], run[i + 1]);
  }

  lemma DrawingCounts(w: World, e: Entry, t: World)
    requires e.msg.SubmitDrawing?
    ensures Handled(w, e, t) && Next(w, e, t) ==> (t != w <==> NotesDrawing(w, e))
    ensures NotesDrawing(w, e) <==>
            && w.s.status == InGame && !w.s.paused && !w.s.pencilsDown && w.s.phaseIdx % 7 == 1 && e.msg.contentOk
            && e.msg.pid in PromptsIn(w.s.phaseData, w.s.round) && w.contents.GotDrawings? && e.msg.pid !in w.contents.items
  {
    if Next(w, e, t) && NotesDrawing(w, e) {
      CollectsOrLeaves(w, e, t);
    }
  }

  /** A submission that is taken is in the collector, or the phase is over. */
  lemma CollectsOrLeaves(w: World, e: Entry, t: World)
    requires w.s.status == InGame && !e.msg.Join?
    ensures Next(w, e, t) ==> exists c :: Received(w, e, c) && (t.contents == c || !SamePhase(w, t))
  {
  }

  /** A fake is taken for a drawing of somebody else, if it has 1 to 80 characters without the
      space around it, does not read like the prompt, and is the player's first for the drawing. */
  lemma FakeTakesEffectIff(run: seq<World>, script: seq<Entry>, i: nat)
    requires IsRun(run, script) && i < |script| && script[i].msg.SubmitFake?
    ensures var s, m := run[i].s, script[i].msg;
            HasEffect(run, i) <==>
            && s.status == InGame && !s.paused && s.phaseIdx % 7 == 2
            && FakeIsOpen(DrawingsIn(s.phaseData, s.round), m.pid, m.drawing, m.text) && 1 <= |TrimSpace(m.text)| <= 80
            && run[i].contents.GotFakes? && !Has(run[i].contents.fakes, m.pid, m.drawing)
  {
    StepFacts(run, script, i);
    FakeCounts(run[i], script[i], run[i + 1]);
    DrawingsAreIn(run[i]);
    FakeGate(run[i], script[i].msg.pid, script[i].msg.drawing, script[i].msg.text);
  }

  ghost predicate FakeIsOpen(drawings: Drawings, pid: PlayerID, drawing: DrawingID, text: string) {
    exists a :: a in drawings && drawings[a].id == drawing && a != pid && Normalize(text) != Normalize(drawings[a].prompt)
  }

  lemma FakeCounts(w: World, e: Entry, t: World)
    requires e.msg.SubmitFake?
    ensures Handled(w, e, t) && Next(w, e, t) ==> (t != w <==> TakesFake(w, e.msg.pid, e.msg.drawing, e.msg.text))
  {
    if Next(w, e, t) && TakesFake(w, e.msg.pid, e.msg.drawing, e.msg.text) {
      CollectsOrLeaves(w, e, t);
    }
  }

  lemma FakeGate(w: World, pid: PlayerID, drawing: DrawingID, text: string)
    requires w.s.phaseIdx % 7 == 2 && w.s.status == InGame ==> DrawingsOk(DrawingsIn(w.s.phaseData, w.s.round))
    ensures TakesFake(w, pid, drawing, text) <==>
            && w.s.status == InGame && !w.s.paused && w.s.phaseIdx % 7 == 2
            && FakeIsOpen(DrawingsIn(w.s.phaseData, w.s.round), pid, drawing, text) && 1 <= |TrimSpace(text)| <= 80
            && w.contents.GotFakes? && !Has(w.contents.fakes, pid, drawing)
  {
    if w.s.status == InGame && w.s.phaseIdx % 7 == 2 && w.contents.GotFakes? {
      FakeIsTakenIff(w.contents.fakes, ContextOf(w.s, w.dict), pid, drawing, text);
    }
  }

  lemma FakeIsTakenIff(got: Collected<FakePrompt>, c: Context, pid: PlayerID, drawing: DrawingID, raw: string)
    requires DrawingsOk(c.drawings)
    ensures !FakeRejected(got, c, pid, drawing, raw) <==>
            FakeIsOpen(c.drawings, pid, drawing, raw) && 1 <= |TrimSpace(raw)| <= 80 && !Has(got, pid, drawing)
  {
    if !FakeRejected(got, c, pid, drawing, raw) {
      var a :| a in c.drawings && c.drawings[a].id == drawing;
    }
  }

  /** A vote is taken on a drawing of somebody else, for the truth or for a fake by somebody else,
      if it is the player's first on the drawing. */
  lemma VoteTakesEffectIff(run: seq<World>, script: seq<Entry>, i: nat)
    requires IsRun(run, script) && i < |script| && script[i].msg.SubmitVote?
    ensures var s, m := run[i].s, script[i].msg;
            HasEffect(run, i) <==>
            && s.status == InGame && !s.paused && s.phaseIdx % 7 == 3
            && VoteIsOpen(DrawingsIn(s.phaseData, s.round), FakesIn(s.phaseData, s.round), m.pid, m.drawing, m.choice)
            && run[i].contents.GotVotes? && !Has(run[i].contents.votes, m.pid, m.drawing)
  {
    StepFacts(run, script, i);
    VoteCounts(run[i], script[i], run[i + 1]);
    DrawingsAreIn(run[i]);
    VoteGate(run[i], script[i].msg.pid, script[i].msg.drawing, script[i].msg.choice);
  }

  ghost predicate VoteIsOpen(drawings: Drawings, fakes: Fakes, pid: PlayerID, drawing: DrawingID, choice: string) {
    && (exists a :: a in drawings && drawings[a].id == drawing && a != pid)
    && (choice == "TRUE" || exists f :: f in ListAt(fakes, drawing) && f.id == choice && f.author != pid)
  }

  lemma VoteCounts(w: World, e: Entry, t: World)
    requires e.msg.SubmitVote?
    ensures Handled(w, e, t) && Next(w, e, t) ==> (t != w <==> TakesVote(w, e.msg.pid, e.msg.drawing, e.msg.choice))
  {
    if Next(w, e, t) && TakesVote(w, e.msg.pid, e.msg.drawing, e.msg.choice) {
      CollectsOrLeaves(w, e, t);
    }
  }

  /** Once players are past drawing, the drawings on record are in order. */
  lemma DrawingsAreIn(w: World)
    ensures Good(w) && w.s.status == InGame && w.s.phaseIdx % 7 in {2, 3} ==> DrawingsOk(DrawingsIn(w.s.phaseData, w.s.round))
  {
    if Good(w) && w.s.status == InGame && w.s.phaseIdx % 7 in {2, 3} {
      DrawingsAreStored(w.s.phaseData, w.s.phaseIdx, w.issued);
    }
  }

  lemma VoteGate(w: World, pid: PlayerID, drawing: DrawingID, choice: string)
    requires w.s.phaseIdx % 7 == 3 && w.s.status == InGame ==> DrawingsOk(DrawingsIn(w.s.phaseData, w.s.round))
    ensures TakesVote(w, pid, drawing, choice) <==>
            && w.s.status == InGame && !w.s.paused && w.s.phaseIdx % 7 == 3
            && VoteIsOpen(DrawingsIn(w.s.phaseData, w.s.round), FakesIn(w.s.phaseData, w.s.round), pid, drawing, choice)
            && w.contents.GotVotes? && !Has(w.contents.votes, pid, drawing)
  {
    if w.s.status == InGame && w.s.phaseIdx % 7 == 3 && w.contents.GotVotes? {
      VoteIsTakenIff(w.contents.votes, DrawingsIn(w.s.phaseData, w.s.round), FakesIn(w.s.phaseData, w.s.round), pid, drawing,
                     choice);
    }
  }

  lemma VoteIsTakenIff(got: Collected<Vote>, drawings: Drawings, fakes: Fakes, pid: PlayerID, drawing: DrawingID, choice: string)
    requires DrawingsOk(drawings)
    ensures !VoteRejected(got, drawings, fakes, pid, drawing, choice) <==>
            VoteIsOpen(drawings, fakes, pid, drawing, choice) && !Has(got, pid, drawing)
  {
    if !VoteRejected(got, drawings, fakes, pid, drawing, choice) {
      var a :| a in drawings && drawings[a].id == drawing;
    }
  }

  // ----- rerolls -----

  lemma RerollCounts(w: World, e: Entry, t: World)
    requires e.msg.RerollPrompt?
    ensures Handled(w, e, t) ==> (t != w <==> NotesReroll(w.s, e))
    ensures NotesReroll(w.s, e) <==>
            && w.s.status == InGame && !w.s.paused && w.s.phaseIdx % 7 == 1
            && e.msg.pid in PromptsIn(w.s.phaseData, w.s.round)
            && (w.s.round, e.msg.pid) !in w.s.rerolled && (w.s.round, e.msg.pid) !in w.s.drawn
  {
    if Handled(w, e, t) && NotesReroll(w.s, e) {
      assert |t.sent| == |w.sent| + 1;
    }
  }

  /** What a reroll does: the player's prompt becomes one of the dictionary, and they are told so;
      nothing else on record changes. */
  lemma RerollIssues(run: seq<World>, script: seq<Entry>, i: nat)
    requires IsRun(run, script) && i < |script| && script[i].msg.RerollPrompt? && HasEffect(run, i)
    ensures Reissued(run[i], script[i].msg.pid, run[i + 1])
  {
    assert StepAt(run, script, i);
    RerollReissues(run[i], script[i], run[i + 1]);
  }

  lemma RerollReissues(w: World, e: Entry, t: World)
    requires e.msg.RerollPrompt?
    ensures Handled(w, e, t) && t != w ==> Reissued(w, e.msg.pid, t)
  {
    if Handled(w, e, t) && t != w {
      var prompt :| prompt in w.dict && t == Rerolled(w, e.msg.pid, prompt);
      RerolledIsReissued(w, e.msg.pid, prompt);
    }
  }

  ghost predicate Reissued(w: World, pid: PlayerID, t: World) {
    var was, now := PromptsIn(w.s.phaseData, w.s.round), PromptsIn(t.s.phaseData, w.s.round);
    && pid in was && pid in now && now == was[pid := now[pid]] && now[pid] in w.dict
    && t.sent == w.sent + [PromptIssued(pid, now[pid])] && t.contents == w.contents
    && t.s.phaseData == w.s.phaseData[Key(P.PromptDistribute, w.s.round) := PromptsResult(now)]
  }

  lemma RerolledIsReissued(w: World, pid: PlayerID, prompt: string)
    requires prompt in w.dict && pid in PromptsIn(w.s.phaseData, w.s.round)
    ensures Reissued(w, pid, Rerolled(w, pid, prompt))
  {
  }

  // ----- once a round -----

  /** World `i` is the first of a game. */
  ghost predicate GameBegins(run: seq<World>, i: nat)
    requires 0 < i < |run|
  {
    run[i - 1].s.status == Idle && run[i].s.status == InGame
  }

  /** With message `k` player `p` handed in a drawing, in round `r`. */
  ghost predicate Drew(run: seq<World>, script: seq<Entry>, k: nat, r: nat, p: PlayerID)
    requires k < |script| && |run| == |script| + 1
  {
    script[k].msg.SubmitDrawing? && script[k].msg.pid == p && run[k].s.round == r && HasEffect(run, k)
  }

  /** With message `k` player `p` rerolled their prompt, in round `r`. */
  ghost predicate DidReroll(run: seq<World>, script: seq<Entry>, k: nat, r: nat, p: PlayerID)
    requires k < |script| && |run| == |script| + 1
  {
    script[k].msg.RerollPrompt? && script[k].msg.pid == p && run[k].s.round == r && HasEffect(run, k)
  }

  ghost predicate EverDrew(run: seq<World>, script: seq<Entry>, i: nat, j: nat, r: nat, p: PlayerID)
    requires i <= j < |run| == |script| + 1
  {
    exists k :: i <= k < j && Drew(run, script, k, r, p)
  }

  ghost predicate EverRerolled(run: seq<World>, script: seq<Entry>, i: nat, j: nat, r: nat, p: PlayerID)
    requires i <= j < |run| == |script| + 1
  {
    exists k :: i <= k < j && DidReroll(run, script, k, r, p)
  }

  lemma EverMore(run: seq<World>, script: seq<Entry>, i: nat, j: nat, r: nat, p: PlayerID)
    requires i <= j < |script| && |run| == |script| + 1
    ensures EverDrew(run, script, i, j + 1, r, p) <==> EverDrew(run, script, i, j, r, p) || Drew(run, script, j, r, p)
    ensures EverRerolled(run, script, i, j + 1, r, p) <==>
            EverRerolled(run, script, i, j, r, p) || DidReroll(run, script, j, r, p)
  {
  }

  /** The notes of a game are its history: who has drawn, and who has rerolled, in which round. */
  lemma {:induction false} NotesAreHistory(run: seq<World>, script: seq<Entry>, i: nat, j: nat, r: nat, p: PlayerID)
    requires IsRun(run, script) && 0 < i <= j < |run| && GameBegins(run, i) && OneGame(run, script, i, j)
    ensures (r, p) in run[j].s.drawn <==> EverDrew(run, script, i, j, r, p)
    ensures (r, p) in run[j].s.rerolled <==> EverRerolled(run, script, i, j, r, p)
    decreases j
  {
    if i == j {
      StepStarts(run, script, i - 1, i);
    } else {
      NotesAreHistory(run, script, i, j - 1, r, p);
      OneMoreNote(run, script, j - 1, r, p);
      EverMore(run, script, i, j - 1, r, p);
    }
  }

  lemma OneMoreNote(run: seq<World>, script: seq<Entry>, k: nat, r: nat, p: PlayerID)
    requires IsRun(run, script) && k < |script| && run[k].s.status == InGame && !Resets(run[k].s, script[k])
    ensures (r, p) in run[k + 1].s.drawn <==> (r, p) in run[k].s.drawn || Drew(run, script, k, r, p)
    ensures (r, p) in run[k + 1].s.rerolled <==> (r, p) in run[k].s.rerolled || DidReroll(run, script, k, r, p)
  {
    StepFacts(run, script, k);
    if script[k].msg.SubmitDrawing? {
      DrawingCounts(run[k], script[k], run[k + 1]);
    }
    if script[k].msg.RerollPrompt? {
      RerollCounts(run[k], script[k], run[k + 1]);
    }
  }

  /** A prompt may be rerolled by whoever holds one, while players draw and the room is not paused,
      once a round and only before handing in a drawing. A default drawing filed for an absent
      player does not count as theirs. */
  lemma RerollTakesEffectIff(run: seq<World>, script: seq<Entry>, i: nat, j: nat)
    requires IsRun(run, script) && 0 < i <= j < |script| && GameBegins(run, i) && OneGame(run, script, i, j)
    requires script[j].msg.RerollPrompt?
    ensures var s, pid := run[j].s, script[j].msg.pid;
            HasEffect(run, j) <==>
            && s.status == InGame && !s.paused && s.phaseIdx % 7 == 1 && pid in PromptsIn(s.phaseData, s.round)
            && !EverRerolled(run, script, i, j, s.round, pid) && !EverDrew(run, script, i, j, s.round, pid)
  {
    StepFacts(run, script, j);
    RerollCounts(run[j], script[j], run[j + 1]);
    NotesAreHistory(run, script, i, j, run[j].s.round, script[j].msg.pid);
  }
}
