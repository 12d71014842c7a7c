/** From the messages of a run to the drawings and fakes on record: what players hand in is kept as
    they handed it in, and nothing else is filed but the defaults of absent players and the
    generated fakes. */
module FilingsInRuns {
  import opened Prelude
  import opened Text
  import opened Game
  import opened Collectors
  import opened RoundCollectors
  import opened Records
  import opened RoomInvariants
  import opened RoomPlay
  import opened Steps
  import opened Runs
  import opened WholeRuns
  import opened SeatsInRuns
  import opened RoundsInRuns
  import opened Permissions
  import P = Phases

  // ----- drawings are kept -----

  ghost predicate HoldsDrawing(c: Contents, d: Drawing) {
    c.GotDrawings? && d.author in c.items && c.items[d.author] == d
  }

  ghost predicate DrawingOnRecord(data: PhaseData, r: nat, d: Drawing) {
    d.author in DrawingsIn(data, r) && DrawingsIn(data, r)[d.author] == d
  }

  /** A drawing handed in in phase `idx` is in the collector, or on record once that phase is over. */
  ghost predicate DrawingKept(w: World, idx: nat, d: Drawing) {
    if w.s.status == InGame && w.s.phaseIdx == idx then HoldsDrawing(w.contents, d)
    else w.s.phaseIdx > idx && DrawingOnRecord(w.s.phaseData, P.RoundAt(idx), d)
  }

  /** The prompt that player `p` holds. */
  ghost function PromptOf(s: State, p: PlayerID): Option<string> {
    var prompts := PromptsIn(s.phaseData, s.round);
    if p in prompts then Some(prompts[p]) else None
  }

  lemma DrawingSurvives(w: World, e: Entry, t: World, d: Drawing)
    requires CollectorMoves(w, e, t) && P.KindAt(w.s.phaseIdx) == P.DrawingSubmit
    requires t.s.phaseIdx > w.s.phaseIdx || (t.s.status == InGame && t.s.phaseIdx == w.s.phaseIdx)
    requires HoldsDrawing(w.contents, d)
    ensures DrawingKept(t, w.s.phaseIdx, d)
  {
    var c :| Received(w, e, c) && if SamePhase(w, t) then t.contents == c else LeftBehind(w, c, t);
    ReceivedKeeps(w, e, c);
  }

  lemma DrawingIsTakenIn(w: World, e: Entry, t: World) returns (d: Drawing)
    requires CollectorMoves(w, e, t) && NotesDrawing(w, e)
    requires t.s.phaseIdx > w.s.phaseIdx || (t.s.status == InGame && t.s.phaseIdx == w.s.phaseIdx)
    ensures d.author == e.msg.pid && d.id !in w.issued && PromptOf(w.s, e.msg.pid) == Some(d.prompt)
    ensures DrawingKept(t, w.s.phaseIdx, d)
  {
    var c :| Received(w, e, c) && if SamePhase(w, t) then t.contents == c else LeftBehind(w, c, t);
    d := c.items[e.msg.pid];
  }

  /** A drawing that was taken stays, under a new id and with the prompt that its author held at
      that moment: in the collector while the phase lasts, then on record. */
  lemma AcceptedDrawingIsKept(run: seq<World>, script: seq<Entry>, k: nat, j: nat) returns (d: Drawing)
    requires IsRun(run, script) && k < j < |run| && OneGame(run, script, k, j)
    requires script[k].msg.SubmitDrawing? && HasEffect(run, k)
    ensures d.author == script[k].msg.pid && d.id !in run[k].issued && PromptOf(run[k].s, d.author) == Some(d.prompt)
    ensures DrawingKept(run[j], run[k].s.phaseIdx, d)
  {
    assert run[k].s.status == InGame && !Resets(run[k].s, script[k]);
    StepFacts(run, script, k);
    DrawingCounts(run[k], script[k], run[k + 1]);
    GameStep(run, script, k, k + 1);
    d := DrawingIsTakenIn(run[k], script[k], run[k + 1]);
    KeptDrawingStays(run, script, k + 1, j, run[k].s.phaseIdx, d);
  }

  lemma {:induction false} KeptDrawingStays(run: seq<World>, script: seq<Entry>, i: nat, j: nat, idx: nat, d: Drawing)
    requires IsRun(run, script) && i <= j < |run| && OneGame(run, script, i, j) && DrawingKept(run[i], idx, d)
    ensures DrawingKept(run[j], idx, d)
    decreases j
  {
    if i < j {
      KeptDrawingStays(run, script, i, j - 1, idx, d);
      assert run[j - 1].s.status == InGame && !Resets(run[j - 1].s, script[j - 1]);
      GameStep(run, script, j - 1, j);
      if run[j - 1].s.phaseIdx == idx {
        DrawingsAreCollected(run, script, j - 1);
        DrawingSurvives(run[j - 1], script[j - 1], run[j], d);
      } else {
        DrawingStaysOnRecord(run[j - 1].s, run[j].s, idx, d);
      }
    }
  }

  lemma DrawingsAreCollected(run: seq<World>, script: seq<Entry>, j: nat)
    requires IsRun(run, script) && j < |run| && run[j].s.status == InGame && run[j].contents.GotDrawings?
    ensures P.KindAt(run[j].s.phaseIdx) == P.DrawingSubmit
  {
    AlwaysGood(run, script, j);
  }

  lemma DrawingStaysOnRecord(a: State, b: State, idx: nat, d: Drawing)
    requires KeepsRecord(a, b) && DrawingOnRecord(a.phaseData, P.RoundAt(idx), d)
    ensures DrawingOnRecord(b.phaseData, P.RoundAt(idx), d)
  {
    assert ResultAt(a.phaseData, P.DrawingSubmit, P.RoundAt(idx)).Some?;
  }

  // ----- every drawing was handed in, or is a default -----

  /** Message `k` brought player `p`'s drawing: they handed it in, or it is the default for a player
      who was absent when a heartbeat came. */
  ghost predicate Filed(run: seq<World>, script: seq<Entry>, k: nat, p: PlayerID)
    requires k < |script| && |run| == |script| + 1
  {
    || (script[k].msg.SubmitDrawing? && script[k].msg.pid == p && HasEffect(run, k))
    || (script[k].msg.Tick? && Absent(run[k].s, p, script[k].now))
  }

  lemma NewDrawingIsFiled(w: World, e: Entry, c: Contents, p: PlayerID)
    requires Received(w, e, c) && w.contents.GotDrawings? && c.GotDrawings? && p in c.items && p !in w.contents.items
    ensures (NotesDrawing(w, e) && e.msg.pid == p) || (e.msg.Tick? && Absent(w.s, p, e.now))
    ensures c.items[p].author == p && PromptOf(w.s, p) == Some(c.items[p].prompt)
  {
  }

  lemma DrawingBeginsEmpty(run: seq<World>, script: seq<Entry>, i: nat)
    requires IsRun(run, script) && 0 < i < |run| && PhaseBegins(run, i) && P.KindAt(run[i].s.phaseIdx) == P.DrawingSubmit
    ensures run[i].contents == GotDrawings(map[])
  {
    if run[i - 1].s.status == Idle {
      StepStarts(run, script, i - 1, i);
    } else {
      StepIsPlay(run, script, i - 1, i);
    }
  }

  /** Every drawing in the collector was filed by a message of the phase, and has the prompt that
      its author held when that message came. */
  lemma {:induction false} HeldDrawingWasFiled(run: seq<World>, script: seq<Entry>, i: nat, j: nat, p: PlayerID)
    returns (k: nat)
    requires IsRun(run, script) && 0 < i <= j < |run| && PhaseBegins(run, i) && OnePhase(run, script, i, j)
    requires run[j].contents.GotDrawings? && p in run[j].contents.items
    ensures i <= k < j && Filed(run, script, k, p) && PromptOf(run[k].s, p) == Some(run[j].contents.items[p].prompt)
    decreases j, 1
  {
    DrawingsAreCollected(run, script, j);
    if i == j {
      DrawingBeginsEmpty(run, script, i);
      assert false;
    } else {
      SamePhaseStep(run, script, i, j);
      GameStep(run, script, j - 1, j);
      k := ReceivedDrawingWasFiled(run, script, i, j - 1, run[j].contents, p);
    }
  }

  /** ... and so was every drawing that the collector has after message `j`. */
  lemma {:induction false} ReceivedDrawingWasFiled(run: seq<World>, script: seq<Entry>, i: nat, j: nat, c: Contents, p: PlayerID)
    returns (k: nat)
    requires IsRun(run, script) && 0 < i <= j < |script| && PhaseBegins(run, i) && OnePhase(run, script, i, j)
    requires P.KindAt(run[i].s.phaseIdx) == P.DrawingSubmit && Received(run[j], script[j], c) && c.GotDrawings? && p in c.items
    ensures i <= k <= j && Filed(run, script, k, p) && PromptOf(run[k].s, p) == Some(c.items[p].prompt)
    decreases j, 2
  {
    DrawingCollects(run, script, j);
    ReceivedKeeps(run[j], script[j], c);
    if p in run[j].contents.items {
      k := HeldDrawingWasFiled(run, script, i, j, p);
    } else {
      k := j;
      NewDrawingIsFiled(run[j], script[j], c, p);
      if script[j].msg.SubmitDrawing? {
        DrawingHasEffect(run, script, j);
      }
    }
  }

  lemma DrawingCollects(run: seq<World>, script: seq<Entry>, j: nat)
    requires IsRun(run, script) && j < |run| && run[j].s.status == InGame && P.KindAt(run[j].s.phaseIdx) == P.DrawingSubmit
    ensures run[j].contents.GotDrawings?
  {
    AlwaysGood(run, script, j);
  }

  lemma DrawingHasEffect(run: seq<World>, script: seq<Entry>, k: nat)
    requires IsRun(run, script) && k < |script| && script[k].msg.SubmitDrawing?
    ensures NotesDrawing(run[k], script[k]) <==> HasEffect(run, k)
  {
    StepFacts(run, script, k);
    DrawingCounts(run[k], script[k], run[k + 1]);
  }

  /** The message with which a phase that is over was left. */
  lemma {:induction false} PhaseEnds(run: seq<World>, script: seq<Entry>, i: nat, j: nat) returns (k: nat)
    requires IsRun(run, script) && i < j < |run| && run[i].s.status == InGame && OneGame(run, script, i, j)
    requires run[j].s.phaseIdx > run[i].s.phaseIdx
    ensures i <= k < j && OnePhase(run, script, i, k) && !Resets(run[k].s, script[k])
    ensures run[k + 1].s.phaseIdx > run[k].s.phaseIdx == run[i].s.phaseIdx
    decreases j
  {
    k := j - 1;
    OnlyForward(run, script, i, k);
    if run[k].s.phaseIdx > run[i].s.phaseIdx {
      k := PhaseEnds(run, script, i, k);
    } else {
      StillInPhase(run, script, i, k);
    }
  }

  /** What is on record, apart from prompts, stays for the rest of the game. */
  lemma RecordLasts(run: seq<World>, script: seq<Entry>, i: nat, j: nat, kind: P.Kind, r: nat)
    requires IsRun(run, script) && i <= j < |run| && OneGame(run, script, i, j) && kind != P.PromptDistribute
    requires ResultAt(run[i].s.phaseData, kind, r).Some?
    ensures ResultAt(run[j].s.phaseData, kind, r) == ResultAt(run[i].s.phaseData, kind, r)
  {
    if i < j {
      GameOnlyGrows(run, script, i, j);
    }
  }

  /** Leaving a phase stores what its collector has then, and that stays on record. */
  lemma PhaseLeaves(run: seq<World>, script: seq<Entry>, i: nat, j: nat) returns (k: nat, c: Contents)
    requires IsRun(run, script) && i < j < |run| && run[i].s.status == InGame && OneGame(run, script, i, j)
    requires run[j].s.phaseIdx > run[i].s.phaseIdx && P.KindAt(run[i].s.phaseIdx) != P.PromptDistribute
    ensures i <= k < j && OnePhase(run, script, i, k) && run[k].s.phaseIdx == run[i].s.phaseIdx
    ensures Received(run[k], script[k], c) && LeftBehind(run[k], c, run[j])
  {
    k := PhaseEnds(run, script, i, j);
    GameStep(run, script, k, k + 1);
    c :| Received(run[k], script[k], c) && LeftBehind(run[k], c, run[k + 1]);
    RecordLasts(run, script, k + 1, j, P.KindAt(run[k].s.phaseIdx), P.RoundAt(run[k].s.phaseIdx));
  }

  /** Every drawing that a finished drawing phase has left on record was handed in, or is the
      default of an absent player, and has the prompt that its author held at that moment. */
  lemma RecordedDrawingWasFiled(run: seq<World>, script: seq<Entry>, i: nat, j: nat, p: PlayerID) returns (k: nat)
    requires IsRun(run, script) && 0 < i < j < |run| && PhaseBegins(run, i) && P.KindAt(run[i].s.phaseIdx) == P.DrawingSubmit
    requires OneGame(run, script, i, j) && run[j].s.phaseIdx > run[i].s.phaseIdx
    requires p in DrawingsIn(run[j].s.phaseData, P.RoundAt(run[i].s.phaseIdx))
    ensures i <= k < j && Filed(run, script, k, p)
    ensures PromptOf(run[k].s, p) == Some(DrawingsIn(run[j].s.phaseData, P.RoundAt(run[i].s.phaseIdx))[p].prompt)
  {
    var c;
    k, c := PhaseLeaves(run, script, i, j);
    DrawingCollects(run, script, k);
    ReceivedKeeps(run[k], script[k], c);
    k := ReceivedDrawingWasFiled(run, script, i, k, c, p);
  }

  // ----- fakes are kept -----

  ghost predicate HoldsFake(c: Contents, f: FakePrompt) {
    c.GotFakes? && Has(c.fakes, f.author, f.drawing) && c.fakes[f.author][f.drawing] == f
  }

  ghost predicate FakeOnRecord(data: PhaseData, r: nat, f: FakePrompt) {
    f in ListAt(FakesIn(data, r), f.drawing)
  }

  ghost predicate FakeKept(w: World, idx: nat, f: FakePrompt) {
    if w.s.status == InGame && w.s.phaseIdx == idx then HoldsFake(w.contents, f)
    else w.s.phaseIdx > idx && FakeOnRecord(w.s.phaseData, P.RoundAt(idx), f)
  }

  /** Players are writing fakes for the drawings of their round, `f` among them. */
  ghost predicate WritesFor(w: World, f: FakePrompt) {
    && P.KindAt(w.s.phaseIdx) == P.FakePromptSubmit && w.s.round == P.RoundAt(w.s.phaseIdx)
    && f.drawing in DrawingIds(DrawingsIn(w.s.phaseData, w.s.round))
  }

  lemma HeldFakeIsStored(w: World, c: Contents, t: World, f: FakePrompt)
    requires LeftBehind(w, c, t) && WritesFor(w, f) && HoldsFake(c, f)
    ensures FakeOnRecord(t.s.phaseData, P.RoundAt(w.s.phaseIdx), f)
  {
    var drawings, fakes := DrawingsIn(w.s.phaseData, w.s.round), FakesIn(t.s.phaseData, P.RoundAt(w.s.phaseIdx));
    var decoys := DecoysOf(ContextOf(w.s, w.dict));
    assert IsFakesResult(fakes, c.fakes, drawings, decoys);
    var a :| a in drawings && drawings[a].id == f.drawing;
    HeldFakeIsListed(fakes[f.drawing], c.fakes, drawings[a], decoys, f);
  }

  lemma HeldFakeIsListed(list: seq<FakePrompt>, got: Collected<FakePrompt>, d: Drawing, decoys: Decoys, f: FakePrompt)
    requires IsFakeList(list, got, d, decoys) && f.drawing == d.id && Has(got, f.author, f.drawing)
    requires got[f.author][f.drawing] == f
    ensures f in list
  {
    var k, order :| 0 <= k <= |list| && Lists(list[..k], got, d.id, order) && AreGenerated(list[k..], d, decoys);
    assert f.author in Submitters(got, d.id);
    var i :| 0 <= i < |order| && order[i] == f.author;
    assert list[..k][i] == f;
  }

  lemma FakeSurvives(w: World, e: Entry, t: World, f: FakePrompt)
    requires CollectorMoves(w, e, t) && WritesFor(w, f) && HoldsFake(w.contents, f)
    requires t.s.phaseIdx > w.s.phaseIdx || (t.s.status == InGame && t.s.phaseIdx == w.s.phaseIdx)
    ensures FakeKept(t, w.s.phaseIdx, f)
  {
    var c :| Received(w, e, c) && if SamePhase(w, t) then t.contents == c else LeftBehind(w, c, t);
    ReceivedKeeps(w, e, c);
    if !SamePhase(w, t) {
      HeldFakeIsStored(w, c, t, f);
    }
  }

  lemma FakeIsTakenIn(w: World, e: Entry, t: World) returns (f: FakePrompt)
    requires CollectorMoves(w, e, t) && e.msg.SubmitFake? && TakesFake(w, e.msg.pid, e.msg.drawing, e.msg.text)
    requires w.s.round == P.RoundAt(w.s.phaseIdx)
    requires t.s.phaseIdx > w.s.phaseIdx || (t.s.status == InGame && t.s.phaseIdx == w.s.phaseIdx)
    ensures f == FakePrompt(f.id, e.msg.drawing, e.msg.pid, TrimSpace(e.msg.text)) && f.id !in w.issued
    ensures FakeKept(t, w.s.phaseIdx, f)
  {
    var c :| Received(w, e, c) && if SamePhase(w, t) then t.contents == c else LeftBehind(w, c, t);
    f := c.fakes[e.msg.pid][e.msg.drawing];
    if !SamePhase(w, t) {
      HeldFakeIsStored(w, c, t, f);
    }
  }

  /** A fake that was taken stays, under a new id and in its author's words without the space around
      them: in the collector while the phase lasts, then on record. */
  lemma AcceptedFakeIsKept(run: seq<World>, script: seq<Entry>, k: nat, j: nat) returns (f: FakePrompt)
    requires IsRun(run, script) && k < j < |run| && OneGame(run, script, k, j)
    requires script[k].msg.SubmitFake? && HasEffect(run, k)
    ensures f == FakePrompt(f.id, script[k].msg.drawing, script[k].msg.pid, TrimSpace(script[k].msg.text))
    ensures f.id !in run[k].issued && FakeKept(run[j], run[k].s.phaseIdx, f)
  {
    assert run[k].s.status == InGame && !Resets(run[k].s, script[k]);
    FakeHasEffect(run, script, k);
    RoundOfPhase(run, script, k);
    GameStep(run, script, k, k + 1);
    f := FakeIsTakenIn(run[k], script[k], run[k + 1]);
    KeptFakeStays(run, script, k + 1, j, run[k].s.phaseIdx, f);
  }

  lemma FakeHasEffect(run: seq<World>, script: seq<Entry>, k: nat)
    requires IsRun(run, script) && k < |script| && script[k].msg.SubmitFake?
    ensures TakesFake(run[k], script[k].msg.pid, script[k].msg.drawing, script[k].msg.text) <==> HasEffect(run, k)
  {
    StepFacts(run, script, k);
    FakeCounts(run[k], script[k], run[k + 1]);
  }

  lemma {:induction false} KeptFakeStays(run: seq<World>, script: seq<Entry>, i: nat, j: nat, idx: nat, f: FakePrompt)
    requires IsRun(run, script) && i <= j < |run| && OneGame(run, script, i, j) && FakeKept(run[i], idx, f)
    ensures FakeKept(run[j], idx, f)
    decreases j
  {
    if i < j {
      KeptFakeStays(run, script, i, j - 1, idx, f);
      assert run[j - 1].s.status == InGame && !Resets(run[j - 1].s, script[j - 1]);
      GameStep(run, script, j - 1, j);
      if run[j - 1].s.phaseIdx == idx {
        HeldFakeIsForADrawing(run, script, j - 1, f);
        FakeSurvives(run[j - 1], script[j - 1], run[j], f);
      } else {
        FakeStaysOnRecord(run[j - 1].s, run[j].s, idx, f);
      }
    }
  }

  lemma HeldFakeIsForADrawing(run: seq<World>, script: seq<Entry>, j: nat, f: FakePrompt)
    requires IsRun(run, script) && j < |run| && run[j].s.status == InGame && HoldsFake(run[j].contents, f)
    ensures WritesFor(run[j], f)
  {
    AlwaysGood(run, script, j);
    HeldFakeIsOk(run[j], f);
  }

  lemma HeldFakeIsOk(w: World, f: FakePrompt)
    requires Resting(w) && HoldsFake(w.contents, f)
    ensures WritesFor(w, f)
  {
    assert FakeOk(f, f.author, f.drawing, DrawingsIn(w.s.phaseData, w.s.round));
  }

  lemma FakeStaysOnRecord(a: State, b: State, idx: nat, f: FakePrompt)
    requires KeepsRecord(a, b) && FakeOnRecord(a.phaseData, P.RoundAt(idx), f)
    ensures FakeOnRecord(b.phaseData, P.RoundAt(idx), f)
  {
    assert ResultAt(a.phaseData, P.FakePromptSubmit, P.RoundAt(idx)).Some?;
  }

  // ----- every fake was written, or is a default, or was generated -----

  /** Message `k` brought fake `f`: its author submitted the text, or it is the "..." for an author
      who was absent when a heartbeat came. */
  ghost predicate Wrote(run: seq<World>, script: seq<Entry>, k: nat, f: FakePrompt)
    requires k < |script| && |run| == |script| + 1
  {
    var m := script[k].msg;
    || (m.SubmitFake? && HasEffect(run, k) && f == FakePrompt(f.id, m.drawing, m.pid, TrimSpace(m.text)))
    || (m.Tick? && f.text == "..." && Absent(run[k].s, f.author, script[k].now))
  }

  ghost predicate WritesNow(w: World, e: Entry, f: FakePrompt) {
    || (e.msg.SubmitFake? && TakesFake(w, e.msg.pid, e.msg.drawing, e.msg.text)
        && f == FakePrompt(f.id, e.msg.drawing, e.msg.pid, TrimSpace(e.msg.text)))
    || (e.msg.Tick? && f.text == "..." && Absent(w.s, f.author, e.now))
  }

  lemma NewFakeIsWritten(w: World, e: Entry, c: Contents, f: FakePrompt)
    requires Received(w, e, c) && w.contents.GotFakes? && HoldsFake(c, f) && !HoldsFake(w.contents, f)
    ensures WritesNow(w, e, f)
  {
    ReceivedKeeps(w, e, c);
    assert !Has(w.contents.fakes, f.author, f.drawing);
  }

  lemma WritingHasEffect(run: seq<World>, script: seq<Entry>, k: nat, f: FakePrompt)
    requires IsRun(run, script) && k < |script| && WritesNow(run[k], script[k], f)
    ensures Wrote(run, script, k, f)
  {
    if script[k].msg.SubmitFake? {
      FakeHasEffect(run, script, k);
    }
  }

  /** A phase of fakes begins with nothing in the collector but what the message that began it, a
      heartbeat, may have put there. */
  lemma FirstFakesAreDefaults(run: seq<World>, script: seq<Entry>, i: nat, f: FakePrompt)
    requires IsRun(run, script) && 0 < i < |run| && PhaseBegins(run, i) && HoldsFake(run[i].contents, f)
    ensures Wrote(run, script, i - 1, f)
  {
    HeldFakeIsForADrawing(run, script, i, f);
    if run[i - 1].s.status == Idle {
      StepStarts(run, script, i - 1, i);
      assert false;
    } else {
      StepIsPlay(run, script, i - 1, i);
      DefaultFirst(run[i - 1], script[i - 1], run[i], f);
    }
  }

  lemma DefaultFirst(w: World, e: Entry, t: World, f: FakePrompt)
    requires Arrives(w, e, t) && t.s.status == InGame && t.s.phaseIdx != w.s.phaseIdx
    requires P.KindAt(t.s.phaseIdx) == P.FakePromptSubmit && HoldsFake(t.contents, f)
    ensures e.msg.Tick? && f.text == "..." && Absent(w.s, f.author, e.now)
  {
    assert StartsWith(w.s, t, e.now);
  }

  /** Every fake in the collector was written by the message that began the phase, or by one since. */
  lemma {:induction false} HeldFakeWasWritten(run: seq<World>, script: seq<Entry>, i: nat, j: nat, f: FakePrompt)
    returns (k: nat)
    requires IsRun(run, script) && 0 < i <= j < |run| && PhaseBegins(run, i) && OnePhase(run, script, i, j)
    requires HoldsFake(run[j].contents, f)
    ensures i - 1 <= k < j && Wrote(run, script, k, f)
    decreases j, 1
  {
    if i == j {
      FirstFakesAreDefaults(run, script, i, f);
      k := i - 1;
    } else {
      HeldFakeIsForADrawing(run, script, j, f);
      SamePhaseStep(run, script, i, j);
      GameStep(run, script, j - 1, j);
      k := ReceivedFakeWasWritten(run, script, i, j - 1, run[j].contents, f);
    }
  }

  lemma {:induction false} ReceivedFakeWasWritten(run: seq<World>, script: seq<Entry>, i: nat, j: nat, c: Contents,
                                                  f: FakePrompt)
    returns (k: nat)
    requires IsRun(run, script) && 0 < i <= j < |script| && PhaseBegins(run, i) && OnePhase(run, script, i, j)
    requires P.KindAt(run[i].s.phaseIdx) == P.FakePromptSubmit && Received(run[j], script[j], c) && HoldsFake(c, f)
    ensures i - 1 <= k <= j && Wrote(run, script, k, f)
    decreases j, 2
  {
    FakesAreCollected(run, script, j);
    if HoldsFake(run[j].contents, f) {
      k := HeldFakeWasWritten(run, script, i, j, f);
    } else {
      k := j;
      NewFakeIsWritten(run[j], script[j], c, f);
      WritingHasEffect(run, script, j, f);
    }
  }

  lemma FakesAreCollected(run: seq<World>, script: seq<Entry>, j: nat)
    requires IsRun(run, script) && j < |run| && run[j].s.status == InGame
    requires P.KindAt(run[j].s.phaseIdx) == P.FakePromptSubmit
    ensures run[j].contents.GotFakes? && run[j].s.round == P.RoundAt(run[j].s.phaseIdx)
    ensures FakesOk(run[j].contents.fakes, DrawingsIn(run[j].s.phaseData, run[j].s.round), run[j].issued)
  {
    AlwaysGood(run, script, j);
  }

  /** What is stored with an author was in the collector. */
  lemma StoredFakeWasHeld(w: World, e: Entry, c: Contents, t: World, f: FakePrompt)
    requires P.KindAt(w.s.phaseIdx) == P.FakePromptSubmit && w.s.round == P.RoundAt(w.s.phaseIdx) && w.contents.GotFakes?
    requires FakesOk(w.contents.fakes, DrawingsIn(w.s.phaseData, w.s.round), w.issued)
    requires Received(w, e, c) && LeftBehind(w, c, t)
    requires FakeOnRecord(t.s.phaseData, w.s.round, f) && f.author != NOBODY
    ensures HoldsFake(c, f)
  {
    ReceivedKeeps(w, e, c);
    var drawings, fakes := DrawingsIn(w.s.phaseData, w.s.round), FakesIn(t.s.phaseData, w.s.round);
    var decoys := DecoysOf(ContextOf(w.s, w.dict));
    assert IsFakesResult(fakes, c.fakes, drawings, decoys);
    var a :| a in drawings && drawings[a].id == f.drawing;
    var p := ListedFakeIsHeld(fakes[f.drawing], c.fakes, drawings[a], decoys, f);
    HeldIsByAuthor(w, e, c, p, f.drawing);
  }

  lemma ListedFakeIsHeld(list: seq<FakePrompt>, got: Collected<FakePrompt>, d: Drawing, decoys: Decoys, f: FakePrompt)
    returns (p: PlayerID)
    requires IsFakeList(list, got, d, decoys) && f in list && f.author != NOBODY
    ensures Has(got, p, d.id) && got[p][d.id] == f
  {
    var k, order :| 0 <= k <= |list| && Lists(list[..k], got, d.id, order) && AreGenerated(list[k..], d, decoys);
    assert list == list[..k] + list[k..] && f !in list[k..];
    var i :| 0 <= i < |order| && list[..k][i] == f;
    p := order[i];
  }

  lemma HeldIsByAuthor(w: World, e: Entry, c: Contents, p: PlayerID, id: DrawingID)
    requires w.contents.GotFakes? && Received(w, e, c) && KeepsItems(w.contents, c) && Has(c.fakes, p, id)
    requires FakesOk(w.contents.fakes, DrawingsIn(w.s.phaseData, w.s.round), w.issued)
    ensures c.fakes[p][id].author == p && c.fakes[p][id].drawing == id
  {
    if Has(w.contents.fakes, p, id) {
      assert FakeOk(w.contents.fakes[p][id], p, id, DrawingsIn(w.s.phaseData, w.s.round));
    }
  }

  /** Every fake with an author that a finished phase of fakes has left on record was submitted in
      these words, or is the "..." of an absent player. */
  lemma RecordedFakeWasWritten(run: seq<World>, script: seq<Entry>, i: nat, j: nat, f: FakePrompt) returns (k: nat)
    requires IsRun(run, script) && 0 < i < j < |run| && PhaseBegins(run, i)
    requires P.KindAt(run[i].s.phaseIdx) == P.FakePromptSubmit
    requires OneGame(run, script, i, j) && run[j].s.phaseIdx > run[i].s.phaseIdx
    requires FakeOnRecord(run[j].s.phaseData, P.RoundAt(run[i].s.phaseIdx), f) && f.author != NOBODY
    ensures i - 1 <= k < j && Wrote(run, script, k, f)
  {
    var c;
    k, c := PhaseLeaves(run, script, i, j);
    FakesAreCollected(run, script, k);
    StoredFakeWasHeld(run[k], script[k], c, run[j], f);
    k := ReceivedFakeWasWritten(run, script, i, k, c, f);
  }

  /** `list` ends in as many generated fakes as configured: texts from the dictionary that differ from
      the prompt and from one another, credited to nobody. All before them have an author. */
  ghost predicate EndsInDecoys(list: seq<FakePrompt>, k: nat, d: Drawing, count: int, dict: seq<string>) {
    && k <= |list| && |list| - k == count
    && (forall m :: 0 <= m < |list| ==> (list[m].author == NOBODY <==> m >= k))
    && (forall m :: k <= m < |list| ==> list[m].text in dict && Normalize(list[m].text) != Normalize(d.prompt))
    && (forall m, n :: k <= m < n < |list| ==> Normalize(list[m].text) != Normalize(list[n].text))
  }

  lemma StoredDecoys(w: World, e: Entry, c: Contents, t: World, a: PlayerID) returns (n: nat)
    requires P.KindAt(w.s.phaseIdx) == P.FakePromptSubmit && w.s.round == P.RoundAt(w.s.phaseIdx) && w.contents.GotFakes?
    requires FakesOk(w.contents.fakes, DrawingsIn(w.s.phaseData, w.s.round), w.issued) && FromSomeone(e.msg)
    requires NOBODY !in w.s.players && w.s.stateSettings.generatedFakeCount >= 0
    requires Received(w, e, c) && LeftBehind(w, c, t) && a in DrawingsIn(w.s.phaseData, w.s.round)
    ensures var d := DrawingsIn(w.s.phaseData, w.s.round)[a];
            EndsInDecoys(ListAt(FakesIn(t.s.phaseData, w.s.round), d.id), n, d, w.s.stateSettings.generatedFakeCount, w.dict)
  {
    ReceivedKeeps(w, e, c);
    var drawings, fakes := DrawingsIn(w.s.phaseData, w.s.round), FakesIn(t.s.phaseData, w.s.round);
    var d, decoys := drawings[a], DecoysOf(ContextOf(w.s, w.dict));
    assert IsFakesResult(fakes, c.fakes, drawings, decoys);
    forall p | Has(c.fakes, p, d.id)
      ensures c.fakes[p][d.id].author == p != NOBODY
    {
      HeldIsByAuthor(w, e, c, p, d.id);
      HeldIsBySomebody(w, e, c, p, d.id);
    }
    n := ListEndsInDecoys(fakes[d.id], c.fakes, d, decoys);
  }

  lemma HeldIsBySomebody(w: World, e: Entry, c: Contents, p: PlayerID, id: DrawingID)
    requires w.contents.GotFakes? && Received(w, e, c) && KeepsItems(w.contents, c) && Has(c.fakes, p, id)
    requires FakesOk(w.contents.fakes, DrawingsIn(w.s.phaseData, w.s.round), w.issued)
    requires FromSomeone(e.msg) && NOBODY !in w.s.players
    ensures p != NOBODY
  {
    if Has(w.contents.fakes, p, id) {
      assert FakeOk(w.contents.fakes[p][id], p, id, DrawingsIn(w.s.phaseData, w.s.round));
    }
  }

  lemma ListEndsInDecoys(list: seq<FakePrompt>, got: Collected<FakePrompt>, d: Drawing, decoys: Decoys) returns (k: nat)
    requires IsFakeList(list, got, d, decoys)
    requires forall p :: Has(got, p, d.id) ==> got[p][d.id].author == p != NOBODY
    ensures EndsInDecoys(list, k, d, decoys.count, decoys.dict)
  {
    var order;
    k, order :| 0 <= k <= |list| && Lists(list[..k], got, d.id, order) && AreGenerated(list[k..], d, decoys);
    forall m | 0 <= m < |list|
      ensures list[m].author == NOBODY <==> m >= k
      ensures m >= k ==> list[m].text in decoys.dict && Normalize(list[m].text) != Normalize(d.prompt)
    {
      if m < k {
        assert list[m] == list[..k][m] && Has(got, order[m], d.id);
      } else {
        assert list[m] == list[k..][m - k] && list[k..][m - k] in list[k..];
      }
    }
    forall m, n | k <= m < n < |list|
      ensures Normalize(list[m].text) != Normalize(list[n].text)
    {
      assert list[m] == list[k..][m - k] && list[n] == list[k..][n - k];
    }
  }

  /** Within a phase the drawings of the round stay as they are. */
  lemma SameRound(run: seq<World>, script: seq<Entry>, i: nat, j: nat)
    requires IsRun(run, script) && i <= j < |run| && OnePhase(run, script, i, j)
    requires P.KindAt(run[i].s.phaseIdx) == P.FakePromptSubmit
    ensures run[j].s.round == run[i].s.round == P.RoundAt(run[i].s.phaseIdx)
    ensures DrawingsIn(run[j].s.phaseData, run[j].s.round) == DrawingsIn(run[i].s.phaseData, run[i].s.round)
    ensures run[j].s.settings == run[i].s.settings && run[j].dict == run[i].dict
  {
    RoundOfPhase(run, script, i);
    RoundOfPhase(run, script, j);
    GameKeepsSettings(run, script, i, j);
    DrawingsAreDone(run, script, i);
    RecordLasts(run, script, i, j, P.DrawingSubmit, run[i].s.round);
  }

  lemma DrawingsAreDone(run: seq<World>, script: seq<Entry>, i: nat)
    requires IsRun(run, script) && i < |run| && run[i].s.status == InGame
    requires P.KindAt(run[i].s.phaseIdx) == P.FakePromptSubmit
    ensures ResultAt(run[i].s.phaseData, P.DrawingSubmit, P.RoundAt(run[i].s.phaseIdx)).Some?
  {
    AlwaysGood(run, script, i);
    var d := StoredAt(run[i].s.phaseData, run[i].s.phaseIdx, run[i].issued, P.DrawingSubmit);
  }

  lemma SettingsInForce(run: seq<World>, script: seq<Entry>, i: nat)
    requires IsRun(run, script) && i < |run| && run[i].s.status == InGame
    ensures run[i].s.stateSettings == run[i].s.settings && run[i].s.settings.generatedFakeCount >= 0
    ensures NOBODY !in run[i].s.players
  {
    AlwaysGood(run, script, i);
  }

  /** A finished phase of fakes leaves each drawing with as many generated fakes as configured. */
  lemma DecoysAreOnRecord(run: seq<World>, script: seq<Entry>, i: nat, j: nat, a: PlayerID) returns (n: nat)
    requires IsRun(run, script) && 0 < i < j < |run| && PhaseBegins(run, i)
    requires P.KindAt(run[i].s.phaseIdx) == P.FakePromptSubmit
    requires OneGame(run, script, i, j) && run[j].s.phaseIdx > run[i].s.phaseIdx
    requires a in DrawingsIn(run[i].s.phaseData, run[i].s.round)
    ensures var d := DrawingsIn(run[i].s.phaseData, run[i].s.round)[a];
            EndsInDecoys(ListAt(FakesIn(run[j].s.phaseData, P.RoundAt(run[i].s.phaseIdx)), d.id), n, d,
                         run[i].s.settings.generatedFakeCount, run[i].dict)
  {
    var k, c := PhaseLeaves(run, script, i, j);
    SameRound(run, script, i, k);
    FakesAreCollected(run, script, k);
    SettingsInForce(run, script, k);
    assert StepAt(run, script, k);
    n := StoredDecoys(run[k], script[k], c, run[j], a);
  }
}
