/** The browser's view of a round: a pure reducer over the broadcast events, and the two
    values its screens derive from it. */
module Client {
  import opened Prelude
  import opened Game
  import opened Scores
  import opened RevealSteps
  import P = Phases

  datatype Shown = Shown(deltas: Deltas, awards: seq<Award>)

  datatype View = View(
    round: nat,
    phase: string,
    drawings: Drawings,
    ballot: map<DrawingID, seq<VotingChoice>>,
    revealed: seq<DrawingReveal>,
    eliminated: map<DrawingID, seq<string>>,
    finals: map<DrawingID, Shown>,
    current: Option<DrawingID>,
    lastDeltas: Option<Deltas>,
    scores: Deltas)

  const INITIAL: View := View(0, "", map[], map[], [], map[], map[], None, None, map[])

  /** The first revealed drawing whose points are not out yet. */
  function FirstOpen(revealed: seq<DrawingReveal>, finals: map<DrawingID, Shown>): Option<DrawingID> {
    if revealed == [] then None
    else if revealed[0].drawing !in finals then Some(revealed[0].drawing)
    else FirstOpen(revealed[1..], finals)
  }

  function Reduce(v: View, ev: Event): View {
    match ev
    case PhaseChange(phase, round) =>
      var reset := if P.KindName(P.PromptDistribute) <= phase
                   then v.(drawings := map[], ballot := map[], revealed := [], eliminated := map[], finals := map[],
                           current := None, lastDeltas := None)
                   else v;
      var focus := FirstOpen(v.revealed, v.finals);
      var led := if P.KindName(P.Leaderboard) <= phase
                 then reset.(current := if focus.Some? then focus
                                        else if v.revealed != [] then Some(v.revealed[0].drawing) else None)
                 else reset;
      led.(phase := phase, round := round)
    case PromptIssued(_, _) => v
    case DrawingsShown(drawings) => v.(drawings := drawings)
    case BallotShown(ballot) => v.(ballot := ballot)
    case Revealed(dr) => v.(revealed := v.revealed + [dr])
    case RevealStep(step) =>
      var w := v.(current := if step.drawing != "" then Some(step.drawing) else v.current);
      if step.Eliminate? then
        var prior := ListAt(v.eliminated, step.drawing);
        if step.choice == "" || step.choice in prior then w
        else w.(eliminated := v.eliminated[step.drawing := prior + [step.choice]])
      else
        w.(finals := v.finals[step.drawing := Shown(step.deltas, step.awards)])
    case RoundResult(deltas, totals) => v.(lastDeltas := Some(deltas), scores := totals)
    case GameEnd(scores) => v.(scores := scores, phase := "game_end")
    case StateUpdate(phase, round, scores) => v.(phase := phase, round := round, scores := scores)
  }

  function ReduceAll(v: View, events: seq<Event>): View {
    if events == [] then v else Reduce(ReduceAll(v, events[..|events| - 1]), events[|events| - 1])
  }

  lemma ReduceMore(v: View, events: seq<Event>, ev: Event)
    ensures ReduceAll(v, events + [ev]) == Reduce(ReduceAll(v, events), ev)
  {
    assert (events + [ev])[..|events|] == events;
  }

  lemma {:induction false} ReduceAllAppend(v: View, a: seq<Event>, b: seq<Event>)
    ensures ReduceAll(v, a + b) == ReduceAll(ReduceAll(v, a), b)
  {
    if b == [] {
      assert a + b == a;
    } else {
      var init, last := b[..|b| - 1], b[|b| - 1];
      assert a + b == (a + init) + [last];
      ReduceMore(v, a + init, last);
      ReduceAllAppend(v, a, init);
    }
  }

  /** Whether the leader's button says "start next round". */
  ghost predicate AllRevealed(v: View) {
    v.revealed != [] && forall r :: r in v.revealed ==> r.drawing in v.finals
  }

  /** The running total a player sees on the round leaderboard. */
  ghost function Running(revealed: seq<DrawingReveal>, finals: map<DrawingID, Shown>, p: PlayerID): int {
    if revealed == [] then 0
    else
      var last := revealed[|revealed| - 1];
      Running(revealed[..|revealed| - 1], finals, p) +
      if last.drawing in finals then At(finals[last.drawing].deltas, p) else 0
  }

  // ----- replaying the reveal queue -----

  /** The choices of drawing `d` greyed out by `steps`, in order. */
  ghost function EliminatedIn(steps: seq<Step>, d: DrawingID): seq<string> {
    if steps == [] then []
    else
      var last := steps[|steps| - 1];
      EliminatedIn(steps[..|steps| - 1], d) + if last.Eliminate? && last.drawing == d then [last.choice] else []
  }

  /** The view holds exactly what `steps` announced. */
  ghost predicate HasReplayed(v: View, steps: seq<Step>) {
    && (forall d :: ListAt(v.eliminated, d) == EliminatedIn(steps, d))
    && (forall d :: d in v.finals ==> exists s :: s in steps && s.Final? && s.drawing == d)
    && (forall s :: s in steps && s.Final? ==>
                      s.drawing in v.finals && v.finals[s.drawing] == Shown(s.deltas, s.awards))
  }

  lemma {:induction false} EliminatedComesFromStep(steps: seq<Step>, d: DrawingID, c: string)
    requires c in EliminatedIn(steps, d)
    ensures Eliminate(d, c) in steps
  {
    var init, last := steps[..|steps| - 1], steps[|steps| - 1];
    if last != Eliminate(d, c) {
      EliminatedComesFromStep(init, d, c);
    }
  }

  lemma EliminatedSnoc(steps: seq<Step>, s: Step, d: DrawingID)
    ensures EliminatedIn(steps + [s], d) ==
            EliminatedIn(steps, d) + if s.Eliminate? && s.drawing == d then [s.choice] else []
  {
    assert (steps + [s])[..|steps|] == steps;
  }

  ghost predicate NonEmptyIds(rr: Reveals) {
    forall d, c :: d in rr && IsFakeOf(rr[d], c) ==> c != ""
  }

  lemma NotYetEliminated(q: seq<Step>, i: nat, rr: Reveals)
    requires IsQueue(q, rr.Keys, rr) && i < |q| && q[i].Eliminate?
    ensures q[i].choice !in EliminatedIn(q[..i], q[i].drawing)
  {
    forall j | 0 <= j < i
      ensures q[j] != q[i]
    {
      QueueHasNoRepeats(q, rr.Keys, rr, j, i);
    }
    if q[i].choice in EliminatedIn(q[..i], q[i].drawing) {
      EliminatedComesFromStep(q[..i], q[i].drawing, q[i].choice);
    }
  }

  lemma ReplayEliminate(v: View, q: seq<Step>, i: nat, rr: Reveals)
    requires IsQueue(q, rr.Keys, rr) && NonEmptyIds(rr) && i < |q| && q[i].Eliminate?
    requires HasReplayed(v, q[..i])
    ensures HasReplayed(Reduce(v, RevealStep(q[i])), q[..i + 1])
  {
    var s, done := q[i], q[..i];
    var w := Reduce(v, RevealStep(s));
    assert q[..i + 1] == done + [s];
    assert s in q && StepOk(s, rr);
    assert s.choice !in EliminatedIn(done, s.drawing) by {
      NotYetEliminated(q, i, rr);
    }
    OneMoreEliminated(v, w, done, s);
  }

  lemma OneMoreEliminated(v: View, w: View, done: seq<Step>, s: Step)
    requires HasReplayed(v, done) && s.Eliminate? && w.finals == v.finals
    requires w.eliminated == v.eliminated[s.drawing := ListAt(v.eliminated, s.drawing) + [s.choice]]
    ensures HasReplayed(w, done + [s])
  {
    forall d
      ensures ListAt(w.eliminated, d) == EliminatedIn(done + [s], d)
    {
      EliminatedSnoc(done, s, d);
    }
    forall d | d in w.finals
      ensures exists t :: t in done + [s] && t.Final? && t.drawing == d
    {
      var t :| t in done && t.Final? && t.drawing == d;
      assert t in done + [s];
    }
  }

  lemma ReplayFinal(v: View, q: seq<Step>, i: nat, rr: Reveals)
    requires IsQueue(q, rr.Keys, rr) && i < |q| && q[i].Final?
    requires HasReplayed(v, q[..i])
    ensures HasReplayed(Reduce(v, RevealStep(q[i])), q[..i + 1])
  {
    var s, done := q[i], q[..i];
    var w := Reduce(v, RevealStep(s));
    assert q[..i + 1] == done + [s];
    forall j | 0 <= j < i && q[j].Final?
      ensures q[j].drawing != s.drawing
    {
      QueueHasNoRepeats(q, rr.Keys, rr, j, i);
    }
    OneMoreFinal(v, w, done, s);
  }

  lemma OneMoreFinal(v: View, w: View, done: seq<Step>, s: Step)
    requires HasReplayed(v, done) && s.Final?
    requires w.finals == v.finals[s.drawing := Shown(s.deltas, s.awards)]
    requires forall t :: t in done && t.Final? ==> t.drawing != s.drawing
    requires w.eliminated == v.eliminated
    ensures HasReplayed(w, done + [s])
  {
    forall d
      ensures ListAt(w.eliminated, d) == EliminatedIn(done + [s], d)
    {
      EliminatedSnoc(done, s, d);
    }
    assert s in done + [s];
    forall d | d in w.finals
      ensures exists t :: t in done + [s] && t.Final? && t.drawing == d
    {
      if d != s.drawing {
        var t :| t in done && t.Final? && t.drawing == d;
        assert t in done + [s];
      }
    }
  }

  /** The next frame of the queue moves the view on by exactly that step: the guard against
      duplicates never drops one, and no finished drawing is overwritten. */
  lemma ReplayStep(v: View, q: seq<Step>, i: nat, rr: Reveals)
    requires IsQueue(q, rr.Keys, rr) && NonEmptyIds(rr) && i < |q|
    requires HasReplayed(v, q[..i])
    ensures HasReplayed(Reduce(v, RevealStep(q[i])), q[..i + 1])
  {
    if q[i].Eliminate? {
      ReplayEliminate(v, q, i, rr);
    } else {
      ReplayFinal(v, q, i, rr);
    }
  }

  ghost function IdsOfReveals(revealed: seq<DrawingReveal>): (ids: seq<DrawingID>)
    ensures |ids| == |revealed| && forall i :: 0 <= i < |ids| ==> ids[i] == revealed[i].drawing
  {
    seq(|revealed|, i requires 0 <= i < |revealed| => revealed[i].drawing)
  }

  /** `ds` lists the reveals of a round, each once, in some order. */
  ghost predicate AreReveals(ds: seq<DrawingReveal>, rr: Reveals) {
    && Enumerates(IdsOfReveals(ds), rr.Keys)
    && forall r :: r in ds ==> r.drawing in rr && rr[r.drawing] == r
  }

  /** The client was sent each drawing's reveal once. */
  ghost predicate HoldsRound(v: View, rr: Reveals) {
    AreReveals(v.revealed, rr)
  }

  lemma NotAllRevealed(v: View, q: seq<Step>, i: nat, rr: Reveals)
    requires IsQueue(q, rr.Keys, rr) && i < |q|
    requires HoldsRound(v, rr) && HasReplayed(v, q[..i])
    ensures !AllRevealed(v)
  {
    QueueEndsWithFinal(q, rr.Keys, rr);
    var last := q[|q| - 1];
    assert last in q && last.drawing in IdsOfReveals(v.revealed);
    var k :| 0 <= k < |v.revealed| && IdsOfReveals(v.revealed)[k] == last.drawing;
    assert v.revealed[k] in v.revealed && v.revealed[k].drawing == last.drawing;
    forall s | s in q[..i] && s.Final?
      ensures s.drawing != last.drawing
    {
      var j :| 0 <= j < i && q[j] == s;
      QueueHasNoRepeats(q, rr.Keys, rr, j, |q| - 1);
    }
  }

  lemma AllShownIsAllRevealed(v: View, q: seq<Step>, rr: Reveals)
    requires IsQueue(q, rr.Keys, rr) && HoldsRound(v, rr) && rr != map[] && HasReplayed(v, q)
    ensures AllRevealed(v)
  {
    var d :| d in rr;
    assert d in IdsOfReveals(v.revealed);
    forall r | r in v.revealed
      ensures r.drawing in v.finals
    {
      var s :| s in q && s.Final? && s.drawing == r.drawing;
    }
  }

  /** The button offers the next round exactly when the whole queue has been shown. */
  lemma AllRevealedIff(v: View, q: seq<Step>, i: nat, rr: Reveals)
    requires IsQueue(q, rr.Keys, rr) && i <= |q|
    requires HoldsRound(v, rr) && rr != map[] && HasReplayed(v, q[..i])
    ensures AllRevealed(v) <==> i == |q|
  {
    if i < |q| {
      NotAllRevealed(v, q, i, rr);
    } else {
      assert q[..i] == q;
      AllShownIsAllRevealed(v, q, rr);
    }
  }

  lemma {:induction false} RunningIsPoints(revealed: seq<DrawingReveal>, finals: map<DrawingID, Shown>, rr: Reveals, p: PlayerID)
    requires forall r :: r in revealed ==>
                           r.drawing in rr && r.drawing in finals
                           && At(finals[r.drawing].deltas, p) == DrawingPoints(rr[r.drawing], p)
    ensures Running(revealed, finals, p) == PointsOver(rr, IdsOfReveals(revealed), p)
  {
    if revealed == [] {
      assert IdsOfReveals(revealed) == [];
    } else {
      var init, last := revealed[..|revealed| - 1], revealed[|revealed| - 1];
      RunningIsPoints(init, finals, rr, p);
      assert IdsOfReveals(revealed) == IdsOfReveals(init) + [last.drawing];
      PointsOverSnoc(rr, IdsOfReveals(init), last.drawing, p);
    }
  }

  /** The two scorers agree on the screen: once everything is revealed, each player's running
      total is the delta the server announced for the round. */
  lemma RunningTotalIsRoundDelta(v: View, q: seq<Step>, rr: Reveals, deltas: Deltas, p: PlayerID)
    requires IsQueue(q, rr.Keys, rr) && HoldsRound(v, rr) && HasReplayed(v, q)
    requires IsRoundScore(rr, deltas)
    ensures Running(v.revealed, v.finals, p) == At(deltas, p)
  {
    forall r | r in v.revealed
      ensures r.drawing in v.finals && At(v.finals[r.drawing].deltas, p) == DrawingPoints(rr[r.drawing], p)
    {
      var s :| s in q && s.Final? && s.drawing == r.drawing;
      assert StepOk(s, rr);
    }
    RunningIsPoints(v.revealed, v.finals, rr, p);
    RoundPointsAre(rr, IdsOfReveals(v.revealed), p);
  }
}
