/** The phases that compute their result from the record and advance at once: prompts, the
    reveal, and scoring. */
module Aggregates {
  import opened Prelude
  import opened Game
  import opened Scores
  import opened Merge
  import opened Conservation
  import opened RoundCollectors
  import opened Client
  import opened Records
  import opened RoomInvariants

  // ----- prompts -----

  method ActivePlayers(players: Players) returns (active: seq<PlayerID>)
    ensures Enumerates(active, ConnectedSet(players))
  {
    active := [];
    var ids := AnyOrder(players.Keys);
    for i := 0 to |ids|
      invariant forall p :: p in active <==> p in ids[..i] && players[p].connected
      invariant forall j, k :: 0 <= j < k < |active| ==> active[j] != active[k]
    {
      assert ids[..i + 1] == ids[..i] + [ids[i]];
      assert ids[i] !in ids[..i];
      if players[ids[i]].connected {
        active := active + [ids[i]];
      }
    }
    assert ids[..|ids|] == ids;
  }

  /** Everyone has a prompt of their own from the dictionary. */
  ghost predicate ArePrompts(prompts: Prompts, dict: seq<string>) {
    && (forall p :: p in prompts ==> prompts[p] in dict)
    && (forall p, q :: p in prompts && q in prompts && prompts[p] == prompts[q] ==> p == q)
  }

  /** A prompt for every connected player. (With more players than prompts the program
      panics; here the texts are then left open.) */
  method DistributePrompts(players: Players, dict: seq<string>) returns (d: Decision)
    requires IsDictionary(dict)
    ensures d.advance && IsDeal(d, players, dict)
  {
    var active := ActivePlayers(players);
    EnumerationSize(active, ConnectedSet(players));
    var texts := seq(|active|, i => DEFAULT_FAKE_TEXT);
    if |active| <= |dict| {
      texts := NextPrompts(dict, |active|);
    }
    var prompts, events := Deal(active, texts);
    if |active| <= |dict| {
      DealtIsFair(prompts, active, texts, dict);
    }
    d := Decision(true, events, Some(PromptsResult(prompts)));
    assert Announces(events, active, prompts);
  }

  /** Every connected player gets a prompt, a different one each as far as the dictionary goes,
      and is told so. */
  ghost predicate IsDeal(d: Decision, players: Players, dict: seq<string>) {
    && d.result.Some? && d.result.value.PromptsResult?
    && d.result.value.prompts.Keys == ConnectedSet(players)
    && (|ConnectedSet(players)| <= |dict| ==> ArePrompts(d.result.value.prompts, dict))
    && exists active :: Announces(d.events, active, d.result.value.prompts)
  }

  /** One announcement for each player, of the prompt on record. */
  ghost predicate Announces(events: seq<Event>, active: seq<PlayerID>, prompts: Prompts) {
    && Enumerates(active, prompts.Keys) && |events| == |active|
    && forall k :: 0 <= k < |active| ==>
                     active[k] in prompts && events[k] == PromptIssued(active[k], prompts[active[k]])
  }

  lemma DealsAreQuiet(d: Decision, players: Players, dict: seq<string>)
    requires IsDeal(d, players, dict)
    ensures forall ev :: ev in d.events ==> Quiet(ev)
  {
    var active :| Announces(d.events, active, d.result.value.prompts);
  }

  ghost predicate Dealt(prompts: Prompts, active: seq<PlayerID>, texts: seq<string>) {
    && |active| == |texts|
    && (forall p :: p in prompts <==> p in active)
    && (forall k :: 0 <= k < |active| ==> active[k] in prompts && prompts[active[k]] == texts[k])
  }

  method Deal(active: seq<PlayerID>, texts: seq<string>) returns (prompts: Prompts, events: seq<Event>)
    requires |active| == |texts| && forall i, j :: 0 <= i < j < |active| ==> active[i] != active[j]
    ensures Dealt(prompts, active, texts)
    ensures |events| == |active| && forall k :: 0 <= k < |active| ==> events[k] == PromptIssued(active[k], texts[k])
  {
    prompts, events := map[], [];
    for i := 0 to |active|
      invariant Dealt(prompts, active[..i], texts[..i])
      invariant |events| == i && forall k :: 0 <= k < i ==> events[k] == PromptIssued(active[k], texts[k])
    {
      assert active[..i + 1] == active[..i] + [active[i]];
      assert active[i] !in active[..i];
      prompts := prompts[active[i] := texts[i]];
      events := events + [PromptIssued(active[i], texts[i])];
    }
    assert active[..|active|] == active && texts[..|active|] == texts;
  }

  lemma DealtIsFair(prompts: Prompts, active: seq<PlayerID>, texts: seq<string>, dict: seq<string>)
    requires Dealt(prompts, active, texts) && DistinctTexts(texts) && forall t :: t in texts ==> t in dict
    ensures ArePrompts(prompts, dict)
  {
    forall p, q | p in prompts && q in prompts && prompts[p] == prompts[q]
      ensures p == q && prompts[p] in dict
    {
      var i :| 0 <= i < |active| && active[i] == p;
      var j :| 0 <= j < |active| && active[j] == q;
      assert texts[i] in texts && texts[j] in texts;
    }
  }

  // ----- reveal -----

  function IdsOfAuthors(authors: set<PlayerID>, drawings: Drawings): set<DrawingID> {
    set a | a in authors && a in drawings :: drawings[a].id
  }

  /** `rr` reveals the drawings of `done`. */
  ghost predicate RevealedFor(rr: Reveals, done: set<PlayerID>, drawings: Drawings, fakes: Fakes, votes: Votes,
                              players: Players)
  {
    && rr.Keys == IdsOfAuthors(done, drawings)
    && forall a :: a in done && a in drawings && drawings[a].id in rr ==>
                     IsRevealOf(rr[drawings[a].id], drawings[a],
                                ListAt(fakes, drawings[a].id), players, ListAt(votes, drawings[a].id))
  }

  method RevealRound(players: Players, drawings: Drawings, fakes: Fakes, votes: Votes, issued0: set<string>)
    returns (d: Decision, issued: set<string>, ghost ds: seq<DrawingReveal>)
    requires DrawingsOk(drawings) && FakesFit(drawings, fakes, issued0)
    ensures issued0 <= issued
    ensures d.advance && d.result.Some? && d.result.value.RevealsResult?
    ensures RevealedFor(d.result.value.revealed, drawings.Keys, drawings, fakes, votes, players)
    ensures RevealsFit(drawings, fakes, votes, d.result.value.revealed)
    ensures d.events == RevealEvents(ds) && AreReveals(ds, d.result.value.revealed)
  {
    var rr: Reveals := map[];
    var events: seq<Event> := [];
    issued, ds := issued0, [];
    var authors := AnyOrder(drawings.Keys);
    for i := 0 to |authors|
      invariant issued0 <= issued && events == RevealEvents(ds)
      invariant RevealedFor(rr, Listed(authors[..i]), drawings, fakes, votes, players) && AreReveals(ds, rr)
    {
      var a := authors[i];
      assert a in drawings && a !in authors[..i];
      var d, list := drawings[a], ListAt(fakes, drawings[a].id);
      assert FakesFor(d, list) && IdsOf(list) <= issued0;
      var dr;
      dr, issued := RevealDrawing(d, list, players, ListAt(votes, d.id), issued);
      RevealedOneMore(rr, Listed(authors[..i]), drawings, fakes, votes, players, a, dr);
      ListedSnoc(authors, i);
      ListOneMore(ds, rr, dr);
      rr, ds, events := rr[d.id := dr], ds + [dr], events + [Revealed(dr)];
    }
    ListedAll(authors, drawings.Keys);
    RevealedAll(rr, drawings, fakes, votes, players);
    d := Decision(true, events, Some(RevealsResult(rr)));
  }

  lemma RevealedOneMore(rr: Reveals, done: set<PlayerID>, drawings: Drawings, fakes: Fakes, votes: Votes,
                        players: Players, a: PlayerID, dr: DrawingReveal)
    requires DrawingsOk(drawings) && RevealedFor(rr, done, drawings, fakes, votes, players) && a in drawings && a !in done
    requires IsRevealOf(dr, drawings[a], ListAt(fakes, drawings[a].id), players, ListAt(votes, drawings[a].id))
    ensures drawings[a].id !in rr
    ensures RevealedFor(rr[drawings[a].id := dr], done + {a}, drawings, fakes, votes, players)
  {
    forall b | b in done && b in drawings
      ensures drawings[b].id != drawings[a].id
    {
    }
  }

  lemma RevealedAll(rr: Reveals, drawings: Drawings, fakes: Fakes, votes: Votes, players: Players)
    requires RevealedFor(rr, drawings.Keys, drawings, fakes, votes, players)
    ensures RevealsFit(drawings, fakes, votes, rr)
  {
    assert IdsOfAuthors(drawings.Keys, drawings) == DrawingIds(drawings);
    forall a | a in drawings && drawings[a].id in rr
      ensures RevealFits(rr[drawings[a].id], drawings[a],
                         ListAt(fakes, drawings[a].id), ListAt(votes, drawings[a].id))
    {
      assert IsRevealOf(rr[drawings[a].id], drawings[a],
                        ListAt(fakes, drawings[a].id), players, ListAt(votes, drawings[a].id));
    }
  }

  lemma ListOneMore(ds: seq<DrawingReveal>, rr: Reveals, dr: DrawingReveal)
    requires AreReveals(ds, rr) && dr.drawing !in rr
    ensures AreReveals(ds + [dr], rr[dr.drawing := dr])
    ensures RevealEvents(ds + [dr]) == RevealEvents(ds) + [Revealed(dr)]
  {
    assert IdsOfReveals(ds + [dr]) == IdsOfReveals(ds) + [dr.drawing];
  }

  /** `d` reveals the current round, with the "..." due for those who are absent now, and sends
      each reveal once. */
  ghost predicate RevealsRound(d: Decision, s: State) {
    && d.result.Some? && d.result.value.RevealsResult?
    && (exists ds :: d.events == RevealEvents(ds) && AreReveals(ds, d.result.value.revealed))
    && var drawings := DrawingsIn(s.phaseData, s.round);
       RevealedFor(d.result.value.revealed, drawings.Keys, drawings, FakesIn(s.phaseData, s.round),
                   VotesIn(s.phaseData, s.round), s.players)
  }

  // ----- scoring -----

  /** Points are computed from the reveal, announced with the totals to come, and then added
      with a floor at zero. The announced totals are the scores after that. */
  method ScoreAndApply(scores: Deltas, rr: Reveals) returns (d: Decision, after: Deltas)
    requires forall p :: At(scores, p) >= 0
    ensures d.advance && IsScoring(d, rr, scores, after)
  {
    var deltas := ScoreRound(rr);
    var totals := AnnouncedTotals(scores, deltas);
    after := ApplyDeltas(scores, deltas);
    AnnouncedIsApplied(scores, deltas, totals, after);
    d := Decision(true, [RoundResult(deltas, totals)], Some(ScoresResult(deltas)));
  }

  /** `d` scores the reveals `rr`; its announced totals are `scores` plus the deltas. */
  ghost predicate IsScoring(d: Decision, rr: Reveals, scores: Deltas, after: Deltas) {
    && d.result.Some? && d.result.value.ScoresResult?
    && DeltasFit(rr, d.result.value.deltas)
    && d.events == [RoundResult(d.result.value.deltas, after)]
    && forall p :: At(after, p) == At(scores, p) + At(d.result.value.deltas, p)
  }
}
