/** Points. A per-choice reference definition, and the two places that compute from it:
    the scoring phase (round totals) and the score table it is applied to. */
module Scores {
  import opened Prelude
  import opened Sums
  import opened Game

  const DRAWER_PER_CORRECT_VOTE: int := 1000
  const FAKER_PER_FOOLED_VOTE: int := 500
  const GUESSER_FOR_TRUE: int := 1000

  /** What each author of a fake earns: an equal share, rounded down. */
  function Share(ch: Choice): (per: int)
    requires |ch.authors| > 0
    ensures per >= 0
  {
    FAKER_PER_FOOLED_VOTE * |ch.voters| / |ch.authors|
  }

  /** What player `p` earns from one choice of a drawing by `drawer`. */
  ghost function ChoicePoints(ch: Choice, drawer: PlayerID, p: PlayerID): (n: int)
    ensures n >= 0
  {
    if ch.isTrue then
      GUESSER_FOR_TRUE * Count(ch.voters, p) + if p == drawer then DRAWER_PER_CORRECT_VOTE * |ch.voters| else 0
    else if ch.authors == [] || ch.voters == [] then 0
    else Share(ch) * Count(ch.authors, p)
  }

  ghost function ChoicesPoints(choices: seq<Choice>, drawer: PlayerID, p: PlayerID): int {
    Sum(choices, ch => ChoicePoints(ch, drawer, p))
  }

  ghost function DrawingPoints(dr: DrawingReveal, p: PlayerID): int {
    ChoicesPoints(dr.choices, dr.author, p)
  }

  ghost function PointsAt(rr: Reveals, d: DrawingID, p: PlayerID): int {
    if d in rr then DrawingPoints(rr[d], p) else 0
  }

  /** What player `p` earns in a round. */
  ghost function RoundPoints(rr: Reveals, p: PlayerID): int {
    SumOver(rr.Keys, d => PointsAt(rr, d, p))
  }

  ghost predicate IsRoundScore(rr: Reveals, deltas: Deltas) {
    forall p :: At(deltas, p) == RoundPoints(rr, p)
  }

  /** `deltas` extends `before` by one choice's points for everyone. */
  ghost predicate Credited(before: Deltas, deltas: Deltas, ch: Choice, drawer: PlayerID) {
    forall p :: At(deltas, p) == At(before, p) + ChoicePoints(ch, drawer, p)
  }

  method AddToEach(before: Deltas, who: seq<PlayerID>, points: int) returns (deltas: Deltas)
    ensures forall p :: At(deltas, p) == At(before, p) + points * Count(who, p)
  {
    deltas := before;
    for i := 0 to |who|
      invariant forall p :: At(deltas, p) == At(before, p) + points * Count(who[..i], p)
    {
      ghost var prev := deltas;
      deltas := deltas[who[i] := At(deltas, who[i]) + points];
      forall p
        ensures At(deltas, p) == At(before, p) + points * Count(who[..i + 1], p)
      {
        assert who[..i + 1] == who[..i] + [who[i]];
        CountSnoc(who[..i], who[i], p);
        assert At(deltas, p) == At(prev, p) + if p == who[i] then points else 0;
        Distribute(points, Count(who[..i], p), if p == who[i] then 1 else 0);
      }
    }
    assert who[..|who|] == who;
  }

  lemma Distribute(a: int, b: int, c: int)
    ensures a * (b + c) == a * b + a * c
  {
  }

  method ScoreChoice(before: Deltas, ch: Choice, drawer: PlayerID) returns (deltas: Deltas)
    ensures Credited(before, deltas, ch, drawer)
  {
    if ch.isTrue {
      deltas := before[drawer := At(before, drawer) + DRAWER_PER_CORRECT_VOTE * |ch.voters|];
      deltas := AddToEach(deltas, ch.voters, GUESSER_FOR_TRUE);
      return;
    }
    if |ch.authors| == 0 || |ch.voters| == 0 {
      return before;
    }
    deltas := AddToEach(before, ch.authors, Share(ch));
  }

  method ScoreDrawing(before: Deltas, dr: DrawingReveal) returns (deltas: Deltas)
    ensures forall p :: At(deltas, p) == At(before, p) + DrawingPoints(dr, p)
  {
    deltas := before;
    for j := 0 to |dr.choices|
      invariant forall p :: At(deltas, p) == At(before, p) + ChoicesPoints(dr.choices[..j], dr.author, p)
    {
      assert dr.choices[..j + 1][..j] == dr.choices[..j];
      deltas := ScoreChoice(deltas, dr.choices[j], dr.author);
    }
    assert dr.choices[..|dr.choices|] == dr.choices;
  }

  /** The scoring phase: per-player deltas of a round, from drawings in any map order. */
  method ScoreRound(rr: Reveals) returns (deltas: Deltas)
    ensures IsRoundScore(rr, deltas)
    ensures forall p :: At(deltas, p) >= 0
  {
    deltas := map[];
    var ids := AnyOrder(rr.Keys);
    for i := 0 to |ids|
      invariant forall p :: At(deltas, p) == PointsOver(rr, ids[..i], p)
    {
      assert ids[..i + 1][..i] == ids[..i];
      deltas := ScoreDrawing(deltas, rr[ids[i]]);
    }
    assert ids[..|ids|] == ids;
    forall p
      ensures At(deltas, p) == RoundPoints(rr, p) >= 0
    {
      RoundPointsAre(rr, ids, p);
    }
  }

  /** What `p` earns over the listed drawings. */
  ghost function PointsOver(rr: Reveals, ids: seq<DrawingID>, p: PlayerID): int {
    Sum(ids, d => PointsAt(rr, d, p))
  }

  lemma RoundPointsAre(rr: Reveals, ids: seq<DrawingID>, p: PlayerID)
    requires Enumerates(ids, rr.Keys)
    ensures RoundPoints(rr, p) == PointsOver(rr, ids, p) >= 0
  {
    SumOverIs(ids, rr.Keys, d => PointsAt(rr, d, p));
    PointsOverNonNegative(rr, ids, p);
  }

  lemma {:induction false} PointsOverNonNegative(rr: Reveals, ids: seq<DrawingID>, p: PlayerID)
    ensures PointsOver(rr, ids, p) >= 0
  {
    if ids != [] {
      var d := ids[|ids| - 1];
      PointsOverNonNegative(rr, ids[..|ids| - 1], p);
      if d in rr {
        ChoicesPointsNonNegative(rr[d].choices, rr[d].author, p);
      }
    }
  }

  lemma {:induction false} ChoicesPointsNonNegative(choices: seq<Choice>, drawer: PlayerID, p: PlayerID)
    ensures ChoicesPoints(choices, drawer, p) >= 0
  {
    if choices != [] {
      ChoicesPointsNonNegative(choices[..|choices| - 1], drawer, p);
    }
  }

  /** The totals announced in round_result, computed before the deltas are applied. */
  method AnnouncedTotals(scores: Deltas, deltas: Deltas) returns (totals: Deltas)
    ensures totals.Keys == scores.Keys + deltas.Keys
    ensures forall p :: p in totals ==> totals[p] == At(scores, p) + At(deltas, p)
  {
    totals := map[];
    var ids := AnyOrder(scores.Keys);
    for i := 0 to |ids|
      invariant forall p :: p in totals <==> p in ids[..i]
      invariant forall p :: p in totals ==> totals[p] == At(scores, p) + At(deltas, p)
    {
      assert ids[..i + 1] == ids[..i] + [ids[i]];
      totals := totals[ids[i] := scores[ids[i]] + At(deltas, ids[i])];
    }
    assert ids[..|ids|] == ids;
    var more := AnyOrder(deltas.Keys);
    for i := 0 to |more|
      invariant forall p :: p in totals <==> p in scores || p in more[..i]
      invariant forall p :: p in totals ==> totals[p] == At(scores, p) + At(deltas, p)
    {
      assert more[..i + 1] == more[..i] + [more[i]];
      if more[i] !in totals {
        totals := totals[more[i] := deltas[more[i]]];
      }
    }
    assert more[..|more|] == more;
  }

  /** Applying deltas to the table, clamping below at zero. */
  method ApplyDeltas(scores: Deltas, deltas: Deltas) returns (after: Deltas)
    ensures after.Keys == scores.Keys + deltas.Keys
    ensures forall p :: p in deltas ==> after[p] == if At(scores, p) + deltas[p] < 0 then 0 else At(scores, p) + deltas[p]
    ensures forall p :: p in scores && p !in deltas ==> after[p] == scores[p]
  {
    after := scores;
    var ids := AnyOrder(deltas.Keys);
    for i := 0 to |ids|
      invariant after.Keys == scores.Keys + set p | p in ids[..i]
      invariant forall p :: p in ids[..i] ==>
                              after[p] == if At(scores, p) + deltas[p] < 0 then 0 else At(scores, p) + deltas[p]
      invariant forall p :: p in scores && p !in ids[..i] ==> after[p] == scores[p]
    {
      var id := ids[i];
      assert id !in ids[..i];
      after := after[id := At(after, id) + deltas[id]];
      if after[id] < 0 {
        after := after[id := 0];
      }
      assert ids[..i + 1] == ids[..i] + [id];
    }
    assert ids[..|ids|] == ids;
  }

  /** With scores and deltas that are never negative the clamp never bites, so the totals
      announced are exactly the scores that result. */
  lemma AnnouncedIsApplied(scores: Deltas, deltas: Deltas, totals: Deltas, after: Deltas)
    requires forall p :: At(scores, p) >= 0 && At(deltas, p) >= 0
    requires totals.Keys == scores.Keys + deltas.Keys == after.Keys
    requires forall p :: p in totals ==> totals[p] == At(scores, p) + At(deltas, p)
    requires forall p :: p in deltas ==> after[p] == if At(scores, p) + deltas[p] < 0 then 0 else At(scores, p) + deltas[p]
    requires forall p :: p in scores && p !in deltas ==> after[p] == scores[p]
    ensures after == totals
    ensures forall p :: At(after, p) == At(scores, p) + At(deltas, p)
  {
    forall p | p in totals
      ensures after[p] == totals[p]
    {
      assert At(scores, p) >= 0 && At(deltas, p) >= 0;
    }
  }

  // ----- conservation -----

  /** What one choice pays out over everybody. */
  ghost function ChoiceTotal(ch: Choice): int {
    if ch.isTrue then 2000 * |ch.voters|
    else if ch.authors == [] || ch.voters == [] then 0
    else |ch.authors| * (500 * |ch.voters| / |ch.authors|)
  }

  /** `players` lists, without repeats, everyone who can earn from these choices. */
  ghost predicate Covers(players: seq<PlayerID>, choices: seq<Choice>, drawer: PlayerID) {
    && (forall i, j :: 0 <= i < j < |players| ==> players[i] != players[j])
    && drawer in players
    && forall ch :: ch in choices ==>
                      (forall v :: v in ch.voters ==> v in players) && (forall a :: a in ch.authors ==> a in players)
  }

  lemma ChoicePaysItsTotal(players: seq<PlayerID>, ch: Choice, drawer: PlayerID, pays: PlayerID -> int)
    requires Covers(players, [ch], drawer)
    requires forall p :: pays(p) == ChoicePoints(ch, drawer, p)
    ensures Sum(players, pays) == ChoiceTotal(ch)
  {
    if ch.isTrue {
      var count := p => Count(ch.voters, p);
      var guess := p => 1000 * Count(ch.voters, p);
      var hit := p => if drawer == p then 1 else 0;
      var draw := p => if drawer == p then 1000 * |ch.voters| else 0;
      SumPlus(players, guess, draw, pays);
      SumScale(players, count, guess, 1000);
      CountsTotal(players, ch.voters, count);
      SumScale(players, hit, draw, 1000 * |ch.voters|);
      SumIndicator(players, drawer, hit);
    } else if ch.authors == [] || ch.voters == [] {
      SumZero(players, pays);
    } else {
      var count := p => Count(ch.authors, p);
      CountsTotal(players, ch.authors, count);
      SumScale(players, count, pays, Share(ch));
    }
  }

  ghost function ChoicesTotal(choices: seq<Choice>): int {
    if choices == [] then 0 else ChoicesTotal(choices[..|choices| - 1]) + ChoiceTotal(choices[|choices| - 1])
  }

  /** Points are conserved: all that a drawing hands out is 2000 per true vote, plus for
      each fake its authors' rounded shares. */
  lemma {:induction false} ChoicesConservePoints(
      players: seq<PlayerID>, choices: seq<Choice>, drawer: PlayerID, pays: PlayerID -> int)
    requires Covers(players, choices, drawer)
    requires forall p :: pays(p) == ChoicesPoints(choices, drawer, p)
    ensures Sum(players, pays) == ChoicesTotal(choices)
  {
    if choices == [] {
      SumZero(players, pays);
    } else {
      var init, last := choices[..|choices| - 1], choices[|choices| - 1];
      var paysInit := p => ChoicesPoints(init, drawer, p);
      var paysLast := p => ChoicePoints(last, drawer, p);
      ChoicesConservePoints(players, init, drawer, paysInit);
      ChoicePaysItsTotal(players, last, drawer, paysLast);
      SumPlus(players, paysInit, paysLast, pays);
    }
  }

  /** A fake's share for a generated author is paid to nobody: what reaches the players is the
      total less that share, for every generated fake merged into the choice. */
  lemma NobodysShareIsLost(players: seq<PlayerID>, i: nat, ch: Choice, drawer: PlayerID, pays: PlayerID -> int)
    requires Covers(players, [ch], drawer) && i < |players| && players[i] == NOBODY
    requires !ch.isTrue && ch.authors != []
    requires forall p :: pays(p) == ChoicePoints(ch, drawer, p)
    ensures Sum(players[..i] + players[i + 1..], pays) == ChoiceTotal(ch) - Share(ch) * Count(ch.authors, NOBODY)
  {
    ChoicePaysItsTotal(players, ch, drawer, pays);
    SumRemove(players, i, pays);
  }

  /** Rounding loses less than one point per author, and nothing pays over 2000 a vote. */
  lemma ChoiceTotalBounds(ch: Choice)
    ensures !ch.isTrue && ch.authors != [] ==>
              500 * |ch.voters| - (|ch.authors| - 1) <= ChoiceTotal(ch) <= 500 * |ch.voters|
    ensures 0 <= ChoiceTotal(ch) <= 2000 * |ch.voters|
  {
    if !ch.isTrue && ch.authors != [] && ch.voters != [] {
      var v, n := 500 * |ch.voters|, |ch.authors|;
      assert v == n * (v / n) + v % n;
    }
  }

  ghost function VotesCast(choices: seq<Choice>): int {
    if choices == [] then 0 else VotesCast(choices[..|choices| - 1]) + |choices[|choices| - 1].voters|
  }

  lemma {:induction false} ChoicesTotalBounds(choices: seq<Choice>)
    ensures 0 <= ChoicesTotal(choices) <= 2000 * VotesCast(choices)
  {
    if choices != [] {
      ChoicesTotalBounds(choices[..|choices| - 1]);
      ChoiceTotalBounds(choices[|choices| - 1]);
    }
  }
}
