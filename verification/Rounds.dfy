/** What a finished round on record satisfies, whatever the run that produced it: the ballot
    and the reveal, the votes and the points, all agree. */
module Rounds {
  import opened Prelude
  import opened Sums
  import opened Game
  import opened Scores
  import opened Merge
  import opened Conservation
  import opened Payouts
  import opened RoundCollectors
  import opened Client
  import opened Records
  import opened RoomInvariants
  import opened RoomPlay
  import P = Phases

  /** One drawing of a round on record: its fakes, its votes and its reveal belong together. */
  ghost predicate Recorded(data: PhaseData, r: nat, a: PlayerID, players: Players) {
    a in DrawingsIn(data, r)
    && var d := DrawingsIn(data, r)[a];
       var fakes, votes := ListAt(FakesIn(data, r), d.id), ListAt(VotesIn(data, r), d.id);
       && FakesFor(d, fakes) && VotesFor(d, fakes, votes)
       && d.id in RevealsIn(data, r) && IsRevealOf(RevealsIn(data, r)[d.id], d, fakes, players, votes)
  }

  lemma RecordedFor(data: PhaseData, n: nat, issued: set<string>, a: PlayerID) returns (players: Players)
    requires StoredUpTo(data, n, issued) && 4 < n % P.PHASES_PER_ROUND && a in DrawingsIn(data, P.RoundAt(n))
    ensures Recorded(data, P.RoundAt(n), a, players)
  {
    var r := P.RoundAt(n);
    FakesAreStored(data, n, issued);
    VotesAreStored(data, n, issued);
    RevealsAreStored(data, n, issued);
    var d := DrawingsIn(data, r)[a];
    assert d.id in DrawingIds(DrawingsIn(data, r));
    assert RevealFits(RevealsIn(data, r)[d.id], d, ListAt(FakesIn(data, r), d.id), ListAt(VotesIn(data, r), d.id));
    players :| IsRevealOf(RevealsIn(data, r)[d.id], d, ListAt(FakesIn(data, r), d.id), players,
                          ListAt(VotesIn(data, r), d.id));
  }

  lemma VotesAreStored(data: PhaseData, n: nat, issued: set<string>)
    requires StoredUpTo(data, n, issued) && 3 < n % P.PHASES_PER_ROUND
    ensures var r := P.RoundAt(n); VotesFit(DrawingsIn(data, r), FakesIn(data, r), VotesIn(data, r))
  {
    var j := StoredAt(data, n, issued, P.Voting);
  }

  /** Every line of the ballot is among the choices, with its id and text, and there is at most
      the "..." choice besides. */
  ghost predicate RevealsBallot(lines: seq<VotingChoice>, choices: seq<Choice>) {
    && (forall line :: line in lines ==> exists ch :: ch in choices && Matches(ch, line))
    && (forall ch :: ch in choices ==> (exists line :: line in lines && Matches(ch, line)) || IsBlank(ch))
    && |lines| <= |choices| <= |lines| + 1
  }

  /** Whatever ballots the voting phase may have shown: every line comes back in the reveal with
      its id and text, and the reveal adds at most the "..." choice, which nobody voted for. */
  lemma RevealMatchesBallot(data: PhaseData, n: nat, issued: set<string>, a: PlayerID,
                            ballot: map<DrawingID, seq<VotingChoice>>)
    requires StoredUpTo(data, n, issued) && 4 < n % P.PHASES_PER_ROUND && a in DrawingsIn(data, P.RoundAt(n))
    requires AreBallots(ballot, DrawingsIn(data, P.RoundAt(n)), FakesIn(data, P.RoundAt(n)))
    ensures var id := DrawingsIn(data, P.RoundAt(n))[a].id;
            && id in ballot && id in RevealsIn(data, P.RoundAt(n))
            && var lines, choices := ballot[id], RevealsIn(data, P.RoundAt(n))[id].choices;
               RevealsBallot(lines, choices)
  {
    var players := RecordedFor(data, n, issued, a);
    var d := DrawingsIn(data, P.RoundAt(n))[a];
    BallotAndRevealAgree(ballot[d.id], RevealsIn(data, P.RoundAt(n))[d.id], d, ListAt(FakesIn(data, P.RoundAt(n)), d.id),
                         players, ListAt(VotesIn(data, P.RoundAt(n)), d.id));
  }

  /** Every recorded vote is counted, once, under the choice it was cast for. */
  lemma EveryVoteCountsOnce(data: PhaseData, n: nat, issued: set<string>, a: PlayerID, v: Vote)
    requires StoredUpTo(data, n, issued) && 4 < n % P.PHASES_PER_ROUND && a in DrawingsIn(data, P.RoundAt(n))
    requires v in ListAt(VotesIn(data, P.RoundAt(n)), DrawingsIn(data, P.RoundAt(n))[a].id)
    ensures var id := DrawingsIn(data, P.RoundAt(n))[a].id;
            && id in RevealsIn(data, P.RoundAt(n))
            && var choices := RevealsIn(data, P.RoundAt(n))[id].choices;
               && VotesCast(choices) == |ListAt(VotesIn(data, P.RoundAt(n)), id)|
               && exists i :: IsVotersChoice(choices, i, v)
  {
    var players := RecordedFor(data, n, issued, a);
    var r := P.RoundAt(n);
    var d := DrawingsIn(data, r)[a];
    var dr, fakes, votes := RevealsIn(data, r)[d.id], ListAt(FakesIn(data, r), d.id), ListAt(VotesIn(data, r), d.id);
    VotesAreConserved(dr, d, fakes, players, votes);
    var i := VoteLandsOnce(dr, d, fakes, players, votes, v);
    assert IsVotersChoice(dr.choices, i, v);
  }

  /** Choice `i` is the only one that lists the voter, and it is the true one exactly if that
      is what they voted for. */
  ghost predicate IsVotersChoice(choices: seq<Choice>, i: nat, v: Vote) {
    && i < |choices| && v.voter in choices[i].voters
    && (forall j :: 0 <= j < |choices| && v.voter in choices[j].voters ==> j == i)
    && (v.choice == TRUE_ID <==> choices[i].isTrue)
  }

  // ----- what a round pays -----

  ghost function VotesOver(votes: Votes, ids: seq<DrawingID>): int {
    if ids == [] then 0 else VotesOver(votes, ids[..|ids| - 1]) + |ListAt(votes, ids[|ids| - 1])|
  }

  ghost predicate CoversAll(earners: seq<PlayerID>, rr: Reveals, ids: seq<DrawingID>) {
    forall id :: id in ids ==> id in rr && Covers(earners, rr[id].choices, rr[id].author)
  }

  /** Drawing after drawing, no more than 2000 points go out for each accepted vote. */
  lemma {:induction false} DrawingsPayAtMost(
      data: PhaseData, n: nat, issued: set<string>, ids: seq<DrawingID>, earners: seq<PlayerID>, pays: PlayerID -> int)
    requires StoredUpTo(data, n, issued) && 4 < n % P.PHASES_PER_ROUND
    requires CoversAll(earners, RevealsIn(data, P.RoundAt(n)), ids)
    requires forall p :: pays(p) == PointsOver(RevealsIn(data, P.RoundAt(n)), ids, p)
    ensures 0 <= Sum(earners, pays) <= 2000 * VotesOver(VotesIn(data, P.RoundAt(n)), ids)
  {
    var rr := RevealsIn(data, P.RoundAt(n));
    if ids == [] {
      SumZero(earners, pays);
    } else {
      var init, last := ids[..|ids| - 1], ids[|ids| - 1];
      var before: PlayerID -> int, now: PlayerID -> int := p => PointsOver(rr, init, p), p => DrawingPoints(rr[last], p);
      DrawingsPayAtMost(data, n, issued, init, earners, before);
      OneDrawingPaysAtMost(data, n, issued, last, earners, now);
      SumPlus(earners, before, now, pays);
    }
  }

  lemma OneDrawingPaysAtMost(data: PhaseData, n: nat, issued: set<string>, id: DrawingID, earners: seq<PlayerID>,
                             pays: PlayerID -> int)
    requires StoredUpTo(data, n, issued) && 4 < n % P.PHASES_PER_ROUND && id in RevealsIn(data, P.RoundAt(n))
    requires var dr := RevealsIn(data, P.RoundAt(n))[id];
             Covers(earners, dr.choices, dr.author) && forall p :: pays(p) == DrawingPoints(dr, p)
    ensures 0 <= Sum(earners, pays) <= 2000 * |ListAt(VotesIn(data, P.RoundAt(n)), id)|
  {
    var r := P.RoundAt(n);
    RevealsAreStored(data, n, issued);
    assert id in DrawingIds(DrawingsIn(data, r));
    var a :| a in DrawingsIn(data, r) && DrawingsIn(data, r)[a].id == id;
    var players := RecordedFor(data, n, issued, a);
    DrawingPaysPerAcceptedVote(RevealsIn(data, r)[id], DrawingsIn(data, r)[a], ListAt(FakesIn(data, r), id), players,
                               ListAt(VotesIn(data, r), id), earners, pays);
  }

  /** The deltas of a recorded round add up to at most 2000 points per accepted vote. */
  lemma RoundPaysAtMost(data: PhaseData, n: nat, issued: set<string>, ids: seq<DrawingID>, earners: seq<PlayerID>,
                        pays: PlayerID -> int)
    requires StoredUpTo(data, n, issued) && 5 < n % P.PHASES_PER_ROUND
    requires Enumerates(ids, RevealsIn(data, P.RoundAt(n)).Keys) && CoversAll(earners, RevealsIn(data, P.RoundAt(n)), ids)
    requires forall p :: pays(p) == At(DeltasIn(data, P.RoundAt(n)), p)
    ensures 0 <= Sum(earners, pays) <= 2000 * VotesOver(VotesIn(data, P.RoundAt(n)), ids)
  {
    var j := StoredAt(data, n, issued, P.Scoring);
    forall p
      ensures pays(p) == PointsOver(RevealsIn(data, P.RoundAt(n)), ids, p)
    {
      RoundPointsAre(RevealsIn(data, P.RoundAt(n)), ids, p);
    }
    DrawingsPayAtMost(data, n, issued, ids, earners, pays);
  }

  // ----- what a round pays to whom -----

  /** What `p` earns on the drawing of `a`. */
  ghost function EarnedOn(data: PhaseData, r: nat, a: PlayerID, p: PlayerID): int {
    var drawings := DrawingsIn(data, r);
    if a in drawings && drawings[a].id in RevealsIn(data, r) then
      Earned(drawings[a], RevealsIn(data, r)[drawings[a].id].choices, ListAt(VotesIn(data, r), drawings[a].id), p)
    else 0
  }

  ghost function EarnedOver(data: PhaseData, r: nat, authors: seq<PlayerID>, p: PlayerID): int {
    Sum(authors, a => EarnedOn(data, r, a, p))
  }

  lemma DrawingOnRecordPays(data: PhaseData, n: nat, issued: set<string>, a: PlayerID, p: PlayerID)
    requires StoredUpTo(data, n, issued) && 4 < n % P.PHASES_PER_ROUND && a in DrawingsIn(data, P.RoundAt(n))
    ensures PointsAt(RevealsIn(data, P.RoundAt(n)), DrawingsIn(data, P.RoundAt(n))[a].id, p) == EarnedOn(data, P.RoundAt(n), a, p)
  {
    var r := P.RoundAt(n);
    var players := RecordedFor(data, n, issued, a);
    var d := DrawingsIn(data, r)[a];
    DrawingPaysInFull(RevealsIn(data, r)[d.id], d, ListAt(FakesIn(data, r), d.id), players, ListAt(VotesIn(data, r), d.id), p);
  }

  ghost function IdsByAuthor(drawings: Drawings, authors: seq<PlayerID>): (ids: seq<DrawingID>)
    requires forall a :: a in authors ==> a in drawings
    ensures |ids| == |authors| && forall i :: 0 <= i < |ids| ==> ids[i] == drawings[authors[i]].id
  {
    seq(|authors|, i requires 0 <= i < |authors| => drawings[authors[i]].id)
  }

  lemma {:induction false} DrawingsPayInFull(data: PhaseData, n: nat, issued: set<string>, authors: seq<PlayerID>, p: PlayerID)
    requires StoredUpTo(data, n, issued) && 4 < n % P.PHASES_PER_ROUND
    requires forall a :: a in authors ==> a in DrawingsIn(data, P.RoundAt(n))
    ensures var r := P.RoundAt(n);
            PointsOver(RevealsIn(data, r), IdsByAuthor(DrawingsIn(data, r), authors), p) == EarnedOver(data, r, authors, p)
  {
    if authors != [] {
      var r, init, last := P.RoundAt(n), authors[..|authors| - 1], authors[|authors| - 1];
      var ids := IdsByAuthor(DrawingsIn(data, r), authors);
      DrawingsPayInFull(data, n, issued, init, p);
      DrawingOnRecordPays(data, n, issued, last, p);
      assert ids[..|ids| - 1] == IdsByAuthor(DrawingsIn(data, r), init);
    }
  }

  /** The deltas of a round on record in full: each player's are what they earned on the drawings
      of the round, their own and the others'. */
  lemma RoundPaysInFull(data: PhaseData, n: nat, issued: set<string>, authors: seq<PlayerID>, p: PlayerID)
    requires StoredUpTo(data, n, issued) && 5 < n % P.PHASES_PER_ROUND
    requires Enumerates(authors, DrawingsIn(data, P.RoundAt(n)).Keys)
    ensures At(DeltasIn(data, P.RoundAt(n)), p) == EarnedOver(data, P.RoundAt(n), authors, p)
  {
    var r := P.RoundAt(n);
    var j := StoredAt(data, n, issued, P.Scoring);
    var drawings, rr := DrawingsIn(data, r), RevealsIn(data, r);
    RevealsAreStored(data, n, issued);
    DrawingsAreStored(data, n, issued);
    IdsAreThoseOfReveals(drawings, authors, rr.Keys);
    RoundPointsAre(rr, IdsByAuthor(drawings, authors), p);
    DrawingsPayInFull(data, n, issued, authors, p);
  }

  lemma IdsAreThoseOfReveals(drawings: Drawings, authors: seq<PlayerID>, ids: set<DrawingID>)
    requires DrawingsOk(drawings) && Enumerates(authors, drawings.Keys) && ids == DrawingIds(drawings)
    ensures Enumerates(IdsByAuthor(drawings, authors), ids)
  {
    var listed := IdsByAuthor(drawings, authors);
    forall id | id in ids
      ensures id in listed
    {
      var a :| a in drawings && drawings[a].id == id;
      assert a in authors;
      var i :| 0 <= i < |authors| && authors[i] == a;
      assert listed[i] == id;
    }
    assert forall i :: 0 <= i < |authors| ==> authors[i] in authors;
  }

  /** What the author of a fake earns on somebody else's drawing. */
  lemma AuthorEarns(data: PhaseData, n: nat, issued: set<string>, a: PlayerID, i: nat, p: PlayerID)
    requires StoredUpTo(data, n, issued) && 4 < n % P.PHASES_PER_ROUND && a in DrawingsIn(data, P.RoundAt(n))
    requires var id, rr := DrawingsIn(data, P.RoundAt(n))[a].id, RevealsIn(data, P.RoundAt(n));
             id in rr && i < |rr[id].choices| && p in rr[id].choices[i].authors && p != NOBODY
    ensures var id, r := DrawingsIn(data, P.RoundAt(n))[a].id, P.RoundAt(n);
            var ch, votes := RevealsIn(data, r)[id].choices[i], ListAt(VotesIn(data, r), id);
            && ch.authors != []
            && EarnedOn(data, r, a, p) == 1000 * TrueVotesBy(votes, p) + 500 * |ch.voters| / |ch.authors|
  {
    var r := P.RoundAt(n);
    var players := RecordedFor(data, n, issued, a);
    var d := DrawingsIn(data, r)[a];
    var dr, fakes, votes := RevealsIn(data, r)[d.id], ListAt(FakesIn(data, r), d.id), ListAt(VotesIn(data, r), d.id);
    DrawerStaysOut(dr, d, fakes, players, votes, i);
    OneShare(dr, d, fakes, players, votes, p, i);
  }
}
