/** From the messages of a run to the points on record: what an accepted vote is worth, and to
    whom. */
module PointsInRuns {
  import opened Prelude
  import opened Sums
  import opened Game
  import opened Payouts
  import opened RoundCollectors
  import opened Records
  import opened RoomInvariants
  import opened RoomPlay
  import opened Steps
  import opened Runs
  import opened WholeRuns
  import opened Rounds
  import opened RoundsInRuns
  import P = Phases

  /** The votes on record for a drawing. */
  function VotesOn(data: PhaseData, r: nat, id: DrawingID): seq<Vote> {
    ListAt(VotesIn(data, r), id)
  }

  function Without<T>(xs: seq<T>, i: nat): seq<T>
    requires i < |xs|
  {
    xs[..i] + xs[i + 1..]
  }

  /** Once the round of the vote is scored, it is in the middle of a record that says who earned
      what. */
  lemma VoteIsScored(run: seq<World>, script: seq<Entry>, k: nat, j: nat)
    requires IsRun(run, script) && k < j < |run| && OneGame(run, script, k, j) && VoteAccepted(run[k], script[k])
    requires run[j].s.phaseIdx > run[k].s.phaseIdx + 2
    ensures var r := P.RoundAt(run[k].s.phaseIdx);
            && run[k].s.phaseIdx % P.PHASES_PER_ROUND == 3
            && StoredUpTo(run[j].s.phaseData, run[k].s.phaseIdx + 3, run[j].issued)
            && P.RoundAt(run[k].s.phaseIdx + 3) == r && 5 < (run[k].s.phaseIdx + 3) % P.PHASES_PER_ROUND
            && VoteOf(script[k].msg) in VotesOn(run[j].s.phaseData, r, script[k].msg.drawing)
            && script[k].msg.drawing in VotesIn(run[j].s.phaseData, r)
  {
    AcceptedVoteIsKept(run, script, k, j);
    AlwaysGood(run, script, k);
    AcceptedIsForADrawing(run[k], script[k]);
    FinishedRoundsAreStored(run, script, j, run[k].s.phaseIdx + 3);
    VotingIsFourth(run[k].s.phaseIdx);
  }

  lemma VotingIsFourth(i: nat)
    requires P.KindAt(i) == P.Voting
    ensures i % P.PHASES_PER_ROUND == 3 && P.RoundAt(i + 3) == P.RoundAt(i) && (i + 3) % P.PHASES_PER_ROUND == 6
  {
  }

  /** An accepted vote for the truth: the deltas of the round are what they would be without it,
      and 1000 points more for the voter and 1000 more for the drawer. */
  lemma TrueVotePays(run: seq<World>, script: seq<Entry>, k: nat, j: nat, authors: seq<PlayerID>, p: PlayerID)
    returns (m: nat, i: nat)
    requires IsRun(run, script) && k < j < |run| && OneGame(run, script, k, j) && VoteAccepted(run[k], script[k])
    requires run[j].s.phaseIdx > run[k].s.phaseIdx + 2 && script[k].msg.choice == "TRUE"
    requires Enumerates(authors, DrawingsIn(run[j].s.phaseData, P.RoundAt(run[k].s.phaseIdx)).Keys)
    ensures var data, r := run[j].s.phaseData, P.RoundAt(run[k].s.phaseIdx);
            && m < |authors| && authors[m] in DrawingsIn(data, r) && authors[m] != script[k].msg.pid
            && var d := DrawingsIn(data, r)[authors[m]];
               var votes := VotesOn(data, r, d.id);
               && d.id == script[k].msg.drawing && d.id in RevealsIn(data, r)
               && i < |votes| && votes[i] == VoteOf(script[k].msg)
               && At(DeltasIn(data, r), p) ==
                  EarnedOver(data, r, Without(authors, m), p)
                  + Earned(d, RevealsIn(data, r)[d.id].choices, Without(votes, i), p)
                  + if p in {authors[m], script[k].msg.pid} then 1000 else 0
  {
    VoteIsScored(run, script, k, j);
    m, i := RecordedTrueVotePays(run[j].s.phaseData, run[k].s.phaseIdx + 3, run[j].issued, VoteOf(script[k].msg), authors, p);
  }

  lemma RecordedTrueVotePays(data: PhaseData, n: nat, issued: set<string>, v: Vote, authors: seq<PlayerID>, p: PlayerID)
    returns (m: nat, i: nat)
    requires StoredUpTo(data, n, issued) && 5 < n % P.PHASES_PER_ROUND && v.choice == "TRUE"
    requires Enumerates(authors, DrawingsIn(data, P.RoundAt(n)).Keys)
    requires v.drawing in VotesIn(data, P.RoundAt(n)) && v in VotesOn(data, P.RoundAt(n), v.drawing)
    ensures var r := P.RoundAt(n);
            && m < |authors| && authors[m] in DrawingsIn(data, r) && authors[m] != v.voter
            && var d := DrawingsIn(data, r)[authors[m]];
               var votes := VotesOn(data, r, d.id);
               && d.id == v.drawing && d.id in RevealsIn(data, r)
               && i < |votes| && votes[i] == v
               && At(DeltasIn(data, r), p) ==
                  EarnedOver(data, r, Without(authors, m), p)
                  + Earned(d, RevealsIn(data, r)[d.id].choices, Without(votes, i), p)
                  + if p in {authors[m], v.voter} then 1000 else 0
  {
    var r := P.RoundAt(n);
    var a;
    a, i := DrawingVotedOn(data, n, issued, v);
    m :| 0 <= m < |authors| && authors[m] == a;
    RoundPaysInFull(data, n, issued, authors, p);
    OneDrawingApart(data, r, authors, m, p);
    TrueVoteAdds(DrawingsIn(data, r)[a], RevealsIn(data, r)[v.drawing].choices, VotesOn(data, r, v.drawing), i, p);
  }

  lemma DrawingVotedOn(data: PhaseData, n: nat, issued: set<string>, v: Vote) returns (a: PlayerID, i: nat)
    requires StoredUpTo(data, n, issued) && 5 < n % P.PHASES_PER_ROUND
    requires v.drawing in VotesIn(data, P.RoundAt(n)) && v in VotesOn(data, P.RoundAt(n), v.drawing)
    ensures var r := P.RoundAt(n);
            && a in DrawingsIn(data, r) && DrawingsIn(data, r)[a].id == v.drawing && DrawingsIn(data, r)[a].author == a != v.voter
            && v.drawing in RevealsIn(data, r)
            && i < |VotesOn(data, r, v.drawing)| && VotesOn(data, r, v.drawing)[i] == v
  {
    var r := P.RoundAt(n);
    VotesAreStored(data, n, issued);
    RevealsAreStored(data, n, issued);
    DrawingsAreStored(data, n, issued);
    a :| a in DrawingsIn(data, r) && DrawingsIn(data, r)[a].id == v.drawing;
    i :| 0 <= i < |VotesOn(data, r, v.drawing)| && VotesOn(data, r, v.drawing)[i] == v;
  }

  lemma OneDrawingApart(data: PhaseData, r: nat, authors: seq<PlayerID>, m: nat, p: PlayerID)
    requires m < |authors|
    ensures EarnedOver(data, r, authors, p) == EarnedOver(data, r, Without(authors, m), p) + EarnedOn(data, r, authors[m], p)
  {
    SumRemove(authors, m, a => EarnedOn(data, r, a, p));
  }

  /** An accepted vote for a fake: past the reveal it is listed under one choice, and each player
      credited with that choice earns an even share of 500 points for every voter listed there,
      besides 1000 if they found the truth themselves. */
  lemma FakeVotePays(run: seq<World>, script: seq<Entry>, k: nat, j: nat, p: PlayerID) returns (a: PlayerID, i: nat)
    requires IsRun(run, script) && k < j < |run| && OneGame(run, script, k, j) && VoteAccepted(run[k], script[k])
    requires run[j].s.phaseIdx > run[k].s.phaseIdx + 2 && script[k].msg.choice != "TRUE"
    ensures var data, r, id := run[j].s.phaseData, P.RoundAt(run[k].s.phaseIdx), script[k].msg.drawing;
            && a in DrawingsIn(data, r) && DrawingsIn(data, r)[a].id == id && id in RevealsIn(data, r)
            && var choices := RevealsIn(data, r)[id].choices;
               && i < |choices| && !choices[i].isTrue && script[k].msg.pid in choices[i].voters
               && (p in choices[i].authors && p != NOBODY ==>
                     EarnedOn(data, r, a, p) == 1000 * TrueVotesBy(VotesOn(data, r, id), p)
                                                + 500 * |choices[i].voters| / |choices[i].authors|)
  {
    var data, r, id := run[j].s.phaseData, P.RoundAt(run[k].s.phaseIdx), script[k].msg.drawing;
    VoteIsScored(run, script, k, j);
    AcceptedVoteCountsOnce(run, script, k, j);
    var v := VoteOf(script[k].msg);
    i :| IsVotersChoice(RevealsIn(data, r)[id].choices, i, v);
    a := AuthorIsPaid(data, run[k].s.phaseIdx + 3, run[j].issued, v, i, p);
  }

  lemma AuthorIsPaid(data: PhaseData, n: nat, issued: set<string>, v: Vote, i: nat, p: PlayerID) returns (a: PlayerID)
    requires StoredUpTo(data, n, issued) && 5 < n % P.PHASES_PER_ROUND
    requires v.drawing in VotesIn(data, P.RoundAt(n)) && v in VotesOn(data, P.RoundAt(n), v.drawing)
    requires v.drawing in RevealsIn(data, P.RoundAt(n)) && i < |RevealsIn(data, P.RoundAt(n))[v.drawing].choices|
    ensures var r, id := P.RoundAt(n), v.drawing;
            var ch := RevealsIn(data, r)[id].choices[i];
            && a in DrawingsIn(data, r) && DrawingsIn(data, r)[a].id == id
            && (p in ch.authors && p != NOBODY ==>
                  EarnedOn(data, r, a, p) == 1000 * TrueVotesBy(VotesOn(data, r, id), p) + 500 * |ch.voters| / |ch.authors|)
  {
    var at;
    a, at := DrawingVotedOn(data, n, issued, v);
    if p in RevealsIn(data, P.RoundAt(n))[v.drawing].choices[i].authors && p != NOBODY {
      AuthorEarns(data, n, issued, a, i, p);
    }
  }
}
