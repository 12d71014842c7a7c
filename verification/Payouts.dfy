/** What a drawing pays to whom, in figures: the points on record follow from the votes on
    record and the authors of the fakes. */
module Payouts {
  import opened Sums
  import opened Text
  import opened Game
  import opened Scores
  import opened Merge
  import opened Conservation

  /** How many of the votes are for the truth. */
  ghost function TrueVotes(votes: seq<Vote>): nat {
    if votes == [] then 0 else TrueVotes(votes[..|votes| - 1]) + if votes[|votes| - 1].choice == "TRUE" then 1 else 0
  }

  /** ... and how many of these are by `p`. */
  ghost function TrueVotesBy(votes: seq<Vote>, p: PlayerID): nat {
    if votes == [] then 0
    else
      var last := votes[|votes| - 1];
      TrueVotesBy(votes[..|votes| - 1], p) + if last.choice == "TRUE" && last.voter == p then 1 else 0
  }

  /** An equal share of 500 points a vote, rounded down, for each time `p` is among the authors
      of a fake. */
  ghost function FakeShares(choices: seq<Choice>, p: PlayerID): int {
    if choices == [] then 0
    else
      var ch := choices[|choices| - 1];
      FakeShares(choices[..|choices| - 1], p) +
      if ch.isTrue || ch.authors == [] then 0 else 500 * |ch.voters| / |ch.authors| * Count(ch.authors, p)
  }

  /** What `p` earns on a drawing: 1000 for every vote for the truth if it is theirs; otherwise
      1000 for finding the truth, and their shares. */
  ghost function Earned(d: Drawing, choices: seq<Choice>, votes: seq<Vote>, p: PlayerID): int {
    if p == d.author then 1000 * TrueVotes(votes)
    else 1000 * TrueVotesBy(votes, p) + FakeShares(choices, p)
  }

  lemma {:induction false} TrueVotersAreCounted(votes: seq<Vote>, p: PlayerID)
    ensures |VotersFor(votes, {TRUE_ID})| == TrueVotes(votes)
    ensures Count(VotersFor(votes, {TRUE_ID}), p) == TrueVotesBy(votes, p)
  {
    if votes != [] {
      var init, last := votes[..|votes| - 1], votes[|votes| - 1];
      TrueVotersAreCounted(init, p);
      VotersSnoc(init, last, {TRUE_ID});
      assert init + [last] == votes;
      if last.choice == TRUE_ID {
        CountSnoc(VotersFor(init, {TRUE_ID}), last.voter, p);
      } else {
        assert VotersFor(votes, {TRUE_ID}) == VotersFor(init, {TRUE_ID});
      }
    }
  }

  lemma {:induction false} FakesPayShares(choices: seq<Choice>, drawer: PlayerID, p: PlayerID)
    requires forall i :: 0 <= i < |choices| ==> !choices[i].isTrue
    ensures ChoicesPoints(choices, drawer, p) == FakeShares(choices, p)
  {
    if choices != [] {
      FakesPayShares(choices[..|choices| - 1], drawer, p);
      NoVotersNoPay(choices[|choices| - 1], p);
    }
  }

  lemma NoVotersNoPay(ch: Choice, p: PlayerID)
    ensures ch.authors != [] && ch.voters == [] ==> 500 * |ch.voters| / |ch.authors| * Count(ch.authors, p) == 0
  {
    if ch.authors != [] && ch.voters == [] {
      assert 500 * |ch.voters| / |ch.authors| == 0;
    }
  }

  lemma {:induction false} NoShares(choices: seq<Choice>, p: PlayerID)
    requires forall i :: 0 <= i < |choices| ==> p !in choices[i].authors
    ensures FakeShares(choices, p) == 0
  {
    if choices != [] {
      NoShares(choices[..|choices| - 1], p);
    }
  }

  /** The points of a drawing in full, for everyone. */
  lemma DrawingPaysInFull(dr: DrawingReveal, d: Drawing, fakes: seq<FakePrompt>, players: Players, votes: seq<Vote>,
                          p: PlayerID)
    requires FakesFor(d, fakes) && VotesFor(d, fakes, votes) && IsRevealOf(dr, d, fakes, players, votes)
    ensures DrawingPoints(dr, p) == Earned(d, dr.choices, votes, p)
  {
    var defaults, keys := Unpack(dr, d, fakes, players, votes);
    var last := |keys|;
    assert dr.choices[..last] + [dr.choices[last]] == dr.choices;
    FakesPayShares(dr.choices[..last], d.author, p);
    TrueVotersAreCounted(votes, p);
    if p == d.author {
      forall i | 0 <= i < |dr.choices|
        ensures d.author !in dr.choices[i].voters && d.author !in dr.choices[i].authors
      {
        DrawerStaysOut(dr, d, fakes, players, votes, i);
      }
      NoShares(dr.choices[..last], p);
    }
  }

  /** A vote for the truth is worth 1000 points to the voter and 1000 to the drawer, and nothing
      to anybody else. */
  lemma {:induction false} TrueVoteAdds(d: Drawing, choices: seq<Choice>, votes: seq<Vote>, i: nat, p: PlayerID)
    requires i < |votes| && votes[i].choice == "TRUE" && votes[i].voter != d.author
    ensures Earned(d, choices, votes, p) ==
            Earned(d, choices, votes[..i] + votes[i + 1..], p) + if p in {d.author, votes[i].voter} then 1000 else 0
  {
    var init, last := votes[..|votes| - 1], votes[|votes| - 1];
    var left := votes[..i] + votes[i + 1..];
    if i == |init| {
      assert left == init;
    } else {
      assert left[..|left| - 1] == init[..i] + init[i + 1..] && left[|left| - 1] == last;
      TrueVoteAdds(d, choices, init, i, p);
    }
  }

  // ----- one share each -----

  /** `p` wrote at most one of `fakes`. */
  ghost predicate WritesOnce(fakes: seq<FakePrompt>, p: PlayerID) {
    forall i, j :: 0 <= i < j < |fakes| && fakes[i].author == p ==> fakes[j].author != p
  }

  lemma PlayersWriteOnce(d: Drawing, fakes: seq<FakePrompt>, defaults: seq<FakePrompt>, players: Players, p: PlayerID)
    requires FakesFor(d, fakes) && AreDefaults(defaults, d, fakes, players) && p != NOBODY
    ensures WritesOnce(fakes + defaults, p)
  {
    var all := fakes + defaults;
    forall i, j | 0 <= i < j < |all| && all[i].author == p
      ensures all[j].author != p
    {
      if i < |fakes| <= j {
        assert AuthorsOf(fakes)[i] == p;
        assert all[j] in defaults;
      }
    }
  }

  ghost predicate WroteUnder(fakes: seq<FakePrompt>, p: PlayerID, key: string) {
    exists f :: f in fakes && f.author == p && Normalize(f.text) == key
  }

  lemma {:induction false} OnceInGroup(fakes: seq<FakePrompt>, key: string, p: PlayerID)
    requires WritesOnce(fakes, p)
    ensures Count(AuthorsOf(Group(fakes, key)), p) == if WroteUnder(fakes, p, key) then 1 else 0
  {
    if fakes != [] {
      var init, last := fakes[..|fakes| - 1], fakes[|fakes| - 1];
      assert fakes == init + [last];
      OnceInGroup(init, key, p);
      GroupSnoc(init, last, key);
      if Normalize(last.text) == key {
        assert AuthorsOf(Group(fakes, key)) == AuthorsOf(Group(init, key)) + [last.author];
        CountSnoc(AuthorsOf(Group(init, key)), last.author, p);
      } else {
        assert Group(fakes, key) == Group(init, key);
      }
      OnceMore(init, last, key, p);
    }
  }

  lemma OnceMore(init: seq<FakePrompt>, last: FakePrompt, key: string, p: PlayerID)
    requires WritesOnce(init + [last], p)
    ensures WroteUnder(init + [last], p, key) <==>
            WroteUnder(init, p, key) || (last.author == p && Normalize(last.text) == key)
    ensures last.author == p ==> !WroteUnder(init, p, key)
  {
    var all := init + [last];
    assert all[|init|] == last;
    if WroteUnder(init, p, key) {
      var f :| f in init && f.author == p && Normalize(f.text) == key;
      var i :| 0 <= i < |init| && init[i] == f;
      assert all[i] == f && f in all;
    }
    if last.author == p && Normalize(last.text) == key {
      assert last in all;
    }
  }

  /** A player is among the authors of at most one choice, once; that choice pays them 500 points
      a vote, split evenly. */
  lemma OneShare(dr: DrawingReveal, d: Drawing, fakes: seq<FakePrompt>, players: Players, votes: seq<Vote>, p: PlayerID,
                 i: nat)
    requires FakesFor(d, fakes) && VotesFor(d, fakes, votes) && IsRevealOf(dr, d, fakes, players, votes)
    requires p != NOBODY && i < |dr.choices| && p in dr.choices[i].authors
    ensures FakeShares(dr.choices, p) == 500 * |dr.choices[i].voters| / |dr.choices[i].authors|
  {
    var defaults, keys := Unpack(dr, d, fakes, players, votes);
    var all := fakes + defaults;
    PlayersWriteOnce(d, fakes, defaults, players, p);
    forall j | 0 <= j < |dr.choices|
      ensures Count(dr.choices[j].authors, p) == if j == i then 1 else 0
    {
      AuthorOfOneKey(dr, keys, d, all, votes, p, i, j);
    }
    LoneShare(dr.choices, p, i);
  }

  lemma AuthorOfOneKey(dr: DrawingReveal, keys: seq<string>, d: Drawing, all: seq<FakePrompt>, votes: seq<Vote>, p: PlayerID,
                       i: nat, j: nat)
    requires IsRevealBy(dr, keys, d, all, votes) && WritesOnce(all, p)
    requires i < |dr.choices| && j < |dr.choices| && p in dr.choices[i].authors
    ensures Count(dr.choices[j].authors, p) == if j == i then 1 else 0
  {
    AuthorsOfChoice(dr, keys, d, all, votes, p, i);
    AuthorsOfChoice(dr, keys, d, all, votes, p, j);
    if j < |keys| && WroteUnder(all, p, keys[j]) {
      OneKey(all, p, keys[i], keys[j]);
    }
  }

  lemma AuthorsOfChoice(dr: DrawingReveal, keys: seq<string>, d: Drawing, all: seq<FakePrompt>, votes: seq<Vote>, p: PlayerID,
                        j: nat)
    requires IsRevealBy(dr, keys, d, all, votes) && WritesOnce(all, p) && j < |dr.choices|
    ensures Count(dr.choices[j].authors, p) == if j < |keys| && WroteUnder(all, p, keys[j]) then 1 else 0
    ensures p in dr.choices[j].authors <==> Count(dr.choices[j].authors, p) > 0
  {
    CountOfMember(dr.choices[j].authors, p);
    if j < |keys| {
      OnceInGroup(all, keys[j], p);
      assert dr.choices[j] == FakeChoice(all, votes, keys[j]);
    }
  }

  lemma OneKey(fakes: seq<FakePrompt>, p: PlayerID, k: string, l: string)
    requires WritesOnce(fakes, p) && WroteUnder(fakes, p, k) && WroteUnder(fakes, p, l)
    ensures k == l
  {
    var f :| f in fakes && f.author == p && Normalize(f.text) == k;
    var g :| g in fakes && g.author == p && Normalize(g.text) == l;
    var i :| 0 <= i < |fakes| && fakes[i] == f;
    var j :| 0 <= j < |fakes| && fakes[j] == g;
    assert i == j;
  }

  lemma {:induction false} CountOfMember<T>(xs: seq<T>, x: T)
    ensures Count(xs, x) > 0 <==> x in xs
  {
    if xs != [] {
      CountOfMember(xs[..|xs| - 1], x);
      assert xs == xs[..|xs| - 1] + [xs[|xs| - 1]];
    }
  }

  lemma {:induction false} LoneShare(choices: seq<Choice>, p: PlayerID, i: nat)
    requires i < |choices| && !choices[i].isTrue && choices[i].authors != []
    requires forall j :: 0 <= j < |choices| ==> Count(choices[j].authors, p) == if j == i then 1 else 0
    ensures FakeShares(choices, p) == 500 * |choices[i].voters| / |choices[i].authors|
  {
    var init := choices[..|choices| - 1];
    if i == |init| {
      NoCountNoShares(init, p);
    } else {
      LoneShare(init, p, i);
    }
  }

  lemma {:induction false} NoCountNoShares(choices: seq<Choice>, p: PlayerID)
    requires forall j :: 0 <= j < |choices| ==> Count(choices[j].authors, p) == 0
    ensures FakeShares(choices, p) == 0
  {
    if choices != [] {
      NoCountNoShares(choices[..|choices| - 1], p);
    }
  }
}
