/** From accepted fakes and votes to the reveal: the ballot and the reveal offer the same
    choices, and every accepted vote is counted once. */
module Conservation {
  import opened Prelude
  import opened Sums
  import opened Text
  import opened Game
  import opened Scores
  import opened RevealSteps
  import opened Merge

  // ----- what the two collectors guarantee -----

  /** The fakes collected for drawing `d`. Generated fakes have no author. */
  ghost predicate FakesFor(d: Drawing, fakes: seq<FakePrompt>) {
    && DistinctIds(fakes)
    && (forall f :: f in fakes ==>
                      f.drawing == d.id && f.author != d.author && Normalize(f.text) != Normalize(d.prompt))
    && (forall i, j :: 0 <= i < j < |fakes| && fakes[i].author == fakes[j].author ==> fakes[i].author == NOBODY)
  }

  /** The target of a vote: the truth, or somebody else's fake. */
  ghost predicate MayChoose(voter: PlayerID, choice: string, fakes: seq<FakePrompt>) {
    choice == TRUE_ID || exists f :: f in fakes && f.id == choice && f.author != voter
  }

  /** The votes collected for drawing `d`. */
  ghost predicate VotesFor(d: Drawing, fakes: seq<FakePrompt>, votes: seq<Vote>) {
    && (forall v :: v in votes ==> v.drawing == d.id && v.voter != d.author && MayChoose(v.voter, v.choice, fakes))
    && (forall i, j :: 0 <= i < j < |votes| ==> votes[i].voter != votes[j].voter)
  }

  // ----- the choices -----

  /** The parts of a reveal: the defaults added, and the order of its choices. */
  lemma Unpack(dr: DrawingReveal, d: Drawing, fakes: seq<FakePrompt>, players: Players, votes: seq<Vote>)
    returns (defaults: seq<FakePrompt>, keys: seq<string>)
    requires IsRevealOf(dr, d, fakes, players, votes)
    ensures AreDefaults(defaults, d, fakes, players) && DistinctIds(fakes + defaults)
    ensures IsRevealBy(dr, keys, d, fakes + defaults, votes)
  {
    defaults :| AreDefaults(defaults, d, fakes, players) && DistinctIds(fakes + defaults)
                && IsReveal(dr, d, fakes + defaults, votes);
    keys :| IsRevealBy(dr, keys, d, fakes + defaults, votes);
  }

  /** The ids that count for the choice at position `i` of a reveal. */
  ghost function IdSet(fakes: seq<FakePrompt>, keys: seq<string>, i: nat): set<string>
    requires i <= |keys|
  {
    if i == |keys| then {TRUE_ID} else IdsOf(Group(fakes, keys[i]))
  }

  lemma VotersOfChoice(dr: DrawingReveal, keys: seq<string>, d: Drawing, fakes: seq<FakePrompt>, votes: seq<Vote>, i: nat)
    requires IsRevealBy(dr, keys, d, fakes, votes) && i <= |keys|
    ensures dr.choices[i].voters == VotersFor(votes, IdSet(fakes, keys, i))
  {
  }

  lemma IdSetsAreDisjoint(d: Drawing, fakes: seq<FakePrompt>, keys: seq<string>, i: nat, j: nat, id: string)
    requires DistinctIds(fakes) && Enumerates(keys, KeysOf(fakes, d.prompt))
    requires i <= |keys| && j <= |keys| && id in IdSet(fakes, keys, i) && id in IdSet(fakes, keys, j)
    ensures i == j
  {
    if i < |keys| && j < |keys| {
      if i != j {
        GroupsShareNoIds(fakes, keys[i], keys[j], id);
      }
    } else if i < |keys| {
      GroupIdsAreNotTrue(fakes, keys[i]);
    } else if j < |keys| {
      GroupIdsAreNotTrue(fakes, keys[j]);
    }
  }

  lemma GroupIdsAreNotTrue(fakes: seq<FakePrompt>, key: string)
    requires DistinctIds(fakes)
    ensures TRUE_ID !in IdsOf(Group(fakes, key))
  {
    assert forall f :: f in Group(fakes, key) ==> f in fakes;
  }

  /** Where a legitimate vote is counted. */
  lemma VoteHasAChoice(d: Drawing, submitted: seq<FakePrompt>, defaults: seq<FakePrompt>, keys: seq<string>, v: Vote)
    returns (i: nat)
    requires FakesFor(d, submitted) && MayChoose(v.voter, v.choice, submitted)
    requires Enumerates(keys, KeysOf(submitted + defaults, d.prompt))
    ensures i <= |keys| && v.choice in IdSet(submitted + defaults, keys, i)
  {
    if v.choice == TRUE_ID {
      return |keys|;
    }
    var f :| f in submitted && f.id == v.choice;
    var fakes, key := submitted + defaults, Normalize(f.text);
    assert f in fakes && key in KeysOf(fakes, d.prompt);
    assert f in Group(fakes, key);
    i :| 0 <= i < |keys| && keys[i] == key;
  }

  // ----- the ballot and the reveal agree -----

  ghost predicate Matches(ch: Choice, line: VotingChoice) {
    ch.id == line.id && ch.text == line.text && ch.isTrue == line.isTrue
  }

  ghost predicate IsBlank(ch: Choice) {
    ch.text == DEFAULT_FAKE_TEXT && !ch.isTrue && ch.voters == []
  }

  lemma KeysWithDefaults(fakes: seq<FakePrompt>, defaults: seq<FakePrompt>, prompt: string)
    requires forall f :: f in defaults ==> f.text == DEFAULT_FAKE_TEXT
    ensures KeysOf(fakes, prompt) <= KeysOf(fakes + defaults, prompt)
    ensures KeysOf(fakes + defaults, prompt) <= KeysOf(fakes, prompt) + {Normalize(DEFAULT_FAKE_TEXT)}
  {
    forall k | k in KeysOf(fakes, prompt)
      ensures k in KeysOf(fakes + defaults, prompt)
    {
      var f :| f in fakes && Normalize(f.text) != Normalize(prompt) && Normalize(f.text) == k;
      assert f in fakes + defaults;
    }
  }

  lemma EnumerationSize<T(!new)>(xs: seq<T>, s: set<T>)
    requires Enumerates(xs, s)
    ensures |xs| == |s|
  {
    if xs == [] {
      assert s == {};
    } else {
      var init, last := xs[..|xs| - 1], xs[|xs| - 1];
      EnumerationRemove(xs, |xs| - 1, s);
      assert init + xs[|xs|..] == init;
      EnumerationSize(init, s - {last});
    }
  }

  lemma SubsetSize<T>(a: set<T>, b: set<T>)
    requires a <= b
    ensures |a| <= |b|
  {
    if a != {} {
      var x :| x in a;
      SubsetSize(a - {x}, b - {x});
    }
  }

  lemma {:induction false} NoVoters(votes: seq<Vote>, ids: set<string>)
    requires forall v :: v in votes ==> v.choice !in ids
    ensures VotersFor(votes, ids) == []
  {
    if votes != [] {
      assert votes[|votes| - 1] in votes;
      NoVoters(votes[..|votes| - 1], ids);
    }
  }

  /** A text that was on the ballot keeps its id and wording in the reveal. */
  lemma OldKeyMatches(fakes: seq<FakePrompt>, defaults: seq<FakePrompt>, votes: seq<Vote>, key: string)
    requires Group(fakes, key) != []
    ensures Group(fakes + defaults, key) != []
    ensures Matches(FakeChoice(fakes + defaults, votes, key), BallotLine(fakes, key))
  {
    GroupAppend(fakes, defaults, key);
  }

  /** A text that was not on the ballot belongs to a default, and nobody voted for it. */
  lemma NewKeyIsBlank(d: Drawing, fakes: seq<FakePrompt>, defaults: seq<FakePrompt>, votes: seq<Vote>, key: string)
    requires VotesFor(d, fakes, votes) && DistinctIds(fakes + defaults)
    requires forall f :: f in defaults ==> f.text == DEFAULT_FAKE_TEXT
    requires Group(fakes + defaults, key) != [] && Group(fakes, key) == []
    ensures IsBlank(FakeChoice(fakes + defaults, votes, key))
  {
    GroupAppend(fakes, defaults, key);
    var g := Group(fakes + defaults, key);
    assert g[0] in Group(defaults, key);
    forall h | h in fakes
      ensures h !in g
    {
      assert h !in Group(fakes, key);
    }
    forall v | v in votes
      ensures v.choice !in IdsOf(g)
    {
      if v.choice == TRUE_ID {
        GroupIdsAreNotTrue(fakes + defaults, key);
      } else {
        var h :| h in fakes && h.id == v.choice;
        forall f | f in g
          ensures f.id != v.choice
        {
          if f.id == v.choice {
            SameIdSameFake(fakes + defaults, f, h);
          }
        }
      }
    }
    NoVoters(votes, IdsOf(g));
  }

  lemma LineIsRevealed(lines: seq<VotingChoice>, bk: seq<string>, dr: DrawingReveal, rk: seq<string>, d: Drawing,
                       fakes: seq<FakePrompt>, defaults: seq<FakePrompt>, votes: seq<Vote>, i: nat)
    returns (j: nat)
    requires IsBallotBy(lines, bk, fakes, d.prompt) && IsRevealBy(dr, rk, d, fakes + defaults, votes)
    requires KeysOf(fakes, d.prompt) <= KeysOf(fakes + defaults, d.prompt)
    requires i < |lines|
    ensures j < |dr.choices| && Matches(dr.choices[j], lines[i])
  {
    if i == |bk| {
      j := |rk|;
    } else {
      assert bk[i] in bk && bk[i] in rk;
      j := IndexIn(rk, bk[i]);
      OldKeyMatches(fakes, defaults, votes, bk[i]);
    }
  }

  lemma ChoiceWasOnBallot(lines: seq<VotingChoice>, bk: seq<string>, dr: DrawingReveal, rk: seq<string>, d: Drawing,
                          fakes: seq<FakePrompt>, defaults: seq<FakePrompt>, votes: seq<Vote>, i: nat)
    returns (j: nat)
    requires FakesFor(d, fakes) && VotesFor(d, fakes, votes) && DistinctIds(fakes + defaults)
    requires forall f :: f in defaults ==> f.text == DEFAULT_FAKE_TEXT
    requires IsBallotBy(lines, bk, fakes, d.prompt) && IsRevealBy(dr, rk, d, fakes + defaults, votes)
    requires i < |dr.choices|
    ensures j < |lines|
    ensures Matches(dr.choices[i], lines[j]) || IsBlank(dr.choices[i])
  {
    j := |bk|;
    if i < |rk| {
      if Group(fakes, rk[i]) == [] {
        NewKeyIsBlank(d, fakes, defaults, votes, rk[i]);
      } else {
        GroupKey(fakes, d, rk[i]);
        j := IndexIn(bk, rk[i]);
        OldKeyMatches(fakes, defaults, votes, rk[i]);
      }
    }
  }

  /** Everything offered on the ballot is revealed under the same id, and the reveal offers
      at most one thing more: the "..." of the absent, which nobody could vote for. */
  lemma BallotAndRevealAgree(lines: seq<VotingChoice>, dr: DrawingReveal, d: Drawing, fakes: seq<FakePrompt>,
                             players: Players, votes: seq<Vote>)
    requires FakesFor(d, fakes) && VotesFor(d, fakes, votes)
    requires IsBallot(lines, fakes, d.prompt) && IsRevealOf(dr, d, fakes, players, votes)
    ensures forall line :: line in lines ==> exists ch :: ch in dr.choices && Matches(ch, line)
    ensures forall ch :: ch in dr.choices ==> (exists line :: line in lines && Matches(ch, line)) || IsBlank(ch)
    ensures |lines| <= |dr.choices| <= |lines| + 1
  {
    var bk :| IsBallotBy(lines, bk, fakes, d.prompt);
    var defaults, rk := Unpack(dr, d, fakes, players, votes);
    KeysWithDefaults(fakes, defaults, d.prompt);
    forall line | line in lines
      ensures exists ch :: ch in dr.choices && Matches(ch, line)
    {
      var i :| 0 <= i < |lines| && lines[i] == line;
      var j := LineIsRevealed(lines, bk, dr, rk, d, fakes, defaults, votes, i);
      assert dr.choices[j] in dr.choices;
    }
    NothingElseIsRevealed(lines, bk, dr, rk, d, fakes, defaults, votes);
    OneMoreAtMost(bk, rk, fakes, defaults, d.prompt);
  }

  lemma NothingElseIsRevealed(lines: seq<VotingChoice>, bk: seq<string>, dr: DrawingReveal, rk: seq<string>, d: Drawing,
                              fakes: seq<FakePrompt>, defaults: seq<FakePrompt>, votes: seq<Vote>)
    requires FakesFor(d, fakes) && VotesFor(d, fakes, votes) && DistinctIds(fakes + defaults)
    requires forall f :: f in defaults ==> f.text == DEFAULT_FAKE_TEXT
    requires IsBallotBy(lines, bk, fakes, d.prompt) && IsRevealBy(dr, rk, d, fakes + defaults, votes)
    ensures forall ch :: ch in dr.choices ==> (exists line :: line in lines && Matches(ch, line)) || IsBlank(ch)
  {
    forall ch | ch in dr.choices
      ensures (exists line :: line in lines && Matches(ch, line)) || IsBlank(ch)
    {
      var i :| 0 <= i < |dr.choices| && dr.choices[i] == ch;
      var j := ChoiceWasOnBallot(lines, bk, dr, rk, d, fakes, defaults, votes, i);
      assert lines[j] in lines;
    }
  }

  lemma OneMoreAtMost(bk: seq<string>, rk: seq<string>, fakes: seq<FakePrompt>, defaults: seq<FakePrompt>, prompt: string)
    requires Enumerates(bk, KeysOf(fakes, prompt)) && Enumerates(rk, KeysOf(fakes + defaults, prompt))
    requires forall f :: f in defaults ==> f.text == DEFAULT_FAKE_TEXT
    ensures |bk| <= |rk| <= |bk| + 1
  {
    KeysWithDefaults(fakes, defaults, prompt);
    EnumerationSize(bk, KeysOf(fakes, prompt));
    EnumerationSize(rk, KeysOf(fakes + defaults, prompt));
    SubsetSize(KeysOf(fakes, prompt), KeysOf(fakes + defaults, prompt));
    SubsetSize(KeysOf(fakes + defaults, prompt), KeysOf(fakes, prompt) + {Normalize(DEFAULT_FAKE_TEXT)});
  }

  lemma IndexIn(xs: seq<string>, x: string) returns (i: nat)
    requires x in xs
    ensures i < |xs| && xs[i] == x
  {
    i :| 0 <= i < |xs| && xs[i] == x;
  }

  lemma GroupKey(fakes: seq<FakePrompt>, d: Drawing, key: string)
    requires FakesFor(d, fakes) && Group(fakes, key) != []
    ensures key in KeysOf(fakes, d.prompt)
  {
    var f := Group(fakes, key)[0];
    assert f in Group(fakes, key) && f in fakes;
  }

  // ----- votes are conserved -----

  /** Each accepted vote is counted for exactly one choice. */
  lemma VoteLandsOnce(dr: DrawingReveal, d: Drawing, fakes: seq<FakePrompt>, players: Players, votes: seq<Vote>, v: Vote)
    returns (i: nat)
    requires FakesFor(d, fakes) && VotesFor(d, fakes, votes) && v in votes
    requires IsRevealOf(dr, d, fakes, players, votes)
    ensures i < |dr.choices| && v.voter in dr.choices[i].voters
    ensures forall j :: 0 <= j < |dr.choices| && v.voter in dr.choices[j].voters ==> j == i
    ensures v.choice == TRUE_ID <==> dr.choices[i].isTrue
  {
    var defaults, keys := Unpack(dr, d, fakes, players, votes);
    var all := fakes + defaults;
    i := VoteHasAChoice(d, fakes, defaults, keys, v);
    forall j | 0 <= j < |dr.choices|
      ensures v.voter in dr.choices[j].voters <==> j == i
    {
      VoteCountsAt(dr, keys, d, fakes, all, votes, v, i, j);
    }
    if i < |keys| {
      GroupIdsAreNotTrue(all, keys[i]);
    }
  }

  lemma VoterVotesOnce(d: Drawing, fakes: seq<FakePrompt>, votes: seq<Vote>, v: Vote, w: Vote)
    requires VotesFor(d, fakes, votes) && v in votes && w in votes && v.voter == w.voter
    ensures v == w
  {
    var i :| 0 <= i < |votes| && votes[i] == v;
    var j :| 0 <= j < |votes| && votes[j] == w;
    assert i == j;
  }

  ghost function Sizes(sets: seq<set<string>>, votes: seq<Vote>): int {
    if sets == [] then 0 else Sizes(sets[..|sets| - 1], votes) + |VotersFor(votes, sets[|sets| - 1])|
  }

  ghost function Hits(sets: seq<set<string>>, id: string): int {
    if sets == [] then 0 else Hits(sets[..|sets| - 1], id) + if id in sets[|sets| - 1] then 1 else 0
  }

  lemma {:induction false} SizesStep(sets: seq<set<string>>, votes: seq<Vote>, v: Vote)
    ensures Sizes(sets, votes + [v]) == Sizes(sets, votes) + Hits(sets, v.choice)
  {
    if sets != [] {
      SizesStep(sets[..|sets| - 1], votes, v);
      VotersSnoc(votes, v, sets[|sets| - 1]);
    }
  }

  lemma {:induction false} HitsOnce(sets: seq<set<string>>, id: string, i: nat)
    requires i < |sets| && id in sets[i] && forall j :: 0 <= j < |sets| && id in sets[j] ==> j == i
    ensures Hits(sets, id) == 1
  {
    if i == |sets| - 1 {
      HitsNever(sets[..|sets| - 1], id);
    } else {
      HitsOnce(sets[..|sets| - 1], id, i);
    }
  }

  lemma {:induction false} HitsNever(sets: seq<set<string>>, id: string)
    requires forall j :: 0 <= j < |sets| ==> id !in sets[j]
    ensures Hits(sets, id) == 0
  {
    if sets != [] {
      HitsNever(sets[..|sets| - 1], id);
    }
  }

  lemma {:induction false} VotesPartition(sets: seq<set<string>>, votes: seq<Vote>)
    requires forall v :: v in votes ==> Hits(sets, v.choice) == 1
    ensures Sizes(sets, votes) == |votes|
    decreases |votes|
  {
    if votes == [] {
      NoVotes(sets);
    } else {
      var init, last := votes[..|votes| - 1], votes[|votes| - 1];
      VotesPartition(sets, init);
      SizesStep(sets, init, last);
      assert init + [last] == votes;
      assert last in votes;
    }
  }

  lemma {:induction false} NoVotes(sets: seq<set<string>>)
    ensures Sizes(sets, []) == 0
  {
    if sets != [] {
      NoVotes(sets[..|sets| - 1]);
    }
  }

  lemma {:induction false} SizesAreVotes(choices: seq<Choice>, sets: seq<set<string>>, votes: seq<Vote>)
    requires |choices| == |sets| && forall i :: 0 <= i < |sets| ==> choices[i].voters == VotersFor(votes, sets[i])
    ensures VotesCast(choices) == Sizes(sets, votes)
  {
    if sets != [] {
      SizesAreVotes(choices[..|choices| - 1], sets[..|sets| - 1], votes);
    }
  }

  /** No vote is lost and none is counted twice: a drawing's choices carry, in all, as many
      voters as votes were accepted for it. */
  lemma VotesAreConserved(dr: DrawingReveal, d: Drawing, fakes: seq<FakePrompt>, players: Players, votes: seq<Vote>)
    requires FakesFor(d, fakes) && VotesFor(d, fakes, votes) && IsRevealOf(dr, d, fakes, players, votes)
    ensures VotesCast(dr.choices) == |votes|
  {
    var defaults, keys := Unpack(dr, d, fakes, players, votes);
    var all := fakes + defaults;
    var sets := seq(|keys| + 1, i requires 0 <= i <= |keys| => IdSet(all, keys, i));
    forall v | v in votes
      ensures Hits(sets, v.choice) == 1
    {
      var i := VoteHasAChoice(d, fakes, defaults, keys, v);
      forall j | 0 <= j < |sets| && v.choice in sets[j]
        ensures j == i
      {
        IdSetsAreDisjoint(d, all, keys, i, j, v.choice);
      }
      HitsOnce(sets, v.choice, i);
    }
    VotesPartition(sets, votes);
    forall i | 0 <= i < |sets|
      ensures dr.choices[i].voters == VotersFor(votes, sets[i])
    {
      VotersOfChoice(dr, keys, d, all, votes, i);
    }
    SizesAreVotes(dr.choices, sets, votes);
  }

  /** A drawing pays at most 2000 points for each vote accepted on it. */
  lemma DrawingPaysPerAcceptedVote(dr: DrawingReveal, d: Drawing, fakes: seq<FakePrompt>, players: Players,
                                   votes: seq<Vote>, earners: seq<PlayerID>, pays: PlayerID -> int)
    requires FakesFor(d, fakes) && VotesFor(d, fakes, votes) && IsRevealOf(dr, d, fakes, players, votes)
    requires Covers(earners, dr.choices, dr.author) && forall p :: pays(p) == DrawingPoints(dr, p)
    ensures 0 <= Sum(earners, pays) <= 2000 * |votes|
  {
    VotesAreConserved(dr, d, fakes, players, votes);
    ChoicesConservePoints(earners, dr.choices, dr.author, pays);
    ChoicesTotalBounds(dr.choices);
  }

  // ----- who can profit from whom -----

  /** The drawer neither votes on nor writes a fake for the drawing. */
  lemma DrawerStaysOut(dr: DrawingReveal, d: Drawing, fakes: seq<FakePrompt>, players: Players, votes: seq<Vote>, i: nat)
    requires FakesFor(d, fakes) && VotesFor(d, fakes, votes) && IsRevealOf(dr, d, fakes, players, votes)
    requires i < |dr.choices|
    ensures dr.author == d.author
    ensures d.author !in dr.choices[i].voters && d.author !in dr.choices[i].authors
  {
    var defaults, keys := Unpack(dr, d, fakes, players, votes);
    var all := fakes + defaults;
    VotersOfChoice(dr, keys, d, all, votes, i);
    if i < |keys| {
      var g := Group(all, keys[i]);
      forall k | 0 <= k < |g|
        ensures g[k].author != d.author
      {
        assert g[k] in g && g[k] in all;
      }
    }
  }

  /** The voter's own text stands under the choice: they wrote a fake with the same
      normalised text as the one they chose, or will be given "..." and chose that. */
  ghost predicate SharesText(voter: PlayerID, chosen: FakePrompt, d: Drawing, fakes: seq<FakePrompt>, players: Players) {
    || (exists f :: f in fakes && f.author == voter && Normalize(f.text) == Normalize(chosen.text))
    || (Owes(voter, d, fakes, players) && Normalize(chosen.text) == Normalize(DEFAULT_FAKE_TEXT))
  }

  /** A counted vote is counted at the choice that merges its target. */
  lemma VoteCountsAt(dr: DrawingReveal, keys: seq<string>, d: Drawing, fakes: seq<FakePrompt>, all: seq<FakePrompt>,
                     votes: seq<Vote>, v: Vote, i: nat, j: nat)
    requires VotesFor(d, fakes, votes) && v in votes
    requires DistinctIds(all) && IsRevealBy(dr, keys, d, all, votes)
    requires i <= |keys| && v.choice in IdSet(all, keys, i)
    requires j < |dr.choices|
    ensures v.voter in dr.choices[j].voters <==> j == i
  {
    VotersOfChoice(dr, keys, d, all, votes, j);
    if v.voter in dr.choices[j].voters {
      var w :| w in votes && w.choice in IdSet(all, keys, j) && w.voter == v.voter;
      VoterVotesOnce(d, fakes, votes, v, w);
      IdSetsAreDisjoint(d, all, keys, i, j, v.choice);
    }
  }

  /** The rule against voting for one's own fake compares ids before the merge, so a merged
      choice can collect its own author's vote: exactly when the two texts collide. */
  lemma SelfVoteIff(dr: DrawingReveal, d: Drawing, fakes: seq<FakePrompt>, players: Players, votes: seq<Vote>,
                    v: Vote, chosen: FakePrompt)
    requires FakesFor(d, fakes) && VotesFor(d, fakes, votes) && IsRevealOf(dr, d, fakes, players, votes)
    requires v in votes && chosen in fakes && chosen.id == v.choice
    ensures (exists i :: 0 <= i < |dr.choices| && v.voter in dr.choices[i].voters && v.voter in dr.choices[i].authors)
       <==> SharesText(v.voter, chosen, d, fakes, players)
  {
    var defaults, keys := Unpack(dr, d, fakes, players, votes);
    var all, key := fakes + defaults, Normalize(chosen.text);
    assert chosen in all && key in KeysOf(all, d.prompt);
    var i := IndexIn(keys, key);
    assert chosen in Group(all, key) && v.choice in IdSet(all, keys, i);
    AuthorsInGroup(d, fakes, defaults, players, key, v.voter, chosen);
    assert dr.choices[i].authors == AuthorsOf(Group(all, key));
    forall j | 0 <= j < |dr.choices|
      ensures v.voter in dr.choices[j].voters <==> j == i
    {
      VoteCountsAt(dr, keys, d, fakes, all, votes, v, i, j);
    }
  }

  lemma AuthorsInGroup(d: Drawing, fakes: seq<FakePrompt>, defaults: seq<FakePrompt>, players: Players, key: string,
                       p: PlayerID, chosen: FakePrompt)
    requires AreDefaults(defaults, d, fakes, players) && key == Normalize(chosen.text)
    ensures p in AuthorsOf(Group(fakes + defaults, key)) <==> SharesText(p, chosen, d, fakes, players)
  {
    var g := Group(fakes + defaults, key);
    if p in AuthorsOf(g) {
      var k :| 0 <= k < |g| && AuthorsOf(g)[k] == p;
      assert g[k] in g && (g[k] in fakes || g[k] in defaults);
    }
    if SharesText(p, chosen, d, fakes, players) {
      var f;
      if exists h :: h in fakes && h.author == p && Normalize(h.text) == key {
        f :| f in fakes && f.author == p && Normalize(f.text) == key;
      } else {
        var k :| 0 <= k < |defaults| && AuthorsOf(defaults)[k] == p;
        f := defaults[k];
        assert f in defaults;
      }
      assert f in fakes + defaults && f in g;
      var m :| 0 <= m < |g| && g[m] == f;
      assert AuthorsOf(g)[m] == p;
    }
  }

  /** A choice with a single author never has that author among its voters. */
  lemma SoleAuthorNeverVotes(dr: DrawingReveal, d: Drawing, fakes: seq<FakePrompt>, players: Players, votes: seq<Vote>,
                             i: nat)
    requires FakesFor(d, fakes) && VotesFor(d, fakes, votes) && IsRevealOf(dr, d, fakes, players, votes)
    requires i < |dr.choices| && |dr.choices[i].authors| == 1
    ensures dr.choices[i].authors[0] !in dr.choices[i].voters
  {
    var defaults, keys := Unpack(dr, d, fakes, players, votes);
    var all := fakes + defaults;
    var g := Group(all, keys[i]);
    VotersOfChoice(dr, keys, d, all, votes, i);
    GroupIdsAreNotTrue(all, keys[i]);
    forall v | v in votes && v.choice in IdsOf(g)
      ensures v.voter != g[0].author
    {
      VoterIsNotTheAuthor(fakes, all, g, v);
    }
    assert dr.choices[i].authors == AuthorsOf(g);
  }

  lemma VoterIsNotTheAuthor(fakes: seq<FakePrompt>, all: seq<FakePrompt>, g: seq<FakePrompt>, v: Vote)
    requires |g| == 1 && g[0] in all && DistinctIds(all) && (forall f :: f in fakes ==> f in all)
    requires MayChoose(v.voter, v.choice, fakes) && v.choice != TRUE_ID && v.choice in IdsOf(g)
    ensures v.voter != g[0].author
  {
    var f :| f in fakes && f.id == v.choice && f.author != v.voter;
    assert g[0].id == v.choice;
    SameIdSameFake(all, f, g[0]);
  }

  /** The fake ids of a reveal are distinct, so the animation queue is well ordered. */
  lemma RevealIdsAreUnique(dr: DrawingReveal, d: Drawing, fakes: seq<FakePrompt>, players: Players, votes: seq<Vote>)
    requires IsRevealOf(dr, d, fakes, players, votes)
    ensures UniqueFakeIds(dr)
  {
    var defaults, keys := Unpack(dr, d, fakes, players, votes);
    var all := fakes + defaults;
    forall i, j | 0 <= i < j < |dr.choices| && !dr.choices[i].isTrue && !dr.choices[j].isTrue
      ensures dr.choices[i].id != dr.choices[j].id
    {
      FakeIdInSet(dr, keys, d, all, votes, i);
      FakeIdInSet(dr, keys, d, all, votes, j);
      if dr.choices[i].id == dr.choices[j].id {
        IdSetsAreDisjoint(d, all, keys, i, j, dr.choices[i].id);
      }
    }
  }

  lemma FakeIdInSet(dr: DrawingReveal, keys: seq<string>, d: Drawing, fakes: seq<FakePrompt>, votes: seq<Vote>, i: nat)
    requires IsRevealBy(dr, keys, d, fakes, votes) && i <= |keys| && !dr.choices[i].isTrue
    ensures dr.choices[i].id in IdSet(fakes, keys, i)
  {
    var g := Group(fakes, keys[i]);
    assert g[0] in g;
  }
}
