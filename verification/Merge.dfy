/** The collision merge. It is computed twice: once for the ballot the players vote on, and
    again, with default fakes added and votes tallied, for the reveal. */
module Merge {
  import opened Prelude
  import opened Text
  import opened Game

  // ----- fresh ids -----

  /** A version-4 UUID: some id never issued before, and not the reserved word. */
  method FreshId(issued: set<string>) returns (id: string)
    ensures id !in issued && id != "" && id != TRUE_ID
  {
    LongId(issued + {"", TRUE_ID});
    id :| id !in issued + {"", TRUE_ID};
  }

  lemma LongId(used: set<string>)
    ensures exists id: string :: id !in used
  {
    var n := Longest(used);
    var id := seq(n + 1, i => 'f');
    assert |id| > n;
    assert id !in used;
  }

  ghost function Longest(used: set<string>): (n: nat)
    ensures forall id :: id in used ==> |id| <= n
  {
    if used == {} then 0
    else
      var id :| id in used;
      var m := Longest(used - {id});
      if |id| > m then |id| else m
  }

  // ----- grouping -----

  /** The fakes that share a normalised text, in submission order. */
  ghost function Group(fakes: seq<FakePrompt>, key: string): (g: seq<FakePrompt>)
    ensures forall f :: f in g <==> f in fakes && Normalize(f.text) == key
    ensures |g| <= |fakes|
  {
    if fakes == [] then []
    else
      var last := fakes[|fakes| - 1];
      Group(fakes[..|fakes| - 1], key) + if Normalize(last.text) == key then [last] else []
  }

  /** The normalised texts that become choices: all but the true prompt's own. */
  ghost function KeysOf(fakes: seq<FakePrompt>, prompt: string): set<string> {
    set f | f in fakes && Normalize(f.text) != Normalize(prompt) :: Normalize(f.text)
  }

  ghost predicate AreBuckets(buckets: map<string, seq<FakePrompt>>, fakes: seq<FakePrompt>, prompt: string) {
    && buckets.Keys == KeysOf(fakes, prompt)
    && forall key :: key in buckets ==> buckets[key] == Group(fakes, key) && buckets[key] != []
  }

  method Buckets(fakes: seq<FakePrompt>, prompt: string) returns (buckets: map<string, seq<FakePrompt>>)
    ensures AreBuckets(buckets, fakes, prompt)
  {
    buckets := map[];
    var trueNorm := Normalize(prompt);
    for i := 0 to |fakes|
      invariant AreBuckets(buckets, fakes[..i], prompt)
    {
      var f := fakes[i];
      var key := Normalize(f.text);
      assert fakes[..i + 1] == fakes[..i] + [f];
      if key == trueNorm {
        BucketSkip(buckets, fakes[..i], f, prompt);
        continue;
      }
      BucketAdd(buckets, fakes[..i], f, prompt, key);
      buckets := buckets[key := ListAt(buckets, key) + [f]];
    }
    assert fakes[..|fakes|] == fakes;
  }

  lemma BucketSkip(buckets: map<string, seq<FakePrompt>>, fakes: seq<FakePrompt>, f: FakePrompt, prompt: string)
    requires AreBuckets(buckets, fakes, prompt) && Normalize(f.text) == Normalize(prompt)
    ensures AreBuckets(buckets, fakes + [f], prompt)
  {
    KeysSnoc(fakes, f, prompt);
    forall k | k in buckets
      ensures buckets[k] == Group(fakes + [f], k)
    {
      GroupSnoc(fakes, f, k);
    }
  }

  lemma BucketAdd(buckets: map<string, seq<FakePrompt>>, fakes: seq<FakePrompt>, f: FakePrompt, prompt: string, key: string)
    requires AreBuckets(buckets, fakes, prompt) && key == Normalize(f.text) != Normalize(prompt)
    ensures AreBuckets(buckets[key := ListAt(buckets, key) + [f]], fakes + [f], prompt)
  {
    var after := buckets[key := ListAt(buckets, key) + [f]];
    KeysSnoc(fakes, f, prompt);
    assert after.Keys == KeysOf(fakes + [f], prompt);
    forall k | k in after
      ensures after[k] == Group(fakes + [f], k) && after[k] != []
    {
      BucketAddAt(buckets, fakes, f, prompt, k);
    }
  }

  lemma BucketAddAt(buckets: map<string, seq<FakePrompt>>, fakes: seq<FakePrompt>, f: FakePrompt, prompt: string, k: string)
    requires AreBuckets(buckets, fakes, prompt) && (k in buckets || k == Normalize(f.text) != Normalize(prompt))
    ensures Group(fakes + [f], k) == ListAt(buckets, k) + if Normalize(f.text) == k then [f] else []
    ensures Group(fakes + [f], k) != []
  {
    GroupSnoc(fakes, f, k);
    if k !in buckets {
      NoGroup(fakes, k, prompt);
    }
  }

  lemma KeysSnoc(fakes: seq<FakePrompt>, f: FakePrompt, prompt: string)
    ensures KeysOf(fakes + [f], prompt) ==
            KeysOf(fakes, prompt) + if Normalize(f.text) == Normalize(prompt) then {} else {Normalize(f.text)}
  {
  }

  lemma GroupSnoc(fakes: seq<FakePrompt>, f: FakePrompt, key: string)
    ensures Group(fakes + [f], key) == Group(fakes, key) + if Normalize(f.text) == key then [f] else []
  {
    assert (fakes + [f])[..|fakes|] == fakes;
  }

  lemma {:induction false} NoGroup(fakes: seq<FakePrompt>, key: string, prompt: string)
    requires key !in KeysOf(fakes, prompt) && key != Normalize(prompt)
    ensures Group(fakes, key) == []
  {
    if fakes != [] {
      var init := fakes[..|fakes| - 1];
      KeysSnoc(init, fakes[|fakes| - 1], prompt);
      assert init + [fakes[|fakes| - 1]] == fakes;
      NoGroup(init, key, prompt);
    }
  }

  lemma {:induction false} GroupAppend(fakes: seq<FakePrompt>, more: seq<FakePrompt>, key: string)
    ensures Group(fakes + more, key) == Group(fakes, key) + Group(more, key)
  {
    if more == [] {
      assert fakes + more == fakes;
    } else {
      assert (fakes + more)[..|fakes + more| - 1] == fakes + more[..|more| - 1];
      GroupAppend(fakes, more[..|more| - 1], key);
    }
  }

  // ----- the ballot -----

  ghost function BallotLine(fakes: seq<FakePrompt>, key: string): VotingChoice
    requires Group(fakes, key) != []
  {
    var first := Group(fakes, key)[0];
    VotingChoice(first.id, first.text, false)
  }

  /** `lines` is a ballot for these fakes: one line for each merged text, in some order,
      and the true prompt last. */
  ghost predicate IsBallot(lines: seq<VotingChoice>, fakes: seq<FakePrompt>, prompt: string) {
    exists keys: seq<string> :: IsBallotBy(lines, keys, fakes, prompt)
  }

  ghost predicate IsBallotBy(lines: seq<VotingChoice>, keys: seq<string>, fakes: seq<FakePrompt>, prompt: string) {
    && Enumerates(keys, KeysOf(fakes, prompt))
    && |lines| == |keys| + 1
    && (forall i :: 0 <= i < |keys| ==> Group(fakes, keys[i]) != [] && lines[i] == BallotLine(fakes, keys[i]))
    && lines[|keys|] == VotingChoice(TRUE_ID, prompt, true)
  }

  method VotingChoices(d: Drawing, fakes: seq<FakePrompt>) returns (lines: seq<VotingChoice>)
    ensures IsBallot(lines, fakes, d.prompt)
  {
    var buckets := Buckets(fakes, d.prompt);
    var keys := AnyOrder(buckets.Keys);
    lines := [];
    for i := 0 to |keys|
      invariant |lines| == i
      invariant forall j :: 0 <= j < i ==> Group(fakes, keys[j]) != [] && lines[j] == BallotLine(fakes, keys[j])
    {
      var group := buckets[keys[i]];
      lines := lines + [VotingChoice(group[0].id, group[0].text, false)];
    }
    lines := lines + [VotingChoice(TRUE_ID, d.prompt, true)];
    assert IsBallotBy(lines, keys, fakes, d.prompt);
  }

  // ----- the reveal -----

  /** Ids are issued once: within a drawing no two fakes share one. */
  ghost predicate DistinctIds(fakes: seq<FakePrompt>) {
    && (forall i, j :: 0 <= i < j < |fakes| ==> fakes[i].id != fakes[j].id)
    && (forall f :: f in fakes ==> f.id != TRUE_ID && f.id != "")
  }

  function IdsOf(group: seq<FakePrompt>): set<string> {
    set f | f in group :: f.id
  }

  function AuthorsOf(group: seq<FakePrompt>): (authors: seq<PlayerID>)
    ensures |authors| == |group| && forall i :: 0 <= i < |group| ==> authors[i] == group[i].author
  {
    seq(|group|, i requires 0 <= i < |group| => group[i].author)
  }

  /** Who voted for one of `ids`, in voting order. */
  ghost function VotersFor(votes: seq<Vote>, ids: set<string>): (voters: seq<PlayerID>)
    ensures forall p :: p in voters <==> exists v :: v in votes && v.choice in ids && v.voter == p
  {
    if votes == [] then []
    else
      var init, last := votes[..|votes| - 1], votes[|votes| - 1];
      assert forall v :: v in votes <==> v in init || v == last;
      VotersFor(init, ids) + if last.choice in ids then [last.voter] else []
  }

  ghost function FakeChoice(fakes: seq<FakePrompt>, votes: seq<Vote>, key: string): Choice
    requires Group(fakes, key) != []
  {
    var g := Group(fakes, key);
    Choice(g[0].id, g[0].text, AuthorsOf(g), false, VotersFor(votes, IdsOf(g)))
  }

  ghost function TrueChoice(prompt: string, votes: seq<Vote>): Choice {
    Choice(TRUE_ID, prompt, [], true, VotersFor(votes, {TRUE_ID}))
  }

  ghost predicate IsRevealBy(dr: DrawingReveal, keys: seq<string>, d: Drawing, fakes: seq<FakePrompt>, votes: seq<Vote>) {
    && dr.drawing == d.id && dr.author == d.author && dr.prompt == d.prompt
    && Enumerates(keys, KeysOf(fakes, d.prompt))
    && |dr.choices| == |keys| + 1
    && (forall i :: 0 <= i < |keys| ==>
                      Group(fakes, keys[i]) != [] && dr.choices[i] == FakeChoice(fakes, votes, keys[i]))
    && dr.choices[|keys|] == TrueChoice(d.prompt, votes)
  }

  /** `dr` reveals drawing `d` with exactly these fakes: one choice for each merged text, in
      some order, its voters being those who voted for any member. */
  ghost predicate IsReveal(dr: DrawingReveal, d: Drawing, fakes: seq<FakePrompt>, votes: seq<Vote>) {
    exists keys: seq<string> :: IsRevealBy(dr, keys, d, fakes, votes)
  }

  /** The "..." fakes added for absent players who submitted nothing for the drawing. */
  ghost predicate AreDefaults(defaults: seq<FakePrompt>, d: Drawing, fakes: seq<FakePrompt>, players: Players) {
    && (forall f :: f in defaults ==>
                      && f.text == DEFAULT_FAKE_TEXT && f.drawing == d.id
                      && Owes(f.author, d, fakes, players))
    && (forall p :: Owes(p, d, fakes, players) ==> p in AuthorsOf(defaults))
    && (forall i, j :: 0 <= i < j < |defaults| ==> defaults[i].author != defaults[j].author)
  }

  ghost predicate Owes(p: PlayerID, d: Drawing, fakes: seq<FakePrompt>, players: Players) {
    p in players && p != d.author && !players[p].connected && p !in AuthorsOf(fakes)
  }

  method DefaultFakes(d: Drawing, fakes: seq<FakePrompt>, players: Players, issued0: set<string>)
    returns (defaults: seq<FakePrompt>, issued: set<string>)
    requires DistinctIds(fakes) && IdsOf(fakes) <= issued0
    ensures AreDefaults(defaults, d, fakes, players)
    ensures DistinctIds(fakes + defaults)
    ensures issued == issued0 + IdsOf(defaults)
  {
    var submittedAuthors: set<PlayerID> := {};
    for i := 0 to |fakes|
      invariant forall p :: p in submittedAuthors <==> p in AuthorsOf(fakes[..i])
    {
      assert AuthorsOf(fakes[..i + 1]) == AuthorsOf(fakes[..i]) + [fakes[i].author];
      submittedAuthors := submittedAuthors + {fakes[i].author};
    }
    assert fakes[..|fakes|] == fakes;
    defaults, issued := [], issued0;
    var pids := AnyOrder(players.Keys);
    for i := 0 to |pids|
      invariant forall f :: f in defaults ==>
                              && f.text == DEFAULT_FAKE_TEXT && f.drawing == d.id
                              && Owes(f.author, d, fakes, players) && f.author in pids[..i]
      invariant forall p :: p in pids[..i] && Owes(p, d, fakes, players) ==> p in AuthorsOf(defaults)
      invariant forall j, k :: 0 <= j < k < |defaults| ==> defaults[j].author != defaults[k].author
      invariant DistinctIds(fakes + defaults)
      invariant issued == issued0 + IdsOf(defaults)
    {
      var pid := pids[i];
      assert pid !in pids[..i];
      if pid == d.author {
        continue;
      }
      if !players[pid].connected && pid !in submittedAuthors {
        var id := FreshId(issued);
        var f := FakePrompt(id, d.id, pid, DEFAULT_FAKE_TEXT);
        forall g | g in fakes + defaults
          ensures g.id != id
        {
          assert g in fakes ==> g.id in IdsOf(fakes);
          assert g in defaults ==> g.id in IdsOf(defaults);
        }
        assert AuthorsOf(defaults + [f]) == AuthorsOf(defaults) + [pid];
        assert IdsOf(defaults + [f]) == IdsOf(defaults) + {id};
        assert fakes + (defaults + [f]) == (fakes + defaults) + [f];
        defaults := defaults + [f];
        issued := issued + {id};
      }
    }
  }

  ghost function GroupIndex(group: seq<FakePrompt>): map<string, string>
    requires group != []
  {
    Paint(IdsOf(group), group[0].id)
  }

  ghost function Paint(ids: set<string>, to: string): map<string, string> {
    map id | id in ids :: to
  }

  lemma PaintOneMore(before: map<string, string>, ids: set<string>, id: string, to: string)
    ensures (before + Paint(ids, to))[id := to] == before + Paint(ids + {id}, to)
  {
  }

  lemma IdsSnoc(group: seq<FakePrompt>, f: FakePrompt)
    ensures IdsOf(group + [f]) == IdsOf(group) + {f.id}
  {
  }

  /** Which choice a vote counts for: any member of a group stands for the group's first. */
  ghost function IndexOver(fakes: seq<FakePrompt>, keys: seq<string>): map<string, string>
    requires forall k :: k in keys ==> Group(fakes, k) != []
  {
    if keys == [] then map[TRUE_ID := TRUE_ID]
    else IndexOver(fakes, keys[..|keys| - 1]) + GroupIndex(Group(fakes, keys[|keys| - 1]))
  }

  method FakeToChoice(buckets: map<string, seq<FakePrompt>>, ghost fakes: seq<FakePrompt>, ghost prompt: string)
    returns (index: map<string, string>, ghost keys: seq<string>)
    requires AreBuckets(buckets, fakes, prompt)
    ensures Enumerates(keys, KeysOf(fakes, prompt))
    ensures forall k :: k in keys ==> Group(fakes, k) != []
    ensures index == IndexOver(fakes, keys)
    ensures DistinctIds(fakes) ==> IsIndex(index, fakes, prompt)
  {
    index := map[TRUE_ID := TRUE_ID];
    var order := AnyOrder(buckets.Keys);
    assert forall k :: k in order ==> k in buckets;
    for i := 0 to |order|
      invariant index == IndexOver(fakes, order[..i])
    {
      assert order[..i + 1][..i] == order[..i];
      index := IndexGroup(index, buckets[order[i]]);
    }
    assert order[..|order|] == order;
    keys := order;
    if DistinctIds(fakes) {
      IndexIsRight(fakes, keys, prompt);
    }
  }

  /** Every member of a group leads to the group's first id, and the truth to itself. */
  ghost predicate IsIndex(index: map<string, string>, fakes: seq<FakePrompt>, prompt: string) {
    && TRUE_ID in index && index[TRUE_ID] == TRUE_ID
    && forall f :: f in fakes && Normalize(f.text) != Normalize(prompt) ==> LeadsToFirst(index, fakes, f)
  }

  ghost predicate LeadsToFirst(index: map<string, string>, fakes: seq<FakePrompt>, f: FakePrompt) {
    var group := Group(fakes, Normalize(f.text));
    group != [] && f.id in index && index[f.id] == group[0].id
  }

  lemma IndexIsRight(fakes: seq<FakePrompt>, keys: seq<string>, prompt: string)
    requires DistinctIds(fakes) && Enumerates(keys, KeysOf(fakes, prompt))
    requires forall k :: k in keys ==> Group(fakes, k) != []
    ensures IsIndex(IndexOver(fakes, keys), fakes, prompt)
  {
    forall f | f in fakes && Normalize(f.text) != Normalize(prompt)
      ensures LeadsToFirst(IndexOver(fakes, keys), fakes, f)
    {
      assert Normalize(f.text) in keys && f in Group(fakes, Normalize(f.text));
      IndexHit(fakes, keys, Normalize(f.text), f.id);
    }
    IndexOnly(fakes, keys, TRUE_ID);
  }

  method IndexGroup(before: map<string, string>, group: seq<FakePrompt>) returns (index: map<string, string>)
    requires group != []
    ensures index == before + GroupIndex(group)
  {
    index := before;
    var first := group[0].id;
    for j := 0 to |group|
      invariant index == before + Paint(IdsOf(group[..j]), first)
    {
      assert group[..j + 1] == group[..j] + [group[j]];
      IdsSnoc(group[..j], group[j]);
      PaintOneMore(before, IdsOf(group[..j]), group[j].id, first);
      index := index[group[j].id := first];
    }
    assert group[..|group|] == group;
  }

  lemma SameIdSameFake(fakes: seq<FakePrompt>, f: FakePrompt, g: FakePrompt)
    requires DistinctIds(fakes) && f in fakes && g in fakes && f.id == g.id
    ensures f == g
  {
    var i :| 0 <= i < |fakes| && fakes[i] == f;
    var j :| 0 <= j < |fakes| && fakes[j] == g;
    assert i == j;
  }

  lemma GroupsShareNoIds(fakes: seq<FakePrompt>, k1: string, k2: string, id: string)
    requires DistinctIds(fakes) && k1 != k2 && id in IdsOf(Group(fakes, k1))
    ensures id !in IdsOf(Group(fakes, k2)) && id != TRUE_ID
  {
    var f :| f in Group(fakes, k1) && f.id == id;
    forall g | g in Group(fakes, k2)
      ensures g.id != id
    {
      if g.id == id {
        SameIdSameFake(fakes, f, g);
      }
    }
  }

  lemma {:induction false} IndexHit(fakes: seq<FakePrompt>, keys: seq<string>, key: string, id: string)
    requires DistinctIds(fakes) && forall k :: k in keys ==> Group(fakes, k) != []
    requires key in keys && id in IdsOf(Group(fakes, key))
    ensures id in IndexOver(fakes, keys) && IndexOver(fakes, keys)[id] == Group(fakes, key)[0].id
  {
    var init, last := keys[..|keys| - 1], keys[|keys| - 1];
    if last != key {
      GroupsShareNoIds(fakes, key, last, id);
      IndexHit(fakes, init, key, id);
    }
  }

  lemma {:induction false} IndexOnly(fakes: seq<FakePrompt>, keys: seq<string>, id: string)
    requires DistinctIds(fakes) && forall k :: k in keys ==> Group(fakes, k) != []
    ensures TRUE_ID in IndexOver(fakes, keys) && IndexOver(fakes, keys)[TRUE_ID] == TRUE_ID
    ensures id in IndexOver(fakes, keys) && id != TRUE_ID ==>
              exists k :: k in keys && id in IdsOf(Group(fakes, k))
  {
    if keys != [] {
      var init, last := keys[..|keys| - 1], keys[|keys| - 1];
      IndexOnly(fakes, init, id);
      assert forall k :: k in init ==> k in keys;
      assert forall f :: f in Group(fakes, last) ==> f.id != TRUE_ID;
      assert last in keys;
    }
  }

  /** A vote counts for group `key` exactly when it names one of its members. */
  lemma IndexFindsGroup(fakes: seq<FakePrompt>, keys: seq<string>, key: string, id: string)
    requires DistinctIds(fakes) && forall k :: k in keys ==> Group(fakes, k) != []
    requires key in keys
    ensures var index := IndexOver(fakes, keys);
            id in IdsOf(Group(fakes, key)) <==> id in index && index[id] == Group(fakes, key)[0].id
  {
    var index, first := IndexOver(fakes, keys), Group(fakes, key)[0];
    assert first in Group(fakes, key) && first.id in IdsOf(Group(fakes, key));
    IndexOnly(fakes, keys, id);
    if id in IdsOf(Group(fakes, key)) {
      IndexHit(fakes, keys, key, id);
    } else if id in index && id != TRUE_ID {
      var k :| k in keys && id in IdsOf(Group(fakes, k));
      IndexHit(fakes, keys, k, id);
      var g := Group(fakes, k)[0];
      assert g in Group(fakes, k) && g.id in IdsOf(Group(fakes, k));
      GroupsShareNoIds(fakes, k, key, g.id);
    }
  }

  lemma IndexFindsTrue(fakes: seq<FakePrompt>, keys: seq<string>, id: string)
    requires DistinctIds(fakes) && forall k :: k in keys ==> Group(fakes, k) != []
    ensures var index := IndexOver(fakes, keys);
            id == TRUE_ID <==> id in index && index[id] == TRUE_ID
  {
    IndexOnly(fakes, keys, id);
    if id in IndexOver(fakes, keys) && id != TRUE_ID {
      var k :| k in keys && id in IdsOf(Group(fakes, k));
      IndexHit(fakes, keys, k, id);
      assert Group(fakes, k)[0] in Group(fakes, k);
    }
  }

  /** The voters listed for choice `id` are those who voted for one of `ids`. */
  ghost predicate Tallied(tally: map<string, seq<PlayerID>>, id: string, ids: set<string>, votes: seq<Vote>) {
    ListAt(tally, id) == VotersFor(votes, ids)
  }

  ghost predicate IsTally(tally: map<string, seq<PlayerID>>, fakes: seq<FakePrompt>, keys: seq<string>, votes: seq<Vote>)
    requires forall k :: k in keys ==> Group(fakes, k) != []
  {
    && (forall k :: k in keys ==> Tallied(tally, Group(fakes, k)[0].id, IdsOf(Group(fakes, k)), votes))
    && Tallied(tally, TRUE_ID, {TRUE_ID}, votes)
  }

  method ChoiceVoters(index: map<string, string>, votes: seq<Vote>, ghost fakes: seq<FakePrompt>, ghost keys: seq<string>)
    returns (tally: map<string, seq<PlayerID>>)
    requires DistinctIds(fakes) && forall k :: k in keys ==> Group(fakes, k) != []
    requires index == IndexOver(fakes, keys)
    ensures IsTally(tally, fakes, keys, votes)
  {
    tally := map[];
    for i := 0 to |votes|
      invariant IsTally(tally, fakes, keys, votes[..i])
    {
      TallyNext(tally, index, fakes, keys, votes, i);
      tally := TallyOne(tally, index, votes[i]);
    }
    assert votes[..|votes|] == votes;
  }

  lemma TallyNext(tally: map<string, seq<PlayerID>>, index: map<string, string>, fakes: seq<FakePrompt>, keys: seq<string>,
                  votes: seq<Vote>, i: nat)
    requires DistinctIds(fakes) && forall k :: k in keys ==> Group(fakes, k) != []
    requires index == IndexOver(fakes, keys) && i < |votes| && IsTally(tally, fakes, keys, votes[..i])
    ensures IsTally(CountVote(tally, index, votes[i]), fakes, keys, votes[..i + 1])
  {
    assert votes[..i + 1] == votes[..i] + [votes[i]];
    TallyStep(tally, fakes, keys, votes[..i], votes[i]);
  }

  /** A vote for an id that no fake has is dropped. */
  method TallyOne(before: map<string, seq<PlayerID>>, index: map<string, string>, v: Vote)
    returns (tally: map<string, seq<PlayerID>>)
    ensures tally == CountVote(before, index, v)
  {
    tally := before;
    if v.choice in index {
      var canonical := index[v.choice];
      tally := tally[canonical := ListAt(tally, canonical) + [v.voter]];
    }
  }

  lemma VotersSnoc(votes: seq<Vote>, v: Vote, ids: set<string>)
    ensures VotersFor(votes + [v], ids) == VotersFor(votes, ids) + if v.choice in ids then [v.voter] else []
  {
    assert (votes + [v])[..|votes|] == votes;
  }

  ghost function CountVote(tally: map<string, seq<PlayerID>>, index: map<string, string>, v: Vote)
    : map<string, seq<PlayerID>>
  {
    if v.choice in index then tally[index[v.choice] := ListAt(tally, index[v.choice]) + [v.voter]] else tally
  }

  lemma TallyStepFor(tally: map<string, seq<PlayerID>>, index: map<string, string>, id: string, ids: set<string>,
                     votes: seq<Vote>, v: Vote)
    requires Tallied(tally, id, ids, votes)
    requires v.choice in ids <==> v.choice in index && index[v.choice] == id
    ensures Tallied(CountVote(tally, index, v), id, ids, votes + [v])
  {
    VotersSnoc(votes, v, ids);
  }

  lemma TallyStep(tally: map<string, seq<PlayerID>>, fakes: seq<FakePrompt>, keys: seq<string>, votes: seq<Vote>, v: Vote)
    requires DistinctIds(fakes) && forall k :: k in keys ==> Group(fakes, k) != []
    requires IsTally(tally, fakes, keys, votes)
    ensures IsTally(CountVote(tally, IndexOver(fakes, keys), v), fakes, keys, votes + [v])
  {
    var index := IndexOver(fakes, keys);
    forall k | k in keys
      ensures Tallied(CountVote(tally, index, v), Group(fakes, k)[0].id, IdsOf(Group(fakes, k)), votes + [v])
    {
      IndexFindsGroup(fakes, keys, k, v.choice);
      TallyStepFor(tally, index, Group(fakes, k)[0].id, IdsOf(Group(fakes, k)), votes, v);
    }
    IndexFindsTrue(fakes, keys, v.choice);
    TallyStepFor(tally, index, TRUE_ID, {TRUE_ID}, votes, v);
  }

  method UntalliedChoices(buckets: map<string, seq<FakePrompt>>, prompt: string, ghost fakes: seq<FakePrompt>)
    returns (choices: seq<Choice>, ghost keys: seq<string>)
    requires AreBuckets(buckets, fakes, prompt)
    ensures Enumerates(keys, KeysOf(fakes, prompt)) && |choices| == |keys| + 1
    ensures forall i :: 0 <= i < |keys| ==> Group(fakes, keys[i]) != [] && IsUntallied(choices[i], Group(fakes, keys[i]))
    ensures choices[|keys|] == Choice(TRUE_ID, prompt, [], true, [])
  {
    var order := AnyOrder(buckets.Keys);
    choices := [];
    for i := 0 to |order|
      invariant |choices| == i
      invariant forall j :: 0 <= j < i ==>
                              Group(fakes, order[j]) != [] && IsUntallied(choices[j], Group(fakes, order[j]))
    {
      var group := buckets[order[i]];
      choices := choices + [Choice(group[0].id, group[0].text, AuthorsOf(group), false, [])];
    }
    choices := choices + [Choice(TRUE_ID, prompt, [], true, [])];
    keys := order;
  }

  ghost predicate IsUntallied(ch: Choice, g: seq<FakePrompt>) {
    g != [] && ch == Choice(g[0].id, g[0].text, AuthorsOf(g), false, [])
  }

  method TallyChoices(untallied: seq<Choice>, tally: map<string, seq<PlayerID>>) returns (choices: seq<Choice>)
    ensures |choices| == |untallied|
    ensures forall j :: 0 <= j < |choices| ==> choices[j] == untallied[j].(voters := ListAt(tally, untallied[j].id))
  {
    choices := untallied;
    for i := 0 to |choices|
      invariant |choices| == |untallied|
      invariant forall j :: i <= j < |choices| ==> choices[j] == untallied[j]
      invariant forall j :: 0 <= j < i ==> choices[j] == untallied[j].(voters := ListAt(tally, untallied[j].id))
    {
      choices := choices[i := choices[i].(voters := ListAt(tally, choices[i].id))];
    }
  }

  lemma TalliedIsReveal(dr: DrawingReveal, untallied: seq<Choice>, keys: seq<string>, indexed: seq<string>,
                        tally: map<string, seq<PlayerID>>, d: Drawing, fakes: seq<FakePrompt>, votes: seq<Vote>)
    requires dr == DrawingReveal(d.id, d.author, d.prompt, dr.choices)
    requires Enumerates(keys, KeysOf(fakes, d.prompt)) && Enumerates(indexed, KeysOf(fakes, d.prompt))
    requires |untallied| == |keys| + 1 == |dr.choices|
    requires forall i :: 0 <= i < |keys| ==> IsUntallied(untallied[i], Group(fakes, keys[i]))
    requires untallied[|keys|] == Choice(TRUE_ID, d.prompt, [], true, [])
    requires forall k :: k in indexed ==> Group(fakes, k) != []
    requires IsTally(tally, fakes, indexed, votes)
    requires forall j :: 0 <= j < |dr.choices| ==>
                           dr.choices[j] == untallied[j].(voters := ListAt(tally, untallied[j].id))
    ensures IsRevealBy(dr, keys, d, fakes, votes)
  {
    forall i | 0 <= i < |keys|
      ensures Group(fakes, keys[i]) != [] && dr.choices[i] == FakeChoice(fakes, votes, keys[i])
    {
      var g := Group(fakes, keys[i]);
      assert keys[i] in indexed;
      assert IsUntallied(untallied[i], g);
      assert Tallied(tally, g[0].id, IdsOf(g), votes);
    }
    assert Tallied(tally, TRUE_ID, {TRUE_ID}, votes);
  }

  /** The reveal of one drawing. `issued` is the set of ids handed out so far. */
  method RevealDrawing(d: Drawing, submitted: seq<FakePrompt>, players: Players, votes: seq<Vote>, issued0: set<string>)
    returns (dr: DrawingReveal, issued: set<string>)
    requires DistinctIds(submitted) && IdsOf(submitted) <= issued0
    ensures IsRevealOf(dr, d, submitted, players, votes)
    ensures issued0 <= issued
  {
    var defaults;
    defaults, issued := DefaultFakes(d, submitted, players, issued0);
    var fakes := submitted + defaults;
    var buckets := Buckets(fakes, d.prompt);
    var choices;
    ghost var keys, indexed;
    choices, keys := UntalliedChoices(buckets, d.prompt, fakes);
    var index;
    index, indexed := FakeToChoice(buckets, fakes, d.prompt);
    var tally := ChoiceVoters(index, votes, fakes, indexed);
    var tallied := TallyChoices(choices, tally);
    dr := DrawingReveal(d.id, d.author, d.prompt, tallied);
    TalliedIsReveal(dr, choices, keys, indexed, tally, d, fakes, votes);
  }

  /** `dr` reveals `d` with the submitted fakes plus the defaults due at that moment. */
  ghost predicate IsRevealOf(dr: DrawingReveal, d: Drawing, submitted: seq<FakePrompt>, players: Players, votes: seq<Vote>) {
    exists defaults ::
      && AreDefaults(defaults, d, submitted, players)
      && DistinctIds(submitted + defaults)
      && IsReveal(dr, d, submitted + defaults, votes)
  }
}
