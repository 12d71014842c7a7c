/** What is on offer, text by text: the lines of a ballot and the choices of a reveal, and who is
    credited with which. */
module Offers {
  import opened Text
  import opened Game
  import opened Merge
  import opened Conservation

  // ----- the ballot -----

  ghost predicate FirstAt(f: FakePrompt, fakes: seq<FakePrompt>, i: nat) {
    i < |fakes| && fakes[i] == f && forall j :: 0 <= j < i ==> Normalize(fakes[j].text) != Normalize(f.text)
  }

  /** `f` is the first of the fakes with its text. */
  ghost predicate IsFirst(f: FakePrompt, fakes: seq<FakePrompt>) {
    exists i :: FirstAt(f, fakes, i)
  }

  ghost function LineOf(f: FakePrompt): VotingChoice {
    VotingChoice(f.id, f.text, false)
  }

  /** The line of a fake that is the first with its text. */
  ghost predicate IsFakeLine(line: VotingChoice, fakes: seq<FakePrompt>) {
    exists f :: f in fakes && IsFirst(f, fakes) && line == LineOf(f)
  }

  /** The lines read differently, whatever the case and the spacing; the last is the truth; the
      others are the fakes, each text once, under the id and in the words of the first with it. */
  ghost predicate IsFullBallot(lines: seq<VotingChoice>, d: Drawing, fakes: seq<FakePrompt>) {
    && (forall i, j :: 0 <= i < j < |lines| ==> Normalize(lines[i].text) != Normalize(lines[j].text))
    && lines != [] && lines[|lines| - 1] == VotingChoice("TRUE", d.prompt, true)
    && (forall f :: f in fakes && IsFirst(f, fakes) ==> LineOf(f) in lines)
    && (forall i :: 0 <= i < |lines| - 1 ==> IsFakeLine(lines[i], fakes))
  }

  lemma BallotInFull(lines: seq<VotingChoice>, d: Drawing, fakes: seq<FakePrompt>)
    requires FakesFor(d, fakes) && IsBallot(lines, fakes, d.prompt)
    ensures IsFullBallot(lines, d, fakes)
  {
    var keys :| IsBallotBy(lines, keys, fakes, d.prompt);
    LinesDiffer(lines, keys, fakes, d.prompt);
    FirstsHaveLines(lines, keys, d, fakes);
    LinesAreFakes(lines, keys, fakes, d.prompt);
  }

  lemma LinesDiffer(lines: seq<VotingChoice>, keys: seq<string>, fakes: seq<FakePrompt>, prompt: string)
    requires IsBallotBy(lines, keys, fakes, prompt)
    ensures forall i, j :: 0 <= i < j < |lines| ==> Normalize(lines[i].text) != Normalize(lines[j].text)
  {
    forall i, j | 0 <= i < j < |lines|
      ensures Normalize(lines[i].text) != Normalize(lines[j].text)
    {
      LineInFull(lines, keys, fakes, prompt, i);
      if j < |keys| {
        LineInFull(lines, keys, fakes, prompt, j);
      }
    }
  }

  lemma FirstsHaveLines(lines: seq<VotingChoice>, keys: seq<string>, d: Drawing, fakes: seq<FakePrompt>)
    requires FakesFor(d, fakes) && IsBallotBy(lines, keys, fakes, d.prompt)
    ensures forall f :: f in fakes && IsFirst(f, fakes) ==> LineOf(f) in lines
  {
    forall f | f in fakes && IsFirst(f, fakes)
      ensures LineOf(f) in lines
    {
      FirstHasLine(lines, keys, d, fakes, f);
    }
  }

  lemma LinesAreFakes(lines: seq<VotingChoice>, keys: seq<string>, fakes: seq<FakePrompt>, prompt: string)
    requires IsBallotBy(lines, keys, fakes, prompt)
    ensures forall i :: 0 <= i < |lines| - 1 ==> IsFakeLine(lines[i], fakes)
  {
    forall i | 0 <= i < |lines| - 1
      ensures IsFakeLine(lines[i], fakes)
    {
      LineInFull(lines, keys, fakes, prompt, i);
    }
  }

  lemma FirstHasLine(lines: seq<VotingChoice>, keys: seq<string>, d: Drawing, fakes: seq<FakePrompt>, f: FakePrompt)
    requires FakesFor(d, fakes) && IsBallotBy(lines, keys, fakes, d.prompt) && f in fakes && IsFirst(f, fakes)
    ensures LineOf(f) in lines
  {
    var i := IndexIn(keys, Normalize(f.text));
    var at :| FirstAt(f, fakes, at);
    FirstOfGroup(fakes, f, at);
    assert lines[i] == LineOf(f);
  }

  lemma LineInFull(lines: seq<VotingChoice>, keys: seq<string>, fakes: seq<FakePrompt>, prompt: string, i: nat)
    requires IsBallotBy(lines, keys, fakes, prompt) && i < |keys|
    ensures Normalize(lines[i].text) == keys[i] != Normalize(prompt)
    ensures IsFakeLine(lines[i], fakes)
  {
    assert keys[i] in KeysOf(fakes, prompt);
    var at := GroupStartsWithFirst(fakes, keys[i]);
    assert fakes[at] in fakes && IsFirst(fakes[at], fakes);
  }

  lemma {:induction false} GroupStartsWithFirst(fakes: seq<FakePrompt>, key: string) returns (i: nat)
    requires Group(fakes, key) != []
    ensures FirstAt(Group(fakes, key)[0], fakes, i) && Normalize(fakes[i].text) == key
  {
    var init := fakes[..|fakes| - 1];
    if Group(init, key) != [] {
      i := GroupStartsWithFirst(init, key);
      assert forall j :: 0 <= j < i ==> fakes[j] == init[j];
    } else {
      i := |init|;
      forall j | 0 <= j < |init|
        ensures Normalize(fakes[j].text) != key
      {
        assert init[j] in init && init[j] !in Group(init, key);
      }
    }
  }

  lemma {:induction false} FirstOfGroup(fakes: seq<FakePrompt>, f: FakePrompt, i: nat)
    requires FirstAt(f, fakes, i)
    ensures Group(fakes, Normalize(f.text)) != [] && Group(fakes, Normalize(f.text))[0] == f
  {
    var init := fakes[..|fakes| - 1];
    if i < |init| {
      FirstOfGroup(init, f, i);
    } else {
      NoneOfText(init, Normalize(f.text));
    }
  }

  lemma NoneOfText(fakes: seq<FakePrompt>, key: string)
    requires forall j :: 0 <= j < |fakes| ==> Normalize(fakes[j].text) != key
    ensures Group(fakes, key) == []
  {
    assert forall f :: f in fakes ==> Normalize(f.text) != key;
    assert forall f :: f !in Group(fakes, key);
  }

  // ----- the reveal -----

  /** The choices read differently; the last is the truth; every fake has its text among the
      others, and so has the "..." of whoever is absent and owes a fake. */
  ghost predicate IsFullReveal(dr: DrawingReveal, d: Drawing, fakes: seq<FakePrompt>, players: Players) {
    && dr.drawing == d.id && dr.author == d.author && dr.prompt == d.prompt && dr.choices != []
    && (forall i, j :: 0 <= i < j < |dr.choices| ==> Normalize(dr.choices[i].text) != Normalize(dr.choices[j].text))
    && (forall i :: 0 <= i < |dr.choices| ==> (dr.choices[i].isTrue <==> i == |dr.choices| - 1))
    && dr.choices[|dr.choices| - 1].id == "TRUE" && dr.choices[|dr.choices| - 1].text == d.prompt
    && (forall f :: f in fakes ==> Offered(dr, Normalize(f.text)))
    && forall p :: OwesFake(p, d, fakes, players) && Normalize("...") != Normalize(d.prompt) ==>
                     Offered(dr, Normalize("..."))
  }

  lemma RevealInFull(dr: DrawingReveal, d: Drawing, fakes: seq<FakePrompt>, players: Players, votes: seq<Vote>)
    requires FakesFor(d, fakes) && IsRevealOf(dr, d, fakes, players, votes)
    ensures IsFullReveal(dr, d, fakes, players)
  {
    var defaults, keys := Unpack(dr, d, fakes, players, votes);
    ChoicesDiffer(dr, keys, d, fakes + defaults, votes);
    forall f | f in fakes
      ensures Offered(dr, Normalize(f.text))
    {
      TextIsOffered(dr, keys, d, fakes + defaults, votes, f);
    }
    forall p | OwesFake(p, d, fakes, players) && Normalize("...") != Normalize(d.prompt)
      ensures Offered(dr, Normalize("..."))
    {
      var f := DefaultFor(defaults, d, fakes, players, p);
      TextIsOffered(dr, keys, d, fakes + defaults, votes, f);
    }
  }

  lemma ChoicesDiffer(dr: DrawingReveal, keys: seq<string>, d: Drawing, all: seq<FakePrompt>, votes: seq<Vote>)
    requires IsRevealBy(dr, keys, d, all, votes)
    ensures forall i, j :: 0 <= i < j < |dr.choices| ==> Normalize(dr.choices[i].text) != Normalize(dr.choices[j].text)
  {
    forall i | 0 <= i < |keys|
      ensures Normalize(dr.choices[i].text) == keys[i] != Normalize(d.prompt)
    {
      ChoiceReads(dr, keys, d, all, votes, i);
    }
  }

  lemma TextIsOffered(dr: DrawingReveal, keys: seq<string>, d: Drawing, all: seq<FakePrompt>, votes: seq<Vote>, f: FakePrompt)
    requires IsRevealBy(dr, keys, d, all, votes) && f in all && Normalize(f.text) != Normalize(d.prompt)
    ensures Offered(dr, Normalize(f.text))
  {
    var i := IndexIn(keys, Normalize(f.text));
    ChoiceReads(dr, keys, d, all, votes, i);
  }

  lemma ChoiceReads(dr: DrawingReveal, keys: seq<string>, d: Drawing, all: seq<FakePrompt>, votes: seq<Vote>, i: nat)
    requires IsRevealBy(dr, keys, d, all, votes) && i < |keys|
    ensures Normalize(dr.choices[i].text) == keys[i] != Normalize(d.prompt)
  {
    assert keys[i] in KeysOf(all, d.prompt);
    assert Group(all, keys[i])[0] in Group(all, keys[i]);
  }

  ghost predicate Offered(dr: DrawingReveal, key: string) {
    exists i :: 0 <= i < |dr.choices| && !dr.choices[i].isTrue && Normalize(dr.choices[i].text) == key
  }

  /** An absent player of the room who did not draw this and has written nothing for it. */
  ghost predicate OwesFake(p: PlayerID, d: Drawing, fakes: seq<FakePrompt>, players: Players) {
    p in players && !players[p].connected && p != d.author && forall f :: f in fakes ==> f.author != p
  }

  lemma DefaultFor(defaults: seq<FakePrompt>, d: Drawing, fakes: seq<FakePrompt>, players: Players, p: PlayerID)
    returns (f: FakePrompt)
    requires AreDefaults(defaults, d, fakes, players) && OwesFake(p, d, fakes, players)
    ensures f in defaults && f.text == "..."
  {
    OwesIs(p, d, fakes, players);
    var k :| 0 <= k < |defaults| && AuthorsOf(defaults)[k] == p;
    f := defaults[k];
  }

  lemma OwesIs(p: PlayerID, d: Drawing, fakes: seq<FakePrompt>, players: Players)
    ensures Owes(p, d, fakes, players) <==> OwesFake(p, d, fakes, players)
  {
    if p in AuthorsOf(fakes) {
      var k :| 0 <= k < |fakes| && AuthorsOf(fakes)[k] == p;
      assert fakes[k] in fakes;
    }
    forall f | f in fakes && f.author == p
      ensures p in AuthorsOf(fakes)
    {
      var k :| 0 <= k < |fakes| && fakes[k] == f;
      assert AuthorsOf(fakes)[k] == p;
    }
  }

  /** Whoever wrote the text of a choice is due the credit for it, and for "..." also whoever is
      absent and owes a fake. */
  ghost predicate IsDueCredit(p: PlayerID, ch: Choice, d: Drawing, fakes: seq<FakePrompt>, players: Players) {
    || (exists f :: f in fakes && f.author == p && Normalize(f.text) == Normalize(ch.text))
    || (OwesFake(p, d, fakes, players) && Normalize(ch.text) == Normalize("..."))
  }

  ghost predicate CreditsAreDue(dr: DrawingReveal, d: Drawing, fakes: seq<FakePrompt>, players: Players) {
    forall i, p :: 0 <= i < |dr.choices| && !dr.choices[i].isTrue ==>
                     (p in dr.choices[i].authors <==> IsDueCredit(p, dr.choices[i], d, fakes, players))
  }

  lemma CreditsInFull(dr: DrawingReveal, d: Drawing, fakes: seq<FakePrompt>, players: Players, votes: seq<Vote>)
    requires IsRevealOf(dr, d, fakes, players, votes)
    ensures CreditsAreDue(dr, d, fakes, players)
  {
    forall i, p | 0 <= i < |dr.choices| && !dr.choices[i].isTrue
      ensures p in dr.choices[i].authors <==> IsDueCredit(p, dr.choices[i], d, fakes, players)
    {
      CreditIsDue(dr, d, fakes, players, votes, i, p);
    }
  }

  /** Just those are credited who are due it. */
  lemma CreditIsDue(dr: DrawingReveal, d: Drawing, fakes: seq<FakePrompt>, players: Players, votes: seq<Vote>, i: nat,
                    p: PlayerID)
    requires IsRevealOf(dr, d, fakes, players, votes) && i < |dr.choices| && !dr.choices[i].isTrue
    ensures p in dr.choices[i].authors <==> IsDueCredit(p, dr.choices[i], d, fakes, players)
  {
    var defaults, keys := Unpack(dr, d, fakes, players, votes);
    ChoiceReads(dr, keys, d, fakes + defaults, votes, i);
    AuthorsInGroup(d, fakes, defaults, players, keys[i], p, Group(fakes + defaults, keys[i])[0]);
    OwesIs(p, d, fakes, players);
  }
}
