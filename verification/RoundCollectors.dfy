/** The fake-prompt and voting collectors of a round. */
module RoundCollectors {
  import opened Prelude
  import opened Text
  import opened Game
  import opened Merge
  import opened Conservation
  import opened Collectors

  // ----- generated fakes -----

  /** The prompt dictionary, assumed free of entries that differ only in case or spacing. */
  ghost predicate IsDictionary(dict: seq<string>) {
    DistinctTexts(dict)
  }

  ghost predicate DistinctTexts(texts: seq<string>) {
    forall i, j :: 0 <= i < j < |texts| ==> Normalize(texts[i]) != Normalize(texts[j])
  }

  /** `n` entries from different places of the dictionary: the head of a shuffle. */
  method NextPrompts(dict: seq<string>, n: nat) returns (out: seq<string>)
    requires n <= |dict|
    ensures |out| == n && forall t :: t in out ==> t in dict
    ensures IsDictionary(dict) ==> DistinctTexts(out)
  {
    out := [];
    var left := Places(|dict|);
    ghost var taken: seq<nat> := [];
    for k := 0 to n
      invariant |out| == k == |taken| && |left| == |dict| - k
      invariant forall i :: i in left ==> 0 <= i < |dict|
      invariant forall j :: 0 <= j < k ==> taken[j] < |dict| && out[j] == dict[taken[j]] && taken[j] !in left
      invariant forall i, j :: 0 <= i < j < k ==> taken[i] != taken[j]
    {
      assert left != {};
      var at :| at in left;
      out := out + [dict[at]];
      taken := taken + [at];
      left := left - {at};
    }
    if IsDictionary(dict) {
      forall i, j | 0 <= i < j < |out|
        ensures Normalize(out[i]) != Normalize(out[j])
      {
        assert taken[i] < taken[j] || taken[j] < taken[i];
      }
    }
  }

  /** The positions of a list of length `n`. */
  function Places(n: nat): (s: set<int>)
    ensures |s| == n && forall i :: i in s <==> 0 <= i < n
  {
    if n == 0 then {} else Places(n - 1) + {n - 1}
  }

  /** Decoys for one drawing: `count` texts, all different from each other and from the
      truth. The retry loop draws from the dictionary at most once. */
  method GeneratedFakeTexts(dict: seq<string>, count: int, truePrompt: string) returns (out: seq<string>, ghost draws: nat)
    requires IsDictionary(dict) && 2 * count <= |dict|
    ensures |out| == if count <= 0 then 0 else count
    ensures DistinctTexts(out)
    ensures forall t :: t in out ==> t in dict && Normalize(t) != Normalize(truePrompt)
    ensures draws <= 1
  {
    out, draws := [], 0;
    if count <= 0 {
      return;
    }
    var seen := {Normalize(truePrompt)};
    while |out| < count
      invariant |out| <= count && draws <= 1
      invariant draws == 1 ==> |out| == count
      invariant draws == 0 ==> out == [] && seen == {Normalize(truePrompt)}
      invariant DistinctTexts(out)
      invariant forall t :: t in out ==> t in dict && Normalize(t) != Normalize(truePrompt)
      decreases 1 - draws
    {
      var candidates := NextPrompts(dict, count * 2);
      for k := 0 to |candidates|
        invariant |out| < count
        invariant |out| == k || (|out| == k - 1 && Normalize(truePrompt) in Keys(candidates[..k]))
        invariant seen == {Normalize(truePrompt)} + Keys(out)
        invariant forall t :: t in out ==> t in candidates[..k]
        invariant DistinctTexts(out)
        invariant forall t :: t in out ==> t in dict && Normalize(t) != Normalize(truePrompt)
      {
        var key := Normalize(candidates[k]);
        assert candidates[..k + 1] == candidates[..k] + [candidates[k]];
        EarlierKeysDiffer(candidates, k, out);
        EarlierKeysDiffer(candidates, k, candidates[..k]);
        if key in seen {
          continue;
        }
        KeysSnoc(out, candidates[k]);
        seen := seen + {key};
        out := out + [candidates[k]];
        if |out| == count {
          break;
        }
      }
      draws := draws + 1;
    }
  }

  function Keys(texts: seq<string>): set<string> {
    set t | t in texts :: Normalize(t)
  }

  lemma KeysSnoc(texts: seq<string>, t: string)
    ensures Keys(texts + [t]) == Keys(texts) + {Normalize(t)}
  {
  }

  lemma EarlierKeysDiffer(candidates: seq<string>, k: nat, out: seq<string>)
    requires DistinctTexts(candidates) && k < |candidates|
    requires forall t :: t in out ==> t in candidates[..k]
    ensures Normalize(candidates[k]) !in Keys(out)
  {
  }

  // ----- the fake collector -----

  ghost predicate FakeOk(f: FakePrompt, p: PlayerID, id: DrawingID, drawings: Drawings) {
    && f.author == p != NOBODY && f.drawing == id && f.id != TRUE_ID && f.id != ""
    && exists a :: a in drawings && drawings[a].id == id && a != p && Normalize(f.text) != Normalize(drawings[a].prompt)
  }

  /** Everything collected so far passed the gate, under ids of its own. */
  ghost predicate FakesOk(got: Collected<FakePrompt>, drawings: Drawings, issued: set<string>) {
    && (forall p, id :: Has(got, p, id) ==> FakeOk(got[p][id], p, id, drawings) && got[p][id].id in issued)
    && (forall p, id, q, id2 :: Has(got, p, id) && Has(got, q, id2) && got[p][id].id == got[q][id2].id ==>
                                  p == q && id == id2)
  }

  /** How many generated fakes each drawing gets, and where their texts are from. */
  datatype Decoys = Decoys(count: nat, dict: seq<string>)

  ghost predicate AreGenerated(generated: seq<FakePrompt>, d: Drawing, decoys: Decoys) {
    && |generated| == decoys.count
    && (forall f :: f in generated ==>
                      && f.author == NOBODY && f.drawing == d.id && f.text in decoys.dict
                      && Normalize(f.text) != Normalize(d.prompt))
    && (forall i, j :: 0 <= i < j < decoys.count ==> Normalize(generated[i].text) != Normalize(generated[j].text))
  }

  /** The fakes stored for `d`: what was collected, each once, then the generated ones. */
  ghost predicate IsFakeList(list: seq<FakePrompt>, got: Collected<FakePrompt>, d: Drawing, decoys: Decoys) {
    && DistinctIds(list)
    && exists k, order ::
         && 0 <= k <= |list| && Lists(list[..k], got, d.id, order)
         && AreGenerated(list[k..], d, decoys)
  }

  ghost predicate IsFakesResult(fakes: Fakes, got: Collected<FakePrompt>, drawings: Drawings, decoys: Decoys) {
    && fakes.Keys == DrawingIds(drawings)
    && forall a :: a in drawings ==> IsFakeList(fakes[drawings[a].id], got, drawings[a], decoys)
  }

  /** The rules on a fake's length, applied after trimming. */
  function CleanFakeText(raw: string): Result<string> {
    var s := TrimSpace(raw);
    if |s| < 1 then Err("fake prompt empty")
    else if |s| > 80 then Err("fake prompt too long (max 80)")
    else Ok(s)
  }

  /** The part of the game state that the collectors read. */
  datatype Context = Context(players: Players, drawings: Drawings, generatedFakes: int, dict: seq<string>)

  ghost predicate ContextOk(c: Context) {
    DrawingsOk(c.drawings) && IsDictionary(c.dict) && 2 * c.generatedFakes <= |c.dict|
  }

  function DecoysOf(c: Context): Decoys {
    Decoys(if c.generatedFakes <= 0 then 0 else c.generatedFakes, c.dict)
  }

  /** All ids in `fakes` have been handed out. */
  ghost predicate IdsIssued(fakes: Fakes, issued: set<string>) {
    forall id :: ListIssued(fakes, id, issued)
  }

  ghost predicate ListIssued(fakes: Fakes, id: DrawingID, issued: set<string>) {
    IdsOf(ListAt(fakes, id)) <= issued
  }

  ghost predicate FakesDecided(dec: Decision, got: Collected<FakePrompt>, c: Context, issued: set<string>) {
    && dec.advance && dec.events == [] && dec.result.Some? && dec.result.value.FakesResult?
    && IsFakesResult(dec.result.value.fakes, got, c.drawings, DecoysOf(c))
    && IdsIssued(dec.result.value.fakes, issued)
  }

  /** Why a submitted fake is turned away. */
  ghost predicate FakeRejected(got: Collected<FakePrompt>, c: Context, pid: PlayerID, drawing: DrawingID, raw: string) {
    || drawing !in DrawingIds(c.drawings)
    || CleanFakeText(raw).Err?
    || Has(got, pid, drawing)
    || exists a :: a in c.drawings && c.drawings[a].id == drawing &&
                   (a == pid || Normalize(raw) == Normalize(c.drawings[a].prompt))
  }

  function With<T>(got: Collected<T>, p: PlayerID, id: DrawingID, item: T): Collected<T> {
    got[p := (if p in got then got[p] else map[])[id := item]]
  }

  /** `after` is `before` with one new fake in it, under a new id. */
  ghost predicate IsNewFake(after: Collected<FakePrompt>, before: Collected<FakePrompt>, pid: PlayerID, drawing: DrawingID,
                            raw: string, issued: set<string>)
  {
    && Has(after, pid, drawing) && after == With(before, pid, drawing, after[pid][drawing])
    && after[pid][drawing].id !in issued + {"", TRUE_ID}
    && after[pid][drawing] == FakePrompt(after[pid][drawing].id, drawing, pid, TrimSpace(raw))
  }

  lemma FakeIsRecorded(got: Collected<FakePrompt>, c: Context, pid: PlayerID, drawing: DrawingID, raw: string,
                       f: FakePrompt, issued: set<string>)
    requires ContextOk(c) && FakesOk(got, c.drawings, issued) && pid != NOBODY
    requires !FakeRejected(got, c, pid, drawing, raw)
    requires f == FakePrompt(f.id, drawing, pid, TrimSpace(raw)) && f.id !in issued && f.id != TRUE_ID && f.id != ""
    ensures FakesOk(With(got, pid, drawing, f), c.drawings, issued + {f.id})
    ensures IsNewFake(With(got, pid, drawing, f), got, pid, drawing, raw, issued)
  {
    var after := With(got, pid, drawing, f);
    TrimIsIdempotent(raw);
    var a :| a in c.drawings && c.drawings[a].id == drawing;
    assert FakeOk(f, pid, drawing, c.drawings);
    forall p, id | Has(after, p, id)
      ensures (p == pid && id == drawing && after[p][id] == f) || (Has(got, p, id) && after[p][id] == got[p][id])
    {
    }
    forall p, id | Has(after, p, id)
      ensures FakeOk(after[p][id], p, id, c.drawings) && after[p][id].id in issued + {f.id}
    {
    }
  }

  /** An accepted fake joins the others. */
  lemma NewFakeFits(got: Collected<FakePrompt>, c: Context, pid: PlayerID, drawing: DrawingID, raw: string,
                    after: Collected<FakePrompt>, issued: set<string>, more: set<string>)
    requires ContextOk(c) && FakesOk(got, c.drawings, issued) && pid != NOBODY && issued <= more
    requires !FakeRejected(got, c, pid, drawing, raw) && IsNewFake(after, got, pid, drawing, raw, issued)
    requires after[pid][drawing].id in more
    ensures FakesOk(after, c.drawings, more)
  {
    FakeIsRecorded(got, c, pid, drawing, raw, after[pid][drawing], issued);
  }

  class FakeCollect {
    var got: Collected<FakePrompt>

    constructor ()
      ensures got == map[]
    {
      got := map[];
    }

    method Start(c: Context) returns (dec: Decision)
      requires got == map[]
      ensures dec == Decision(false, [DrawingsShown(c.drawings)], None)
    {
      var done := AllSubmitted(c.players, c.drawings, got);
      assert !done;
      dec := Decision(false, [DrawingsShown(c.drawings)], None);
    }

    method Handle(c: Context, pid: PlayerID, drawing: DrawingID, raw: string, issued0: set<string>)
      returns (r: Result<Decision>, issued: set<string>)
      requires ContextOk(c) && FakesOk(got, c.drawings, issued0) && pid != NOBODY
      modifies this
      ensures FakesOk(got, c.drawings, issued) && issued0 <= issued
      ensures r.Err? <==> FakeRejected(old(got), c, pid, drawing, raw)
      ensures r.Err? ==> got == old(got) && issued == issued0
      ensures r.Ok? ==> IsNewFake(got, old(got), pid, drawing, raw, issued0) && got[pid][drawing].id in issued
      ensures r.Ok? ==> if Complete(c.players, c.drawings, got) then FakesDecided(r.value, got, c, issued) else r.value == STAY
    {
      issued := issued0;
      var text := CheckFake(c, pid, drawing, raw);
      if text.Err? {
        return Err(text.message), issued;
      }
      var id := FreshId(issued);
      var f := FakePrompt(id, drawing, pid, text.value);
      FakeIsRecorded(got, c, pid, drawing, raw, f, issued0);
      issued := issued + {id};
      got := With(got, pid, drawing, f);
      var done := AllSubmitted(c.players, c.drawings, got);
      var dec := STAY;
      if done {
        dec, issued := Finalize(c, issued);
      }
      r := Ok(dec);
    }

    method CheckFake(c: Context, pid: PlayerID, drawing: DrawingID, raw: string) returns (text: Result<string>)
      requires DrawingsOk(c.drawings)
      ensures text.Err? <==> FakeRejected(got, c, pid, drawing, raw)
      ensures text.Ok? ==> text.value == TrimSpace(raw)
    {
      var found := FindDrawing(c.drawings, drawing);
      if found.None? {
        return Err("unknown drawing_id");
      }
      var target := found.value;
      ghost var owner :| owner in c.drawings && c.drawings[owner] == target;
      if target.author == pid {
        return Err("cannot submit fake for your own drawing");
      }
      var clean := CleanFakeText(raw);
      if clean.Err? {
        return clean;
      }
      TrimIsIdempotent(raw);
      GateMatchesMerge(clean.value, target.prompt);
      if EqualFold(TrimSpace(clean.value), TrimSpace(target.prompt)) {
        return Err("fake matches true prompt; try another");
      }
      if pid in got && target.id in got[pid] {
        return Err("already submitted fake for that drawing");
      }
      return clean;
    }

    /** The phase ends with whatever has come in. */
    method Timeout(c: Context, issued0: set<string>) returns (dec: Decision, issued: set<string>)
      requires ContextOk(c) && FakesOk(got, c.drawings, issued0)
      ensures FakesDecided(dec, got, c, issued) && issued0 <= issued
    {
      dec, issued := Finalize(c, issued0);
    }

    method Finalize(c: Context, issued0: set<string>) returns (dec: Decision, issued: set<string>)
      requires ContextOk(c) && FakesOk(got, c.drawings, issued0)
      ensures FakesDecided(dec, got, c, issued) && issued0 <= issued
    {
      var grouped := Regroup(got);
      issued := issued0;
      var fakes := grouped;
      var authors := AnyOrder(c.drawings.Keys);
      NothingExtended(grouped, got, c, issued0);
      CollectedIdsIssued(grouped, got, c, issued0);
      for i := 0 to |authors|
        invariant issued0 <= issued && IdsIssued(fakes, issued)
        invariant Extended(fakes, got, c, Listed(authors[..i]))
      {
        var a := authors[i];
        var d := c.drawings[a];
        assert a in c.drawings && a !in authors[..i];
        var base := ListAt(fakes, d.id);
        assert Stage(base, got, d, DecoysOf(c), a in Listed(authors[..i]));
        CollectedIsDistinct(base, got, c, issued0, d);
        var generated;
        ghost var before := issued;
        generated, issued := GeneratedFor(c, d, base, issued);
        MoreIdsIssued(fakes, before, issued, d.id, base + generated);
        AddGenerated(base, generated, got, d, DecoysOf(c));
        ExtendOne(fakes, base + generated, got, c, Listed(authors[..i]), a);
        ListedSnoc(authors, i);
        fakes := fakes[d.id := base + generated];
      }
      ListedAll(authors, c.drawings.Keys);
      AllExtended(fakes, got, c);
      dec := Decision(true, [], Some(FakesResult(fakes)));
    }

    method GeneratedFor(c: Context, d: Drawing, ghost base: seq<FakePrompt>, issued0: set<string>)
      returns (generated: seq<FakePrompt>, issued: set<string>)
      requires ContextOk(c) && DistinctIds(base) && IdsOf(base) <= issued0
      ensures AreGenerated(generated, d, DecoysOf(c))
      ensures DistinctIds(base + generated) && issued0 <= issued
      ensures IdsOf(base + generated) <= issued
    {
      var texts;
      ghost var draws;
      texts, draws := GeneratedFakeTexts(c.dict, c.generatedFakes, d.prompt);
      issued, generated := issued0, [];
      assert base + generated == base;
      for i := 0 to |texts|
        invariant |generated| == i && issued0 <= issued
        invariant forall j :: 0 <= j < i ==> generated[j] == FakePrompt(generated[j].id, d.id, NOBODY, texts[j])
        invariant DistinctIds(base + generated) && IdsOf(base + generated) <= issued
      {
        var id := FreshId(issued);
        var f := FakePrompt(id, d.id, NOBODY, texts[i]);
        forall g | g in base + generated
          ensures g.id != id
        {
          assert g.id in IdsOf(base + generated);
        }
        assert base + (generated + [f]) == (base + generated) + [f];
        IdsSnoc(base + generated, f);
        generated := generated + [f];
        issued := issued + {id};
      }
    }
  }

  function Listed(authors: seq<PlayerID>): set<PlayerID> {
    set a | a in authors
  }

  lemma ListedSnoc(authors: seq<PlayerID>, i: nat)
    requires i < |authors|
    ensures Listed(authors[..i + 1]) == Listed(authors[..i]) + {authors[i]}
  {
    assert authors[..i + 1] == authors[..i] + [authors[i]];
  }

  lemma ListedAll(authors: seq<PlayerID>, keys: set<PlayerID>)
    requires Enumerates(authors, keys)
    ensures Listed(authors[..|authors|]) == keys
  {
    assert authors[..|authors|] == authors;
  }

  /** The list of one drawing before (`!done`) and after the final pass reaches it. */
  ghost predicate Stage(list: seq<FakePrompt>, got: Collected<FakePrompt>, d: Drawing, decoys: Decoys, done: bool) {
    if done then IsFakeList(list, got, d, decoys) else exists order :: Lists(list, got, d.id, order)
  }

  /** How far the final pass over the drawings has come. */
  ghost predicate Extended(fakes: Fakes, got: Collected<FakePrompt>, c: Context, done: set<PlayerID>) {
    && fakes.Keys <= DrawingIds(c.drawings)
    && forall a :: a in c.drawings ==>
                     && (a in done ==> c.drawings[a].id in fakes)
                     && Stage(ListAt(fakes, c.drawings[a].id), got, c.drawings[a], DecoysOf(c), a in done)
  }

  lemma NothingExtended(grouped: Fakes, got: Collected<FakePrompt>, c: Context, issued: set<string>)
    requires Regrouped(grouped, got) && FakesOk(got, c.drawings, issued)
    ensures Extended(grouped, got, c, {})
  {
    forall id | id in grouped
      ensures id in DrawingIds(c.drawings)
    {
      var p :| p in Submitters(got, id);
      assert Has(got, p, id) && FakeOk(got[p][id], p, id, c.drawings);
    }
    forall a | a in c.drawings
      ensures exists order :: Lists(ListAt(grouped, c.drawings[a].id), got, c.drawings[a].id, order)
    {
      ListedOrEmpty(grouped, got, c.drawings[a].id);
    }
  }

  lemma ListedOrEmpty<T>(grouped: map<DrawingID, seq<T>>, got: Collected<T>, id: DrawingID)
    requires Regrouped(grouped, got)
    ensures exists order :: Lists(ListAt(grouped, id), got, id, order)
  {
    if id !in grouped {
      assert Submitters(got, id) == {};
      assert Lists(ListAt(grouped, id), got, id, []);
    } else {
      var order :| Lists(grouped[id], got, id, order);
      assert Lists(ListAt(grouped, id), got, id, order);
    }
  }

  lemma CollectedIsDistinct(list: seq<FakePrompt>, got: Collected<FakePrompt>, c: Context, issued: set<string>, d: Drawing)
    requires FakesOk(got, c.drawings, issued)
    requires exists order :: Lists(list, got, d.id, order)
    ensures DistinctIds(list) && IdsOf(list) <= issued
  {
    var order :| Lists(list, got, d.id, order);
    forall i | 0 <= i < |list|
      ensures list[i].id in issued && list[i].id != TRUE_ID && list[i].id != ""
    {
      assert Has(got, order[i], d.id) && FakeOk(got[order[i]][d.id], order[i], d.id, c.drawings);
    }
  }

  lemma CollectedIdsIssued(grouped: Fakes, got: Collected<FakePrompt>, c: Context, issued: set<string>)
    requires Regrouped(grouped, got) && FakesOk(got, c.drawings, issued)
    ensures IdsIssued(grouped, issued)
  {
    forall id
      ensures ListIssued(grouped, id, issued)
    {
      ListedOrEmpty(grouped, got, id);
      var order :| Lists(ListAt(grouped, id), got, id, order);
      forall i | 0 <= i < |order|
        ensures ListAt(grouped, id)[i].id in issued
      {
        assert Has(got, order[i], id);
      }
    }
  }

  lemma MoreIdsIssued(fakes: Fakes, issued: set<string>, more: set<string>, id: DrawingID, list: seq<FakePrompt>)
    requires IdsIssued(fakes, issued) && issued <= more && IdsOf(list) <= more
    ensures IdsIssued(fakes[id := list], more)
  {
    var after := fakes[id := list];
    forall k
      ensures ListIssued(after, k, more)
    {
      assert ListIssued(fakes, k, issued);
    }
  }

  lemma AddGenerated(base: seq<FakePrompt>, generated: seq<FakePrompt>, got: Collected<FakePrompt>, d: Drawing, decoys: Decoys)
    requires exists order :: Lists(base, got, d.id, order)
    requires AreGenerated(generated, d, decoys) && DistinctIds(base + generated)
    ensures IsFakeList(base + generated, got, d, decoys)
  {
    var list := base + generated;
    assert list[..|base|] == base && list[|base|..] == generated;
    var order :| Lists(base, got, d.id, order);
    assert Lists(list[..|base|], got, d.id, order) && AreGenerated(list[|base|..], d, decoys);
  }

  lemma ExtendOne(fakes: Fakes, list: seq<FakePrompt>, got: Collected<FakePrompt>, c: Context, done: set<PlayerID>, a: PlayerID)
    requires DrawingsOk(c.drawings) && Extended(fakes, got, c, done) && a in c.drawings
    requires IsFakeList(list, got, c.drawings[a], DecoysOf(c))
    ensures Extended(fakes[c.drawings[a].id := list], got, c, done + {a})
  {
    var after := fakes[c.drawings[a].id := list];
    forall b | b in c.drawings
      ensures Stage(ListAt(after, c.drawings[b].id), got, c.drawings[b], DecoysOf(c), b in done + {a})
    {
      if b != a {
        assert ListAt(after, c.drawings[b].id) == ListAt(fakes, c.drawings[b].id);
      }
    }
  }

  lemma AllExtended(fakes: Fakes, got: Collected<FakePrompt>, c: Context)
    requires Extended(fakes, got, c, c.drawings.Keys)
    ensures IsFakesResult(fakes, got, c.drawings, DecoysOf(c))
  {
    forall a | a in c.drawings
      ensures c.drawings[a].id in fakes && IsFakeList(fakes[c.drawings[a].id], got, c.drawings[a], DecoysOf(c))
    {
      assert Stage(ListAt(fakes, c.drawings[a].id), got, c.drawings[a], DecoysOf(c), true);
    }
  }

  /** What the fake phase stores is fit for the ballot and the reveal: nobody fakes their own
      drawing, no text equals the truth, and no player appears twice. */
  lemma StoredFakesAreGood(fakes: Fakes, got: Collected<FakePrompt>, drawings: Drawings, decoys: Decoys, issued: set<string>,
                           a: PlayerID)
    requires DrawingsOk(drawings) && FakesOk(got, drawings, issued) && IsFakesResult(fakes, got, drawings, decoys)
    requires a in drawings
    ensures FakesFor(drawings[a], fakes[drawings[a].id])
  {
    var d := drawings[a];
    var list := fakes[d.id];
    assert IsFakeList(list, got, d, decoys);
    var k, order :| 0 <= k <= |list| && Lists(list[..k], got, d.id, order) && AreGenerated(list[k..], d, decoys);
    forall i | 0 <= i < |list|
      ensures list[i].drawing == d.id && list[i].author != d.author && Normalize(list[i].text) != Normalize(d.prompt)
      ensures list[i].author == if i < k then order[i] else NOBODY
    {
      if i < k {
        assert list[i] == list[..k][i] && Has(got, order[i], d.id);
        assert FakeOk(list[i], order[i], d.id, drawings);
      } else {
        assert list[i] == list[k..][i - k] && list[k..][i - k] in list[k..];
      }
    }
  }

  /** No two generated fakes share a merged choice. */
  lemma GeneratedFakesStayApart(list: seq<FakePrompt>, got: Collected<FakePrompt>, d: Drawing, decoys: Decoys, drawings: Drawings,
                                issued: set<string>, i: nat, j: nat)
    requires FakesOk(got, drawings, issued) && IsFakeList(list, got, d, decoys)
    requires i < j < |list| && list[i].author == list[j].author == NOBODY
    ensures Normalize(list[i].text) != Normalize(list[j].text)
  {
    var k, order :| 0 <= k <= |list| && Lists(list[..k], got, d.id, order) && AreGenerated(list[k..], d, decoys);
    forall m | 0 <= m < k
      ensures list[m].author != NOBODY
    {
      assert list[m] == list[..k][m] && Has(got, order[m], d.id);
      assert FakeOk(list[m], order[m], d.id, drawings);
    }
    assert list[i] == list[k..][i - k] && list[j] == list[k..][j - k];
  }

  // ----- the vote collector -----

  ghost predicate VoteOk(v: Vote, p: PlayerID, id: DrawingID, drawings: Drawings, fakes: Fakes) {
    && v.voter == p && v.drawing == id && MayChoose(p, v.choice, ListAt(fakes, id))
    && exists a :: a in drawings && drawings[a].id == id && a != p
  }

  /** Everything collected so far passed the gate. */
  ghost predicate VotesOk(got: Collected<Vote>, drawings: Drawings, fakes: Fakes) {
    forall p, id :: Has(got, p, id) ==> VoteOk(got[p][id], p, id, drawings, fakes)
  }

  ghost predicate IsVotesResult(votes: Votes, got: Collected<Vote>, drawings: Drawings) {
    && votes.Keys == DrawingIds(drawings)
    && forall a :: a in drawings ==> exists order :: Lists(votes[drawings[a].id], got, drawings[a].id, order)
  }

  ghost predicate VotesDecided(dec: Decision, got: Collected<Vote>, drawings: Drawings) {
    && dec.advance && dec.events == [] && dec.result.Some? && dec.result.value.VotesResult?
    && IsVotesResult(dec.result.value.votes, got, drawings)
  }

  ghost predicate VoteRejected(got: Collected<Vote>, drawings: Drawings, fakes: Fakes, pid: PlayerID,
                               drawing: DrawingID, choice: string)
  {
    || drawing !in DrawingIds(drawings)
    || !MayChoose(pid, choice, ListAt(fakes, drawing))
    || Has(got, pid, drawing)
    || exists a :: a in drawings && drawings[a].id == drawing && a == pid
  }

  ghost predicate FakeIdsDistinct(fakes: Fakes) {
    forall id :: DistinctIds(ListAt(fakes, id))
  }

  ghost predicate AreBallots(ballot: map<DrawingID, seq<VotingChoice>>, drawings: Drawings, fakes: Fakes) {
    && ballot.Keys == DrawingIds(drawings)
    && forall a :: a in drawings ==>
                     IsBallot(ballot[drawings[a].id], ListAt(fakes, drawings[a].id), drawings[a].prompt)
  }

  /** `ballot` is right for the drawings of `done`. */
  ghost predicate BallotFor(ballot: map<DrawingID, seq<VotingChoice>>, done: set<PlayerID>, drawings: Drawings, fakes: Fakes)
  {
    && (forall id :: id in ballot <==> exists a :: a in done && a in drawings && drawings[a].id == id)
    && (forall a :: a in done && a in drawings ==>
                      IsBallot(ballot[drawings[a].id], ListAt(fakes, drawings[a].id), drawings[a].prompt))
  }

  lemma BallotOneMore(ballot: map<DrawingID, seq<VotingChoice>>, done: set<PlayerID>, drawings: Drawings, fakes: Fakes,
                      a: PlayerID, lines: seq<VotingChoice>)
    requires DrawingsOk(drawings) && BallotFor(ballot, done, drawings, fakes) && a in drawings && a !in done
    requires IsBallot(lines, ListAt(fakes, drawings[a].id), drawings[a].prompt)
    ensures BallotFor(ballot[drawings[a].id := lines], done + {a}, drawings, fakes)
  {
  }

  lemma BallotForAll(ballot: map<DrawingID, seq<VotingChoice>>, drawings: Drawings, fakes: Fakes)
    requires BallotFor(ballot, drawings.Keys, drawings, fakes)
    ensures AreBallots(ballot, drawings, fakes)
  {
  }

  class VoteCollect {
    var got: Collected<Vote>

    constructor ()
      ensures got == map[]
    {
      got := map[];
    }

    method Start(c: Context, fakes: Fakes) returns (dec: Decision)
      requires got == map[] && DrawingsOk(c.drawings)
      ensures !dec.advance && dec.result == None
      ensures |dec.events| == 1 && dec.events[0].BallotShown? && AreBallots(dec.events[0].ballot, c.drawings, fakes)
    {
      var done := AllSubmitted(c.players, c.drawings, got);
      assert !done;
      var ballot: map<DrawingID, seq<VotingChoice>> := map[];
      var authors := AnyOrder(c.drawings.Keys);
      for i := 0 to |authors|
        invariant BallotFor(ballot, Listed(authors[..i]), c.drawings, fakes)
      {
        var d := c.drawings[authors[i]];
        assert authors[i] in c.drawings && authors[i] !in authors[..i];
        var lines := VotingChoices(d, ListAt(fakes, d.id));
        BallotOneMore(ballot, Listed(authors[..i]), c.drawings, fakes, authors[i], lines);
        ListedSnoc(authors, i);
        ballot := ballot[d.id := lines];
      }
      ListedAll(authors, c.drawings.Keys);
      BallotForAll(ballot, c.drawings, fakes);
      dec := Decision(false, [BallotShown(ballot)], None);
    }

    method Handle(c: Context, fakes: Fakes, pid: PlayerID, drawing: DrawingID, choice: string) returns (r: Result<Decision>)
      requires DrawingsOk(c.drawings) && FakeIdsDistinct(fakes) && VotesOk(got, c.drawings, fakes)
      modifies this
      ensures VotesOk(got, c.drawings, fakes)
      ensures r.Err? <==> VoteRejected(old(got), c.drawings, fakes, pid, drawing, choice)
      ensures r.Err? ==> got == old(got)
      ensures r.Ok? ==> got == With(old(got), pid, drawing, Vote(pid, drawing, choice))
      ensures r.Ok? ==> if Complete(c.players, c.drawings, got) then VotesDecided(r.value, got, c.drawings) else r.value == STAY
    {
      var rejected := CheckVote(c.drawings, fakes, pid, drawing, choice);
      if rejected {
        return Err("vote not allowed");
      }
      VoteIsRecorded(got, c.drawings, fakes, pid, drawing, choice);
      got := With(got, pid, drawing, Vote(pid, drawing, choice));
      var done := AllSubmitted(c.players, c.drawings, got);
      var dec := STAY;
      if done {
        dec := Finalize(c.drawings, fakes);
      }
      r := Ok(dec);
    }

    method CheckVote(drawings: Drawings, fakes: Fakes, pid: PlayerID, drawing: DrawingID, choice: string)
      returns (rejected: bool)
      requires DrawingsOk(drawings) && FakeIdsDistinct(fakes)
      ensures rejected <==> VoteRejected(got, drawings, fakes, pid, drawing, choice)
    {
      var found := FindDrawing(drawings, drawing);
      if found.None? {
        return true;
      }
      var target := found.value;
      ghost var owner :| owner in drawings && drawings[owner] == target;
      if target.author == pid {
        return true;
      }
      if choice != TRUE_ID {
        var allowed := CheckChoice(ListAt(fakes, target.id), pid, choice);
        if !allowed {
          return true;
        }
      }
      return pid in got && target.id in got[pid];
    }

    /** Scan for the chosen fake; it must exist and be somebody else's. */
    method CheckChoice(list: seq<FakePrompt>, pid: PlayerID, choice: string) returns (allowed: bool)
      requires DistinctIds(list) && choice != TRUE_ID
      ensures allowed <==> MayChoose(pid, choice, list)
    {
      for i := 0 to |list|
        invariant forall j :: 0 <= j < i ==> list[j].id != choice
      {
        if list[i].id == choice {
          assert forall f :: f in list && f.id == choice ==> f == list[i];
          return list[i].author != pid;
        }
      }
      return false;
    }

    method Timeout(drawings: Drawings, fakes: Fakes) returns (dec: Decision)
      requires DrawingsOk(drawings) && VotesOk(got, drawings, fakes)
      ensures VotesDecided(dec, got, drawings)
    {
      dec := Finalize(drawings, fakes);
    }

    method Finalize(drawings: Drawings, ghost fakes: Fakes) returns (dec: Decision)
      requires DrawingsOk(drawings) && VotesOk(got, drawings, fakes)
      ensures VotesDecided(dec, got, drawings)
    {
      var grouped := Regroup(got);
      VotesAreForDrawings(grouped, got, drawings, fakes);
      var votes := PadVotes(grouped, drawings);
      PaddedIsResult(votes, grouped, got, drawings);
      dec := Decision(true, [], Some(VotesResult(votes)));
    }
  }

  method PadVotes(grouped: Votes, drawings: Drawings) returns (votes: Votes)
    requires grouped.Keys <= DrawingIds(drawings)
    ensures Padded(votes, grouped, drawings.Keys, drawings)
  {
    votes := grouped;
    var authors := AnyOrder(drawings.Keys);
    for i := 0 to |authors|
      invariant Padded(votes, grouped, Listed(authors[..i]), drawings)
    {
      assert authors[i] in drawings;
      var id := drawings[authors[i]].id;
      ListedSnoc(authors, i);
      if id !in votes {
        PadOne(votes, grouped, Listed(authors[..i]), drawings, authors[i]);
        votes := votes[id := []];
      }
    }
    ListedAll(authors, drawings.Keys);
  }

  lemma PadOne(votes: Votes, grouped: Votes, done: set<PlayerID>, drawings: Drawings, a: PlayerID)
    requires Padded(votes, grouped, done, drawings) && a in drawings && drawings[a].id !in votes
    ensures Padded(votes[drawings[a].id := []], grouped, done + {a}, drawings)
  {
    var after := votes[drawings[a].id := []];
    forall id
      ensures ListAt(after, id) == ListAt(grouped, id)
    {
      assert ListAt(votes, id) == ListAt(grouped, id);
    }
  }

  /** `votes` is `grouped` with empty lists for the drawings of `done` that had none. */
  ghost predicate Padded(votes: Votes, grouped: Votes, done: set<PlayerID>, drawings: Drawings) {
    && votes.Keys <= DrawingIds(drawings)
    && (forall id :: ListAt(votes, id) == ListAt(grouped, id))
    && (forall a :: a in done && a in drawings ==> drawings[a].id in votes)
  }

  lemma PaddedIsResult(votes: Votes, grouped: Votes, got: Collected<Vote>, drawings: Drawings)
    requires Regrouped(grouped, got) && Padded(votes, grouped, drawings.Keys, drawings)
    ensures IsVotesResult(votes, got, drawings)
  {
    forall a | a in drawings
      ensures exists order :: Lists(votes[drawings[a].id], got, drawings[a].id, order)
    {
      ListedOrEmpty(grouped, got, drawings[a].id);
      assert votes[drawings[a].id] == ListAt(grouped, drawings[a].id);
    }
  }

  lemma VoteIsRecorded(got: Collected<Vote>, drawings: Drawings, fakes: Fakes, pid: PlayerID, drawing: DrawingID, choice: string)
    requires VotesOk(got, drawings, fakes) && DrawingsOk(drawings)
    requires !VoteRejected(got, drawings, fakes, pid, drawing, choice)
    ensures VotesOk(With(got, pid, drawing, Vote(pid, drawing, choice)), drawings, fakes)
  {
    var v := Vote(pid, drawing, choice);
    var after := With(got, pid, drawing, v);
    var a :| a in drawings && drawings[a].id == drawing;
    assert VoteOk(v, pid, drawing, drawings, fakes);
    forall p, id | Has(after, p, id)
      ensures VoteOk(after[p][id], p, id, drawings, fakes)
    {
      assert Has(got, p, id) || (p == pid && id == drawing);
    }
  }

  lemma VotesAreForDrawings(grouped: Votes, got: Collected<Vote>, drawings: Drawings, fakes: Fakes)
    requires Regrouped(grouped, got) && VotesOk(got, drawings, fakes)
    ensures grouped.Keys <= DrawingIds(drawings)
  {
    forall id | id in grouped
      ensures id in DrawingIds(drawings)
    {
      var p :| p in Submitters(got, id);
      assert Has(got, p, id) && VoteOk(got[p][id], p, id, drawings, fakes);
    }
  }

  /** What the voting phase stores is fit for the tally: one vote per voter and drawing, none
      by the drawer, each for the truth or for somebody else's fake. */
  lemma StoredVotesAreGood(votes: Votes, got: Collected<Vote>, drawings: Drawings, fakes: Fakes, a: PlayerID)
    requires DrawingsOk(drawings) && VotesOk(got, drawings, fakes) && IsVotesResult(votes, got, drawings)
    requires a in drawings
    ensures VotesFor(drawings[a], ListAt(fakes, drawings[a].id), votes[drawings[a].id])
  {
    var d := drawings[a];
    var list := votes[d.id];
    var order :| Lists(list, got, d.id, order);
    forall i | 0 <= i < |list|
      ensures list[i].voter == order[i]
      ensures list[i].drawing == d.id && list[i].voter != d.author
      ensures MayChoose(list[i].voter, list[i].choice, ListAt(fakes, d.id))
    {
      assert Has(got, order[i], d.id) && VoteOk(got[order[i]][d.id], order[i], d.id, drawings, fakes);
    }
  }
}
