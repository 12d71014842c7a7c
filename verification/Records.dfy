/** The record of a game in progress: which results are stored under which phase names, how
    they depend on one another, and the score ledger they add up to. */
module Records {
  import opened Prelude
  import opened Game
  import opened Scores
  import opened RevealSteps
  import opened Merge
  import opened Conservation
  import opened RoundCollectors
  import opened Client
  import P = Phases

  /** What a phase name says. The server keys results by the printed name; printing is
      injective and every reader uses it only through its kind and round, so the record is
      keyed by these. */
  datatype Key = Key(kind: P.Kind, round: nat)

  type PhaseData = map<Key, PhaseResult>

  /** The key of the i-th phase of a plan. */
  function KeyAt(i: nat): Key {
    Key(P.KindAt(i), P.RoundAt(i))
  }

  function Print(key: Key): string {
    P.PhaseName(key.kind, key.round)
  }

  /** Keys and printed names are the same thing. */
  lemma KeysAreNames(a: Key, b: Key)
    ensures Print(a) == Print(b) <==> a == b
    ensures P.RoundIn(Print(a)) == a.round
    ensures forall k :: P.KindName(k) <= Print(a) <==> k == a.kind
  {
    if Print(a) == Print(b) {
      P.NamesAreInjective(a.kind, a.round, b.kind, b.round);
    }
    P.ParsersInvertPrinter(a.kind, a.round);
    forall k
      ensures P.KindName(k) <= Print(a) <==> k == a.kind
    {
      P.PrefixTellsKind(a.kind, a.round, k);
    }
  }

  lemma KeysDiffer(i: nat, j: nat)
    requires i != j
    ensures KeyAt(i) != KeyAt(j)
  {
  }

  // ----- reading results back, with the zero value for a missing or mistyped one -----

  function ResultAt(data: PhaseData, k: P.Kind, round: nat): Option<PhaseResult> {
    if Key(k, round) in data then Some(data[Key(k, round)]) else None
  }

  function PromptsOf(r: Option<PhaseResult>): Prompts {
    if r.Some? && r.value.PromptsResult? then r.value.prompts else map[]
  }

  function DrawingsOf(r: Option<PhaseResult>): Drawings {
    if r.Some? && r.value.DrawingsResult? then r.value.items else map[]
  }

  function FakesOf(r: Option<PhaseResult>): Fakes {
    if r.Some? && r.value.FakesResult? then r.value.fakes else map[]
  }

  function VotesOf(r: Option<PhaseResult>): Votes {
    if r.Some? && r.value.VotesResult? then r.value.votes else map[]
  }

  function RevealsOf(r: Option<PhaseResult>): Reveals {
    if r.Some? && r.value.RevealsResult? then r.value.revealed else map[]
  }

  function DeltasOf(r: Option<PhaseResult>): Deltas {
    if r.Some? && r.value.ScoresResult? then r.value.deltas else map[]
  }

  function PromptsIn(data: PhaseData, round: nat): Prompts {
    PromptsOf(ResultAt(data, P.PromptDistribute, round))
  }

  function DrawingsIn(data: PhaseData, round: nat): Drawings {
    DrawingsOf(ResultAt(data, P.DrawingSubmit, round))
  }

  function FakesIn(data: PhaseData, round: nat): Fakes {
    FakesOf(ResultAt(data, P.FakePromptSubmit, round))
  }

  function VotesIn(data: PhaseData, round: nat): Votes {
    VotesOf(ResultAt(data, P.Voting, round))
  }

  function RevealsIn(data: PhaseData, round: nat): Reveals {
    RevealsOf(ResultAt(data, P.Reveal, round))
  }

  function DeltasIn(data: PhaseData, round: nat): Deltas {
    DeltasOf(ResultAt(data, P.Scoring, round))
  }

  // ----- what each result must be -----

  ghost predicate PromptsFit(prompts: Prompts) {
    NOBODY !in prompts
  }

  ghost predicate FakesFit(drawings: Drawings, fakes: Fakes, issued: set<string>) {
    && fakes.Keys == DrawingIds(drawings)
    && (forall a :: a in drawings ==> FakesFor(drawings[a], ListAt(fakes, drawings[a].id)))
    && (forall a :: a in drawings ==> IdsOf(ListAt(fakes, drawings[a].id)) <= issued)
  }

  ghost predicate VotesFit(drawings: Drawings, fakes: Fakes, votes: Votes) {
    && votes.Keys == DrawingIds(drawings)
    && forall a :: a in drawings ==>
                     VotesFor(drawings[a], ListAt(fakes, drawings[a].id), ListAt(votes, drawings[a].id))
  }

  /** `dr` reveals `d` for whichever players were absent at that moment. */
  ghost predicate RevealFits(dr: DrawingReveal, d: Drawing, fakes: seq<FakePrompt>, votes: seq<Vote>) {
    exists players :: IsRevealOf(dr, d, fakes, players, votes)
  }

  ghost predicate RevealsFit(drawings: Drawings, fakes: Fakes, votes: Votes, rr: Reveals) {
    && rr.Keys == DrawingIds(drawings)
    && forall a :: a in drawings && drawings[a].id in rr ==>
                     RevealFits(rr[drawings[a].id], drawings[a],
                                ListAt(fakes, drawings[a].id), ListAt(votes, drawings[a].id))
  }

  ghost predicate DeltasFit(rr: Reveals, deltas: Deltas) {
    IsRoundScore(rr, deltas) && forall p :: At(deltas, p) >= 0
  }

  /** `result` is of the kind of phase `i`, and right for the results it depends on. */
  ghost predicate Fits(data: PhaseData, i: nat, result: PhaseResult, issued: set<string>) {
    var r := P.RoundAt(i);
    match P.KindAt(i)
    case PromptDistribute => result.PromptsResult? && PromptsFit(result.prompts)
    case DrawingSubmit => result.DrawingsResult? && DrawingsOk(result.items)
    case FakePromptSubmit => result.FakesResult? && FakesFit(DrawingsIn(data, r), result.fakes, issued)
    case Voting => result.VotesResult? && VotesFit(DrawingsIn(data, r), FakesIn(data, r), result.votes)
    case Reveal =>
      result.RevealsResult? && RevealsFit(DrawingsIn(data, r), FakesIn(data, r), VotesIn(data, r), result.revealed)
    case Scoring => result.ScoresResult? && DeltasFit(RevealsIn(data, r), result.deltas)
    case Leaderboard => result.WaitResult?
  }

  ghost function KeysUpTo(n: nat): set<Key> {
    set i | 0 <= i < n :: KeyAt(i)
  }

  /** The results of the first `n` phases are on record, each fit for its phase. */
  ghost predicate StoredUpTo(data: PhaseData, n: nat, issued: set<string>) {
    forall i :: 0 <= i < n ==> KeyAt(i) in data && Fits(data, i, data[KeyAt(i)], issued)
  }

  /** ... and nothing else is. */
  ghost predicate DataOk(data: PhaseData, n: nat, issued: set<string>) {
    data.Keys == KeysUpTo(n) && StoredUpTo(data, n, issued)
  }

  /** Two records agree on the results of the first `n` phases. */
  ghost predicate SameUpTo(a: PhaseData, b: PhaseData, n: nat) {
    forall i :: 0 <= i < n ==> KeyAt(i) in a && KeyAt(i) in b && a[KeyAt(i)] == b[KeyAt(i)]
  }

  /** A result depends only on earlier phases of its own round. */
  lemma SameReads(a: PhaseData, b: PhaseData, i: nat, k: P.Kind)
    requires SameUpTo(a, b, i) && P.Offset(k) < i % P.PHASES_PER_ROUND
    ensures ResultAt(a, k, P.RoundAt(i)) == ResultAt(b, k, P.RoundAt(i))
  {
    var j := i - i % P.PHASES_PER_ROUND + P.Offset(k);
    assert j < i && P.KindAt(j) == k && P.RoundAt(j) == P.RoundAt(i);
    assert KeyAt(j) == Key(k, P.RoundAt(i));
  }

  lemma SameFits(a: PhaseData, b: PhaseData, i: nat, result: PhaseResult, issued: set<string>, more: set<string>)
    requires SameUpTo(a, b, i) && Fits(a, i, result, issued) && issued <= more
    ensures Fits(b, i, result, more)
  {
    match P.KindAt(i)
    case PromptDistribute =>
    case DrawingSubmit =>
    case FakePromptSubmit => SameReads(a, b, i, P.DrawingSubmit);
    case Voting =>
      SameReads(a, b, i, P.DrawingSubmit);
      SameReads(a, b, i, P.FakePromptSubmit);
    case Reveal =>
      SameReads(a, b, i, P.DrawingSubmit);
      SameReads(a, b, i, P.FakePromptSubmit);
      SameReads(a, b, i, P.Voting);
    case Scoring => SameReads(a, b, i, P.Reveal);
    case Leaderboard =>
  }

  /** Storing the result of phase `n` touches nothing stored before. */
  lemma StoreKeeps(data: PhaseData, n: nat, result: PhaseResult, issued: set<string>)
    requires DataOk(data, n, issued)
    ensures SameUpTo(data, data[KeyAt(n) := result], n)
  {
    forall i | 0 <= i < n
      ensures KeyAt(i) != KeyAt(n)
    {
      KeysDiffer(i, n);
    }
  }

  lemma NotStoredYet(data: PhaseData, n: nat, issued: set<string>)
    requires DataOk(data, n, issued)
    ensures KeyAt(n) !in data
  {
    forall i | 0 <= i < n
      ensures KeyAt(i) != KeyAt(n)
    {
      KeysDiffer(i, n);
    }
  }

  lemma StoreResult(data: PhaseData, n: nat, result: PhaseResult, issued: set<string>)
    requires DataOk(data, n, issued) && Fits(data, n, result, issued)
    ensures DataOk(data[KeyAt(n) := result], n + 1, issued)
  {
    var after := data[KeyAt(n) := result];
    StoreKeeps(data, n, result, issued);
    forall i | 0 <= i <= n
      ensures KeyAt(i) in after && Fits(after, i, after[KeyAt(i)], issued)
    {
      var stored := if i == n then result else data[KeyAt(i)];
      assert SameUpTo(data, after, i);
      SameFits(data, after, i, stored, issued, issued);
    }
    assert KeysUpTo(n + 1) == KeysUpTo(n) + {KeyAt(n)};
  }

  lemma MoreIdsKeepData(data: PhaseData, n: nat, issued: set<string>, more: set<string>)
    requires DataOk(data, n, issued) && issued <= more
    ensures DataOk(data, n, more)
  {
    forall i | 0 <= i < n
      ensures Fits(data, i, data[KeyAt(i)], more)
    {
      SameFits(data, data, i, data[KeyAt(i)], issued, more);
    }
  }

  // ----- the ledger -----

  /** What phase `i` added to player `p`'s score. */
  ghost function DeltaAt(data: PhaseData, i: nat, p: PlayerID): int {
    if P.KindAt(i) == P.Scoring then At(DeltasIn(data, P.RoundAt(i)), p) else 0
  }

  /** The sum of a player's deltas over the scoring results of the first `n` phases. */
  ghost function Ledger(data: PhaseData, n: nat, p: PlayerID): int {
    if n == 0 then 0 else Ledger(data, n - 1, p) + DeltaAt(data, n - 1, p)
  }

  ghost predicate LedgerOk(scores: Deltas, data: PhaseData, n: nat) {
    forall p :: At(scores, p) == Ledger(data, n, p) && At(scores, p) >= 0
  }

  lemma {:induction false} SameLedger(a: PhaseData, b: PhaseData, n: nat, p: PlayerID)
    requires SameUpTo(a, b, n)
    ensures Ledger(a, n, p) == Ledger(b, n, p)
  {
    if n > 0 {
      assert KeyAt(n - 1) in a && KeyAt(n - 1) in b && a[KeyAt(n - 1)] == b[KeyAt(n - 1)];
      SameLedger(a, b, n - 1, p);
    }
  }

  /** The points in a result that are already in the table but not yet in the record. */
  ghost function Pending(result: PhaseResult, p: PlayerID): int {
    if result.ScoresResult? then At(result.deltas, p) else 0
  }

  ghost predicate LedgerPending(scores: Deltas, data: PhaseData, n: nat, result: PhaseResult) {
    forall p :: At(scores, p) == Ledger(data, n, p) + Pending(result, p) && At(scores, p) >= 0
  }

  lemma StoreLedger(scores: Deltas, data: PhaseData, n: nat, result: PhaseResult, issued: set<string>)
    requires DataOk(data, n, issued) && Fits(data, n, result, issued)
    requires LedgerPending(scores, data, n, result)
    ensures LedgerOk(scores, data[KeyAt(n) := result], n + 1)
  {
    var after := data[KeyAt(n) := result];
    StoreKeeps(data, n, result, issued);
    forall p
      ensures At(scores, p) == Ledger(after, n + 1, p)
    {
      SameLedger(data, after, n, p);
      assert DeltaAt(after, n, p) == Pending(result, p);
    }
  }

  // ----- a prompt reroll changes a stored result -----

  lemma RerollKeeps(data: PhaseData, n: nat, round: nat, prompts: Prompts, issued: set<string>)
    requires DataOk(data, n, issued) && Key(P.PromptDistribute, round) in data && NOBODY !in prompts
    ensures var after := data[Key(P.PromptDistribute, round) := PromptsResult(prompts)];
            DataOk(after, n, issued)
            && forall k, r :: k != P.PromptDistribute ==> ResultAt(after, k, r) == ResultAt(data, k, r)
  {
    var after := data[Key(P.PromptDistribute, round) := PromptsResult(prompts)];
    forall i | 0 <= i < n
      ensures Fits(after, i, after[KeyAt(i)], issued)
    {
      assert Fits(data, i, data[KeyAt(i)], issued);
    }
  }

  lemma {:induction false} RerollLedger(a: PhaseData, b: PhaseData, n: nat, p: PlayerID)
    requires forall k, r :: k != P.PromptDistribute ==> ResultAt(a, k, r) == ResultAt(b, k, r)
    ensures Ledger(a, n, p) == Ledger(b, n, p)
  {
    if n > 0 {
      RerollLedger(a, b, n - 1, p);
    }
  }

  // ----- consequences for a stored round -----

  /** The reveals of a round give a well-ordered animation, whoever was absent. */
  lemma StoredRevealsAreUnique(drawings: Drawings, fakes: Fakes, votes: Votes, rr: Reveals)
    requires RevealsFit(drawings, fakes, votes, rr)
    ensures AllUnique(rr) && NonEmptyIds(rr)
  {
    forall d | d in rr
      ensures UniqueFakeIds(rr[d])
      ensures forall c :: IsFakeOf(rr[d], c) ==> c != ""
    {
      var a :| a in drawings && drawings[a].id == d;
      var players :| IsRevealOf(rr[d], drawings[a], ListAt(fakes, d), players, ListAt(votes, d));
      RevealIdsAreUnique(rr[d], drawings[a], ListAt(fakes, d), players, ListAt(votes, d));
      RevealIdsAreNonEmpty(rr[d], drawings[a], ListAt(fakes, d), players, ListAt(votes, d));
    }
  }

  lemma RevealIdsAreNonEmpty(dr: DrawingReveal, d: Drawing, fakes: seq<FakePrompt>, players: Players, votes: seq<Vote>)
    requires IsRevealOf(dr, d, fakes, players, votes)
    ensures forall c :: IsFakeOf(dr, c) ==> c != ""
  {
    var defaults, keys := Unpack(dr, d, fakes, players, votes);
    forall c | IsFakeOf(dr, c)
      ensures c != ""
    {
      var ch :| ch in dr.choices && !ch.isTrue && ch.id == c;
      var i :| 0 <= i < |dr.choices| && dr.choices[i] == ch;
      FakeIdInSet(dr, keys, d, fakes + defaults, votes, i);
      IdsInSetAreIssued(fakes + defaults, keys[i], c);
    }
  }

  lemma IdsInSetAreIssued(fakes: seq<FakePrompt>, key: string, id: string)
    requires DistinctIds(fakes) && id in IdsOf(Group(fakes, key))
    ensures id != ""
  {
    var f :| f in Group(fakes, key) && f.id == id;
    assert f in fakes;
  }
}
