/** The phase plan of a game: the names, the two parsers that read a round number back
    out of a name, the builder, and the validator run at every game start. */
module Phases {

  /** The registry key of the primitive that runs a phase. */
  datatype Kind =
    | PromptDistribute | DrawingSubmit | FakePromptSubmit | Voting | Reveal | Scoring | Leaderboard

  /** The lobby-configurable knobs. Times are in seconds. */
  datatype Settings = Settings(
    roundCount: int, generatedFakeCount: int,
    drawingSeconds: int, fakePromptSeconds: int, votingSeconds: int)

  datatype Phase = Phase(name: string, primitive: Kind, duration: nat, round: nat, dependsOn: seq<string>)

  const PHASES_PER_ROUND: nat := 7

  function KindName(k: Kind): (s: string)
    ensures |s| > 0
  {
    match k
    case PromptDistribute => "prompt_distribute"
    case DrawingSubmit => "drawing_submit"
    case FakePromptSubmit => "fake_prompt_submit"
    case Voting => "voting"
    case Reveal => "reveal"
    case Scoring => "scoring"
    case Leaderboard => "leaderboard"
  }

  predicate IsDigit(c: char) {
    '0' <= c <= '9'
  }

  function DigitValue(c: char): int {
    c as int - '0' as int
  }

  /** Decimal rendering, as fmt's %d. */
  function Itoa(n: nat): (s: string)
    ensures |s| > 0 && forall i :: 0 <= i < |s| ==> IsDigit(s[i])
    decreases n
  {
    if n < 10 then [('0' as int + n) as char]
    else Itoa(n / 10) + [('0' as int + n % 10) as char]
  }

  /** Reading characters as decimal digits, most significant first. */
  function Atoi(s: string): int {
    if s == [] then 0 else Atoi(s[..|s| - 1]) * 10 + DigitValue(s[|s| - 1])
  }

  lemma {:induction false} AtoiItoa(n: nat)
    ensures Atoi(Itoa(n)) == n
    decreases n
  {
    if n >= 10 {
      AtoiItoa(n / 10);
      assert Itoa(n)[..|Itoa(n)| - 1] == Itoa(n / 10);
    } else {
      assert Itoa(n)[..0] == [];
    }
  }

  function PhaseName(k: Kind, round: nat): string {
    KindName(k) + "_r" + Itoa(round)
  }

  // ----- the two parsers -----

  /** Where the longest run of digits at the end of `s` starts. */
  function DigitTail(s: string): (i: nat)
    ensures i <= |s| && (forall k :: i <= k < |s| ==> IsDigit(s[k])) && (i > 0 ==> !IsDigit(s[i - 1]))
  {
    if s == [] || !IsDigit(s[|s| - 1]) then |s| else DigitTail(s[..|s| - 1])
  }

  /** The number in a "_rN" suffix of `s`, or 0 when it has none. */
  function RoundIn(s: string): int {
    var i := DigitTail(s);
    if 2 <= i < |s| && s[i - 1] == 'r' && s[i - 2] == '_' then Atoi(s[i..]) else 0
  }

  method ReadDigits(s: string) returns (n: int)
    ensures n == Atoi(s)
  {
    n := 0;
    for i := 0 to |s|
      invariant n == Atoi(s[..i])
    {
      assert s[..i + 1][..i] == s[..i];
      n := n * 10 + DigitValue(s[i]);
    }
    assert s[..|s|] == s;
  }

  /** The room's parser: scan back over digits, then look for "_r"; 0 on a miss. */
  method RoundFromPhaseName(name: string) returns (n: int)
    ensures n == RoundIn(name)
  {
    var start := |name|;
    while start > 0 && IsDigit(name[start - 1])
      invariant 0 <= start <= |name|
      invariant forall k :: start <= k < |name| ==> IsDigit(name[k])
    {
      start := start - 1;
    }
    DigitTailUnique(name, start);
    if start == |name| {
      return 0;
    }
    if start < 2 || name[start - 1] != 'r' || name[start - 2] != '_' {
      return 0;
    }
    n := ReadDigits(name[start..]);
  }

  lemma DigitTailUnique(s: string, i: nat)
    requires i <= |s| && (forall k :: i <= k < |s| ==> IsDigit(s[k])) && (i > 0 ==> !IsDigit(s[i - 1]))
    ensures i == DigitTail(s)
  {
    var j := DigitTail(s);
    assert i == 0 || !IsDigit(s[i - 1]);
    assert j == 0 || !IsDigit(s[j - 1]);
  }

  /** The last place where "_r" occurs in `s`, as strings.LastIndex finds it. */
  method LastIndexOfR(s: string) returns (i: int)
    ensures i == -1 || 0 <= i < |s| - 1
    ensures i >= 0 ==> s[i] == '_' && s[i + 1] == 'r'
    ensures forall k :: 0 <= k < |s| - 1 && i < k ==> !(s[k] == '_' && s[k + 1] == 'r')
  {
    i := |s| - 2;
    while i >= 0 && !(s[i] == '_' && s[i + 1] == 'r')
      invariant i < |s| - 1
      invariant forall k :: 0 <= k < |s| - 1 && i < k ==> !(s[k] == '_' && s[k + 1] == 'r')
    {
      i := i - 1;
    }
    if i < 0 {
      i := -1;
    }
  }

  /** The game's parser: everything after the last "_r" must be digits; 1 on a miss.
      The two hand-written parsers agree on every string, up to the value of a miss. */
  method RoundFromPhase(phase: string) returns (n: int)
    ensures n == if RoundIn(phase) == 0 then 1 else RoundIn(phase)
  {
    var tail := DigitTail(phase);
    var at := LastIndexOfR(phase);
    if at < 0 {
      return 1;
    }
    var rest := phase[at + 2..];
    n := 0;
    for i := 0 to |rest|
      invariant n == Atoi(rest[..i])
      invariant forall k :: 0 <= k < i ==> IsDigit(rest[k])
    {
      if rest[i] < '0' || rest[i] > '9' {
        assert !IsDigit(phase[at + 2 + i]);
        return 1;
      }
      assert rest[..i + 1][..i] == rest[..i];
      n := n * 10 + DigitValue(rest[i]);
    }
    assert rest[..|rest|] == rest;
    assert forall k :: at + 2 <= k < |phase| ==> phase[k] == rest[k - (at + 2)];
    DigitTailUnique(phase, at + 2);
    if n == 0 {
      return 1;
    }
  }

  predicate AreDigits(s: string) {
    s != [] && forall i :: 0 <= i < |s| ==> IsDigit(s[i])
  }

  /** The number read off a string is that of the digits behind a final "_r"; a string that does
      not end so has none. */
  lemma RoundIsSuffix(before: string, digits: string)
    requires AreDigits(digits)
    ensures RoundIn(before + "_r" + digits) == Atoi(digits)
  {
    var name, i := before + "_r" + digits, |before| + 2;
    assert name[i..] == digits && name[i - 1] == 'r' && name[i - 2] == '_';
    assert forall k :: i <= k < |name| ==> name[k] == digits[k - i];
    DigitTailUnique(name, i);
  }

  lemma NoSuffixNoRound(s: string)
    ensures RoundIn(s) == 0 || exists i :: 2 <= i < |s| && s[i - 2..i] == "_r" && AreDigits(s[i..])
  {
    var i := DigitTail(s);
    if 2 <= i < |s| && s[i - 1] == 'r' && s[i - 2] == '_' {
      assert s[i - 2..i] == "_r" && AreDigits(s[i..]);
    }
  }

  /** Both parsers invert the printer, for every kind and every round from 1 up. */
  lemma ParsersInvertPrinter(k: Kind, round: nat)
    ensures RoundIn(PhaseName(k, round)) == round
  {
    RoundIsSuffix(KindName(k), Itoa(round));
    AtoiItoa(round);
  }

  /** Distinct (kind, round) pairs print differently, so results never share a key. */
  lemma NamesAreInjective(k1: Kind, r1: nat, k2: Kind, r2: nat)
    requires PhaseName(k1, r1) == PhaseName(k2, r2)
    ensures k1 == k2 && r1 == r2
  {
    ParsersInvertPrinter(k1, r1);
    ParsersInvertPrinter(k2, r2);
    assert PhaseName(k1, r1)[0] == KindName(k1)[0] == KindName(k2)[0];
  }

  /** The prefix tests by which the room and the client recognise a phase from its name. */
  lemma PrefixTellsKind(k: Kind, round: nat, of: Kind)
    ensures KindName(of) <= PhaseName(k, round) <==> k == of
  {
    assert PhaseName(k, round)[0] == KindName(k)[0];
  }

  // ----- building the plan -----

  function KindAt(i: nat): Kind {
    match i % PHASES_PER_ROUND
    case 0 => PromptDistribute
    case 1 => DrawingSubmit
    case 2 => FakePromptSubmit
    case 3 => Voting
    case 4 => Reveal
    case 5 => Scoring
    case _ => Leaderboard
  }

  function RoundAt(i: nat): nat {
    i / PHASES_PER_ROUND + 1
  }

  /** The time limit of a phase; 0 means that no timer is armed. */
  function DurationOf(k: Kind, s: Settings): nat {
    match k
    case DrawingSubmit => if s.drawingSeconds > 0 then s.drawingSeconds else 60
    case FakePromptSubmit => if s.fakePromptSeconds > 0 then s.fakePromptSeconds else 90
    case Voting => if s.votingSeconds > 0 then s.votingSeconds else 20
    case _ => 0
  }

  function DependsOn(k: Kind): seq<Kind> {
    match k
    case PromptDistribute => []
    case DrawingSubmit => [PromptDistribute]
    case FakePromptSubmit => [DrawingSubmit]
    case Voting => [DrawingSubmit, FakePromptSubmit]
    case Reveal => [DrawingSubmit, Voting]
    case Scoring => [Reveal]
    case Leaderboard => [Reveal, Scoring]
  }

  function Names(ks: seq<Kind>, round: nat): (names: seq<string>)
    ensures |names| == |ks| && forall j :: 0 <= j < |ks| ==> names[j] == PhaseName(ks[j], round)
  {
    seq(|ks|, j requires 0 <= j < |ks| => PhaseName(ks[j], round))
  }

  function PhaseAt(i: nat, s: Settings): Phase {
    var k, round := KindAt(i), RoundAt(i);
    Phase(PhaseName(k, round), k, DurationOf(k, s), round, Names(DependsOn(k), round))
  }

  function Slot(phases: seq<Phase>, i: nat): Phase
    requires i < |phases|
  {
    phases[i]
  }

  /** The plan in closed form: position i is phase i%7 of round i/7 + 1. */
  ghost predicate IsPlan(phases: seq<Phase>, s: Settings) {
    && |phases| % PHASES_PER_ROUND == 0
    && forall i {:trigger Slot(phases, i)} :: 0 <= i < |phases| ==> Slot(phases, i) == PhaseAt(i, s)
  }

  lemma SlotOfPlan(phases: seq<Phase>, s: Settings, i: nat)
    requires IsPlan(phases, s) && i < |phases|
    ensures phases[i] == PhaseAt(i, s)
  {
    assert Slot(phases, i) == PhaseAt(i, s);
  }

  /** What the room needs to know of the phase it is in. */
  lemma PlanFacts(phases: seq<Phase>, s: Settings, i: nat)
    requires IsPlan(phases, s) && i < |phases|
    ensures phases[i].primitive == KindAt(i) && phases[i].round == RoundAt(i)
    ensures phases[i].duration == DurationOf(KindAt(i), s)
    ensures phases[i].name == PhaseName(KindAt(i), RoundAt(i)) && RoundIn(phases[i].name) == RoundAt(i)
  {
    SlotOfPlan(phases, s, i);
    ParsersInvertPrinter(KindAt(i), RoundAt(i));
  }

  /** The seven phases appended for round `r`. */
  function RoundPhases(r: nat, s: Settings): (block: seq<Phase>)
    ensures |block| == PHASES_PER_ROUND
  {
    [
      Phase(PhaseName(PromptDistribute, r), PromptDistribute, 0, r, []),
      Phase(PhaseName(DrawingSubmit, r), DrawingSubmit, DurationOf(DrawingSubmit, s), r,
            [PhaseName(PromptDistribute, r)]),
      Phase(PhaseName(FakePromptSubmit, r), FakePromptSubmit, DurationOf(FakePromptSubmit, s), r,
            [PhaseName(DrawingSubmit, r)]),
      Phase(PhaseName(Voting, r), Voting, DurationOf(Voting, s), r,
            [PhaseName(DrawingSubmit, r), PhaseName(FakePromptSubmit, r)]),
      Phase(PhaseName(Reveal, r), Reveal, 0, r,
            [PhaseName(DrawingSubmit, r), PhaseName(Voting, r)]),
      Phase(PhaseName(Scoring, r), Scoring, 0, r,
            [PhaseName(Reveal, r)]),
      Phase(PhaseName(Leaderboard, r), Leaderboard, 0, r,
            [PhaseName(Reveal, r), PhaseName(Scoring, r)])]
  }

  lemma RoundPhaseAt(r: nat, o: nat, s: Settings)
    requires r >= 1 && o < PHASES_PER_ROUND
    ensures RoundPhases(r, s)[o] == PhaseAt(PHASES_PER_ROUND * (r - 1) + o, s)
  {
    var i := PHASES_PER_ROUND * (r - 1) + o;
    assert i % PHASES_PER_ROUND == o && i / PHASES_PER_ROUND == r - 1;
    assert RoundPhases(r, s)[o].dependsOn == Names(DependsOn(KindAt(i)), r);
  }

  /** Of the seven phases of a round the second, third and fourth are timed, each by its own
      setting, or by a default if that is not positive. */
  ghost predicate HasTimeLimits(phases: seq<Phase>, s: Settings) {
    forall i {:trigger Slot(phases, i)} :: 0 <= i < |phases| ==>
                                             Slot(phases, i).duration ==
                                             if i % 7 == 1 then if s.drawingSeconds > 0 then s.drawingSeconds else 60
                                             else if i % 7 == 2 then if s.fakePromptSeconds > 0 then s.fakePromptSeconds else 90
                                             else if i % 7 == 3 then if s.votingSeconds > 0 then s.votingSeconds else 20
                                             else 0
  }

  lemma PlanIsTimed(phases: seq<Phase>, s: Settings)
    requires IsPlan(phases, s)
    ensures HasTimeLimits(phases, s)
  {
    forall i | 0 <= i < |phases|
      ensures Slot(phases, i) == PhaseAt(i, s)
    {
      SlotOfPlan(phases, s, i);
    }
  }

  /** The phases of a round in their order, and which earlier ones each needs. */
  const TITLES: seq<string> :=
    ["prompt_distribute", "drawing_submit", "fake_prompt_submit", "voting", "reveal", "scoring", "leaderboard"]

  const NEEDS: seq<seq<nat>> := [[], [0], [1], [1, 2], [1, 3], [4], [4, 5]]

  lemma TitleOf(i: nat)
    ensures KindName(KindAt(i)) == TITLES[i % 7]
    ensures |DependsOn(KindAt(i))| == |NEEDS[i % 7]|
    ensures forall m :: 0 <= m < |NEEDS[i % 7]| ==> NEEDS[i % 7][m] < 7
                                                    && KindName(DependsOn(KindAt(i))[m]) == TITLES[NEEDS[i % 7][m]]
  {
  }

  /** What stands at position `i` of a plan: the title and number of its round, and the printed
      names of the phases of that round that it needs. */
  lemma PhaseInFull(phases: seq<Phase>, s: Settings, i: nat)
    requires IsPlan(phases, s) && i < |phases|
    ensures phases[i].round == i / 7 + 1 && KindName(phases[i].primitive) == TITLES[i % 7]
    ensures phases[i].name == TITLES[i % 7] + "_r" + Itoa(i / 7 + 1)
    ensures |phases[i].dependsOn| == |NEEDS[i % 7]|
    ensures forall m :: 0 <= m < |NEEDS[i % 7]| ==> NEEDS[i % 7][m] < 7
                                                    && phases[i].dependsOn[m] == TITLES[NEEDS[i % 7][m]] + "_r" + Itoa(i / 7 + 1)
  {
    SlotOfPlan(phases, s, i);
    TitleOf(i);
  }

  /** As many rounds as configured; without that, half the players rounded up, at least three. */
  method BuildPhases(connected: nat, s: Settings) returns (phases: seq<Phase>)
    ensures |phases| == 7 * if s.roundCount > 0 then s.roundCount else if connected <= 6 then 3 else (connected + 1) / 2
    ensures IsPlan(phases, s) && HasTimeLimits(phases, s)
  {
    var rounds := (connected + 1) / 2;
    if rounds < 3 {
      rounds := 3;
    }
    if s.roundCount > 0 {
      rounds := s.roundCount;
    }
    ghost var due := if s.roundCount > 0 then s.roundCount else if connected <= 6 then 3 else (connected + 1) / 2;
    assert rounds == due;
    phases := [];
    for r := 1 to rounds + 1
      invariant |phases| == PHASES_PER_ROUND * (r - 1)
      invariant IsPlan(phases, s)
    {
      ghost var before := phases;
      phases := phases + RoundPhases(r, s);
      forall i | 0 <= i < |phases|
        ensures Slot(phases, i) == PhaseAt(i, s)
      {
        if i >= PHASES_PER_ROUND * (r - 1) {
          RoundPhaseAt(r, i - PHASES_PER_ROUND * (r - 1), s);
        } else {
          SlotOfPlan(before, s, i);
        }
      }
    }
    PlanIsTimed(phases, s);
  }

  // ----- validating a plan -----

  /** What the phase runner needs of a plan: names are non-empty and unique, and every
      dependency is the name of a strictly earlier phase. */
  ghost predicate WellFormedPlan(phases: seq<Phase>) {
    forall i :: 0 <= i < |phases| ==> GoodAt(phases, i)
  }

  ghost predicate GoodAt(phases: seq<Phase>, i: nat)
    requires i < |phases|
  {
    && phases[i].name != ""
    && !NamedBefore(phases, i, phases[i].name)
    && forall d :: d in phases[i].dependsOn ==> NamedBefore(phases, i, d)
  }

  ghost predicate NamedBefore(phases: seq<Phase>, i: nat, name: string)
    requires i <= |phases|
  {
    exists j :: 0 <= j < i && phases[j].name == name
  }

  /** True when the plan is rejected. */
  method ValidatePhaseSequence(phases: seq<Phase>) returns (rejected: bool)
    ensures !rejected <==> WellFormedPlan(phases)
  {
    var seen: map<string, nat> := map[];
    for i := 0 to |phases|
      invariant forall j :: 0 <= j < i ==> GoodAt(phases, j)
      invariant forall name :: name in seen <==> NamedBefore(phases, i, name)
      invariant forall name :: name in seen ==> seen[name] < i
    {
      var p := phases[i];
      if p.name == "" {
        assert !GoodAt(phases, i);
        return true;
      }
      if p.name in seen {
        assert !GoodAt(phases, i);
        return true;
      }
      for k := 0 to |p.dependsOn|
        invariant forall m :: 0 <= m < k ==> NamedBefore(phases, i, p.dependsOn[m])
      {
        var dep := p.dependsOn[k];
        if dep !in seen {
          assert dep in p.dependsOn && !GoodAt(phases, i);
          return true;
        }
        if seen[dep] >= i {
          return true;
        }
      }
      assert GoodAt(phases, i);
      forall name
        ensures NamedBefore(phases, i + 1, name) <==> name == p.name || NamedBefore(phases, i, name)
      {
        if name == p.name {
          assert phases[i].name == name;
        }
      }
      seen := seen[p.name := i];
    }
    return false;
  }

  lemma PlanNamesDiffer(i: nat, j: nat)
    requires i != j
    ensures PhaseName(KindAt(i), RoundAt(i)) != PhaseName(KindAt(j), RoundAt(j))
  {
    if PhaseName(KindAt(i), RoundAt(i)) == PhaseName(KindAt(j), RoundAt(j)) {
      NamesAreInjective(KindAt(i), RoundAt(i), KindAt(j), RoundAt(j));
    }
  }

  /** Every plan the builder makes is accepted, whatever the settings and the round count. */
  lemma PlansAreWellFormed(phases: seq<Phase>, s: Settings)
    requires IsPlan(phases, s)
    ensures WellFormedPlan(phases)
  {
    forall i | 0 <= i < |phases|
      ensures GoodAt(phases, i)
    {
      PlanIsGoodAt(phases, s, i);
    }
  }

  lemma PlanIsGoodAt(phases: seq<Phase>, s: Settings, i: nat)
    requires IsPlan(phases, s) && i < |phases|
    ensures GoodAt(phases, i)
  {
    SlotOfPlan(phases, s, i);
    forall j | 0 <= j < i
      ensures phases[j].name != phases[i].name
    {
      SlotOfPlan(phases, s, j);
      PlanNamesDiffer(i, j);
    }
    forall m | 0 <= m < |phases[i].dependsOn|
      ensures NamedBefore(phases, i, phases[i].dependsOn[m])
    {
      var first, k := i - i % PHASES_PER_ROUND, DependsOn(KindAt(i))[m];
      DependencyIsEarlier(i, m);
      SlotOfPlan(phases, s, first + Offset(k));
      assert phases[first + Offset(k)].name == phases[i].dependsOn[m];
    }
  }

  function Offset(k: Kind): (o: nat)
    ensures o < PHASES_PER_ROUND && KindAt(o) == k
  {
    match k
    case PromptDistribute => 0
    case DrawingSubmit => 1
    case FakePromptSubmit => 2
    case Voting => 3
    case Reveal => 4
    case Scoring => 5
    case Leaderboard => 6
  }

  lemma DependencyIsEarlier(i: nat, m: nat)
    requires m < |DependsOn(KindAt(i))|
    ensures var first, k := i - i % PHASES_PER_ROUND, DependsOn(KindAt(i))[m];
            first + Offset(k) < i && KindAt(first + Offset(k)) == k && RoundAt(first + Offset(k)) == RoundAt(i)
  {
  }
}
