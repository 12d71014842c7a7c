/** The entities of a drawing-and-bluffing round, and the results the phases store. */
module Game {
  import opened Prelude

  type PlayerID = string
  type DrawingID = string
  type FakeID = string

  /** Written where the source leaves an author field unset. */
  const NOBODY: PlayerID := ""

  /** The choice id of the true prompt on every ballot. */
  const TRUE_ID: string := "TRUE"

  const DEFAULT_FAKE_TEXT: string := "..."

  datatype Player = Player(name: string, connected: bool, lastSeen: int, ready: bool)

  type Players = map<PlayerID, Player>

  predicate Connected(players: Players, p: PlayerID) {
    p in players && players[p].connected
  }

  datatype Drawing = Drawing(id: DrawingID, author: PlayerID, prompt: string)

  datatype FakePrompt = FakePrompt(id: FakeID, drawing: DrawingID, author: PlayerID, text: string)

  datatype Vote = Vote(voter: PlayerID, drawing: DrawingID, choice: string)

  /** One line of the revealed ballot. A merged fake has several authors. */
  datatype Choice = Choice(id: string, text: string, authors: seq<PlayerID>, isTrue: bool, voters: seq<PlayerID>)

  datatype DrawingReveal = DrawingReveal(drawing: DrawingID, author: PlayerID, prompt: string, choices: seq<Choice>)

  /** One line of the ballot before the reveal: no authors, no voters. */
  datatype VotingChoice = VotingChoice(id: string, text: string, isTrue: bool)

  type Prompts = map<PlayerID, string>
  type Drawings = map<PlayerID, Drawing>
  type Fakes = map<DrawingID, seq<FakePrompt>>
  type Votes = map<DrawingID, seq<Vote>>
  type Reveals = map<DrawingID, DrawingReveal>
  type Deltas = map<PlayerID, int>

  datatype PhaseResult =
    | PromptsResult(prompts: Prompts)
    | DrawingsResult(items: Drawings)
    | FakesResult(fakes: Fakes)
    | VotesResult(votes: Votes)
    | RevealsResult(revealed: Reveals)
    | ScoresResult(deltas: Deltas)
    | WaitResult

  /** The Award line of a final reveal step. */
  datatype Award = Award(player: PlayerID, points: int, reason: string)

  /** One leader-driven emission of the leaderboard animation. */
  datatype Step =
    | Eliminate(drawing: DrawingID, choice: string)
    | Final(drawing: DrawingID, deltas: Deltas, awards: seq<Award>)

  /** What the server broadcasts to the clients, as far as the round pipeline goes. */
  datatype Event =
    | PhaseChange(phase: string, round: nat)
    | PromptIssued(player: PlayerID, prompt: string)
    | DrawingsShown(drawings: Drawings)
    | BallotShown(ballot: map<DrawingID, seq<VotingChoice>>)
    | Revealed(dr: DrawingReveal)
    | RevealStep(step: Step)
    | RoundResult(deltas: Deltas, totals: Deltas)
    | GameEnd(scores: Deltas)
    | StateUpdate(phase: string, round: nat, scores: Deltas)

  /** What a primitive answers: whether the phase is over, what to broadcast, what to store. */
  datatype Decision = Decision(advance: bool, events: seq<Event>, result: Option<PhaseResult>)

  const STAY: Decision := Decision(false, [], None)

  function DrawingIds(drawings: Drawings): set<DrawingID> {
    set a | a in drawings :: drawings[a].id
  }

  /** The drawings of a round: filed under their author, under ids issued once. */
  ghost predicate DrawingsOk(drawings: Drawings) {
    && (forall a :: a in drawings ==> drawings[a].author == a && a != NOBODY)
    && (forall a, b :: a in drawings && b in drawings && drawings[a].id == drawings[b].id ==> a == b)
  }
}
