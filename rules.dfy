/** The game state both controllers share (a board and one spymaster and one operative per
    team) and the state changes their turn engines are built from. */
module Rules {
  import opened Names
  import opened Cards
  import opened Boards
  import opened Roles

  datatype GameValue = GameValue(
    board: BoardValue,
    redSpymaster: SpymasterValue,
    blueSpymaster: SpymasterValue,
    redOperative: OperativeValue,
    blueOperative: OperativeValue)

  /** The spymaster playing for `team`: the red one exactly when `team` is "RED". */
  function SpymasterOf(g: GameValue, team: string): SpymasterValue {
    if team == RED then g.redSpymaster else g.blueSpymaster
  }

  /** selectSpymaster. */
  function CurrentSpymaster(g: GameValue): SpymasterValue {
    SpymasterOf(g, g.board.currentTeam)
  }

  /** The operative playing for `team`: the red one exactly when `team` is "RED". */
  function OperativeOf(g: GameValue, team: string): OperativeValue {
    if team == RED then g.redOperative else g.blueOperative
  }

  /** selectOperative. */
  function CurrentOperative(g: GameValue): OperativeValue {
    OperativeOf(g, g.board.currentTeam)
  }

  /** guessesRemaining: the team may always guess once more than its hint's count. */
  function GuessesRemaining(g: GameValue): int {
    CurrentSpymaster(g).guesses + 1
  }

  /** The team whose cards checkIfGameWon counts: RED for "RED", BLUE for anything else. */
  function ScoringTeam(g: GameValue): (t: string)
    ensures t == RED || t == BLUE
    ensures t == RED <==> g.board.currentTeam == RED
  {
    if g.board.currentTeam == RED then RED else BLUE
  }

  /** The console's checkIfGameWon on a board: the current team has no hidden agent left. */
  predicate BoardWon(b: BoardValue) {
    Remaining(b.cards, if b.currentTeam == RED then RED else BLUE) == 0
  }

  /** checkIfGameWon on the whole game. */
  predicate GameWon(g: GameValue) {
    BoardWon(g.board)
  }

  /** The console's nextTeam: hands the turn to the other team. */
  function SwitchTeam(g: GameValue): (r: GameValue)
    ensures r.board.currentTeam == OtherTeam(g.board.currentTeam)
    ensures r == g.(board := g.board.(currentTeam := r.board.currentTeam))
  {
    g.(board := g.board.(currentTeam := OtherTeam(g.board.currentTeam)))
  }

  /** incrementScore on the current team's operative. */
  function ScoreCurrent(g: GameValue): (r: GameValue)
    ensures r.board == g.board && r.redSpymaster == g.redSpymaster && r.blueSpymaster == g.blueSpymaster
    ensures CurrentOperative(r) == CurrentOperative(g).(score := CurrentOperative(g).score + 1)
    ensures g.board.currentTeam == RED ==> r.blueOperative == g.blueOperative
    ensures g.board.currentTeam != RED ==> r.redOperative == g.redOperative
  {
    if g.board.currentTeam == RED then g.(redOperative := g.redOperative.(score := g.redOperative.score + 1))
    else g.(blueOperative := g.blueOperative.(score := g.blueOperative.score + 1))
  }

  /** decrementGuesses on the current team's spymaster. */
  function DecrementCurrent(g: GameValue): (r: GameValue)
    ensures r.board == g.board && r.redOperative == g.redOperative && r.blueOperative == g.blueOperative
    ensures CurrentSpymaster(r) == CurrentSpymaster(g).(guesses := CurrentSpymaster(g).guesses - 1)
    ensures g.board.currentTeam == RED ==> r.blueSpymaster == g.blueSpymaster
    ensures g.board.currentTeam != RED ==> r.redSpymaster == g.redSpymaster
  {
    if g.board.currentTeam == RED then g.(redSpymaster := g.redSpymaster.(guesses := g.redSpymaster.guesses - 1))
    else g.(blueSpymaster := g.blueSpymaster.(guesses := g.blueSpymaster.guesses - 1))
  }

  /** setValidHint on the current team's spymaster. */
  function GiveHint(g: GameValue, clue: string, guesses: int): (r: GameValue)
    ensures r.board == g.board && r.redOperative == g.redOperative && r.blueOperative == g.blueOperative
    ensures CurrentSpymaster(r) == CurrentSpymaster(g).(hint := clue, guesses := guesses)
    ensures g.board.currentTeam == RED ==> r.blueSpymaster == g.blueSpymaster
    ensures g.board.currentTeam != RED ==> r.redSpymaster == g.redSpymaster
  {
    if g.board.currentTeam == RED then g.(redSpymaster := g.redSpymaster.(hint := clue, guesses := guesses))
    else g.(blueSpymaster := g.blueSpymaster.(hint := clue, guesses := guesses))
  }

  /** makeVisibleTeam on the card at 0-based position i. */
  function RevealAt(g: GameValue, i: int): GameValue
    requires 0 <= i < |g.board.cards|
  {
    g.(board := g.board.(cards := g.board.cards[i := Revealed(g.board.cards[i])]))
  }

  /** The sum of both operatives' scores. */
  function TotalScore(g: GameValue): int {
    g.redOperative.score + g.blueOperative.score
  }

  /** Revealing a hidden card lowers its own type's remaining count by one; switching turns,
      scoring and spending guesses leave the cards alone. */
  lemma RevealAtRemaining(g: GameValue, i: int, team: string)
    requires 0 <= i < |g.board.cards|
    requires !IsVisible(g.board.cards[i]) && g.board.cards[i].team != HIDDEN
    ensures Remaining(RevealAt(g, i).board.cards, team)
         == if team == g.board.cards[i].team then Remaining(g.board.cards, team) - 1
            else Remaining(g.board.cards, team)
  {
    RevealLowersRemaining(g.board.cards, i, team);
  }
}
