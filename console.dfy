/** ui.CodenamesConsole: the text controller's turn engine (hint, guesses, team switches). */
module Console {
  import opened Wrappers
  import opened Names
  import opened Cards
  import opened Boards
  import opened Roles
  import opened Hints
  import opened Rules
  import opened Setup
  import opened Dictionaries

  /** What a guess leaves behind: the new state, whether the game ended (gameContinue was
      cleared) and whether the same team guesses again. */
  datatype Outcome = Outcome(game: GameValue, over: bool, keepGoing: bool)

  /** guess: reveal the card, then resolve it. The assassin ends the game with the turn passed
      to the winner; a bystander passes the turn; an own agent scores for the team, which keeps
      the turn while guesses remain; an opponent agent passes the turn and scores for the
      opponent, which may win by it. Scores never fall and the total rises by at most one. */
  function ConsoleGuess(g: GameValue, i: int): (r: Outcome)
    requires 0 <= i < |g.board.cards|
    ensures r.game.board.cards == g.board.cards[i := Revealed(g.board.cards[i])]
    ensures r.game.redOperative.score >= g.redOperative.score
    ensures r.game.blueOperative.score >= g.blueOperative.score
    ensures var t := g.board.cards[i].team;
      && (t == ASSASSIN ==>
            r.over && !r.keepGoing && r.game.board.currentTeam == OtherTeam(g.board.currentTeam)
            && TotalScore(r.game) == TotalScore(g))
      && (t == NEUTRAL ==>
            !r.over && !r.keepGoing && r.game.board.currentTeam == OtherTeam(g.board.currentTeam)
            && TotalScore(r.game) == TotalScore(g))
      && (t != ASSASSIN && t != NEUTRAL && t == g.board.currentTeam ==>
            TotalScore(r.game) == TotalScore(g) + 1
            && OperativeOf(r.game, g.board.currentTeam).score == CurrentOperative(g).score + 1
            && (r.over <==> Remaining(r.game.board.cards, ScoringTeam(g)) == 0)
            && (r.keepGoing <==> !r.over && CurrentSpymaster(g).guesses - 1 >= 0)
            && (r.keepGoing ==> CurrentSpymaster(r.game).guesses == CurrentSpymaster(g).guesses - 1)
            && (r.over ==> CurrentSpymaster(r.game) == CurrentSpymaster(g))
            && (r.game.board.currentTeam == g.board.currentTeam <==> r.over || r.keepGoing)
            && (!r.over && !r.keepGoing ==>
                  r.game.board.currentTeam == OtherTeam(g.board.currentTeam)))
      && (t != ASSASSIN && t != NEUTRAL && t != g.board.currentTeam ==>
            !r.keepGoing && r.game.board.currentTeam == OtherTeam(g.board.currentTeam)
            && TotalScore(r.game) == TotalScore(g) + 1
            && CurrentOperative(r.game).score == OperativeOf(g, r.game.board.currentTeam).score + 1
            && (r.over <==> Remaining(r.game.board.cards, ScoringTeam(r.game)) == 0))
  {
    var selectedTeam := g.board.cards[i].team;
    var r := RevealAt(g, i);
    if selectedTeam == ASSASSIN then Outcome(SwitchTeam(r), true, false)
    else if selectedTeam == NEUTRAL then Outcome(SwitchTeam(r), false, false)
    else if selectedTeam == r.board.currentTeam then
      var scored := ScoreCurrent(r);
      if GameWon(scored) then Outcome(scored, true, false)
      else
        var spent := DecrementCurrent(scored);
        if GuessesRemaining(spent) > 0 then Outcome(spent, false, true)
        else Outcome(SwitchTeam(spent), false, false)
    else
      var scored := ScoreCurrent(SwitchTeam(r));
      Outcome(scored, GameWon(scored), false)
  }

  /** getGuessIndex's acceptance test on the typed position (1-based): in 1..25 and not yet
      revealed; anything else makes it ask again. */
  function GuessIndex(cards: seq<CardValue>, input: int): (r: Option<int>)
    requires |cards| >= NUM_CARDS
    ensures r.Some? <==> 1 <= input <= NUM_CARDS && !IsVisible(cards[input - 1])
    ensures r.Some? ==> r.value == input - 1
  {
    var index := input - 1;
    if 0 <= index <= NUM_CARDS - 1 && !IsVisible(cards[index]) then Some(index) else None
  }

  // ---- What a guess does ----

  /** Every guess reveals exactly the chosen card: its own type has one card fewer remaining
      and every other type as many as before. */
  lemma GuessRevealsCard(g: GameValue, i: int, team: string)
    requires 0 <= i < |g.board.cards|
    requires !IsVisible(g.board.cards[i]) && g.board.cards[i].team != HIDDEN
    ensures Remaining(ConsoleGuess(g, i).game.board.cards, team)
         == if team == g.board.cards[i].team then Remaining(g.board.cards, team) - 1
            else Remaining(g.board.cards, team)
  {
    RevealAtRemaining(g, i, team);
  }

  /** A run of guesses in one turn: every guess but the last kept the turn. */
  predicate SameTurn(g: GameValue, guesses: seq<int>)
    decreases |guesses|
  {
    |guesses| <= 1 ||
    (0 <= guesses[0] < |g.board.cards| && ConsoleGuess(g, guesses[0]).keepGoing
     && SameTurn(ConsoleGuess(g, guesses[0]).game, guesses[1..]))
  }

  /** The "+1 bonus guess": after a hint of n >= 0, one turn holds at most n + 1 guesses. */
  lemma {:induction false} TurnBound(g: GameValue, guesses: seq<int>)
    requires CurrentSpymaster(g).guesses >= 0
    requires SameTurn(g, guesses)
    ensures |guesses| <= CurrentSpymaster(g).guesses + 1
    decreases |guesses|
  {
    if |guesses| > 1 {
      var o := ConsoleGuess(g, guesses[0]);
      assert CurrentSpymaster(o.game).guesses == CurrentSpymaster(g).guesses - 1;
      TurnBound(o.game, guesses[1..]);
    }
  }

  class ConsoleGame {
    var gameBoard: Board
    var redSpymaster: Spymaster
    var blueSpymaster: Spymaster
    var redOperative: Operative
    var blueOperative: Operative
    var gameContinue: bool

    /** The console's constructor (gameContinue set) followed by init(startingPlayer): a new
        board, the starting team set on it, and fresh spymasters and operatives for both teams. */
    constructor (startingPlayer: string, lines: seq<string>)
      requires lines == [] || |lines| > SKIP * NUM_CARDS
      ensures Valid() && gameContinue && fresh(gameBoard)
      ensures gameBoard.dictionary != null
      ensures multiset(gameBoard.dictionary.fullDictionary) == multiset(lines)
      ensures FreshBoard(gameBoard.Value(), startingPlayer, gameBoard.dictionary.fullDictionary)
      ensures Value().redSpymaster == SpymasterValue(RED, "", 0)
      ensures Value().blueSpymaster == SpymasterValue(BLUE, "", 0)
      ensures Value().redOperative == OperativeValue(RED, 0)
      ensures Value().blueOperative == OperativeValue(BLUE, 0)
    {
      var board, rs, bs, ro, bo := InitializeGame(startingPlayer, lines);
      gameContinue := true;
      gameBoard := board;
      redSpymaster, blueSpymaster := rs, bs;
      redOperative, blueOperative := ro, bo;
    }

    function Value(): GameValue
      reads this, gameBoard, gameBoard.cards, redSpymaster, blueSpymaster, redOperative, blueOperative
    {
      GameValue(gameBoard.Value(), redSpymaster.Value(), blueSpymaster.Value(),
                redOperative.Value(), blueOperative.Value())
    }

    /** Distinct card objects and one spymaster and one operative object per team. */
    predicate Valid()
      reads this, gameBoard
    {
      gameBoard.Distinct() && redSpymaster != blueSpymaster && redOperative != blueOperative
    }

    function SelectSpymaster(): (s: Spymaster)
      reads this, gameBoard, gameBoard.cards, redSpymaster, blueSpymaster, redOperative, blueOperative
      ensures s == redSpymaster || s == blueSpymaster
      ensures gameBoard.currentTeam == RED ==> s == redSpymaster
      ensures gameBoard.currentTeam != RED ==> s == blueSpymaster
      ensures s.Value() == CurrentSpymaster(Value())
    {
      if gameBoard.currentTeam == RED then redSpymaster else blueSpymaster
    }

    function SelectOperative(): (o: Operative)
      reads this, gameBoard, gameBoard.cards, redSpymaster, blueSpymaster, redOperative, blueOperative
      ensures o == redOperative || o == blueOperative
      ensures gameBoard.currentTeam == RED ==> o == redOperative
      ensures gameBoard.currentTeam != RED ==> o == blueOperative
      ensures o.Value() == CurrentOperative(Value())
    {
      if gameBoard.currentTeam == RED then redOperative else blueOperative
    }

    /** The console's nextTeam. */
    method NextTeam()
      modifies gameBoard
      ensures Value() == SwitchTeam(old(Value()))
      ensures gameBoard.cards == old(gameBoard.cards) && gameBoard.dictionary == old(gameBoard.dictionary)
    {
      if gameBoard.currentTeam == RED {
        gameBoard.SetCurrentTeam(BLUE);
      } else {
        gameBoard.SetCurrentTeam(RED);
      }
    }

    /** checkIfGameWon, through getRemainingCards. */
    method CheckIfGameWon() returns (won: bool)
      ensures won == GameWon(Value())
    {
      var remaining;
      if gameBoard.currentTeam == RED {
        remaining := gameBoard.GetRemainingCards(RED);
      } else {
        remaining := gameBoard.GetRemainingCards(BLUE);
      }
      won := remaining == 0;
    }

    /** The spymaster's turn: validHint on the typed text; on acceptance the current team's
        spymaster holds the clue and the count and nothing else changes. */
    method ProvideHint(hint: string) returns (verdict: Verdict)
      requires Valid()
      modifies redSpymaster, blueSpymaster
      ensures verdict == ParseHint(hint)
      ensures Value() == if verdict.Accepted? then GiveHint(old(Value()), verdict.clue, verdict.guesses)
                         else old(Value())
    {
      var selected := SelectSpymaster();
      verdict := ValidHint(hint, selected);
    }

    /** guess at 0-based position index: the state afterwards is ConsoleGuess's; gameContinue
        is cleared exactly when the game ended. */
    method Guess(index: int) returns (keepGoing: bool)
      requires Valid() && 0 <= index < |gameBoard.cards|
      modifies this, gameBoard, gameBoard.cards, redSpymaster, blueSpymaster, redOperative, blueOperative
      ensures Valid() && gameBoard.cards == old(gameBoard.cards)
      ensures Value() == ConsoleGuess(old(Value()), index).game
      ensures keepGoing == ConsoleGuess(old(Value()), index).keepGoing
      ensures gameContinue == (old(gameContinue) && !ConsoleGuess(old(Value()), index).over)
      ensures gameBoard == old(gameBoard) && redSpymaster == old(redSpymaster)
      ensures blueSpymaster == old(blueSpymaster) && redOperative == old(redOperative)
      ensures blueOperative == old(blueOperative)
    {
      ghost var g := Value();
      var card := gameBoard.cards[index];
      var selectedTeam := card.team;
      card.MakeVisibleTeam();
      assert gameBoard.Snapshot() == g.board.cards[index := Revealed(g.board.cards[index])];
      assert Value() == RevealAt(g, index);
      if selectedTeam == ASSASSIN {
        keepGoing := GuessAssassin();
      } else if selectedTeam == NEUTRAL {
        NextTeam();
        keepGoing := false;
      } else if selectedTeam == gameBoard.currentTeam {
        keepGoing := GuessCorrect();
      } else {
        keepGoing := GuessWrong();
      }
    }

    /** guessAssassin: the turn passes to the other team, which wins. */
    method GuessAssassin() returns (keepGoing: bool)
      modifies this, gameBoard
      ensures Value() == SwitchTeam(old(Value())) && !gameContinue && !keepGoing
      ensures gameBoard == old(gameBoard) && gameBoard.cards == old(gameBoard.cards)
      ensures redSpymaster == old(redSpymaster) && blueSpymaster == old(blueSpymaster)
      ensures redOperative == old(redOperative) && blueOperative == old(blueOperative)
    {
      NextTeam();
      gameContinue := false;
      keepGoing := false;
    }

    /** incrementScore on the current team's operative. */
    method Score()
      requires redOperative != blueOperative
      modifies redOperative, blueOperative
      ensures Value() == ScoreCurrent(old(Value()))
    {
      var selectedOperative := SelectOperative();
      selectedOperative.IncrementScore();
    }

    /** decrementGuesses on the current team's spymaster; `guesses` is its new count. */
    method SpendGuess() returns (guesses: int)
      requires redSpymaster != blueSpymaster
      modifies redSpymaster, blueSpymaster
      ensures Value() == DecrementCurrent(old(Value()))
      ensures guesses == CurrentSpymaster(Value()).guesses
    {
      var selectedSpymaster := SelectSpymaster();
      selectedSpymaster.DecrementGuesses();
      guesses := selectedSpymaster.guesses;
    }

    /** guessCorrect: score; stop on a win, otherwise spend a guess and keep the turn while
        guessesRemaining is positive. */
    method GuessCorrect() returns (keepGoing: bool)
      requires Valid()
      modifies this, gameBoard, redSpymaster, blueSpymaster, redOperative, blueOperative
      ensures Valid() && gameBoard.cards == old(gameBoard.cards)
      ensures var scored := ScoreCurrent(old(Value()));
        && (GameWon(scored) ==> Value() == scored && !keepGoing && !gameContinue)
        && (!GameWon(scored) ==>
              var spent := DecrementCurrent(scored);
              gameContinue == old(gameContinue) && keepGoing == (GuessesRemaining(spent) > 0)
              && Value() == if keepGoing then spent else SwitchTeam(spent))
      ensures gameBoard == old(gameBoard) && redSpymaster == old(redSpymaster)
      ensures blueSpymaster == old(blueSpymaster) && redOperative == old(redOperative)
      ensures blueOperative == old(blueOperative)
    {
      ghost var scored := ScoreCurrent(Value());
      Score();
      var won := CheckIfGameWon();
      if won {
        gameContinue := false;
        return false;
      }
      var guessesLeft := SpendGuess();
      if guessesLeft + 1 > 0 {
        return true;
      } else {
        NextTeam();
        return false;
      }
    }

    /** guessWrong: the turn passes first, then the opponent scores and may win. */
    method GuessWrong() returns (keepGoing: bool)
      requires Valid()
      modifies this, gameBoard, redOperative, blueOperative
      ensures Valid() && gameBoard.cards == old(gameBoard.cards) && !keepGoing
      ensures Value() == ScoreCurrent(SwitchTeam(old(Value())))
      ensures gameContinue == (old(gameContinue) && !GameWon(Value()))
      ensures gameBoard == old(gameBoard) && redSpymaster == old(redSpymaster)
      ensures blueSpymaster == old(blueSpymaster) && redOperative == old(redOperative)
      ensures blueOperative == old(blueOperative)
    {
      NextTeam();
      Score();
      var won := CheckIfGameWon();
      if won {
        gameContinue := false;
      }
      keepGoing := false;
    }
  }
}
