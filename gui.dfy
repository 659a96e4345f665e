/** ui.CodenamesGUI with ui.ActionPanel and ui.CardPanel: the Swing controller's turn engine.
    Beside the game it tracks which card buttons accept clicks and whether the end screen
    (thanksForPlaying) has replaced the panels. The player role toggles SPYMASTER/OPERATIVE. */
module Gui {
  import opened Wrappers
  import opened Names
  import opened Cards
  import opened Boards
  import opened Roles
  import opened Hints
  import opened Rules
  import opened Console
  import opened Setup
  import opened Dictionaries

  /** The GUI's state: the game, the 0-based positions of the enabled card buttons, and whether
      the end screen is up (no panel is left to receive events). */
  datatype GuiValue = GuiValue(game: GameValue, enabled: set<int>, ended: bool)

  /** The three revealKey actions. */
  datatype KeyAction = Reveal | Conceal | Deactivate

  /** Positions whose card is still hidden: the buttons CONCEAL turns on. */
  function HiddenPositions(cards: seq<CardValue>): (r: set<int>)
    ensures forall k :: k in r <==> 0 <= k < |cards| && !IsVisible(cards[k])
  {
    set k | 0 <= k < |cards| && !IsVisible(cards[k])
  }

  /** revealKey(action) on the card buttons: REVEAL and DEACTIVATE disable all of them, CONCEAL
      enables those whose card is hidden and leaves the others as they were. */
  function KeyButtons(enabled: set<int>, cards: seq<CardValue>, action: KeyAction): set<int> {
    match action
    case Reveal => {}
    case Deactivate => {}
    case Conceal => enabled + HiddenPositions(cards)
  }

  /** updatePlayer: the role on the board toggles; nothing else changes. */
  function SwitchRole(g: GameValue): (r: GameValue)
    ensures r.board.currentPlayer == OtherPlayer(g.board.currentPlayer)
    ensures r == g.(board := g.board.(currentPlayer := r.board.currentPlayer))
  {
    g.(board := g.board.(currentPlayer := OtherPlayer(g.board.currentPlayer)))
  }

  /** The GUI's nextTeam: deactivate every card button, hand the turn over and toggle the role. */
  function PassTurn(v: GuiValue): (r: GuiValue)
    ensures r.enabled == {} && r.ended == v.ended
    ensures r.game.board.currentTeam == OtherTeam(v.game.board.currentTeam)
    ensures r.game.board.currentPlayer == OtherPlayer(v.game.board.currentPlayer)
    ensures r.game.board.cards == v.game.board.cards
    ensures r.game.(board := v.game.board) == v.game
  {
    GuiValue(SwitchRole(SwitchTeam(v.game)), KeyButtons(v.enabled, v.game.board.cards, Deactivate), v.ended)
  }

  /** A click on the card button at position k (CardPanel's listener and guess): the button is
      disabled and the card revealed, then resolved as in the console except that a satisfied
      win check (the board's checkIfGameWon, not part of this model, passed in as `won`) only
      brings up the end screen: an own-team guess still spends a guess and may pass the turn. */
  function GuiGuess(v: GuiValue, k: int, won: BoardValue -> bool): (r: GuiValue)
    requires 0 <= k < |v.game.board.cards|
    ensures r.game.board.cards == v.game.board.cards[k := Revealed(v.game.board.cards[k])]
    ensures r.game.redOperative.score >= v.game.redOperative.score
    ensures r.game.blueOperative.score >= v.game.blueOperative.score
    ensures k !in r.enabled && r.enabled <= v.enabled
    ensures var t := v.game.board.cards[k].team; var team := v.game.board.currentTeam;
      && (t == ASSASSIN ==>
            r.ended && r.enabled == {} && r.game.board.currentTeam == OtherTeam(team)
            && TotalScore(r.game) == TotalScore(v.game))
      && (t == NEUTRAL ==>
            r.ended == v.ended && r.enabled == {} && r.game.board.currentTeam == OtherTeam(team)
            && TotalScore(r.game) == TotalScore(v.game))
      && (t != ASSASSIN && t != NEUTRAL && t == team ==>
            TotalScore(r.game) == TotalScore(v.game) + 1
            && OperativeOf(r.game, team).score == CurrentOperative(v.game).score + 1
            && SpymasterOf(r.game, team).guesses == CurrentSpymaster(v.game).guesses - 1
            && (r.game.board.currentTeam == team <==> CurrentSpymaster(v.game).guesses - 1 >= 0)
            && (r.enabled == {} <==> r.game.board.currentTeam != team || v.enabled <= {k}))
      && (t != ASSASSIN && t != NEUTRAL && t != team ==>
            r.enabled == {} && r.game.board.currentTeam == OtherTeam(team)
            && TotalScore(r.game) == TotalScore(v.game) + 1
            && CurrentOperative(r.game).score == OperativeOf(v.game, r.game.board.currentTeam).score + 1)
  {
    ResolveClick(GuiValue(RevealAt(v.game, k), v.enabled - {k}, v.ended), v.game.board.cards[k].team, won)
  }

  /** The branch of CardPanel.guess taken once the clicked card is revealed and its button
      disabled, on the team of that card. */
  function ResolveClick(clicked: GuiValue, selectedTeam: string, won: BoardValue -> bool): GuiValue {
    if selectedTeam == ASSASSIN then PassTurn(clicked).(ended := true)
    else if selectedTeam == NEUTRAL then PassTurn(clicked)
    else if selectedTeam == clicked.game.board.currentTeam then
      var scored := ScoreCurrent(clicked.game);
      var ended := clicked.ended || won(scored.board);
      var spent := DecrementCurrent(scored);
      if GuessesRemaining(spent) > 0 then GuiValue(spent, clicked.enabled, ended)
      else PassTurn(GuiValue(spent, clicked.enabled, ended))
    else
      var switched := PassTurn(clicked);
      var scored := ScoreCurrent(switched.game);
      GuiValue(scored, switched.enabled, switched.ended || won(scored.board))
  }

  /** What the hint dialog returned: the typed text, or None when it was cancelled. validHint
      then dereferences null. */
  function HintVerdict(hint: Option<string>): (r: Verdict)
    ensures hint.None? <==> r == Throws(NullDereference)
  {
    match hint
    case None => Throws(NullDereference)
    case Some(h) => ParseHint(h)
  }

  /** The action button. In the spymaster role it asks for a hint: an accepted one goes to the
      current spymaster, the role becomes OPERATIVE and the hidden cards' buttons come on; any
      other verdict changes nothing. In the operative role it ends the turn. */
  function GuiAction(v: GuiValue, hint: Option<string>): (r: GuiValue)
    ensures v.game.board.currentPlayer != SPYMASTER ==> r == PassTurn(v)
    ensures v.game.board.currentPlayer == SPYMASTER && !HintVerdict(hint).Accepted? ==> r == v
    ensures v.game.board.currentPlayer == SPYMASTER && HintVerdict(hint).Accepted? ==>
              && r.game.board.currentTeam == v.game.board.currentTeam
              && r.game.board.currentPlayer == OPERATIVE
              && r.game.board.cards == v.game.board.cards
              && CurrentSpymaster(r.game)
                 == CurrentSpymaster(v.game).(hint := HintVerdict(hint).clue,
                                              guesses := HintVerdict(hint).guesses)
              && r.enabled == v.enabled + HiddenPositions(v.game.board.cards)
              && r.ended == v.ended
  {
    if v.game.board.currentPlayer == SPYMASTER then
      var verdict := HintVerdict(hint);
      if verdict.Accepted? then
        var given := GiveHint(v.game, verdict.clue, verdict.guesses);
        GuiValue(SwitchRole(given), KeyButtons(v.enabled, given.board.cards, Conceal), v.ended)
      else v
    else PassTurn(v)
  }

  /** The button state the GUI keeps: only hidden cards' buttons are on, and only while an
      operative is guessing. */
  predicate Consistent(v: GuiValue) {
    && v.enabled <= HiddenPositions(v.game.board.cards)
    && (v.enabled != {} ==> v.game.board.currentPlayer == OPERATIVE)
  }

  /** An enabled button always shows a hidden card, so a click reveals a card that was hidden. */
  lemma ClickableIsHidden(v: GuiValue, k: int)
    requires Consistent(v) && k in v.enabled
    ensures 0 <= k < |v.game.board.cards| && !IsVisible(v.game.board.cards[k])
  {
    assert k in HiddenPositions(v.game.board.cards);
  }

  lemma {:induction false} GuessKeepsConsistent(v: GuiValue, k: int, won: BoardValue -> bool)
    requires Consistent(v) && k in v.enabled
    ensures 0 <= k < |v.game.board.cards| && Consistent(GuiGuess(v, k, won))
  {
    ClickableIsHidden(v, k);
    var r := GuiGuess(v, k, won);
    var before, after := v.game.board.cards, r.game.board.cards;
    forall j | j in r.enabled ensures j in HiddenPositions(after) {
      assert j in v.enabled && j != k;
      assert j in HiddenPositions(before);
      assert after[j] == before[j];
    }
    if r.enabled != {} {
      var j :| j in r.enabled;
      assert j in v.enabled;
      assert r.game.board.currentPlayer == v.game.board.currentPlayer;
    }
  }

  lemma {:induction false} ActionKeepsConsistent(v: GuiValue, hint: Option<string>)
    requires Consistent(v)
    ensures Consistent(GuiAction(v, hint))
    ensures v.game.board.currentPlayer == SPYMASTER && HintVerdict(hint).Accepted? ==>
              GuiAction(v, hint).enabled == HiddenPositions(v.game.board.cards)
  {
    var r := GuiAction(v, hint);
    if v.game.board.currentPlayer == SPYMASTER && HintVerdict(hint).Accepted? {
      assert v.enabled == {};
      assert r.enabled == HiddenPositions(r.game.board.cards);
    }
  }

  /** The role cycle: a spymaster's accepted hint hands the same team to its operative, and the
      operative's end of turn hands the other team's spymaster the game. */
  lemma RoleCycle(v: GuiValue, hint: string, anything: Option<string>)
    requires v.game.board.currentPlayer == SPYMASTER && ParseHint(hint).Accepted?
    ensures var guessing := GuiAction(v, Some(hint));
      && guessing.game.board.currentTeam == v.game.board.currentTeam
      && guessing.game.board.currentPlayer == OPERATIVE
      && var next := GuiAction(guessing, anything);
         && next.game.board.currentTeam == OtherTeam(v.game.board.currentTeam)
         && next.game.board.currentPlayer == SPYMASTER
         && next.enabled == {}
  {
    var guessing := GuiAction(v, Some(hint));
    assert guessing.game.board.currentPlayer != SPYMASTER;
  }

  /** Where the controllers part: on an own-team guess that wins, the console stops with the
      spymaster's budget untouched while the GUI still spends a guess. */
  lemma WinningGuessDiffers(v: GuiValue, k: int)
    requires 0 <= k < |v.game.board.cards|
    requires v.game.board.cards[k].team == v.game.board.currentTeam
    requires v.game.board.currentTeam != ASSASSIN && v.game.board.currentTeam != NEUTRAL
    requires GameWon(ScoreCurrent(RevealAt(v.game, k)))
    ensures var team := v.game.board.currentTeam;
      && ConsoleGuess(v.game, k).over
      && SpymasterOf(ConsoleGuess(v.game, k).game, team) == CurrentSpymaster(v.game)
      && GuiGuess(v, k, BoardWon).ended
      && SpymasterOf(GuiGuess(v, k, BoardWon).game, team).guesses
         == CurrentSpymaster(v.game).guesses - 1
  {
  }

  /** The GUI controller object: the game's board and players, the card buttons that accept a
      click, and whether the end screen is up. */
  class GuiGame {
    var gameBoard: Board
    var redSpymaster: Spymaster
    var blueSpymaster: Spymaster
    var redOperative: Operative
    var blueOperative: Operative
    var enabled: set<int>
    var ended: bool

    function Game(): GameValue
      reads this, gameBoard, gameBoard.cards, redSpymaster, blueSpymaster, redOperative, blueOperative
    {
      GameValue(gameBoard.Value(), redSpymaster.Value(), blueSpymaster.Value(),
                redOperative.Value(), blueOperative.Value())
    }

    function Value(): GuiValue
      reads this, gameBoard, gameBoard.cards, redSpymaster, blueSpymaster, redOperative, blueOperative
    {
      GuiValue(Game(), enabled, ended)
    }

    /** Distinct card objects, one spymaster and one operative object per team, and the
        button state of Consistent. */
    predicate Valid()
      reads this, gameBoard, gameBoard.cards, redSpymaster, blueSpymaster, redOperative, blueOperative
    {
      && gameBoard.Distinct() && redSpymaster != blueSpymaster && redOperative != blueOperative
      && Consistent(Value())
    }

    /** initializeGame, then setupCardPanel's DEACTIVATE: a new game whose card buttons are off. */
    constructor (startingPlayer: string, lines: seq<string>)
      requires lines == [] || |lines| > SKIP * NUM_CARDS
      ensures Valid() && fresh(gameBoard)
      ensures gameBoard.dictionary != null
      ensures multiset(gameBoard.dictionary.fullDictionary) == multiset(lines)
      ensures FreshBoard(gameBoard.Value(), startingPlayer, gameBoard.dictionary.fullDictionary)
      ensures enabled == {} && !ended
      ensures Game().redSpymaster == SpymasterValue(RED, "", 0)
      ensures Game().blueSpymaster == SpymasterValue(BLUE, "", 0)
      ensures Game().redOperative == OperativeValue(RED, 0)
      ensures Game().blueOperative == OperativeValue(BLUE, 0)
    {
      var board, rs, bs, ro, bo := InitializeGame(startingPlayer, lines);
      gameBoard := board;
      redSpymaster, blueSpymaster := rs, bs;
      redOperative, blueOperative := ro, bo;
      enabled, ended := {}, false;
      new;
      assert Game() == GameValue(board.Value(), rs.Value(), bs.Value(), ro.Value(), bo.Value());
      assert Consistent(Value());
    }

    function SelectSpymaster(): (s: Spymaster)
      reads this, gameBoard, gameBoard.cards, redSpymaster, blueSpymaster, redOperative, blueOperative
      ensures s == redSpymaster || s == blueSpymaster
      ensures gameBoard.currentTeam == RED ==> s == redSpymaster
      ensures gameBoard.currentTeam != RED ==> s == blueSpymaster
      ensures s.Value() == CurrentSpymaster(Game())
    {
      if gameBoard.currentTeam == RED then redSpymaster else blueSpymaster
    }

    function SelectOperative(): (o: Operative)
      reads this, gameBoard, gameBoard.cards, redSpymaster, blueSpymaster, redOperative, blueOperative
      ensures o == redOperative || o == blueOperative
      ensures gameBoard.currentTeam == RED ==> o == redOperative
      ensures gameBoard.currentTeam != RED ==> o == blueOperative
      ensures o.Value() == CurrentOperative(Game())
    {
      if gameBoard.currentTeam == RED then redOperative else blueOperative
    }

    /** guessesRemaining: the current spymaster's count plus the bonus guess. */
    method GuessesRemaining() returns (n: int)
      ensures n == Rules.GuessesRemaining(Game())
    {
      var selected := SelectSpymaster();
      n := selected.guesses + 1;
    }

    /** revealKey(action) over the card panels. */
    method RevealKey(action: KeyAction)
      modifies this
      ensures enabled == KeyButtons(old(enabled), gameBoard.Snapshot(), action)
      ensures gameBoard == old(gameBoard) && ended == old(ended)
      ensures redSpymaster == old(redSpymaster) && blueSpymaster == old(blueSpymaster)
      ensures redOperative == old(redOperative) && blueOperative == old(blueOperative)
    {
      match action {
        case Reveal => enabled := {};
        case Deactivate => enabled := {};
        case Conceal =>
          var cards := gameBoard.cards;
          var hidden: set<int> := {};
          var i := 0;
          while i < |cards|
            invariant 0 <= i <= |cards|
            invariant forall j :: j in hidden <==> 0 <= j < i && !IsVisible(gameBoard.Snapshot()[j])
          {
            if !cards[i].IsVisibleTeam() {
              hidden := hidden + {i};
            }
            i := i + 1;
          }
          enabled := enabled + hidden;
      }
    }

    /** The reveal-key button, shown only to a spymaster: every card button goes off. */
    method RevealKeyButton()
      requires Valid() && gameBoard.currentPlayer == SPYMASTER
      modifies this
      ensures Valid() && Value() == old(Value()).(enabled := {})
    {
      RevealKey(Reveal);
    }

    /** updatePlayer. */
    method UpdatePlayer()
      modifies gameBoard
      ensures Game() == SwitchRole(old(Game()))
      ensures gameBoard.cards == old(gameBoard.cards)
    {
      if gameBoard.currentPlayer == SPYMASTER {
        gameBoard.SetCurrentPlayer(OPERATIVE);
      } else {
        gameBoard.SetCurrentPlayer(SPYMASTER);
      }
    }

    /** nextTeam. */
    method NextTeam()
      modifies this, gameBoard
      ensures Value() == PassTurn(old(Value()))
      ensures gameBoard == old(gameBoard) && gameBoard.cards == old(gameBoard.cards)
      ensures redSpymaster == old(redSpymaster) && blueSpymaster == old(blueSpymaster)
      ensures redOperative == old(redOperative) && blueOperative == old(blueOperative)
    {
      RevealKey(Deactivate);
      if gameBoard.currentTeam == RED {
        gameBoard.SetCurrentTeam(BLUE);
      } else {
        gameBoard.SetCurrentTeam(RED);
      }
      UpdatePlayer();
    }

    /** The action button, with the dialog's answer as `hint`. */
    method ActionButton(hint: Option<string>)
      requires Valid()
      modifies this, gameBoard, redSpymaster, blueSpymaster
      ensures Valid() && Value() == GuiAction(old(Value()), hint)
      ensures gameBoard == old(gameBoard) && gameBoard.cards == old(gameBoard.cards)
      ensures redSpymaster == old(redSpymaster) && blueSpymaster == old(blueSpymaster)
      ensures redOperative == old(redOperative) && blueOperative == old(blueOperative)
    {
      ActionKeepsConsistent(Value(), hint);
      if gameBoard.currentPlayer == SPYMASTER {
        if hint.None? {
          return;
        }
        HintEntered(hint.value);
      } else {
        NextTeam();
      }
    }

    /** The action button while a spymaster plays, once the dialog returned `hint`. */
    method HintEntered(hint: string)
      requires gameBoard.currentPlayer == SPYMASTER && redSpymaster != blueSpymaster
      modifies this, gameBoard, redSpymaster, blueSpymaster
      ensures Value() == GuiAction(old(Value()), Some(hint))
      ensures gameBoard == old(gameBoard) && gameBoard.cards == old(gameBoard.cards)
      ensures redSpymaster == old(redSpymaster) && blueSpymaster == old(blueSpymaster)
      ensures redOperative == old(redOperative) && blueOperative == old(blueOperative)
    {
      ghost var v := Value();
      var verdict := StoreHint(hint);
      if verdict.Accepted? {
        ghost var given := Game();
        UpdatePlayer();
        assert Game() == SwitchRole(given);
        RevealKey(Conceal);
        assert Value() == GuiValue(SwitchRole(given), KeyButtons(v.enabled, given.board.cards, Conceal), v.ended);
      }
    }

    /** validHint on the current team's spymaster: an accepted hint is stored there. */
    method StoreHint(hint: string) returns (verdict: Verdict)
      requires redSpymaster != blueSpymaster
      modifies redSpymaster, blueSpymaster
      ensures verdict == ParseHint(hint)
      ensures verdict.Accepted? ==> Game() == GiveHint(old(Game()), verdict.clue, verdict.guesses)
      ensures !verdict.Accepted? ==> Game() == old(Game())
    {
      var selected := SelectSpymaster();
      verdict := ValidHint(hint, selected);
    }

    /** A click on the enabled card button at position k; the board's win check is `won`. */
    method CardClicked(k: int, won: BoardValue -> bool)
      requires Valid() && !ended && k in enabled
      modifies this, gameBoard, gameBoard.cards, redSpymaster, blueSpymaster, redOperative, blueOperative
      ensures 0 <= k < |old(gameBoard.cards)|
      ensures Valid() && Value() == GuiGuess(old(Value()), k, won)
      ensures gameBoard == old(gameBoard) && gameBoard.cards == old(gameBoard.cards)
      ensures redSpymaster == old(redSpymaster) && blueSpymaster == old(blueSpymaster)
      ensures redOperative == old(redOperative) && blueOperative == old(blueOperative)
    {
      ghost var v := Value();
      GuessKeepsConsistent(v, k, won);
      enabled := enabled - {k};
      var card := gameBoard.cards[k];
      card.MakeVisibleTeam();
      assert gameBoard.Snapshot() == v.game.board.cards[k := Revealed(v.game.board.cards[k])];
      assert Value() == GuiValue(RevealAt(v.game, k), v.enabled - {k}, v.ended);
      Resolve(card.team, won);
    }

    /** guess after the reveal: dispatch on the team of the revealed card. */
    method Resolve(selectedTeam: string, won: BoardValue -> bool)
      requires gameBoard.Distinct() && redSpymaster != blueSpymaster && redOperative != blueOperative
      modifies this, gameBoard, redSpymaster, blueSpymaster, redOperative, blueOperative
      ensures Value() == ResolveClick(old(Value()), selectedTeam, won)
      ensures gameBoard == old(gameBoard) && gameBoard.cards == old(gameBoard.cards)
      ensures redSpymaster == old(redSpymaster) && blueSpymaster == old(blueSpymaster)
      ensures redOperative == old(redOperative) && blueOperative == old(blueOperative)
    {
      var currentTeam := gameBoard.currentTeam;
      if selectedTeam == ASSASSIN {
        NextTeam();
        ended := true;
      } else if selectedTeam == NEUTRAL {
        NextTeam();
      } else if selectedTeam == currentTeam {
        GuessCorrect(won);
      } else {
        GuessWrong(won);
      }
    }

    /** guessCorrect: score, bring up the end screen on a win, and in any case spend a guess and
        pass the turn once none remain. */
    method GuessCorrect(won: BoardValue -> bool)
      requires gameBoard.Distinct() && redSpymaster != blueSpymaster && redOperative != blueOperative
      modifies this, gameBoard, redSpymaster, blueSpymaster, redOperative, blueOperative
      ensures var scored := ScoreCurrent(old(Game()));
        var spent := DecrementCurrent(scored);
        var v := GuiValue(spent, old(enabled), old(ended) || won(scored.board));
        Value() == if Rules.GuessesRemaining(spent) > 0 then v else PassTurn(v)
      ensures gameBoard == old(gameBoard) && gameBoard.cards == old(gameBoard.cards)
      ensures redSpymaster == old(redSpymaster) && blueSpymaster == old(blueSpymaster)
      ensures redOperative == old(redOperative) && blueOperative == old(blueOperative)
    {
      ghost var scored := ScoreCurrent(Game());
      Score();
      if won(gameBoard.Value()) {
        ended := true;
      }
      SpendGuess();
      assert Game() == DecrementCurrent(scored);
      var remaining := GuessesRemaining();
      if remaining <= 0 {
        NextTeam();
      }
    }

    /** The operative of the team playing scores one point. */
    method Score()
      requires redOperative != blueOperative
      modifies redOperative, blueOperative
      ensures Game() == ScoreCurrent(old(Game()))
    {
      var operative := SelectOperative();
      operative.IncrementScore();
    }

    /** The spymaster of the team playing spends one guess. */
    method SpendGuess()
      requires redSpymaster != blueSpymaster
      modifies redSpymaster, blueSpymaster
      ensures Game() == DecrementCurrent(old(Game()))
    {
      var spymaster := SelectSpymaster();
      spymaster.DecrementGuesses();
    }

    /** guessWrong: pass the turn, score for the team now playing, end screen on a win. */
    method GuessWrong(won: BoardValue -> bool)
      requires redOperative != blueOperative
      modifies this, gameBoard, redOperative, blueOperative
      ensures var switched := PassTurn(old(Value()));
        var scored := ScoreCurrent(switched.game);
        Value() == GuiValue(scored, switched.enabled, switched.ended || won(scored.board))
      ensures gameBoard == old(gameBoard) && gameBoard.cards == old(gameBoard.cards)
      ensures redSpymaster == old(redSpymaster) && blueSpymaster == old(blueSpymaster)
      ensures redOperative == old(redOperative) && blueOperative == old(blueOperative)
    {
      NextTeam();
      var operative := SelectOperative();
      operative.IncrementScore();
      if won(gameBoard.Value()) {
        ended := true;
      }
    }
  }
}
