# Codenames: a Dafny model of the game rules

This project models the rules core of a Java Codenames implementation for two teams, RED and BLUE.

Each team has a spymaster and an operative. The spymaster gives a one-word clue with a number, written `clue / n`. The operative then reveals cards on a 25-card board. Each card belongs to RED, BLUE, NEUTRAL (a bystander) or ASSASSIN.

The model covers:

- **The data model.** A `Card` (word, team, visible team, 1-based index) is hidden while its visible team is `"?"`. A `Board` holds the cards, the starting team, the team and role to play, and the 9/8 agent split. A `Dictionary` is a word list read through a cursor that jumps 5 entries per draw and stops reading at entry 400. A `Spymaster` holds the clue and the guess budget, and an `Operative` holds the score.
  - These are classes whose methods update fields in place.
  - Each has a value snapshot (`Value()`) that the contracts and lemmas talk about.
- **Setting up a game.** The board draws 9 + 8 agents, 7 bystanders and the assassin from the shuffled dictionary, then shuffles the cards and numbers them 1..25.
- **The hint parser.** Both front ends share it: text before the first `/` (one trailing space dropped) must be a single word, and the first run of decimal digits after it is the guess count.
- **The console turn engine.** It resolves a guess by the revealed card's team: the assassin, a bystander, an own agent or an opponent's agent. It also checks for a win, passes the turn, and applies the "+1 bonus guess" budget.
- **The Swing turn engine.** It resolves guesses the same way, and adds:
  - the SPYMASTER/OPERATIVE role toggle;
  - the action button (give a hint, or end the turn);
  - the rule that only hidden cards' buttons accept clicks.
- **Persistence.** This covers each object's JSON key scheme and the key-union merge of the five objects into the save file. It also covers the field reads that rebuild them, so that save-then-load is proved to restore the game.

The JSON tree is a Dafny datatype. A JSON object is a `map<string, Value>`.

The word list and the shuffles are inputs. A shuffle is "some permutation", chosen with `:|`. The GUI's board-level win check is a parameter (`won`), because `Board.checkIfGameWon` is not part of this model.

The code and its comments disagree in a few places. The model follows the code:

- `"ocean / -1"` is accepted with one guess. The digit search never matches `-`, so the negative-count check can never fire (`Hints.NegativeCountReadAsPositive`).
- A count of 0 is accepted (`Hints.ZeroAccepted`).
- A hint that begins with `/` makes `removeTrailingSpace` throw `StringIndexOutOfBoundsException`. It is not rejected.
- A count too large for an `int` makes `parseInt` throw `NumberFormatException`. Both outcomes are `Throws` verdicts.
- `getNextWord` advances the cursor before it reads, so entry 0 is never dealt.
- The read bound is the constant 400, not the list length.
- After an own-team guess that wins, the console stops with the guess budget untouched. The GUI still spends a guess and may pass the turn (`Gui.WinningGuessDiffers`).
- `decrementGuesses` is documented to require a positive budget but is called at 0, which leaves -1. The model lets the budget go negative.

## Model

| member | source | states |
|---|---|---|
| `Names.OtherTeam` | src/main/ui/CodenamesConsole.java:579-591 | nextTeam: RED hands over to BLUE and every other team name to RED; the result is always RED or BLUE |
| `Names.OtherPlayer` | src/main/ui/CodenamesGUI.java:361-369 | updatePlayer: SPYMASTER becomes OPERATIVE and any other role SPYMASTER |
| `Names.ToUpper` | src/main/model/Board.java:38-46 | the upper-casing of the starting team keeps the length, maps every ASCII lower-case letter to its upper-case letter and keeps every other character |
| `Names.OtherTeamCycle` | src/main/ui/CodenamesConsole.java:579-591 | for RED or BLUE, nextTeam changes the team and applying it twice gives it back |
| `Names.OtherPlayerCycle` | src/main/ui/CodenamesGUI.java:361-369 | updatePlayer twice always lands on a real role and restores SPYMASTER or OPERATIVE |
| `Json.GetString` | src/main/persistence/JsonReader.java:61-63 | getString succeeds exactly on a present key holding a string, and returns that string |
| `Json.GetInt` | src/main/persistence/JsonReader.java:64-65 | getInt succeeds exactly on a present key holding a number, and returns that number |
| `Json.GetArray` | src/main/persistence/JsonReader.java:78 | getJSONArray succeeds exactly on a present key holding an array |
| `Cards.Revealed` | src/main/model/Card.java:76-78 | makeVisibleTeam shows the card's team, keeps word, team and index, and makes the card visible unless its team is "?" |
| `Cards.CardJson` | src/main/model/Card.java:95-102 | a card's JSON has exactly the keys word, team, visibleTeam and index |
| `Cards.RevealIdempotent` | src/main/model/Card.java:76-78 | a second makeVisibleTeam changes nothing |
| `Cards.Card.constructor` | src/main/model/Card.java:26-31 | a new card has the given word and team, is hidden and has index 0 |
| `Cards.Card.Load` | src/main/model/Card.java:35-40 | the load constructor stores all four fields verbatim |
| `Cards.Card.SetIndex` | src/main/model/Card.java:70-72 | setIndex changes the index and nothing else |
| `Cards.Card.MakeVisibleTeam` | src/main/model/Card.java:76-78 | the card's new value is the revealed old value |
| `Dictionaries.Draws` | src/main/model/Dictionary.java:77-91 | n successive getNextWord calls yield exactly n words |
| `Dictionaries.DrawsStep` | src/main/model/Dictionary.java:77-91 | one more call appends the word read at the advanced cursor |
| `Dictionaries.DrawsSplit` | src/main/model/Dictionary.java:77-91 | drawing a + b words is drawing a, then b from where the cursor stopped |
| `Dictionaries.CanDrawFromStart` | src/main/model/Dictionary.java:82-86 | a list longer than 5n entries, or an empty one, serves n draws from cursor 0 without an index error |
| `Dictionaries.DrawsFromStart` | src/main/model/Dictionary.java:82-86 | from cursor 0 the k-th draw is entry 5k while 5k < 400 and "" afterwards, so entry 0 is never dealt |
| `Dictionaries.DrawsDistinct` | src/main/model/Dictionary.java:82 | in-bounds draws read pairwise distinct positions, so a list without repeats never deals a word twice |
| `Dictionaries.Dictionary.constructor` | src/main/model/Dictionary.java:19-22 | a new dictionary is empty with cursor 0 |
| `Dictionaries.Dictionary.InitializeDictionary` | src/main/model/Dictionary.java:26-62 | loading appends the given lines and leaves the cursor alone |
| `Dictionaries.Dictionary.ShuffleDictionary` | src/main/model/Dictionary.java:65-67 | shuffling keeps the multiset of words and the cursor |
| `Dictionaries.Dictionary.GetNextWord` | src/main/model/Dictionary.java:77-91 | on an empty list: "" and the cursor stays; otherwise the cursor grows by 5 and the word at the new cursor is returned, or "" once it reaches 400 |
| `Dictionaries.Dictionary.SetCounter` | src/main/model/Dictionary.java:101-103 | setCounter sets the cursor and keeps the words |
| `Boards.Count` | src/main/model/Board.java:118-135 | a count of cards never exceeds the number of cards |
| `Boards.HiddenCards` | src/main/model/Board.java:84-101 | addCards(type) makes, for each drawn word, a hidden card of that type at index 0 |
| `Boards.Indexed` | src/main/model/Board.java:144-150 | numbering gives the card at position i the index i + 1 and changes nothing else |
| `Boards.CardsJson` | src/main/model/Board.java:213-221 | cardsToJson writes one object per card |
| `Boards.BoardJson` | src/main/model/Board.java:200-210 | a board's JSON has exactly the six board keys |
| `Boards.CountAppend` | src/main/model/Board.java:118-135 | counts add up over concatenation |
| `Boards.CountSingle` | src/main/model/Board.java:118-135 | a single card counts one exactly when it matches |
| `Boards.CountPermutation` | src/main/model/Board.java:113-135 | a shuffle keeps every count |
| `Boards.CountSameColours` | src/main/model/Board.java:118-150 | counts look only at team and visible team, so renumbering keeps them |
| `Boards.RemainingBounds` | src/main/model/Board.java:118-135 | getRemainingCards lies between 0 and the number of that team's cards, and is 0 for an absent type |
| `Boards.RemainingHiddenCards` | src/main/model/Board.java:79-103 | addCards(type) adds one remaining card of its own type per word and none of any other type |
| `Boards.RemainingAppend` | src/main/model/Board.java:118-135 | remaining counts add up over concatenation |
| `Boards.RevealLowersRemaining` | src/main/model/Board.java:118-135 | revealing a hidden card of team T lowers T's remaining count by exactly one and leaves every other type's count alone |
| `Boards.NewGameCounts` | src/main/model/Board.java:79-103 | after addCards for RED, BLUE, NEUTRAL and ASSASSIN, each type's remaining count is the number of words drawn for it |
| `Boards.Values` | src/main/model/Board.java:137-140 | the snapshot of the card list has one value per card, in order |
| `Boards.ValuesPermutation` | src/main/model/Board.java:113-115 | permuting the card objects permutes their values |
| `Boards.Board.constructor` | src/main/model/Board.java:38-56 | a new board has no cards, the given team to play with its spymaster, the upper-cased starting team, and 9/8 agents exactly when the raw argument is "RED" (8/9 otherwise) |
| `Boards.Board.Load` | src/main/model/Board.java:60-67 | the load constructor stores the five fields verbatim, with no cards |
| `Boards.Board.InitializeGameDictionary` | src/main/model/Board.java:71-74 | the dictionary then holds some permutation of the loaded lines, with the cursor unchanged |
| `Boards.Board.AddCards` | src/main/model/Board.java:79-103 | appends one new hidden card of the type per word drawn (1, 7, numRedCards or numBlueCards of them), earlier cards untouched, the cursor advanced by 5 per card |
| `Boards.Board.DrawCard` | src/main/model/Board.java:84-101 | one pass of the addCards loop appends one new hidden card holding the next word |
| `Boards.Board.AddCard` | src/main/model/Board.java:107-109 | addCards(Card) grows the list by exactly that card, at the end |
| `Boards.Board.Shuffle` | src/main/model/Board.java:113-115 | shuffle leaves a permutation of the same cards |
| `Boards.Board.GetRemainingCards` | src/main/model/Board.java:118-135 | the two-counter loop returns the team's cards minus the team's revealed cards |
| `Boards.Board.SetBoardIndices` | src/main/model/Board.java:144-150 | the cards keep their order and are numbered 1, 2, ... |
| `Boards.Board.SetCurrentTeam` | src/main/model/Board.java:165-167 | only the current team changes |
| `Boards.Board.SetCurrentPlayer` | src/main/model/Board.java:177-179 | only the current role changes |
| `Roles.SpymasterJson` | src/main/model/Spymaster.java:72-84 | the object has exactly its team's three keys (red-prefixed when the team is exactly RED, blue-prefixed otherwise), and reading them back gives the team, the hint and the guesses |
| `Roles.OperativeJson` | src/main/model/Operative.java:51-61 | the object has exactly its team's two keys, and reading them back gives the team and the score |
| `Roles.RoleKeysDisjoint` | src/main/persistence/JsonWriter.java:89-98 | a RED and a non-RED role, spymaster or operative, never write the same key |
| `Roles.Spymaster.constructor` | src/main/model/Spymaster.java:20-24 | a new spymaster has an empty hint and 0 guesses |
| `Roles.Spymaster.Load` | src/main/model/Spymaster.java:28-32 | the load constructor stores team, hint and guesses verbatim |
| `Roles.Spymaster.SetHint` | src/main/model/Spymaster.java:41-43 | only the hint changes |
| `Roles.Spymaster.SetGuesses` | src/main/model/Spymaster.java:48-50 | only the guess count changes |
| `Roles.Spymaster.DecrementGuesses` | src/main/model/Spymaster.java:54-56 | guesses fall by exactly one, also below zero |
| `Roles.Operative.constructor` | src/main/model/Operative.java:20-23 | a new operative has score 0 |
| `Roles.Operative.Load` | src/main/model/Operative.java:28-31 | the load constructor stores team and score verbatim |
| `Roles.Operative.IncrementScore` | src/main/model/Operative.java:35-37 | the score rises by exactly one and nothing else changes |
| `Hints.IndexOf` | src/main/ui/CodenamesConsole.java:425 | indexOf returns -1 exactly when the character is absent, and otherwise its first position |
| `Hints.RemoveTrailingSpace` | src/main/ui/CodenamesConsole.java:745-753 | drops one final space and nothing else |
| `Hints.FirstDigit` | src/main/ui/CodenamesConsole.java:476-482 | the digit search starts at the first digit, or fails exactly when there is none |
| `Hints.LeadingDigits` | src/main/ui/CodenamesConsole.java:476-482 | a match extends over the longest run of digits |
| `Hints.FirstDigitRun` | src/main/ui/CodenamesConsole.java:435-438 | find() fails exactly on digit-free text and otherwise yields a non-empty digit run |
| `Hints.DecimalString` | src/main/ui/CodenamesConsole.java:440 | every count has a decimal spelling made of digits |
| `Hints.ParseHint` | src/main/ui/CodenamesConsole.java:422-452 | validHint: no '/' gives false; a leading '/' throws StringIndexOutOfBounds; otherwise the hint is refused exactly when the clue before the first '/' (one trailing space dropped) contains a space or the text after it has no digit; an accepted clue has no space and no '/' and a count in 0..2^31-1 |
| `Hints.ParseParts` | src/main/ui/CodenamesConsole.java:429-451 | the hint is refused exactly when the clue contains a space or the rest has no digit; only parseInt can throw; an accepted verdict stores the clue and a count that fits an int |
| `Hints.CountChar` | src/main/ui/CodenamesConsole.java:462-473 | the counting loop returns the number of occurrences of the character |
| `Hints.ValidHint` | src/main/ui/CodenamesConsole.java:456-459 | validHint with setValidHint gives ParseHint's verdict, and the spymaster holds the clue and the count exactly when the hint is accepted |
| `Hints.DecimalRoundTrip` | src/main/ui/CodenamesConsole.java:440 | parseInt reads back the decimal spelling of a count |
| `Hints.SplitAtDelimiter` | src/main/ui/CodenamesConsole.java:425-431 | the hint splits at its first '/' |
| `Hints.DigitRunOf` | src/main/ui/CodenamesConsole.java:476-482 | behind digit-free text the search finds exactly the following digit run |
| `Hints.HintAccepted` | src/main/ui/CodenamesConsole.java:422-452 | a one-word clue, an optional space, '/', digit-free text and a decimal count is accepted with exactly that clue and count, or throws NumberFormat when the count exceeds an int |
| `Hints.HintMultiWord` | src/main/ui/CodenamesConsole.java:429-432 | a clue that still holds a space after one trailing space is dropped is refused |
| `Hints.DigitRunShape` | src/main/ui/CodenamesConsole.java:476-482 | the text after '/' splits into digit-free text, the digit run found, and a rest that does not continue it |
| `Hints.HintShape` | src/main/ui/CodenamesConsole.java:422-452 | every accepted hint has that shape, with the stored count equal to the value of the digit run |
| `Hints.SplitAccepted` | src/main/ui/CodenamesConsole.java:425-431 | an accepted hint has a non-empty text before its first '/' |
| `Hints.NegativeCountReadAsPositive` | src/main/ui/CodenamesConsole.java:435-451 | "ocean / -1" is accepted with count 1 |
| `Hints.MultiWordRejected` | src/main/ui/CodenamesConsole.java:429-432 | "two words/3" is refused |
| `Hints.DoubleSpaceRejected` | src/main/ui/CodenamesConsole.java:429-432 | "ocean  / 3" is refused: only one space before the '/' is trimmed, so the clue keeps a space |
| `Hints.ZeroAccepted` | src/main/ui/CodenamesConsole.java:435-451 | "ocean/0" is accepted with count 0 |
| `Rules.ScoringTeam` | src/main/ui/CodenamesConsole.java:726-734 | the win check counts RED's cards when RED plays and BLUE's otherwise |
| `Rules.SwitchTeam` | src/main/ui/CodenamesConsole.java:579-591 | nextTeam changes the current team to the other team and nothing else |
| `Rules.ScoreCurrent` | src/main/ui/CodenamesConsole.java:671-672 | the current team's operative scores one and nothing else changes |
| `Rules.DecrementCurrent` | src/main/ui/CodenamesConsole.java:681-682 | the current team's spymaster loses one guess and nothing else changes |
| `Rules.GiveHint` | src/main/ui/CodenamesConsole.java:456-459 | only the current team's spymaster changes, to the given clue and count |
| `Rules.RevealAtRemaining` | src/main/ui/CodenamesConsole.java:601 | revealing a hidden card lowers its own type's remaining count by one and no other |
| `Setup.HiddenCardsHidden` | src/main/model/Board.java:84-101 | the cards addCards makes are all hidden and all at index 0 |
| `Setup.DealtCounts` | src/main/ui/CodenamesConsole.java:141-150 | the four addCards calls deal numRed + numBlue + 8 hidden, unnumbered cards with numRed, numBlue, 7 and 1 remaining per type |
| `Setup.DealCards` | src/main/ui/CodenamesConsole.java:141-150 | the four addCards calls on an empty board append exactly those cards, each a new object |
| `Setup.DealTwo` | src/main/ui/CodenamesConsole.java:144-147 | two successive addCards calls append the two types' cards drawn in order, advance the cursor past both draws, and make every card a new object |
| `Setup.InitializeGameBoard` | src/main/ui/CodenamesConsole.java:141-150 | a new board whose dictionary holds a permutation of the lines; the upper-cased starting team, the starter's spymaster to play, 9/8 agents on a "RED" start and 8/9 otherwise; 25 hidden, distinct cards numbered 1..25 which, numbers aside, are a permutation of the cards the four addCards calls deal from that dictionary |
| `Setup.ShuffleAndNumber` | src/main/ui/CodenamesConsole.java:148-149 | shuffling then numbering the dealt cards leaves 25 distinct hidden cards numbered 1..25 with the 9/8/7/1 (or 8/9/7/1) split that, numbers aside, are a permutation of the dealt cards, and the other board fields unchanged |
| `Setup.InitializeGame` | src/main/ui/CodenamesConsole.java:127-137 | a new board as in InitializeGameBoard (header, dictionary and dealt cards), then a new, distinct spymaster per team with an empty hint and 0 guesses and a new, distinct operative per team with score 0 |
| `Setup.ShuffledAndNumbered` | src/main/ui/CodenamesConsole.java:141-150 | shuffling then numbering the dealt cards yields a new game's cards, which are the dealt cards renumbered |
| `Setup.DealtWords` | src/main/model/Board.java:84-101 | the words on the dealt cards are the 25 words drawn from the dictionary, in draw order |
| `Setup.GameWordsDistinct` | src/main/ui/CodenamesConsole.java:141-150 | a word list with no repeats and more than 125 entries gives a new game whose 25 card words are pairwise distinct |
| `Setup.ShuffleKeepsCounts` | src/main/model/Board.java:113-115 | a shuffle keeps the length, every remaining count and hiddenness |
| `Setup.IndexingKeepsCounts` | src/main/model/Board.java:144-150 | numbering keeps every remaining count and hiddenness |
| `Console.ConsoleGuess` | src/main/ui/CodenamesConsole.java:595-709 | a guess reveals the card; the assassin ends the game and passes the turn; a bystander passes it; an own agent scores one, ends the game when none of the team's agents remain, and otherwise keeps the turn exactly while a guess remains; an opponent's agent passes the turn and scores for the opponent, which wins when none of its agents remain; scores never fall |
| `Console.GuessIndex` | src/main/ui/CodenamesConsole.java:629-635 | a typed position is accepted exactly when it is in 1..25 and its card is hidden |
| `Console.GuessRevealsCard` | src/main/ui/CodenamesConsole.java:595-614 | every guess lowers the chosen card's type's remaining count by one and no other |
| `Console.TurnBound` | src/main/ui/CodenamesConsole.java:665-690 | after a hint of n >= 0, one turn holds at most n + 1 guesses |
| `Console.ConsoleGame.constructor` | src/main/ui/CodenamesConsole.java:127-137 | a new game: the running flag set; a new board as in InitializeGameBoard (upper-cased starting team, the starter to play, 9/8 or 8/9 agents, the dealt words from a permutation of the lines); empty spymasters and zero-score operatives per team |
| `Console.ConsoleGame.SelectSpymaster` | src/main/ui/CodenamesConsole.java:410-416 | the red spymaster exactly when the board's current team is "RED", the blue one otherwise; its value is the current team's spymaster that every game rule reads (`CurrentSpymaster`) |
| `Console.ConsoleGame.SelectOperative` | src/main/ui/CodenamesConsole.java:717-723 | the red operative exactly when the board's current team is "RED", the blue one otherwise; its value is the current team's operative that every game rule reads (`CurrentOperative`) |
| `Console.ConsoleGame.NextTeam` | src/main/ui/CodenamesConsole.java:579-591 | the game becomes SwitchTeam of the old game |
| `Console.ConsoleGame.CheckIfGameWon` | src/main/ui/CodenamesConsole.java:726-734 | true exactly when the team to play has no hidden agent left |
| `Console.ConsoleGame.ProvideHint` | src/main/ui/CodenamesConsole.java:387-416 | the verdict is ParseHint's, and only an accepted hint changes the game, by GiveHint |
| `Console.ConsoleGame.Guess` | src/main/ui/CodenamesConsole.java:595-614 | the game afterwards is ConsoleGuess's, and the running flag is cleared exactly when the game ended |
| `Console.ConsoleGame.GuessAssassin` | src/main/ui/CodenamesConsole.java:645-652 | the turn passes to the winner and the game stops |
| `Console.ConsoleGame.GuessCorrect` | src/main/ui/CodenamesConsole.java:665-690 | score; on a win stop without spending a guess; otherwise spend one and keep the turn exactly while guesses + 1 > 0 |
| `Console.ConsoleGame.Score` | src/main/ui/CodenamesConsole.java:672-673 | the current team's operative gains one point and nothing else changes |
| `Console.ConsoleGame.SpendGuess` | src/main/ui/CodenamesConsole.java:682-683 | the current team's spymaster loses one guess, nothing else changes, and the new count is returned |
| `Console.ConsoleGame.GuessWrong` | src/main/ui/CodenamesConsole.java:694-709 | the turn passes, the opponent scores, and the game stops exactly when the opponent has won |
| `Gui.HiddenPositions` | src/main/ui/CardPanel.java:74-77 | the positions whose card is still hidden |
| `Gui.SwitchRole` | src/main/ui/CodenamesGUI.java:361-369 | updatePlayer toggles the role and changes nothing else |
| `Gui.PassTurn` | src/main/ui/CodenamesGUI.java:337-357 | nextTeam disables every card button, hands over the turn and toggles the role, leaving cards and players alone |
| `Gui.GuiGuess` | src/main/ui/CardPanel.java:131-235 | a click reveals the card and disables its button; the assassin passes the turn and ends the game; a bystander passes the turn; an own agent scores and always spends a guess, keeping the turn exactly while one remains; an opponent's agent passes the turn and scores for the opponent |
| `Gui.HintVerdict` | src/main/ui/ActionPanel.java:99-102 | a cancelled dialog (null text) fails with a null dereference in indexOf (NullDereference); typed text gets ParseHint's verdict |
| `Gui.GuiAction` | src/main/ui/ActionPanel.java:90-117 | a spymaster's accepted hint goes to the current spymaster, the role becomes OPERATIVE and the hidden cards' buttons come on; any other verdict changes nothing; an operative ends the turn |
| `Gui.ClickableIsHidden` | src/main/ui/CardPanel.java:74-77 | under the button rule an enabled button shows a hidden card |
| `Gui.GuessKeepsConsistent` | src/main/ui/CardPanel.java:115-126 | a click keeps the rule that only hidden cards' buttons are on, and only for an operative |
| `Gui.ActionKeepsConsistent` | src/main/ui/ActionPanel.java:90-117 | the action button keeps that rule, and an accepted hint turns on exactly the hidden cards' buttons |
| `Gui.RoleCycle` | src/main/ui/ActionPanel.java:102-115 | (team, SPYMASTER) with an accepted hint gives (team, OPERATIVE), and ending the turn gives (other team, SPYMASTER) with every button off |
| `Gui.WinningGuessDiffers` | src/main/ui/CardPanel.java:188-217 | on a winning own-team guess the console stops with the budget untouched while the GUI ends the game and still spends a guess |
| `Gui.GuiGame.constructor` | src/main/ui/CodenamesGUI.java:310-332 | a new game as in the console (the same board header, dictionary and dealt words), with every card button off and the end screen down |
| `Gui.GuiGame.SelectSpymaster` | src/main/ui/CodenamesGUI.java:381-387 | the red spymaster exactly when the board's current team is "RED", the blue one otherwise; its value is the current team's spymaster that every game rule reads (`CurrentSpymaster`) |
| `Gui.GuiGame.SelectOperative` | src/main/ui/CodenamesGUI.java:372-378 | the red operative exactly when the board's current team is "RED", the blue one otherwise; its value is the current team's operative that every game rule reads (`CurrentOperative`) |
| `Gui.GuiGame.GuessesRemaining` | src/main/ui/CodenamesGUI.java:408-412 | the current spymaster's guesses plus one |
| `Gui.GuiGame.RevealKey` | src/main/ui/CardPanel.java:42-89 | REVEAL and DEACTIVATE turn every card button off; CONCEAL turns on the hidden cards' buttons and leaves the others as they were |
| `Gui.GuiGame.RevealKeyButton` | src/main/ui/ActionPanel.java:79-81 | the spymaster's key view turns every card button off and keeps the button rule |
| `Gui.GuiGame.UpdatePlayer` | src/main/ui/CodenamesGUI.java:361-369 | the game becomes SwitchRole of the old game |
| `Gui.GuiGame.NextTeam` | src/main/ui/CodenamesGUI.java:337-357 | the state becomes PassTurn of the old state |
| `Gui.GuiGame.ActionButton` | src/main/ui/ActionPanel.java:90-117 | the state becomes GuiAction of the old state, and the button rule holds |
| `Gui.GuiGame.HintEntered` | src/main/ui/ActionPanel.java:99-111 | with a spymaster to play and the dialog's text, the state becomes GuiAction of the old state: an accepted hint is stored, the role toggles and the hidden cards' buttons turn on; a refused one changes nothing |
| `Gui.GuiGame.StoreHint` | src/main/ui/ActionPanel.java:102 | the verdict is ParseHint of the text; an accepted hint is stored on the current team's spymaster alone, a refused one changes nothing |
| `Gui.GuiGame.CardClicked` | src/main/ui/CardPanel.java:115-158 | a click on an enabled button leads to GuiGuess's state, and the button rule holds |
| `Gui.GuiGame.Resolve` | src/main/ui/CardPanel.java:148-156 | after the reveal, the dispatch on the card's team (assassin, bystander, own team, other team) leads to ResolveClick of the state |
| `Gui.GuiGame.GuessCorrect` | src/main/ui/CardPanel.java:188-217 | score, end the game on a win, and in any case spend a guess and pass the turn once none remain |
| `Gui.GuiGame.Score` | src/main/ui/CardPanel.java:194-195 | the current team's operative gains one point and nothing else in the game changes |
| `Gui.GuiGame.SpendGuess` | src/main/ui/CardPanel.java:204-205 | the current team's spymaster loses one guess and nothing else in the game changes |
| `Gui.GuiGame.GuessWrong` | src/main/ui/CardPanel.java:222-235 | pass the turn, score for the team now playing, end the game on its win |
| `Writer.WriteBoard` | src/main/persistence/JsonWriter.java:32-35 | the board's own JSON, unchanged |
| `Writer.WriteSpymaster` | src/main/persistence/JsonWriter.java:38-41 | the spymaster's own JSON, unchanged |
| `Writer.WriteOperative` | src/main/persistence/JsonWriter.java:44-47 | the operative's own JSON, unchanged |
| `Writer.MergeJson` | src/main/persistence/JsonWriter.java:69-86 | the result's keys are the union of both inputs' keys; the second input's value wins on a shared key, and the first input's value stands elsewhere |
| `Writer.GetMergedObject` | src/main/persistence/JsonWriter.java:89-98 | the five objects merged in the order board, red spymaster, blue spymaster, red operative, blue operative |
| `Writer.BoardKeysSize` | src/main/model/Board.java:200-210 | a board writes six distinct keys |
| `Writer.BoardKeysApart` | src/main/persistence/JsonWriter.java:89-98 | no board key is a player key |
| `Writer.MergeDisjoint` | src/main/persistence/JsonWriter.java:69-86 | merging objects with disjoint keys keeps both whole, and the sizes add |
| `Writer.MergedSize` | src/main/persistence/JsonWriter.java:89-98 | merging five pairwise disjoint objects loses no key |
| `Writer.MergedValues` | src/main/persistence/JsonWriter.java:89-98 | merging five pairwise disjoint objects overwrites no value |
| `Writer.SavedObject` | src/main/persistence/JsonWriter.java:89-98 | a save with one RED and one non-RED player per role holds 6 + 3 + 3 + 2 + 2 = 16 keys, each with the value its own object wrote |
| `Reader.DecodeCard` | src/main/persistence/JsonReader.java:87-95 | addCard's reads succeed exactly when the element is an object with the four fields of the right kinds, and yield them verbatim |
| `Reader.DecodeCards` | src/main/persistence/JsonReader.java:77-83 | the array decodes exactly when every element does, into the cards in array order |
| `Reader.CardRoundTrip` | src/main/persistence/JsonReader.java:87-95 | reading a written card gives it back |
| `Reader.CardsRoundTrip` | src/main/persistence/JsonReader.java:77-83 | reading a written card array gives back every card, in order |
| `Reader.BoardRoundTrip` | src/main/persistence/JsonReader.java:58-72 | reading a written board gives it back |
| `Reader.SpymasterRoundTrip` | src/main/persistence/JsonReader.java:104-121 | reading a written spymaster with the matching team argument gives it back |
| `Reader.OperativeRoundTrip` | src/main/persistence/JsonReader.java:130-144 | reading a written operative with the matching team argument gives it back |
| `Reader.SaveLoadRoundTrip` | src/main/persistence/JsonReader.java:58-144 | loading the merged save of a game with a RED and a non-RED player per role restores the board (teams, role, card counts, every card) and each player's team, hint, guesses and score |
| `Reader.ReadsAgree` | src/main/persistence/JsonReader.java:58-72 | parseBoard reads only the board's keys, so the merged object reads like the board's own |
| `Reader.SpymasterReadsAgree` | src/main/persistence/JsonReader.java:104-121 | parseSpymaster reads only its own keys |
| `Reader.OperativeReadsAgree` | src/main/persistence/JsonReader.java:130-144 | parseOperative reads only its own keys |
| `Reader.AddCard` | src/main/persistence/JsonReader.java:87-95 | succeeds exactly when the element decodes, and then appends one new card holding the four fields; on failure the card list is unchanged |
| `Reader.AddCards` | src/main/persistence/JsonReader.java:77-83 | succeeds exactly when the "cards" array decodes, and then appends its cards in array order; the board's other fields are unchanged |
| `Reader.DecodeCardsStep` | src/main/persistence/JsonReader.java:79-82 | decoding one more array element appends exactly its card |
| `Reader.ParseBoard` | src/main/persistence/JsonReader.java:58-72 | a new board holding the five fields verbatim and the decoded cards, or None exactly when a read fails |
| `Reader.ParseSpymaster` | src/main/persistence/JsonReader.java:104-121 | a new spymaster from the red-prefixed keys when the team is RED and the blue-prefixed ones otherwise, or None exactly when a read fails |
| `Reader.ParseOperative` | src/main/persistence/JsonReader.java:130-144 | a new operative read the same way, or None exactly when a read fails |

## Left out

- File and resource I/O is not modelled: reading and writing the save file, the dictionary's classpath stream, and `saveGameState`/`loadGameState` in both controllers. The word list is a parameter of `InitializeDictionary`, and a save file is a JSON value.
- Randomness is not modelled. `Collections.shuffle` is an arbitrary permutation, and the random choice of starting team is a parameter.
- Swing is not modelled: frames, fonts, images, dialogs, colours, borders, label text, the console panel and the end screen's drawing. The end screen is the `ended` flag, and the reveal-key overlay only turns buttons off.
- The console's rendering and input loops (menus, board printing with floating point, `System.exit`) are not modelled. The typed guess is modelled by its acceptance test `GuessIndex`.
- `Card.getCardColor` is not modelled: it returns a display colour.
- The event log is not part of this model.
- `Board.checkIfGameWon` and `Board.getScoreText` are not part of this model. The GUI's win check is the parameter `won`, and the score text is display only.
- Gui.GuiAction: the source reads the team label's text for "SPYMASTER". The model reads the board's current role, which that label shows.
- Gui.GuiGame.CardClicked: the model assumes the GUI shows exactly one button per card, in board order (createCardButtons). The button of a card is its position.
- Hints.ParseHint: counts are unbounded integers. A digit run too large for an `int` is the `Throws(NumberFormat)` verdict.
- Names.ToUpper: only ASCII 'a'..'z' are upper-cased. Java's `toUpperCase` follows the default locale and Unicode case mapping, which can change other characters and even the length.
- Dictionaries.NextWord: a non-empty word list too short for the cursor makes `get` throw IndexOutOfBoundsException (src/main/model/Dictionary.java:86). The model requires the cursor to be readable (`ReadableAt`) instead.
- Dictionaries.Dictionary.GetNextWord: the same IndexOutOfBoundsException on a short list is excluded by its requires, not modelled as an outcome.
- Boards.Board.AddCards: requires `CanDraw`, so the IndexOutOfBoundsException a short word list raises in `getNextWord` is not modelled.
- Console.GuessIndex: requires at least 25 cards. A loaded board with fewer cards would throw IndexOutOfBoundsException in `cards.get(index)` (src/main/ui/CodenamesConsole.java:630); that outcome is not modelled.
- Roles.Spymaster.DecrementGuesses: guesses, scores, indices and JSON numbers are unbounded integers. No 32-bit wrap-around is modelled; the source would need about 2^31 turns to reach it.
- Json.GetInt: only a JSON number is accepted. org.json would also coerce a numeric string; the writer never produces one.
- Reader.SaveLoadRoundTrip: the round trip is proved for a RED and a non-RED player per role. Two players not named RED would write the same blue keys, and the later one would overwrite the earlier.
- The `Writable` interface declares nothing to verify.
