/** initializeGameBoard, identical in both controllers: a board for the starting team, the
    shuffled dictionary, 9 + 8 agents, 7 bystanders and the assassin, shuffled and numbered. */
module Setup {
  import opened Names
  import opened Cards
  import opened Boards
  import opened Dictionaries
  import opened Roles

  /** Every card still hidden. */
  predicate AllHidden(s: seq<CardValue>) {
    forall i :: 0 <= i < |s| ==> !IsVisible(s[i])
  }

  /** Every card still at index 0, as addCards makes them. */
  predicate AllUnnumbered(s: seq<CardValue>) {
    forall i :: 0 <= i < |s| ==> s[i].index == 0
  }

  /** The cards with their numbers cleared. */
  function Unnumbered(s: seq<CardValue>): (r: seq<CardValue>)
    ensures |r| == |s| && forall i :: 0 <= i < |s| ==> r[i] == s[i].(index := 0)
  {
    seq(|s|, i requires 0 <= i < |s| => s[i].(index := 0))
  }

  /** The words of the cards, in order. */
  function CardWords(s: seq<CardValue>): (r: seq<string>)
    ensures |r| == |s| && forall i :: 0 <= i < |s| ==> r[i] == s[i].word
  {
    seq(|s|, i requires 0 <= i < |s| => s[i].word)
  }

  /** The board a new game for `startingPlayer` starts from, dealt from the shuffled word list
      `words`: the upper-cased starting team, the starter's spymaster to play, 9/8 agents on a
      "RED" start and 8/9 otherwise; 25 hidden cards numbered 1..25 with 9/8/7/1 (or 8/9/7/1)
      of RED/BLUE/NEUTRAL/ASSASSIN; and, numbers aside, exactly the cards the four addCards
      calls deal from `words`, in some order. */
  predicate FreshBoard(b: BoardValue, startingPlayer: string, words: seq<string>) {
    && b.startingTeam == ToUpper(startingPlayer)
    && b.currentTeam == startingPlayer && b.currentPlayer == SPYMASTER
    && b.numRedCards == (if startingPlayer == RED then NUM_CARDS_TEAM0 else NUM_CARDS_TEAM1)
    && b.numBlueCards == (if startingPlayer == RED then NUM_CARDS_TEAM1 else NUM_CARDS_TEAM0)
    && FreshCards(b.cards, startingPlayer)
    && CanDraw(words, 0, NUM_CARDS)
    && multiset(Unnumbered(b.cards)) == multiset(Dealt(words, b.numRedCards, b.numBlueCards))
  }

  predicate FreshCards(cards: seq<CardValue>, startingPlayer: string) {
    && |cards| == NUM_CARDS
    && AllHidden(cards)
    && (forall i :: 0 <= i < |cards| ==> cards[i].index == i + 1)
    && Remaining(cards, RED) == (if startingPlayer == RED then NUM_CARDS_TEAM0 else NUM_CARDS_TEAM1)
    && Remaining(cards, BLUE) == (if startingPlayer == RED then NUM_CARDS_TEAM1 else NUM_CARDS_TEAM0)
    && Remaining(cards, NEUTRAL) == NUM_CARDS_NEUTRAL
    && Remaining(cards, ASSASSIN) == NUM_CARDS_ASSASSIN
  }

  lemma HiddenCardsHidden(words: seq<string>, cardType: string)
    ensures AllHidden(HiddenCards(words, cardType)) && AllUnnumbered(HiddenCards(words, cardType))
  {
  }

  /** The cards two successive addCards calls deal from `counter`: `n1` of type `first`, then
      `n2` of type `second`. */
  function DealtPair(words: seq<string>, counter: int, first: string, n1: nat,
                     second: string, n2: nat): seq<CardValue>
    requires CanDraw(words, counter, n1) && CanDraw(words, CounterAfter(words, counter, n1), n2)
  {
    HiddenCards(Draws(words, counter, n1), first)
    + HiddenCards(Draws(words, CounterAfter(words, counter, n1), n2), second)
  }

  /** The cards the four addCards calls deal from a fresh counter, in order. */
  function Dealt(words: seq<string>, numRed: nat, numBlue: nat): seq<CardValue>
    requires CanDraw(words, 0, numRed + numBlue + NUM_CARDS_NEUTRAL + NUM_CARDS_ASSASSIN)
  {
    DrawsSplit(words, 0, numRed + numBlue, NUM_CARDS_NEUTRAL + NUM_CARDS_ASSASSIN);
    DrawsSplit(words, 0, numRed, numBlue);
    var c2 := CounterAfter(words, 0, numRed + numBlue);
    DrawsSplit(words, c2, NUM_CARDS_NEUTRAL, NUM_CARDS_ASSASSIN);
    DealtPair(words, 0, RED, numRed, BLUE, numBlue)
    + DealtPair(words, c2, NEUTRAL, NUM_CARDS_NEUTRAL, ASSASSIN, NUM_CARDS_ASSASSIN)
  }

  lemma DealtCounts(words: seq<string>, numRed: nat, numBlue: nat)
    requires CanDraw(words, 0, numRed + numBlue + NUM_CARDS_NEUTRAL + NUM_CARDS_ASSASSIN)
    ensures var s := Dealt(words, numRed, numBlue);
      && |s| == numRed + numBlue + NUM_CARDS_NEUTRAL + NUM_CARDS_ASSASSIN
      && AllHidden(s) && AllUnnumbered(s)
      && Remaining(s, RED) == numRed && Remaining(s, BLUE) == numBlue
      && Remaining(s, NEUTRAL) == NUM_CARDS_NEUTRAL && Remaining(s, ASSASSIN) == NUM_CARDS_ASSASSIN
  {
    DrawsSplit(words, 0, numRed + numBlue, NUM_CARDS_NEUTRAL + NUM_CARDS_ASSASSIN);
    DrawsSplit(words, 0, numRed, numBlue);
    var c1 := CounterAfter(words, 0, numRed);
    var c2 := CounterAfter(words, 0, numRed + numBlue);
    DrawsSplit(words, c2, NUM_CARDS_NEUTRAL, NUM_CARDS_ASSASSIN);
    var c3 := CounterAfter(words, c2, NUM_CARDS_NEUTRAL);
    var d1, d2, d3, d4 := Draws(words, 0, numRed), Draws(words, c1, numBlue),
                          Draws(words, c2, NUM_CARDS_NEUTRAL), Draws(words, c3, NUM_CARDS_ASSASSIN);
    assert Dealt(words, numRed, numBlue)
        == HiddenCards(d1, RED) + HiddenCards(d2, BLUE) + HiddenCards(d3, NEUTRAL)
           + HiddenCards(d4, ASSASSIN);
    NewGameCounts(d1, d2, d3, d4);
    HiddenCardsHidden(d1, RED);
    HiddenCardsHidden(d2, BLUE);
    HiddenCardsHidden(d3, NEUTRAL);
    HiddenCardsHidden(d4, ASSASSIN);
  }

  /** The four addCards calls of initializeGameBoard, on an empty board whose dictionary was
      just loaded: the cards dealt are exactly Dealt, each a new object. */
  method DealCards(b: Board)
    requires b.dictionary != null && b.cards == []
    requires b.dictionary.counter == 0 && b.numRedCards >= 0 && b.numBlueCards >= 0
    requires CanDraw(b.dictionary.fullDictionary, 0,
                     b.numRedCards + b.numBlueCards + NUM_CARDS_NEUTRAL + NUM_CARDS_ASSASSIN)
    modifies b, b.dictionary
    ensures b.Snapshot() == old(Dealt(b.dictionary.fullDictionary, b.numRedCards, b.numBlueCards))
    ensures b.Distinct() && forall j :: 0 <= j < |b.cards| ==> fresh(b.cards[j])
    ensures b.dictionary == old(b.dictionary)
    ensures b.dictionary.fullDictionary == old(b.dictionary.fullDictionary)
    ensures b.startingTeam == old(b.startingTeam) && b.currentTeam == old(b.currentTeam)
    ensures b.currentPlayer == old(b.currentPlayer)
    ensures b.numRedCards == old(b.numRedCards) && b.numBlueCards == old(b.numBlueCards)
  {
    ghost var words := b.dictionary.fullDictionary;
    ghost var numRed, numBlue := b.numRedCards, b.numBlueCards;
    DrawsSplit(words, 0, numRed + numBlue, NUM_CARDS_NEUTRAL + NUM_CARDS_ASSASSIN);
    DrawsSplit(words, 0, numRed, numBlue);
    ghost var c2 := CounterAfter(words, 0, numRed + numBlue);
    DrawsSplit(words, c2, NUM_CARDS_NEUTRAL, NUM_CARDS_ASSASSIN);
    assert CardsToAdd(RED, numRed, numBlue) == numRed && CardsToAdd(BLUE, numRed, numBlue) == numBlue;
    assert CardsToAdd(NEUTRAL, numRed, numBlue) == NUM_CARDS_NEUTRAL;
    assert CardsToAdd(ASSASSIN, numRed, numBlue) == NUM_CARDS_ASSASSIN;
    assert Values([]) == [];
    DealTwo(b, RED, BLUE);
    assert b.Snapshot() == DealtPair(words, 0, RED, numRed, BLUE, numBlue);
    assert b.dictionary.counter == c2;
    assert forall j :: 0 <= j < |b.cards| ==> fresh(b.cards[j]);
    DealTwo(b, NEUTRAL, ASSASSIN);
  }

  /** Two addCards calls in a row: the cards of both types, in order, each a new object. */
  method DealTwo(b: Board, first: string, second: string)
    requires b.dictionary != null
    requires CanDraw(b.dictionary.fullDictionary, b.dictionary.counter,
                     CardsToAdd(first, b.numRedCards, b.numBlueCards))
    requires CanDraw(b.dictionary.fullDictionary,
                     CounterAfter(b.dictionary.fullDictionary, b.dictionary.counter,
                                  CardsToAdd(first, b.numRedCards, b.numBlueCards)),
                     CardsToAdd(second, b.numRedCards, b.numBlueCards))
    modifies b, b.dictionary
    ensures b.dictionary == old(b.dictionary)
    ensures var words, counter := old(b.dictionary.fullDictionary), old(b.dictionary.counter);
      var n1, n2 := old(CardsToAdd(first, b.numRedCards, b.numBlueCards)),
                    old(CardsToAdd(second, b.numRedCards, b.numBlueCards));
      && b.Snapshot() == old(b.Snapshot()) + DealtPair(words, counter, first, n1, second, n2)
      && b.dictionary.counter == CounterAfter(words, CounterAfter(words, counter, n1), n2)
    ensures b.cards[..old(|b.cards|)] == old(b.cards)
    ensures forall j :: old(|b.cards|) <= j < |b.cards| ==> fresh(b.cards[j])
    ensures old(b.Distinct()) ==> b.Distinct()
    ensures b.dictionary.fullDictionary == old(b.dictionary.fullDictionary)
    ensures b.startingTeam == old(b.startingTeam) && b.currentTeam == old(b.currentTeam)
    ensures b.currentPlayer == old(b.currentPlayer)
    ensures b.numRedCards == old(b.numRedCards) && b.numBlueCards == old(b.numBlueCards)
  {
    ghost var words, counter := b.dictionary.fullDictionary, b.dictionary.counter;
    ghost var n1 := CardsToAdd(first, b.numRedCards, b.numBlueCards);
    ghost var n2 := CardsToAdd(second, b.numRedCards, b.numBlueCards);
    ghost var start := b.Snapshot();
    ghost var n0 := |b.cards|;
    ghost var h1 := HiddenCards(Draws(words, counter, n1), first);
    ghost var h2 := HiddenCards(Draws(words, CounterAfter(words, counter, n1), n2), second);
    b.AddCards(first);
    ghost var mid := b.cards;
    ghost var midSnap := b.Snapshot();
    assert midSnap == start + h1;
    assert b.dictionary.fullDictionary == words;
    assert b.dictionary.counter == CounterAfter(words, counter, n1);
    assert CardsToAdd(second, b.numRedCards, b.numBlueCards) == n2;
    b.AddCards(second);
    assert b.Snapshot() == midSnap + h2;
    assert midSnap + h2 == start + (h1 + h2);
    assert b.cards[..|mid|] == mid;
  }

  /** initializeGameBoard. The word list is the dictionary file's lines; it must be empty (every
      card then gets the word "") or longer than the 125 entries the 25 draws reach. */
  method InitializeGameBoard(startingPlayer: string, lines: seq<string>) returns (b: Board)
    requires lines == [] || |lines| > SKIP * NUM_CARDS
    ensures fresh(b) && b.Distinct() && b.dictionary != null
    ensures multiset(b.dictionary.fullDictionary) == multiset(lines)
    ensures FreshBoard(b.Value(), startingPlayer, b.dictionary.fullDictionary)
  {
    b := new Board(startingPlayer);
    b.InitializeGameDictionary(lines);
    ghost var words := b.dictionary.fullDictionary;
    ghost var numRed, numBlue := b.numRedCards, b.numBlueCards;
    CanDrawFromStart(words, NUM_CARDS);
    DealCards(b);
    DealtCounts(words, numRed, numBlue);
    ghost var dealt := b.Snapshot();
    ShuffleAndNumber(b, startingPlayer);
    assert dealt == Dealt(words, numRed, numBlue);
  }

  /** The cards the four addCards calls leave on a board for `startingPlayer`, before the
      shuffle: 25 hidden cards, 9/8/7/1 (or 8/9/7/1) of them remaining per type. */
  predicate DealtShape(s: seq<CardValue>, startingPlayer: string) {
    && |s| == NUM_CARDS && AllHidden(s) && AllUnnumbered(s)
    && Remaining(s, RED) == (if startingPlayer == RED then NUM_CARDS_TEAM0 else NUM_CARDS_TEAM1)
    && Remaining(s, BLUE) == (if startingPlayer == RED then NUM_CARDS_TEAM1 else NUM_CARDS_TEAM0)
    && Remaining(s, NEUTRAL) == NUM_CARDS_NEUTRAL
    && Remaining(s, ASSASSIN) == NUM_CARDS_ASSASSIN
  }

  /** The last two steps of initializeGameBoard: shuffle the dealt cards, then number them. */
  method ShuffleAndNumber(b: Board, ghost startingPlayer: string)
    requires b.Distinct() && DealtShape(b.Snapshot(), startingPlayer)
    modifies b, b.cards
    ensures b.Distinct() && FreshCards(b.Snapshot(), startingPlayer)
    ensures multiset(Unnumbered(b.Snapshot())) == multiset(old(b.Snapshot()))
    ensures b.dictionary == old(b.dictionary)
    ensures b.startingTeam == old(b.startingTeam) && b.currentTeam == old(b.currentTeam)
    ensures b.currentPlayer == old(b.currentPlayer)
    ensures b.numRedCards == old(b.numRedCards) && b.numBlueCards == old(b.numBlueCards)
  {
    ghost var dealt := b.Snapshot();
    ghost var before := b.cards;
    b.Shuffle();
    ghost var shuffled := b.Snapshot();
    ShuffledAndNumbered(dealt, shuffled, startingPlayer);
    SameCards(before, b.cards);
    b.SetBoardIndices();
  }

  /** A permutation of a card list holds no card object the list did not hold. */
  lemma SameCards(a: seq<Card>, b: seq<Card>)
    requires multiset(a) == multiset(b)
    ensures forall i :: 0 <= i < |b| ==> b[i] in a
  {
    assert forall i :: 0 <= i < |b| ==> b[i] in multiset(a);
  }

  /** Shuffling the dealt cards and numbering them 1..25 yields the cards of a new game. */
  lemma ShuffledAndNumbered(dealt: seq<CardValue>, shuffled: seq<CardValue>, startingPlayer: string)
    requires multiset(dealt) == multiset(shuffled)
    requires DealtShape(dealt, startingPlayer)
    ensures FreshCards(Indexed(shuffled), startingPlayer)
    ensures multiset(Unnumbered(Indexed(shuffled))) == multiset(dealt)
  {
    ShuffleKeepsCounts(dealt, shuffled);
    IndexingKeepsCounts(shuffled);
    forall i | 0 <= i < |shuffled| ensures shuffled[i].index == 0 {
      assert shuffled[i] in multiset(dealt);
    }
    assert Unnumbered(Indexed(shuffled)) == shuffled;
  }

  lemma ShuffleKeepsCounts(a: seq<CardValue>, b: seq<CardValue>)
    requires multiset(a) == multiset(b)
    ensures |a| == |b|
    ensures forall t :: Remaining(a, t) == Remaining(b, t)
    ensures AllHidden(a) ==> AllHidden(b)
  {
    assert |a| == |multiset(a)| == |multiset(b)| == |b|;
    forall t ensures Remaining(a, t) == Remaining(b, t) {
      CountPermutation(a, b, t, false);
      CountPermutation(a, b, t, true);
    }
    if AllHidden(a) {
      forall i | 0 <= i < |b| ensures !IsVisible(b[i]) {
        assert b[i] in multiset(a);
      }
    }
  }

  lemma IndexingKeepsCounts(s: seq<CardValue>)
    ensures forall t :: Remaining(Indexed(s), t) == Remaining(s, t)
    ensures AllHidden(s) ==> AllHidden(Indexed(s))
  {
    forall t ensures Remaining(Indexed(s), t) == Remaining(s, t) {
      CountSameColours(Indexed(s), s, t, false);
      CountSameColours(Indexed(s), s, t, true);
    }
  }

  /** init (console) and initializeGame (GUI): initializeGameBoard, the starting team set on the board,
      and a new spymaster and operative per team. */
  method InitializeGame(startingPlayer: string, lines: seq<string>)
    returns (board: Board, rs: Spymaster, bs: Spymaster, ro: Operative, bo: Operative)
    requires lines == [] || |lines| > SKIP * NUM_CARDS
    ensures fresh(board) && fresh(rs) && fresh(bs) && fresh(ro) && fresh(bo)
    ensures rs != bs && ro != bo
    ensures board.Distinct() && board.dictionary != null
    ensures multiset(board.dictionary.fullDictionary) == multiset(lines)
    ensures FreshBoard(board.Value(), startingPlayer, board.dictionary.fullDictionary)
    ensures rs.Value() == SpymasterValue(RED, "", 0) && bs.Value() == SpymasterValue(BLUE, "", 0)
    ensures ro.Value() == OperativeValue(RED, 0) && bo.Value() == OperativeValue(BLUE, 0)
  {
    board := InitializeGameBoard(startingPlayer, lines);
    board.SetCurrentTeam(startingPlayer);
    ghost var start := board.Value();
    assert board.Distinct() && FreshBoard(start, startingPlayer, board.dictionary.fullDictionary);
    rs := new Spymaster(RED);
    bs := new Spymaster(BLUE);
    ro := new Operative(RED);
    bo := new Operative(BLUE);
    assert board.Value() == start;
  }

  lemma CardWordsAppend(a: seq<CardValue>, b: seq<CardValue>)
    ensures CardWords(a + b) == CardWords(a) + CardWords(b)
  {
  }

  lemma CardWordsHidden(words: seq<string>, cardType: string)
    ensures CardWords(HiddenCards(words, cardType)) == words
  {
  }

  /** The words of the dealt cards are the 25 words drawn, in draw order. */
  lemma DealtWords(words: seq<string>, numRed: nat, numBlue: nat)
    requires CanDraw(words, 0, numRed + numBlue + NUM_CARDS_NEUTRAL + NUM_CARDS_ASSASSIN)
    ensures CardWords(Dealt(words, numRed, numBlue))
         == Draws(words, 0, numRed + numBlue + NUM_CARDS_NEUTRAL + NUM_CARDS_ASSASSIN)
  {
    DrawsSplit(words, 0, numRed + numBlue, NUM_CARDS_NEUTRAL + NUM_CARDS_ASSASSIN);
    DrawsSplit(words, 0, numRed, numBlue);
    var c1 := CounterAfter(words, 0, numRed);
    var c2 := CounterAfter(words, 0, numRed + numBlue);
    DrawsSplit(words, c2, NUM_CARDS_NEUTRAL, NUM_CARDS_ASSASSIN);
    var c3 := CounterAfter(words, c2, NUM_CARDS_NEUTRAL);
    var d1, d2, d3, d4 := Draws(words, 0, numRed), Draws(words, c1, numBlue),
                          Draws(words, c2, NUM_CARDS_NEUTRAL), Draws(words, c3, NUM_CARDS_ASSASSIN);
    var h1, h2, h3, h4 := HiddenCards(d1, RED), HiddenCards(d2, BLUE),
                          HiddenCards(d3, NEUTRAL), HiddenCards(d4, ASSASSIN);
    assert Dealt(words, numRed, numBlue) == (h1 + h2) + (h3 + h4);
    CardWordsAppend(h1 + h2, h3 + h4);
    CardWordsAppend(h1, h2);
    CardWordsAppend(h3, h4);
    CardWordsHidden(d1, RED);
    CardWordsHidden(d2, BLUE);
    CardWordsHidden(d3, NEUTRAL);
    CardWordsHidden(d4, ASSASSIN);
  }

  /** Cards are unique by word within one game when the word list repeats no word and is longer
      than the 125 entries the deal reads: the shuffle keeps the list free of repeats, the 25
      draws read 25 different entries, and the board holds those cards in some order. */
  lemma GameWordsDistinct(b: BoardValue, startingPlayer: string, words: seq<string>, lines: seq<string>)
    requires |lines| > SKIP * NUM_CARDS && AllDistinct(lines)
    requires multiset(words) == multiset(lines)
    requires FreshBoard(b, startingPlayer, words)
    ensures AllDistinct(CardWords(b.cards))
  {
    DistinctPermutation(lines, words);
    assert |words| == |multiset(words)| == |lines|;
    var nr, nb := b.numRedCards, b.numBlueCards;
    DrawsDistinct(words, 0, NUM_CARDS);
    DealtWords(words, nr, nb);
    var dealt := Dealt(words, nr, nb);
    assert AllDistinct(CardWords(dealt));
    assert AllDistinct(dealt) by {
      forall i, j | 0 <= i < j < |dealt| ensures dealt[i] != dealt[j] {
        assert CardWords(dealt)[i] != CardWords(dealt)[j];
      }
    }
    var u := Unnumbered(b.cards);
    DistinctPermutation(dealt, u);
    forall p, q | 0 <= p < q < |u| ensures u[p].word != u[q].word {
      assert u[p] in multiset(dealt) && u[q] in multiset(dealt);
      var i :| 0 <= i < |dealt| && dealt[i] == u[p];
      var j :| 0 <= j < |dealt| && dealt[j] == u[q];
      assert i != j;
      if i < j {
        assert CardWords(dealt)[i] != CardWords(dealt)[j];
      } else {
        assert CardWords(dealt)[j] != CardWords(dealt)[i];
      }
    }
    assert forall p :: 0 <= p < |u| ==> CardWords(b.cards)[p] == u[p].word;
  }
}
