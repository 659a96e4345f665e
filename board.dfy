/** model.Board: the 25 cards of one game, whose turn it is, and the agent split. */
module Boards {
  import opened Names
  import opened Json
  import opened Cards
  import opened Dictionaries

  /** Everything a board saves: the five scalar fields and its cards in order. */
  datatype BoardValue = BoardValue(
    startingTeam: string,
    currentTeam: string,
    currentPlayer: string,
    numRedCards: int,
    numBlueCards: int,
    cards: seq<CardValue>)

  /** Whether a card is counted by getRemainingCards' first counter (`revealed` false)
      or by its second one (`revealed` true). */
  predicate Counted(c: CardValue, team: string, revealed: bool) {
    c.team == team && (!revealed || c.visibleTeam == team)
  }

  /** Number of cards of `team` (revealed: only those whose visible team is `team` too). */
  function Count(s: seq<CardValue>, team: string, revealed: bool): (n: nat)
    ensures n <= |s|
  {
    if s == [] then 0
    else Count(s[..|s| - 1], team, revealed) + (if Counted(s[|s| - 1], team, revealed) then 1 else 0)
  }

  /** getRemainingCards: cards of `team` minus those of `team` already shown as `team`. */
  function Remaining(s: seq<CardValue>, team: string): int {
    Count(s, team, false) - Count(s, team, true)
  }

  /** The cards addCards(type) appends for the drawn words: hidden, at index 0, of that type. */
  function HiddenCards(words: seq<string>, cardType: string): (r: seq<CardValue>)
    ensures |r| == |words|
    ensures forall i :: 0 <= i < |r| ==> r[i] == CardValue(words[i], cardType, HIDDEN, 0)
  {
    seq(|words|, i requires 0 <= i < |words| => CardValue(words[i], cardType, HIDDEN, 0))
  }

  lemma HiddenCardsAppend(words: seq<string>, word: string, cardType: string)
    ensures HiddenCards(words + [word], cardType)
         == HiddenCards(words, cardType) + [CardValue(word, cardType, HIDDEN, 0)]
  {
  }

  /** How many cards addCards(type) appends (a negative count appends none). */
  function CardsToAdd(cardType: string, numRedCards: int, numBlueCards: int): nat {
    var n := if cardType == ASSASSIN then NUM_CARDS_ASSASSIN
             else if cardType == NEUTRAL then NUM_CARDS_NEUTRAL
             else if cardType == RED then numRedCards
             else numBlueCards;
    if n < 0 then 0 else n
  }

  /** The effect of setBoardIndices: the card at 0-based position i gets index i + 1. */
  function Indexed(s: seq<CardValue>): (r: seq<CardValue>)
    ensures |r| == |s|
    ensures forall i :: 0 <= i < |s| ==> r[i] == s[i].(index := i + 1)
  {
    seq(|s|, i requires 0 <= i < |s| => s[i].(index := i + 1))
  }

  function CardsJson(cards: seq<CardValue>): (r: seq<Value>)
    ensures |r| == |cards|
  {
    seq(|cards|, i requires 0 <= i < |cards| => Obj(CardJson(cards[i])))
  }

  /** Board.toJson with cardsToJson: six keys, the cards as an array in board order. */
  function BoardJson(b: BoardValue): (o: Object)
    ensures o.Keys == {"startingTeam", "currentTeam", "currentPlayer", "numRedCards", "numBlueCards", "cards"}
  {
    map["startingTeam" := Str(b.startingTeam), "currentTeam" := Str(b.currentTeam),
        "currentPlayer" := Str(b.currentPlayer), "numRedCards" := Int(b.numRedCards),
        "numBlueCards" := Int(b.numBlueCards), "cards" := Arr(CardsJson(b.cards))]
  }

  // ---- Counting lemmas ----

  lemma {:induction false} CountAppend(a: seq<CardValue>, b: seq<CardValue>, team: string, revealed: bool)
    ensures Count(a + b, team, revealed) == Count(a, team, revealed) + Count(b, team, revealed)
    decreases |b|
  {
    if b == [] {
      assert a + b == a;
    } else {
      assert (a + b)[..|a + b| - 1] == a + b[..|b| - 1];
      CountAppend(a, b[..|b| - 1], team, revealed);
    }
  }

  lemma CountSingle(c: CardValue, team: string, revealed: bool)
    ensures Count([c], team, revealed) == if Counted(c, team, revealed) then 1 else 0
  {
    assert [c][..0] == [];
  }

  /** The counts depend only on the multiset of cards, so a shuffle keeps them. */
  lemma {:induction false} CountPermutation(a: seq<CardValue>, b: seq<CardValue>, team: string, revealed: bool)
    requires multiset(a) == multiset(b)
    ensures Count(a, team, revealed) == Count(b, team, revealed)
    decreases |a|
  {
    if a == [] {
      assert |multiset(b)| == 0;
    } else {
      var x := a[|a| - 1];
      var a' := a[..|a| - 1];
      assert a == a' + [x];
      assert x in multiset(b);
      var k :| 0 <= k < |b| && b[k] == x;
      var b' := b[..k] + b[k + 1..];
      assert b == b[..k] + [x] + b[k + 1..];
      assert multiset(b') == multiset(b) - multiset{x};
      assert multiset(a') == multiset(a) - multiset{x};
      CountPermutation(a', b', team, revealed);
      CountAppend(a', [x], team, revealed);
      CountAppend(b[..k] + [x], b[k + 1..], team, revealed);
      CountAppend(b[..k], [x], team, revealed);
      CountAppend(b[..k], b[k + 1..], team, revealed);
    }
  }

  /** Counts only look at team and visibleTeam, so re-indexing keeps them. */
  lemma {:induction false} CountSameColours(a: seq<CardValue>, b: seq<CardValue>, team: string, revealed: bool)
    requires |a| == |b|
    requires forall i :: 0 <= i < |a| ==> a[i].team == b[i].team && a[i].visibleTeam == b[i].visibleTeam
    ensures Count(a, team, revealed) == Count(b, team, revealed)
    decreases |a|
  {
    if a != [] {
      CountSameColours(a[..|a| - 1], b[..|b| - 1], team, revealed);
    }
  }

  /** getRemainingCards lies between 0 and the number of cards of that team; an absent type has 0. */
  lemma {:induction false} RemainingBounds(s: seq<CardValue>, team: string)
    ensures 0 <= Remaining(s, team) <= Count(s, team, false)
    ensures Count(s, team, false) == 0 ==> Remaining(s, team) == 0
    decreases |s|
  {
    if s != [] {
      RemainingBounds(s[..|s| - 1], team);
    }
  }

  /** addCards(type) contributes |words| remaining cards of its own type and none of any other. */
  lemma {:induction false} RemainingHiddenCards(words: seq<string>, cardType: string, team: string)
    ensures Remaining(HiddenCards(words, cardType), team)
         == if cardType == team && team != HIDDEN then |words| else 0
    ensures Count(HiddenCards(words, cardType), team, false) == if cardType == team then |words| else 0
    decreases |words|
  {
    if words != [] {
      var w := words[..|words| - 1];
      assert HiddenCards(words, cardType)[..|words| - 1] == HiddenCards(w, cardType);
      RemainingHiddenCards(w, cardType, team);
    }
  }

  lemma RemainingAppend(a: seq<CardValue>, b: seq<CardValue>, team: string)
    ensures Remaining(a + b, team) == Remaining(a, team) + Remaining(b, team)
  {
    CountAppend(a, b, team, false);
    CountAppend(a, b, team, true);
  }

  /** Revealing one hidden card of team T lowers T's remaining count by exactly one and leaves
      every other type's count as it was. */
  lemma RevealLowersRemaining(s: seq<CardValue>, i: int, team: string)
    requires 0 <= i < |s|
    requires !IsVisible(s[i]) && s[i].team != HIDDEN
    ensures Remaining(s[i := Revealed(s[i])], team)
         == if team == s[i].team then Remaining(s, team) - 1 else Remaining(s, team)
  {
    var s' := s[i := Revealed(s[i])];
    assert s == s[..i] + [s[i]] + s[i + 1..];
    assert s' == s[..i] + [s'[i]] + s[i + 1..];
    RemainingAppend(s[..i] + [s[i]], s[i + 1..], team);
    RemainingAppend(s[..i], [s[i]], team);
    RemainingAppend(s[..i] + [s'[i]], s[i + 1..], team);
    RemainingAppend(s[..i], [s'[i]], team);
    CountSingle(s[i], team, false);
    CountSingle(s[i], team, true);
    CountSingle(s'[i], team, false);
    CountSingle(s'[i], team, true);
  }

  /** The cards of a fresh game: the four addCards calls in the order RED, BLUE, NEUTRAL, ASSASSIN. */
  lemma NewGameCounts(red: seq<string>, blue: seq<string>, neutral: seq<string>, assassin: seq<string>)
    ensures var s := HiddenCards(red, RED) + HiddenCards(blue, BLUE) + HiddenCards(neutral, NEUTRAL)
                     + HiddenCards(assassin, ASSASSIN);
            && Remaining(s, RED) == |red| && Remaining(s, BLUE) == |blue|
            && Remaining(s, NEUTRAL) == |neutral| && Remaining(s, ASSASSIN) == |assassin|
  {
    var r, b, n, a := HiddenCards(red, RED), HiddenCards(blue, BLUE),
                      HiddenCards(neutral, NEUTRAL), HiddenCards(assassin, ASSASSIN);
    forall t | t in {RED, BLUE, NEUTRAL, ASSASSIN}
      ensures Remaining(r + b + n + a, t)
           == Remaining(r, t) + Remaining(b, t) + Remaining(n, t) + Remaining(a, t)
    {
      RemainingAppend(r + b + n, a, t);
      RemainingAppend(r + b, n, t);
      RemainingAppend(r, b, t);
    }
    forall t | t in {RED, BLUE, NEUTRAL, ASSASSIN} ensures
      && Remaining(r, t) == (if t == RED then |red| else 0)
      && Remaining(b, t) == (if t == BLUE then |blue| else 0)
      && Remaining(n, t) == (if t == NEUTRAL then |neutral| else 0)
      && Remaining(a, t) == (if t == ASSASSIN then |assassin| else 0)
    {
      RemainingHiddenCards(red, RED, t);
      RemainingHiddenCards(blue, BLUE, t);
      RemainingHiddenCards(neutral, NEUTRAL, t);
      RemainingHiddenCards(assassin, ASSASSIN, t);
    }
  }

  // ---- Card objects ----

  /** The values of a sequence of card objects, in order. */
  function Values(cs: seq<Card>): (r: seq<CardValue>)
    reads cs
    ensures |r| == |cs|
    ensures forall i :: 0 <= i < |cs| ==> r[i] == cs[i].Value()
  {
    seq(|cs|, i requires 0 <= i < |cs| reads cs => cs[i].Value())
  }

  lemma ValuesAppend(a: seq<Card>, b: seq<Card>)
    ensures Values(a + b) == Values(a) + Values(b)
  {
  }

  /** Permuting the card objects permutes their values. */
  lemma {:induction false} ValuesPermutation(a: seq<Card>, b: seq<Card>)
    requires multiset(a) == multiset(b)
    ensures multiset(Values(a)) == multiset(Values(b))
    decreases |a|
  {
    if a == [] {
      assert |multiset(b)| == 0;
    } else {
      var x := a[|a| - 1];
      var a' := a[..|a| - 1];
      assert a == a' + [x];
      assert x in multiset(b);
      var k :| 0 <= k < |b| && b[k] == x;
      var b' := b[..k] + b[k + 1..];
      assert b == b[..k] + [x] + b[k + 1..];
      assert multiset(b') == multiset(b) - multiset{x};
      assert multiset(a') == multiset(a) - multiset{x};
      ValuesPermutation(a', b');
      ValuesAppend(a', [x]);
      ValuesAppend(b[..k] + [x], b[k + 1..]);
      ValuesAppend(b[..k], [x]);
      ValuesAppend(b[..k], b[k + 1..]);
    }
  }

  class Board {
    var cards: seq<Card>
    var dictionary: Dictionary?
    var startingTeam: string
    var currentTeam: string
    var currentPlayer: string
    var numRedCards: int
    var numBlueCards: int

    function Snapshot(): seq<CardValue>
      reads this, cards
    {
      Values(cards)
    }

    function Value(): BoardValue
      reads this, cards
    {
      BoardValue(startingTeam, currentTeam, currentPlayer, numRedCards, numBlueCards, Snapshot())
    }

    /** Every field of the board but its cards. */
    function Header(): BoardValue
      reads this
    {
      BoardValue(startingTeam, currentTeam, currentPlayer, numRedCards, numBlueCards, [])
    }

    /** No card object sits at two positions. */
    predicate Distinct()
      reads this
    {
      AllDistinct(cards)
    }

    /** Board(startingTeam): no cards, the spymaster of the given team to play; the starting
        team gets 9 agents exactly when the argument is "RED". */
    constructor (startingTeam: string)
      ensures Value() == BoardValue(ToUpper(startingTeam), startingTeam, SPYMASTER,
                                    if startingTeam == RED then NUM_CARDS_TEAM0 else NUM_CARDS_TEAM1,
                                    if startingTeam == RED then NUM_CARDS_TEAM1 else NUM_CARDS_TEAM0, [])
      ensures cards == [] && Distinct()
      ensures dictionary != null && fresh(dictionary)
      ensures dictionary.fullDictionary == [] && dictionary.counter == 0
    {
      cards := [];
      dictionary := new Dictionary();
      this.startingTeam := ToUpper(startingTeam);
      currentTeam := startingTeam;
      currentPlayer := SPYMASTER;
      if startingTeam == RED {
        numRedCards := NUM_CARDS_TEAM0;
        numBlueCards := NUM_CARDS_TEAM1;
      } else {
        numRedCards := NUM_CARDS_TEAM1;
        numBlueCards := NUM_CARDS_TEAM0;
      }
    }

    /** The load constructor: the five fields verbatim, no cards and no dictionary. */
    constructor Load(startingTeam: string, currentTeam: string, currentPlayer: string,
                     numRedCards: int, numBlueCards: int)
      ensures Value() == BoardValue(startingTeam, currentTeam, currentPlayer, numRedCards, numBlueCards, [])
      ensures cards == [] && Distinct() && dictionary == null
    {
      cards := [];
      dictionary := null;
      this.startingTeam := startingTeam;
      this.currentTeam := currentTeam;
      this.currentPlayer := currentPlayer;
      this.numRedCards := numRedCards;
      this.numBlueCards := numBlueCards;
    }

    /** initializeGameDictionary: load the given word list, then shuffle it. */
    method InitializeGameDictionary(lines: seq<string>)
      requires dictionary != null
      modifies dictionary
      ensures multiset(dictionary.fullDictionary) == multiset(old(dictionary.fullDictionary) + lines)
      ensures |dictionary.fullDictionary| == old(|dictionary.fullDictionary|) + |lines|
      ensures dictionary.counter == old(dictionary.counter)
    {
      dictionary.InitializeDictionary(lines);
      dictionary.ShuffleDictionary();
    }

    /** addCards(type): append as many hidden cards of that type as it calls for, one word per
        getNextWord call; earlier cards are untouched. */
    method AddCards(cardType: string)
      requires dictionary != null
      requires CanDraw(dictionary.fullDictionary, dictionary.counter,
                       CardsToAdd(cardType, numRedCards, numBlueCards))
      modifies this, dictionary
      ensures Snapshot() == old(Snapshot() + HiddenCards(
                Draws(dictionary.fullDictionary, dictionary.counter,
                      CardsToAdd(cardType, numRedCards, numBlueCards)), cardType))
      ensures cards[..old(|cards|)] == old(cards)
      ensures forall j :: old(|cards|) <= j < |cards| ==> fresh(cards[j])
      ensures old(Distinct()) ==> Distinct()
      ensures dictionary == old(dictionary)
      ensures dictionary.fullDictionary == old(dictionary.fullDictionary)
      ensures dictionary.counter == old(CounterAfter(dictionary.fullDictionary, dictionary.counter,
                                                     CardsToAdd(cardType, numRedCards, numBlueCards)))
      ensures startingTeam == old(startingTeam) && currentTeam == old(currentTeam)
      ensures currentPlayer == old(currentPlayer)
      ensures numRedCards == old(numRedCards) && numBlueCards == old(numBlueCards)
    {
      var numCards := CardsToAdd(cardType, numRedCards, numBlueCards);
      ghost var words, counter0 := dictionary.fullDictionary, dictionary.counter;
      ghost var n0 := |cards|;
      var i := 0;
      while i < numCards
        invariant 0 <= i <= numCards
        invariant dictionary == old(dictionary) && dictionary.fullDictionary == words
        invariant dictionary.counter == CounterAfter(words, counter0, i)
        invariant startingTeam == old(startingTeam) && currentTeam == old(currentTeam)
        invariant currentPlayer == old(currentPlayer)
        invariant numRedCards == old(numRedCards) && numBlueCards == old(numBlueCards)
        invariant |cards| == old(|cards|) + i && cards[..old(|cards|)] == old(cards)
        invariant forall j :: n0 <= j < |cards| ==> fresh(cards[j])
        invariant old(Distinct()) ==> Distinct()
        invariant Snapshot() == old(Snapshot()) + HiddenCards(Draws(words, counter0, i), cardType)
      {
        DrawsStep(words, counter0, i);
        DrawCard(cardType);
        HiddenCardsAppend(Draws(words, counter0, i), NextWord(words, CounterAfter(words, counter0, i)), cardType);
        i := i + 1;
      }
    }

    /** One pass of the addCards(String) loop: draw the next word and append a new hidden card of it. */
    method DrawCard(cardType: string)
      requires dictionary != null
      requires dictionary.fullDictionary == [] || ReadableAt(dictionary.fullDictionary, dictionary.counter + SKIP)
      modifies this, dictionary
      ensures |cards| == old(|cards|) + 1 && cards[..old(|cards|)] == old(cards)
      ensures fresh(cards[old(|cards|)])
      ensures Snapshot() == old(Snapshot()) + [CardValue(old(NextWord(dictionary.fullDictionary, dictionary.counter)), cardType, HIDDEN, 0)]
      ensures old(Distinct()) ==> Distinct()
      ensures dictionary == old(dictionary) && dictionary.fullDictionary == old(dictionary.fullDictionary)
      ensures dictionary.counter == old(CounterAfter(dictionary.fullDictionary, dictionary.counter, 1))
      ensures startingTeam == old(startingTeam) && currentTeam == old(currentTeam)
      ensures currentPlayer == old(currentPlayer)
      ensures numRedCards == old(numRedCards) && numBlueCards == old(numBlueCards)
    {
      var word := dictionary.GetNextWord();
      var makeCard := new Card(word, cardType);
      AddCard(makeCard);
    }

    /** addCards(Card): the list grows by exactly this card, at the end. */
    method AddCard(card: Card)
      modifies this
      ensures cards == old(cards) + [card]
      ensures Snapshot() == old(Snapshot()) + [card.Value()]
      ensures Distinct() <==> old(Distinct()) && card !in old(cards)
      ensures dictionary == old(dictionary) && startingTeam == old(startingTeam)
      ensures currentTeam == old(currentTeam) && currentPlayer == old(currentPlayer)
      ensures numRedCards == old(numRedCards) && numBlueCards == old(numBlueCards)
    {
      ValuesAppend(cards, [card]);
      cards := cards + [card];
      if card in old(cards) {
        var k :| 0 <= k < |old(cards)| && old(cards)[k] == card;
        assert cards[k] == cards[|cards| - 1];
      } else if AllDistinct(old(cards)) {
        DistinctAppend(old(cards), card);
      } else {
        DistinctPrefix(old(cards), [card]);
      }
    }

    /** shuffle: some permutation of the card list; no card changes. */
    method Shuffle()
      modifies this
      ensures multiset(cards) == old(multiset(cards)) && |cards| == old(|cards|)
      ensures multiset(Snapshot()) == old(multiset(Snapshot()))
      ensures old(Distinct()) ==> Distinct()
      ensures dictionary == old(dictionary) && startingTeam == old(startingTeam)
      ensures currentTeam == old(currentTeam) && currentPlayer == old(currentPlayer)
      ensures numRedCards == old(numRedCards) && numBlueCards == old(numBlueCards)
    {
      var shuffled :| multiset(shuffled) == multiset(cards);
      ValuesPermutation(cards, shuffled);
      if Distinct() {
        DistinctPermutation(cards, shuffled);
      }
      cards := shuffled;
    }

    /** getRemainingCards: counts the team's cards and the team's revealed cards in one pass. */
    method GetRemainingCards(team: string) returns (remaining: int)
      ensures remaining == Remaining(Snapshot(), team)
    {
      var totalCardCounter, revealedCardCounter := 0, 0;
      var i := 0;
      while i < |cards|
        invariant 0 <= i <= |cards|
        invariant totalCardCounter == Count(Snapshot()[..i], team, false)
        invariant revealedCardCounter == Count(Snapshot()[..i], team, true)
      {
        assert Snapshot()[..i + 1][..i] == Snapshot()[..i];
        var c := cards[i];
        if c.team == team {
          totalCardCounter := totalCardCounter + 1;
          if c.visibleTeam == team {
            revealedCardCounter := revealedCardCounter + 1;
          }
        }
        i := i + 1;
      }
      assert Snapshot()[..i] == Snapshot();
      remaining := totalCardCounter - revealedCardCounter;
    }

    /** setBoardIndices: positions 1, 2, ... in list order; nothing else changes. */
    method SetBoardIndices()
      requires Distinct()
      modifies cards
      ensures Snapshot() == Indexed(old(Snapshot()))
    {
      var counter := 1;
      var i := 0;
      while i < |cards|
        invariant 0 <= i <= |cards| && counter == i + 1
        invariant forall j :: 0 <= j < i ==> cards[j].Value() == old(cards[j].Value()).(index := j + 1)
        invariant forall j :: i <= j < |cards| ==> cards[j].Value() == old(cards[j].Value())
      {
        cards[i].SetIndex(counter);
        counter := counter + 1;
        i := i + 1;
      }
    }

    method SetCurrentTeam(team: string)
      modifies this
      ensures Value() == old(Value()).(currentTeam := team)
      ensures cards == old(cards) && dictionary == old(dictionary)
    {
      currentTeam := team;
    }

    method SetCurrentPlayer(player: string)
      modifies this
      ensures Value() == old(Value()).(currentPlayer := player)
      ensures cards == old(cards) && dictionary == old(dictionary)
    {
      currentPlayer := player;
    }

    function ToJson(): Object
      reads this, cards
    {
      BoardJson(Value())
    }
  }

  /** No element sits at two positions. */
  predicate AllDistinct<T(==)>(s: seq<T>) {
    forall i, j :: 0 <= i < j < |s| ==> s[i] != s[j]
  }

  lemma DistinctAppend<T>(s: seq<T>, x: T)
    requires AllDistinct(s) && x !in s
    ensures AllDistinct(s + [x])
  {
  }

  lemma DistinctPrefix<T>(s: seq<T>, t: seq<T>)
    ensures AllDistinct(s + t) ==> AllDistinct(s)
  {
    if AllDistinct(s + t) {
      assert forall i :: 0 <= i < |s| ==> (s + t)[i] == s[i];
    }
  }

  /** A permutation of a list without repeated elements has none either. */
  lemma DistinctPermutation<T>(a: seq<T>, b: seq<T>)
    requires multiset(a) == multiset(b)
    requires AllDistinct(a)
    ensures AllDistinct(b)
  {
    forall x | x in multiset(a) ensures multiset(a)[x] == 1 {
      MultiplicityOne(a, x);
    }
    forall i, j | 0 <= i < j < |b| ensures b[i] != b[j] {
      Repeated(b, i, j);
    }
  }

  /** An element found at two positions occurs at least twice in the multiset. */
  lemma Repeated<T>(b: seq<T>, i: int, j: int)
    requires 0 <= i < j < |b|
    ensures b[i] == b[j] ==> multiset(b)[b[i]] >= 2
  {
    assert b == b[..i] + [b[i]] + b[i + 1..j] + [b[j]] + b[j + 1..];
  }

  lemma {:induction false} MultiplicityOne<T>(a: seq<T>, x: T)
    requires AllDistinct(a)
    requires x in a
    ensures multiset(a)[x] == 1
    decreases |a|
  {
    var a' := a[..|a| - 1];
    assert a == a' + [a[|a| - 1]];
    if x == a[|a| - 1] {
      assert x !in a';
    } else {
      MultiplicityOne(a', x);
    }
  }
}
