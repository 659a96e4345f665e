/** model.Card: a word, its true team, the team shown to the operatives ("?" while hidden) and a 1-based position. */
module Cards {
  import opened Names
  import opened Json

  /** The four fields of a card, as a value. */
  datatype CardValue = CardValue(word: string, team: string, visibleTeam: string, index: int)

  /** isVisibleTeam: the card has been played. */
  predicate IsVisible(v: CardValue) {
    v.visibleTeam != HIDDEN
  }

  /** The effect of makeVisibleTeam on a card's value. */
  function Revealed(v: CardValue): (r: CardValue)
    ensures r.word == v.word && r.team == v.team && r.index == v.index
    ensures r.visibleTeam == v.team
    ensures v.team != HIDDEN ==> IsVisible(r)
  {
    v.(visibleTeam := v.team)
  }

  /** Card.toJson: exactly the four keys, carrying the field values. */
  function CardJson(v: CardValue): (o: Object)
    ensures o.Keys == {"word", "team", "visibleTeam", "index"}
  {
    map["word" := Str(v.word), "team" := Str(v.team),
        "visibleTeam" := Str(v.visibleTeam), "index" := Int(v.index)]
  }

  /** A second reveal changes nothing. */
  lemma RevealIdempotent(v: CardValue)
    ensures Revealed(Revealed(v)) == Revealed(v)
  {
  }

  class Card {
    var word: string
    var team: string
    var visibleTeam: string
    var index: int

    function Value(): CardValue
      reads this
    {
      CardValue(word, team, visibleTeam, index)
    }

    /** Card(givenWord, givenTeam): a hidden card at index 0. */
    constructor (givenWord: string, givenTeam: string)
      ensures Value() == CardValue(givenWord, givenTeam, HIDDEN, 0)
      ensures !IsVisibleTeam()
    {
      word := givenWord;
      team := givenTeam;
      visibleTeam := HIDDEN;
      index := 0;
    }

    /** Card(word, team, visibleTeam, index): a card restored from a saved game. */
    constructor Load(word: string, team: string, visibleTeam: string, index: int)
      ensures Value() == CardValue(word, team, visibleTeam, index)
    {
      this.word := word;
      this.team := team;
      this.visibleTeam := visibleTeam;
      this.index := index;
    }

    predicate IsVisibleTeam()
      reads this
    {
      IsVisible(Value())
    }

    method SetIndex(index: int)
      modifies this
      ensures Value() == old(Value()).(index := index)
    {
      this.index := index;
    }

    method MakeVisibleTeam()
      modifies this
      ensures Value() == Revealed(old(Value()))
    {
      visibleTeam := team;
    }

    function ToJson(): Object
      reads this
    {
      CardJson(Value())
    }
  }
}
