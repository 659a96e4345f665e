/** persistence.JsonReader: rebuilding the board and the players from the saved object. Every
    field is read with getString/getInt/getJSONArray, which throw on a missing key or a value
    of the wrong kind; a thrown read is None here. */
module Reader {
  import opened Wrappers
  import opened Names
  import opened Json
  import opened Cards
  import opened Boards
  import opened Roles
  import opened Writer

  /** addCard's reads: a card object's four fields, verbatim. An array element that is not an
      object fails the cast. */
  function DecodeCard(v: Value): (r: Option<CardValue>)
    ensures r.Some? <==> v.Obj? && GetString(v.fields, "word").Some? && GetString(v.fields, "team").Some?
                         && GetString(v.fields, "visibleTeam").Some? && GetInt(v.fields, "index").Some?
    ensures r.Some? ==> r.value == CardValue(GetString(v.fields, "word").value,
                                             GetString(v.fields, "team").value,
                                             GetString(v.fields, "visibleTeam").value,
                                             GetInt(v.fields, "index").value)
  {
    if !v.Obj? then None
    else
      var o := v.fields;
      match (GetString(o, "word"), GetString(o, "team"), GetString(o, "visibleTeam"), GetInt(o, "index"))
      case (Some(word), Some(team), Some(visibleTeam), Some(index)) =>
        Some(CardValue(word, team, visibleTeam, index))
      case _ => None
  }

  /** addCards' loop: the cards of the array in array order, or None at the first bad element. */
  function DecodeCards(items: seq<Value>): (r: Option<seq<CardValue>>)
    ensures r.Some? <==> forall i :: 0 <= i < |items| ==> DecodeCard(items[i]).Some?
    ensures r.Some? ==> |r.value| == |items|
                        && forall i :: 0 <= i < |items| ==> r.value[i] == DecodeCard(items[i]).value
    decreases |items|
  {
    if items == [] then Some([])
    else
      var init := items[..|items| - 1];
      assert forall i :: 0 <= i < |init| ==> init[i] == items[i];
      match (DecodeCards(init), DecodeCard(items[|items| - 1]))
      case (Some(cards), Some(card)) => Some(cards + [card])
      case _ => None
  }

  /** parseBoard: the five fields go verbatim to the load constructor, then the cards. */
  function DecodeBoard(o: Object): (r: Option<BoardValue>)
  {
    match (GetString(o, "startingTeam"), GetString(o, "currentTeam"), GetString(o, "currentPlayer"),
           GetInt(o, "numRedCards"), GetInt(o, "numBlueCards"))
    case (Some(startingTeam), Some(currentTeam), Some(currentPlayer), Some(numRed), Some(numBlue)) =>
      (match GetArray(o, "cards")
       case Some(items) =>
         (match DecodeCards(items)
          case Some(cards) =>
            Some(BoardValue(startingTeam, currentTeam, currentPlayer, numRed, numBlue, cards))
          case None => None)
       case None => None)
    case _ => None
  }

  /** parseSpymaster: the red-prefixed keys when `team` is RED, the blue-prefixed ones otherwise. */
  function DecodeSpymaster(o: Object, team: string): (r: Option<SpymasterValue>)
  {
    var fields := if team == RED then
        (GetString(o, "redSpymasterTeamName"), GetString(o, "redSpymasterHint"),
         GetInt(o, "redSpymasterGuesses"))
      else
        (GetString(o, "blueSpymasterTeamName"), GetString(o, "blueSpymasterHint"),
         GetInt(o, "blueSpymasterGuesses"));
    match fields
    case (Some(teamName), Some(hint), Some(guesses)) => Some(SpymasterValue(teamName, hint, guesses))
    case _ => None
  }

  /** parseOperative: the red-prefixed keys when `team` is RED, the blue-prefixed ones otherwise. */
  function DecodeOperative(o: Object, team: string): (r: Option<OperativeValue>)
  {
    var fields := if team == RED then
        (GetString(o, "redOperativeTeamName"), GetInt(o, "redOperativeScore"))
      else
        (GetString(o, "blueOperativeTeamName"), GetInt(o, "blueOperativeScore"));
    match fields
    case (Some(teamName), Some(score)) => Some(OperativeValue(teamName, score))
    case _ => None
  }

  // ---- Round trips ----

  lemma CardRoundTrip(c: CardValue)
    ensures DecodeCard(Obj(CardJson(c))) == Some(c)
  {
    var o := CardJson(c);
    assert o["word"] == Str(c.word) && o["team"] == Str(c.team);
    assert o["visibleTeam"] == Str(c.visibleTeam) && o["index"] == Int(c.index);
  }

  lemma CardsRoundTrip(cards: seq<CardValue>)
    ensures DecodeCards(CardsJson(cards)) == Some(cards)
  {
    var items := CardsJson(cards);
    forall i | 0 <= i < |items| ensures DecodeCard(items[i]) == Some(cards[i]) {
      CardRoundTrip(cards[i]);
    }
    assert DecodeCards(items).value == cards;
  }

  lemma BoardRoundTrip(b: BoardValue)
    ensures DecodeBoard(BoardJson(b)) == Some(b)
  {
    CardsRoundTrip(b.cards);
  }

  lemma SpymasterRoundTrip(s: SpymasterValue, team: string)
    requires team == RED <==> s.team == RED
    ensures DecodeSpymaster(SpymasterJson(s), team) == Some(s)
  {
  }

  lemma OperativeRoundTrip(p: OperativeValue, team: string)
    requires team == RED <==> p.team == RED
    ensures DecodeOperative(OperativeJson(p), team) == Some(p)
  {
  }

  /** Save then load: from the merged object of a board and one RED and one non-RED spymaster
      and operative, parseBoard, parseSpymaster and parseOperative rebuild exactly what was
      written: the board with its teams, player role, card counts and every card, and each
      player's team name, hint, guesses and score. */
  lemma SaveLoadRoundTrip(b: BoardValue, rs: SpymasterValue, bs: SpymasterValue,
                          ro: OperativeValue, bo: OperativeValue)
    requires rs.team == RED && bs.team != RED && ro.team == RED && bo.team != RED
    ensures var saved := Merged(BoardJson(b), SpymasterJson(rs), SpymasterJson(bs),
                                OperativeJson(ro), OperativeJson(bo));
      && DecodeBoard(saved) == Some(b)
      && DecodeSpymaster(saved, RED) == Some(rs) && DecodeSpymaster(saved, BLUE) == Some(bs)
      && DecodeOperative(saved, RED) == Some(ro) && DecodeOperative(saved, BLUE) == Some(bo)
  {
    SavedObject(b, rs, bs, ro, bo);
    var saved := Merged(BoardJson(b), SpymasterJson(rs), SpymasterJson(bs),
                        OperativeJson(ro), OperativeJson(bo));
    BoardRoundTrip(b);
    ReadsAgree(saved, BoardJson(b));
    SpymasterRoundTrip(rs, RED);
    SpymasterRoundTrip(bs, BLUE);
    OperativeRoundTrip(ro, RED);
    OperativeRoundTrip(bo, BLUE);
    SpymasterReadsAgree(saved, SpymasterJson(rs), RED);
    SpymasterReadsAgree(saved, SpymasterJson(bs), BLUE);
    OperativeReadsAgree(saved, OperativeJson(ro), RED);
    OperativeReadsAgree(saved, OperativeJson(bo), BLUE);
  }

  /** parseBoard reads only the six board keys: a larger object agreeing on them reads alike. */
  lemma ReadsAgree(big: Object, small: Object)
    requires forall k :: k in small ==> k in big && big[k] == small[k]
    requires DecodeBoard(small).Some?
    ensures DecodeBoard(big) == DecodeBoard(small)
  {
  }

  lemma SpymasterReadsAgree(big: Object, small: Object, team: string)
    requires forall k :: k in small ==> k in big && big[k] == small[k]
    requires DecodeSpymaster(small, team).Some?
    ensures DecodeSpymaster(big, team) == DecodeSpymaster(small, team)
  {
  }

  lemma OperativeReadsAgree(big: Object, small: Object, team: string)
    requires forall k :: k in small ==> k in big && big[k] == small[k]
    requires DecodeOperative(small, team).Some?
    ensures DecodeOperative(big, team) == DecodeOperative(small, team)
  {
  }

  // ---- The reader's methods ----

  /** addCard: read the four fields, then append a new card holding them. */
  method AddCard(bd: Board, json: Value) returns (ok: bool)
    modifies bd
    ensures ok <==> DecodeCard(json).Some?
    ensures ok ==> |bd.cards| == old(|bd.cards|) + 1 && fresh(bd.cards[old(|bd.cards|)])
    ensures ok ==> bd.cards[..old(|bd.cards|)] == old(bd.cards)
    ensures ok ==> bd.Snapshot() == old(bd.Snapshot()) + [DecodeCard(json).value]
    ensures ok ==> bd.Distinct() == old(bd.Distinct())
    ensures !ok ==> bd.cards == old(bd.cards)
    ensures bd.Header() == old(bd.Header())
  {
    if !json.Obj? {
      return false;
    }
    var o := json.fields;
    var word := GetString(o, "word");
    var team := GetString(o, "team");
    var visibleTeam := GetString(o, "visibleTeam");
    var index := GetInt(o, "index");
    if word.None? || team.None? || visibleTeam.None? || index.None? {
      return false;
    }
    var card := new Card.Load(word.value, team.value, visibleTeam.value, index.value);
    bd.AddCard(card);
    return true;
  }

  /** Decoding one more element appends its card. */
  lemma DecodeCardsStep(items: seq<Value>, i: int)
    requires 0 <= i < |items| && DecodeCards(items[..i]).Some? && DecodeCard(items[i]).Some?
    ensures DecodeCards(items[..i + 1]) == Some(DecodeCards(items[..i]).value + [DecodeCard(items[i]).value])
  {
    assert items[..i + 1][..i] == items[..i];
  }

  /** addCards: every element of the "cards" array, in order, through addCard. */
  method AddCards(bd: Board, o: Object) returns (ok: bool)
    modifies bd
    ensures ok <==> GetArray(o, "cards").Some? && DecodeCards(GetArray(o, "cards").value).Some?
    ensures ok ==> bd.Snapshot() == old(bd.Snapshot()) + DecodeCards(GetArray(o, "cards").value).value
    ensures ok ==> (old(bd.Distinct()) ==> bd.Distinct())
    ensures bd.Header() == old(bd.Header())
  {
    var jsonArray := GetArray(o, "cards");
    if jsonArray.None? {
      return false;
    }
    var items := jsonArray.value;
    var i := 0;
    while i < |items|
      invariant 0 <= i <= |items|
      invariant DecodeCards(items[..i]).Some?
      invariant bd.Snapshot() == old(bd.Snapshot()) + DecodeCards(items[..i]).value
      invariant old(bd.Distinct()) ==> bd.Distinct()
      invariant bd.Header() == old(bd.Header())
    {
      ghost var before := bd.Snapshot();
      var added := AddCard(bd, items[i]);
      if !added {
        assert !DecodeCards(items).Some? by {
          assert DecodeCard(items[i]).None?;
        }
        return false;
      }
      DecodeCardsStep(items, i);
      assert bd.Snapshot() == before + [DecodeCard(items[i]).value];
      i := i + 1;
    }
    assert items[..i] == items;
    return true;
  }

  /** parseBoard: a new board from the saved object, or None where a read throws. */
  method ParseBoard(o: Object) returns (r: Option<Board>)
    ensures r.Some? <==> DecodeBoard(o).Some?
    ensures r.Some? ==> fresh(r.value) && r.value.Distinct() && r.value.Value() == DecodeBoard(o).value
  {
    var startingTeam := GetString(o, "startingTeam");
    var currentTeam := GetString(o, "currentTeam");
    var currentPlayer := GetString(o, "currentPlayer");
    var numRedCards := GetInt(o, "numRedCards");
    var numBlueCards := GetInt(o, "numBlueCards");
    if startingTeam.None? || currentTeam.None? || currentPlayer.None? || numRedCards.None?
       || numBlueCards.None? {
      return None;
    }
    var bd := new Board.Load(startingTeam.value, currentTeam.value, currentPlayer.value,
                             numRedCards.value, numBlueCards.value);
    var ok := AddCards(bd, o);
    if !ok {
      return None;
    }
    return Some(bd);
  }

  /** parseSpymaster. */
  method ParseSpymaster(o: Object, team: string) returns (r: Option<Spymaster>)
    ensures r.Some? <==> DecodeSpymaster(o, team).Some?
    ensures r.Some? ==> fresh(r.value) && r.value.Value() == DecodeSpymaster(o, team).value
  {
    var teamName, hint, guesses;
    if team == RED {
      teamName := GetString(o, "redSpymasterTeamName");
      hint := GetString(o, "redSpymasterHint");
      guesses := GetInt(o, "redSpymasterGuesses");
    } else {
      teamName := GetString(o, "blueSpymasterTeamName");
      hint := GetString(o, "blueSpymasterHint");
      guesses := GetInt(o, "blueSpymasterGuesses");
    }
    if teamName.None? || hint.None? || guesses.None? {
      return None;
    }
    var s := new Spymaster.Load(teamName.value, hint.value, guesses.value);
    return Some(s);
  }

  /** parseOperative. */
  method ParseOperative(o: Object, team: string) returns (r: Option<Operative>)
    ensures r.Some? <==> DecodeOperative(o, team).Some?
    ensures r.Some? ==> fresh(r.value) && r.value.Value() == DecodeOperative(o, team).value
  {
    var teamName, score;
    if team == RED {
      teamName := GetString(o, "redOperativeTeamName");
      score := GetInt(o, "redOperativeScore");
    } else {
      teamName := GetString(o, "blueOperativeTeamName");
      score := GetInt(o, "blueOperativeScore");
    }
    if teamName.None? || score.None? {
      return None;
    }
    var p := new Operative.Load(teamName.value, score.value);
    return Some(p);
  }
}
