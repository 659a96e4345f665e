/** persistence.JsonWriter: the object each model class saves, and the key-union merge that
    folds the board and the four players into the one object the save file holds. */
module Writer {
  import opened Names
  import opened Json
  import opened Cards
  import opened Boards
  import opened Roles

  /** write(Board): the board's own toJson, unchanged. */
  function WriteBoard(bd: Board): (o: Object)
    reads bd, bd.cards
    ensures o == BoardJson(bd.Value())
  {
    bd.ToJson()
  }

  /** write(Spymaster): the spymaster's own toJson, unchanged. */
  function WriteSpymaster(sm: Spymaster): (o: Object)
    reads sm
    ensures o == SpymasterJson(sm.Value())
  {
    sm.ToJson()
  }

  /** write(Operative): the operative's own toJson, unchanged. */
  function WriteOperative(op: Operative): (o: Object)
    reads op
    ensures o == OperativeJson(op.Value())
  {
    op.ToJson()
  }

  /** mergeJson: a new object holding every key of either input; on a shared key the second
      input's value is the one kept, because it is put last. */
  method MergeJson(obj1: Object, obj2: Object) returns (merged: Object)
    ensures merged.Keys == obj1.Keys + obj2.Keys
    ensures forall key :: key in obj2 ==> merged[key] == obj2[key]
    ensures forall key :: key in obj1 && key !in obj2 ==> merged[key] == obj1[key]
  {
    merged := map[];
    var keys1 := obj1.Keys;
    while keys1 != {}
      invariant keys1 <= obj1.Keys
      invariant merged.Keys == obj1.Keys - keys1
      invariant forall key :: key in merged ==> merged[key] == obj1[key]
      decreases keys1
    {
      var key :| key in keys1;
      merged := merged[key := obj1[key]];
      keys1 := keys1 - {key};
    }
    var keys2 := obj2.Keys;
    while keys2 != {}
      invariant keys2 <= obj2.Keys
      invariant merged.Keys == obj1.Keys + (obj2.Keys - keys2)
      invariant forall key :: key in obj2.Keys - keys2 ==> merged[key] == obj2[key]
      invariant forall key :: key in obj1 && key !in obj2.Keys - keys2 ==> merged[key] == obj1[key]
      decreases keys2
    {
      var key :| key in keys2;
      merged := merged[key := obj2[key]];
      keys2 := keys2 - {key};
    }
  }

  /** The object getMergedObject returns: the five inputs merged in the order board, red
      spymaster, blue spymaster, red operative, blue operative, later ones winning. */
  function Merged(board: Object, redSpymaster: Object, blueSpymaster: Object,
                  redOperative: Object, blueOperative: Object): Object
  {
    board + redSpymaster + blueSpymaster + redOperative + blueOperative
  }

  /** getMergedObject: four mergeJson calls. */
  method GetMergedObject(board: Object, redSpymaster: Object, blueSpymaster: Object,
                         redOperative: Object, blueOperative: Object) returns (merged: Object)
    ensures merged == Merged(board, redSpymaster, blueSpymaster, redOperative, blueOperative)
  {
    merged := MergeJson(board, redSpymaster);
    merged := MergeJson(merged, blueSpymaster);
    merged := MergeJson(merged, redOperative);
    merged := MergeJson(merged, blueOperative);
  }

  /** The keys Board.toJson writes. */
  function BoardKeys(): set<string> {
    {"startingTeam", "currentTeam", "currentPlayer", "numRedCards", "numBlueCards", "cards"}
  }

  lemma BoardKeysSize()
    ensures |BoardKeys()| == 6
  {
    var s1: set<string> := {"startingTeam"};
    var s2 := s1 + {"currentTeam"};
    assert |s2| == 2;
    var s3 := s2 + {"currentPlayer"};
    assert |s3| == 3;
    var s4 := s3 + {"numRedCards"};
    assert "numRedCards" !in s3;
    assert |s4| == 4;
    var s5 := s4 + {"numBlueCards"};
    assert "numBlueCards"[3] == 'B';
    assert |s5| == 5;
    var s6 := s5 + {"cards"};
    assert |s6| == 6;
    assert BoardKeys() == s6;
  }

  /** No board key is a player key. */
  lemma BoardKeysApart(red: string, blue: string)
    requires red == RED && blue != RED
    ensures BoardKeys() !! SpymasterKeys(red) + SpymasterKeys(blue) + OperativeKeys(red) + OperativeKeys(blue)
  {
    assert SpymasterKeys(red) + SpymasterKeys(blue) + OperativeKeys(red) + OperativeKeys(blue)
        == {"redSpymasterTeamName", "redSpymasterHint", "redSpymasterGuesses",
            "blueSpymasterTeamName", "blueSpymasterHint", "blueSpymasterGuesses",
            "redOperativeTeamName", "redOperativeScore", "blueOperativeTeamName", "blueOperativeScore"};
  }

  /** mergeJson on two objects with disjoint key sets: both survive whole and the sizes add. */
  lemma MergeDisjoint(a: Object, b: Object)
    requires a.Keys !! b.Keys
    ensures (a + b).Keys == a.Keys + b.Keys && |a + b| == |a| + |b|
    ensures forall k :: k in a ==> (a + b)[k] == a[k]
  {
    assert (a + b).Keys == a.Keys + b.Keys;
    assert |a.Keys + b.Keys| == |a.Keys| + |b.Keys|;
  }

  /** Merging objects with pairwise disjoint key sets loses no key: the sizes add up. */
  lemma MergedSize(a: Object, b: Object, c: Object, d: Object, e: Object)
    requires a.Keys !! b.Keys && a.Keys !! c.Keys && a.Keys !! d.Keys && a.Keys !! e.Keys
    requires b.Keys !! c.Keys && b.Keys !! d.Keys && b.Keys !! e.Keys
    requires c.Keys !! d.Keys && c.Keys !! e.Keys && d.Keys !! e.Keys
    ensures Merged(a, b, c, d, e).Keys == a.Keys + b.Keys + c.Keys + d.Keys + e.Keys
    ensures |Merged(a, b, c, d, e)| == |a| + |b| + |c| + |d| + |e|
  {
    var ab := a + b;
    MergeDisjoint(a, b);
    assert ab.Keys == a.Keys + b.Keys && ab.Keys !! c.Keys;
    var abc := ab + c;
    MergeDisjoint(ab, c);
    assert abc.Keys == a.Keys + b.Keys + c.Keys && abc.Keys !! d.Keys;
    var abcd := abc + d;
    MergeDisjoint(abc, d);
    assert abcd.Keys == a.Keys + b.Keys + c.Keys + d.Keys && abcd.Keys !! e.Keys;
    MergeDisjoint(abcd, e);
    assert Merged(a, b, c, d, e) == abcd + e;
  }

  /** Merging objects with pairwise disjoint key sets overwrites nothing: every key keeps the
      value its own object gave it. */
  lemma MergedValues(a: Object, b: Object, c: Object, d: Object, e: Object)
    requires a.Keys !! b.Keys && a.Keys !! c.Keys && a.Keys !! d.Keys && a.Keys !! e.Keys
    requires b.Keys !! c.Keys && b.Keys !! d.Keys && b.Keys !! e.Keys
    requires c.Keys !! d.Keys && c.Keys !! e.Keys && d.Keys !! e.Keys
    ensures var m := Merged(a, b, c, d, e);
      && (forall k :: k in a ==> m[k] == a[k]) && (forall k :: k in b ==> m[k] == b[k])
      && (forall k :: k in c ==> m[k] == c[k]) && (forall k :: k in d ==> m[k] == d[k])
      && (forall k :: k in e ==> m[k] == e[k])
  {
    var ab := a + b;
    var abc := ab + c;
    var abcd := abc + d;
    assert Merged(a, b, c, d, e) == abcd + e;
    assert forall k :: k in a ==> ab[k] == a[k];
    assert forall k :: k in a || k in b ==> abc[k] == ab[k];
    assert forall k :: k in a || k in b || k in c ==> abcd[k] == abc[k];
  }

  /** The save file of a game whose red players are named RED and whose blue players are not:
      the five key sets are pairwise disjoint, so nothing is overwritten and the merge holds
      6 + 3 + 3 + 2 + 2 = 16 keys, each with the value its own object wrote. */
  lemma SavedObject(b: BoardValue, rs: SpymasterValue, bs: SpymasterValue,
                    ro: OperativeValue, bo: OperativeValue)
    requires rs.team == RED && bs.team != RED && ro.team == RED && bo.team != RED
    ensures var m := Merged(BoardJson(b), SpymasterJson(rs), SpymasterJson(bs),
                            OperativeJson(ro), OperativeJson(bo));
      && |m| == 16
      && m.Keys == BoardKeys() + SpymasterKeys(RED) + SpymasterKeys(bs.team)
                   + OperativeKeys(RED) + OperativeKeys(bo.team)
      && (forall k :: k in BoardJson(b) ==> m[k] == BoardJson(b)[k])
      && (forall k :: k in SpymasterJson(rs) ==> m[k] == SpymasterJson(rs)[k])
      && (forall k :: k in SpymasterJson(bs) ==> m[k] == SpymasterJson(bs)[k])
      && (forall k :: k in OperativeJson(ro) ==> m[k] == OperativeJson(ro)[k])
      && (forall k :: k in OperativeJson(bo) ==> m[k] == OperativeJson(bo)[k])
  {
    var B, SR, SB, OR, OB := BoardJson(b), SpymasterJson(rs), SpymasterJson(bs),
                             OperativeJson(ro), OperativeJson(bo);
    RoleKeysDisjoint(RED, bs.team);
    RoleKeysDisjoint(RED, bo.team);
    BoardKeysApart(RED, bs.team);
    BoardKeysApart(RED, bo.team);
    assert B.Keys == BoardKeys();
    BoardKeysSize();
    assert B.Keys !! SR.Keys && B.Keys !! SB.Keys && B.Keys !! OR.Keys && B.Keys !! OB.Keys;
    assert SR.Keys !! SB.Keys && SR.Keys !! OR.Keys && SR.Keys !! OB.Keys;
    assert SB.Keys !! OR.Keys && SB.Keys !! OB.Keys && OR.Keys !! OB.Keys;
    MergedSize(B, SR, SB, OR, OB);
    MergedValues(B, SR, SB, OR, OB);
  }
}
