/** model.Spymaster and model.Operative: one per team, holding the clue and the score. */
module Roles {
  import opened Names
  import opened Json
  import opened Wrappers

  datatype SpymasterValue = SpymasterValue(team: string, hint: string, guesses: int)

  datatype OperativeValue = OperativeValue(team: string, score: int)

  /** The keys Spymaster.toJson and parseSpymaster use for a team: "red"-prefixed for the team
      named exactly RED, "blue"-prefixed for any other. */
  function SpymasterNameKey(team: string): string {
    if team == RED then "redSpymasterTeamName" else "blueSpymasterTeamName"
  }

  function SpymasterHintKey(team: string): string {
    if team == RED then "redSpymasterHint" else "blueSpymasterHint"
  }

  function SpymasterGuessesKey(team: string): string {
    if team == RED then "redSpymasterGuesses" else "blueSpymasterGuesses"
  }

  /** The keys Operative.toJson and parseOperative use for a team, prefixed as for the spymaster. */
  function OperativeNameKey(team: string): string {
    if team == RED then "redOperativeTeamName" else "blueOperativeTeamName"
  }

  function OperativeScoreKey(team: string): string {
    if team == RED then "redOperativeScore" else "blueOperativeScore"
  }

  /** The keys Spymaster.toJson writes for a team. */
  function SpymasterKeys(team: string): set<string> {
    {SpymasterNameKey(team), SpymasterHintKey(team), SpymasterGuessesKey(team)}
  }

  /** The keys Operative.toJson writes for a team. */
  function OperativeKeys(team: string): set<string> {
    {OperativeNameKey(team), OperativeScoreKey(team)}
  }

  /** Spymaster.toJson: exactly the team's three keys, holding the team name, the hint and the
      guess budget, each readable back with the getter of its type. */
  function SpymasterJson(v: SpymasterValue): (o: Object)
    ensures o.Keys == SpymasterKeys(v.team) && |o| == 3
    ensures GetString(o, SpymasterNameKey(v.team)) == Some(v.team)
    ensures GetString(o, SpymasterHintKey(v.team)) == Some(v.hint)
    ensures GetInt(o, SpymasterGuessesKey(v.team)) == Some(v.guesses)
  {
    if v.team == RED then
      map["redSpymasterTeamName" := Str(v.team), "redSpymasterHint" := Str(v.hint),
          "redSpymasterGuesses" := Int(v.guesses)]
    else
      map["blueSpymasterTeamName" := Str(v.team), "blueSpymasterHint" := Str(v.hint),
          "blueSpymasterGuesses" := Int(v.guesses)]
  }

  /** Operative.toJson: exactly the team's two keys, holding the team name and the score. */
  function OperativeJson(v: OperativeValue): (o: Object)
    ensures o.Keys == OperativeKeys(v.team) && |o| == 2
    ensures GetString(o, OperativeNameKey(v.team)) == Some(v.team)
    ensures GetInt(o, OperativeScoreKey(v.team)) == Some(v.score)
  {
    if v.team == RED then
      map["redOperativeTeamName" := Str(v.team), "redOperativeScore" := Int(v.score)]
    else
      map["blueOperativeTeamName" := Str(v.team), "blueOperativeScore" := Int(v.score)]
  }

  /** A red and a non-red role write disjoint key sets, and no spymaster key is an operative key,
      so the four role objects of a game never overwrite each other when merged. */
  lemma RoleKeysDisjoint(red: string, blue: string)
    requires red == RED && blue != RED
    ensures SpymasterKeys(red) !! SpymasterKeys(blue)
    ensures OperativeKeys(red) !! OperativeKeys(blue)
    ensures SpymasterKeys(red) + SpymasterKeys(blue) !! OperativeKeys(red) + OperativeKeys(blue)
  {
  }

  class Spymaster {
    var teamName: string
    var hint: string
    var guesses: int

    function Value(): SpymasterValue
      reads this
    {
      SpymasterValue(teamName, hint, guesses)
    }

    /** A new spymaster: no clue yet and no guesses. */
    constructor (team: string)
      ensures Value() == SpymasterValue(team, "", 0)
    {
      teamName := team;
      hint := "";
      guesses := 0;
    }

    constructor Load(team: string, hint: string, guesses: int)
      ensures Value() == SpymasterValue(team, hint, guesses)
    {
      teamName := team;
      this.hint := hint;
      this.guesses := guesses;
    }

    method SetHint(givenHint: string)
      modifies this
      ensures Value() == old(Value()).(hint := givenHint)
    {
      hint := givenHint;
    }

    method SetGuesses(givenGuesses: int)
      modifies this
      ensures Value() == old(Value()).(guesses := givenGuesses)
    {
      guesses := givenGuesses;
    }

    /** One guess fewer; nothing stops the count going below zero. */
    method DecrementGuesses()
      modifies this
      ensures Value() == old(Value()).(guesses := old(guesses) - 1)
    {
      guesses := guesses - 1;
    }

    function ToJson(): Object
      reads this
    {
      SpymasterJson(Value())
    }
  }

  class Operative {
    var teamName: string
    var teamScore: int

    function Value(): OperativeValue
      reads this
    {
      OperativeValue(teamName, teamScore)
    }

    constructor (team: string)
      ensures Value() == OperativeValue(team, 0)
    {
      teamName := team;
      teamScore := 0;
    }

    constructor Load(team: string, score: int)
      ensures Value() == OperativeValue(team, score)
    {
      teamName := team;
      teamScore := score;
    }

    method IncrementScore()
      modifies this
      ensures Value() == old(Value()).(score := old(teamScore) + 1)
    {
      teamScore := teamScore + 1;
    }

    function ToJson(): Object
      reads this
    {
      OperativeJson(Value())
    }
  }
}
