/** The string constants of the game (public statics of model.Board) and the two-team cycle. */
module Names {
  const RED := "RED"
  const BLUE := "BLUE"
  const NEUTRAL := "NEUTRAL"
  const ASSASSIN := "ASSASSIN"
  /** visibleTeam of a card that has not been played yet */
  const HIDDEN := "?"
  const SPYMASTER := "SPYMASTER"
  const OPERATIVE := "OPERATIVE"

  const NUM_CARDS := 25
  const NUM_CARDS_TEAM0 := 9
  const NUM_CARDS_TEAM1 := 8
  const NUM_CARDS_NEUTRAL := 7
  const NUM_CARDS_ASSASSIN := 1

  /** nextTeam in both controllers: RED hands over to BLUE, anything else to RED. */
  function OtherTeam(team: string): (r: string)
    ensures r == RED || r == BLUE
    ensures r == RED <==> team != RED
  {
    if team == RED then BLUE else RED
  }

  /** updatePlayer in the GUI: SPYMASTER becomes OPERATIVE, anything else SPYMASTER. */
  function OtherPlayer(player: string): (r: string)
    ensures r == SPYMASTER || r == OPERATIVE
    ensures r == OPERATIVE <==> player == SPYMASTER
  {
    if player == SPYMASTER then OPERATIVE else SPYMASTER
  }

  /** String.toUpperCase restricted to ASCII letters. */
  function ToUpper(s: string): (r: string)
    ensures |r| == |s|
    ensures forall i :: 0 <= i < |s| && 'a' <= s[i] <= 'z' ==> r[i] == (s[i] as int - 32) as char
    ensures forall i :: 0 <= i < |s| && !('a' <= s[i] <= 'z') ==> r[i] == s[i]
  {
    seq(|s|, i requires 0 <= i < |s| =>
      if 'a' <= s[i] <= 'z' then (s[i] as int - 32) as char else s[i])
  }

  lemma OtherTeamCycle(team: string)
    requires team == RED || team == BLUE
    ensures OtherTeam(team) != team
    ensures OtherTeam(OtherTeam(team)) == team
  {
  }

  lemma OtherPlayerCycle(player: string)
    ensures OtherPlayer(OtherPlayer(player)) in {SPYMASTER, OPERATIVE}
    ensures player in {SPYMASTER, OPERATIVE} ==> OtherPlayer(OtherPlayer(player)) == player
  {
  }
}
