/** The value-level rules of a race session (static/javaScript/GameManager.js):
    the game-state record and its phases, the player information read from the
    page URL, the distance read-out, the choice of the winner, and pausing. */
module Race {
  import opened Util
  import opened Config
  import opened Wire

  /** gameState.current. */
  datatype Phase = Loading | Ready | Countdown | Playing | Finished | Destroyed

  /** The gameState record. winner is the index of the winning boat; startTime is Date.now() at the start. */
  datatype GameState = GameState(
    current: Phase,
    isRunning: bool,
    isPaused: bool,
    gameWon: bool,
    winner: Option<nat>,
    startTime: Option<int>)

  /** The record the game manager starts with. */
  const INITIAL_STATE: GameState := GameState(Loading, false, false, false, None, None)

  /** The record restart and handleGameRestart put in place. */
  const RESET_STATE: GameState := GameState(Ready, false, false, false, None, None)

  /** Game logic (input, camera, read-out, win check) runs in a frame only in this case. */
  predicate Runs(s: GameState)
  {
    s.current == Playing && !s.isPaused
  }

  /** togglePause: only a game that is playing can be paused or resumed. */
  function TogglePause(s: GameState): GameState
  {
    if s.current == Playing then s.(isPaused := !s.isPaused) else s
  }

  lemma TogglePauseTwice(s: GameState)
    ensures TogglePause(TogglePause(s)) == s
  {
  }

  lemma TogglePauseOnlyWhilePlaying(s: GameState)
    ensures s.current != Playing ==> TogglePause(s) == s
    ensures s.current == Playing ==> TogglePause(s) == s.(isPaused := !s.isPaused)
  {
  }

  datatype Player = Player(name: string, phone: string)
  datatype PlayerInfo = PlayerInfo(player1: Player, player2: Player)

  /** urlParams.get(key) || fallback. */
  function ParamOr(query: seq<(string, string)>, key: string, fallback: string): (r: string)
    ensures QueryGet(query, key).Some? && QueryGet(query, key).value != "" ==> r == QueryGet(query, key).value
    ensures QueryGet(query, key).None? || QueryGet(query, key).value == "" ==> r == fallback
  {
    match QueryGet(query, key)
    case Some(v) => if v != "" then v else fallback
    case None => fallback
  }

  /** extractPlayerInfo: names and phones from the page's query string; a missing or empty
      name becomes "Player 1"/"Player 2", a missing or empty phone "". */
  function ExtractPlayerInfo(query: seq<(string, string)>): (info: PlayerInfo)
    ensures info.player1.name != "" && info.player2.name != ""
    ensures QueryGet(query, "player1_name").None? ==> info.player1.name == "Player 1"
    ensures QueryGet(query, "player2_name").None? ==> info.player2.name == "Player 2"
    ensures QueryGet(query, "player1_phone").None? ==> info.player1.phone == ""
    ensures QueryGet(query, "player2_phone").None? ==> info.player2.phone == ""
    ensures forall v :: QueryGet(query, "player1_name") == Some(v) && v != "" ==> info.player1.name == v
    ensures forall v :: QueryGet(query, "player2_name") == Some(v) && v != "" ==> info.player2.name == v
    ensures forall v :: QueryGet(query, "player1_phone") == Some(v) ==> info.player1.phone == v
    ensures forall v :: QueryGet(query, "player2_phone") == Some(v) ==> info.player2.phone == v
  {
    PlayerInfo(
      Player(ParamOr(query, "player1_name", "Player 1"), ParamOr(query, "player1_phone", "")),
      Player(ParamOr(query, "player2_name", "Player 2"), ParamOr(query, "player2_phone", "")))
  }

  const RIGHT_BOAT_SUFFIX: string := " (Right Boat)"
  const LEFT_BOAT_SUFFIX: string := " (Left Boat)"

  /** getPlayerNames: player 1 rows the right-hand boat label, player 2 the left-hand one. */
  function PlayerNames(info: PlayerInfo): (names: seq<string>)
    ensures |names| == 2
    ensures StartsWith(names[0], info.player1.name) && StartsWith(names[1], info.player2.name)
    ensures names[0][|info.player1.name|..] == RIGHT_BOAT_SUFFIX
    ensures names[1][|info.player2.name|..] == LEFT_BOAT_SUFFIX
  {
    var n0 := info.player1.name + RIGHT_BOAT_SUFFIX;
    var n1 := info.player2.name + LEFT_BOAT_SUFFIX;
    assert n0[..|info.player1.name|] == info.player1.name;
    assert n1[..|info.player2.name|] == info.player2.name;
    [n0, n1]
  }

  /** The metres shown for a boat at z: Math.max(0, Math.round(RACE_DISTANCE - (z + 75))). */
  function DisplayDistance(z: real): (d: int)
    ensures d >= 0
  {
    MaxInt(0, JsRound(RACE_DISTANCE - (z + 75.0)))
  }

  /** The read-out is the distance still to row to the finish line, rounded and never negative. */
  lemma DistanceIsRemaining(z: real)
    ensures DisplayDistance(z) == MaxInt(0, JsRound(FINISH_LINE_Z - z))
    ensures DisplayDistance(START_POSITION_Z) == 150
    ensures z >= FINISH_LINE_Z ==> DisplayDistance(z) == 0
  {
    assert RACE_DISTANCE - (z + 75.0) == FINISH_LINE_Z - z;
  }

  lemma JsRoundMonotone(a: real, b: real)
    requires a <= b
    ensures JsRound(a) <= JsRound(b)
  {
  }

  /** A boat further down the river never shows a larger distance. */
  lemma DistanceMonotone(z1: real, z2: real)
    requires z1 <= z2
    ensures DisplayDistance(z2) <= DisplayDistance(z1)
  {
    JsRoundMonotone(RACE_DISTANCE - (z2 + 75.0), RACE_DISTANCE - (z1 + 75.0));
  }

  /** checkWinCondition on boats at z0 and z1: boat 0 is examined first, so it wins a tie. */
  function WinnerOf(z0: real, z1: real): (w: Option<nat>)
    ensures w == Some(0) <==> z0 >= FINISH_LINE_Z
    ensures w == Some(1) <==> z0 < FINISH_LINE_Z <= z1
    ensures w == None <==> z0 < FINISH_LINE_Z && z1 < FINISH_LINE_Z
  {
    if z0 >= FINISH_LINE_Z then Some(0)
    else if z1 >= FINISH_LINE_Z then Some(1)
    else None
  }

  /** The text shown for a player's distance: the name, a colon, the metres in decimal
      (with a minus sign when negative) and a final "m". */
  function DistanceText(name: string, metres: int): (t: string)
    ensures |t| >= |name| + 4 && t[..|name| + 2] == name + ": " && t[|t| - 1] == 'm'
    ensures t[|name| + 2..|t| - 1] == IntToString(metres)
  {
    var t := name + ": " + IntToString(metres) + "m";
    assert t[..|name| + 2] == name + ": ";
    assert t[|name| + 2..|t| - 1] == IntToString(metres);
    t
  }

  /** The digits of a distance text read back as the metres shown. */
  lemma DistanceTextReadsBack(name: string, metres: int)
    ensures var t := DistanceText(name, metres); var digits := t[|name| + 2..|t| - 1];
      (metres >= 0 ==> (forall i :: 0 <= i < |digits| ==> '0' <= digits[i] <= '9') && DigitsValue(digits) == metres) &&
      (metres < 0 ==> digits[0] == '-' && (forall i :: 1 <= i < |digits| ==> '0' <= digits[i] <= '9') &&
                      DigitsValue(digits[1..]) == -metres)
  {
    IntToStringRoundTrip(metres);
  }

  const WINNER_PREFIX: string := "🏆 "
  const WINNER_SUFFIX: string := " Wins! 🏆"

  /** The winner banner: the winner's name between a trophy and " Wins!" with a trophy. */
  function WinnerText(name: string): (t: string)
    ensures |t| == |WINNER_PREFIX| + |name| + |WINNER_SUFFIX|
    ensures t[..|WINNER_PREFIX|] == WINNER_PREFIX && t[|t| - |WINNER_SUFFIX|..] == WINNER_SUFFIX
    ensures t[|WINNER_PREFIX|..|t| - |WINNER_SUFFIX|] == name
  {
    var t := WINNER_PREFIX + name + WINNER_SUFFIX;
    assert t[..|WINNER_PREFIX|] == WINNER_PREFIX;
    assert t[|t| - |WINNER_SUFFIX|..] == WINNER_SUFFIX;
    assert t[|WINNER_PREFIX|..|t| - |WINNER_SUFFIX|] == name;
    t
  }

  /** Different winners get different banners. */
  lemma WinnerTextInjective(a: string, b: string)
    requires WinnerText(a) == WinnerText(b)
    ensures a == b
  {
    var t := WinnerText(a);
    assert a == t[|WINNER_PREFIX|..|t| - |WINNER_SUFFIX|];
  }
}
