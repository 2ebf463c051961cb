/** Value types shared by the game: round states, difficulties, players,
    settings, statistics, and the constant difficulty and player tables. */
module GameTypes {

  datatype Option<T> = None | Some(value: T)

  /** The state of a round. */
  datatype GameState = Idle | Starting | Playing | Paused | Won | Lost | Timeout

  datatype Difficulty = Easy | Medium | Hard | Extreme

  /** A player as the store keeps it. `position` is the store's copy of the
      distance along the runway; `velocity` is in runway units per frame. */
  datatype Player = Player(id: int, position: real, velocity: real, isAlive: bool, isSafe: bool)

  /** The settings type admits 1, 2, 3 or 4 players. */
  type PlayerCount = n: int | 1 <= n <= 4 witness 1

  datatype GameSettings = GameSettings(
    difficulty: Difficulty,
    playerCount: PlayerCount,
    soundEnabled: bool,
    musicEnabled: bool,
    volume: real,
    darkMode: bool)

  /** `bestTime` is null until a round has been won. */
  datatype GameStats = GameStats(
    gamesPlayed: int,
    gamesWon: int,
    bestTime: Option<real>,
    totalPlayersEliminated: int)

  /** Per-difficulty parameters: the round length in seconds, the phase
      duration ranges in milliseconds, the speed in units per frame and the
      grace period between an illegal move and its elimination, in ms. */
  datatype DifficultyConfig = DifficultyConfig(
    timeLimit: int,
    greenLightMin: int,
    greenLightMax: int,
    redLightMin: int,
    redLightMax: int,
    playerSpeed: real,
    detectionDelay: int)

  /** The difficulty table. Every preset's phase ranges are positive and
      non-degenerate, and its time limit, speed and detection delay are positive. */
  function Config(d: Difficulty): (c: DifficultyConfig)
    ensures 0 < c.greenLightMin < c.greenLightMax
    ensures 0 < c.redLightMin < c.redLightMax
    ensures c.timeLimit > 0 && c.detectionDelay > 0 && c.playerSpeed > 0.0
  {
    match d
    case Easy => DifficultyConfig(30, 2000, 4000, 1500, 3000, 0.04, 200)
    case Medium => DifficultyConfig(20, 1500, 3000, 1000, 2000, 0.03, 150)
    case Hard => DifficultyConfig(15, 1000, 2000, 750, 1500, 0.025, 100)
    case Extreme => DifficultyConfig(10, 500, 1500, 500, 1000, 0.02, 50)
  }

  /** The order easy, medium, hard, extreme. */
  function Level(d: Difficulty): nat
  {
    match d
    case Easy => 0
    case Medium => 1
    case Hard => 2
    case Extreme => 3
  }

  /** A harder preset has a strictly shorter round, a strictly shorter grace
      period and a strictly lower speed. */
  lemma HarderIsStricter(a: Difficulty, b: Difficulty)
    requires Level(a) < Level(b)
    ensures Config(a).timeLimit > Config(b).timeLimit
    ensures Config(a).detectionDelay > Config(b).detectionDelay
    ensures Config(a).playerSpeed > Config(b).playerSpeed
  {
  }

  datatype PlayerConfig = PlayerConfig(name: string, color: string, move: string)

  const PLAYER_CONFIGS: seq<PlayerConfig> := [
    PlayerConfig("Player 1", "#4ADE80", "ArrowUp"),
    PlayerConfig("Player 2", "#F472B6", "KeyW"),
    PlayerConfig("Player 3", "#60A5FA", "KeyI"),
    PlayerConfig("Player 4", "#FBBF24", "Numpad8")
  ]

  /** There are four player configurations, and no two players share a
      move key. */
  lemma PlayerMoveKeysDistinct()
    ensures |PLAYER_CONFIGS| == 4
    ensures forall i, j :: 0 <= i < j < |PLAYER_CONFIGS| ==> PLAYER_CONFIGS[i].move != PLAYER_CONFIGS[j].move
  {
    assert PLAYER_CONFIGS[1].move[3] != PLAYER_CONFIGS[2].move[3];
  }
}
