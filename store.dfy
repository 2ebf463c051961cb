/** The session store: round state, light phase, clock, players, settings and
    statistics, with the commands that overwrite them. Each per-player command
    is a pure edit of the player list (a `map` over it that touches only the
    players carrying the given id); the store's methods assign its result. */
module GameStore {
  import opened GameTypes

  /** Where the store places a fresh player, and the velocity `movePlayer`
      gives, whatever the difficulty. */
  const START_POSITION: real := 6.0
  const MOVE_VELOCITY: real := 0.03
  const INITIAL_TIME_REMAINING: real := 20.0

  const DEFAULT_SETTINGS: GameSettings := GameSettings(Medium, 1, true, true, 0.7, true)
  const DEFAULT_STATS: GameStats := GameStats(0, 0, None, 0)

  /** A player as created at the start of a round. */
  predicate IsFresh(p: Player)
  {
    p.position == START_POSITION && p.velocity == 0.0 && p.isAlive && !p.isSafe
  }

  predicate UniqueIds(ps: seq<Player>)
  {
    forall i, j :: 0 <= i < j < |ps| ==> ps[i].id != ps[j].id
  }

  /** `count` fresh players numbered 0 to count - 1. */
  function InitialPlayers(count: nat): (ps: seq<Player>)
    ensures |ps| == count
    ensures UniqueIds(ps)
    ensures forall i :: 0 <= i < count ==> ps[i].id == i && IsFresh(ps[i])
  {
    seq(count, i => Player(i, START_POSITION, 0.0, true, false))
  }

  /** The first player carrying `id`, as `players.find` returns it. */
  function FindPlayer(ps: seq<Player>, id: int): (r: Option<Player>)
    ensures r.Some? ==> r.value.id == id
    ensures r.Some? ==> exists i :: 0 <= i < |ps| && ps[i] == r.value && forall j :: 0 <= j < i ==> ps[j].id != id
    ensures r.None? <==> forall i :: 0 <= i < |ps| ==> ps[i].id != id
  {
    if ps == [] then None
    else if ps[0].id == id then Some(ps[0])
    else FindPlayer(ps[1..], id)
  }

  /** Replaces every player carrying `id` by `f` of it and keeps the rest. */
  function MapMatching(ps: seq<Player>, id: int, f: Player -> Player): (r: seq<Player>)
    ensures |r| == |ps|
    ensures forall i :: 0 <= i < |ps| && ps[i].id != id ==> r[i] == ps[i]
    ensures forall i :: 0 <= i < |ps| && ps[i].id == id ==> r[i] == f(ps[i])
  {
    if ps == [] then []
    else [if ps[0].id == id then f(ps[0]) else ps[0]] + MapMatching(ps[1..], id, f)
  }

  /** `movePlayer`: an active player (alive, not safe) with that id gets the
      fixed velocity; every other player, and every other field, stays. */
  function Moved(ps: seq<Player>, id: int): (r: seq<Player>)
    ensures |r| == |ps|
    ensures forall i :: 0 <= i < |ps| && (ps[i].id != id || !ps[i].isAlive || ps[i].isSafe) ==> r[i] == ps[i]
    ensures forall i :: 0 <= i < |ps| && ps[i].id == id && ps[i].isAlive && !ps[i].isSafe ==>
      r[i] == ps[i].(velocity := MOVE_VELOCITY)
  {
    MapMatching(ps, id, (p: Player) => if p.isAlive && !p.isSafe then p.(velocity := MOVE_VELOCITY) else p)
  }

  /** `stopPlayer`: the matching player stops, whatever its flags. */
  function Stopped(ps: seq<Player>, id: int): (r: seq<Player>)
    ensures |r| == |ps|
    ensures forall i :: 0 <= i < |ps| && ps[i].id != id ==> r[i] == ps[i]
    ensures forall i :: 0 <= i < |ps| && ps[i].id == id ==> r[i] == ps[i].(velocity := 0.0)
  {
    MapMatching(ps, id, (p: Player) => p.(velocity := 0.0))
  }

  /** `eliminatePlayer`: the matching player is dead and stopped. Its safe
      flag is not consulted. */
  function Eliminated(ps: seq<Player>, id: int): (r: seq<Player>)
    ensures |r| == |ps|
    ensures forall i :: 0 <= i < |ps| && ps[i].id != id ==> r[i] == ps[i]
    ensures forall i :: 0 <= i < |ps| && ps[i].id == id ==> r[i] == ps[i].(isAlive := false, velocity := 0.0)
  {
    MapMatching(ps, id, (p: Player) => p.(isAlive := false, velocity := 0.0))
  }

  /** `markPlayerSafe`: the matching player is safe and stopped. Its alive
      flag is not consulted. */
  function MarkedSafe(ps: seq<Player>, id: int): (r: seq<Player>)
    ensures |r| == |ps|
    ensures forall i :: 0 <= i < |ps| && ps[i].id != id ==> r[i] == ps[i]
    ensures forall i :: 0 <= i < |ps| && ps[i].id == id ==> r[i] == ps[i].(isSafe := true, velocity := 0.0)
  {
    MapMatching(ps, id, (p: Player) => p.(isSafe := true, velocity := 0.0))
  }

  /** `updatePlayerPosition`: the matching player's stored position is replaced. */
  function Repositioned(ps: seq<Player>, id: int, position: real): (r: seq<Player>)
    ensures |r| == |ps|
    ensures forall i :: 0 <= i < |ps| && ps[i].id != id ==> r[i] == ps[i]
    ensures forall i :: 0 <= i < |ps| && ps[i].id == id ==> r[i] == ps[i].(position := position)
  {
    MapMatching(ps, id, (p: Player) => p.(position := position))
  }

  lemma EliminatedIdempotent(ps: seq<Player>, id: int)
    ensures Eliminated(Eliminated(ps, id), id) == Eliminated(ps, id)
  {
  }

  lemma MarkedSafeIdempotent(ps: seq<Player>, id: int)
    ensures MarkedSafe(MarkedSafe(ps, id), id) == MarkedSafe(ps, id)
  {
  }

  /** Neither `eliminatePlayer` nor `markPlayerSafe` checks the other's flag,
      so a player can end up both eliminated and safe. */
  lemma SafeAndEliminatedCanCoexist()
    ensures var r := MarkedSafe(Eliminated(InitialPlayers(1), 0), 0);
            |r| == 1 && !r[0].isAlive && r[0].isSafe
  {
  }

  /** The move velocity is the medium preset's speed and no other's: the
      difficulty does not change how fast a player moves. */
  lemma MoveVelocityIgnoresDifficulty(d: Difficulty)
    ensures MOVE_VELOCITY == Config(d).playerSpeed <==> d == Medium
  {
  }

  /** The per-player commands of a round. */
  datatype PlayerCommand =
    | Move(id: int)
    | Stop(id: int)
    | Eliminate(id: int)
    | MarkSafe(id: int)
    | SetPosition(id: int, position: real)

  function Apply(c: PlayerCommand, ps: seq<Player>): seq<Player>
  {
    match c
    case Move(id) => Moved(ps, id)
    case Stop(id) => Stopped(ps, id)
    case Eliminate(id) => Eliminated(ps, id)
    case MarkSafe(id) => MarkedSafe(ps, id)
    case SetPosition(id, position) => Repositioned(ps, id, position)
  }

  /** Commands applied one after another, first command first. */
  function ApplyAll(cs: seq<PlayerCommand>, ps: seq<Player>): seq<Player>
    decreases |cs|
  {
    if cs == [] then ps else ApplyAll(cs[1..], Apply(cs[0], ps))
  }

  /** `after` is `before` with the same players in the same places, where no
      dead player came back to life and no safe player lost its safety. */
  predicate FlagsKept(before: seq<Player>, after: seq<Player>)
  {
    && |after| == |before|
    && (forall i :: 0 <= i < |before| ==> after[i].id == before[i].id)
    && (forall i :: 0 <= i < |before| && !before[i].isAlive ==> !after[i].isAlive)
    && (forall i :: 0 <= i < |before| && before[i].isSafe ==> after[i].isSafe)
  }

  lemma ApplyKeepsFlags(c: PlayerCommand, ps: seq<Player>)
    ensures FlagsKept(ps, Apply(c, ps))
  {
  }

  /** Both flags are one-way over any sequence of per-player commands. */
  lemma {:induction false} ApplyAllKeepsFlags(cs: seq<PlayerCommand>, ps: seq<Player>)
    ensures FlagsKept(ps, ApplyAll(cs, ps))
    decreases |cs|
  {
    if cs != [] {
      var mid := Apply(cs[0], ps);
      ApplyKeepsFlags(cs[0], ps);
      ApplyAllKeepsFlags(cs[1..], mid);
    }
  }

  /** A partial settings record: `None` marks a key that was not supplied. */
  datatype SettingsPatch = SettingsPatch(
    difficulty: Option<Difficulty>,
    playerCount: Option<PlayerCount>,
    soundEnabled: Option<bool>,
    musicEnabled: Option<bool>,
    volume: Option<real>,
    darkMode: Option<bool>)

  const NO_SETTINGS: SettingsPatch := SettingsPatch(None, None, None, None, None, None)

  function Pick<T>(supplied: Option<T>, current: T): T
  {
    match supplied
    case Some(v) => v
    case None => current
  }

  /** `{ ...settings, ...patch }`: every supplied key takes the patch's value
      and every other key keeps its value. */
  function MergeSettings(s: GameSettings, p: SettingsPatch): (r: GameSettings)
    ensures p.difficulty.None? ==> r.difficulty == s.difficulty
    ensures p.difficulty.Some? ==> r.difficulty == p.difficulty.value
    ensures p.playerCount.None? ==> r.playerCount == s.playerCount
    ensures p.playerCount.Some? ==> r.playerCount == p.playerCount.value
    ensures p.soundEnabled.None? ==> r.soundEnabled == s.soundEnabled
    ensures p.soundEnabled.Some? ==> r.soundEnabled == p.soundEnabled.value
    ensures p.musicEnabled.None? ==> r.musicEnabled == s.musicEnabled
    ensures p.musicEnabled.Some? ==> r.musicEnabled == p.musicEnabled.value
    ensures p.volume.None? ==> r.volume == s.volume
    ensures p.volume.Some? ==> r.volume == p.volume.value
    ensures p.darkMode.None? ==> r.darkMode == s.darkMode
    ensures p.darkMode.Some? ==> r.darkMode == p.darkMode.value
  {
    GameSettings(
      Pick(p.difficulty, s.difficulty),
      Pick(p.playerCount, s.playerCount),
      Pick(p.soundEnabled, s.soundEnabled),
      Pick(p.musicEnabled, s.musicEnabled),
      Pick(p.volume, s.volume),
      Pick(p.darkMode, s.darkMode))
  }

  /** A partial statistics record. `bestTime` is `Some(None)` when null is
      supplied explicitly. */
  datatype StatsPatch = StatsPatch(
    gamesPlayed: Option<int>,
    gamesWon: Option<int>,
    bestTime: Option<Option<real>>,
    totalPlayersEliminated: Option<int>)

  const NO_STATS: StatsPatch := StatsPatch(None, None, None, None)

  /** `{ ...stats, ...patch }`. */
  function MergeStats(s: GameStats, p: StatsPatch): (r: GameStats)
    ensures p.gamesPlayed.None? ==> r.gamesPlayed == s.gamesPlayed
    ensures p.gamesPlayed.Some? ==> r.gamesPlayed == p.gamesPlayed.value
    ensures p.gamesWon.None? ==> r.gamesWon == s.gamesWon
    ensures p.gamesWon.Some? ==> r.gamesWon == p.gamesWon.value
    ensures p.bestTime.None? ==> r.bestTime == s.bestTime
    ensures p.bestTime.Some? ==> r.bestTime == p.bestTime.value
    ensures p.totalPlayersEliminated.None? ==> r.totalPlayersEliminated == s.totalPlayersEliminated
    ensures p.totalPlayersEliminated.Some? ==> r.totalPlayersEliminated == p.totalPlayersEliminated.value
  {
    GameStats(
      Pick(p.gamesPlayed, s.gamesPlayed),
      Pick(p.gamesWon, s.gamesWon),
      Pick(p.bestTime, s.bestTime),
      Pick(p.totalPlayersEliminated, s.totalPlayersEliminated))
  }

  /** `q` laid over `p`: `q`'s keys win where both supply one. */
  function Overlay(p: StatsPatch, q: StatsPatch): StatsPatch
  {
    StatsPatch(
      if q.gamesPlayed.Some? then q.gamesPlayed else p.gamesPlayed,
      if q.gamesWon.Some? then q.gamesWon else p.gamesWon,
      if q.bestTime.Some? then q.bestTime else p.bestTime,
      if q.totalPlayersEliminated.Some? then q.totalPlayersEliminated else p.totalPlayersEliminated)
  }

  /** Merging nothing changes nothing, and two merges in a row are one merge
      of the overlaid patches. */
  lemma MergeStatsComposes(s: GameStats, p: StatsPatch, q: StatsPatch)
    ensures MergeStats(s, NO_STATS) == s
    ensures MergeStats(MergeStats(s, p), q) == MergeStats(s, Overlay(p, q))
  {
  }

  lemma MergeSettingsEmpty(s: GameSettings)
    ensures MergeSettings(s, NO_SETTINGS) == s
  {
  }

  /** The store. Each command overwrites only the fields its frame names. */
  class Store {
    var gameState: GameState
    var isGreenLight: bool
    var timeRemaining: real
    var players: seq<Player>
    var settings: GameSettings
    var stats: GameStats

    constructor ()
      ensures gameState == Idle && isGreenLight && timeRemaining == INITIAL_TIME_REMAINING
      ensures players == [] && settings == DEFAULT_SETTINGS && stats == DEFAULT_STATS
    {
      gameState := Idle;
      isGreenLight := true;
      timeRemaining := INITIAL_TIME_REMAINING;
      players := [];
      settings := DEFAULT_SETTINGS;
      stats := DEFAULT_STATS;
    }

    method SetGameState(s: GameState)
      modifies this`gameState
      ensures gameState == s
    {
      gameState := s;
    }

    method SetGreenLight(green: bool)
      modifies this`isGreenLight
      ensures isGreenLight == green
    {
      isGreenLight := green;
    }

    method SetTimeRemaining(t: real)
      modifies this`timeRemaining
      ensures timeRemaining == t
    {
      timeRemaining := t;
    }

    method InitializePlayers(count: nat)
      modifies this`players
      ensures players == InitialPlayers(count)
    {
      players := InitialPlayers(count);
    }

    method MovePlayer(id: int)
      modifies this`players
      ensures players == Moved(old(players), id)
    {
      players := Moved(players, id);
    }

    method StopPlayer(id: int)
      modifies this`players
      ensures players == Stopped(old(players), id)
    {
      players := Stopped(players, id);
    }

    method EliminatePlayer(id: int)
      modifies this`players
      ensures players == Eliminated(old(players), id)
    {
      players := Eliminated(players, id);
    }

    method MarkPlayerSafe(id: int)
      modifies this`players
      ensures players == MarkedSafe(old(players), id)
    {
      players := MarkedSafe(players, id);
    }

    method UpdatePlayerPosition(id: int, position: real)
      modifies this`players
      ensures players == Repositioned(old(players), id, position)
    {
      players := Repositioned(players, id, position);
    }

    method UpdateSettings(p: SettingsPatch)
      modifies this`settings
      ensures settings == MergeSettings(old(settings), p)
    {
      settings := MergeSettings(settings, p);
    }

    method UpdateStats(p: StatsPatch)
      modifies this`stats
      ensures stats == MergeStats(old(stats), p)
    {
      stats := MergeStats(stats, p);
    }

    /** A new round: fresh players for the configured count, green light,
        state `Starting`; statistics, settings and the clock stay. */
    method StartGame()
      modifies this`players, this`gameState, this`isGreenLight
      ensures players == InitialPlayers(settings.playerCount)
      ensures UniqueIds(players) && 1 <= |players| <= 4
      ensures gameState == Starting && isGreenLight
    {
      InitializePlayers(settings.playerCount);
      gameState, isGreenLight := Starting, true;
    }

    method PauseGame()
      modifies this`gameState
      ensures gameState == Paused
    {
      gameState := Paused;
    }

    method ResumeGame()
      modifies this`gameState
      ensures gameState == Playing
    {
      gameState := Playing;
    }

    /** Back to idle with no players; statistics and settings survive. */
    method ResetGame()
      modifies this`gameState, this`isGreenLight, this`timeRemaining, this`players
      ensures gameState == Idle && isGreenLight && timeRemaining == INITIAL_TIME_REMAINING
      ensures players == []
    {
      gameState, isGreenLight, timeRemaining, players := Idle, true, INITIAL_TIME_REMAINING, [];
    }
  }
}
