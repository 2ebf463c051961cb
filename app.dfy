/** The round driver: the per-frame outcome evaluator with its clock, the
    light scheduler's delay choice, the start-of-round countdown, and the
    commands behind the start, pause and restart buttons. Timers become
    explicit events: each method below is one firing of a timer, interval or
    animation frame, and the random draw and elapsed time are parameters. */
module App {
  import opened GameTypes
  import opened GameStore

  // ---------------------------------------------------------------------
  // Round clock and outcome

  /** `Math.max(0, timeLimit - elapsed)`. */
  function Remaining(timeLimit: real, elapsed: real): (r: real)
    ensures r >= 0.0 && r >= timeLimit - elapsed
    ensures r == 0.0 <==> elapsed >= timeLimit
    ensures r > 0.0 ==> r == timeLimit - elapsed
    ensures elapsed >= 0.0 && timeLimit >= 0.0 ==> r <= timeLimit
  {
    if timeLimit - elapsed > 0.0 then timeLimit - elapsed else 0.0
  }

  /** `players.filter(p => p.isAlive).length`. */
  function AliveCount(ps: seq<Player>): (n: nat)
    ensures n <= |ps|
    ensures n == 0 <==> forall i :: 0 <= i < |ps| ==> !ps[i].isAlive
  {
    if ps == [] then 0 else (if ps[0].isAlive then 1 else 0) + AliveCount(ps[1..])
  }

  /** `players.filter(p => p.isSafe).length`. */
  function SafeCount(ps: seq<Player>): (n: nat)
    ensures n <= |ps|
    ensures n == |ps| <==> forall i :: 0 <= i < |ps| ==> ps[i].isSafe
  {
    if ps == [] then 0 else (if ps[0].isSafe then 1 else 0) + SafeCount(ps[1..])
  }

  /** There was a player and none is alive. */
  predicate AllDead(ps: seq<Player>)
  {
    |ps| > 0 && forall i :: 0 <= i < |ps| ==> !ps[i].isAlive
  }

  /** There was a player and every player is safe. */
  predicate AllSafe(ps: seq<Player>)
  {
    |ps| > 0 && forall i :: 0 <= i < |ps| ==> ps[i].isSafe
  }

  datatype Verdict = Defeat | Victory | OutOfTime | Continue

  datatype LoopOutcome = LoopOutcome(remaining: real, verdict: Verdict, stats: GameStats)

  /** `!bestTime || t < bestTime`: a null or zero best time counts as absent. */
  predicate ImprovesBest(best: Option<real>, t: real)
  {
    best.None? || best.value == 0.0 || t < best.value
  }

  /** The statistics update on a win at `completionTime`. */
  function WinPatch(stats: GameStats, completionTime: real): StatsPatch
  {
    if ImprovesBest(stats.bestTime, completionTime)
    then StatsPatch(None, Some(stats.gamesWon + 1), Some(Some(completionTime)), None)
    else StatsPatch(None, Some(stats.gamesWon + 1), None, None)
  }

  /** One step of the game loop, `elapsed` seconds after the round began.
      Lost, won, timeout and continue are tried in that order. Only a win
      touches the statistics: one more game won, and the completion time
      becomes the best time exactly when it improves on it. */
  function LoopStep(players: seq<Player>, elapsed: real, timeLimit: real, stats: GameStats): (o: LoopOutcome)
    ensures o.remaining == Remaining(timeLimit, elapsed)
    ensures o.verdict == Defeat <==> AllDead(players)
    ensures o.verdict == Victory <==> !AllDead(players) && AllSafe(players)
    ensures o.verdict == OutOfTime <==> !AllDead(players) && !AllSafe(players) && elapsed >= timeLimit
    ensures o.verdict == Continue <==> !AllDead(players) && !AllSafe(players) && elapsed < timeLimit
    ensures o.verdict != Victory ==> o.stats == stats
    ensures o.verdict == Victory ==>
      && o.stats.gamesWon == stats.gamesWon + 1
      && o.stats.gamesPlayed == stats.gamesPlayed
      && o.stats.totalPlayersEliminated == stats.totalPlayersEliminated
      && (ImprovesBest(stats.bestTime, elapsed) ==> o.stats.bestTime == Some(elapsed))
      && (!ImprovesBest(stats.bestTime, elapsed) ==> o.stats.bestTime == stats.bestTime)
  {
    var remaining := Remaining(timeLimit, elapsed);
    var allDead := AliveCount(players) == 0;
    var allSafe := SafeCount(players) == |players| && |players| > 0;
    if allDead && |players| > 0 then LoopOutcome(remaining, Defeat, stats)
    else if allSafe then LoopOutcome(remaining, Victory, MergeStats(stats, WinPatch(stats, elapsed)))
    else if remaining <= 0.0 then LoopOutcome(remaining, OutOfTime, stats)
    else LoopOutcome(remaining, Continue, stats)
  }

  /** With no players the step never decides won or lost. */
  lemma EmptyRoundOnlyTimesOut(elapsed: real, timeLimit: real, stats: GameStats)
    ensures LoopStep([], elapsed, timeLimit, stats).verdict == (if elapsed >= timeLimit then OutOfTime else Continue)
  {
  }

  /** A won round had every player safe and at least one of them alive. */
  lemma WonMeansSafeAndNotAllDead(players: seq<Player>, elapsed: real, timeLimit: real, stats: GameStats)
    requires LoopStep(players, elapsed, timeLimit, stats).verdict == Victory
    ensures forall i :: 0 <= i < |players| ==> players[i].isSafe
    ensures exists i :: 0 <= i < |players| && players[i].isAlive
  {
  }

  /** Losing does not depend on the clock. */
  lemma LostWhateverTheTime(players: seq<Player>, e1: real, e2: real, t1: real, t2: real, stats: GameStats)
    ensures LoopStep(players, e1, t1, stats).verdict == Defeat <==> LoopStep(players, e2, t2, stats).verdict == Defeat
  {
  }

  /** A positive best time never gets worse through a win. */
  lemma BestTimeNeverWorsens(players: seq<Player>, elapsed: real, timeLimit: real, stats: GameStats, best: real)
    requires stats.bestTime == Some(best) && best > 0.0
    requires LoopStep(players, elapsed, timeLimit, stats).verdict == Victory
    ensures var b := LoopStep(players, elapsed, timeLimit, stats).stats.bestTime;
            b.Some? && b.value <= best && (b.value == best || b.value == elapsed)
  {
  }

  /** Three wins by a lone safe player at 8.2 s, 9.0 s and 7.5 s leave best
      times 8.2, 8.2 and 7.5, and three games won. */
  lemma BestTimeSequence(stats: GameStats)
    requires stats.bestTime == None && stats.gamesWon == 0
    ensures var ps := [Player(0, START_POSITION, 0.0, true, true)];
            var s1 := LoopStep(ps, 8.2, 10.0, stats).stats;
            var s2 := LoopStep(ps, 9.0, 10.0, s1).stats;
            var s3 := LoopStep(ps, 7.5, 10.0, s2).stats;
            && s1.bestTime == Some(8.2) && s2.bestTime == Some(8.2) && s3.bestTime == Some(7.5)
            && s3.gamesWon == 3
  {
  }

  /** A lone player who has been eliminated loses, whatever the time left. */
  lemma LoneEliminatedPlayerLoses(elapsed: real, timeLimit: real, stats: GameStats)
    ensures LoopStep(Eliminated(InitialPlayers(1), 0), elapsed, timeLimit, stats).verdict == Defeat
  {
  }

  /** The round state a verdict leads to. */
  function VerdictState(v: Verdict): GameState
  {
    match v
    case Defeat => GameState.Lost
    case Victory => GameState.Won
    case OutOfTime => Timeout
    case Continue => Playing
  }

  // ---------------------------------------------------------------------
  // Light scheduler

  /** A light phase and how long it lasts, in milliseconds. */
  datatype Phase = Phase(green: bool, delay: real)

  /** The phase lasts a time within its colour's range for the difficulty. */
  predicate InPhaseRange(ph: Phase, d: Difficulty)
  {
    var c := Config(d);
    if ph.green then c.greenLightMin as real <= ph.delay < c.greenLightMax as real
    else c.redLightMin as real <= ph.delay < c.redLightMax as real
  }

  /** `r * (max - min) + min` over the range of a phase of the given colour,
      for a draw `r` in [0, 1). */
  function LightDelay(green: bool, r: real, d: Difficulty): (delay: real)
    requires 0.0 <= r < 1.0
    ensures InPhaseRange(Phase(green, delay), d)
  {
    var c := Config(d);
    if green then r * (c.greenLightMax - c.greenLightMin) as real + c.greenLightMin as real
    else r * (c.redLightMax - c.redLightMin) as real + c.redLightMin as real
  }

  /** A toggle: leaving green enters red with a red-range delay, leaving red
      enters green with a green-range delay. */
  function NextPhase(leavingGreen: bool, r: real, d: Difficulty): (ph: Phase)
    requires 0.0 <= r < 1.0
    ensures ph.green == !leavingGreen
    ensures InPhaseRange(ph, d)
  {
    Phase(!leavingGreen, LightDelay(!leavingGreen, r, d))
  }

  predicate Draws(rs: seq<real>)
  {
    forall i :: 0 <= i < |rs| ==> 0.0 <= rs[i] < 1.0
  }

  /** The phases of a round for the successive draws `rs`: the first phase
      has colour `green`, and each later one follows from a toggle. */
  function Schedule(green: bool, rs: seq<real>, d: Difficulty): (phases: seq<Phase>)
    requires Draws(rs)
    ensures |phases| == |rs|
    decreases |rs|
  {
    if rs == [] then [] else [Phase(green, LightDelay(green, rs[0], d))] + Schedule(!green, rs[1..], d)
  }

  /** A round's light schedule starts green and then alternates; every
      phase lasts a time in its colour's range, and each phase after the
      first is the toggle out of the one before it. */
  lemma {:induction false} ScheduleAlternates(green: bool, rs: seq<real>, d: Difficulty)
    requires Draws(rs)
    ensures forall i :: 0 <= i < |rs| ==> Schedule(green, rs, d)[i].green == (green == (i % 2 == 0))
    ensures forall i :: 0 <= i < |rs| ==> InPhaseRange(Schedule(green, rs, d)[i], d)
    ensures forall i :: 0 < i < |rs| ==> Schedule(green, rs, d)[i] == NextPhase(Schedule(green, rs, d)[i - 1].green, rs[i], d)
    decreases |rs|
  {
    if rs != [] {
      var tail := Schedule(!green, rs[1..], d);
      ScheduleAlternates(!green, rs[1..], d);
      var all := Schedule(green, rs, d);
      assert all == [Phase(green, LightDelay(green, rs[0], d))] + tail;
      forall i | 0 < i < |rs|
        ensures all[i].green == (green == (i % 2 == 0))
        ensures all[i] == NextPhase(all[i - 1].green, rs[i], d)
      {
        assert all[i] == tail[i - 1];
        assert rs[1..][i - 1] == rs[i];
        if i > 1 {
          assert all[i - 1] == tail[i - 2];
        }
      }
    }
  }

  /** `switchLight` as the source writes it: the phase it leaves is the one
      captured when the scheduler started, not the current one. */
  function CapturedSwitch(captured: bool, r: real, d: Difficulty): (ph: Phase)
    requires 0.0 <= r < 1.0
  {
    NextPhase(captured, r, d)
  }

  /** With the captured phase, every toggle enters the same colour, so after
      the first toggle the light never changes again; the live toggle
      returns to the colour it left. */
  lemma CapturedSwitchSticks(captured: bool, r1: real, r2: real, d: Difficulty)
    requires 0.0 <= r1 < 1.0 && 0.0 <= r2 < 1.0
    ensures CapturedSwitch(captured, r2, d).green == CapturedSwitch(captured, r1, d).green == !captured
    ensures NextPhase(NextPhase(captured, r1, d).green, r2, d).green == captured
  {
  }

  // ---------------------------------------------------------------------
  // Countdown and pause

  /** The numbers the countdown shows from `n`: each interval tick takes one
      off, and a tick at 1 or below shows 0 and stops the interval. */
  function CountdownTrace(n: int): seq<int>
    decreases if n < 1 then 0 else n
  {
    if n <= 1 then [n, 0] else [n] + CountdownTrace(n - 1)
  }

  /** From n >= 1 the countdown shows n, n - 1, ..., 1, 0. */
  lemma {:induction false} CountdownTraceCounts(n: int)
    requires n >= 1
    ensures |CountdownTrace(n)| == n + 1
    ensures forall i :: 0 <= i <= n ==> CountdownTrace(n)[i] == n - i
    decreases n
  {
    if n > 1 {
      CountdownTraceCounts(n - 1);
      var t := CountdownTrace(n);
      assert t == [n] + CountdownTrace(n - 1);
      forall i | 0 < i <= n ensures t[i] == n - i {
        assert t[i] == CountdownTrace(n - 1)[i - 1];
      }
    }
  }

  /** The pause button: playing and paused swap, every other state stays. */
  function PauseToggled(s: GameState): (t: GameState)
    ensures s == Playing ==> t == Paused
    ensures s == Paused ==> t == Playing
    ensures s != Playing && s != Paused ==> t == s
  {
    match s
    case Playing => Paused
    case Paused => Playing
    case _ => s
  }

  /** Pressing the pause button twice restores the state. */
  lemma PauseToggleIsInvolution(s: GameState)
    ensures PauseToggled(PauseToggled(s)) == s
  {
  }

  // ---------------------------------------------------------------------
  // The controller

  /** The application's own state next to the store: the countdown shown
      before a round, and which of its timers are armed. */
  class Controller {
    const store: Store
    var countdown: int
    var showCountdown: bool
    var intervalArmed: bool
    var playTimerArmed: bool

    constructor (store: Store)
      ensures this.store == store
      ensures countdown == 3 && !showCountdown && !intervalArmed && !playTimerArmed
    {
      this.store := store;
      countdown := 3;
      showCountdown := false;
      intervalArmed := false;
      playTimerArmed := false;
    }

    method StartCountdown()
      modifies this`showCountdown, this`countdown, this`intervalArmed
      ensures showCountdown && countdown == 3 && intervalArmed
    {
      showCountdown, countdown, intervalArmed := true, 3, true;
    }

    /** One firing of the one-second countdown interval. */
    method CountdownTick()
      requires intervalArmed
      modifies this`countdown, this`intervalArmed, this`playTimerArmed
      ensures old(countdown) <= 1 ==> countdown == 0 && !intervalArmed && playTimerArmed
      ensures old(countdown) > 1 ==> countdown == old(countdown) - 1 && intervalArmed && playTimerArmed == old(playTimerArmed)
    {
      if countdown <= 1 {
        countdown, intervalArmed, playTimerArmed := 0, false, true;
      } else {
        countdown := countdown - 1;
      }
    }

    /** The one-second timeout armed when the count reached zero. */
    method FinishCountdown()
      requires playTimerArmed
      modifies this`showCountdown, this`playTimerArmed, store`gameState
      ensures !showCountdown && !playTimerArmed && store.gameState == Playing
    {
      showCountdown, playTimerArmed := false, false;
      store.SetGameState(Playing);
    }

    /** The countdown from its start to `playing`, tick by tick; it shows
        exactly the numbers of `CountdownTrace`. */
    method RunCountdown() returns (shown: seq<int>)
      requires intervalArmed && !playTimerArmed && countdown >= 1
      modifies this`countdown, this`intervalArmed, this`playTimerArmed, this`showCountdown, store`gameState
      ensures shown == CountdownTrace(old(countdown))
      ensures countdown == 0 && !showCountdown && !intervalArmed && store.gameState == Playing
    {
      ghost var start := countdown;
      shown := [countdown];
      while intervalArmed
        invariant countdown >= 0
        invariant intervalArmed ==> countdown >= 1 && !playTimerArmed && shown + CountdownTrace(countdown)[1..] == CountdownTrace(start)
        invariant !intervalArmed ==> countdown == 0 && playTimerArmed && shown == CountdownTrace(start)
        decreases countdown + (if intervalArmed then 1 else 0)
      {
        ghost var before := countdown;
        CountdownTick();
        shown := shown + [countdown];
        assert CountdownTrace(before) == [before] + (if before <= 1 then [0] else CountdownTrace(countdown));
        if intervalArmed {
          assert CountdownTrace(before)[1..] == CountdownTrace(countdown);
          assert CountdownTrace(countdown) == [countdown] + CountdownTrace(countdown)[1..];
        }
      }
      FinishCountdown();
    }

    /** The start button: a fresh round in `Starting`, the countdown at 3,
        and one more game played; nothing else in the statistics changes. */
    method HandleStartGame()
      modifies store`players, store`gameState, store`isGreenLight, store`stats
      modifies this`showCountdown, this`countdown, this`intervalArmed
      ensures store.gameState == Starting && store.isGreenLight
      ensures store.players == InitialPlayers(store.settings.playerCount)
      ensures store.stats == old(store.stats).(gamesPlayed := old(store.stats).gamesPlayed + 1)
      ensures showCountdown && countdown == 3 && intervalArmed
    {
      var played := store.stats.gamesPlayed;
      store.StartGame();
      StartCountdown();
      store.UpdateStats(StatsPatch(Some(played + 1), None, None, None));
    }

    method HandlePause()
      modifies store`gameState
      ensures store.gameState == PauseToggled(old(store.gameState))
    {
      if store.gameState == Playing {
        store.PauseGame();
      } else if store.gameState == Paused {
        store.ResumeGame();
      }
    }

    /** The restart button: reset, then start. */
    method HandleRestart()
      modifies store`players, store`gameState, store`isGreenLight, store`stats, store`timeRemaining
      modifies this`showCountdown, this`countdown, this`intervalArmed
      ensures store.gameState == Starting && store.isGreenLight
      ensures store.timeRemaining == INITIAL_TIME_REMAINING
      ensures store.players == InitialPlayers(store.settings.playerCount)
      ensures store.stats == old(store.stats).(gamesPlayed := old(store.stats).gamesPlayed + 1)
      ensures showCountdown && countdown == 3 && intervalArmed
    {
      store.ResetGame();
      HandleStartGame();
    }

    /** A key press: only while playing, and only for an active player. */
    method RequestMove(id: int)
      modifies store`players
      ensures var found := FindPlayer(old(store.players), id);
        store.players == if store.gameState == Playing && found.Some? && found.value.isAlive && !found.value.isSafe
                         then Moved(old(store.players), id) else old(store.players)
    {
      var found := FindPlayer(store.players, id);
      if store.gameState == Playing && found.Some? && found.value.isAlive && !found.value.isSafe {
        store.MovePlayer(id);
      }
    }

    /** A key release: stops the player in any state. */
    method RequestStop(id: int)
      modifies store`players
      ensures store.players == if FindPlayer(old(store.players), id).Some? then Stopped(old(store.players), id) else old(store.players)
    {
      if FindPlayer(store.players, id).Some? {
        store.StopPlayer(id);
      }
    }

    /** The scheduler on entering `playing`: green, with the first toggle
        after a green-range delay. */
    method StartLights(r: real) returns (delay: real)
      requires 0.0 <= r < 1.0 && store.gameState == Playing
      modifies store`isGreenLight
      ensures store.isGreenLight
      ensures InPhaseRange(Phase(true, delay), store.settings.difficulty)
      ensures [Phase(true, delay)] == Schedule(true, [r], store.settings.difficulty)
    {
      store.SetGreenLight(true);
      delay := LightDelay(true, r, store.settings.difficulty);
    }

    /** One toggle of the light, reading the current phase. */
    method SwitchLight(r: real) returns (delay: real)
      requires 0.0 <= r < 1.0 && store.gameState == Playing
      modifies store`isGreenLight
      ensures store.isGreenLight == !old(store.isGreenLight)
      ensures Phase(store.isGreenLight, delay) == NextPhase(old(store.isGreenLight), r, store.settings.difficulty)
    {
      var leavingGreen := store.isGreenLight;
      store.SetGreenLight(!leavingGreen);
      delay := NextPhase(leavingGreen, r, store.settings.difficulty).delay;
    }

    /** The game loop on entering `playing`: the clock shows the full limit. */
    method StartClock()
      requires store.gameState == Playing
      modifies store`timeRemaining
      ensures store.timeRemaining == Config(store.settings.difficulty).timeLimit as real
    {
      store.SetTimeRemaining(Config(store.settings.difficulty).timeLimit as real);
    }

    /** One animation frame of the game loop, `elapsed` seconds after the
        loop started: it publishes the remaining time and applies
        `LoopStep`'s verdict; `again` says whether the loop re-arms. */
    method GameLoopFrame(elapsed: real) returns (again: bool)
      requires store.gameState == Playing
      modifies store`timeRemaining, store`gameState, store`stats
      ensures var o := LoopStep(store.players, elapsed, Config(store.settings.difficulty).timeLimit as real, old(store.stats));
        && store.timeRemaining == o.remaining
        && store.gameState == VerdictState(o.verdict)
        && store.stats == o.stats
        && again == (o.verdict == Continue)
    {
      var o := LoopStep(store.players, elapsed, Config(store.settings.difficulty).timeLimit as real, store.stats);
      store.SetTimeRemaining(o.remaining);
      again := false;
      match o.verdict
      case Defeat =>
        store.SetGameState(GameState.Lost);
      case Victory =>
        store.SetGameState(GameState.Won);
        store.UpdateStats(WinPatch(store.stats, elapsed));
      case OutOfTime =>
        store.SetGameState(Timeout);
      case Continue =>
        again := true;
    }
  }
}
