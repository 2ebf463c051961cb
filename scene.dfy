/** The per-frame step of each player's sphere: move it, mark the player
    safe at the finish line, and schedule an elimination check when it moves
    on red. The sphere's x coordinate lives in the scene, not in the store.
    Delayed checks are an explicit queue, fired in the order they were
    scheduled (all share one detection delay). */
module GameScene {
  import opened GameTypes
  import opened GameStore

  /** The start and finish lines on the runway's x axis. */
  const START_X: real := 5.5
  const FINISH_X: real := -5.5

  /** What one frame does for a player whose sphere is at `x`. */
  datatype FrameEffect = FrameEffect(x: real, markSafe: bool, scheduleCheck: bool)

  /** A frame leaves a dead or safe player alone. An active player moves
      left by its velocity, is marked safe exactly when it is at or past the
      finish line, and gets a check scheduled exactly when it moves on red. */
  function FrameOutcome(x: real, p: Player, isGreenLight: bool): (e: FrameEffect)
    ensures !p.isAlive || p.isSafe ==> e == FrameEffect(x, false, false)
    ensures p.isAlive && !p.isSafe ==> e.x == x - p.velocity
    ensures e.markSafe <==> p.isAlive && !p.isSafe && e.x <= FINISH_X
    ensures e.scheduleCheck <==> p.isAlive && !p.isSafe && !isGreenLight && p.velocity > 0.0
    ensures p.velocity == 0.0 ==> e.x == x && !e.scheduleCheck
  {
    if !p.isAlive || p.isSafe then FrameEffect(x, false, false)
    else
      var newX := x - p.velocity;
      FrameEffect(newX, newX <= FINISH_X, !isGreenLight && p.velocity > 0.0)
  }

  /** A fired check eliminates the player only if, when it fires, the light
      is red and the player is still moving. */
  predicate CheckEliminates(isGreenLight: bool, found: Option<Player>)
  {
    !isGreenLight && found.Some? && found.value.velocity > 0.0
  }

  /** A player who stopped before the check fires is spared, whatever the light. */
  lemma StoppedPlayerIsSpared(ps: seq<Player>, id: int, isGreenLight: bool)
    ensures !CheckEliminates(isGreenLight, FindPlayer(Stopped(ps, id), id))
  {
  }

  /** A check fired on green never eliminates. */
  lemma GreenCheckNeverEliminates(found: Option<Player>)
    ensures !CheckEliminates(true, found)
  {
  }

  /** The pending elimination checks, as the ids of the players they test. */
  class DetectionTimers {
    var pending: seq<int>

    constructor ()
      ensures pending == []
    {
      pending := [];
    }

    method Schedule(id: int)
      modifies this`pending
      ensures pending == old(pending) + [id]
    {
      pending := pending + [id];
    }

    /** Fires the oldest pending check against the light and the store as
        they are now. With nothing pending, nothing happens. */
    method Fire(isGreenLight: bool, store: Store)
      modifies this`pending, store`players
      ensures old(pending) == [] ==> pending == [] && store.players == old(store.players)
      ensures old(pending) != [] ==>
        var id := old(pending)[0];
        && pending == old(pending)[1..]
        && store.players == if CheckEliminates(isGreenLight, FindPlayer(old(store.players), id))
                            then Eliminated(old(store.players), id)
                            else old(store.players)
    {
      if pending != [] {
        var id := pending[0];
        pending := pending[1..];
        var found := FindPlayer(store.players, id);
        if !isGreenLight && found.Some? && found.value.velocity > 0.0 {
          store.EliminatePlayer(id);
        }
      }
    }
  }

  /** The sphere of the player with id `id`. */
  class PlayerSphere {
    const id: int
    var x: real

    constructor (id: int)
      ensures this.id == id && x == START_X
    {
      this.id := id;
      x := START_X;
    }

    /** One animation frame, as `FrameOutcome` describes it for the store's
        current record of this player. Without such a record nothing happens. */
    method Frame(isGreenLight: bool, store: Store, timers: DetectionTimers)
      modifies this`x, store`players, timers`pending
      ensures match FindPlayer(old(store.players), id)
        case None =>
          && x == old(x) && store.players == old(store.players) && timers.pending == old(timers.pending)
        case Some(p) =>
          var e := FrameOutcome(old(x), p, isGreenLight);
          && x == e.x
          && store.players == (if e.markSafe then MarkedSafe(old(store.players), id) else old(store.players))
          && timers.pending == old(timers.pending) + (if e.scheduleCheck then [id] else [])
    {
      var found := FindPlayer(store.players, id);
      if found.Some? {
        var p := found.value;
        if p.isAlive && !p.isSafe {
          var newX := x - p.velocity;
          x := newX;
          if newX <= FINISH_X {
            store.MarkPlayerSafe(p.id);
          }
          if !isGreenLight && p.velocity > 0.0 {
            timers.Schedule(p.id);
          }
        }
      }
    }

    /** A new round's sphere back on the start line, as a freshly mounted one. */
    method Remount()
      modifies this`x
      ensures x == START_X
    {
      x := START_X;
    }
  }

  /** What one frame reads: the store's record of the player and the light. */
  datatype FrameInput = FrameInput(p: Player, isGreenLight: bool)

  predicate Active(p: Player)
  {
    p.isAlive && !p.isSafe
  }

  /** The sphere's x after a run of frames from `x`, each stepping it as
      `FrameOutcome` (and so `PlayerSphere.Frame`) does, first frame first. */
  function SphereX(x: real, fs: seq<FrameInput>): real
    decreases |fs|
  {
    if fs == [] then x
    else FrameOutcome(SphereX(x, fs[..|fs| - 1]), fs[|fs| - 1].p, fs[|fs| - 1].isGreenLight).x
  }

  /** Whether frame `k` of the run marks the player safe. */
  predicate MarksSafeAt(x: real, fs: seq<FrameInput>, k: nat)
    requires k < |fs|
  {
    FrameOutcome(SphereX(x, fs[..k]), fs[k].p, fs[k].isGreenLight).markSafe
  }

  /** The sum of the velocities the frames read. */
  function Distance(fs: seq<FrameInput>): real
    decreases |fs|
  {
    if fs == [] then 0.0 else Distance(fs[..|fs| - 1]) + fs[|fs| - 1].p.velocity
  }

  /** While the player is active, the sphere has moved left by exactly the
      sum of the velocities its frames read. */
  lemma {:induction false} ActiveRunCoversDistance(x: real, fs: seq<FrameInput>)
    requires forall i :: 0 <= i < |fs| ==> Active(fs[i].p)
    ensures SphereX(x, fs) == x - Distance(fs)
    decreases |fs|
  {
    if fs != [] {
      ActiveRunCoversDistance(x, fs[..|fs| - 1]);
    }
  }

  /** While the player is active, frame `k` marks it safe exactly when the
      distance covered up to and including that frame takes the sphere to
      the finish line or past it. The first such frame is therefore the
      first that reaches the line; once the store has marked the player
      safe, `InactiveRunStays` says the frames do nothing more. */
  lemma ActiveRunMarksSafeAtFinish(x: real, fs: seq<FrameInput>, k: nat)
    requires k < |fs|
    requires forall i :: 0 <= i < |fs| ==> Active(fs[i].p)
    ensures MarksSafeAt(x, fs, k) <==> x - Distance(fs[..k + 1]) <= FINISH_X
  {
    ActiveRunCoversDistance(x, fs[..k]);
    assert fs[..k + 1][..k] == fs[..k];
  }

  /** Frames of a dead or safe player, or of a stationary one, leave the
      sphere where it is. */
  lemma {:induction false} StillFramesKeepX(x: real, fs: seq<FrameInput>)
    requires forall i :: 0 <= i < |fs| ==> !Active(fs[i].p) || fs[i].p.velocity == 0.0
    ensures SphereX(x, fs) == x
    decreases |fs|
  {
    if fs != [] {
      StillFramesKeepX(x, fs[..|fs| - 1]);
    }
  }

  /** Once the player is dead or safe, frames neither move the sphere nor
      mark the player nor schedule a check. */
  lemma InactiveRunStays(x: real, fs: seq<FrameInput>)
    requires forall i :: 0 <= i < |fs| ==> !Active(fs[i].p)
    ensures SphereX(x, fs) == x
    ensures forall k :: 0 <= k < |fs| ==> !MarksSafeAt(x, fs, k)
    ensures forall k :: 0 <= k < |fs| ==> !FrameOutcome(SphereX(x, fs[..k]), fs[k].p, fs[k].isGreenLight).scheduleCheck
  {
    StillFramesKeepX(x, fs);
  }

  /** A player whose velocity stays zero keeps its sphere on the start line,
      strictly right of the finish, and no frame marks it safe. */
  lemma StationaryNeverFinishes(fs: seq<FrameInput>)
    requires forall i :: 0 <= i < |fs| ==> fs[i].p.velocity == 0.0
    ensures SphereX(START_X, fs) == START_X
    ensures forall k :: 0 <= k < |fs| ==> !MarksSafeAt(START_X, fs, k)
  {
    StillFramesKeepX(START_X, fs);
    forall k | 0 <= k < |fs|
      ensures !MarksSafeAt(START_X, fs, k)
    {
      StillFramesKeepX(START_X, fs[..k]);
    }
  }

  /** A restart keeps the spheres mounted, so each keeps its x. A sphere that
      finished the last round is at or past the finish line, and the first
      frame of the new round marks its fresh, stationary player safe; the
      same player on a remounted sphere is not. */
  lemma KeptSphereFinishesAtOnce(x: real, count: PlayerCount, i: nat, isGreenLight: bool)
    requires x <= FINISH_X && i < count
    ensures FrameOutcome(x, InitialPlayers(count)[i], isGreenLight).markSafe
    ensures !FrameOutcome(START_X, InitialPlayers(count)[i], isGreenLight).markSafe
  {
  }

  /** The re-test as the source writes it: the light and velocity it reads
      are those of the frame that scheduled it. */
  datatype CapturedCheck = CapturedCheck(id: int, isGreenLight: bool, velocity: real)

  predicate CapturedCheckEliminates(c: CapturedCheck)
  {
    !c.isGreenLight && c.velocity > 0.0
  }

  /** Every check the source schedules eliminates its player when it fires,
      even one who has stopped and now stands under a green light; the live
      re-test spares that player. */
  lemma CapturedCheckIgnoresGracePeriod(x: real, p: Player, isGreenLight: bool, ps: seq<Player>)
    requires FrameOutcome(x, p, isGreenLight).scheduleCheck
    ensures CapturedCheckEliminates(CapturedCheck(p.id, isGreenLight, p.velocity))
    ensures !CheckEliminates(true, FindPlayer(Stopped(ps, p.id), p.id))
    ensures !CheckEliminates(isGreenLight, FindPlayer(Stopped(ps, p.id), p.id))
  {
  }
}
