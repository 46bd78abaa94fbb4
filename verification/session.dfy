/**
 The per-level state of GameView and its three state changes: loading a level
 (`setLevel`/`loadLevelData`), a fling gesture (`onFling`, which may call
 `movePlayer`) and one game-loop tick (`update`). The wall clock is the `now`
 parameter; the level-complete callback the tick posts to the activity is the
 returned `signal`.
 */
module GameSession {
  import opened Nullable
  import opened Board
  import opened Resolver
  import opened Levels

  /** Ticks spent on the victory screen before the level-complete signal: `transitionTimer > 90`. */
  const DwellTicks := 90

  /** Minimum fling distance and velocity, in pixels and pixels per second. */
  const FlingThreshold: real := 100.0

  datatype Session = Session(
    levelId: int,
    grid: Grid,
    player: Pos,
    complete: bool,          // isLevelComplete
    transitionTimer: int,
    levelStartTime: int,     // clock reading when the level was loaded
    currentTime: int)        // elapsed time shown on screen

  /**
   The invariant every reachable session keeps: the map is rectangular, the
   player stands on an enterable cell, the flag is only up while the player is
   on a goal, and the timer only runs while the flag is up.
   */
  ghost predicate Valid(s: Session) {
    && Rectangular(s.grid)
    && Open(s.grid, s.player)
    && (s.complete ==> TileAt(s.grid, s.player) == Goal)
    && (!s.complete ==> s.transitionTimer == 0)
    && 0 <= s.transitionTimer <= DwellTicks
  }

  /** `loadLevelData`: install the level's table, put the player on (1,1) and restart the clock. */
  function LoadLevelData(s: Session, level: int, now: int): (r: Session)
    ensures r.grid == GetLevel(level) && r.player == Start
    // whatever the level number, the player is put on an enterable cell of a rectangular map
    ensures Rectangular(r.grid) && Open(r.grid, r.player)
    ensures r.levelStartTime == now && r.currentTime == 0
    ensures r.levelId == s.levelId && r.complete == s.complete && r.transitionTimer == s.transitionTimer
  {
    s.(levelStartTime := now, currentTime := 0, grid := GetLevel(level), player := Start)
  }

  /**
   The view as its constructor is meant to leave it: field defaults, then
   `loadLevelData(startLevel)` with the level tables already initialised.
   */
  function NewSession(startLevel: int, now: int): (r: Session)
    ensures Valid(r)
    ensures r.levelId == startLevel && r.grid == GetLevel(startLevel) && r.player == Start
    ensures !r.complete && r.transitionTimer == 0 && r.levelStartTime == now && r.currentTime == 0
  {
    LoadLevelData(Session(startLevel, [], Start, false, 0, 0, 0), startLevel, now)
  }

  // ---------------------------------------------------------------------------
  // The constructor as written

  /** GameView's fields, with its `map` as `levelMap`: a reference that may be null (`None`). */
  datatype RawView = RawView(
    levelId: int,
    levelMap: Option<Grid>,
    player: Pos,
    complete: bool,
    transitionTimer: int,
    levelStartTime: int,
    currentTime: int)

  /** The fields of a session, with its map as a non-null reference. */
  function ToRaw(s: Session): RawView {
    RawView(s.levelId, Some(s.grid), s.player, s.complete, s.transitionTimer, s.levelStartTime, s.currentTime)
  }

  /**
   Reading a level property such as `level1`: a JVM field holds null until
   its initialiser has run.
   */
  function LevelField(tablesInitialised: bool, level: int): (m: Option<Grid>)
    ensures m.Some? <==> tablesInitialised
    ensures m.Some? ==> m.value == GetLevel(level) && Rectangular(m.value)
  {
    if tablesInitialised then Some(GetLevel(level)) else None
  }

  /**
   The constructor: `map` starts as an empty array, then the `init` block runs
   `loadLevelData(levelId)`, whose `getLevel` reads the level properties in
   whatever state their initialisers have left them.
   */
  function ConstructView(startLevel: int, now: int, tablesInitialised: bool): (r: RawView)
    ensures r.levelMap == LevelField(tablesInitialised, startLevel)
    ensures r.levelId == startLevel && r.player == Start && !r.complete
    ensures r.transitionTimer == 0 && r.levelStartTime == now && r.currentTime == 0
  {
    var fields := RawView(startLevel, Some([]), Start, false, 0, 0, 0);
    fields.(levelStartTime := now, currentTime := 0, levelMap := LevelField(tablesInitialised, startLevel), player := Start)
  }

  /**
   `map.size`, read first by both `calculateDimensions` (through `isEmpty`)
   and the bounds test of `movePlayer`; `None` when the read throws.
   */
  function MapSize(v: RawView): (n: Option<nat>)
    ensures n.None? <==> v.levelMap.None?
    ensures n.Some? ==> n.value == |v.levelMap.value|
  {
    match v.levelMap
    case None => None
    case Some(g) => Some(|g|)
  }

  /**
   Kotlin runs property initialisers and `init` blocks in the order they are
   written, and the `init` block comes before `level1`..`level10`. So the
   constructor as written leaves `map` null for every start level: the first
   `surfaceChanged` or fling throws, and the view is not the session the
   activity expects.
   */
  lemma ConstructorLeavesMapNull(startLevel: int, now: int)
    ensures ConstructView(startLevel, now, false).levelMap.None?
    ensures MapSize(ConstructView(startLevel, now, false)).None?
    ensures ConstructView(startLevel, now, false) != ToRaw(NewSession(startLevel, now))
  {
  }

  /** With the level tables initialised first, the constructor yields exactly `NewSession`. */
  lemma NewSessionIsConstructorInOrder(startLevel: int, now: int)
    ensures ToRaw(NewSession(startLevel, now)) == ConstructView(startLevel, now, true)
    ensures MapSize(ConstructView(startLevel, now, true)) == Some(|GetLevel(startLevel)|)
  {
  }

  /** `setLevel`: a fresh start on `newLevel`, whatever state the session was in. */
  function SetLevel(s: Session, newLevel: int, now: int): (r: Session)
    ensures Valid(r)
    ensures r.levelId == newLevel && r.grid == GetLevel(newLevel)
    ensures r.player == Start && !r.complete && r.transitionTimer == 0
    ensures r.currentTime == 0 && r.levelStartTime == now
  {
    LoadLevelData(s.(levelId := newLevel), newLevel, now).(complete := false, transitionTimer := 0)
  }

  /** `movePlayer` applied to the session: slide, and raise the flag if a goal was entered. */
  function Move(s: Session, d: Direction): (r: Session)
    requires Rectangular(s.grid)
    ensures r.player == Slide(s.grid, s.player, d).pos
    // the flag is never cleared by a move and is raised exactly by entering a goal
    ensures r.complete <==> s.complete || (r.player != s.player && TileAt(s.grid, r.player) == Goal)
    ensures r == s.(player := r.player, complete := r.complete)
    ensures Valid(s) && !s.complete ==> Valid(r)
  {
    var o := Slide(s.grid, s.player, d);
    s.(player := o.pos, complete := s.complete || o.reachedGoal)
  }

  // ---------------------------------------------------------------------------
  // Fling gestures

  /** A screen point in pixels. */
  datatype Point = Point(x: real, y: real)

  function Abs(x: real): real {
    if x < 0.0 then -x else x
  }

  /** Gesture displacement; a missing down event counts as starting at (0, 0). */
  function Delta(e1: Option<Point>, e2: Point): Point {
    var start := Elvis(e1, Point(0.0, 0.0));
    Point(e2.x - start.x, e2.y - start.y)
  }

  predicate Horizontal(d: Direction) {
    d == Left || d == Right
  }

  /**
   The direction a fling asks for, if any: the dominant axis wins, a tie goes
   to the vertical axis, and both distance and velocity along that axis must
   exceed the threshold.
   */
  function FlingDirection(e1: Option<Point>, e2: Point, velocityX: real, velocityY: real): (r: Option<Direction>)
    ensures r.Some? ==> (Horizontal(r.value) <==> Abs(Delta(e1, e2).x) > Abs(Delta(e1, e2).y))
    ensures r.Some? && Horizontal(r.value) ==> Abs(Delta(e1, e2).x) > FlingThreshold && Abs(velocityX) > FlingThreshold
    ensures r.Some? && !Horizontal(r.value) ==> Abs(Delta(e1, e2).y) > FlingThreshold && Abs(velocityY) > FlingThreshold
    ensures r == Some(Right) ==> Delta(e1, e2).x > 0.0
    ensures r == Some(Down) ==> Delta(e1, e2).y > 0.0
    ensures r == Some(Left) ==> Delta(e1, e2).x < 0.0
    ensures r == Some(Up) ==> Delta(e1, e2).y < 0.0
    // and conversely, a fling that meets the thresholds on its dominant axis does pick a direction
    ensures Abs(Delta(e1, e2).x) > Abs(Delta(e1, e2).y) && Abs(Delta(e1, e2).x) > FlingThreshold && Abs(velocityX) > FlingThreshold
      ==> r == Some(if Delta(e1, e2).x > 0.0 then Right else Left)
    ensures Abs(Delta(e1, e2).x) <= Abs(Delta(e1, e2).y) && Abs(Delta(e1, e2).y) > FlingThreshold && Abs(velocityY) > FlingThreshold
      ==> r == Some(if Delta(e1, e2).y > 0.0 then Down else Up)
  {
    var delta := Delta(e1, e2);
    if Abs(delta.x) > Abs(delta.y) then
      if Abs(delta.x) > FlingThreshold && Abs(velocityX) > FlingThreshold then
        if delta.x > 0.0 then Some(Right) else Some(Left)
      else None
    else
      if Abs(delta.y) > FlingThreshold && Abs(velocityY) > FlingThreshold then
        if delta.y > 0.0 then Some(Down) else Some(Up)
      else None
  }

  /** Reflection of a gesture in the vertical axis: x coordinates and x velocity change sign. */
  function MirrorPoint(p: Point): Point {
    Point(-p.x, p.y)
  }

  function MirrorStart(e1: Option<Point>): Option<Point> {
    match e1
    case None => None
    case Some(p) => Some(MirrorPoint(p))
  }

  function MirrorDirection(d: Option<Direction>): Option<Direction> {
    match d
    case Some(Left) => Some(Right)
    case Some(Right) => Some(Left)
    case _ => d
  }

  /** The decision is left-right symmetric: a mirrored fling asks for the mirrored direction. */
  lemma FlingMirrorSymmetric(e1: Option<Point>, e2: Point, velocityX: real, velocityY: real)
    ensures FlingDirection(MirrorStart(e1), MirrorPoint(e2), -velocityX, velocityY)
         == MirrorDirection(FlingDirection(e1, e2, velocityX, velocityY))
  {
    var d := Delta(e1, e2);
    assert Delta(MirrorStart(e1), MirrorPoint(e2)) == Point(-d.x, d.y);
  }

  /**
   The decision is not symmetric under swapping the axes: on an exact
   diagonal both a fling and its transpose go vertical.
   */
  lemma FlingDiagonalGoesVertical(e1: Option<Point>, e2: Point, velocityX: real, velocityY: real)
    requires Abs(Delta(e1, e2).x) == Abs(Delta(e1, e2).y)
    ensures FlingDirection(e1, e2, velocityX, velocityY) != Some(Left)
    ensures FlingDirection(e1, e2, velocityX, velocityY) != Some(Right)
    ensures Delta(e1, e2).y > FlingThreshold && velocityY > FlingThreshold ==>
      FlingDirection(e1, e2, velocityX, velocityY) == Some(Down)
  {
  }

  /** `onFling`: ignored once the level is complete, otherwise at most one move. */
  function OnFling(s: Session, e1: Option<Point>, e2: Point, velocityX: real, velocityY: real): (r: Session)
    requires Rectangular(s.grid)
    ensures s.complete ==> r == s
    ensures r == s || (FlingDirection(e1, e2, velocityX, velocityY).Some? && r == Move(s, FlingDirection(e1, e2, velocityX, velocityY).value))
    ensures FlingDirection(e1, e2, velocityX, velocityY).None? ==> r == s
    ensures !s.complete && FlingDirection(e1, e2, velocityX, velocityY).Some? ==>
      r == Move(s, FlingDirection(e1, e2, velocityX, velocityY).value)
    ensures Valid(s) ==> Valid(r)
  {
    if s.complete then s
    else
      match FlingDirection(e1, e2, velocityX, velocityY)
      case None => s
      case Some(d) => Move(s, d)
  }

  // ---------------------------------------------------------------------------
  // Game-loop ticks

  /** A tick's new session and whether it posted the level-complete callback. */
  datatype TickResult = TickResult(session: Session, signal: bool)

  /**
   `update`: while the level is complete, count dwell ticks and, on the tick
   that takes the timer past 90, signal once and clear the flag; otherwise
   refresh the elapsed time from the clock.
   */
  function Update(s: Session, now: int): (r: TickResult)
    ensures r.signal <==> s.complete && s.transitionTimer >= DwellTicks
    ensures r.session.currentTime == if s.complete then s.currentTime else now - s.levelStartTime
    ensures s.complete && !r.signal ==> r.session.complete && r.session.transitionTimer == s.transitionTimer + 1
    ensures r.signal ==> !r.session.complete && r.session.transitionTimer == 0
    // a tick never moves the player or changes the level
    ensures r.session.player == s.player && r.session.grid == s.grid && r.session.levelId == s.levelId
    ensures r.session.levelStartTime == s.levelStartTime
    // a tick that starts off the victory screen only refreshes the elapsed time, so it never signals
    ensures !s.complete ==> r == TickResult(s.(currentTime := now - s.levelStartTime), false)
    ensures Valid(s) ==> Valid(r.session)
  {
    if s.complete then
      var t := s.transitionTimer + 1;
      if t > DwellTicks then
        TickResult(s.(transitionTimer := 0, complete := false), true)
      else
        TickResult(s.(transitionTimer := t), false)
    else
      TickResult(s.(currentTime := now - s.levelStartTime), false)
  }

  /** A run of ticks at the given clock readings, and how many signals it posted. */
  datatype Run = Run(session: Session, signals: nat)

  function Ticks(s: Session, nows: seq<int>): (r: Run)
    // ticks never move the player or change the level, and they keep the invariant
    ensures r.session.player == s.player && r.session.grid == s.grid && r.session.levelId == s.levelId
    ensures Valid(s) ==> Valid(r.session)
    decreases |nows|
  {
    if |nows| == 0 then Run(s, 0)
    else
      var t := Update(s, nows[0]);
      var rest := Ticks(t.session, nows[1..]);
      Run(rest.session, rest.signals + if t.signal then 1 else 0)
  }

  /**
   The dwell: a session on the victory screen with timer `t` stays there,
   silent and with its elapsed time frozen, for the next `90 - t` ticks.
   */
  lemma {:induction false} DwellIsSilent(s: Session, nows: seq<int>)
    requires Valid(s) && s.complete
    requires |nows| <= DwellTicks - s.transitionTimer
    ensures Ticks(s, nows) == Run(s.(transitionTimer := s.transitionTimer + |nows|), 0)
    decreases |nows|
  {
    if |nows| > 0 {
      var t := Update(s, nows[0]);
      assert t.session == s.(transitionTimer := s.transitionTimer + 1);
      DwellIsSilent(t.session, nows[1..]);
    }
  }

  /**
   From the move that enters the goal, exactly 91 ticks pass before the
   level-complete signal; it is posted once, the flag is cleared, and the
   player and elapsed time are as the goal move left them.
   */
  lemma SignalAfterDwell(s: Session, nows: seq<int>)
    requires Valid(s) && s.complete && s.transitionTimer == 0
    requires |nows| == DwellTicks + 1
    ensures Ticks(s, nows[..DwellTicks]).signals == 0
    ensures Ticks(s, nows).signals == 1
    ensures Ticks(s, nows).session == s.(complete := false)
  {
    DwellIsSilent(s, nows[..DwellTicks]);
    TicksSplit(s, nows[..DwellTicks], [nows[DwellTicks]]);
    assert nows[..DwellTicks] + [nows[DwellTicks]] == nows;
  }

  /** Running two stretches of ticks one after the other is running their concatenation. */
  lemma {:induction false} TicksSplit(s: Session, a: seq<int>, b: seq<int>)
    ensures Ticks(s, a + b).session == Ticks(Ticks(s, a).session, b).session
    ensures Ticks(s, a + b).signals == Ticks(s, a).signals + Ticks(Ticks(s, a).session, b).signals
    decreases |a|
  {
    if |a| == 0 {
      assert a + b == b;
    } else {
      var t := Update(s, a[0]);
      assert (a + b)[0] == a[0];
      assert (a + b)[1..] == a[1..] + b;
      TicksSplit(t.session, a[1..], b);
    }
  }

  predicate NonDecreasing(nows: seq<int>) {
    forall i, j :: 0 <= i < j < |nows| ==> nows[i] <= nows[j]
  }

  /**
   With a clock that never runs backwards, the elapsed time shown never
   decreases, whether it is counting or frozen on the victory screen.
   `lastNow` is the clock reading the current elapsed time was taken at.
   */
  lemma {:induction false} ElapsedNeverDecreases(s: Session, lastNow: int, nows: seq<int>)
    requires s.currentTime <= lastNow - s.levelStartTime
    requires NonDecreasing(nows) && (|nows| > 0 ==> lastNow <= nows[0])
    ensures Ticks(s, nows).session.currentTime >= s.currentTime
    ensures Ticks(s, nows).session.levelStartTime == s.levelStartTime
    decreases |nows|
  {
    if |nows| > 0 {
      var t := Update(s, nows[0]);
      ElapsedNeverDecreases(t.session, nows[0], nows[1..]);
    }
  }
}
