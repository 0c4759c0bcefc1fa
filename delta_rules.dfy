/** The deterministic rules of the delta-time browser version (www/game.js):
    constants, gap placement, difficulty redraws, obstacle scrolling and
    scoring, the player integrator, the rotation clamp, the animation index,
    the clamped frame delta and the ground scroll. All of them are pure; the
    classes in DeltaGame are specified by them. */
module DeltaRules {
  import opened Common

  const GRAVITY: real := 1800.0
  const LIFT: real := -500.0
  const BEHOLDER_SIZE_FACTOR: real := 0.08
  const OBSTACLE_WIDTH_FACTOR: real := 0.1
  const OBSTACLE_GAP_FACTOR: real := 0.25
  const OBSTACLE_SPEED_FACTOR: real := 0.6
  const OBSTACLE_SPAWN_DISTANCE_FACTOR: real := 0.5
  const OBSTACLE_VERTICAL_MARGIN_FACTOR: real := 0.08
  const ANIMATION_THROTTLE: int := 20
  /** Length of `beholderFrames` once `setupAnimationFrames` has run (either branch). */
  const ANIMATION_FRAMES: int := 4
  const MAX_UP_ROTATION_DEG: real := -15.0
  const MAX_DOWN_ROTATION_DEG: real := 80.0
  const ROTATION_VELOCITY_SCALE: real := 600.0
  const MIN_OBSTACLE_GAP_FACTOR: real := 0.20
  const MAX_OBSTACLE_GAP_FACTOR: real := 0.35
  const MIN_SPAWN_DISTANCE_FACTOR: real := 0.4
  const MAX_SPAWN_DISTANCE_FACTOR: real := 0.7
  /** The largest simulated step, in seconds. */
  const MAX_DELTA: real := 1.0 / 30.0
  /** The canvas's drawing-buffer size, set once at load and never changed. */
  const RENDER_WIDTH: real := 600.0
  const RENDER_HEIGHT: real := 800.0

  /** The two `Math.random()` values one scoring event consumes. */
  datatype ScoreDraw = ScoreDraw(gap: real, spacing: real)
  {
    predicate Valid() { IsDraw(gap) && IsDraw(spacing) }
  }

  /** The fields of one obstacle object, as a value. */
  datatype ObstacleView = ObstacleView(
    x: real, width: real, gapY: real, gapHeight: real,
    passed: bool, topHeight: real, bottomY: real, active: bool)

  // ---------------------------------------------------------------- placement

  function GapHeight(canvasHeight: real): real { canvasHeight * OBSTACLE_GAP_FACTOR }

  function MinGapY(canvasHeight: real): real
  {
    canvasHeight * OBSTACLE_VERTICAL_MARGIN_FACTOR + GapHeight(canvasHeight) / 2.0
  }

  function MaxGapY(canvasHeight: real): real
  {
    canvasHeight * (1.0 - OBSTACLE_VERTICAL_MARGIN_FACTOR) - GapHeight(canvasHeight) / 2.0
  }

  /** The random range for the gap centre is empty exactly when the canvas
      has no height, so the centred fallback is only reachable then. */
  lemma FallbackOnlyWithoutHeight(canvasHeight: real)
    ensures MinGapY(canvasHeight) >= MaxGapY(canvasHeight) <==> canvasHeight <= 0.0
  {
  }

  /** `Math.random() * (hi - lo) + lo` when the range is non-empty, the
      canvas middle otherwise. */
  function GapCentreFrom(lo: real, hi: real, canvasHeight: real, r: real): (gapY: real)
    requires IsDraw(r)
    ensures lo < hi ==> lo <= gapY < hi
    ensures lo >= hi ==> gapY == canvasHeight / 2.0
  {
    if lo >= hi then canvasHeight / 2.0
    else
      ScaledDrawBelow(r, hi - lo);
      Scale(r, hi - lo) + lo
  }

  /** The gap centre `reset` chooses: uniform in [MinGapY, MaxGapY) when
      that range is non-empty, the middle of the canvas otherwise. */
  function GapCentre(canvasHeight: real, r: real): (gapY: real)
    requires IsDraw(r)
    ensures MinGapY(canvasHeight) < MaxGapY(canvasHeight) ==>
      MinGapY(canvasHeight) <= gapY < MaxGapY(canvasHeight)
    ensures MinGapY(canvasHeight) >= MaxGapY(canvasHeight) ==> gapY == canvasHeight / 2.0
  {
    GapCentreFrom(MinGapY(canvasHeight), MaxGapY(canvasHeight), canvasHeight, r)
  }

  /** The obstacle `reset(startX)` produces, whatever it held before. */
  function Placed(startX: real, canvasHeight: real, r: real): (p: ObstacleView)
    requires IsDraw(r)
    ensures p.x == startX && !p.passed && p.active
    ensures p.width == canvasHeight * OBSTACLE_WIDTH_FACTOR
    ensures p.gapHeight == canvasHeight * OBSTACLE_GAP_FACTOR
    ensures 0.0 <= p.topHeight && p.bottomY <= canvasHeight
    ensures MinGapY(canvasHeight) < MaxGapY(canvasHeight) ==>
      && canvasHeight * OBSTACLE_VERTICAL_MARGIN_FACTOR <= p.topHeight
      && p.bottomY <= canvasHeight * (1.0 - OBSTACLE_VERTICAL_MARGIN_FACTOR)
      && p.bottomY - p.topHeight == p.gapHeight
    ensures MinGapY(canvasHeight) >= MaxGapY(canvasHeight) ==> p.gapY == canvasHeight / 2.0
  {
    var gapHeight := GapHeight(canvasHeight);
    var gapY := GapCentre(canvasHeight, r);
    ObstacleView(startX, canvasHeight * OBSTACLE_WIDTH_FACTOR, gapY, gapHeight, false,
                 Max(0.0, gapY - gapHeight / 2.0), Min(canvasHeight, gapY + gapHeight / 2.0), true)
  }

  /** Where `spawnInitialObstacles` puts its k-th obstacle: just off the
      right edge, then one spawn distance apart. */
  function InitialX(k: nat, obstacleWidth: real, spawnDistance: real): real
  {
    RENDER_WIDTH + obstacleWidth + (k as real) * spawnDistance
  }

  /** The ground line `resetGame` sets: the top of the ground image when it
      has loaded (a non-zero height), a fixed fraction of the canvas
      otherwise. */
  function GroundYAfterReset(groundImageHeight: real): (groundY: real)
    ensures groundImageHeight == 0.0 ==> groundY == RENDER_HEIGHT * (1.0 - OBSTACLE_VERTICAL_MARGIN_FACTOR)
    ensures groundImageHeight != 0.0 ==> groundY == RENDER_HEIGHT - groundImageHeight
    ensures 0.0 < groundImageHeight ==> groundY < RENDER_HEIGHT
  {
    if groundImageHeight != 0.0 then RENDER_HEIGHT - groundImageHeight
    else RENDER_HEIGHT * (1.0 - OBSTACLE_VERTICAL_MARGIN_FACTOR)
  }

  // ----------------------------------------------------- difficulty redraws

  /** The `obstacleGap` drawn after a point is scored. */
  function RedrawnGap(canvasHeight: real, r: real): (gap: real)
    requires IsDraw(r)
    ensures 0.0 < canvasHeight ==>
      MIN_OBSTACLE_GAP_FACTOR * canvasHeight <= gap < MAX_OBSTACLE_GAP_FACTOR * canvasHeight
  {
    ScaledDrawBelow(r, MAX_OBSTACLE_GAP_FACTOR - MIN_OBSTACLE_GAP_FACTOR);
    canvasHeight * (r * (MAX_OBSTACLE_GAP_FACTOR - MIN_OBSTACLE_GAP_FACTOR) + MIN_OBSTACLE_GAP_FACTOR)
  }

  /** The `obstacleSpawnDistance` drawn after a point is scored. */
  function RedrawnSpawnDistance(canvasWidth: real, r: real): (d: real)
    requires IsDraw(r)
    ensures 0.0 < canvasWidth ==>
      MIN_SPAWN_DISTANCE_FACTOR * canvasWidth <= d < MAX_SPAWN_DISTANCE_FACTOR * canvasWidth
  {
    ScaledDrawBelow(r, MAX_SPAWN_DISTANCE_FACTOR - MIN_SPAWN_DISTANCE_FACTOR);
    canvasWidth * (r * (MAX_SPAWN_DISTANCE_FACTOR - MIN_SPAWN_DISTANCE_FACTOR) + MIN_SPAWN_DISTANCE_FACTOR)
  }

  // ------------------------------------------------------ scrolling, scoring

  /** One `update(deltaTime)` on this obstacle adds a point. */
  predicate Crosses(v: ObstacleView, speed: real, dt: real, beholderX: real)
  {
    v.active && !v.passed && v.x - speed * dt + v.width < beholderX
  }

  /** The obstacle after `update(deltaTime)`: an inactive one is untouched, an
      active one moves left by `speed * dt` and is marked passed once its
      right edge is left of the player's centre. */
  function Scrolled(v: ObstacleView, speed: real, dt: real, beholderX: real): (u: ObstacleView)
    ensures !v.active ==> u == v
    ensures v.active ==> u == v.(x := v.x - speed * dt, passed := u.passed)
    ensures u.active == v.active && u.width == v.width
    ensures v.passed ==> u.passed
    ensures u.passed && !v.passed <==> Crosses(v, speed, dt, beholderX)
  {
    if !v.active then v
    else
      var x := v.x - speed * dt;
      v.(x := x, passed := v.passed || x + v.width < beholderX)
  }

  /** Number of points scored by `update` on `v`, then on its result, and
      so on, with the successive deltas `dts`. */
  function PointsOver(v: ObstacleView, speed: real, dts: seq<real>, beholderX: real): nat
    decreases |dts|
  {
    if dts == [] then 0
    else
      (if Crosses(v, speed, dts[0], beholderX) then 1 else 0)
      + PointsOver(Scrolled(v, speed, dts[0], beholderX), speed, dts[1..], beholderX)
  }

  /** The `passed` guard: over any number of updates an obstacle scores at
      most one point, and none once it has been passed. */
  lemma {:induction false} ScoresAtMostOnce(v: ObstacleView, speed: real, dts: seq<real>, beholderX: real)
    ensures PointsOver(v, speed, dts, beholderX) <= (if v.passed then 0 else 1)
    decreases |dts|
  {
    if dts != [] {
      var u := Scrolled(v, speed, dts[0], beholderX);
      ScoresAtMostOnce(u, speed, dts[1..], beholderX);
    }
  }

  function Sum(dts: seq<real>): real
  {
    if dts == [] then 0.0 else dts[0] + Sum(dts[1..])
  }

  /** The obstacle after updates with the successive deltas `dts`. */
  function ScrolledOver(v: ObstacleView, speed: real, dts: seq<real>, beholderX: real): ObstacleView
    decreases |dts|
  {
    if dts == [] then v else ScrolledOver(Scrolled(v, speed, dts[0], beholderX), speed, dts[1..], beholderX)
  }

  /** An active obstacle's travel over several updates is the speed times
      the total elapsed time. */
  lemma {:induction false} TravelIsSpeedTimesTime(v: ObstacleView, speed: real, dts: seq<real>, beholderX: real)
    requires v.active
    ensures ScrolledOver(v, speed, dts, beholderX).x == v.x - speed * Sum(dts)
    ensures ScrolledOver(v, speed, dts, beholderX).active
    decreases |dts|
  {
    if dts != [] {
      var u := Scrolled(v, speed, dts[0], beholderX);
      TravelIsSpeedTimesTime(u, speed, dts[1..], beholderX);
      assert speed * Sum(dts) == speed * dts[0] + speed * Sum(dts[1..]);
    }
  }

  predicate OffScreen(v: ObstacleView) { v.x + v.width < 0.0 }

  /** What one playing tick does to an obstacle in the active list: update,
      then deactivate it if it is now wholly left of the canvas. */
  function AfterTick(v: ObstacleView, speed: real, dt: real, beholderX: real): (u: ObstacleView)
    ensures u.x == Scrolled(v, speed, dt, beholderX).x
    ensures u.passed == Scrolled(v, speed, dt, beholderX).passed
    ensures u.active <==> v.active && !OffScreen(u)
  {
    var s := Scrolled(v, speed, dt, beholderX);
    if OffScreen(s) then s.(active := false) else s
  }

  /** What one playing tick does to each obstacle of the active list. */
  function AfterTicks(vs: seq<ObstacleView>, speed: real, dt: real, beholderX: real): (us: seq<ObstacleView>)
    ensures |us| == |vs| && forall k :: 0 <= k < |vs| ==> us[k] == AfterTick(vs[k], speed, dt, beholderX)
  {
    seq(|vs|, k requires 0 <= k < |vs| => AfterTick(vs[k], speed, dt, beholderX))
  }

  /** Number of obstacles in `vs` that score during one tick. */
  function Crossings(vs: seq<ObstacleView>, speed: real, dt: real, beholderX: real): (n: nat)
    ensures n <= |vs|
  {
    if vs == [] then 0
    else (if Crosses(vs[0], speed, dt, beholderX) then 1 else 0) + Crossings(vs[1..], speed, dt, beholderX)
  }

  /** The draw used by the last scoring event of a backward pass over `vs`
      (the scoring obstacle with the lowest index), if any obstacle scores. */
  function LastRedraw(vs: seq<ObstacleView>, draws: seq<ScoreDraw>, speed: real, dt: real, beholderX: real)
    : (redraw: Option<ScoreDraw>)
    requires |draws| == |vs|
    ensures redraw.Some? ==> redraw.value in draws
  {
    if vs == [] then None
    else if Crosses(vs[0], speed, dt, beholderX) then Some(draws[0])
    else LastRedraw(vs[1..], draws[1..], speed, dt, beholderX)
  }

  /** Some scoring draw is consumed exactly when some obstacle scores, and it
      is one of the draws handed in. */
  lemma {:induction false} LastRedrawIffScored(vs: seq<ObstacleView>, draws: seq<ScoreDraw>, speed: real, dt: real, beholderX: real)
    requires |draws| == |vs|
    ensures LastRedraw(vs, draws, speed, dt, beholderX) == None <==> Crossings(vs, speed, dt, beholderX) == 0
    decreases |vs|
  {
    if vs != [] {
      LastRedrawIffScored(vs[1..], draws[1..], speed, dt, beholderX);
    }
  }

  /** `obstacleGap` after a tick whose last scoring draw was `redraw`. */
  function GapAfter(gap: real, redraw: Option<ScoreDraw>): real
    requires redraw.Some? ==> redraw.value.Valid()
  {
    if redraw.None? then gap else RedrawnGap(RENDER_HEIGHT, redraw.value.gap)
  }

  /** `obstacleSpawnDistance` after a tick whose last scoring draw was `redraw`. */
  function SpawnDistanceAfter(d: real, redraw: Option<ScoreDraw>): real
    requires redraw.Some? ==> redraw.value.Valid()
  {
    if redraw.None? then d else RedrawnSpawnDistance(RENDER_WIDTH, redraw.value.spacing)
  }

  /** The elements of `s` whose new state `vs` is still active, in order:
      what the backward splice loop leaves in the active list. */
  function Kept<T>(s: seq<T>, vs: seq<ObstacleView>): seq<T>
    requires |vs| == |s|
  {
    if s == [] then [] else (if vs[0].active then [s[0]] else []) + Kept(s[1..], vs[1..])
  }

  /** The elements of `s` whose new state is inactive, in the order the
      backward loop pushes them onto the pool (highest index first). */
  function DroppedRev<T>(s: seq<T>, vs: seq<ObstacleView>): seq<T>
    requires |vs| == |s|
  {
    if s == [] then [] else DroppedRev(s[1..], vs[1..]) + (if vs[0].active then [] else [s[0]])
  }

  /** The globals a scoring event writes: score, high score and the two
      difficulty parameters. */
  datatype Tally = Tally(score: nat, highScore: nat, gap: real, distance: real)

  /** One scoring event, redrawing with `d`. */
  function Scored(t: Tally, d: ScoreDraw): (u: Tally)
    requires d.Valid()
    ensures u.score == t.score + 1 && u.highScore == MaxInt(t.highScore, u.score)
    ensures u.gap == RedrawnGap(RENDER_HEIGHT, d.gap) && u.distance == RedrawnSpawnDistance(RENDER_WIDTH, d.spacing)
  {
    Tally(t.score + 1, MaxInt(t.highScore, t.score + 1),
          RedrawnGap(RENDER_HEIGHT, d.gap), RedrawnSpawnDistance(RENDER_WIDTH, d.spacing))
  }

  /** `t` is what a backward pass over `vs`, consuming `draws`, leaves of the
      tally `t0`. */
  ghost predicate TallyAfter(vs: seq<ObstacleView>, draws: seq<ScoreDraw>, speed: real, dt: real, beholderX: real,
                             t0: Tally, t: Tally)
    requires |draws| == |vs| && forall d :: d in draws ==> d.Valid()
  {
    && t.score == t0.score + Crossings(vs, speed, dt, beholderX)
    && t.highScore == MaxInt(t0.highScore, t.score)
    && t.gap == GapAfter(t0.gap, LastRedraw(vs, draws, speed, dt, beholderX))
    && t.distance == SpawnDistanceAfter(t0.distance, LastRedraw(vs, draws, speed, dt, beholderX))
  }

  /** One backward step of the tick loop at index `i`: a scoring obstacle
      adds its event on top of the suffix already processed. */
  lemma TallyStep(vs: seq<ObstacleView>, draws: seq<ScoreDraw>, speed: real, dt: real, beholderX: real,
                  i: nat, t0: Tally, t: Tally, u: Tally)
    requires |vs| == |draws| && i < |vs| && forall d :: d in draws ==> d.Valid()
    requires TallyAfter(vs[i + 1..], draws[i + 1..], speed, dt, beholderX, t0, t)
    requires u == if Crosses(vs[i], speed, dt, beholderX) then Scored(t, draws[i]) else t
    ensures TallyAfter(vs[i..], draws[i..], speed, dt, beholderX, t0, u)
  {
  }

  /** `active` and `pool` are what the backward loop leaves once it has
      processed indices `i` and above of `s` with new states `us`: the
      untouched prefix followed by the kept elements, and the old pool
      followed by the dropped ones. */
  ghost predicate SplitAt<T>(s: seq<T>, us: seq<ObstacleView>, i: nat, pool0: seq<T>, active: seq<T>, pool: seq<T>)
    requires i <= |s| == |us|
  {
    && active == s[..i] + Kept(s[i..], us[i..])
    && pool == pool0 + DroppedRev(s[i..], us[i..])
  }

  /** Before the step at `j`, the element at `j` of the active list is still
      the original one. */
  lemma SplitHead<T>(s: seq<T>, us: seq<ObstacleView>, j: nat, pool0: seq<T>, active: seq<T>, pool: seq<T>)
    requires j < |s| == |us| && SplitAt(s, us, j + 1, pool0, active, pool)
    ensures j < |active| && active[j] == s[j]
  {
  }

  /** `Kept` and `DroppedRev` of a suffix, unfolded once. */
  lemma SplitUnfold<T>(s: seq<T>, us: seq<ObstacleView>, j: nat)
    requires j < |s| == |us|
    ensures Kept(s[j..], us[j..]) == (if us[j].active then [s[j]] else []) + Kept(s[j + 1..], us[j + 1..])
    ensures DroppedRev(s[j..], us[j..]) == DroppedRev(s[j + 1..], us[j + 1..]) + (if us[j].active then [] else [s[j]])
  {
  }

  /** The list bookkeeping of one backward step at index `j`: keeping the
      element leaves the lists as they are; dropping it splices it out of
      the active list and pushes it onto the pool. */
  lemma SplitStep<T>(s: seq<T>, us: seq<ObstacleView>, j: nat, pool0: seq<T>,
                     active: seq<T>, pool: seq<T>, active': seq<T>, pool': seq<T>, removed: bool)
    requires j < |s| == |us| && j < |active| && SplitAt(s, us, j + 1, pool0, active, pool)
    requires removed <==> !us[j].active
    requires removed ==> active' == active[..j] + active[j + 1..] && pool' == pool + [active[j]]
    requires !removed ==> active' == active && pool' == pool
    ensures SplitAt(s, us, j, pool0, active', pool')
  {
  }

  /** Splitting a list into kept and dropped elements loses and invents
      nothing: the two parts have the list's length, every kept element is
      at an active position and every dropped one at an inactive position. */
  lemma {:induction false} KeptAndDropped<T>(s: seq<T>, vs: seq<ObstacleView>)
    requires |vs| == |s|
    ensures |Kept(s, vs)| + |DroppedRev(s, vs)| == |s|
    ensures forall x :: x in Kept(s, vs) ==> exists k :: 0 <= k < |s| && s[k] == x && vs[k].active
    ensures forall x :: x in DroppedRev(s, vs) ==> exists k :: 0 <= k < |s| && s[k] == x && !vs[k].active
    decreases |s|
  {
    if s != [] {
      KeptAndDropped(s[1..], vs[1..]);
      forall x | x in Kept(s, vs)
        ensures exists k :: 0 <= k < |s| && s[k] == x && vs[k].active
      {
        if x in Kept(s[1..], vs[1..]) {
          var k :| 0 <= k < |s[1..]| && s[1..][k] == x && vs[1..][k].active;
          assert s[k + 1] == x && vs[k + 1].active;
        } else {
          assert s[0] == x && vs[0].active;
        }
      }
      forall x | x in DroppedRev(s, vs)
        ensures exists k :: 0 <= k < |s| && s[k] == x && !vs[k].active
      {
        if x in DroppedRev(s[1..], vs[1..]) {
          var k :| 0 <= k < |s[1..]| && s[1..][k] == x && !vs[1..][k].active;
          assert s[k + 1] == x && !vs[k + 1].active;
        } else {
          assert s[0] == x && !vs[0].active;
        }
      }
    }
  }

  // --------------------------------------------------------- player physics

  /** Vertical position and velocity of the player. */
  datatype Body = Body(y: real, v: real)

  /** The ground contact line: the centre height at which the player's
      bottom edge touches `groundY`. */
  function GroundLine(groundY: real, size: real): real { groundY - size / 2.0 }

  /** The physics part of `Beholder(deltaTime)`: nothing moves at the start
      screen; otherwise velocity is updated before position, and after game
      over the player is pinned to the ground line once it reaches it. */
  function Integrate(state: GameState, b: Body, dt: real, groundY: real, size: real): (r: Body)
    ensures state == Start ==> r == b
    ensures state == Playing ==> r.v == b.v + GRAVITY * dt && r.y == b.y + r.v * dt
    ensures state == GameOver ==> r.y <= GroundLine(groundY, size)
    ensures state == GameOver && b.y + (b.v + GRAVITY * dt) * dt >= GroundLine(groundY, size) ==>
      r == Body(GroundLine(groundY, size), 0.0)
    ensures state == GameOver && r.y < GroundLine(groundY, size) ==>
      r.v == b.v + GRAVITY * dt && r.y == b.y + r.v * dt
  {
    if state == Start then b
    else
      var v := b.v + GRAVITY * dt;
      var y := b.y + v * dt;
      if state == GameOver && y >= GroundLine(groundY, size) then Body(GroundLine(groundY, size), 0.0)
      else Body(y, v)
  }

  /** Once grounded after game over, further frames change nothing. */
  lemma PinnedIsFixedPoint(groundY: real, size: real, dt: real)
    requires 0.0 <= dt
    ensures Integrate(GameOver, Body(GroundLine(groundY, size), 0.0), dt, groundY, size)
         == Body(GroundLine(groundY, size), 0.0)
  {
  }

  /** `n` playing frames with the same delta and no input. */
  function Fall(n: nat, b: Body, dt: real): Body
  {
    if n == 0 then b else Fall(n - 1, Integrate(Playing, b, dt, 0.0, 0.0), dt)
  }

  /** Free fall from velocity v0: after n equal frames the velocity is
      v0 + n * GRAVITY * dt, and, because velocity is updated first, the
      position has moved by n * v0 * dt + GRAVITY * dt * dt * n * (n + 1) / 2. */
  lemma {:induction false} FreeFall(n: nat, b: Body, dt: real)
    ensures Fall(n, b, dt).v == b.v + (n as real) * GRAVITY * dt
    ensures Fall(n, b, dt).y ==
      b.y + (n as real) * b.v * dt + GRAVITY * dt * dt * (n as real) * (n as real + 1.0) / 2.0
  {
    if n > 0 {
      var b1 := Integrate(Playing, b, dt, 0.0, 0.0);
      FreeFall(n - 1, b1, dt);
      var m := (n - 1) as real;
      assert b1.v == b.v + GRAVITY * dt;
      assert b1.y == b.y + b.v * dt + GRAVITY * dt * dt;
      calc {
        Fall(n, b, dt).y;
        b1.y + m * b1.v * dt + GRAVITY * dt * dt * m * (m + 1.0) / 2.0;
        b.y + b.v * dt + GRAVITY * dt * dt + m * (b.v + GRAVITY * dt) * dt + GRAVITY * dt * dt * m * (m + 1.0) / 2.0;
        { assert m * (b.v + GRAVITY * dt) * dt == m * b.v * dt + GRAVITY * dt * dt * m; }
        b.y + (m + 1.0) * b.v * dt + GRAVITY * dt * dt * (1.0 + m + m * (m + 1.0) / 2.0);
        { assert 1.0 + m + m * (m + 1.0) / 2.0 == (m + 1.0) * (m + 2.0) / 2.0; }
        b.y + (m + 1.0) * b.v * dt + GRAVITY * dt * dt * (m + 1.0) * (m + 2.0) / 2.0;
      }
    }
  }

  /** The drawn tilt in degrees (the source converts the same clamp to
      radians). It follows the velocity linearly, is clamped to
      [MAX_UP_ROTATION_DEG, MAX_DOWN_ROTATION_DEG], is level at the start
      screen and points fully down when grounded after game over. */
  function Rotation(state: GameState, velocityY: real, grounded: bool): (angle: real)
    ensures MAX_UP_ROTATION_DEG <= angle <= MAX_DOWN_ROTATION_DEG
    ensures state == Start ==> angle == 0.0
    ensures state == GameOver && grounded ==> angle == MAX_DOWN_ROTATION_DEG
    ensures state == Playing || (state == GameOver && !grounded) ==>
      var target := velocityY / ROTATION_VELOCITY_SCALE * MAX_DOWN_ROTATION_DEG;
      && (MAX_UP_ROTATION_DEG <= target <= MAX_DOWN_ROTATION_DEG ==> angle == target)
      && (target < MAX_UP_ROTATION_DEG ==> angle == MAX_UP_ROTATION_DEG)
      && (MAX_DOWN_ROTATION_DEG < target ==> angle == MAX_DOWN_ROTATION_DEG)
  {
    if state == Start then 0.0
    else if state == GameOver && grounded then MAX_DOWN_ROTATION_DEG
    else
      var target := velocityY / ROTATION_VELOCITY_SCALE * MAX_DOWN_ROTATION_DEG;
      Max(MAX_UP_ROTATION_DEG, Min(target, MAX_DOWN_ROTATION_DEG))
  }

  /** The animation frame index after one `Beholder` call: it advances every
      ANIMATION_THROTTLE frames, wraps, and freezes after game over. */
  function NextFrameIndex(state: GameState, frameCount: int, index: int): (next: int)
    requires 0 <= index < ANIMATION_FRAMES
    ensures 0 <= next < ANIMATION_FRAMES
    ensures state == GameOver || frameCount % ANIMATION_THROTTLE != 0 ==> next == index
    ensures state != GameOver && frameCount % ANIMATION_THROTTLE == 0 ==>
      next == if index == ANIMATION_FRAMES - 1 then 0 else index + 1
  {
    if state != GameOver && frameCount % ANIMATION_THROTTLE == 0 then (index + 1) % ANIMATION_FRAMES
    else index
  }

  // ------------------------------------------------------------ collisions

  /** What `checkCollisions` reports, by the first test that fires. */
  datatype Contact = Clear | Ceiling | Ground | Column

  /** Some obstacle in `vs` is hit by the box `b`; the collision span uses
      the global obstacle width, not each obstacle's own. */
  ghost predicate HitsAny(b: Box, vs: seq<ObstacleView>, width: real)
    requires 0.0 <= width
  {
    exists k :: 0 <= k < |vs| && HitsObstacle(b, vs[k].x, width, vs[k].topHeight, vs[k].bottomY)
  }

  /** `checkCollisions` tests the ceiling, then the ground (touching counts),
      then the obstacles. A box above the ground, below the ceiling and
      inside every gap is clear. */
  ghost function ContactOf(b: Box, groundY: real, vs: seq<ObstacleView>, width: real): (c: Contact)
    requires 0.0 <= width
    ensures b.top < 0.0 <==> c == Ceiling
    ensures 0.0 <= b.top && groundY <= b.bottom <==> c == Ground
    ensures c == Column ==> b.bottom < groundY && exists k :: 0 <= k < |vs| && OverlapsSpan(b, vs[k].x, width)
    ensures 0.0 <= b.top && b.bottom < groundY
         && (forall k :: 0 <= k < |vs| ==> vs[k].topHeight <= b.top && b.bottom <= vs[k].bottomY)
         ==> c == Clear
  {
    if b.top < 0.0 then Ceiling
    else if b.bottom >= groundY then Ground
    else if HitsAny(b, vs, width) then Column
    else Clear
  }

  /** The player and the game state at the end of a frame. */
  datatype Settled = Settled(body: Body, state: GameState)

  /** The playing branch of `handleGameStates` for a player already moved
      to `b`: any contact ends the game, and a ground contact also pins the
      player on the ground line at rest. A player that stays in play is
      inside the canvas, above the ground. */
  ghost function Resolve(b: Body, groundY: real, size: real, beholderX: real,
                         vs: seq<ObstacleView>, width: real): (s: Settled)
    requires 0.0 <= size && 0.0 <= width
    ensures s.state == Playing || s.state == GameOver
    ensures s.state == GameOver <==> ContactOf(PlayerBox(beholderX, b.y, size), groundY, vs, width) != Clear
    ensures s.state == Playing ==> s.body == b && 0.0 <= b.y - size / 2.0 && b.y + size / 2.0 < groundY
    ensures b.y + size / 2.0 >= groundY && 0.0 <= b.y - size / 2.0 ==>
      s == Settled(Body(GroundLine(groundY, size), 0.0), GameOver)
  {
    match ContactOf(PlayerBox(beholderX, b.y, size), groundY, vs, width)
    case Clear => Settled(b, Playing)
    case Ground => Settled(Body(GroundLine(groundY, size), 0.0), GameOver)
    case _ => Settled(b, GameOver)
  }

  /** The end of a frame of `gameLoop`: the body is integrated, then, while
      playing, the moved player's contacts are resolved. */
  ghost function Settle(state: GameState, b: Body, dt: real, groundY: real, size: real,
                        beholderX: real, vs: seq<ObstacleView>, width: real): (s: Settled)
    requires 0.0 <= size && 0.0 <= width
    ensures state != Playing ==> s == Settled(Integrate(state, b, dt, groundY, size), state)
    ensures state == Playing ==>
      s == Resolve(Integrate(Playing, b, dt, groundY, size), groundY, size, beholderX, vs, width)
  {
    var m := Integrate(state, b, dt, groundY, size);
    if state != Playing then Settled(m, state) else Resolve(m, groundY, size, beholderX, vs, width)
  }

  /** What the end of a frame guarantees whichever obstacles are on screen:
      away from the playing state the body is just integrated; while playing,
      the game goes on only with the moved player inside the canvas, above
      the ground, while leaving the top ends the game and reaching the ground
      ends it with the player pinned on the ground line at rest. */
  ghost predicate SettledFrom(state: GameState, b: Body, dt: real, groundY: real, size: real, s: Settled)
  {
    var m := Integrate(state, b, dt, groundY, size);
    && (state != Playing ==> s == Settled(m, state))
    && (state == Playing ==> s.state == Playing || s.state == GameOver)
    && (state == Playing && s.state == Playing ==>
          s.body == m && 0.0 <= m.y - size / 2.0 && m.y + size / 2.0 < groundY)
    && (state == Playing && s.state == GameOver ==>
          s.body == m || s.body == Body(GroundLine(groundY, size), 0.0))
    && (state == Playing && m.y - size / 2.0 < 0.0 ==> s == Settled(m, GameOver))
    && (state == Playing && 0.0 <= m.y - size / 2.0 && groundY <= m.y + size / 2.0 ==>
          s == Settled(Body(GroundLine(groundY, size), 0.0), GameOver))
  }

  /** `Settle` keeps every promise of `SettledFrom`, whatever the obstacles. */
  lemma SettleIsSettledFrom(state: GameState, b: Body, dt: real, groundY: real, size: real,
                            beholderX: real, vs: seq<ObstacleView>, width: real)
    requires 0.0 <= size && 0.0 <= width
    ensures SettledFrom(state, b, dt, groundY, size, Settle(state, b, dt, groundY, size, beholderX, vs, width))
  {
  }

  // ------------------------------------------------------------- the clock

  /** The simulated step between two animation-frame timestamps (in
      milliseconds): their difference in seconds, capped at MAX_DELTA. */
  function FrameDelta(timestamp: real, lastTime: real): (dt: real)
    ensures dt <= MAX_DELTA
    ensures dt <= (timestamp - lastTime) / 1000.0
    ensures dt == MAX_DELTA || dt == (timestamp - lastTime) / 1000.0
    ensures lastTime <= timestamp ==> 0.0 <= dt
  {
    Min((timestamp - lastTime) / 1000.0, MAX_DELTA)
  }

  // ------------------------------------------------------------ the ground

  /** `updateGround`: scroll left by `step`, and jump right by one tile
      width once a whole tile has scrolled off. Starting within one tile of
      the origin and stepping by at most a tile, it stays within one tile. */
  function ScrollGround(groundX: real, step: real, groundWidth: real): (x: real)
    ensures x == groundX - step || x == groundX - step + groundWidth
    ensures 0.0 < groundWidth ==> (x == groundX - step + groundWidth <==> groundX - step <= -groundWidth)
    ensures -groundWidth < groundX <= 0.0 && 0.0 <= step <= groundWidth ==> -groundWidth < x <= 0.0
  {
    var x := groundX - step;
    if x <= -groundWidth then x + groundWidth else x
  }
}
