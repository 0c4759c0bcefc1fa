/** The deterministic rules of the older frame-based version (game.js): the
    fixed per-frame constants, the gap draw, obstacle scrolling and scoring,
    the splice bookkeeping of the obstacle loop, the player physics, the
    animation index and the collision test. All of them are pure; the
    classes in FrameGame are specified by them. */
module FrameRules {
  import opened Common

  const GRAVITY: real := 0.15
  const LIFT: real := -4.0
  const BEHOLDER_SIZE: real := 50.0
  const OBSTACLE_WIDTH: real := 60.0
  const OBSTACLE_GAP: real := 150.0
  const OBSTACLE_SPEED: real := 1.5
  const OBSTACLE_SPAWN_DISTANCE: real := 200.0
  /** The animation frame advances on frames whose counter is a multiple of this. */
  const ANIMATION_SPEED: int := 15
  /** Length of `beholderFrames` once `setupAnimationFrames` has run. */
  const ANIMATION_FRAMES: int := 3
  /** Least distance `addObstacle` aims to keep between a gap and a canvas edge. */
  const EDGE_MARGIN: real := 30.0
  /** An input after game over restarts only once the frame counter exceeds this. */
  const RESTART_DELAY: int := 15
  /** How far past the right edge `spawnInitialObstacles` puts the first obstacle. */
  const FIRST_OFFSET: real := 100.0
  /** Amplitude of the idle bob on the start screen. */
  const BOB_AMPLITUDE: real := 5.0

  /** The fields of one `Obstacle` object, as a value. */
  datatype ObstacleView = ObstacleView(
    x: real, gapY: real, scored: bool, topHeight: real, bottomY: real, bottomHeight: real)

  // ---------------------------------------------------------------- placement

  /** What `new Obstacle(x, gapY)` holds: a gap of fixed height OBSTACLE_GAP
      centred on `gapY`, and a stalagmite reaching down to the canvas
      bottom. */
  function Built(x: real, gapY: real, canvasHeight: real): (v: ObstacleView)
    ensures v.x == x && v.gapY == gapY && !v.scored
    ensures v.bottomY - v.topHeight == OBSTACLE_GAP
    ensures v.topHeight + v.bottomY == 2.0 * gapY
    ensures v.bottomY + v.bottomHeight == canvasHeight
  {
    var bottomY := gapY + OBSTACLE_GAP / 2.0;
    ObstacleView(x, gapY, false, gapY - OBSTACLE_GAP / 2.0, bottomY, canvasHeight - bottomY)
  }

  function MinGapY(): real { OBSTACLE_GAP / 2.0 + EDGE_MARGIN }

  function MaxGapY(canvasHeight: real): real { canvasHeight - OBSTACLE_GAP / 2.0 - EDGE_MARGIN }

  /** The gap centre `addObstacle` draws: `r * (maxGapY - minGapY) + minGapY`.
      There is no fallback: on a canvas too short for the margins the range
      is inverted and the draw lands in (maxGapY, minGapY]. */
  function DrawnGapY(canvasHeight: real, r: real): (gapY: real)
    requires IsDraw(r)
    ensures MinGapY() < MaxGapY(canvasHeight) ==> MinGapY() <= gapY < MaxGapY(canvasHeight)
    ensures MinGapY() == MaxGapY(canvasHeight) ==> gapY == MinGapY()
    ensures MaxGapY(canvasHeight) < MinGapY() ==> MaxGapY(canvasHeight) < gapY <= MinGapY()
  {
    var d := MaxGapY(canvasHeight) - MinGapY();
    ScaledDrawBetween(r, d);
    Scale(r, d) + MinGapY()
  }

  /** The obstacle `addObstacle(xPos)` appends. On a canvas at least
      OBSTACLE_GAP + 2 * EDGE_MARGIN high both parts leave EDGE_MARGIN of
      the canvas free; on a shorter one the stalagmite always starts inside
      the bottom margin. */
  function Drawn(xPos: real, canvasHeight: real, r: real): (v: ObstacleView)
    requires IsDraw(r)
    ensures v.x == xPos && !v.scored && v.bottomY - v.topHeight == OBSTACLE_GAP
    ensures v.bottomY + v.bottomHeight == canvasHeight
    ensures OBSTACLE_GAP + 2.0 * EDGE_MARGIN <= canvasHeight ==>
      EDGE_MARGIN <= v.topHeight && v.bottomY <= canvasHeight - EDGE_MARGIN
    ensures canvasHeight < OBSTACLE_GAP + 2.0 * EDGE_MARGIN ==>
      v.topHeight <= EDGE_MARGIN && canvasHeight - EDGE_MARGIN < v.bottomY
  {
    Built(xPos, DrawnGapY(canvasHeight, r), canvasHeight)
  }

  /** Where `spawnInitialObstacles` puts its k-th obstacle. */
  function InitialX(k: nat, canvasWidth: real): real
  {
    canvasWidth + FIRST_OFFSET + (k as real) * OBSTACLE_SPAWN_DISTANCE
  }

  // ----------------------------------------------------- scrolling, scoring

  /** The player's centre line, `canvas.width / 3`. */
  function BeholderX(canvasWidth: real): real { canvasWidth / 3.0 }

  /** An obstacle's right edge must be left of this line to score: half a
      player width left of the player's centre. */
  function ScoreLine(canvasWidth: real): real { BeholderX(canvasWidth) - BEHOLDER_SIZE * 0.5 }

  /** An obstacle placed at or right of the canvas width, as the initial
      and the spawned ones are, starts short of the score line. */
  lemma SpawnedBeforeTheLine(canvasWidth: real, x: real)
    requires 0.0 <= canvasWidth <= x
    ensures ScoreLine(canvasWidth) <= x + OBSTACLE_WIDTH
  {
  }

  /** One `update()` on this obstacle adds a point. The source nests two
      tests; the outer one (right edge left of the player's centre) is
      implied by the inner one. */
  predicate Crosses(v: ObstacleView, canvasWidth: real): (c: bool)
    ensures c <==> !v.scored && v.x - OBSTACLE_SPEED + OBSTACLE_WIDTH < ScoreLine(canvasWidth)
  {
    var x := v.x - OBSTACLE_SPEED;
    && !v.scored && x + OBSTACLE_WIDTH < BeholderX(canvasWidth)
    && x + OBSTACLE_WIDTH < BeholderX(canvasWidth) - BEHOLDER_SIZE * 0.5
  }

  /** The obstacle after `update()`: OBSTACLE_SPEED further left, and marked
      scored when it scores. */
  function Updated(v: ObstacleView, canvasWidth: real): (u: ObstacleView)
    ensures u.x == v.x - OBSTACLE_SPEED
    ensures u.scored <==> v.scored || Crosses(v, canvasWidth)
    ensures u.gapY == v.gapY && u.topHeight == v.topHeight && u.bottomY == v.bottomY
    ensures u.bottomHeight == v.bottomHeight
  {
    v.(x := v.x - OBSTACLE_SPEED, scored := v.scored || Crosses(v, canvasWidth))
  }

  /** The obstacle after `n` updates. */
  function UpdatedTimes(v: ObstacleView, canvasWidth: real, n: nat): ObstacleView
    decreases n
  {
    if n == 0 then v else UpdatedTimes(Updated(v, canvasWidth), canvasWidth, n - 1)
  }

  /** Points scored by `n` successive updates of `v`. */
  function PointsOver(v: ObstacleView, canvasWidth: real, n: nat): nat
    decreases n
  {
    if n == 0 then 0
    else (if Crosses(v, canvasWidth) then 1 else 0) + PointsOver(Updated(v, canvasWidth), canvasWidth, n - 1)
  }

  /** The `scored` flag in action: an obstacle that is scored or not yet
      past the score line moves OBSTACLE_SPEED per update, and over any
      number of updates scores exactly one point if it was unscored and ends
      past the line, and none otherwise; it is scored at the end exactly
      when it was scored before or scored on the way. The requirement
      leaves out only an unscored obstacle that is already past the line,
      and no obstacle starts there: every one is placed at or right of the
      canvas width (see `SpawnedBeforeTheLine`). */
  lemma {:induction false} ScoresOncePastTheLine(v: ObstacleView, canvasWidth: real, n: nat)
    requires v.scored || ScoreLine(canvasWidth) <= v.x + OBSTACLE_WIDTH
    ensures UpdatedTimes(v, canvasWidth, n).x == v.x - (n as real) * OBSTACLE_SPEED
    ensures PointsOver(v, canvasWidth, n)
      == if !v.scored && v.x - (n as real) * OBSTACLE_SPEED + OBSTACLE_WIDTH < ScoreLine(canvasWidth) then 1 else 0
    ensures UpdatedTimes(v, canvasWidth, n).scored <==> v.scored || PointsOver(v, canvasWidth, n) == 1
    decreases n
  {
    if n > 0 {
      var u := Updated(v, canvasWidth);
      ScoresOncePastTheLine(u, canvasWidth, n - 1);
      assert ((n - 1) as real) * OBSTACLE_SPEED + OBSTACLE_SPEED == (n as real) * OBSTACLE_SPEED;
    }
  }

  /** The splice test of the obstacle loop: wholly left of the canvas. */
  predicate OffScreen(v: ObstacleView) { v.x + OBSTACLE_WIDTH < 0.0 }

  /** What one playing frame's update does to each obstacle of the list. */
  function UpdatedAll(vs: seq<ObstacleView>, canvasWidth: real): (us: seq<ObstacleView>)
    ensures |us| == |vs| && forall k :: 0 <= k < |vs| ==> us[k] == Updated(vs[k], canvasWidth)
  {
    seq(|vs|, k requires 0 <= k < |vs| => Updated(vs[k], canvasWidth))
  }

  /** Number of obstacles in `vs` that score during one frame. */
  function Crossings(vs: seq<ObstacleView>, canvasWidth: real): (n: nat)
    ensures n <= |vs|
  {
    if vs == [] then 0
    else (if Crosses(vs[0], canvasWidth) then 1 else 0) + Crossings(vs[1..], canvasWidth)
  }

  /** `Crossings` of a suffix, unfolded once. */
  lemma CrossingsStep(vs: seq<ObstacleView>, canvasWidth: real, j: nat)
    requires j < |vs|
    ensures Crossings(vs[j..], canvasWidth)
      == (if Crosses(vs[j], canvasWidth) then 1 else 0) + Crossings(vs[j + 1..], canvasWidth)
  {
  }

  /** The elements of `s` whose updated state `us` is still on screen, in
      their original order: what the backward splice loop leaves. */
  function Kept<T>(s: seq<T>, us: seq<ObstacleView>): seq<T>
    requires |us| == |s|
  {
    if s == [] then [] else (if OffScreen(us[0]) then [] else [s[0]]) + Kept(s[1..], us[1..])
  }

  /** `Kept` keeps exactly the on-screen elements: each kept element sits at
      an on-screen position, and each on-screen position's element is kept. */
  lemma {:induction false} KeptExactly<T>(s: seq<T>, us: seq<ObstacleView>)
    requires |us| == |s|
    ensures |Kept(s, us)| <= |s|
    ensures forall x :: x in Kept(s, us) ==> exists k :: 0 <= k < |s| && s[k] == x && !OffScreen(us[k])
    ensures forall k :: 0 <= k < |s| && !OffScreen(us[k]) ==> s[k] in Kept(s, us)
    decreases |s|
  {
    if s != [] {
      KeptExactly(s[1..], us[1..]);
      forall x | x in Kept(s, us)
        ensures exists k :: 0 <= k < |s| && s[k] == x && !OffScreen(us[k])
      {
        if x in Kept(s[1..], us[1..]) {
          var k :| 0 <= k < |s[1..]| && s[1..][k] == x && !OffScreen(us[1..][k]);
          assert s[k + 1] == x && !OffScreen(us[k + 1]);
        } else {
          assert s[0] == x && !OffScreen(us[0]);
        }
      }
      forall k | 0 <= k < |s| && !OffScreen(us[k])
        ensures s[k] in Kept(s, us)
      {
        if k > 0 {
          assert s[1..][k - 1] == s[k] && us[1..][k - 1] == us[k];
        }
      }
    }
  }

  /** `active` is what the backward loop leaves once it has processed
      indices `i` and above of `s` with new states `us`: the untouched
      prefix followed by the kept part of the suffix. */
  ghost predicate SplitAt<T>(s: seq<T>, us: seq<ObstacleView>, i: nat, active: seq<T>)
    requires i <= |s| == |us|
  {
    active == s[..i] + Kept(s[i..], us[i..])
  }

  /** Before the step at `j`, the element at `j` of the list is still the
      original one. */
  lemma SplitHead<T>(s: seq<T>, us: seq<ObstacleView>, j: nat, active: seq<T>)
    requires j < |s| == |us| && SplitAt(s, us, j + 1, active)
    ensures j < |active| && active[j] == s[j]
  {
  }

  /** The list bookkeeping of one backward step at index `j`: an obstacle
      still on screen leaves the list as it is; one off screen is spliced
      out. */
  lemma SplitStep<T>(s: seq<T>, us: seq<ObstacleView>, j: nat, active: seq<T>, active': seq<T>, removed: bool)
    requires j < |s| == |us| && j < |active| && SplitAt(s, us, j + 1, active)
    requires removed <==> OffScreen(us[j])
    requires removed ==> active' == active[..j] + active[j + 1..]
    requires !removed ==> active' == active
    ensures SplitAt(s, us, j, active')
  {
  }

  // --------------------------------------------------------- player physics

  /** Vertical position and velocity of the player. */
  datatype Body = Body(y: real, v: real)

  /** The position update of `Beholder()`: while playing, gravity is added
      to the velocity and then the velocity to the position, once per frame;
      on the start screen the player hovers at the canvas middle offset by
      the bob, at rest; after game over nothing moves. */
  function Step(state: GameState, b: Body, canvasHeight: real, bob: real): (r: Body)
    ensures state == Playing ==> r.v == b.v + GRAVITY && r.y == b.y + r.v
    ensures state == Start ==> r.v == 0.0 && r.y == canvasHeight / 2.0 + bob
    ensures state == GameOver ==> r == b
  {
    match state
    case Playing => Body(b.y + (b.v + GRAVITY), b.v + GRAVITY)
    case Start => Body(canvasHeight / 2.0 + bob, 0.0)
    case GameOver => b
  }

  /** `n` playing frames with no input. */
  function Flight(n: nat, b: Body): Body
  {
    if n == 0 then b else Flight(n - 1, Step(Playing, b, 0.0, 0.0))
  }

  /** Free fall: after n frames the velocity has grown by n * GRAVITY and,
      because velocity is updated first, the position has moved by
      n * v0 + GRAVITY * n * (n + 1) / 2. */
  lemma {:induction false} FreeFall(n: nat, b: Body)
    ensures Flight(n, b).v == b.v + (n as real) * GRAVITY
    ensures Flight(n, b).y == b.y + (n as real) * b.v + GRAVITY * (n as real) * (n as real + 1.0) / 2.0
  {
    if n > 0 {
      var b1 := Step(Playing, b, 0.0, 0.0);
      FreeFall(n - 1, b1);
      var m := (n - 1) as real;
      calc {
        Flight(n, b).y;
        b1.y + m * b1.v + GRAVITY * m * (m + 1.0) / 2.0;
        b.y + (b.v + GRAVITY) + m * (b.v + GRAVITY) + GRAVITY * m * (m + 1.0) / 2.0;
        { assert m * (b.v + GRAVITY) == m * b.v + m * GRAVITY; }
        b.y + (m + 1.0) * b.v + GRAVITY * (1.0 + m + m * (m + 1.0) / 2.0);
        { assert 1.0 + m + m * (m + 1.0) / 2.0 == (m + 1.0) * (m + 2.0) / 2.0; }
        b.y + (m + 1.0) * b.v + GRAVITY * (m + 1.0) * (m + 2.0) / 2.0;
      }
    }
  }

  /** After a flap (velocity LIFT) the player keeps rising for 26 frames and
      is falling from the 27th on. */
  lemma FlapRisesFor26Frames(y: real, n: nat)
    ensures n <= 26 ==> Flight(n, Body(y, LIFT)).v < 0.0
    ensures 27 <= n ==> Flight(n, Body(y, LIFT)).v > 0.0
  {
    FreeFall(n, Body(y, LIFT));
  }

  /** The animation frame index after one `Beholder()` call: it advances
      every ANIMATION_SPEED frames, wraps, and freezes after game over. */
  function NextFrameIndex(state: GameState, frameCount: int, index: int): (next: int)
    requires 0 <= index < ANIMATION_FRAMES
    ensures 0 <= next < ANIMATION_FRAMES
    ensures state == GameOver || frameCount % ANIMATION_SPEED != 0 ==> next == index
    ensures state != GameOver && frameCount % ANIMATION_SPEED == 0 ==>
      next == if index == ANIMATION_FRAMES - 1 then 0 else index + 1
  {
    if state != GameOver && frameCount % ANIMATION_SPEED == 0 then
      (index + 1) % ANIMATION_FRAMES
    else index
  }

  // ------------------------------------------------------------ collisions

  /** Some obstacle in `vs` is hit by the box `b`. */
  ghost predicate HitsAny(b: Box, vs: seq<ObstacleView>)
  {
    exists k :: 0 <= k < |vs| && HitsObstacle(b, vs[k].x, OBSTACLE_WIDTH, vs[k].topHeight, vs[k].bottomY)
  }

  /** `checkCollisions()`: the box leaves the canvas at the top or the
      bottom, or some obstacle hits it. A box inside the canvas and inside
      every gap is clear, and so is one inside the canvas that is
      horizontally clear of every obstacle's narrowed span. */
  ghost predicate Collides(b: Box, canvasHeight: real, vs: seq<ObstacleView>): (c: bool)
    ensures b.top < 0.0 || b.bottom > canvasHeight ==> c
    ensures 0.0 <= b.top && b.bottom <= canvasHeight
         && (forall k :: 0 <= k < |vs| ==> vs[k].topHeight <= b.top && b.bottom <= vs[k].bottomY)
         ==> !c
    ensures 0.0 <= b.top && b.bottom <= canvasHeight
         && (forall k :: 0 <= k < |vs| ==> !OverlapsSpan(b, vs[k].x, OBSTACLE_WIDTH))
         ==> !c
  {
    b.top < 0.0 || b.bottom > canvasHeight || HitsAny(b, vs)
  }
}
