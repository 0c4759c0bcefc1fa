/** The stateful part of the delta-time browser version (www/game.js): the
    pooled `Obstacle` objects and the module-level globals, gathered into a
    `Game` object whose methods are the source's functions. */
module DeltaGame {
  import opened Common
  import opened DeltaRules

  /** The obstacles' fields, as values. */
  ghost function Views(s: seq<Obstacle>): (vs: seq<ObstacleView>)
    reads s
    ensures |vs| == |s| && forall k :: 0 <= k < |s| ==> vs[k] == s[k].View()
  {
    if s == [] then [] else [s[0].View()] + Views(s[1..])
  }

  /** What a pass of the obstacle loop starts from: the list `S`, its views
      `V`, the views `T` it will leave, the pool, the scoring globals, and
      the inputs that stay fixed during the pass. */
  datatype ScrollStart = ScrollStart(
    S: seq<Obstacle>, V: seq<ObstacleView>, T: seq<ObstacleView>, pool: seq<Obstacle>, tally: Tally,
    speed: real, dt: real, beholderX: real, draws: seq<ScoreDraw>)
  {
    /** The fixed part: one view and one draw per obstacle, the ticked views,
        no obstacle twice. */
    ghost predicate Wf()
    {
      && |V| == |S| && |draws| == |S| && (forall d :: d in draws ==> d.Valid())
      && T == AfterTicks(V, speed, dt, beholderX)
      && Distinct(S)
    }
  }

  /** One obstacle: a stalactite above and a stalagmite below a gap. The same
      object is recycled through the pool, so it is a class. */
  class Obstacle {
    var x: real
    var width: real
    var gapY: real
    var gapHeight: real
    var passed: bool
    var topHeight: real
    var bottomY: real
    var active: bool

    function View(): ObstacleView
      reads this
    {
      ObstacleView(x, width, gapY, gapHeight, passed, topHeight, bottomY, active)
    }

    /** A fresh, inactive obstacle sized by the current globals. */
    constructor (obstacleWidth: real, obstacleGap: real)
      ensures View() == ObstacleView(0.0, obstacleWidth, 0.0, obstacleGap, false, 0.0, 0.0, false)
    {
      x := 0.0;
      width := obstacleWidth;
      gapY := 0.0;
      gapHeight := obstacleGap;
      passed := false;
      topHeight := 0.0;
      bottomY := 0.0;
      active := false;
    }

    /** `reset(startX)`: place the obstacle at `startX` with a fresh random
        gap and activate it; nothing of its previous life survives. The
        canvas height is read from the canvas, so it is a parameter here. */
    method Reset(startX: real, canvasHeight: real, r: real)
      requires IsDraw(r)
      modifies this
      ensures View() == Placed(startX, canvasHeight, r)
    {
      x := startX;
      width := canvasHeight * OBSTACLE_WIDTH_FACTOR;
      gapHeight := canvasHeight * OBSTACLE_GAP_FACTOR;
      var minGapY := canvasHeight * OBSTACLE_VERTICAL_MARGIN_FACTOR + gapHeight / 2.0;
      var maxGapY := canvasHeight * (1.0 - OBSTACLE_VERTICAL_MARGIN_FACTOR) - gapHeight / 2.0;
      if minGapY >= maxGapY {
        gapY := canvasHeight / 2.0;
      } else {
        ScaledDrawBelow(r, maxGapY - minGapY);
        gapY := Scale(r, maxGapY - minGapY) + minGapY;
      }
      topHeight := Max(0.0, gapY - gapHeight / 2.0);
      bottomY := Min(canvasHeight, gapY + gapHeight / 2.0);
      passed := false;
      active := true;
    }

    /** `update(deltaTime)`: an active obstacle scrolls left; the first time
        its right edge is left of the player's centre it scores a point,
        raises the high score if beaten and redraws the difficulty globals
        with the two draws of `draw`. */
    method Update(g: Game, dt: real, draw: ScoreDraw)
      requires draw.Valid()
      modifies this, g`score, g`highScore, g`obstacleGap, g`obstacleSpawnDistance
      ensures View() == Scrolled(old(View()), g.obstacleSpeed, dt, g.beholderX)
      ensures Crosses(old(View()), g.obstacleSpeed, dt, g.beholderX) ==>
        && g.score == old(g.score) + 1
        && g.highScore == MaxInt(old(g.highScore), g.score)
        && g.obstacleGap == RedrawnGap(RENDER_HEIGHT, draw.gap)
        && g.obstacleSpawnDistance == RedrawnSpawnDistance(RENDER_WIDTH, draw.spacing)
      ensures !Crosses(old(View()), g.obstacleSpeed, dt, g.beholderX) ==>
        && g.score == old(g.score) && g.highScore == old(g.highScore)
        && g.obstacleGap == old(g.obstacleGap) && g.obstacleSpawnDistance == old(g.obstacleSpawnDistance)
    {
      if !active {
        return;
      }
      x := x - g.obstacleSpeed * dt;
      if !passed && x + width < g.beholderX {
        g.score := g.score + 1;
        if g.score > g.highScore {
          g.highScore := g.score;
        }
        passed := true;
        g.obstacleGap := RENDER_HEIGHT * (draw.gap * (MAX_OBSTACLE_GAP_FACTOR - MIN_OBSTACLE_GAP_FACTOR) + MIN_OBSTACLE_GAP_FACTOR);
        g.obstacleSpawnDistance := RENDER_WIDTH * (draw.spacing * (MAX_SPAWN_DISTANCE_FACTOR - MIN_SPAWN_DISTANCE_FACTOR) + MIN_SPAWN_DISTANCE_FACTOR);
      }
    }

    /** `deactivate()`: mark the obstacle as belonging to the pool. */
    method Deactivate()
      modifies this`active
      ensures View() == old(View()).(active := false)
    {
      active := false;
    }
  }

  /** The module-level globals of www/game.js. */
  class Game {
    var beholderX: real
    var beholderY: real
    var velocityY: real
    var obstacles: seq<Obstacle>
    var obstaclePool: seq<Obstacle>
    var score: nat
    var highScore: nat
    var frameCount: nat
    var gameState: GameState
    var animationFrameIndex: int
    var groundX: real
    var groundY: real
    var beholderSize: real
    var obstacleWidth: real
    var obstacleGap: real
    var obstacleSpeed: real
    var obstacleSpawnDistance: real
    /** Timestamp of the previous animation frame; 0 before the first one. */
    var lastTime: real

    /** The active list and the pool hold each obstacle at most once, every
        obstacle in the active list is active and every pooled one is not
        (so no obstacle is in both). */
    ghost predicate ListsValid()
      reads this`obstacles, this`obstaclePool, obstacles, obstaclePool
    {
      && Distinct(obstacles) && Distinct(obstaclePool)
      && (forall o :: o in obstacles ==> o.active)
      && (forall o :: o in obstaclePool ==> !o.active)
    }

    ghost predicate Valid()
      reads this`score, this`highScore, this`animationFrameIndex, this`beholderSize, this`obstacleWidth,
        this`obstacles, this`obstaclePool, obstacles, obstaclePool
    {
      && score <= highScore
      && 0 <= animationFrameIndex < ANIMATION_FRAMES
      && 0.0 <= beholderSize && 0.0 <= obstacleWidth
      && ListsValid()
    }

    /** The global initialisers, with the high score read from storage. */
    constructor (storedHighScore: nat)
      ensures Valid()
      ensures obstacles == [] && obstaclePool == []
      ensures score == 0 && highScore == storedHighScore && frameCount == 0
      ensures gameState == Start && animationFrameIndex == 0 && lastTime == 0.0
      ensures groundX == 0.0 && groundY == 0.0
      ensures beholderSize == 50.0 && obstacleWidth == 60.0 && obstacleGap == 180.0
      ensures obstacleSpeed == 125.0 && obstacleSpawnDistance == 150.0
    {
      beholderX := 0.0;
      beholderY := 0.0;
      velocityY := 0.0;
      obstacles := [];
      obstaclePool := [];
      score := 0;
      highScore := storedHighScore;
      frameCount := 0;
      gameState := Start;
      animationFrameIndex := 0;
      groundX := 0.0;
      groundY := 0.0;
      beholderSize := 50.0;
      obstacleWidth := 60.0;
      obstacleGap := 180.0;
      obstacleSpeed := 125.0;
      obstacleSpawnDistance := 150.0;
      lastTime := 0.0;
    }

    /** The pool's last element, the one `addObstacle` would reuse. */
    function PoolTop(): set<Obstacle>
      reads this
    {
      if obstaclePool == [] then {} else {obstaclePool[|obstaclePool| - 1]}
    }

    /** The globals a scoring event writes, as one value. */
    function Tallies(): Tally
      reads this`score, this`highScore, this`obstacleGap, this`obstacleSpawnDistance
    {
      Tally(score, highScore, obstacleGap, obstacleSpawnDistance)
    }

    /** `addObstacle(startX)`: reuse the pool's last obstacle, or allocate one
        when the pool is empty, reset it at `startX` and append it to the
        active list. */
    method AddObstacle(startX: real, r: real)
      requires IsDraw(r) && ListsValid()
      modifies this`obstacles, this`obstaclePool, PoolTop()
      ensures ListsValid()
      ensures |obstacles| == |old(obstacles)| + 1 && obstacles[..|old(obstacles)|] == old(obstacles)
      ensures obstacles[|obstacles| - 1].View() == Placed(startX, RENDER_HEIGHT, r)
      ensures old(obstaclePool) != [] ==>
        && obstacles[|obstacles| - 1] == old(obstaclePool)[|old(obstaclePool)| - 1]
        && obstaclePool == old(obstaclePool)[..|old(obstaclePool)| - 1]
      ensures old(obstaclePool) == [] ==> fresh(obstacles[|obstacles| - 1]) && obstaclePool == []
    {
      var obs: Obstacle;
      if |obstaclePool| > 0 {
        obs := obstaclePool[|obstaclePool| - 1];
        obstaclePool := obstaclePool[..|obstaclePool| - 1];
      } else {
        obs := new Obstacle(obstacleWidth, obstacleGap);
      }
      assert obs !in obstacles;
      obs.Reset(startX, RENDER_HEIGHT, r);
      obstacles := obstacles + [obs];
    }

    /** `spawnInitialObstacles()`: empty the active list (dropping whatever
        it held) and add three obstacles, one spawn distance apart, starting
        one obstacle width past the right edge. Up to three of them come off
        the end of the pool, last element first. */
    method SpawnInitialObstacles(r0: real, r1: real, r2: real)
      requires IsDraw(r0) && IsDraw(r1) && IsDraw(r2) && ListsValid()
      modifies this`obstacles, this`obstaclePool, obstaclePool[MaxInt(|obstaclePool| - 3, 0)..]
      ensures ListsValid()
      ensures |obstacles| == 3
      ensures obstacles[0].View() == Placed(InitialX(0, obstacleWidth, obstacleSpawnDistance), RENDER_HEIGHT, r0)
      ensures obstacles[1].View() == Placed(InitialX(1, obstacleWidth, obstacleSpawnDistance), RENDER_HEIGHT, r1)
      ensures obstacles[2].View() == Placed(InitialX(2, obstacleWidth, obstacleSpawnDistance), RENDER_HEIGHT, r2)
      ensures obstaclePool == old(obstaclePool)[..MaxInt(|old(obstaclePool)| - 3, 0)]
      ensures forall k :: 0 <= k < 3 && k < |old(obstaclePool)| ==>
        obstacles[k] == old(obstaclePool)[|old(obstaclePool)| - 1 - k]
      ensures forall k :: 0 <= k < 3 && |old(obstaclePool)| <= k ==> fresh(obstacles[k])
    {
      ghost var P := obstaclePool;
      SpawnFirstTwo(r0, r1);
      ghost var two := obstacles;
      assert PoolTop() <= set k | MaxInt(|P| - 3, 0) <= k < |P| :: P[k];
      AddObstacle(RENDER_WIDTH + obstacleWidth + 2.0 * obstacleSpawnDistance, r2);
      assert obstacles[0] == two[0] && obstacles[1] == two[1];
    }

    /** The first two steps of `spawnInitialObstacles`: the emptied active
        list receives its first two obstacles, from the pool's end when it
        has them. */
    method SpawnFirstTwo(r0: real, r1: real)
      requires IsDraw(r0) && IsDraw(r1) && ListsValid()
      modifies this`obstacles, this`obstaclePool, obstaclePool[MaxInt(|obstaclePool| - 2, 0)..]
      ensures ListsValid()
      ensures |obstacles| == 2
      ensures obstacles[0].View() == Placed(InitialX(0, obstacleWidth, obstacleSpawnDistance), RENDER_HEIGHT, r0)
      ensures obstacles[1].View() == Placed(InitialX(1, obstacleWidth, obstacleSpawnDistance), RENDER_HEIGHT, r1)
      ensures obstaclePool == old(obstaclePool)[..MaxInt(|old(obstaclePool)| - 2, 0)]
      ensures forall k :: 0 <= k < 2 && k < |old(obstaclePool)| ==>
        obstacles[k] == old(obstaclePool)[|old(obstaclePool)| - 1 - k]
      ensures forall k :: 0 <= k < 2 && |old(obstaclePool)| <= k ==> fresh(obstacles[k])
    {
      ghost var P := obstaclePool;
      obstacles := [];
      AddObstacle(RENDER_WIDTH + obstacleWidth, r0);
      assert obstaclePool == P[..MaxInt(|P| - 1, 0)];
      AddObstacle(RENDER_WIDTH + obstacleWidth + obstacleSpawnDistance, r1);
    }

    /** `resetGame()` (its state part): rescale the dynamic sizes to the
        canvas, put the player back at rest, clear score, state, frame
        counter, animation and ground scroll, then spawn the three initial
        obstacles and immediately move them to the pool. The obstacles that
        were active before are dropped without being pooled, and the active
        list ends empty. */
    method ResetGame(groundImageHeight: real, r0: real, r1: real, r2: real)
      requires IsDraw(r0) && IsDraw(r1) && IsDraw(r2) && Valid()
      modifies this, obstaclePool
      ensures Valid()
      ensures beholderSize == RENDER_HEIGHT * BEHOLDER_SIZE_FACTOR
      ensures obstacleWidth == RENDER_HEIGHT * OBSTACLE_WIDTH_FACTOR
      ensures obstacleGap == RENDER_HEIGHT * OBSTACLE_GAP_FACTOR
      ensures obstacleSpeed == RENDER_WIDTH * OBSTACLE_SPEED_FACTOR
      ensures obstacleSpawnDistance == RENDER_WIDTH * OBSTACLE_SPAWN_DISTANCE_FACTOR
      ensures beholderX == RENDER_WIDTH / 3.0 && beholderY == RENDER_HEIGHT / 2.0 && velocityY == 0.0
      ensures score == 0 && gameState == Start && frameCount == 0 && animationFrameIndex == 0
      ensures groundX == 0.0 && groundY == GroundYAfterReset(groundImageHeight)
      ensures highScore == old(highScore) && lastTime == old(lastTime)
      ensures obstacles == []
      ensures |obstaclePool| == MaxInt(|old(obstaclePool)|, 3)
      ensures forall o :: o in old(obstaclePool) ==> o in obstaclePool
      ensures forall o :: o in old(obstacles) ==> o !in obstaclePool
    {
      ResetDynamics(groundImageHeight);
      RespawnAndPool(r0, r1, r2);
      RestackKeeps(old(obstaclePool), obstaclePool);
    }

    /** The obstacle part of `resetGame`: drop the active list, spawn the
        three initial obstacles and move them straight to the pool. */
    method RespawnAndPool(r0: real, r1: real, r2: real)
      requires IsDraw(r0) && IsDraw(r1) && IsDraw(r2) && ListsValid()
      modifies this`obstacles, this`obstaclePool, obstaclePool
      ensures ListsValid()
      ensures obstacles == []
      ensures Restacked(old(obstaclePool), obstaclePool)
      ensures forall o :: o in old(obstacles) ==> o !in obstaclePool
    {
      ghost var dropped := obstacles;
      assert forall o :: o in dropped ==> o !in obstaclePool;
      obstacles := [];
      ghost var pool0 := obstaclePool;
      SpawnInitialObstacles(r0, r1, r2);
      ghost var spawned := obstacles;
      assert forall o :: o in dropped ==> o !in spawned;
      ghost var kept := obstaclePool;
      assert kept == pool0[..MaxInt(|pool0| - 3, 0)];
      PoolObstacles();
      assert obstaclePool == kept + spawned;
      RestackedByConcat(pool0, spawned);
    }

    /** The scalar part of `resetGame`: sizes from the canvas, the player at
        rest in the middle, a fresh start screen and the ground line. */
    method ResetDynamics(groundImageHeight: real)
      modifies this`beholderSize, this`obstacleWidth, this`obstacleGap, this`obstacleSpeed,
        this`obstacleSpawnDistance, this`beholderX, this`beholderY, this`velocityY, this`score,
        this`gameState, this`frameCount, this`animationFrameIndex, this`groundX, this`groundY
      ensures beholderSize == RENDER_HEIGHT * BEHOLDER_SIZE_FACTOR
      ensures obstacleWidth == RENDER_HEIGHT * OBSTACLE_WIDTH_FACTOR
      ensures obstacleGap == RENDER_HEIGHT * OBSTACLE_GAP_FACTOR
      ensures obstacleSpeed == RENDER_WIDTH * OBSTACLE_SPEED_FACTOR
      ensures obstacleSpawnDistance == RENDER_WIDTH * OBSTACLE_SPAWN_DISTANCE_FACTOR
      ensures beholderX == RENDER_WIDTH / 3.0 && beholderY == RENDER_HEIGHT / 2.0 && velocityY == 0.0
      ensures score == 0 && gameState == Start && frameCount == 0 && animationFrameIndex == 0
      ensures groundX == 0.0 && groundY == GroundYAfterReset(groundImageHeight)
    {
      beholderSize := RENDER_HEIGHT * BEHOLDER_SIZE_FACTOR;
      obstacleWidth := RENDER_HEIGHT * OBSTACLE_WIDTH_FACTOR;
      obstacleGap := RENDER_HEIGHT * OBSTACLE_GAP_FACTOR;
      obstacleSpeed := RENDER_WIDTH * OBSTACLE_SPEED_FACTOR;
      obstacleSpawnDistance := RENDER_WIDTH * OBSTACLE_SPAWN_DISTANCE_FACTOR;

      beholderX := RENDER_WIDTH / 3.0;
      beholderY := RENDER_HEIGHT / 2.0;
      velocityY := 0.0;

      score := 0;
      gameState := Start;
      frameCount := 0;
      animationFrameIndex := 0;
      groundX := 0.0;

      if groundImageHeight != 0.0 {
        groundY := RENDER_HEIGHT - groundImageHeight;
      } else {
        groundY := RENDER_HEIGHT * (1.0 - OBSTACLE_VERTICAL_MARGIN_FACTOR);
      }
    }

    /** The clearing step of `resetGame`: deactivate every active obstacle,
        push it onto the pool in list order, and empty the active list. */
    method PoolObstacles()
      requires ListsValid()
      modifies this`obstacles, this`obstaclePool, obstacles
      ensures ListsValid()
      ensures obstacles == [] && obstaclePool == old(obstaclePool) + old(obstacles)
      ensures forall j :: 0 <= j < |old(obstacles)| ==>
        old(obstacles)[j].View() == old(obstacles[j].View()).(active := false)
    {
      ghost var pool0 := obstaclePool;
      var list := obstacles;
      ghost var views := Views(obstacles);
      assert forall o :: o in list ==> o !in pool0;
      var k := 0;
      while k < |list|
        invariant PoolInv(k, list, views, pool0)
      {
        PoolAt(k, list, views, pool0);
        k := k + 1;
      }
      assert list[..k] == list;
      DistinctConcat(pool0, list);
      obstacles := [];
    }

    /** The state of that loop after it has moved the first `k` obstacles of
        `list` (whose views were `views`) onto the pool `pool0`. */
    ghost predicate PoolInv(k: nat, list: seq<Obstacle>, views: seq<ObstacleView>, pool0: seq<Obstacle>)
      reads this`obstacles, this`obstaclePool, list
    {
      && k <= |list| == |views| && obstacles == list && Distinct(list)
      && obstaclePool == pool0 + list[..k]
      && forall j :: 0 <= j < |list| ==> list[j].View() == if j < k then views[j].(active := false) else views[j]
    }

    /** One iteration: deactivate `list[k]` and push it onto the pool. */
    method PoolAt(k: nat, list: seq<Obstacle>, ghost views: seq<ObstacleView>, ghost pool0: seq<Obstacle>)
      requires k < |list| && PoolInv(k, list, views, pool0)
      modifies this`obstaclePool, list[k]
      ensures PoolInv(k + 1, list, views, pool0)
    {
      label B:
      list[k].Deactivate();
      forall j | 0 <= j < |list| && j != k
        ensures list[j].View() == old@B(list[j].View())
      {
        assert list[j] != list[k];
      }
      obstaclePool := obstaclePool + [list[k]];
      assert list[..k + 1] == list[..k] + [list[k]];
    }

    /** The playing-state part of the obstacle loop in `gameLoop`: walk the
        active list from its end, update each obstacle (`draws[k]` is what
        obstacle k's scoring would draw), and move every obstacle that ends
        wholly left of the canvas to the pool, splicing it out. */
    method ScrollObstacles(dt: real, draws: seq<ScoreDraw>)
      requires ListsValid() && score <= highScore
      requires |draws| == |obstacles| && forall d :: d in draws ==> d.Valid()
      modifies this`score, this`highScore, this`obstacleGap, this`obstacleSpawnDistance,
        this`obstacles, this`obstaclePool, obstacles
      ensures ListsValid() && score <= highScore
      ensures Views(old(obstacles)) == AfterTicks(old(Views(obstacles)), obstacleSpeed, dt, beholderX)
      ensures obstacles == Kept(old(obstacles), AfterTicks(old(Views(obstacles)), obstacleSpeed, dt, beholderX))
      ensures obstaclePool
        == old(obstaclePool) + DroppedRev(old(obstacles), AfterTicks(old(Views(obstacles)), obstacleSpeed, dt, beholderX))
      ensures score == old(score) + Crossings(old(Views(obstacles)), obstacleSpeed, dt, beholderX)
      ensures highScore == MaxInt(old(highScore), score)
      ensures obstacleGap
        == GapAfter(old(obstacleGap), LastRedraw(old(Views(obstacles)), draws, obstacleSpeed, dt, beholderX))
      ensures obstacleSpawnDistance
        == SpawnDistanceAfter(old(obstacleSpawnDistance), LastRedraw(old(Views(obstacles)), draws, obstacleSpeed, dt, beholderX))
      ensures |obstacles| + |obstaclePool| == |old(obstacles)| + |old(obstaclePool)|
      ensures forall o :: o in obstacles ==> !OffScreen(o.View())
      ensures forall o :: o in obstaclePool ==> o in old(obstaclePool) || o in old(obstacles)
    {
      ghost var V := Views(obstacles);
      ghost var st := ScrollStart(obstacles, V, AfterTicks(V, obstacleSpeed, dt, beholderX), obstaclePool, Tallies(),
                                  obstacleSpeed, dt, beholderX, draws);
      ScrollBegins(st);
      ScrollLoop(dt, draws, st);
      ScrollEnds(st);
    }

    /** The backward `for` loop itself, from the last index down to 0, with
        its effect stated on the snapshot `st` it starts from. */
    method ScrollLoop(dt: real, draws: seq<ScoreDraw>, ghost st: ScrollStart)
      requires ScrollInv(|st.S|, st) && dt == st.dt && draws == st.draws && |obstacles| == |st.S|
      modifies this`score, this`highScore, this`obstacleGap, this`obstacleSpawnDistance,
        this`obstacles, this`obstaclePool, st.S
      ensures ScrollInv(0, st)
    {
      var i: nat := |obstacles|;
      while i > 0
        invariant ScrollInv(i, st)
      {
        ScrollAt(i, dt, draws, st);
        i := i - 1;
      }
    }

    /** The state of the backward loop once it has processed indices `i`
        and above of the list `st.S` it started from. */
    ghost predicate ScrollInv(i: nat, st: ScrollStart)
      reads this`score, this`highScore, this`obstacleGap, this`obstacleSpawnDistance, this`obstacleSpeed,
        this`beholderX, this`obstacles, this`obstaclePool, obstacles, obstaclePool, st.S
    {
      && i <= |st.S| && st.Wf()
      && obstacleSpeed == st.speed && beholderX == st.beholderX
      && ListsValid()
      && (forall k :: 0 <= k < |st.S| ==> st.S[k].View() == if k < i then st.V[k] else st.T[k])
      && SplitAt(st.S, st.T, i, st.pool, obstacles, obstaclePool)
      && TallyAfter(st.V[i..], st.draws[i..], st.speed, st.dt, st.beholderX, st.tally, Tallies())
    }

    /** Before the loop nothing has been processed. */
    lemma ScrollBegins(st: ScrollStart)
      requires ListsValid() && score <= highScore && st.Wf()
      requires st.S == obstacles && st.V == Views(obstacles) && st.pool == obstaclePool && st.tally == Tallies()
      requires obstacleSpeed == st.speed && beholderX == st.beholderX
      ensures ScrollInv(|st.S|, st)
    {
    }

    /** After the loop: the whole list has been processed; the lists were
        split, not changed in size, and every obstacle still active is at
        least partly on the canvas. */
    lemma ScrollEnds(st: ScrollStart)
      requires ScrollInv(0, st)
      ensures obstacles == Kept(st.S, st.T) && obstaclePool == st.pool + DroppedRev(st.S, st.T)
      ensures TallyAfter(st.V, st.draws, st.speed, st.dt, st.beholderX, st.tally, Tallies())
      ensures Views(st.S) == st.T
      ensures |obstacles| + |obstaclePool| == |st.S| + |st.pool|
      ensures forall o :: o in obstacles ==> !OffScreen(o.View())
      ensures forall o :: o in obstaclePool ==> o in st.pool || o in st.S
    {
      assert st.S[..0] == [] && st.S[0..] == st.S && st.T[0..] == st.T;
      assert st.V[0..] == st.V && st.draws[0..] == st.draws;
      KeptAndDropped(st.S, st.T);
      forall o | o in obstacles
        ensures !OffScreen(o.View())
      {
        var k :| 0 <= k < |st.S| && st.S[k] == o && st.T[k].active;
        assert o.View() == st.T[k];
      }
      assert Views(st.S) == st.T;
    }

    /** The loop body at index `i - 1`, proved to keep `ScrollInv`. */
    method ScrollAt(i: nat, dt: real, draws: seq<ScoreDraw>, ghost st: ScrollStart)
      requires 0 < i && ScrollInv(i, st) && dt == st.dt && draws == st.draws
      modifies this`score, this`highScore, this`obstacleGap, this`obstacleSpawnDistance,
        this`obstacles, this`obstaclePool, st.S[i - 1]
      ensures ScrollInv(i - 1, st)
    {
      var j := i - 1;
      SplitHead(st.S, st.T, j, st.pool, obstacles, obstaclePool);
      ghost var t0, obstacles0, pool0 := Tallies(), obstacles, obstaclePool;
      assert obstacles[j].View() == st.V[j];
      assert st.draws[j] in st.draws;
      var removed := StepObstacle(j, dt, draws[j]);
      TallyStep(st.V, st.draws, st.speed, st.dt, st.beholderX, j, st.tally, t0, Tallies());
      SplitStep(st.S, st.T, j, st.pool, obstacles0, pool0, obstacles, obstaclePool, removed);
    }

    /** One iteration of that loop, on the obstacle at index `i`. */
    method StepObstacle(i: nat, dt: real, draw: ScoreDraw) returns (removed: bool)
      requires i < |obstacles| && ListsValid() && score <= highScore && draw.Valid()
      modifies this`score, this`highScore, this`obstacleGap, this`obstacleSpawnDistance,
        this`obstacles, this`obstaclePool, obstacles[i]
      ensures ListsValid() && score <= highScore
      ensures old(obstacles[i]).View() == AfterTick(old(obstacles[i].View()), obstacleSpeed, dt, beholderX)
      ensures removed <==> !old(obstacles[i]).active
      ensures removed ==>
        && obstacles == old(obstacles[..i] + obstacles[i + 1..])
        && obstaclePool == old(obstaclePool) + [old(obstacles[i])]
      ensures !removed ==> obstacles == old(obstacles) && obstaclePool == old(obstaclePool)
      ensures Tallies() == if Crosses(old(obstacles[i].View()), obstacleSpeed, dt, beholderX)
                           then Scored(old(Tallies()), draw) else old(Tallies())
      ensures forall o: Obstacle :: old(allocated(o)) && o != old(obstacles[i]) ==> o.View() == old(o.View())
    {
      var obs := obstacles[i];
      obs.Update(this, dt, draw);
      removed := false;
      if obs.x + obs.width < 0.0 {
        obs.Deactivate();
        obstaclePool := obstaclePool + [obs];
        obstacles := obstacles[..i] + obstacles[i + 1..];
        removed := true;
      }
    }

    /** The spawn test of `gameLoop`: the list is empty (the source compares
        with minus infinity) or its last obstacle is more than one spawn
        distance left of the right edge. */
    predicate SpawnDue()
      reads this, obstacles
    {
      obstacles == [] || obstacles[|obstacles| - 1].x < RENDER_WIDTH - obstacleSpawnDistance
    }

    /** After the obstacle loop of a playing tick: add one obstacle at the
        right edge exactly when `SpawnDue()`. */
    method SpawnIfDue(r: real) returns (spawned: bool)
      requires IsDraw(r) && ListsValid()
      modifies this`obstacles, this`obstaclePool, PoolTop()
      ensures ListsValid()
      ensures spawned <==> old(SpawnDue())
      ensures spawned ==>
        && |obstacles| == |old(obstacles)| + 1 && obstacles[..|old(obstacles)|] == old(obstacles)
        && obstacles[|obstacles| - 1].View() == Placed(RENDER_WIDTH, RENDER_HEIGHT, r)
        && |obstacles| + |obstaclePool| == |old(obstacles)| + |old(obstaclePool)| + (if old(obstaclePool) == [] then 1 else 0)
      ensures forall o :: o in obstaclePool ==> o in old(obstaclePool)
      ensures !spawned ==> obstacles == old(obstacles) && obstaclePool == old(obstaclePool)
    {
      var lastDue := obstacles == [] || obstacles[|obstacles| - 1].x < RENDER_WIDTH - obstacleSpawnDistance;
      spawned := false;
      if lastDue {
        AddObstacle(RENDER_WIDTH, r);
        spawned := true;
      }
    }

    /** `updateGround(deltaTime)`: the ground tile scrolls with the obstacles
        and wraps by its own width, or by the canvas width when the image has
        no width yet (`groundImageWidth == 0`). */
    method UpdateGround(dt: real, groundImageWidth: real)
      modifies this`groundX
      ensures groundX == ScrollGround(old(groundX), obstacleSpeed * dt,
                                      if groundImageWidth != 0.0 then groundImageWidth else RENDER_WIDTH)
    {
      groundX := groundX - obstacleSpeed * dt;
      var groundWidth := if groundImageWidth != 0.0 then groundImageWidth else RENDER_WIDTH;
      if groundX <= -groundWidth {
        groundX := groundX + groundWidth;
      }
    }

    /** The state part of `Beholder(deltaTime)`: integrate the body, advance
        the animation frame, and return the tilt (in degrees). */
    method Beholder(dt: real) returns (rotationAngle: real)
      requires Valid()
      modifies this`beholderY, this`velocityY, this`animationFrameIndex
      ensures Valid()
      ensures Body(beholderY, velocityY)
        == Integrate(gameState, Body(old(beholderY), old(velocityY)), dt, groundY, beholderSize)
      ensures animationFrameIndex == NextFrameIndex(gameState, frameCount, old(animationFrameIndex))
      ensures rotationAngle
        == Rotation(gameState, velocityY, gameState == GameOver && beholderY >= GroundLine(groundY, beholderSize))
    {
      if gameState == Playing || gameState == GameOver {
        velocityY := velocityY + GRAVITY * dt;
        beholderY := beholderY + velocityY * dt;
        if gameState == GameOver && beholderY >= groundY - beholderSize / 2.0 {
          beholderY := groundY - beholderSize / 2.0;
          velocityY := 0.0;
        }
      }

      if gameState == Start || gameState == Playing {
        if frameCount % ANIMATION_THROTTLE == 0 {
          animationFrameIndex := (animationFrameIndex + 1) % ANIMATION_FRAMES;
        }
      }

      rotationAngle := 0.0;
      if gameState == Playing || gameState == GameOver {
        var targetAngle := velocityY / ROTATION_VELOCITY_SCALE * MAX_DOWN_ROTATION_DEG;
        rotationAngle := Max(MAX_UP_ROTATION_DEG, Min(targetAngle, MAX_DOWN_ROTATION_DEG));
        if gameState == GameOver && beholderY >= groundY - beholderSize / 2.0 {
          rotationAngle := MAX_DOWN_ROTATION_DEG;
        }
      }
    }

    /** The obstacle loop of `checkCollisions`, over the active list in
        order, stopping at the first hit. */
    method AnyObstacleHit(b: Box) returns (hit: bool)
      requires 0.0 <= obstacleWidth
      ensures hit <==> HitsAny(b, Views(obstacles), obstacleWidth)
    {
      var k := 0;
      while k < |obstacles|
        invariant 0 <= k <= |obstacles|
        invariant forall j :: 0 <= j < k ==>
          !HitsObstacle(b, obstacles[j].x, obstacleWidth, obstacles[j].topHeight, obstacles[j].bottomY)
      {
        var obs := obstacles[k];
        var leftEdge := obs.x + obstacleWidth * (1.0 - OBSTACLE_COLLISION_WIDTH_FACTOR) / 2.0;
        var rightEdge := obs.x + obstacleWidth - obstacleWidth * (1.0 - OBSTACLE_COLLISION_WIDTH_FACTOR) / 2.0;
        if b.right > leftEdge && b.left < rightEdge {
          if b.top < obs.topHeight || b.bottom > obs.bottomY {
            assert HitsObstacle(b, obstacles[k].x, obstacleWidth, obstacles[k].topHeight, obstacles[k].bottomY);
            return true;
          }
        }
        k := k + 1;
      }
      hit := false;
    }

    /** `checkCollisions()`: report a contact, and on the ground pin the
        player to the ground line at rest; nothing else changes. */
    method CheckCollisions() returns (hit: bool)
      requires 0.0 <= beholderSize && 0.0 <= obstacleWidth
      modifies this`beholderY, this`velocityY
      ensures var c := ContactOf(PlayerBox(beholderX, old(beholderY), beholderSize), groundY, old(Views(obstacles)), obstacleWidth);
        && (hit <==> c != Clear)
        && (c == Ground ==> beholderY == GroundLine(groundY, beholderSize) && velocityY == 0.0)
        && (c != Ground ==> beholderY == old(beholderY) && velocityY == old(velocityY))
    {
      var b := PlayerBox(beholderX, beholderY, beholderSize);
      if b.top < 0.0 {
        return true;
      }
      if b.bottom >= groundY {
        beholderY := groundY - beholderSize / 2.0;
        velocityY := 0.0;
        return true;
      }
      hit := AnyObstacleHit(b);
    }

    /** `handleInput()`: a flap sets the velocity to LIFT (it does not add)
        and leaves or enters the playing state; after game over it restarts
        through `resetGame` at once. */
    method HandleInput(groundImageHeight: real, r0: real, r1: real, r2: real)
      requires IsDraw(r0) && IsDraw(r1) && IsDraw(r2) && Valid()
      modifies this, obstaclePool
      ensures Valid() && highScore == old(highScore) && lastTime == old(lastTime)
      ensures old(gameState) != GameOver ==>
        && velocityY == LIFT && gameState == Playing
        && beholderX == old(beholderX) && beholderY == old(beholderY)
        && score == old(score) && frameCount == old(frameCount)
        && animationFrameIndex == old(animationFrameIndex) && groundX == old(groundX) && groundY == old(groundY)
        && beholderSize == old(beholderSize) && obstacleWidth == old(obstacleWidth) && obstacleGap == old(obstacleGap)
        && obstacleSpeed == old(obstacleSpeed) && obstacleSpawnDistance == old(obstacleSpawnDistance)
        && obstacles == old(obstacles) && obstaclePool == old(obstaclePool) && unchanged(obstaclePool)
      ensures old(gameState) == GameOver ==>
        && beholderSize == RENDER_HEIGHT * BEHOLDER_SIZE_FACTOR
        && obstacleWidth == RENDER_HEIGHT * OBSTACLE_WIDTH_FACTOR
        && obstacleGap == RENDER_HEIGHT * OBSTACLE_GAP_FACTOR
        && obstacleSpeed == RENDER_WIDTH * OBSTACLE_SPEED_FACTOR
        && obstacleSpawnDistance == RENDER_WIDTH * OBSTACLE_SPAWN_DISTANCE_FACTOR
        && beholderX == RENDER_WIDTH / 3.0 && beholderY == RENDER_HEIGHT / 2.0 && velocityY == 0.0
        && score == 0 && gameState == Start && frameCount == 0 && animationFrameIndex == 0
        && groundX == 0.0 && groundY == GroundYAfterReset(groundImageHeight)
        && obstacles == [] && |obstaclePool| == MaxInt(|old(obstaclePool)|, 3)
        && (forall o :: o in old(obstaclePool) ==> o in obstaclePool)
        && (forall o :: o in old(obstacles) ==> o !in obstaclePool)
    {
      if gameState == Start || gameState == Playing {
        velocityY := LIFT;
        if gameState == Start {
          gameState := Playing;
        }
      } else {
        ResetGame(groundImageHeight, r0, r1, r2);
      }
    }

    /** The obstacle pass of a playing tick, seen from the rest of the tick:
        the scoring it does and where the pooled obstacles come from. */
    method ScrollScores(dt: real, draws: seq<ScoreDraw>)
      requires ListsValid() && score <= highScore
      requires |draws| == |obstacles| && forall d :: d in draws ==> d.Valid()
      modifies this`score, this`highScore, this`obstacleGap, this`obstacleSpawnDistance,
        this`obstacles, this`obstaclePool, obstacles
      ensures ListsValid() && score <= highScore
      ensures score == old(score) + Crossings(old(Views(obstacles)), obstacleSpeed, dt, beholderX)
      ensures highScore == MaxInt(old(highScore), score)
      ensures forall o :: o in obstaclePool ==> o in old(obstaclePool) || o in old(obstacles)
    {
      ScrollObstacles(dt, draws);
    }

    /** The playing-state obstacle update of `gameLoop`: the obstacle loop,
        then the spawn test. */
    method MoveObstacles(dt: real, draws: seq<ScoreDraw>, spawnDraw: real)
      requires ListsValid() && score <= highScore && IsDraw(spawnDraw)
      requires |draws| == |obstacles| && forall d :: d in draws ==> d.Valid()
      modifies this`score, this`highScore, this`obstacleGap, this`obstacleSpawnDistance,
        this`obstacles, this`obstaclePool, obstacles, obstaclePool
      ensures ListsValid() && score <= highScore
      ensures score == old(score) + Crossings(old(Views(obstacles)), obstacleSpeed, dt, beholderX)
      ensures highScore == MaxInt(old(highScore), score)
      ensures forall o :: o in obstaclePool ==> o in old(obstaclePool) || o in old(obstacles)
    {
      ScrollScores(dt, draws);
      assert obstaclePool != [] ==> obstaclePool[|obstaclePool| - 1] in obstaclePool;
      var spawned := SpawnIfDue(spawnDraw);
    }

    /** One call of `gameLoop(timestamp)`. The first frame only records the
        timestamp; later frames clamp the elapsed time and run `FrameStep`.
        `draws[k]` is what obstacle k's scoring would draw, `spawnDraw` the
        gap draw of a spawned obstacle, and the ground image sizes are those
        of the loaded image. The result reports whether the high score was
        saved at game over. */
    method Tick(timestamp: real, draws: seq<ScoreDraw>, spawnDraw: real,
                groundImageWidth: real, groundImageHeight: real) returns (saved: bool)
      requires Valid() && IsDraw(spawnDraw)
      requires |draws| == |obstacles| && forall d :: d in draws ==> d.Valid()
      requires lastTime != 0.0 ==> groundImageHeight != 0.0
      modifies this`score, this`highScore, this`obstacleGap, this`obstacleSpawnDistance,
        this`obstacles, this`obstaclePool, this`groundX, this`groundY, this`beholderY, this`velocityY,
        this`animationFrameIndex, this`gameState, this`frameCount, this`lastTime, obstacles, obstaclePool
      ensures Valid() && lastTime == timestamp
      ensures !saved
      ensures highScore == MaxInt(old(highScore), score)
      ensures old(lastTime) == 0.0 ==>
        && gameState == old(gameState) && frameCount == old(frameCount) && score == old(score)
        && highScore == old(highScore) && beholderY == old(beholderY) && velocityY == old(velocityY)
        && groundX == old(groundX) && groundY == old(groundY) && animationFrameIndex == old(animationFrameIndex)
        && obstacleGap == old(obstacleGap) && obstacleSpawnDistance == old(obstacleSpawnDistance)
        && obstacles == old(obstacles) && obstaclePool == old(obstaclePool)
        && unchanged(obstacles) && unchanged(obstaclePool)
      ensures old(lastTime) != 0.0 ==>
        && frameCount == old(frameCount) + 1 && groundY == RENDER_HEIGHT - groundImageHeight
      ensures old(gameState) != Playing ==>
        && gameState == old(gameState) && score == old(score) && groundX == old(groundX)
        && obstacles == old(obstacles) && obstaclePool == old(obstaclePool)
        && unchanged(obstacles) && unchanged(obstaclePool)
      ensures old(gameState) == Playing ==> gameState == Playing || gameState == GameOver
      ensures old(lastTime) != 0.0 ==>
        var dt := FrameDelta(timestamp, old(lastTime));
        && SettledFrom(old(gameState), Body(old(beholderY), old(velocityY)), dt, groundY, beholderSize,
                       Settled(Body(beholderY, velocityY), gameState))
        && animationFrameIndex == NextFrameIndex(old(gameState), old(frameCount), old(animationFrameIndex))
        && (old(gameState) == Playing ==>
              && score == old(score) + Crossings(old(Views(obstacles)), obstacleSpeed, dt, beholderX)
              && groundX == ScrollGround(old(groundX), obstacleSpeed * dt,
                                         if groundImageWidth != 0.0 then groundImageWidth else RENDER_WIDTH))
    {
      if lastTime == 0.0 {
        lastTime := timestamp;
        return false;
      }
      var dt := FrameDelta(timestamp, lastTime);
      // FrameStep does not read `lastTime`, so it is recorded after the step.
      saved := FrameStep(dt, draws, spawnDraw, groundImageWidth, groundImageHeight);
      lastTime := timestamp;
    }

    /** A frame of `gameLoop` after the first: while playing, move the
        obstacles and scroll the ground; then settle the player and the game
        state. */
    method FrameStep(dt: real, draws: seq<ScoreDraw>, spawnDraw: real,
                     groundImageWidth: real, groundImageHeight: real) returns (saved: bool)
      requires Valid() && IsDraw(spawnDraw)
      requires groundImageHeight != 0.0
      requires |draws| == |obstacles| && forall d :: d in draws ==> d.Valid()
      modifies this`score, this`highScore, this`obstacleGap, this`obstacleSpawnDistance,
        this`obstacles, this`obstaclePool, this`groundX, this`groundY, this`beholderY, this`velocityY,
        this`animationFrameIndex, this`gameState, this`frameCount, obstacles, obstaclePool
      ensures Valid() && !saved
      ensures highScore == MaxInt(old(highScore), score)
      ensures frameCount == old(frameCount) + 1 && groundY == RENDER_HEIGHT - groundImageHeight
      ensures old(gameState) != Playing ==>
        && score == old(score) && groundX == old(groundX)
        && obstacles == old(obstacles) && obstaclePool == old(obstaclePool)
        && unchanged(obstacles) && unchanged(obstaclePool)
      ensures old(gameState) == Playing ==>
        && score == old(score) + Crossings(old(Views(obstacles)), obstacleSpeed, dt, beholderX)
        && groundX == ScrollGround(old(groundX), obstacleSpeed * dt,
                                   if groundImageWidth != 0.0 then groundImageWidth else RENDER_WIDTH)
      ensures SettledFrom(old(gameState), Body(old(beholderY), old(velocityY)), dt, groundY, beholderSize,
                          Settled(Body(beholderY, velocityY), gameState))
      ensures animationFrameIndex == NextFrameIndex(old(gameState), old(frameCount), old(animationFrameIndex))
    {
      if gameState == Playing {
        saved := PlayingFrame(dt, draws, spawnDraw, groundImageWidth, groundImageHeight);
      } else {
        saved := SettleFrame(dt, groundImageHeight);
      }
    }

    /** A frame of `gameLoop` that starts in the playing state. */
    method PlayingFrame(dt: real, draws: seq<ScoreDraw>, spawnDraw: real,
                        groundImageWidth: real, groundImageHeight: real) returns (saved: bool)
      requires Valid() && IsDraw(spawnDraw) && gameState == Playing
      requires groundImageHeight != 0.0
      requires |draws| == |obstacles| && forall d :: d in draws ==> d.Valid()
      modifies this`score, this`highScore, this`obstacleGap, this`obstacleSpawnDistance,
        this`obstacles, this`obstaclePool, this`groundX, this`groundY, this`beholderY, this`velocityY,
        this`animationFrameIndex, this`gameState, this`frameCount, obstacles, obstaclePool
      ensures Valid() && !saved
      ensures highScore == MaxInt(old(highScore), score)
      ensures frameCount == old(frameCount) + 1 && groundY == RENDER_HEIGHT - groundImageHeight
      ensures score == old(score) + Crossings(old(Views(obstacles)), obstacleSpeed, dt, beholderX)
      ensures groundX == ScrollGround(old(groundX), obstacleSpeed * dt,
                                      if groundImageWidth != 0.0 then groundImageWidth else RENDER_WIDTH)
      ensures SettledFrom(Playing, Body(old(beholderY), old(velocityY)), dt, groundY, beholderSize,
                          Settled(Body(beholderY, velocityY), gameState))
      ensures animationFrameIndex == NextFrameIndex(Playing, old(frameCount), old(animationFrameIndex))
    {
      ghost var before := Settled(Body(beholderY, velocityY), gameState);
      MoveWorld(dt, draws, spawnDraw, groundImageWidth);
      assert Valid() && Settled(Body(beholderY, velocityY), gameState) == before;
      saved := SettleFrame(dt, groundImageHeight);
    }

    /** The playing part of a frame: the obstacles move, then the ground. */
    method MoveWorld(dt: real, draws: seq<ScoreDraw>, spawnDraw: real, groundImageWidth: real)
      requires ListsValid() && score <= highScore && IsDraw(spawnDraw)
      requires |draws| == |obstacles| && forall d :: d in draws ==> d.Valid()
      modifies this`score, this`highScore, this`obstacleGap, this`obstacleSpawnDistance,
        this`obstacles, this`obstaclePool, this`groundX, obstacles, obstaclePool
      ensures ListsValid() && score <= highScore
      ensures score == old(score) + Crossings(old(Views(obstacles)), obstacleSpeed, dt, beholderX)
      ensures highScore == MaxInt(old(highScore), score)
      ensures groundX == ScrollGround(old(groundX), obstacleSpeed * dt,
                                      if groundImageWidth != 0.0 then groundImageWidth else RENDER_WIDTH)
    {
      MoveObstacles(dt, draws, spawnDraw);
      UpdateGround(dt, groundImageWidth);
    }

    /** The rest of a frame once the world has moved: recompute the ground
        line from the ground image as `drawGround` does, run the player, then
        the end-of-frame state handling. Score and lists stay as they are. */
    method SettleFrame(dt: real, groundImageHeight: real) returns (saved: bool)
      requires Valid()
      requires groundImageHeight != 0.0
      modifies this`groundY, this`beholderY, this`velocityY, this`animationFrameIndex,
        this`gameState, this`highScore, this`frameCount
      ensures Valid() && !saved && highScore == old(highScore)
      ensures frameCount == old(frameCount) + 1 && groundY == RENDER_HEIGHT - groundImageHeight
      ensures SettledFrom(old(gameState), Body(old(beholderY), old(velocityY)), dt, groundY, beholderSize,
                          Settled(Body(beholderY, velocityY), gameState))
      ensures animationFrameIndex == NextFrameIndex(old(gameState), old(frameCount), old(animationFrameIndex))
    {
      groundY := RENDER_HEIGHT - groundImageHeight;
      var rotationAngle := Beholder(dt);
      ghost var vs := Views(obstacles);
      saved := HandleGameStates();
      assert Settled(Body(beholderY, velocityY), gameState)
        == Settle(old(gameState), Body(old(beholderY), old(velocityY)), dt, groundY, beholderSize, beholderX, vs, obstacleWidth);
      SettleIsSettledFrom(old(gameState), Body(old(beholderY), old(velocityY)), dt, groundY, beholderSize,
                          beholderX, vs, obstacleWidth);
    }

    /** The state handling at the end of a frame: while playing, a collision
        (checked on the player's position after this frame's move) ends the
        game, and the high score is saved when the score beats it; the frame
        counter advances in every state. */
    method HandleGameStates() returns (saved: bool)
      requires Valid()
      modifies this`beholderY, this`velocityY, this`gameState, this`highScore, this`frameCount
      ensures Valid() && !saved && highScore == old(highScore)
      ensures frameCount == old(frameCount) + 1
      ensures old(gameState) != Playing ==>
        gameState == old(gameState) && beholderY == old(beholderY) && velocityY == old(velocityY)
      ensures old(gameState) == Playing ==>
        Settled(Body(beholderY, velocityY), gameState)
          == Resolve(Body(old(beholderY), old(velocityY)), groundY, beholderSize, beholderX, old(Views(obstacles)), obstacleWidth)
    {
      saved := false;
      if gameState == Playing {
        var hit := CheckCollisions();
        if hit {
          gameState := GameOver;
          if score > highScore {
            highScore := score;
            saved := true;
          }
        }
      }
      frameCount := frameCount + 1;
    }
  }
}
