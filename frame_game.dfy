/** The stateful part of the older frame-based version (game.js): the
    `Obstacle` objects and the module-level globals, gathered into a `Game`
    object whose methods are the source's functions. */
module FrameGame {
  import opened Common
  import opened FrameRules

  /** The obstacles' fields, as values. */
  ghost function Views(s: seq<Obstacle>): (vs: seq<ObstacleView>)
    reads s
    ensures |vs| == |s| && forall k :: 0 <= k < |s| ==> vs[k] == s[k].View()
  {
    if s == [] then [] else [s[0].View()] + Views(s[1..])
  }

  /** What a pass of the obstacle loop starts from: the list `S`, its views
      `V`, the views `T` it will leave, the score and the canvas width. */
  datatype ScrollStart = ScrollStart(
    S: seq<Obstacle>, V: seq<ObstacleView>, T: seq<ObstacleView>, score: nat, canvasWidth: real)
  {
    /** The fixed part: one view per obstacle, the updated views, no
        obstacle twice. */
    ghost predicate Wf()
    {
      && |V| == |S| && T == UpdatedAll(V, canvasWidth) && Distinct(S)
    }
  }

  /** One obstacle, built by the `Obstacle` constructor function; its
      `update` method moves it in place. */
  class Obstacle {
    var x: real
    var gapY: real
    var scored: bool
    var topHeight: real
    var bottomY: real
    var bottomHeight: real

    function View(): ObstacleView
      reads this
    {
      ObstacleView(x, gapY, scored, topHeight, bottomY, bottomHeight)
    }

    /** `new Obstacle(x, gapY)`; the canvas height is read from the canvas,
        so it is a parameter here. */
    constructor (x0: real, gapY0: real, canvasHeight: real)
      ensures View() == Built(x0, gapY0, canvasHeight)
    {
      x := x0;
      gapY := gapY0;
      scored := false;
      topHeight := gapY0 - OBSTACLE_GAP / 2.0;
      bottomY := gapY0 + OBSTACLE_GAP / 2.0;
      bottomHeight := canvasHeight - (gapY0 + OBSTACLE_GAP / 2.0);
    }

    /** `update()`: move OBSTACLE_SPEED to the left; the first time the
        right edge is half a player width left of the player's centre, add
        a point to the game's score. */
    method Update(g: Game)
      modifies this`x, this`scored, g`score
      ensures View() == Updated(old(View()), g.canvasWidth)
      ensures g.score == old(g.score) + if Crosses(old(View()), g.canvasWidth) then 1 else 0
    {
      x := x - OBSTACLE_SPEED;
      var collisionX := g.canvasWidth / 3.0;
      if !scored && x + OBSTACLE_WIDTH < collisionX {
        if x + OBSTACLE_WIDTH < collisionX - BEHOLDER_SIZE * 0.5 {
          g.score := g.score + 1;
          scored := true;
        }
      }
    }
  }

  /** The module-level globals of game.js; the canvas size is fixed by the
      page. */
  class Game {
    const canvasWidth: real
    const canvasHeight: real
    var beholderY: real
    var beholderVelY: real
    var score: nat
    var obstacles: seq<Obstacle>
    var frameCount: nat
    var gameState: GameState
    var animationFrameIndex: int

    /** No obstacle is in the list twice, and the animation index picks one
        of the frames. */
    ghost predicate Valid()
      reads this`obstacles, this`animationFrameIndex, obstacles
    {
      Distinct(obstacles) && 0 <= animationFrameIndex < ANIMATION_FRAMES
    }

    /** The start of `window.onload`: the globals, then `resetGame()` with
        the three gap draws `r0`, `r1`, `r2`. */
    constructor (width: real, height: real, r0: real, r1: real, r2: real)
      requires IsDraw(r0) && IsDraw(r1) && IsDraw(r2)
      ensures Valid() && canvasWidth == width && canvasHeight == height
      ensures beholderY == height / 2.0 && beholderVelY == 0.0
      ensures score == 0 && frameCount == 0 && gameState == Start && animationFrameIndex == 0
      ensures |obstacles| == 3
      ensures forall k :: 0 <= k < 3 ==> obstacles[k].View() == Drawn(InitialX(k, width), height, [r0, r1, r2][k])
    {
      canvasWidth := width;
      canvasHeight := height;
      animationFrameIndex := 0;
      obstacles := [];
      new;
      ResetGame(r0, r1, r2);
    }

    /** `addObstacle(xPos)`: append a new obstacle at `xPos` with a gap
        centre drawn from `r`. */
    method AddObstacle(xPos: real, r: real)
      requires IsDraw(r) && Distinct(obstacles)
      modifies this`obstacles
      ensures Distinct(obstacles)
      ensures |obstacles| == |old(obstacles)| + 1 && obstacles[..|old(obstacles)|] == old(obstacles)
      ensures fresh(obstacles[|obstacles| - 1])
      ensures obstacles[|obstacles| - 1].View() == Drawn(xPos, canvasHeight, r)
    {
      var minGapY := OBSTACLE_GAP / 2.0 + EDGE_MARGIN;
      var maxGapY := canvasHeight - OBSTACLE_GAP / 2.0 - EDGE_MARGIN;
      var gapY := Scale(r, maxGapY - minGapY) + minGapY;
      var obs := new Obstacle(xPos, gapY, canvasHeight);
      obstacles := obstacles + [obs];
    }

    /** `spawnInitialObstacles()`: append three obstacles one spawn
        distance apart, the first FIRST_OFFSET past the right edge. */
    method SpawnInitialObstacles(r0: real, r1: real, r2: real)
      requires IsDraw(r0) && IsDraw(r1) && IsDraw(r2) && Distinct(obstacles)
      modifies this`obstacles
      ensures Distinct(obstacles)
      ensures |obstacles| == |old(obstacles)| + 3 && obstacles[..|old(obstacles)|] == old(obstacles)
      ensures forall o :: o in obstacles[|old(obstacles)|..] ==> fresh(o)
      ensures forall k :: 0 <= k < 3 ==>
        obstacles[|old(obstacles)| + k].View() == Drawn(InitialX(k, canvasWidth), canvasHeight, [r0, r1, r2][k])
    {
      AddObstacle(canvasWidth + FIRST_OFFSET, r0);
      AddObstacle(canvasWidth + FIRST_OFFSET + OBSTACLE_SPAWN_DISTANCE, r1);
      AddObstacle(canvasWidth + FIRST_OFFSET + 2.0 * OBSTACLE_SPAWN_DISTANCE, r2);
    }

    /** `resetGame()`: the player at rest in the middle, score, frame
        counter, state and animation back to the start, and exactly the
        three initial obstacles, left to right. */
    method ResetGame(r0: real, r1: real, r2: real)
      requires IsDraw(r0) && IsDraw(r1) && IsDraw(r2)
      modifies this
      ensures Valid()
      ensures beholderY == canvasHeight / 2.0 && beholderVelY == 0.0
      ensures score == 0 && frameCount == 0 && gameState == Start && animationFrameIndex == 0
      ensures |obstacles| == 3
      ensures forall o :: o in obstacles ==> fresh(o)
      ensures forall k :: 0 <= k < 3 ==>
        obstacles[k].View() == Drawn(InitialX(k, canvasWidth), canvasHeight, [r0, r1, r2][k])
      ensures obstacles[0].x < obstacles[1].x < obstacles[2].x
    {
      beholderY := canvasHeight / 2.0;
      beholderVelY := 0.0;
      score := 0;
      obstacles := [];
      frameCount := 0;
      gameState := Start;
      animationFrameIndex := 0;
      SpawnInitialObstacles(r0, r1, r2);
      assert obstacles[0..] == obstacles;
    }

    /** The update part of `Beholder()`: advance the animation frame, then
        move the player. `bob` is the idle offset `Math.sin(frameCount * 0.1) * 5`. */
    method Beholder(bob: real)
      requires 0 <= animationFrameIndex < ANIMATION_FRAMES
      requires -BOB_AMPLITUDE <= bob <= BOB_AMPLITUDE
      modifies this`beholderY, this`beholderVelY, this`animationFrameIndex
      ensures animationFrameIndex == NextFrameIndex(gameState, frameCount, old(animationFrameIndex))
      ensures Body(beholderY, beholderVelY) == Step(gameState, Body(old(beholderY), old(beholderVelY)), canvasHeight, bob)
      ensures gameState == Start ==> canvasHeight / 2.0 - BOB_AMPLITUDE <= beholderY <= canvasHeight / 2.0 + BOB_AMPLITUDE
    {
      if gameState == Playing || gameState == Start {
        if frameCount % ANIMATION_SPEED == 0 {
          animationFrameIndex := (animationFrameIndex + 1) % ANIMATION_FRAMES;
        }
      }
      if gameState == Playing {
        beholderVelY := beholderVelY + GRAVITY;
        beholderY := beholderY + beholderVelY;
      }
      if gameState == Start {
        beholderY := canvasHeight / 2.0 + bob;
        beholderVelY := 0.0;
      }
    }

    /** `checkCollisions()`: the boundary tests, then the obstacles in list
        order, stopping at the first hit. Nothing changes. */
    method CheckCollisions() returns (hit: bool)
      ensures hit <==> Collides(PlayerBox(BeholderX(canvasWidth), beholderY, BEHOLDER_SIZE), canvasHeight, Views(obstacles))
    {
      var beholderX := canvasWidth / 3.0;
      var b := Box(beholderX - BEHOLDER_SIZE / 2.0, beholderX + BEHOLDER_SIZE / 2.0,
                   beholderY - BEHOLDER_SIZE / 2.0, beholderY + BEHOLDER_SIZE / 2.0);
      assert b == PlayerBox(BeholderX(canvasWidth), beholderY, BEHOLDER_SIZE);
      if b.top < 0.0 || b.bottom > canvasHeight {
        return true;
      }
      var k := 0;
      while k < |obstacles|
        invariant 0 <= k <= |obstacles|
        invariant forall j :: 0 <= j < k ==>
          !HitsObstacle(b, obstacles[j].x, OBSTACLE_WIDTH, obstacles[j].topHeight, obstacles[j].bottomY)
      {
        var obs := obstacles[k];
        var leftEdge := obs.x + OBSTACLE_WIDTH * (1.0 - OBSTACLE_COLLISION_WIDTH_FACTOR) / 2.0;
        var rightEdge := obs.x + OBSTACLE_WIDTH - OBSTACLE_WIDTH * (1.0 - OBSTACLE_COLLISION_WIDTH_FACTOR) / 2.0;
        if b.right > leftEdge && b.left < rightEdge {
          if b.top < obs.topHeight || b.bottom > obs.bottomY {
            assert HitsObstacle(b, obstacles[k].x, OBSTACLE_WIDTH, obstacles[k].topHeight, obstacles[k].bottomY);
            return true;
          }
        }
        k := k + 1;
      }
      hit := false;
    }

    /** `handleInput()`: a flap sets the velocity to LIFT (it does not add)
        and leaves or enters the playing state; after game over an input
        restarts through `resetGame` only once more than RESTART_DELAY
        frames have passed, and is ignored before that. */
    method HandleInput(r0: real, r1: real, r2: real)
      requires IsDraw(r0) && IsDraw(r1) && IsDraw(r2)
      modifies this
      ensures old(gameState) != GameOver ==>
        && beholderVelY == LIFT && gameState == Playing
        && beholderY == old(beholderY) && score == old(score) && frameCount == old(frameCount)
        && obstacles == old(obstacles) && animationFrameIndex == old(animationFrameIndex)
      ensures old(gameState) == GameOver && old(frameCount) > RESTART_DELAY ==>
        && gameState == Start && beholderVelY == 0.0 && beholderY == canvasHeight / 2.0
        && score == 0 && frameCount == 0 && animationFrameIndex == 0 && Valid()
        && |obstacles| == 3 && (forall o :: o in obstacles ==> fresh(o))
        && (forall k :: 0 <= k < 3 ==>
              obstacles[k].View() == Drawn(InitialX(k, canvasWidth), canvasHeight, [r0, r1, r2][k]))
        && obstacles[0].x < obstacles[1].x < obstacles[2].x
      ensures old(gameState) == GameOver && old(frameCount) <= RESTART_DELAY ==>
        && gameState == GameOver && beholderVelY == old(beholderVelY) && beholderY == old(beholderY)
        && score == old(score) && frameCount == old(frameCount)
        && obstacles == old(obstacles) && animationFrameIndex == old(animationFrameIndex)
    {
      if gameState == Start {
        gameState := Playing;
        beholderVelY := LIFT;
      } else if gameState == Playing {
        beholderVelY := LIFT;
      } else if gameState == GameOver {
        if frameCount > RESTART_DELAY {
          ResetGame(r0, r1, r2);
        }
      }
    }

    /** The playing-state part of the obstacle loop in `gameLoop`: walk the
        list from its end, update each obstacle and splice out every one
        that ends wholly left of the canvas. */
    method ScrollObstacles()
      requires Distinct(obstacles)
      modifies this`score, this`obstacles, obstacles
      ensures Distinct(obstacles)
      ensures Views(old(obstacles)) == UpdatedAll(old(Views(obstacles)), canvasWidth)
      ensures obstacles == Kept(old(obstacles), UpdatedAll(old(Views(obstacles)), canvasWidth))
      ensures score == old(score) + Crossings(old(Views(obstacles)), canvasWidth)
      ensures forall o :: o in obstacles ==> !OffScreen(o.View())
      ensures forall k :: 0 <= k < |old(obstacles)| && !OffScreen(old(obstacles)[k].View()) ==>
        old(obstacles)[k] in obstacles
    {
      ghost var V := Views(obstacles);
      ghost var st := ScrollStart(obstacles, V, UpdatedAll(V, canvasWidth), score, canvasWidth);
      ScrollBegins(st);
      ScrollLoop(st);
      ScrollEnds(st);
    }

    /** The backward `for` loop itself, from the last index down to 0. */
    method ScrollLoop(ghost st: ScrollStart)
      requires ScrollInv(|st.S|, st) && |obstacles| == |st.S|
      modifies this`score, this`obstacles, st.S
      ensures ScrollInv(0, st)
    {
      var i: nat := |obstacles|;
      while i > 0
        invariant ScrollInv(i, st)
      {
        ScrollAt(i, st);
        i := i - 1;
      }
    }

    /** The state of the backward loop once it has processed indices `i`
        and above of the list `st.S` it started from. */
    ghost predicate ScrollInv(i: nat, st: ScrollStart)
      reads this`score, this`obstacles, obstacles, st.S
    {
      && i <= |st.S| && st.Wf() && canvasWidth == st.canvasWidth
      && Distinct(obstacles)
      && (forall k :: 0 <= k < |st.S| ==> st.S[k].View() == if k < i then st.V[k] else st.T[k])
      && SplitAt(st.S, st.T, i, obstacles)
      && score == st.score + Crossings(st.V[i..], st.canvasWidth)
    }

    /** Before the loop nothing has been processed. */
    lemma ScrollBegins(st: ScrollStart)
      requires Distinct(obstacles) && st.Wf()
      requires st.S == obstacles && st.V == Views(obstacles) && st.score == score && st.canvasWidth == canvasWidth
      ensures ScrollInv(|st.S|, st)
    {
    }

    /** After the loop: the whole list has been processed, and exactly the
        obstacles still on screen are left, in their order. */
    lemma ScrollEnds(st: ScrollStart)
      requires ScrollInv(0, st)
      ensures obstacles == Kept(st.S, st.T)
      ensures score == st.score + Crossings(st.V, st.canvasWidth)
      ensures Views(st.S) == st.T
      ensures forall o :: o in obstacles ==> !OffScreen(o.View())
      ensures forall k :: 0 <= k < |st.S| && !OffScreen(st.S[k].View()) ==> st.S[k] in obstacles
    {
      assert st.S[..0] == [] && st.S[0..] == st.S && st.T[0..] == st.T && st.V[0..] == st.V;
      KeptExactly(st.S, st.T);
      forall o | o in obstacles
        ensures !OffScreen(o.View())
      {
        var k :| 0 <= k < |st.S| && st.S[k] == o && !OffScreen(st.T[k]);
        assert o.View() == st.T[k];
      }
      assert Views(st.S) == st.T;
    }

    /** The loop body at index `i - 1`, proved to keep `ScrollInv`. */
    method ScrollAt(i: nat, ghost st: ScrollStart)
      requires 0 < i && ScrollInv(i, st)
      modifies this`score, this`obstacles, st.S[i - 1]
      ensures ScrollInv(i - 1, st)
    {
      var j := i - 1;
      SplitHead(st.S, st.T, j, obstacles);
      ghost var obstacles0 := obstacles;
      assert obstacles[j].View() == st.V[j];
      var removed := StepObstacle(j);
      CrossingsStep(st.V, st.canvasWidth, j);
      SplitStep(st.S, st.T, j, obstacles0, obstacles, removed);
    }

    /** One iteration of that loop, on the obstacle at index `i`. */
    method StepObstacle(i: nat) returns (removed: bool)
      requires i < |obstacles| && Distinct(obstacles)
      modifies this`score, this`obstacles, obstacles[i]
      ensures Distinct(obstacles)
      ensures old(obstacles[i]).View() == Updated(old(obstacles[i].View()), canvasWidth)
      ensures removed <==> OffScreen(old(obstacles[i]).View())
      ensures removed ==> obstacles == old(obstacles[..i] + obstacles[i + 1..])
      ensures !removed ==> obstacles == old(obstacles)
      ensures score == old(score) + if Crosses(old(obstacles[i].View()), canvasWidth) then 1 else 0
    {
      var obs := obstacles[i];
      obs.Update(this);
      removed := false;
      if obs.x + OBSTACLE_WIDTH < 0.0 {
        obstacles := obstacles[..i] + obstacles[i + 1..];
        removed := true;
      }
    }

    /** The spawn test of `gameLoop`: the list is empty or its last obstacle
        is more than OBSTACLE_SPAWN_DISTANCE left of the right edge. */
    predicate SpawnDue()
      reads this, obstacles
    {
      obstacles == [] || obstacles[|obstacles| - 1].x < canvasWidth - OBSTACLE_SPAWN_DISTANCE
    }

    /** After the obstacle loop of a playing frame: add one obstacle at the
        right edge exactly when `SpawnDue()`. */
    method SpawnIfDue(r: real) returns (spawned: bool)
      requires IsDraw(r) && Distinct(obstacles)
      modifies this`obstacles
      ensures Distinct(obstacles)
      ensures spawned <==> old(SpawnDue())
      ensures spawned ==>
        && |obstacles| == |old(obstacles)| + 1 && obstacles[..|old(obstacles)|] == old(obstacles)
        && fresh(obstacles[|obstacles| - 1])
        && obstacles[|obstacles| - 1].View() == Drawn(canvasWidth, canvasHeight, r)
      ensures !spawned ==> obstacles == old(obstacles)
    {
      spawned := false;
      if obstacles == [] || obstacles[|obstacles| - 1].x < canvasWidth - OBSTACLE_SPAWN_DISTANCE {
        AddObstacle(canvasWidth, r);
        spawned := true;
      }
    }

    /** The playing-state obstacle update of `gameLoop`: the obstacle loop,
        then the spawn test. */
    method MoveObstacles(r: real)
      requires IsDraw(r) && Distinct(obstacles)
      modifies this`score, this`obstacles, obstacles
      ensures Distinct(obstacles)
      ensures score == old(score) + Crossings(old(Views(obstacles)), canvasWidth)
    {
      ScrollObstacles();
      var spawned := SpawnIfDue(r);
    }

    /** One call of `gameLoop()`. `r` is the gap draw of an obstacle
        spawned this frame and `bob` the start screen's idle offset. While
        playing the obstacles move and the list is spliced and extended;
        then the player moves, and a playing frame that ends in a collision
        switches to game over and restarts the frame counter, so that it
        reads 1 after the frame. */
    method Tick(r: real, bob: real)
      requires Valid() && IsDraw(r) && -BOB_AMPLITUDE <= bob <= BOB_AMPLITUDE
      modifies this, obstacles
      ensures Valid()
      ensures old(gameState) == Playing ==>
        score == old(score) + Crossings(old(Views(obstacles)), canvasWidth)
      ensures old(gameState) != Playing ==>
        && gameState == old(gameState) && score == old(score) && obstacles == old(obstacles)
        && unchanged(obstacles) && frameCount == old(frameCount) + 1
      ensures old(gameState) == Playing ==>
        || (gameState == Playing && frameCount == old(frameCount) + 1)
        || (gameState == GameOver && frameCount == 1)
      ensures old(gameState) == Playing ==>
        (gameState == GameOver <==> Collides(PlayerBox(BeholderX(canvasWidth), beholderY, BEHOLDER_SIZE), canvasHeight, Views(obstacles)))
    {
      if gameState == Playing {
        MoveObstacles(r);
      }
      Beholder(bob);
      HandleGameStates();
    }

    /** The state handling at the end of a frame: while playing, a
        collision ends the game and resets the frame counter; the counter
        then advances in every state. */
    method HandleGameStates()
      modifies this`gameState, this`frameCount
      ensures old(gameState) != Playing ==> gameState == old(gameState) && frameCount == old(frameCount) + 1
      ensures old(gameState) == Playing ==>
        var c := Collides(PlayerBox(BeholderX(canvasWidth), beholderY, BEHOLDER_SIZE), canvasHeight, Views(obstacles));
        && (c ==> gameState == GameOver && frameCount == 1)
        && (!c ==> gameState == Playing && frameCount == old(frameCount) + 1)
    {
      if gameState == Playing {
        var hit := CheckCollisions();
        if hit {
          gameState := GameOver;
          frameCount := 0;
        }
      }
      frameCount := frameCount + 1;
    }
  }
}
