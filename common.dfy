/** Definitions shared by both versions of the game: the three-state mode,
    the player's bounding box and the narrowed obstacle collision span. */
module Common {

  /** The value of the `gameState` global: 'start', 'playing' or 'gameOver'. */
  datatype GameState = Start | Playing | GameOver

  datatype Option<T> = None | Some(value: T)

  function Max(a: real, b: real): real { if a >= b then a else b }

  function Min(a: real, b: real): real { if a <= b then a else b }

  function MaxInt(a: int, b: int): int { if a >= b then a else b }

  function MinInt(a: int, b: int): int { if a <= b then a else b }

  /** A `Math.random()` value. */
  predicate IsDraw(r: real) { 0.0 <= r < 1.0 }

  /** `r * d`, kept behind a name so that the solver does not distribute it. */
  function Scale(r: real, d: real): real { r * d }

  /** A draw scaled by a positive length stays below that length. */
  lemma ScaledDrawBelow(r: real, d: real)
    requires IsDraw(r) && 0.0 < d
    ensures 0.0 <= Scale(r, d) < d
  {
  }

  /** A draw scaled by any length lies between 0 and that length, never
      reaching the length itself unless it is 0. */
  lemma ScaledDrawBetween(r: real, d: real)
    requires IsDraw(r)
    ensures 0.0 < d ==> 0.0 <= Scale(r, d) < d
    ensures d == 0.0 ==> Scale(r, d) == 0.0
    ensures d < 0.0 ==> d < Scale(r, d) <= 0.0
  {
    if 0.0 < d {
      ScaledDrawBelow(r, d);
    } else if d < 0.0 {
      ScaledDrawBelow(r, -d);
      assert Scale(r, -d) == -Scale(r, d);
    }
  }

  /** No object occurs twice in `s`. */
  ghost predicate Distinct<T>(s: seq<T>)
  {
    forall i, j :: 0 <= i < j < |s| ==> s[i] != s[j]
  }

  /** Two duplicate-free sequences with no element in common concatenate
      to a duplicate-free sequence. */
  lemma DistinctConcat<T>(a: seq<T>, b: seq<T>)
    requires Distinct(a) && Distinct(b)
    requires forall x :: x in a ==> x !in b
    ensures Distinct(a + b)
  {
    forall i, j | 0 <= i < j < |a + b|
      ensures (a + b)[i] != (a + b)[j]
    {
      if j < |a| {
      } else if i >= |a| {
        assert (a + b)[i] == b[i - |a|] && (a + b)[j] == b[j - |a|];
      } else {
        assert (a + b)[i] in a && (a + b)[j] in b;
      }
    }
  }

  /** `pool` is `pool0` after up to three elements were taken off its end
      and three were pushed back, the ones taken first (last first). */
  ghost predicate Restacked<T>(pool0: seq<T>, pool: seq<T>)
  {
    var m := |pool0| - MinInt(3, |pool0|);
    && |pool| == m + 3 && pool[..m] == pool0[..m]
    && forall j :: m <= j < |pool0| ==> pool[j] == pool0[|pool0| + m - 1 - j]
  }

  /** Popping up to three elements off `pool0`, which are `spawned`'s first
      elements last first, and appending `spawned` is a restacking. */
  lemma RestackedByConcat<T>(pool0: seq<T>, spawned: seq<T>)
    requires |spawned| == 3
    requires forall k :: 0 <= k < 3 && k < |pool0| ==> spawned[k] == pool0[|pool0| - 1 - k]
    ensures Restacked(pool0, pool0[..MaxInt(|pool0| - 3, 0)] + spawned)
  {
  }

  /** Restacking loses no element of the original pool. */
  lemma RestackKeeps<T>(pool0: seq<T>, pool: seq<T>)
    requires Restacked(pool0, pool)
    ensures forall x :: x in pool0 ==> x in pool
  {
    var m := |pool0| - MinInt(3, |pool0|);
    forall x | x in pool0
      ensures x in pool
    {
      var i :| 0 <= i < |pool0| && pool0[i] == x;
      if i < m {
        assert pool[..m][i] == x;
      } else {
        assert pool[|pool0| + m - 1 - i] == x;
      }
    }
  }

  /** Fraction of an obstacle's drawn width that takes part in collisions. */
  const OBSTACLE_COLLISION_WIDTH_FACTOR: real := 0.6

  /** The player's square bounding box, centred on (cx, cy). */
  datatype Box = Box(left: real, right: real, top: real, bottom: real)

  function PlayerBox(cx: real, cy: real, size: real): (b: Box)
    requires 0.0 <= size
    ensures b.right - b.left == size && b.bottom - b.top == size
    ensures b.left <= cx <= b.right && b.top <= cy <= b.bottom
  {
    Box(cx - size / 2.0, cx + size / 2.0, cy - size / 2.0, cy + size / 2.0)
  }

  /** How far each collision edge is pulled in from the drawn edge. */
  function CollisionInset(width: real): real
  {
    width * (1.0 - OBSTACLE_COLLISION_WIDTH_FACTOR) / 2.0
  }

  /** The horizontal span of an obstacle that counts for collisions: the drawn
      span [x, x + width] shrunk by the same inset on both sides. */
  function CollisionSpan(x: real, width: real): (span: (real, real))
    requires 0.0 <= width
    ensures x <= span.0 <= span.1 <= x + width
    ensures span.1 - span.0 == OBSTACLE_COLLISION_WIDTH_FACTOR * width
    ensures span.0 - x == (x + width) - span.1
  {
    (x + CollisionInset(width), x + width - CollisionInset(width))
  }

  /** The player overlaps the collision span horizontally (strict on both sides). */
  predicate OverlapsSpan(b: Box, x: real, width: real)
    requires 0.0 <= width
  {
    var span := CollisionSpan(x, width);
    b.right > span.0 && b.left < span.1
  }

  /** The player reaches above the gap's top or below the gap's bottom. */
  predicate OutsideGap(b: Box, topHeight: real, bottomY: real)
  {
    b.top < topHeight || b.bottom > bottomY
  }

  /** The obstacle test used by both versions' `checkCollisions`. A player
      wholly inside the gap is never hit; one clear of the narrowed span is
      never hit, however high or low it is. */
  predicate HitsObstacle(b: Box, x: real, width: real, topHeight: real, bottomY: real): (hit: bool)
    requires 0.0 <= width
    ensures topHeight <= b.top && b.bottom <= bottomY ==> !hit
    ensures b.right <= x + CollisionInset(width) ==> !hit
    ensures b.left >= x + width - CollisionInset(width) ==> !hit
  {
    OverlapsSpan(b, x, width) && OutsideGap(b, topHeight, bottomY)
  }
}
