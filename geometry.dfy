/**
 * Table geometry: the fixed sizes of ball and paddles, the clamp helper and
 * the axis-aligned overlap test between the ball and a paddle.
 * Positions are the top-left corners of the bounding boxes, in pixels.
 */
module Geometry {

  const PADDLE_HEIGHT: real := 80.0
  const PADDLE_WIDTH: real := 14.0
  const BALL_SIZE: real := 16.0
  /** Distance of each paddle from its table edge. */
  const PADDLE_MARGIN: real := 12.0

  function Min(a: real, b: real): real { if a <= b then a else b }

  function Max(a: real, b: real): real { if a >= b then a else b }

  function Abs(x: real): (r: real)
    ensures r >= 0.0 && (r == x || r == -x)
  {
    if x < 0.0 then -x else x
  }

  /** Math.sign: -1, 0 or 1. */
  function Sign(x: real): real { if x > 0.0 then 1.0 else if x < 0.0 then -1.0 else 0.0 }

  /**
   * clamp(val, min, max) = Math.max(min, Math.min(max, val)).
   * On an empty range (lo > hi) the outer max wins and the result is lo.
   */
  function Clamp(val: real, lo: real, hi: real): (r: real)
    ensures lo <= r
    ensures lo <= hi ==> r <= hi
    ensures lo <= val <= hi ==> r == val
    ensures val < lo ==> r == lo
    ensures lo <= hi < val ==> r == hi
    ensures hi < lo ==> r == lo
  {
    Max(lo, Min(hi, val))
  }

  /** The open interior of an axis-aligned rectangle. */
  datatype Box = Box(left: real, top: real, width: real, height: real) {
    predicate Contains(px: real, py: real) {
      left < px < left + width && top < py < top + height
    }
  }

  function BallBox(ballX: real, ballY: real): Box { Box(ballX, ballY, BALL_SIZE, BALL_SIZE) }

  function PaddleBox(paddleX: real, paddleY: real): Box { Box(paddleX, paddleY, PADDLE_WIDTH, PADDLE_HEIGHT) }

  /** checkPaddleCollision: strict AABB overlap of the ball box and a paddle box. */
  function CheckPaddleCollision(ballX: real, ballY: real, paddleX: real, paddleY: real): bool {
    ballX < paddleX + PADDLE_WIDTH &&
    ballX + BALL_SIZE > paddleX &&
    ballY < paddleY + PADDLE_HEIGHT &&
    ballY + BALL_SIZE > paddleY
  }

  /** The four comparisons hold exactly when the two open boxes share a point. */
  lemma CollisionIffSharedPoint(ballX: real, ballY: real, paddleX: real, paddleY: real)
    ensures CheckPaddleCollision(ballX, ballY, paddleX, paddleY) <==>
            exists px: real, py: real ::
              BallBox(ballX, ballY).Contains(px, py) && PaddleBox(paddleX, paddleY).Contains(px, py)
  {
    if CheckPaddleCollision(ballX, ballY, paddleX, paddleY) {
      var px := (Max(ballX, paddleX) + Min(ballX + BALL_SIZE, paddleX + PADDLE_WIDTH)) / 2.0;
      var py := (Max(ballY, paddleY) + Min(ballY + BALL_SIZE, paddleY + PADDLE_HEIGHT)) / 2.0;
      assert BallBox(ballX, ballY).Contains(px, py) && PaddleBox(paddleX, paddleY).Contains(px, py);
    }
  }

  /**
   * The contact offset deflectBall computes: the distance from the paddle's
   * centre to the ball's centre, in half paddle heights.
   */
  function HitOffset(ballY: real, paddleY: real): real {
    ((ballY + BALL_SIZE / 2.0) - (paddleY + PADDLE_HEIGHT / 2.0)) / (PADDLE_HEIGHT / 2.0)
  }

  /**
   * While the boxes overlap the offset stays strictly inside (-6/5, 6/5), so the
   * deflection angle (60 degrees times the offset) stays inside (-72, 72) degrees.
   */
  lemma OffsetWithinOverlap(ballX: real, ballY: real, paddleX: real, paddleY: real)
    requires CheckPaddleCollision(ballX, ballY, paddleX, paddleY)
    ensures -1.2 < HitOffset(ballY, paddleY) < 1.2
  {
  }

  /** The offset is not clamped to [-1, 1]: a ball overlapping the paddle's lower end exceeds 1. */
  lemma OffsetCanExceedOne()
    ensures CheckPaddleCollision(PADDLE_MARGIN, 79.0, PADDLE_MARGIN, 0.0)
    ensures HitOffset(79.0, 0.0) == 1.175
  {
  }
}
