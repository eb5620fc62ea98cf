/**
 * The per-frame game rules as functions on a snapshot of the game state.
 * Each function here is the specification of one operation of the game
 * engine; the class Engine.Game implements them field by field.
 *
 * The trigonometry and randomness of the original (the serve angle, and the
 * cosine and sine of the deflection angle) arrive as values of type Turn.
 */
module Rules {
  import opened Geometry

  const WIN_SCORE: int := 7
  /** state.paddleSpeed: pixels a held key moves a paddle per frame (never reassigned). */
  const PADDLE_SPEED: real := 6.0
  /** The ball speeds up by this much on every paddle hit. */
  const SPEED_INCREMENT: real := 0.3

  datatype Mode = OnePlayer | TwoPlayer

  datatype Difficulty = Easy | Medium | Hard

  datatype Preset = Preset(ballSpeed: real, aiSpeed: real, aiReaction: real)

  /** The DIFFICULTY table. */
  function PresetOf(d: Difficulty): (p: Preset)
    ensures p.ballSpeed > 0.0 && p.aiSpeed > 0.0 && 0.0 < p.aiReaction <= 1.0
  {
    match d
    case Easy => Preset(7.0, 5.0, 0.5)
    case Medium => Preset(10.0, 8.0, 0.8)
    case Hard => Preset(13.0, 11.0, 1.0)
  }

  /**
   * Cosine and sine of an angle: the random serve angle, or 60 degrees times
   * the contact offset on a paddle hit. Both angles lie strictly between -90
   * and 90 degrees, so the cosine is positive.
   */
  datatype Turn = Turn(cos: real, sin: real) {
    predicate Valid() { cos > 0.0 && cos * cos + sin * sin == 1.0 }
  }

  /** The angles one frame may need: for a left hit, a right hit and a serve. */
  datatype Trig = Trig(left: Turn, right: Turn, serve: Turn) {
    predicate Valid() { left.Valid() && right.Valid() && serve.Valid() }
  }

  /** The mutable game record; storedHighScore is the value kept in local storage. */
  datatype State = State(
    mode: Mode,
    difficulty: Difficulty,
    running: bool,
    paused: bool,
    p1Score: int,
    p2Score: int,
    ballX: real,
    ballY: real,
    dx: real,
    dy: real,
    ballSpeed: real,
    currentSpeed: real,
    paddle1Y: real,
    paddle2Y: real,
    aiSpeed: real,
    aiReaction: real,
    aiTargetY: real,
    keysDown: map<string, bool>,
    highScore: int,
    rallyCount: int,
    winner: string,
    storedHighScore: int)

  /** The record as declared, after loadHighScore read `stored` from local storage (0 when absent). */
  function Initial(stored: int): State {
    State(OnePlayer, Medium, false, false, 0, 0,
          0.0, 0.0, 0.0, 0.0, 4.5, 4.5,
          0.0, 0.0,
          4.0, 0.07, 0.0,
          map[], stored, 0, "", stored)
  }

  /** currentSpeed is the length of the velocity vector (dx, dy). */
  predicate SpeedInvariant(s: State) {
    s.currentSpeed >= 0.0 && s.dx * s.dx + s.dy * s.dy == s.currentSpeed * s.currentSpeed
  }

  /** What holds of the record between any two operations. */
  predicate Consistent(s: State) {
    0 <= s.p1Score <= WIN_SCORE && 0 <= s.p2Score <= WIN_SCORE &&
    !(s.p1Score == WIN_SCORE && s.p2Score == WIN_SCORE) &&
    (s.running ==> s.p1Score < WIN_SCORE && s.p2Score < WIN_SCORE && SpeedInvariant(s)) &&
    (s.paused ==> s.running) &&
    (s.p1Score == WIN_SCORE || s.p2Score == WIN_SCORE ==> s.highScore >= WIN_SCORE) &&
    s.ballSpeed > 0.0 &&
    s.highScore == s.storedHighScore
  }

  function IntMax(a: int, b: int): int { if a >= b then a else b }

  // ---------------------------------------------------------------- paddles

  /** A key counts as held when its entry in keysDown is true. */
  function Held(keys: map<string, bool>, key: string): bool {
    key in keys && keys[key]
  }

  /** The combined move of one up key and one down key. */
  function KeyStep(up: bool, down: bool): (d: real)
    ensures up == down ==> d == 0.0
    ensures up && !down ==> d == -PADDLE_SPEED
    ensures down && !up ==> d == PADDLE_SPEED
  {
    (if up then -PADDLE_SPEED else 0.0) + (if down then PADDLE_SPEED else 0.0)
  }

  function WsStep(keys: map<string, bool>): real {
    KeyStep(Held(keys, "w") || Held(keys, "W"), Held(keys, "s") || Held(keys, "S"))
  }

  function ArrowStep(keys: map<string, bool>): real {
    KeyStep(Held(keys, "ArrowUp"), Held(keys, "ArrowDown"))
  }

  /**
   * The paddle position moveAI produces. While the ball comes toward the AI
   * (dx > 0) it moves by a reaction share of the distance to the target plus a
   * step of at most aiSpeed toward it; otherwise it drifts 2% of the way back
   * to the vertical centre.
   */
  function AiStep(ballY: real, dx: real, paddle2Y: real, aiSpeed: real, aiReaction: real, h: real): real {
    if dx > 0.0 then
      var diff := AiTarget(ballY) - paddle2Y;
      paddle2Y + (diff * aiReaction + Sign(diff) * Min(Abs(diff), aiSpeed))
    else
      var diff := (h / 2.0 - PADDLE_HEIGHT / 2.0) - paddle2Y;
      paddle2Y + diff * 0.02
  }

  /** The AI aims to centre its paddle on the ball. */
  function AiTarget(ballY: real): real { (ballY + BALL_SIZE / 2.0) - PADDLE_HEIGHT / 2.0 }

  /** moveAI: the target is updated only while the ball comes toward the AI. */
  function MoveAI(s: State, h: real): (r: State)
    ensures r == s.(paddle2Y := r.paddle2Y, aiTargetY := r.aiTargetY)
    ensures r.paddle2Y == AiStep(s.ballY, s.dx, s.paddle2Y, s.aiSpeed, s.aiReaction, h)
    ensures s.dx <= 0.0 ==> r.aiTargetY == s.aiTargetY
  {
    var y := AiStep(s.ballY, s.dx, s.paddle2Y, s.aiSpeed, s.aiReaction, h);
    if s.dx > 0.0 then s.(aiTargetY := AiTarget(s.ballY), paddle2Y := y)
    else s.(paddle2Y := y)
  }

  /**
   * movePaddles: W/S move paddle 1 in both modes; the arrows move paddle 1 in
   * one-player mode (where the AI then moves paddle 2) and paddle 2 in
   * two-player mode; then both paddles are clamped to the table. moveAI
   * neither reads nor writes paddle 1, so paddle 1's new height is computed
   * in one expression.
   */
  function MovePaddles(s: State, h: real): (r: State)
    ensures h >= PADDLE_HEIGHT ==> 0.0 <= r.paddle1Y <= h - PADDLE_HEIGHT
    ensures h >= PADDLE_HEIGHT ==> 0.0 <= r.paddle2Y <= h - PADDLE_HEIGHT
    ensures r == s.(paddle1Y := r.paddle1Y, paddle2Y := r.paddle2Y, aiTargetY := r.aiTargetY)
  {
    var arrows := ArrowStep(s.keysDown);
    var y1 := s.paddle1Y + WsStep(s.keysDown) + (if s.mode == OnePlayer then arrows else 0.0);
    var a := if s.mode == OnePlayer then MoveAI(s, h) else s;
    var y2 := a.paddle2Y + (if s.mode == TwoPlayer then arrows else 0.0);
    a.(paddle1Y := Clamp(y1, 0.0, h - PADDLE_HEIGHT), paddle2Y := Clamp(y2, 0.0, h - PADDLE_HEIGHT))
  }

  /** The mouse handler: while playing, a pointer over the left 60% of the table sets paddle 1. */
  function MouseMove(s: State, clientX: real, clientY: real,
                     rectLeft: real, rectTop: real, rectWidth: real, h: real): (r: State)
    ensures r == s.(paddle1Y := r.paddle1Y)
    ensures r != s ==> s.running && !s.paused && clientX <= rectLeft + rectWidth * 0.6
    ensures r != s && h >= PADDLE_HEIGHT ==> 0.0 <= r.paddle1Y <= h - PADDLE_HEIGHT
    ensures s.running && !s.paused && clientX <= rectLeft + rectWidth * 0.6 ==>
              r.paddle1Y == Clamp(clientY - rectTop - PADDLE_HEIGHT / 2.0, 0.0, h - PADDLE_HEIGHT)
  {
    if !s.running || s.paused then s
    else if clientX > rectLeft + rectWidth * 0.6 then s
    else s.(paddle1Y := Clamp(clientY - rectTop - PADDLE_HEIGHT / 2.0, 0.0, h - PADDLE_HEIGHT))
  }

  // ------------------------------------------------------------------- ball

  /** (cos * k, sin * k), possibly mirrored in x, has length k when (cos, sin) is a unit vector. */
  lemma ScaledTurn(dir: real, c: real, sn: real, k: real)
    requires dir == 1.0 || dir == -1.0
    requires c * c + sn * sn == 1.0
    ensures (dir * c * k) * (dir * c * k) + (sn * k) * (sn * k) == k * k
  {
    // Proof sketch for the reader: the verifier also finds this proof unaided.
    assert (dir * c * k) * (dir * c * k) == (dir * dir) * (c * c) * (k * k);
    assert (sn * k) * (sn * k) == (sn * sn) * (k * k);
    assert (c * c) * (k * k) + (sn * sn) * (k * k) == (c * c + sn * sn) * (k * k);
  }

  /** A product of two positive reals is positive. */
  lemma PositiveProduct(a: real, b: real)
    requires a > 0.0 && b > 0.0
    ensures a * b > 0.0
  {
  }

  /** resetBall: centre the ball and serve it with the current speed along the given angle. */
  function ResetBall(s: State, w: real, h: real, direction: real, t: Turn): (r: State)
    requires direction == 1.0 || direction == -1.0
    ensures r.ballX == w / 2.0 - BALL_SIZE / 2.0 && r.ballY == h / 2.0 - BALL_SIZE / 2.0
    ensures r.rallyCount == 0
    ensures t.Valid() && s.currentSpeed > 0.0 ==> (r.dx > 0.0 <==> direction > 0.0) && r.dx != 0.0
    ensures t.Valid() && s.currentSpeed >= 0.0 ==> SpeedInvariant(r)
    ensures r == s.(ballX := r.ballX, ballY := r.ballY, dx := r.dx, dy := r.dy, rallyCount := 0)
  {
    var r := s.(ballX := w / 2.0 - BALL_SIZE / 2.0,
                ballY := h / 2.0 - BALL_SIZE / 2.0,
                dx := direction * t.cos * s.currentSpeed,
                dy := t.sin * s.currentSpeed,
                rallyCount := 0);
    if t.Valid() then
      ScaledTurn(direction, t.cos, t.sin, s.currentSpeed);
      if s.currentSpeed > 0.0 then
        PositiveProduct(t.cos, s.currentSpeed);
        assert direction * t.cos * s.currentSpeed == direction * (t.cos * s.currentSpeed);
        r
      else r
    else r
  }

  /** resetPaddles: both paddles to the vertical centre. */
  function ResetPaddles(s: State, h: real): (r: State)
    ensures r.paddle1Y == r.paddle2Y == h / 2.0 - PADDLE_HEIGHT / 2.0
    ensures r == s.(paddle1Y := r.paddle1Y, paddle2Y := r.paddle2Y)
  {
    s.(paddle1Y := h / 2.0 - PADDLE_HEIGHT / 2.0, paddle2Y := h / 2.0 - PADDLE_HEIGHT / 2.0)
  }

  /** Integration step of moveBall: x += dx, y += dy. */
  function Integrate(s: State): (r: State)
    ensures SpeedInvariant(s) ==> SpeedInvariant(r)
  {
    s.(ballX := s.ballX + s.dx, ballY := s.ballY + s.dy)
  }

  /** The top and bottom wall bounce of moveBall, on (ballY, dy). */
  function WallStep(y: real, dy: real, h: real): (r: (real, real))
    ensures y <= 0.0 ==> r.0 == 0.0 && r.1 >= 0.0
    ensures 0.0 < y && h - BALL_SIZE <= y ==> r.0 == h - BALL_SIZE && r.1 <= 0.0
    ensures 0.0 < y < h - BALL_SIZE ==> r == (y, dy)
    ensures r.1 == dy || r.1 == -dy
    ensures h >= BALL_SIZE ==> 0.0 <= r.0 <= h - BALL_SIZE
  {
    if y <= 0.0 then (0.0, Abs(dy))
    else if y >= h - BALL_SIZE then (h - BALL_SIZE, -Abs(dy))
    else (y, dy)
  }

  function WallBounce(s: State, h: real): (r: State)
    ensures SpeedInvariant(s) ==> SpeedInvariant(r)
    ensures r == s.(ballY := r.ballY, dy := r.dy)
  {
    var (y, dy) := WallStep(s.ballY, s.dy, h);
    s.(ballY := y, dy := dy)
  }

  /**
   * deflectBall: the ball leaves the paddle SPEED_INCREMENT faster, along the
   * given angle, keeping its horizontal direction, and the rally count goes up.
   * The original measures the old speed as Math.sqrt(dx*dx + dy*dy); that is
   * currentSpeed whenever SpeedInvariant holds, which it does during play.
   */
  function Deflect(s: State, t: Turn): (r: State)
    ensures r.currentSpeed == s.currentSpeed + SPEED_INCREMENT
    ensures r.rallyCount == s.rallyCount + 1
    ensures t.Valid() && SpeedInvariant(s) ==> SpeedInvariant(r)
    ensures t.Valid() && SpeedInvariant(s) && s.dx > 0.0 ==> r.dx > 0.0
    ensures t.Valid() && SpeedInvariant(s) && s.dx <= 0.0 ==> r.dx < 0.0
    ensures r == s.(dx := r.dx, dy := r.dy, currentSpeed := r.currentSpeed, rallyCount := r.rallyCount)
  {
    var newSpeed := s.currentSpeed + SPEED_INCREMENT;
    var dir := if s.dx > 0.0 then 1.0 else -1.0;
    var r := s.(currentSpeed := newSpeed, rallyCount := s.rallyCount + 1,
                dx := dir * t.cos * newSpeed, dy := t.sin * newSpeed);
    if t.Valid() && SpeedInvariant(s) then
      ScaledTurn(dir, t.cos, t.sin, newSpeed);
      PositiveProduct(t.cos, newSpeed);
      assert dir * t.cos * newSpeed == dir * (t.cos * newSpeed);
      r
    else r
  }

  /** The left paddle: an overlap is resolved only while the ball moves left. */
  function LeftPaddle(s: State, t: Turn): (r: State)
    ensures !(CheckPaddleCollision(s.ballX, s.ballY, PADDLE_MARGIN, s.paddle1Y) && s.dx < 0.0) ==> r == s
    ensures CheckPaddleCollision(s.ballX, s.ballY, PADDLE_MARGIN, s.paddle1Y) && s.dx < 0.0 ==>
              r.ballX == PADDLE_MARGIN + PADDLE_WIDTH &&
              !CheckPaddleCollision(r.ballX, r.ballY, PADDLE_MARGIN, r.paddle1Y) &&
              r.currentSpeed == s.currentSpeed + SPEED_INCREMENT &&
              r.rallyCount == s.rallyCount + 1 &&
              (t.Valid() && SpeedInvariant(s) ==> r.dx > 0.0)
    ensures t.Valid() && SpeedInvariant(s) ==> SpeedInvariant(r)
    ensures r == s.(ballX := r.ballX, dx := r.dx, dy := r.dy, currentSpeed := r.currentSpeed,
                    rallyCount := r.rallyCount)
  {
    if CheckPaddleCollision(s.ballX, s.ballY, PADDLE_MARGIN, s.paddle1Y) && s.dx < 0.0 then
      Deflect(s.(ballX := PADDLE_MARGIN + PADDLE_WIDTH, dx := Abs(s.dx)), t)
    else s
  }

  /** The right paddle's x on a table of width w. */
  function RightPaddleX(w: real): real { w - PADDLE_MARGIN - PADDLE_WIDTH }

  /** The right paddle: an overlap is resolved only while the ball moves right. */
  function RightPaddle(s: State, w: real, t: Turn): (r: State)
    ensures !(CheckPaddleCollision(s.ballX, s.ballY, RightPaddleX(w), s.paddle2Y) && s.dx > 0.0) ==> r == s
    ensures CheckPaddleCollision(s.ballX, s.ballY, RightPaddleX(w), s.paddle2Y) && s.dx > 0.0 ==>
              r.ballX == w - PADDLE_MARGIN - PADDLE_WIDTH - BALL_SIZE &&
              !CheckPaddleCollision(r.ballX, r.ballY, RightPaddleX(w), r.paddle2Y) &&
              r.currentSpeed == s.currentSpeed + SPEED_INCREMENT &&
              r.rallyCount == s.rallyCount + 1 &&
              (t.Valid() && SpeedInvariant(s) ==> r.dx < 0.0)
    ensures t.Valid() && SpeedInvariant(s) ==> SpeedInvariant(r)
    ensures r == s.(ballX := r.ballX, dx := r.dx, dy := r.dy, currentSpeed := r.currentSpeed,
                    rallyCount := r.rallyCount)
  {
    var p2X := RightPaddleX(w);
    if CheckPaddleCollision(s.ballX, s.ballY, p2X, s.paddle2Y) && s.dx > 0.0 then
      Deflect(s.(ballX := p2X - BALL_SIZE, dx := -Abs(s.dx)), t)
    else s
  }

  /** The ball after integration, wall bounce and both paddle checks; scores untouched. */
  function AfterPaddles(s: State, w: real, h: real, trig: Trig): (r: State)
    ensures trig.Valid() && SpeedInvariant(s) ==> SpeedInvariant(r)
    ensures r == s.(ballX := r.ballX, ballY := r.ballY, dx := r.dx, dy := r.dy,
                    currentSpeed := r.currentSpeed, rallyCount := r.rallyCount)
  {
    var s1 := Integrate(s);
    var s2 := WallBounce(s1, h);
    var s3 := LeftPaddle(s2, trig.left);
    var s4 := RightPaddle(s3, w, trig.right);
    s4
  }

  // ------------------------------------------------------- scoring and end

  /** saveHighScore: keep the larger of the old high score and `score`, in memory and in storage. */
  function SaveHighScore(s: State, score: int): (r: State)
    ensures r.highScore >= s.highScore && r.highScore >= score
    ensures r.highScore == s.highScore || r.highScore == score
    ensures s.highScore == s.storedHighScore ==> r.highScore == r.storedHighScore
    ensures r == s.(highScore := r.highScore, storedHighScore := r.storedHighScore)
  {
    if score > s.highScore then s.(highScore := score, storedHighScore := score) else s
  }

  /** The name checkGameOver announces. */
  function WinnerName(p1Score: int, mode: Mode): string {
    if p1Score >= WIN_SCORE then "PLAYER 1" else if mode == OnePlayer then "CPU" else "PLAYER 2"
  }

  predicate GameOver(s: State) {
    s.p1Score >= WIN_SCORE || s.p2Score >= WIN_SCORE
  }

  /** The state change of checkGameOver when it returns true. */
  function EndMatch(s: State): (r: State)
    ensures !r.running
    ensures r.highScore == IntMax(s.highScore, IntMax(s.p1Score, s.p2Score))
    ensures r == s.(running := false, winner := r.winner, highScore := r.highScore,
                    storedHighScore := r.storedHighScore)
  {
    SaveHighScore(s.(running := false, winner := WinnerName(s.p1Score, s.mode)),
                  IntMax(s.p1Score, s.p2Score))
  }

  /** `checkGameOver() || resetBall(direction)` after a point. */
  function AfterPoint(s: State, w: real, h: real, direction: real, t: Turn): State
    requires direction == 1.0 || direction == -1.0
  {
    if GameOver(s) then EndMatch(s) else ResetBall(s, w, h, direction, t)
  }

  /** The scoring step of moveBall, on the ball after its paddle checks. */
  function Scoring(s: State, w: real, h: real, t: Turn): State {
    if s.ballX <= -BALL_SIZE then
      AfterPoint(s.(p2Score := s.p2Score + 1, currentSpeed := s.ballSpeed), w, h, 1.0, t)
    else if s.ballX >= w then
      AfterPoint(s.(p1Score := s.p1Score + 1, currentSpeed := s.ballSpeed), w, h, -1.0, t)
    else s
  }

  /** moveBall. */
  function MoveBall(s: State, w: real, h: real, trig: Trig): State {
    Scoring(AfterPaddles(s, w, h, trig), w, h, trig.serve)
  }

  /** gameLoop: one frame, which does nothing unless the match runs unpaused. */
  function GameLoop(s: State, w: real, h: real, trig: Trig): State {
    if !s.running || s.paused then s else MoveBall(MovePaddles(s, h), w, h, trig)
  }

  // ------------------------------------------------------------- lifecycle

  /** resetGame: load the preset of the selected difficulty, zero the match and serve to the right. */
  function ResetGame(s: State, w: real, h: real, serve: Turn): State {
    var p := PresetOf(s.difficulty);
    var s1 := s.(ballSpeed := p.ballSpeed, currentSpeed := p.ballSpeed,
                 aiSpeed := p.aiSpeed, aiReaction := p.aiReaction,
                 p1Score := 0, p2Score := 0, rallyCount := 0, keysDown := map[]);
    ResetBall(ResetPaddles(s1, h), w, h, 1.0, serve)
  }

  /** startGame, with the two toggle selections as arguments. */
  function StartGame(s: State, mode: Mode, difficulty: Difficulty, w: real, h: real, serve: Turn): State {
    ResetGame(s.(mode := mode, difficulty := difficulty), w, h, serve).(running := true, paused := false)
  }

  function PauseGame(s: State): State {
    if !s.running then s else s.(paused := true)
  }

  function ResumeGame(s: State): State {
    if !s.running then s else s.(paused := false)
  }

  /** loadHighScore: read the high score back from storage. */
  function LoadHighScore(s: State): State {
    s.(highScore := s.storedHighScore)
  }

  /** quitToMenu: stop play and reload the high score. */
  function QuitToMenu(s: State): State {
    LoadHighScore(s.(running := false, paused := false))
  }

  /** The keydown handler: mark the key held; Escape toggles pause while running. */
  function KeyDown(s: State, key: string): State {
    var t := s.(keysDown := s.keysDown[key := true]);
    if key == "Escape" && t.running then
      (if t.paused then ResumeGame(t) else PauseGame(t))
    else t
  }

  /** The keyup handler. */
  function KeyUp(s: State, key: string): State {
    s.(keysDown := s.keysDown[key := false])
  }

  // ---------------------------------------------------------------- events

  /** Everything that can happen to the game: a frame, a button, a key, the mouse. */
  datatype Event =
    | Frame(w: real, h: real, trig: Trig)
    | Start(mode: Mode, difficulty: Difficulty, sw: real, sh: real, serve: Turn)
    | Pause
    | Resume
    | Quit
    | Press(key: string)
    | Release(key: string)
    | Mouse(clientX: real, clientY: real, rectLeft: real, rectTop: real, rectWidth: real, mh: real)
  {
    /** The angles a frame or a start uses are true cosines and sines. */
    predicate Valid() {
      match this
      case Frame(_, _, trig) => trig.Valid()
      case Start(_, _, _, _, serve) => serve.Valid()
      case _ => true
    }
  }

  function Apply(s: State, e: Event): State {
    match e
    case Frame(w, h, trig) => GameLoop(s, w, h, trig)
    case Start(mode, d, w, h, serve) => StartGame(s, mode, d, w, h, serve)
    case Pause => PauseGame(s)
    case Resume => ResumeGame(s)
    case Quit => QuitToMenu(s)
    case Press(k) => KeyDown(s, k)
    case Release(k) => KeyUp(s, k)
    case Mouse(cx, cy, l, t, rw, h) => MouseMove(s, cx, cy, l, t, rw, h)
  }

  /** The state after a sequence of events. */
  function Run(s: State, events: seq<Event>): State
    decreases |events|
  {
    if events == [] then s else Run(Apply(s, events[0]), events[1..])
  }
}
