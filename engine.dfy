/**
 * The game engine: one object whose fields are the game record, and one
 * method per operation of the original, each proved to compute the matching
 * function of module Rules from the fields it read.
 */
module Engine {
  import opened Geometry
  import opened Rules
  import Properties

  class Game {
    var mode: Mode
    var difficulty: Difficulty
    var running: bool
    var paused: bool
    var p1Score: int
    var p2Score: int
    var ballX: real
    var ballY: real
    var dx: real
    var dy: real
    var ballSpeed: real
    var currentSpeed: real
    var paddle1Y: real
    var paddle2Y: real
    var aiSpeed: real
    var aiReaction: real
    var aiTargetY: real
    var keysDown: map<string, bool>
    var highScore: int
    var rallyCount: int
    /** The name shown on the game-over banner. */
    var winner: string
    /** The high score as kept in local storage. */
    var storedHighScore: int

    /** The fields as one record value. */
    function Snapshot(): State
      reads this
    {
      State(mode, difficulty, running, paused, p1Score, p2Score,
            ballX, ballY, dx, dy, ballSpeed, currentSpeed,
            paddle1Y, paddle2Y, aiSpeed, aiReaction, aiTargetY,
            keysDown, highScore, rallyCount, winner, storedHighScore)
    }

    ghost predicate Valid()
      reads this
    {
      Consistent(Snapshot())
    }

    /** The record as declared, then loadHighScore with `stored` as the value found in storage. */
    constructor (stored: int)
      ensures Snapshot() == Initial(stored) && Valid()
    {
      mode, difficulty, running, paused := OnePlayer, Medium, false, false;
      p1Score, p2Score := 0, 0;
      ballX, ballY, dx, dy := 0.0, 0.0, 0.0, 0.0;
      ballSpeed, currentSpeed := 4.5, 4.5;
      paddle1Y, paddle2Y := 0.0, 0.0;
      aiSpeed, aiReaction, aiTargetY := 4.0, 0.07, 0.0;
      keysDown := map[];
      rallyCount := 0;
      winner := "";
      storedHighScore := stored;
      highScore := stored;
    }

    // ------------------------------------------------------- high score

    method LoadHighScore()
      modifies this
      ensures Snapshot() == Rules.LoadHighScore(old(Snapshot()))
    {
      highScore := storedHighScore;
    }

    method SaveHighScore(score: int)
      modifies this
      ensures Snapshot() == Rules.SaveHighScore(old(Snapshot()), score)
    {
      if score > highScore {
        highScore := score;
        storedHighScore := score;
      }
    }

    // ---------------------------------------------------- field groups
    // Small steps that write two related fields at once; the operations
    // below are built from them.

    /** Puts the ball's top-left corner at (x, y). */
    method PlaceBall(x: real, y: real)
      modifies this
      ensures Snapshot() == old(Snapshot()).(ballX := x, ballY := y)
    {
      ballX := x;
      ballY := y;
    }

    /** Puts the two paddles at heights y1 and y2. */
    method PlacePaddles(y1: real, y2: real)
      modifies this
      ensures Snapshot() == old(Snapshot()).(paddle1Y := y1, paddle2Y := y2)
    {
      paddle1Y := y1;
      paddle2Y := y2;
    }

    /** Sets the ball's velocity. */
    method SetVelocity(vx: real, vy: real)
      modifies this
      ensures Snapshot() == old(Snapshot()).(dx := vx, dy := vy)
    {
      dx := vx;
      dy := vy;
    }

    /** Sets the serve speed and the current ball speed. */
    method SetBallSpeeds(serveSpeed: real, speed: real)
      modifies this
      ensures Snapshot() == old(Snapshot()).(ballSpeed := serveSpeed, currentSpeed := speed)
    {
      ballSpeed := serveSpeed;
      currentSpeed := speed;
    }

    /** Sets the AI's tracking speed and reaction factor. */
    method SetAiTuning(speed: real, reaction: real)
      modifies this
      ensures Snapshot() == old(Snapshot()).(aiSpeed := speed, aiReaction := reaction)
    {
      aiSpeed := speed;
      aiReaction := reaction;
    }

    /** Sets both scores. */
    method SetScores(p1: int, p2: int)
      modifies this
      ensures Snapshot() == old(Snapshot()).(p1Score := p1, p2Score := p2)
    {
      p1Score := p1;
      p2Score := p2;
    }

    /** Sets the selected mode and difficulty. */
    method SetSettings(m: Mode, d: Difficulty)
      modifies this
      ensures Snapshot() == old(Snapshot()).(mode := m, difficulty := d)
    {
      mode := m;
      difficulty := d;
    }

    /** Sets the running and paused flags. */
    method SetRunFlags(r: bool, p: bool)
      modifies this
      ensures Snapshot() == old(Snapshot()).(running := r, paused := p)
    {
      running := r;
      paused := p;
    }

    // ------------------------------------------------------------ resets

    method ResetBall(w: real, h: real, direction: real, serve: Turn)
      requires direction == 1.0 || direction == -1.0
      modifies this
      ensures Snapshot() == Rules.ResetBall(old(Snapshot()), w, h, direction, serve)
    {
      PlaceBall(w / 2.0 - BALL_SIZE / 2.0, h / 2.0 - BALL_SIZE / 2.0);
      SetVelocity(direction * serve.cos * currentSpeed, serve.sin * currentSpeed);
      rallyCount := 0;
    }

    method ResetPaddles(h: real)
      modifies this
      ensures Snapshot() == Rules.ResetPaddles(old(Snapshot()), h)
    {
      PlacePaddles(h / 2.0 - PADDLE_HEIGHT / 2.0, h / 2.0 - PADDLE_HEIGHT / 2.0);
    }

    method ResetGame(w: real, h: real, serve: Turn)
      modifies this
      ensures Snapshot() == Rules.ResetGame(old(Snapshot()), w, h, serve)
    {
      var diff := PresetOf(difficulty);
      SetBallSpeeds(diff.ballSpeed, diff.ballSpeed);
      SetAiTuning(diff.aiSpeed, diff.aiReaction);
      SetScores(0, 0);
      rallyCount := 0;
      keysDown := map[];
      ResetPaddles(h);
      ResetBall(w, h, 1.0, serve);
    }

    // -------------------------------------------------------- game over

    method CheckGameOver() returns (over: bool)
      modifies this
      ensures over == GameOver(old(Snapshot()))
      ensures Snapshot() == if over then EndMatch(old(Snapshot())) else old(Snapshot())
    {
      if p1Score >= WIN_SCORE || p2Score >= WIN_SCORE {
        running := false;
        winner := WinnerName(p1Score, mode);
        var winnerScore := IntMax(p1Score, p2Score);
        SaveHighScore(winnerScore);
        return true;
      }
      return false;
    }

    // -------------------------------------------------------------- ball

    method Deflect(t: Turn)
      modifies this
      ensures Snapshot() == Rules.Deflect(old(Snapshot()), t)
    {
      var newSpeed := currentSpeed + SPEED_INCREMENT;
      currentSpeed := newSpeed;
      rallyCount := rallyCount + 1;
      var dir := if dx > 0.0 then 1.0 else -1.0;
      SetVelocity(dir * t.cos * newSpeed, t.sin * newSpeed);
    }

    /** The top and bottom wall bounce of moveBall. */
    method BounceOffWalls(h: real)
      modifies this
      ensures Snapshot() == WallBounce(old(Snapshot()), h)
    {
      if ballY <= 0.0 {
        ballY := 0.0;
        dy := Abs(dy);
      } else if ballY >= h - BALL_SIZE {
        ballY := h - BALL_SIZE;
        dy := -Abs(dy);
      }
    }

    /** The left paddle check of moveBall. */
    method HitLeftPaddle(t: Turn)
      modifies this
      ensures Snapshot() == LeftPaddle(old(Snapshot()), t)
    {
      var p1X := PADDLE_MARGIN;
      if CheckPaddleCollision(ballX, ballY, p1X, paddle1Y) {
        if dx < 0.0 {
          ballX := p1X + PADDLE_WIDTH;
          dx := Abs(dx);
          Deflect(t);
        }
      }
    }

    /** The right paddle check of moveBall. */
    method HitRightPaddle(w: real, t: Turn)
      modifies this
      ensures Snapshot() == RightPaddle(old(Snapshot()), w, t)
    {
      var p2X := w - PADDLE_MARGIN - PADDLE_WIDTH;
      if CheckPaddleCollision(ballX, ballY, p2X, paddle2Y) {
        if dx > 0.0 {
          ballX := p2X - BALL_SIZE;
          dx := -Abs(dx);
          Deflect(t);
        }
      }
    }

    /** The scoring check of moveBall: a ball past an edge is a point for the other side. */
    method CheckScore(w: real, h: real, serve: Turn)
      modifies this
      ensures Snapshot() == Scoring(old(Snapshot()), w, h, serve)
    {
      if ballX <= -BALL_SIZE {
        SetScores(p1Score, p2Score + 1);
        currentSpeed := ballSpeed;
        var over := CheckGameOver();
        if !over {
          ResetBall(w, h, 1.0, serve);
        }
      } else if ballX >= w {
        SetScores(p1Score + 1, p2Score);
        currentSpeed := ballSpeed;
        var over := CheckGameOver();
        if !over {
          ResetBall(w, h, -1.0, serve);
        }
      }
    }

    method MoveBall(w: real, h: real, trig: Trig)
      modifies this
      ensures Snapshot() == Rules.MoveBall(old(Snapshot()), w, h, trig)
    {
      PlaceBall(ballX + dx, ballY + dy);
      BounceOffWalls(h);
      HitLeftPaddle(trig.left);
      HitRightPaddle(w, trig.right);
      CheckScore(w, h, trig.serve);
    }

    // ----------------------------------------------------------- paddles

    method MoveAI(h: real)
      modifies this
      ensures Snapshot() == Rules.MoveAI(old(Snapshot()), h)
    {
      var ballCenterY := ballY + BALL_SIZE / 2.0;
      if dx > 0.0 {
        aiTargetY := ballCenterY - PADDLE_HEIGHT / 2.0;
        var diff := aiTargetY - paddle2Y;
        paddle2Y := paddle2Y + (diff * aiReaction + Sign(diff) * Min(Abs(diff), aiSpeed));
      } else {
        var center := h / 2.0 - PADDLE_HEIGHT / 2.0;
        var diff := center - paddle2Y;
        paddle2Y := paddle2Y + diff * 0.02;
      }
    }

    /** Paddle 1's intermediate heights are kept in a local and written once, with the clamp. */
    method MovePaddles(h: real)
      modifies this
      ensures Snapshot() == Rules.MovePaddles(old(Snapshot()), h)
    {
      var speed := PADDLE_SPEED;
      var p1 := paddle1Y;
      if Held(keysDown, "w") || Held(keysDown, "W") { p1 := p1 - speed; }
      if Held(keysDown, "s") || Held(keysDown, "S") { p1 := p1 + speed; }
      assert p1 == paddle1Y + WsStep(keysDown);

      if mode == OnePlayer {
        if Held(keysDown, "ArrowUp") { p1 := p1 - speed; }
        if Held(keysDown, "ArrowDown") { p1 := p1 + speed; }
        assert p1 == paddle1Y + WsStep(keysDown) + ArrowStep(keysDown);
        MoveAI(h);
      }

      var p2 := paddle2Y;
      if mode == TwoPlayer {
        if Held(keysDown, "ArrowUp") { p2 := p2 - speed; }
        if Held(keysDown, "ArrowDown") { p2 := p2 + speed; }
        assert p2 == paddle2Y + ArrowStep(keysDown);
      }

      PlacePaddles(Clamp(p1, 0.0, h - PADDLE_HEIGHT), Clamp(p2, 0.0, h - PADDLE_HEIGHT));
    }

    // -------------------------------------------------------- game loop

    /** One animation frame on a table of the given size. */
    method GameLoop(w: real, h: real, trig: Trig)
      requires Valid() && trig.Valid()
      modifies this
      ensures Valid()
      ensures Snapshot() == Rules.GameLoop(old(Snapshot()), w, h, trig)
    {
      ghost var s0 := Snapshot();
      if !running || paused {
        return;
      }
      MovePaddles(h);
      MoveBall(w, h, trig);
      Properties.GameLoopPreservesConsistent(s0, w, h, trig);
    }

    // -------------------------------------------------------- lifecycle

    /** startGame, with the selections of the mode and difficulty toggles. */
    method StartGame(selectedMode: Mode, selectedDifficulty: Difficulty, w: real, h: real, serve: Turn)
      requires Valid() && serve.Valid()
      modifies this
      ensures Valid()
      ensures Snapshot() == Rules.StartGame(old(Snapshot()), selectedMode, selectedDifficulty, w, h, serve)
    {
      ghost var s0 := Snapshot();
      SetSettings(selectedMode, selectedDifficulty);
      ResetGame(w, h, serve);
      SetRunFlags(true, false);
      Properties.StartGameResets(s0, selectedMode, selectedDifficulty, w, h, serve);
    }

    method PauseGame()
      requires Valid()
      modifies this
      ensures Valid()
      ensures Snapshot() == Rules.PauseGame(old(Snapshot()))
    {
      if !running {
        return;
      }
      paused := true;
    }

    method ResumeGame()
      requires Valid()
      modifies this
      ensures Valid()
      ensures Snapshot() == Rules.ResumeGame(old(Snapshot()))
    {
      if !running {
        return;
      }
      paused := false;
    }

    method QuitToMenu()
      requires Valid()
      modifies this
      ensures Valid()
      ensures Snapshot() == Rules.QuitToMenu(old(Snapshot()))
    {
      SetRunFlags(false, false);
      LoadHighScore();
    }

    // ------------------------------------------------------------ input

    method KeyDown(key: string)
      requires Valid()
      modifies this
      ensures Valid()
      ensures Snapshot() == Rules.KeyDown(old(Snapshot()), key)
    {
      keysDown := keysDown[key := true];
      if key == "Escape" && running {
        if paused {
          ResumeGame();
        } else {
          PauseGame();
        }
      }
    }

    method KeyUp(key: string)
      requires Valid()
      modifies this
      ensures Valid()
      ensures Snapshot() == Rules.KeyUp(old(Snapshot()), key)
    {
      keysDown := keysDown[key := false];
    }

    /** The mousemove handler, given the pointer and the table's bounding rectangle and height. */
    method MouseMove(clientX: real, clientY: real, rectLeft: real, rectTop: real, rectWidth: real, h: real)
      requires Valid()
      modifies this
      ensures Valid()
      ensures Snapshot() == Rules.MouseMove(old(Snapshot()), clientX, clientY, rectLeft, rectTop, rectWidth, h)
    {
      if !running || paused {
        return;
      }
      if clientX > rectLeft + rectWidth * 0.6 {
        return;
      }
      var mouseY := clientY - rectTop - PADDLE_HEIGHT / 2.0;
      paddle1Y := Clamp(mouseY, 0.0, h - PADDLE_HEIGHT);
    }
  }
}
