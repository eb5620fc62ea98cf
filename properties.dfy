/**
 * Properties of the game rules that relate several operations or hold over
 * whole frames and whole sessions of events.
 */
module Properties {
  import opened Geometry
  import opened Rules

  // ------------------------------------------------------------ key routing

  /** In two-player mode the arrow keys cannot move paddle 1: only W/S decide it. */
  lemma TwoPlayerPaddle1IgnoresArrows(s: State, h: real, keys: map<string, bool>)
    requires s.mode == TwoPlayer
    requires forall k :: k in {"w", "W", "s", "S"} ==> Held(keys, k) == Held(s.keysDown, k)
    ensures MovePaddles(s.(keysDown := keys), h).paddle1Y == MovePaddles(s, h).paddle1Y
  {
    // Proof sketch for the reader: the verifier also finds this proof unaided.
    assert WsStep(keys) == WsStep(s.keysDown) by {
      assert Held(keys, "w") == Held(s.keysDown, "w") && Held(keys, "W") == Held(s.keysDown, "W");
      assert Held(keys, "s") == Held(s.keysDown, "s") && Held(keys, "S") == Held(s.keysDown, "S");
    }
  }

  /** In two-player mode W/S cannot move paddle 2: only the arrow keys decide it. */
  lemma TwoPlayerPaddle2IgnoresWs(s: State, h: real, keys: map<string, bool>)
    requires s.mode == TwoPlayer
    requires Held(keys, "ArrowUp") == Held(s.keysDown, "ArrowUp")
    requires Held(keys, "ArrowDown") == Held(s.keysDown, "ArrowDown")
    ensures MovePaddles(s.(keysDown := keys), h).paddle2Y == MovePaddles(s, h).paddle2Y
  {
  }

  /** In one-player mode no key moves paddle 2: it follows the AI only. */
  lemma OnePlayerPaddle2IgnoresKeys(s: State, h: real, keys: map<string, bool>)
    requires s.mode == OnePlayer
    ensures MovePaddles(s.(keysDown := keys), h).paddle2Y == MovePaddles(s, h).paddle2Y
    ensures MovePaddles(s, h).paddle2Y ==
            Clamp(AiStep(s.ballY, s.dx, s.paddle2Y, s.aiSpeed, s.aiReaction, h), 0.0, h - PADDLE_HEIGHT)
  {
  }

  /**
   * A lone W, w, S or s moves paddle 1 by 6 (up for W/w, down for S/s) in both
   * modes; in two-player mode paddle 2 then keeps its height.
   */
  lemma WsKeyRouting(s: State, h: real, k: string)
    requires k == "w" || k == "W" || k == "s" || k == "S"
    requires s.keysDown == map[k := true]
    ensures var step := if k == "w" || k == "W" then -PADDLE_SPEED else PADDLE_SPEED;
            MovePaddles(s, h).paddle1Y == Clamp(s.paddle1Y + step, 0.0, h - PADDLE_HEIGHT)
    ensures s.mode == TwoPlayer ==>
              MovePaddles(s, h).paddle2Y == Clamp(s.paddle2Y, 0.0, h - PADDLE_HEIGHT)
  {
    assert !Held(s.keysDown, "ArrowUp") && !Held(s.keysDown, "ArrowDown");
  }

  /**
   * A lone ArrowUp or ArrowDown moves paddle 1 by 6 in one-player mode, and
   * paddle 2 by 6 in two-player mode, leaving paddle 1 alone there.
   */
  lemma ArrowKeyRouting(s: State, h: real, k: string)
    requires k == "ArrowUp" || k == "ArrowDown"
    requires s.keysDown == map[k := true]
    ensures var step := if k == "ArrowUp" then -PADDLE_SPEED else PADDLE_SPEED;
            s.mode == OnePlayer ==>
              MovePaddles(s, h).paddle1Y == Clamp(s.paddle1Y + step, 0.0, h - PADDLE_HEIGHT)
    ensures var step := if k == "ArrowUp" then -PADDLE_SPEED else PADDLE_SPEED;
            s.mode == TwoPlayer ==>
              MovePaddles(s, h).paddle1Y == Clamp(s.paddle1Y, 0.0, h - PADDLE_HEIGHT) &&
              MovePaddles(s, h).paddle2Y == Clamp(s.paddle2Y + step, 0.0, h - PADDLE_HEIGHT)
  {
    assert !Held(s.keysDown, "w") && !Held(s.keysDown, "W");
    assert !Held(s.keysDown, "s") && !Held(s.keysDown, "S");
  }

  /** Opposite keys held together cancel before the clamp. */
  lemma OppositeKeysCancel(s: State, h: real)
    requires Held(s.keysDown, "w") && Held(s.keysDown, "s")
    requires Held(s.keysDown, "ArrowUp") && Held(s.keysDown, "ArrowDown")
    ensures MovePaddles(s, h).paddle1Y == Clamp(s.paddle1Y, 0.0, h - PADDLE_HEIGHT)
    ensures s.mode == TwoPlayer ==> MovePaddles(s, h).paddle2Y == Clamp(s.paddle2Y, 0.0, h - PADDLE_HEIGHT)
  {
  }

  // --------------------------------------------------------------------- AI

  /**
   * While the ball approaches, the AI never moves away from its target; while
   * the ball recedes, the AI drifts toward the centre without passing it.
   */
  lemma AiNeverMovesAway(ballY: real, dx: real, paddle2Y: real, aiSpeed: real, aiReaction: real, h: real)
    requires aiReaction >= 0.0 && aiSpeed >= 0.0
    ensures var target := AiTarget(ballY);
            var y := AiStep(ballY, dx, paddle2Y, aiSpeed, aiReaction, h);
            dx > 0.0 ==>
              (target > paddle2Y ==> y >= paddle2Y) &&
              (target < paddle2Y ==> y <= paddle2Y) &&
              (target == paddle2Y ==> y == paddle2Y)
    ensures var center := h / 2.0 - PADDLE_HEIGHT / 2.0;
            var y := AiStep(ballY, dx, paddle2Y, aiSpeed, aiReaction, h);
            dx <= 0.0 ==>
              (paddle2Y <= center ==> paddle2Y <= y <= center) &&
              (paddle2Y >= center ==> center <= y <= paddle2Y)
  {
    if dx > 0.0 {
      var diff := AiTarget(ballY) - paddle2Y;
      var step := Min(Abs(diff), aiSpeed);
      assert step >= 0.0;
      assert AiStep(ballY, dx, paddle2Y, aiSpeed, aiReaction, h) ==
             paddle2Y + (diff * aiReaction + Sign(diff) * step);
      if diff > 0.0 {
        assert Sign(diff) == 1.0;
        assert diff * aiReaction >= 0.0;
      } else if diff < 0.0 {
        assert Sign(diff) == -1.0;
        assert diff * aiReaction == -((-diff) * aiReaction);
        assert (-diff) * aiReaction >= 0.0;
      }
    }
  }

  /** Tracking is not overshoot-free: on the hard preset the AI jumps past its target. */
  lemma AiOvershootsOnHard()
    ensures var s := Initial(0).(dx := 1.0, ballY := 42.0, paddle2Y := 0.0,
                                 aiSpeed := PresetOf(Hard).aiSpeed, aiReaction := PresetOf(Hard).aiReaction);
            MoveAI(s, 400.0).aiTargetY == 10.0 && MoveAI(s, 400.0).paddle2Y == 20.0
  {
  }

  /**
   * Near its target the AI overshoots on every preset: while the ball
   * approaches and the paddle is within aiSpeed of the target, the reaction
   * share and the capped step together carry it past the target.
   */
  lemma AiOvershootsNearTarget(ballY: real, dx: real, paddle2Y: real, aiSpeed: real, aiReaction: real, h: real)
    requires dx > 0.0 && aiReaction > 0.0
    ensures var target := AiTarget(ballY);
            var y := AiStep(ballY, dx, paddle2Y, aiSpeed, aiReaction, h);
            (paddle2Y < target <= paddle2Y + aiSpeed ==> y > target) &&
            (paddle2Y - aiSpeed <= target < paddle2Y ==> y < target)
  {
    var diff := AiTarget(ballY) - paddle2Y;
    if diff > 0.0 && diff <= aiSpeed {
      assert Sign(diff) * Min(Abs(diff), aiSpeed) == diff;
      assert diff * aiReaction > 0.0;
    } else if diff < 0.0 && -diff <= aiSpeed {
      assert Sign(diff) * Min(Abs(diff), aiSpeed) == diff;
      assert (-diff) * aiReaction > 0.0;
    }
  }

  /** On easy, a paddle 4 pixels short of its target ends 2 pixels past it. */
  lemma AiOvershootsOnEasy()
    ensures var s := Initial(0).(dx := 1.0, ballY := 40.0, paddle2Y := 4.0,
                                 aiSpeed := PresetOf(Easy).aiSpeed, aiReaction := PresetOf(Easy).aiReaction);
            MoveAI(s, 400.0).aiTargetY == 8.0 && MoveAI(s, 400.0).paddle2Y == 10.0
  {
  }

  // ------------------------------------------------------------------ ball

  /**
   * Scoring in one moveBall: p2Score goes up by one exactly when the ball ends
   * its paddle phase at or beyond the left edge, p1Score by one exactly when it
   * ends at or beyond the right edge instead; a point resets currentSpeed to
   * ballSpeed, and with no point nothing else changes.
   */
  lemma MoveBallScoring(s: State, w: real, h: real, trig: Trig)
    ensures var b := AfterPaddles(s, w, h, trig);
            var r := MoveBall(s, w, h, trig);
            r.p2Score == s.p2Score + (if b.ballX <= -BALL_SIZE then 1 else 0) &&
            r.p1Score == s.p1Score + (if -BALL_SIZE < b.ballX && w <= b.ballX then 1 else 0) &&
            (b.ballX <= -BALL_SIZE || w <= b.ballX ==> r.currentSpeed == s.ballSpeed) &&
            (-BALL_SIZE < b.ballX < w ==> r == b)
    ensures MoveBall(s, w, h, trig).p1Score + MoveBall(s, w, h, trig).p2Score <= s.p1Score + s.p2Score + 1
  {
    // Proof sketch for the reader: the verifier also finds this proof unaided.
    var b := AfterPaddles(s, w, h, trig);
    if b.ballX <= -BALL_SIZE {
      var t := b.(p2Score := b.p2Score + 1, currentSpeed := b.ballSpeed);
      assert GameOver(t) ==> AfterPoint(t, w, h, 1.0, trig.serve) == EndMatch(t);
    } else if b.ballX >= w {
      var t := b.(p1Score := b.p1Score + 1, currentSpeed := b.ballSpeed);
      assert GameOver(t) ==> AfterPoint(t, w, h, -1.0, trig.serve) == EndMatch(t);
    }
  }

  /**
   * After a point that does not end the match the ball is served from the
   * centre toward the side that scored, with a fresh rally.
   */
  lemma ServeTowardScorer(s: State, w: real, h: real, trig: Trig)
    requires trig.serve.Valid() && s.ballSpeed > 0.0
    ensures var b := AfterPaddles(s, w, h, trig);
            var r := MoveBall(s, w, h, trig);
            (b.ballX <= -BALL_SIZE || w <= b.ballX) && !GameOver(r) ==>
              r.ballX == w / 2.0 - BALL_SIZE / 2.0 && r.ballY == h / 2.0 - BALL_SIZE / 2.0 &&
              r.rallyCount == 0 &&
              (b.ballX <= -BALL_SIZE ==> r.dx > 0.0) &&
              (-BALL_SIZE < b.ballX ==> r.dx < 0.0)
  {
  }

  // ------------------------------------------------------- frames and match

  /** A point keeps the record consistent: the match stops as soon as a score reaches 7. */
  lemma ScoringPreservesConsistent(b: State, w: real, h: real, serve: Turn)
    requires Consistent(b) && b.running && !b.paused && serve.Valid()
    ensures Consistent(Scoring(b, w, h, serve))
    ensures Scoring(b, w, h, serve).highScore >= b.highScore
  {
    // Proof sketch for the reader: the verifier also finds this proof unaided.
    if b.ballX <= -BALL_SIZE {
      var t := b.(p2Score := b.p2Score + 1, currentSpeed := b.ballSpeed);
      if GameOver(t) {
        assert t.p2Score == WIN_SCORE && t.p1Score < WIN_SCORE;
        assert Consistent(EndMatch(t));
      } else {
        assert Consistent(ResetBall(t, w, h, 1.0, serve));
      }
    } else if b.ballX >= w {
      var t := b.(p1Score := b.p1Score + 1, currentSpeed := b.ballSpeed);
      if GameOver(t) {
        assert t.p1Score == WIN_SCORE && t.p2Score < WIN_SCORE;
        assert Consistent(EndMatch(t));
      } else {
        assert Consistent(ResetBall(t, w, h, -1.0, serve));
      }
    }
  }

  /** A frame keeps the record consistent: in particular both scores stay below 7 while running. */
  lemma GameLoopPreservesConsistent(s: State, w: real, h: real, trig: Trig)
    requires Consistent(s) && trig.Valid()
    ensures Consistent(GameLoop(s, w, h, trig))
    ensures GameLoop(s, w, h, trig).highScore >= s.highScore
  {
    if s.running && !s.paused {
      var m := MovePaddles(s, h);
      assert Consistent(m);
      var b := AfterPaddles(m, w, h, trig);
      assert Consistent(b);
      ScoringPreservesConsistent(b, w, h, trig.serve);
    }
  }

  /**
   * A running frame ends the match exactly when a score reaches 7; the finished
   * match has 7 as its top score, names the right winner and records 7 as the
   * high score if it was lower. A frame that does not end the match keeps the
   * high score.
   */
  lemma MatchEndsAtSeven(s: State, w: real, h: real, trig: Trig)
    requires Consistent(s) && s.running && !s.paused && trig.Valid()
    ensures var r := GameLoop(s, w, h, trig);
            (r.running <==> r.p1Score < WIN_SCORE && r.p2Score < WIN_SCORE) &&
            (r.running ==> r.highScore == s.highScore) &&
            (!r.running ==>
               IntMax(r.p1Score, r.p2Score) == WIN_SCORE &&
               (r.winner == "PLAYER 1" <==> r.p1Score == WIN_SCORE) &&
               (r.p2Score == WIN_SCORE ==> r.winner == (if s.mode == OnePlayer then "CPU" else "PLAYER 2")) &&
               r.highScore == IntMax(s.highScore, WIN_SCORE))
  {
    // Proof sketch for the reader: the verifier also finds this proof unaided.
    var m := MovePaddles(s, h);
    var b := AfterPaddles(m, w, h, trig);
    MoveBallScoring(m, w, h, trig);
    if b.ballX <= -BALL_SIZE {
      var t := b.(p2Score := b.p2Score + 1, currentSpeed := b.ballSpeed);
      if GameOver(t) {
        assert t.p2Score == WIN_SCORE && t.p1Score < WIN_SCORE;
      }
    } else if b.ballX >= w {
      var t := b.(p1Score := b.p1Score + 1, currentSpeed := b.ballSpeed);
      if GameOver(t) {
        assert t.p1Score == WIN_SCORE && t.p2Score < WIN_SCORE;
      }
    }
  }

  /** Both paddles are on the table after every running frame: moveBall never moves a paddle. */
  lemma FrameKeepsPaddlesOnTable(s: State, w: real, h: real, trig: Trig)
    requires s.running && !s.paused && h >= PADDLE_HEIGHT
    ensures 0.0 <= GameLoop(s, w, h, trig).paddle1Y <= h - PADDLE_HEIGHT
    ensures 0.0 <= GameLoop(s, w, h, trig).paddle2Y <= h - PADDLE_HEIGHT
  {
    var m := MovePaddles(s, h);
    var b := AfterPaddles(m, w, h, trig);
    assert b.paddle1Y == m.paddle1Y && b.paddle2Y == m.paddle2Y;
  }

  // -------------------------------------------------------------- lifecycle

  /** No frame does anything while the match is stopped or paused. */
  lemma StoppedOrPausedFrameIsNoOp(s: State, w: real, h: real, trig: Trig)
    requires !s.running || s.paused
    ensures GameLoop(s, w, h, trig) == s
  {
  }

  /** Pause and resume do nothing when no match runs. */
  lemma PauseResumeNeedRunning(s: State)
    requires !s.running
    ensures PauseGame(s) == s && ResumeGame(s) == s
  {
  }

  /** Pausing a running match and resuming it restores the record, and frames in between change nothing. */
  lemma PauseResumeRoundTrip(s: State, w: real, h: real, trig: Trig)
    requires s.running && !s.paused
    ensures GameLoop(PauseGame(s), w, h, trig) == PauseGame(s)
    ensures ResumeGame(PauseGame(s)) == s
  {
  }

  /** Escape flips paused exactly when a match runs; otherwise it only marks the key held. */
  lemma EscapeTogglesPause(s: State)
    ensures var r := KeyDown(s, "Escape");
            r == s.(keysDown := s.keysDown["Escape" := true], paused := r.paused) &&
            r.paused == (if s.running then !s.paused else s.paused)
    ensures KeyDown(KeyDown(s, "Escape"), "Escape").paused == s.paused
  {
  }

  /** A key press other than Escape only marks the key held. */
  lemma PlainKeyDown(s: State, key: string)
    requires key != "Escape"
    ensures KeyDown(s, key) == s.(keysDown := s.keysDown[key := true])
    ensures Held(KeyDown(s, key).keysDown, key)
  {
  }

  /** The mouse handler has no mode test: it drives paddle 1 in two-player mode too. */
  lemma MouseInTwoPlayer(s: State, clientX: real, clientY: real,
                         rectLeft: real, rectTop: real, rectWidth: real, h: real)
    requires s.mode == TwoPlayer && s.running && !s.paused
    requires clientX <= rectLeft + rectWidth * 0.6
    ensures MouseMove(s, clientX, clientY, rectLeft, rectTop, rectWidth, h).paddle1Y ==
            Clamp(clientY - rectTop - PADDLE_HEIGHT / 2.0, 0.0, h - PADDLE_HEIGHT)
  {
  }

  /** Releasing a key marks exactly that key not held. */
  lemma KeyUpReleases(s: State, key: string, other: string)
    requires other != key
    ensures !Held(KeyUp(s, key).keysDown, key)
    ensures Held(KeyUp(s, key).keysDown, other) == Held(s.keysDown, other)
  {
  }

  /**
   * Starting a match resets it: scores, rally and held keys cleared, the selected
   * preset loaded, paddles centred, the ball served rightward at the preset
   * speed, play running and not paused; the high score is kept.
   */
  lemma StartGameResets(s: State, mode: Mode, d: Difficulty, w: real, h: real, serve: Turn)
    requires Consistent(s) && serve.Valid()
    ensures var r := StartGame(s, mode, d, w, h, serve);
            Consistent(r) && r.running && !r.paused &&
            r.mode == mode && r.difficulty == d &&
            r.p1Score == 0 && r.p2Score == 0 && r.rallyCount == 0 && r.keysDown == map[] &&
            r.ballSpeed == PresetOf(d).ballSpeed && r.currentSpeed == PresetOf(d).ballSpeed &&
            r.aiSpeed == PresetOf(d).aiSpeed && r.aiReaction == PresetOf(d).aiReaction &&
            r.paddle1Y == r.paddle2Y == h / 2.0 - PADDLE_HEIGHT / 2.0 &&
            r.dx > 0.0 && r.highScore == s.highScore
  {
  }

  /** Quitting stops play and, storage being in step, keeps the high score. */
  lemma QuitKeepsHighScore(s: State)
    requires Consistent(s)
    ensures var r := QuitToMenu(s);
            Consistent(r) && !r.running && !r.paused && r.highScore == s.highScore
  {
  }

  // -------------------------------------------------------------- sessions

  /** Every event keeps the record consistent and never lowers the high score. */
  lemma ApplyPreservesConsistent(s: State, e: Event)
    requires Consistent(s) && e.Valid()
    ensures Consistent(Apply(s, e))
    ensures Apply(s, e).highScore >= s.highScore
  {
    match e
    case Frame(w, h, trig) => GameLoopPreservesConsistent(s, w, h, trig);
    case Start(mode, d, w, h, serve) => StartGameResets(s, mode, d, w, h, serve);
    case Quit => QuitKeepsHighScore(s);
    case _ =>
  }

  /**
   * Over any session of events: the record stays consistent (both scores below
   * 7 while a match runs, the game never paused outside play, the speed equal to
   * the velocity's length) and the high score never decreases.
   */
  lemma {:induction false} SessionInvariant(s: State, events: seq<Event>)
    requires Consistent(s)
    requires forall i :: 0 <= i < |events| ==> events[i].Valid()
    ensures Consistent(Run(s, events))
    ensures Run(s, events).highScore >= s.highScore
    decreases |events|
  {
    if events != [] {
      ApplyPreservesConsistent(s, events[0]);
      SessionInvariant(Apply(s, events[0]), events[1..]);
    }
  }

  // -------------------------------------------------------------- scenarios

  /** A ball in mid-table moving (5, 0) just moves 5 to the right. */
  lemma StraightFlight()
    ensures var s := Initial(0).(running := true, ballX := 400.0, ballY := 200.0,
                                 dx := 5.0, dy := 0.0, currentSpeed := 5.0);
            var trig := Trig(Turn(1.0, 0.0), Turn(1.0, 0.0), Turn(1.0, 0.0));
            MoveBall(s, 800.0, 400.0, trig) == s.(ballX := 405.0)
  {
  }

  /** Player 1 at 6-3 scores past the right edge: the match ends 7-3 for PLAYER 1 and the high score becomes 7. */
  lemma PlayerOneWinsSevenThree()
    ensures var s := Initial(5).(running := true, p1Score := 6, p2Score := 3,
                                 ballX := 795.0, ballY := 200.0, dx := 10.0, dy := 0.0,
                                 currentSpeed := 10.0, paddle2Y := 0.0);
            var trig := Trig(Turn(1.0, 0.0), Turn(1.0, 0.0), Turn(1.0, 0.0));
            var r := MoveBall(s, 800.0, 400.0, trig);
            !r.running && r.p1Score == 7 && r.p2Score == 3 && r.winner == "PLAYER 1" &&
            r.highScore == 7 && r.storedHighScore == 7
  {
  }
}
