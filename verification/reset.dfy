/** The reset rule (`Pong.restart`). The two `random.choice` draws are the
    caller-supplied `Serve`. */
module Reset {
  import opened Arith
  import opened Constants
  import opened Entities

  /** One serve component, `choice((1, -1)) * BALL_SPEED // 2`: Python binds
      `*` and `//` left to right, so the value is `(±5) // 2`. */
  function ServeComponent(s: Sign): (v: int)
    ensures v == 2 || v == -3
    ensures v > 0 <==> s == Plus
  {
    FloorDiv(s.Value() * BallSpeed, 2)
  }

  function Restart(st: State, serve: Serve): (r: State)
    ensures r.score == st.score
    ensures !r.paused
    ensures r.p1 == Paddle(LeftPaddleX, ScreenHeight / 2, 0)
    ensures r.p2 == Paddle(RightPaddleX, ScreenHeight / 2, 0)
    ensures r.ball.x == BallStart && r.ball.y == BallStart
    ensures r.ball.vx in {2, -3} && (r.ball.vx > 0 <==> serve.sx == Plus)
    ensures r.ball.vy in {2, -3} && (r.ball.vy > 0 <==> serve.sy == Plus)
  {
    State(st.score, false,
          Paddle(LeftPaddleX, FloorDiv(ScreenHeight, 2), 0),
          Paddle(RightPaddleX, FloorDiv(ScreenHeight, 2), 0),
          Ball(BallStart, BallStart, ServeComponent(serve.sx), ServeComponent(serve.sy)))
  }

  /** The result depends on nothing in the old state but its score. */
  lemma RestartForgetsState(a: State, b: State, serve: Serve)
    requires a.score == b.score
    ensures Restart(a, serve) == Restart(b, serve)
  {}

  /** Restarting twice with the same draws is restarting once. */
  lemma RestartIdempotent(st: State, serve: Serve)
    ensures Restart(Restart(st, serve), serve) == Restart(st, serve)
  {}

  /** The serve is not symmetric: a negative draw gives speed 3, a positive one 2. */
  lemma ServeAsymmetric()
    ensures ServeComponent(Plus) == 2 && ServeComponent(Minus) == -3
  {}
}
