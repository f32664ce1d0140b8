/** The integration step at the end of `Pong.update`: paddles move only when
    the move keeps them inside the board, the ball always moves. */
module Motion {
  import opened Constants
  import opened Entities

  /** The open band a paddle's y must stay in, `0 < y < width - HANDLE_HEIGHT`. */
  predicate InBand(y: int)
  {
    0 < y < PaddleLimit
  }

  function MovePaddle(p: Paddle): (r: Paddle)
    ensures r.x == p.x && r.vy == p.vy
    // The move is checked before it is applied, never clamped afterwards.
    ensures InBand(p.y + p.vy) ==> r.y == p.y + p.vy
    ensures !InBand(p.y + p.vy) ==> r == p
    ensures InBand(p.y) ==> InBand(r.y)
  {
    if InBand(p.vy + p.y) then p.(y := p.y + p.vy) else p
  }

  function Integrate(st: State): (r: State)
    ensures st.paused ==> r == st
    ensures r.score == st.score && r.paused == st.paused
    ensures r.p1.vy == st.p1.vy && r.p2.vy == st.p2.vy
    ensures r.p1.x == st.p1.x && r.p2.x == st.p2.x
    ensures InBand(st.p1.y) && InBand(st.p2.y) ==> InBand(r.p1.y) && InBand(r.p2.y)
    // Each paddle follows the checked-move rule.
    ensures !st.paused ==> r.p1 == MovePaddle(st.p1) && r.p2 == MovePaddle(st.p2)
    // An unpaused ball always advances by exactly its velocity.
    ensures !st.paused ==>
              r.ball == st.ball.(x := st.ball.x + st.ball.vx, y := st.ball.y + st.ball.vy)
  {
    if st.paused then st
    else
      st.(p1 := MovePaddle(st.p1), p2 := MovePaddle(st.p2),
          ball := st.ball.(x := st.ball.x + st.ball.vx, y := st.ball.y + st.ball.vy))
  }

  /** A paddle that starts on the 4-pixel grid and moves at the handle speed
      stays on the grid, so its y is always one of 4, 8, ..., 204. */
  lemma MovePaddleKeepsGrid(p: Paddle)
    requires p.y % HandleSpeed == 0 && p.vy in {-HandleSpeed, 0, HandleSpeed}
    requires InBand(p.y)
    ensures var r := MovePaddle(p);
            r.y % HandleSpeed == 0 && HandleSpeed <= r.y <= PaddleLimit - 2
  {}
}
