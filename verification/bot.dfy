/** `Pong.bot_move`: the reactive controller of the right paddle. */
module Bot {
  import opened Arith
  import opened Constants
  import opened Entities

  /** Half-width of the band around the ball in which the bot keeps its
      current velocity (`BALL_SIZE * 3`). */
  const DeadZone: int := BallSize * 3

  /** The bot plays only when enabled and once the ball is in the right half. */
  predicate Active(st: State, bot: bool)
  {
    bot && st.ball.x >= MidLine
  }

  function BotMove(st: State, bot: bool): (r: State)
    // Only the right paddle's velocity can change.
    ensures r == st.(p2 := st.p2.(vy := r.p2.vy))
    ensures !Active(st, bot) ==> r == st
    // Outside the dead zone the paddle heads for the ball ...
    ensures Active(st, bot) && Abs(st.ball.y - (st.p2.y + HandleMid)) > DeadZone ==>
              r.p2.vy == (if st.ball.y > st.p2.y + HandleMid then HandleSpeed else -HandleSpeed)
    // ... and inside it the old velocity is kept, even a non-zero one.
    ensures Abs(st.ball.y - (st.p2.y + HandleMid)) <= DeadZone ==> r == st
  {
    if !bot || st.ball.x < MidLine then st
    else if st.p2.y + HandleMid > st.ball.y + DeadZone then
      st.(p2 := st.p2.(vy := -HandleSpeed))
    else if st.p2.y + HandleMid < st.ball.y - DeadZone then
      st.(p2 := st.p2.(vy := HandleSpeed))
    else st
  }

  /** Whatever its input, the bot leaves the right paddle moving at a legal speed
      if it was moving at one. */
  lemma BotKeepsSpeedLegal(st: State, bot: bool)
    requires st.p2.vy in {-HandleSpeed, 0, HandleSpeed}
    ensures BotMove(st, bot).p2.vy in {-HandleSpeed, 0, HandleSpeed}
  {}
}
