/** The game's state as typed records: the source keeps each entity in a
    dictionary (`{'x', 'y', 'vy'}` and `{'x', 'y', 'vx', 'vy'}`). */
module Entities {

  datatype Paddle = Paddle(x: int, y: int, vy: int)

  datatype Ball = Ball(x: int, y: int, vx: int, vy: int)

  /** `score[0]` belongs to the left player (p1), `score[1]` to the right (p2). */
  datatype Score = Score(p1: nat, p2: nat)

  datatype State = State(score: Score, paused: bool, p1: Paddle, p2: Paddle, ball: Ball)

  /** The sound cues the game plays, named by their key in `self.sound`. */
  datatype Cue = PausedCue | P1Cue | P2Cue | PointCue | QuitCue | WallCue

  /** The sign `random.choice((1, -1))` picks for one velocity component. */
  datatype Sign = Plus | Minus
  {
    function Value(): (v: int)
      ensures v == 1 || v == -1
      ensures v > 0 <==> Plus?
    {
      if Plus? then 1 else -1
    }
  }

  /** The two random signs one call to `restart` draws. */
  datatype Serve = Serve(sx: Sign, sy: Sign)

  /** One frame's keyboard snapshot: `btn` (held) for every key but P,
      which is read with `btnp` (just pressed). */
  datatype Keys = Keys(quit: bool, restart: bool, pause: bool,
                       up: bool, down: bool, w: bool, s: bool)

  /** Equal positions of paddles and ball: velocities, score and pause may differ. */
  predicate SamePositions(a: State, b: State)
  {
    && a.p1.x == b.p1.x && a.p1.y == b.p1.y
    && a.p2.x == b.p2.x && a.p2.y == b.p2.y
    && a.ball.x == b.ball.x && a.ball.y == b.ball.y
  }
}
