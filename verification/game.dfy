/** `Pong.update` as one pure frame function, the start-up state of
    `Pong.__init__`, the invariant every reachable state keeps, and runs of
    many frames. */
module Game {
  import opened Arith
  import opened Constants
  import opened Entities
  import opened Reset
  import opened Controls
  import opened Bot
  import opened Collisions
  import opened Motion

  datatype TickResult = TickResult(state: State, cues: seq<Cue>, quit: bool)

  /** One frame: key input, bot, ball interactions, then integration. After
      quit the rest of the frame runs as written; the run loop then stops. */
  function Tick(st: State, k: Keys, bot: bool, serve: Serve): (r: TickResult)
    ensures r.quit == k.quit
    // At most one side scores in a frame, and a point pauses the game.
    ensures ScoreStep(st.score, r.state.score)
    ensures r.state.score != st.score ==> r.state.paused && PointCue in r.cues
    // Paused to playing only through P or R; playing to paused only through P or a point.
    ensures st.paused && !r.state.paused ==> !k.quit && (k.pause || k.restart)
    ensures !st.paused && r.state.paused ==> (!k.quit && k.pause) || r.state.score != st.score
    // The frame that scores moves nothing.
    ensures r.state.score != st.score ==> SamePositions(r.state, st)
    // The left paddle is the player's: the bot never steers it.
    ensures !k.quit && !k.up && !k.down ==>
              r.state.p1.vy == (if k.restart then 0 else st.p1.vy)
    // A paused game without P or R keeps every position, the ball's velocity and the score.
    ensures st.paused && !k.pause && !k.restart ==>
              && SamePositions(r.state, st) && r.state.ball == st.ball
              && r.state.score == st.score && r.state.paused
  {
    var keys := KeyInput(st, k, bot, serve);
    var steered := BotMove(keys.state, bot);
    var inter := BallInteractions(steered);
    TickResult(Integrate(inter.state), keys.cues + inter.cues, keys.quit)
  }

  /** `Pong.__init__`: no points yet, then a restart. */
  function Init(serve: Serve): (r: State)
    ensures r.score == Score(0, 0) && !r.paused
    // Paddles and ball start where a restart puts them.
    ensures r == Restart(r, serve)
    ensures Valid(r)
  {
    Restart(State(Score(0, 0), false, Paddle(LeftPaddleX, 0, 0), Paddle(RightPaddleX, 0, 0),
                  Ball(BallStart, BallStart, 0, 0)), serve)
  }

  /** A paddle in its reachable set: on the 4-pixel grid inside the band,
      moving at the handle speed or standing still. */
  predicate PaddleOk(p: Paddle)
  {
    InBand(p.y) && p.y % HandleSpeed == 0 && p.vy in {-HandleSpeed, 0, HandleSpeed}
  }

  /** A ball in its reachable set: horizontal speed at most `BALL_SPEED`,
      vertical speed 2 or 3, on the board vertically, and never more than one
      step past a goal line. */
  predicate BallOk(b: Ball)
  {
    && -BallSpeed <= b.vx <= BallSpeed
    && b.vy in {-3, -2, 2, 3}
    && 0 < b.y < ScreenHeight
    && -BallSpeed < b.x - BallSize && b.x + BallSize < ScreenWidth + BallSpeed
  }

  /** The invariant of every state the game can reach. */
  predicate Valid(st: State)
  {
    && st.p1.x == LeftPaddleX && st.p2.x == RightPaddleX
    && PaddleOk(st.p1) && PaddleOk(st.p2)
    && BallOk(st.ball)
  }

  lemma RestartIsValid(st: State, serve: Serve)
    ensures Valid(Restart(st, serve))
  {}

  /** The ball part of the invariant survives interactions followed by
      integration. */
  lemma {:induction false} BallStaysOk(st: State)
    requires Valid(st)
    ensures BallOk(Integrate(BallInteractions(st).state).ball)
  {
    var inter := BallInteractions(st);
    var b := inter.state.ball;
    if LeftContact(st.p1, st.ball) {
      SpeedEffectBounded(st.ball.y, st.p1);
    }
    if RightContact(st.p2, st.ball) {
      SpeedEffectBounded(st.ball.y, st.p2);
    }
    ContactsExclusive(st.p1, st.p2, st.ball);
    assert -BallSpeed <= b.vx <= BallSpeed;
    assert b.vy in {-3, -2, 2, 3};
  }

  lemma {:induction false} TickPreservesValid(st: State, k: Keys, bot: bool, serve: Serve)
    requires Valid(st)
    ensures Valid(Tick(st, k, bot, serve).state)
  {
    var keys := KeyInput(st, k, bot, serve);
    if !k.quit && k.restart {
      RestartIsValid(st, serve);
    }
    assert Valid(keys.state);
    var steered := BotMove(keys.state, bot);
    assert Valid(steered);
    BallStaysOk(steered);
    var inter := BallInteractions(steered);
    MovePaddleKeepsGrid(inter.state.p1);
    MovePaddleKeepsGrid(inter.state.p2);
  }

  /** One frame of input: the key snapshot and the draws `restart` would use. */
  datatype Frame = Frame(keys: Keys, serve: Serve)

  /** Frames played one after another until they run out or quit is pressed;
      the cues of all frames, in order. */
  function Run(st: State, frames: seq<Frame>, bot: bool): (r: TickResult)
    decreases |frames|
    // Scores never go down, and a frame adds at most one point.
    ensures st.score.p1 <= r.state.score.p1 && st.score.p2 <= r.state.score.p2
    ensures r.state.score.p1 + r.state.score.p2 <= st.score.p1 + st.score.p2 + |frames|
    // The run ends with quit exactly when some frame holds Q.
    ensures r.quit <==> exists i :: 0 <= i < |frames| && frames[i].keys.quit
  {
    if |frames| == 0 then TickResult(st, [], false)
    else
      var t := Tick(st, frames[0].keys, bot, frames[0].serve);
      if t.quit then t
      else
        var rest := Run(t.state, frames[1..], bot);
        assert rest.quit <==> exists i :: 1 <= i < |frames| && frames[i].keys.quit by {
          if rest.quit {
            var j :| 0 <= j < |frames[1..]| && frames[1..][j].keys.quit;
            assert frames[j + 1].keys.quit;
          } else {
            forall i | 1 <= i < |frames|
              ensures !frames[i].keys.quit
            {
              assert frames[i] == frames[1..][i - 1];
            }
          }
        }
        TickResult(rest.state, t.cues + rest.cues, rest.quit)
  }

  /** Every state a run reaches from a valid state is valid; in particular
      paddles never leave the band, whatever keys are pressed. */
  lemma {:induction false} RunPreservesValid(st: State, frames: seq<Frame>, bot: bool)
    requires Valid(st)
    ensures Valid(Run(st, frames, bot).state)
    decreases |frames|
  {
    if |frames| > 0 {
      var t := Tick(st, frames[0].keys, bot, frames[0].serve);
      TickPreservesValid(st, frames[0].keys, bot, frames[0].serve);
      if !t.quit {
        RunPreservesValid(t.state, frames[1..], bot);
      }
    }
  }

  /** A point leaves the ball behind the goal line, so unpausing with P instead
      of restarting with R scores the same point again at once. */
  lemma UnpauseAfterPointScoresAgain(st: State, bot: bool, serve: Serve)
    requires st.paused && PastLeftGoal(st.ball)
    ensures var k := Keys(false, false, true, false, false, false, false);
            var r := Tick(st, k, bot, serve);
            && r.state.score == st.score.(p2 := st.score.p2 + 1)
            && r.state.paused
            && SamePositions(r.state, st)
            && |r.cues| >= 2 && r.cues[..2] == [PausedCue, PointCue]
  {
    var k := Keys(false, false, true, false, false, false, false);
    var keys := KeyInput(st, k, bot, serve);
    var steered := BotMove(keys.state, bot);
    assert steered.ball == st.ball && !steered.paused;
    var scored := ScorePoint(steered);
    assert scored.cues == [PointCue];
  }

  /** A ball touching the left goal line scores for the right player and
      freezes the board (ball and paddles at rest, no keys held). */
  lemma PointScenario(score: Score, bot: bool, serve: Serve)
    ensures var st := State(score, false, Paddle(LeftPaddleX, 128, 0), Paddle(RightPaddleX, 128, 0),
                            Ball(3, 128, -3, 2));
            var r := Tick(st, Keys(false, false, false, false, false, false, false), bot, serve);
            && r.state.score == score.(p2 := score.p2 + 1)
            && r.state.paused && r.state.ball == st.ball
            && r.cues == [PointCue]
  {}

  /** A hit on the left paddle's centre line leaves the ball moving straight
      up or down, in the paddle's column. */
  lemma CentreHitScenario(score: Score, serve: Serve)
    ensures var st := State(score, false, Paddle(LeftPaddleX, 108, 0), Paddle(RightPaddleX, 128, 0),
                            Ball(12, 133, -3, 2));
            var r := Tick(st, Keys(false, false, false, false, false, false, false), true, serve);
            && r.state.ball == Ball(12, 135, 0, 2)
            && r.cues == [P1Cue]
  {
    SpeedEffectZeroIffCentre(133, Paddle(LeftPaddleX, 108, 0));
  }

  /** With the ball high in the right half and the bot's paddle low, the bot
      moves its paddle up (negative vy), towards the ball. */
  lemma BotScenario(score: Score, serve: Serve)
    ensures var st := State(score, false, Paddle(LeftPaddleX, 128, 0), Paddle(RightPaddleX, 152, 0),
                            Ball(200, 50, 3, 2));
            var r := Tick(st, Keys(false, false, false, false, false, false, false), true, serve);
            r.state.p2 == Paddle(RightPaddleX, 148, -HandleSpeed)
  {}
}
