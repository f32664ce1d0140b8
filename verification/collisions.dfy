/** `Pong.handle_ball_interactions` and `Pong.ball_speed_player_effect`:
    scoring, wall bounce and paddle contact for one frame. */
module Collisions {
  import opened Arith
  import opened Constants
  import opened Entities

  /** A state together with the cues played while producing it, in order. */
  datatype Step = Step(state: State, cues: seq<Cue>)

  /** Signed distance of the ball from the paddle's centre line. */
  function Offset(ballY: int, p: Paddle): int
  {
    ballY - (p.y + HandleMid)
  }

  /** `math.ceil(BALL_SPEED * abs(offset) / handle_mid)`: the horizontal speed
      a paddle gives the ball, 0 for a centre hit. Computed on exact
      rationals; see the README for why Python's floats give the same value. */
  function SpeedEffect(ballY: int, p: Paddle): (r: nat)
    ensures HandleMid * (r - 1) < BallSpeed * Abs(Offset(ballY, p)) <= HandleMid * r
  {
    CeilDiv(BallSpeed * Abs(Offset(ballY, p)), HandleMid)
  }

  /** The ball's y lies strictly between the paddle's top and bottom. */
  predicate SpansY(p: Paddle, ballY: int)
  {
    p.y < ballY < p.y + HandleHeight
  }

  /** The ball's left edge is strictly inside the left paddle's thickness. */
  predicate LeftContact(p: Paddle, b: Ball)
  {
    SpansY(p, b.y) && p.x < b.x - BallSize < p.x + HandleWidth
  }

  /** The ball's right edge is strictly inside the right paddle's thickness. */
  predicate RightContact(p: Paddle, b: Ball)
  {
    SpansY(p, b.y) && p.x < b.x + BallSize < p.x + HandleWidth
  }

  predicate PastLeftGoal(b: Ball) { b.x - BallSize <= 0 }
  predicate PastRightGoal(b: Ball) { b.x + BallSize >= ScreenWidth }
  predicate AtCeiling(b: Ball) { b.y - BallSize <= 0 }
  predicate AtFloor(b: Ball) { b.y + BallSize >= ScreenHeight }

  /** At most one score component goes up, and by exactly one. */
  predicate ScoreStep(a: Score, b: Score)
  {
    b == a || b == a.(p1 := a.p1 + 1) || b == a.(p2 := a.p2 + 1)
  }

  /** Scoring: a ball touching the left goal line gives the right player a
      point; only otherwise is the right goal line checked. Either pauses. */
  function ScorePoint(st: State): (r: Step)
    ensures r.state == st.(score := r.state.score, paused := r.state.paused)
    ensures PastLeftGoal(st.ball) ==>
              r.state.score == st.score.(p2 := st.score.p2 + 1) && r.state.paused
    ensures !PastLeftGoal(st.ball) && PastRightGoal(st.ball) ==>
              r.state.score == st.score.(p1 := st.score.p1 + 1) && r.state.paused
    ensures !PastLeftGoal(st.ball) && !PastRightGoal(st.ball) ==> r == Step(st, [])
    ensures r.cues == [] || r.cues == [PointCue]
  {
    if PastLeftGoal(st.ball) then
      Step(st.(paused := true, score := st.score.(p2 := st.score.p2 + 1)), [PointCue])
    else if PastRightGoal(st.ball) then
      Step(st.(paused := true, score := st.score.(p1 := st.score.p1 + 1)), [PointCue])
    else Step(st, [])
  }

  /** The cues paired with a ball, for the sub-steps that only touch the ball. */
  datatype BallStep = BallStep(ball: Ball, cues: seq<Cue>)

  /** Floor and ceiling: the ceiling check makes `vy` non-negative, then the
      floor check makes it non-positive. */
  function WallBounce(b: Ball): (r: BallStep)
    ensures r.ball == b.(vy := r.ball.vy)
    ensures Abs(r.ball.vy) == Abs(b.vy)
    ensures AtCeiling(b) && !AtFloor(b) ==> r.ball.vy >= 0
    ensures AtFloor(b) ==> r.ball.vy <= 0
    ensures !AtCeiling(b) && !AtFloor(b) ==> r == BallStep(b, [])
    ensures forall c :: c in r.cues ==> c == WallCue
    ensures |r.cues| == (if AtCeiling(b) then 1 else 0) + (if AtFloor(b) then 1 else 0)
  {
    var top := if AtCeiling(b) then BallStep(b.(vy := Abs(b.vy)), [WallCue]) else BallStep(b, []);
    if AtFloor(b) then BallStep(top.ball.(vy := -1 * Abs(top.ball.vy)), top.cues + [WallCue])
    else top
  }

  /** Paddle contact: the left paddle sends the ball right, the right paddle
      sends it left; the right check runs last. */
  function PaddleBounce(p1: Paddle, p2: Paddle, b: Ball): (r: BallStep)
    ensures r.ball == b.(vx := r.ball.vx)
    ensures LeftContact(p1, b) && !RightContact(p2, b) ==>
              r.ball.vx == SpeedEffect(b.y, p1) && r.cues == [P1Cue]
    ensures RightContact(p2, b) ==> r.ball.vx == -1 * SpeedEffect(b.y, p2)
    ensures !LeftContact(p1, b) && !RightContact(p2, b) ==> r == BallStep(b, [])
    ensures P1Cue in r.cues <==> LeftContact(p1, b)
    ensures P2Cue in r.cues <==> RightContact(p2, b)
  {
    var left := if LeftContact(p1, b) then BallStep(b.(vx := SpeedEffect(b.y, p1)), [P1Cue])
                else BallStep(b, []);
    if RightContact(p2, b) then
      BallStep(left.ball.(vx := -1 * SpeedEffect(b.y, p2)), left.cues + [P2Cue])
    else left
  }

  function BallInteractions(st: State): (r: Step)
    // A paused game is left exactly as it is.
    ensures st.paused ==> r == Step(st, [])
    // Only the ball's velocity, the score and the pause flag can change.
    ensures r.state.p1 == st.p1 && r.state.p2 == st.p2
    ensures r.state.ball.x == st.ball.x && r.state.ball.y == st.ball.y
    ensures ScoreStep(st.score, r.state.score)
    ensures r.state.score != st.score <==> !st.paused && (PastLeftGoal(st.ball) || PastRightGoal(st.ball))
    ensures r.state.score != st.score ==> r.state.paused
    ensures r.state.paused != st.paused ==> r.state.score != st.score
    ensures !st.paused && PastLeftGoal(st.ball) ==> r.state.score.p2 == st.score.p2 + 1
    ensures !st.paused && !PastLeftGoal(st.ball) && PastRightGoal(st.ball) ==>
              r.state.score.p1 == st.score.p1 + 1
    // Walls change the sign of vy but never its size.
    ensures Abs(r.state.ball.vy) == Abs(st.ball.vy)
    ensures !st.paused && AtCeiling(st.ball) && !AtFloor(st.ball) ==> r.state.ball.vy >= 0
    ensures !st.paused && AtFloor(st.ball) ==> r.state.ball.vy <= 0
    ensures !AtCeiling(st.ball) && !AtFloor(st.ball) ==> r.state.ball.vy == st.ball.vy
    // Paddles set vx away from themselves, or leave it alone.
    ensures !st.paused && LeftContact(st.p1, st.ball) && !RightContact(st.p2, st.ball) ==>
              r.state.ball.vx == SpeedEffect(st.ball.y, st.p1) >= 0
    ensures !st.paused && RightContact(st.p2, st.ball) ==>
              r.state.ball.vx == -1 * SpeedEffect(st.ball.y, st.p2) <= 0
    ensures !LeftContact(st.p1, st.ball) && !RightContact(st.p2, st.ball) ==>
              r.state.ball.vx == st.ball.vx
  {
    if st.paused then Step(st, [])
    else
      var scored := ScorePoint(st);
      var walls := WallBounce(st.ball);
      var hit := PaddleBounce(st.p1, st.p2, walls.ball);
      Step(scored.state.(ball := hit.ball), scored.cues + walls.cues + hit.cues)
  }

  /** A cue is played for each event of the frame, and only then. */
  lemma InteractionCues(st: State)
    ensures var r := BallInteractions(st);
            && (PointCue in r.cues <==> r.state.score != st.score)
            && (WallCue in r.cues <==> !st.paused && (AtCeiling(st.ball) || AtFloor(st.ball)))
            && (P1Cue in r.cues <==> !st.paused && LeftContact(st.p1, st.ball))
            && (P2Cue in r.cues <==> !st.paused && RightContact(st.p2, st.ball))
            && PausedCue !in r.cues && QuitCue !in r.cues
  {
    if !st.paused {
      var scored := ScorePoint(st);
      var walls := WallBounce(st.ball);
      var hit := PaddleBounce(st.p1, st.p2, walls.ball);
      var cues := scored.cues + walls.cues + hit.cues;
      assert forall c :: c in cues <==> c in scored.cues || c in walls.cues || c in hit.cues;
    }
  }

  /** With the paddles at their fixed columns, the two contact bands are far
      apart, so one frame never touches both paddles. */
  lemma ContactsExclusive(p1: Paddle, p2: Paddle, b: Ball)
    requires p1.x == LeftPaddleX && p2.x == RightPaddleX
    ensures !(LeftContact(p1, b) && RightContact(p2, b))
  {}

  /** A paddle contact never coincides with a point: the contact bands lie
      strictly inside the goal lines. */
  lemma ContactIsNotPoint(p1: Paddle, p2: Paddle, b: Ball)
    requires p1.x == LeftPaddleX && p2.x == RightPaddleX
    requires LeftContact(p1, b) || RightContact(p2, b)
    ensures !PastLeftGoal(b) && !PastRightGoal(b)
  {}

  /** The speed effect as `ceil(|offset| / 5)`. */
  lemma SpeedEffectIsFifth(ballY: int, p: Paddle)
    ensures var r := SpeedEffect(ballY, p);
            5 * (r - 1) < Abs(Offset(ballY, p)) <= 5 * r
  {}

  /** Zero exactly for a hit on the paddle's centre line. */
  lemma SpeedEffectZeroIffCentre(ballY: int, p: Paddle)
    ensures SpeedEffect(ballY, p) == 0 <==> ballY == p.y + HandleMid
  {}

  /** Farther from the centre never means slower. */
  lemma SpeedEffectMonotone(y1: int, p1: Paddle, y2: int, p2: Paddle)
    requires Abs(Offset(y1, p1)) <= Abs(Offset(y2, p2))
    ensures SpeedEffect(y1, p1) <= SpeedEffect(y2, p2)
  {
    var r1, r2 := SpeedEffect(y1, p1), SpeedEffect(y2, p2);
    assert HandleMid == 25;
    assert 25 * r1 < 25 * r2 + 25;
  }

  /** Hits equally far above and below the centre give the same speed. */
  lemma SpeedEffectSymmetric(d: int, p: Paddle)
    ensures SpeedEffect(p.y + HandleMid + d, p) == SpeedEffect(p.y + HandleMid - d, p)
  {}

  /** Under the overlap guard the speed is at most `BALL_SPEED`, reached
      exactly within 4 pixels of either end of the paddle. */
  lemma SpeedEffectBounded(ballY: int, p: Paddle)
    requires SpansY(p, ballY)
    ensures SpeedEffect(ballY, p) <= BallSpeed
    ensures SpeedEffect(ballY, p) == BallSpeed <==> Abs(Offset(ballY, p)) > 20
  {}
}
