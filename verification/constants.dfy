/** The fixed board configuration of pong.py (module-level constants and the
    literal positions used by `restart`). */
module Constants {
  const ScreenWidth: int := 256
  const ScreenHeight: int := 256
  const BallSize: int := 3
  const HandleHeight: int := 50
  const HandleWidth: int := 5
  const HandleSpeed: int := 4
  const BallSpeed: int := 5

  /** Fixed x of the left (p1) and right (p2) paddles. */
  const LeftPaddleX: int := 7
  const RightPaddleX: int := 243

  /** Where `restart` places the ball (both coordinates). */
  const BallStart: int := 113

  /** `HANDLE_HEIGHT // 2` (floor and Euclidean division agree here); the
      bot's float `HANDLE_HEIGHT / 2` is the same value, 25.0. */
  const HandleMid: int := HandleHeight / 2

  /** `SCREEN_WIDTH // 2`, the line the bot waits behind. */
  const MidLine: int := ScreenWidth / 2

  /** The exclusive upper bound for a paddle's y (`pyxel.width - HANDLE_HEIGHT`). */
  const PaddleLimit: int := ScreenWidth - HandleHeight
}
