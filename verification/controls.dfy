/** `Pong.handle_key_input` as a pure map from a key snapshot to a new state,
    the cues it plays and whether quit was requested. */
module Controls {
  import opened Constants
  import opened Entities
  import opened Reset

  datatype KeyOutcome = KeyOutcome(state: State, cues: seq<Cue>, quit: bool)

  /** A held key pair sets the velocity of one paddle: UP/W is applied first,
      DOWN/S second, so DOWN/S wins when both are held. */
  function Steer(vy: int, upKey: bool, downKey: bool): (r: int)
    ensures downKey ==> r == HandleSpeed
    ensures upKey && !downKey ==> r == -HandleSpeed
    ensures !upKey && !downKey ==> r == vy
  {
    var afterUp := if upKey then -HandleSpeed else vy;
    if downKey then HandleSpeed else afterUp
  }

  function KeyInput(st: State, k: Keys, bot: bool, serve: Serve): (r: KeyOutcome)
    // Q: plays the quit cue and returns before anything else happens.
    ensures k.quit <==> r.quit
    ensures k.quit ==> r.state == st && r.cues == [QuitCue]
    // Otherwise only P plays a sound.
    ensures !k.quit ==> r.cues == (if k.pause then [PausedCue] else [])
    ensures r.state.score == st.score
    // R resets before P toggles, so R with P leaves the game paused.
    ensures !k.quit && k.restart ==> r.state.paused == k.pause
    ensures !k.quit && !k.restart ==> (r.state.paused != st.paused <==> k.pause)
    ensures !k.quit && k.restart ==> r.state.ball == Restart(st, serve).ball
    ensures !k.quit && k.restart ==> SamePositions(r.state, Restart(st, serve))
    ensures !k.restart ==> r.state.ball == st.ball && SamePositions(r.state, st)
    ensures !k.quit ==>
              r.state.p1.vy == Steer(if k.restart then 0 else st.p1.vy, k.up, k.down)
    // With the bot playing, W and S do nothing.
    ensures !k.quit && bot ==> r.state.p2.vy == (if k.restart then 0 else st.p2.vy)
    ensures !k.quit && !bot ==>
              r.state.p2.vy == Steer(if k.restart then 0 else st.p2.vy, k.w, k.s)
  {
    if k.quit then KeyOutcome(st, [QuitCue], true)
    else
      var s1 := if k.restart then Restart(st, serve) else st;
      var s2 := if k.pause then s1.(paused := !s1.paused) else s1;
      var cues := if k.pause then [PausedCue] else [];
      var p1 := s2.p1.(vy := Steer(s2.p1.vy, k.up, k.down));
      var p2 := if bot then s2.p2 else s2.p2.(vy := Steer(s2.p2.vy, k.w, k.s));
      KeyOutcome(s2.(p1 := p1, p2 := p2), cues, false)
  }

  /** With the bot playing, the outcome does not depend on W or S at all. */
  lemma BotIgnoresWS(st: State, k: Keys, w: bool, s: bool, serve: Serve)
    ensures KeyInput(st, k, true, serve) == KeyInput(st, k.(w := w, s := s), true, serve)
  {}
}
