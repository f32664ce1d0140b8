/** The cue-to-sound-slot table built by `setup_sounds`. The rest of the model
    emits cue names only; this table documents that slot 4 is assigned twice,
    so the quit cue and the wall cue end up playing the same sound. */
module Sounds {
  import opened Entities

  function SoundId(c: Cue): (id: nat)
    ensures id < 5
    ensures c == PausedCue <==> id == 0
    ensures c == P1Cue <==> id == 1
    ensures c == P2Cue <==> id == 2
    ensures c == PointCue <==> id == 3
  {
    match c
    case PausedCue => 0
    case P1Cue => 1
    case P2Cue => 2
    case PointCue => 3
    case QuitCue => 4
    case WallCue => 4
  }

  /** Two distinct cues share a slot exactly when they are quit and wall. */
  lemma SharedSlot(a: Cue, b: Cue)
    requires a != b
    ensures SoundId(a) == SoundId(b) <==>
              (a == QuitCue && b == WallCue) || (a == WallCue && b == QuitCue)
  {}
}
