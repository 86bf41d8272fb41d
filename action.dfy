/** The player's requested action, shared by the control surface and both workers. */
module Actions {

  /** The source's `u8`: track counts and track-table numbers. */
  type U8 = x: nat | x < 256

  /** What the player should be doing. Tracks are 1-based. */
  datatype Action = Play(track: nat) | Pause(track: nat) | Stop

  /** An action whose track, if it has one, names a track of a disc with
      `totalTracks` tracks. */
  predicate ValidAction(a: Action, totalTracks: nat) {
    a.Stop? || 1 <= a.track <= totalTracks
  }
}
