/** The playback notifications the controller listens to. */
module AudioEvents {

  /** Player states reported by the audio framework. */
  datatype PlayerState = Unknown | Released | Idle | Started | Paused | Stopped

  /** One active player, as seen in a playback configuration change. */
  datatype PlaybackConfiguration = PlaybackConfiguration(playerState: PlayerState)

  /** Whether any player in the list is currently started. */
  function IsPlaying(configs: seq<PlaybackConfiguration>): (playing: bool)
    ensures playing <==> exists i :: 0 <= i < |configs| && configs[i].playerState == Started
    decreases |configs|
  {
    if configs == [] then false
    else configs[0].playerState == Started || IsPlaying(configs[1..])
  }
}
