/** The part of Unity's AudioSource component that the sound manager touches.
    Rendering, scheduling and clip loading belong to the engine; this module
    only records which playback call was made last and the flags the device
    then reports. */
module AudioDevice {

  /** An AudioClip reference; NoClip stands for a null reference. */
  datatype Clip = NoClip | Clip(id: nat)

  /** The playback call most recently made on a source. */
  datatype DeviceCall =
    | NoCall
    | PlayOneShotCall(shot: Clip)
    | PlayCall
    | PlayScheduledCall(time: real)
    | StopCall

  /** The observable state of one AudioSource. `isPlaying` is what the device
      reports; the engine may clear it at any time (a clip ran to its end). */
  datatype SourceState = SourceState(
    enabled: bool,
    loop: bool,
    clip: Clip,
    volume: real,
    isPlaying: bool,
    lastCall: DeviceCall)
  {
    /** A one-shot playback of `shot`; only a real clip makes the source sound. */
    function PlayOneShot(shot: Clip): SourceState {
      this.(isPlaying := shot != NoClip, lastCall := PlayOneShotCall(shot))
    }

    /** Playback of the bound clip, starting now. */
    function Play(): SourceState {
      this.(isPlaying := clip != NoClip, lastCall := PlayCall)
    }

    /** Playback of the bound clip, scheduled at the absolute time `time` of
        the engine's audio clock; a scheduled source already reports that it
        is playing. */
    function PlayScheduled(time: real): SourceState {
      this.(isPlaying := clip != NoClip, lastCall := PlayScheduledCall(time))
    }

    function Stop(): SourceState {
      this.(isPlaying := false, lastCall := StopCall)
    }
  }

  /** A component just added to a game object: enabled, not looping, no clip,
      full volume, silent. */
  const FreshSource := SourceState(true, false, NoClip, 1.0, false, NoCall)

  class AudioSource {
    var enabled: bool
    var loop: bool
    var clip: Clip
    var volume: real
    var isPlaying: bool
    var lastCall: DeviceCall

    ghost function State(): SourceState
      reads this
    {
      SourceState(enabled, loop, clip, volume, isPlaying, lastCall)
    }

    constructor ()
      ensures State() == FreshSource
    {
      enabled, loop, clip, volume, isPlaying, lastCall := true, false, NoClip, 1.0, false, NoCall;
    }

    method PlayOneShot(shot: Clip)
      modifies this
      ensures State() == old(State()).PlayOneShot(shot)
    {
      isPlaying, lastCall := shot != NoClip, PlayOneShotCall(shot);
    }

    method Play()
      modifies this
      ensures State() == old(State()).Play()
    {
      isPlaying, lastCall := clip != NoClip, PlayCall;
    }

    method PlayScheduled(time: real)
      modifies this
      ensures State() == old(State()).PlayScheduled(time)
    {
      isPlaying, lastCall := clip != NoClip, PlayScheduledCall(time);
    }

    method Stop()
      modifies this
      ensures State() == old(State()).Stop()
    {
      isPlaying, lastCall := false, StopCall;
    }
  }
}
