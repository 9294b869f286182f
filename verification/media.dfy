/** The browser's audio element as the player uses it: a source, the
    element's own paused flag, a volume, and the playback position. Only
    the few operations the player calls are modelled. */
module Media {

  /** The element's `duration`: unknown (NaN) until the track's metadata
      has arrived, a number of seconds afterwards. */
  datatype Duration = Unknown | Known(seconds: real)

  class Audio {
    var src: string
    var paused: bool
    var volume: real
    var currentTime: real
    var duration: Duration

    /** `new Audio()`: no source, paused, full volume, at the start. */
    constructor ()
      ensures src == "" && paused && volume == 1.0
      ensures currentTime == 0.0 && duration == Unknown
    {
      src := "";
      paused := true;
      volume := 1.0;
      currentTime := 0.0;
      duration := Unknown;
    }

    /** `play()`: the element is playing afterwards. */
    method Play()
      modifies this`paused
      ensures !paused
    {
      paused := false;
    }

    /** `pause()`: the element is paused afterwards. */
    method Pause()
      modifies this`paused
      ensures paused
    {
      paused := true;
    }

    /** `load()`: the media element load algorithm stops playback, rewinds
        to 0 and forgets the duration until metadata arrives again. The
        source and the volume are kept. */
    method Load()
      modifies this`paused, this`currentTime, this`duration
      ensures paused && currentTime == 0.0 && duration == Unknown
    {
      paused := true;
      currentTime := 0.0;
      duration := Unknown;
    }

    /** The element's metadata event: the duration becomes known. This is
        the browser's doing, not the player's. */
    method MetadataLoaded(seconds: real)
      requires seconds >= 0.0
      modifies this`duration
      ensures duration == Known(seconds)
    {
      duration := Known(seconds);
    }
  }
}
