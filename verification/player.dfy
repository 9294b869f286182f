/** The playback controller of the playlist page: an ordered song list, a
    cursor into it, a shuffle flag and one audio element whose source is
    switched from song to song. */
module Playback {
  import opened Utils
  import opened Navigation
  import opened Media

  /** A song record as the playlist page loads it from storage. */
  datatype Song = Song(id: string, name: string, artist: string, genre: string, src: string, liked: bool)

  /** What a JavaScript array read gives back: a value, or `undefined`
      when the index is outside the array. */
  datatype Option<T> = None | Some(value: T)

  /** The audio element's volume after a mute toggle: any audible level
      becomes silence, silence becomes full volume. */
  function ToggledVolume(v: real): (r: real)
    ensures r == 0.0 || r == 1.0
    ensures r == 0.0 <==> v != 0.0
  {
    if v != 0.0 then 0.0 else 1.0
  }

  /** Muting twice from a volume of 0 or 1 gives that volume back. */
  lemma MuteToggleTwiceRestoresVolume(v: real)
    requires v == 0.0 || v == 1.0
    ensures ToggledVolume(ToggledVolume(v)) == v
  {
  }

  /** Muting twice always restores whether the player is muted, but an
      intermediate level comes back as full volume, not as itself. */
  lemma MuteToggleTwiceRestoresMuted(v: real)
    ensures (ToggledVolume(ToggledVolume(v)) == 0.0) == (v == 0.0)
    ensures v != 0.0 ==> ToggledVolume(ToggledVolume(v)) == 1.0
  {
  }

  class Player {
    const audio: Audio
    var currentIndex: int
    var songsInPlayList: seq<Song>
    var shuffle: bool

    /** The cursor is never negative; once songs are loaded it points into
        the list and the audio element's source is the song under it. The
        volume stays in the element's range `[0, 1]`. */
    ghost predicate Valid()
      reads this, audio
    {
      0 <= currentIndex &&
      (|songsInPlayList| > 0 ==>
         currentIndex < |songsInPlayList| &&
         audio.src == songsInPlayList[currentIndex].src) &&
      0.0 <= audio.volume <= 1.0
    }

    /** A fresh player: empty list, cursor 0, shuffle off, a new paused
        audio element at full volume. */
    constructor ()
      ensures Valid() && fresh(audio)
      ensures currentIndex == 0 && songsInPlayList == [] && !shuffle
      ensures audio.src == "" && audio.paused && audio.volume == 1.0
      ensures audio.currentTime == 0.0 && audio.duration == Unknown
    {
      audio := new Audio();
      currentIndex := 0;
      songsInPlayList := [];
      shuffle := false;
    }

    /** `loadSongs`: replaces the list and points the audio element at the
        song under the cursor, without starting it. The cursor is NOT reset,
        so the new list must reach it (an empty list is a caller error). */
    method LoadSongs(songs: seq<Song>)
      requires Valid() && currentIndex < |songs|
      modifies this`songsInPlayList, audio`src
      ensures Valid()
      ensures songsInPlayList == songs && currentIndex == old(currentIndex)
      ensures audio.src == songs[currentIndex].src
      ensures audio.paused == old(audio.paused) && shuffle == old(shuffle)
    {
      songsInPlayList := songs;
      audio.src := songs[currentIndex].src;
    }

    /** `getSongFromIndex`: the song at `index`, or nothing (`undefined`)
        when `index` is outside the list. */
    function GetSongFromIndex(index: int): (r: Option<Song>)
      reads this
      ensures r.Some? <==> 0 <= index < |songsInPlayList|
      ensures r.Some? ==> r.value == songsInPlayList[index]
    {
      if 0 <= index < |songsInPlayList| then Some(songsInPlayList[index]) else None
    }

    /** `playAudio(index)`. With the sentinel `-1` (the default argument)
        it flips the element's own paused state and changes nothing else.
        Any other index is a jump: reload, take that song's source, play,
        and move the cursor there. */
    method PlayAudio(index: int)
      requires Valid()
      requires index == -1 || 0 <= index < |songsInPlayList|
      modifies this`currentIndex, audio`src, audio`paused, audio`currentTime, audio`duration
      ensures Valid()
      ensures index == -1 ==>
        audio.paused == !old(audio.paused) &&
        currentIndex == old(currentIndex) && audio.src == old(audio.src) &&
        audio.currentTime == old(audio.currentTime) && audio.duration == old(audio.duration)
      ensures index != -1 ==>
        currentIndex == index && audio.src == songsInPlayList[index].src &&
        !audio.paused && audio.currentTime == 0.0 && audio.duration == Unknown
    {
      if index == -1 {
        if audio.paused {
          audio.Play();
        } else {
          audio.Pause();
        }
      } else {
        audio.Load();
        audio.src := songsInPlayList[index].src;
        audio.Play();
        currentIndex := index;
      }
    }

    /** `playPreviousSong`: one step back, wrapping from the first song to
        the last; in shuffle mode some random song instead. The chosen song
        starts playing. */
    method PlayPreviousSong()
      requires Valid() && |songsInPlayList| > 0
      modifies this`currentIndex, audio`src, audio`paused, audio`currentTime, audio`duration
      ensures Valid()
      ensures 0 <= currentIndex < |songsInPlayList|
      ensures !shuffle ==> currentIndex == Predecessor(old(currentIndex), |songsInPlayList|)
      ensures audio.src == songsInPlayList[currentIndex].src
      ensures !audio.paused && audio.currentTime == 0.0 && audio.duration == Unknown
    {
      var n := |songsInPlayList|;
      var previousIndex: int;
      if shuffle {
        previousIndex := Random(0, n - 1);
      } else {
        previousIndex := currentIndex - 1;
      }
      previousIndex := Modulo(previousIndex, n);
      PlayAudio(previousIndex);
    }

    /** `playNextSong`: one step forward, wrapping from the last song to
        the first; in shuffle mode some random song instead. The chosen song
        starts playing. */
    method PlayNextSong()
      requires Valid() && |songsInPlayList| > 0
      modifies this`currentIndex, audio`src, audio`paused, audio`currentTime, audio`duration
      ensures Valid()
      ensures 0 <= currentIndex < |songsInPlayList|
      ensures !shuffle ==> currentIndex == Successor(old(currentIndex), |songsInPlayList|)
      ensures audio.src == songsInPlayList[currentIndex].src
      ensures !audio.paused && audio.currentTime == 0.0 && audio.duration == Unknown
    {
      var n := |songsInPlayList|;
      var nextIndex: int;
      if shuffle {
        nextIndex := Random(0, n - 1);
      } else {
        nextIndex := currentIndex + 1;
      }
      nextIndex := Modulo(nextIndex, n);
      PlayAudio(nextIndex);
    }

    /** `audioSeek`: jump to `timelineValue` percent of the track. While
        the duration is unknown there is no target and nothing changes. */
    method AudioSeek(timelineValue: real)
      modifies audio`currentTime
      ensures old(audio.duration).Known? ==>
        audio.currentTime == timelineValue * old(audio.duration).seconds / 100.0
      ensures old(audio.duration).Unknown? ==> audio.currentTime == old(audio.currentTime)
    {
      if audio.duration.Known? {
        audio.currentTime := timelineValue * audio.duration.seconds / 100.0;
      }
    }

    /** `muteToggle`: silence if audible, full volume if silent; the
        result says whether the player is muted now. */
    method MuteToggle() returns (muted: bool)
      requires Valid()
      modifies audio`volume
      ensures Valid()
      ensures audio.volume == ToggledVolume(old(audio.volume))
      ensures muted <==> audio.volume == 0.0
      ensures muted <==> old(audio.volume) != 0.0
    {
      audio.volume := if audio.volume != 0.0 then 0.0 else 1.0;
      muted := audio.volume == 0.0;
    }

    /** `shuffleToggle`: flips the shuffle flag and reports its new value;
        nothing else changes. */
    method ShuffleToggle() returns (s: bool)
      requires Valid()
      modifies this`shuffle
      ensures Valid()
      ensures shuffle == !old(shuffle) && s == shuffle
    {
      shuffle := !shuffle;
      s := shuffle;
    }

    /** `scrubTime`: moves the playback position by `delta` seconds. */
    method ScrubTime(delta: real)
      modifies audio`currentTime
      ensures audio.currentTime == old(audio.currentTime) + delta
    {
      audio.currentTime := audio.currentTime + delta;
    }

    /** The `currentSong` getter: the song under the cursor, which is the
        one the audio element has loaded; nothing before songs are loaded. */
    function CurrentSong(): (r: Option<Song>)
      reads this, audio
      requires Valid()
      ensures r.Some? <==> |songsInPlayList| > 0
      ensures r.Some? ==> r.value == songsInPlayList[currentIndex]
      ensures r.Some? ==> r.value.src == audio.src
    {
      GetSongFromIndex(currentIndex)
    }
  }
}
