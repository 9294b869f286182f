/** Client code driving a Player the way the playlist page does (buttons,
    keyboard shortcuts, end-of-track events), using only the contracts of
    the Player's methods. */
module Scenarios {
  import opened Navigation
  import opened Playback
  import opened Media

  /** "Next" then "previous" in sequential mode returns to the same song. */
  method NextThenPrevious(p: Player)
    requires p.Valid() && |p.songsInPlayList| > 0 && !p.shuffle
    modifies p, p.audio
    ensures p.Valid()
    ensures p.currentIndex == old(p.currentIndex) && p.audio.src == old(p.audio.src)
    ensures !p.audio.paused
    ensures p.songsInPlayList == old(p.songsInPlayList) && p.shuffle == old(p.shuffle)
    ensures p.audio.volume == old(p.audio.volume)
    ensures p.audio.currentTime == 0.0 && p.audio.duration == Unknown
  {
    p.PlayNextSong();
    p.PlayPreviousSong();
    PreviousUndoesNext(old(p.currentIndex), |p.songsInPlayList|);
  }

  /** "Previous" then "next" in sequential mode returns to the same song. */
  method PreviousThenNext(p: Player)
    requires p.Valid() && |p.songsInPlayList| > 0 && !p.shuffle
    modifies p, p.audio
    ensures p.Valid()
    ensures p.currentIndex == old(p.currentIndex) && p.audio.src == old(p.audio.src)
    ensures !p.audio.paused
    ensures p.songsInPlayList == old(p.songsInPlayList) && p.shuffle == old(p.shuffle)
    ensures p.audio.volume == old(p.audio.volume)
    ensures p.audio.currentTime == 0.0 && p.audio.duration == Unknown
  {
    p.PlayPreviousSong();
    p.PlayNextSong();
    NextUndoesPrevious(old(p.currentIndex), |p.songsInPlayList|);
  }

  /** Pressing shuffle twice and mute twice: the shuffle flag and the muted
      state are as before; a volume of 0 or 1 is restored exactly. */
  method ToggleEachTwice(p: Player)
    requires p.Valid()
    modifies p, p.audio
    ensures p.Valid()
    ensures p.shuffle == old(p.shuffle)
    ensures (p.audio.volume == 0.0) == (old(p.audio.volume) == 0.0)
    ensures old(p.audio.volume) == 0.0 || old(p.audio.volume) == 1.0 ==>
      p.audio.volume == old(p.audio.volume)
    ensures p.currentIndex == old(p.currentIndex) && p.songsInPlayList == old(p.songsInPlayList)
    ensures p.audio.src == old(p.audio.src) && p.audio.paused == old(p.audio.paused)
    ensures p.audio.currentTime == old(p.audio.currentTime) && p.audio.duration == old(p.audio.duration)
  {
    var s := p.ShuffleToggle();
    s := p.ShuffleToggle();
    var m := p.MuteToggle();
    m := p.MuteToggle();
    MuteToggleTwiceRestoresMuted(old(p.audio.volume));
  }

  /** `k` end-of-track events in sequential mode, each of which calls
      `playNextSong`: the cursor advances `k` steps around the list. */
  method EndedEvents(p: Player, k: nat)
    requires p.Valid() && |p.songsInPlayList| > 0 && !p.shuffle
    modifies p, p.audio
    ensures p.Valid() && p.songsInPlayList == old(p.songsInPlayList) && !p.shuffle
    ensures p.currentIndex == StepsForward(old(p.currentIndex), |p.songsInPlayList|, k)
    ensures k == |p.songsInPlayList| ==> p.currentIndex == old(p.currentIndex)
    ensures p.audio.volume == old(p.audio.volume)
    ensures k > 0 ==> !p.audio.paused && p.audio.currentTime == 0.0 && p.audio.duration == Unknown
  {
    var n := |p.songsInPlayList|;
    var i := 0;
    while i < k
      invariant 0 <= i <= k
      invariant p.Valid() && p.songsInPlayList == old(p.songsInPlayList) && !p.shuffle
      invariant p.currentIndex == StepsForward(old(p.currentIndex), n, i)
      invariant p.audio.volume == old(p.audio.volume)
      invariant i > 0 ==> !p.audio.paused && p.audio.currentTime == 0.0 && p.audio.duration == Unknown
    {
      p.PlayNextSong();
      i := i + 1;
    }
    CycleReturnsToStart(old(p.currentIndex), n);
  }

  /** A session on a three-song playlist: loading points the element at
      the first song without playing it; clicking the second song plays it;
      its end-of-track event moves on to the third. */
  method ThreeSongSession(t0: Song, t1: Song, t2: Song) returns (p: Player)
    ensures p.Valid() && p.songsInPlayList == [t0, t1, t2]
    ensures p.currentIndex == 2 && p.audio.src == t2.src && !p.audio.paused
    ensures p.CurrentSong() == Some(t2)
  {
    p := new Player();
    p.LoadSongs([t0, t1, t2]);
    assert p.currentIndex == 0 && p.audio.src == t0.src && p.audio.paused;
    p.PlayAudio(1);
    assert p.currentIndex == 1 && p.audio.src == t1.src && !p.audio.paused;
    p.PlayNextSong();
  }
}
