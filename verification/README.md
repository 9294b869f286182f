# Playlist player: a Dafny model

This project models the playback controller of a browser playlist page,
the `Player` class of `tp2/site-web/src/assets/js/player.js`. A player owns:

- an ordered song list (`songsInPlayList`);
- a cursor into it (`currentIndex`);
- a `shuffle` flag;
- one audio element, whose source is switched from song to song.

The model is imperative, like the source. `Playback.Player` is a class
with those fields, and `Media.Audio` is a class for the audio element
(`src`, `paused`, `volume`, `currentTime`, `duration`). Every method says
in its `modifies` clause which fields it changes. Its `ensures` clauses
give their new values.

The object invariant `Player.Valid` says three things:

- the cursor is never negative;
- once songs are loaded, the cursor points into the list, and the audio
  element's source is the source of the song under the cursor;
- the volume lies in `[0, 1]`.

Every method preserves it.

Navigation outside shuffle mode is specified by two pure functions in
`Navigation`: `Successor` and `Predecessor`, one step forward or back
wrapped with a true modulo. The lemmas about them say:

- they undo each other;
- `n` steps come back to the start;
- `k` steps equal `modulo(i ± k, n)`;
- repeated "next" reaches every song.

The module `Utils` stands for the two helpers the player imports from its
utility module: `modulo` (true modulo, here Dafny's Euclidean `%`) and
`random(lo, hi)` (some integer in `[lo, hi]`). `utils.js` is not part of
this model; only the contracts the player relies on are modelled.

`Scenarios` holds client code that drives a player the way the page
does. It covers next-then-previous, double toggles, a run of end-of-track
events, and a three-song session. Each is proved from the methods'
contracts alone.

Three behaviours of the code worth noting:

- `loadSongs` does not reset the cursor to 0. It keeps `currentIndex` and
  reads `songs[currentIndex]`. So a list too short for the cursor, the
  empty list included, is a caller error. `LoadSongs` requires
  `currentIndex < |songs|`.
- `muteToggle` returns whether the player is muted after the flip, that is
  `true` exactly when the new volume is 0.
- The doc comments above `playPreviousSong` and `playNextSong` are swapped
  relative to the code. The model follows the code: previous steps back,
  next steps forward.

## Model

| member | source | states |
|---|---|---|
| Utils.Modulo | tp2/site-web/src/assets/js/player.js:54 | the result is in `[0, n)`, differs from `x` by a multiple of `n`, and is `x` itself when `x` is already in range |
| Utils.Random | tp2/site-web/src/assets/js/player.js:51-53 | the draw lies in `[lo, hi]` |
| Navigation.Successor | tp2/site-web/src/assets/js/player.js:64-67 | the next index is in range; from a valid cursor it is `i + 1`, except that the last index wraps to 0 |
| Navigation.Predecessor | tp2/site-web/src/assets/js/player.js:51-54 | the previous index is in range; from a valid cursor it is `i - 1`, except that index 0 wraps to `n - 1` |
| Navigation.PreviousUndoesNext | tp2/site-web/src/assets/js/player.js:50-69 | a step back after a step forward returns to the starting cursor |
| Navigation.NextUndoesPrevious | tp2/site-web/src/assets/js/player.js:50-69 | a step forward after a step back returns to the starting cursor |
| Navigation.StepsForwardIsModulo | tp2/site-web/src/assets/js/player.js:63-69 | `k` sequential "next" steps from `i` land on `modulo(i + k, n)` |
| Navigation.StepsBackwardIsModulo | tp2/site-web/src/assets/js/player.js:50-56 | `k` sequential "previous" steps from `i` land on `modulo(i - k, n)` |
| Navigation.CycleReturnsToStart | tp2/site-web/src/assets/js/player.js:50-69 | `n` steps in either direction around an `n`-song list come back to the start |
| Navigation.EveryIndexReachable | tp2/site-web/src/assets/js/player.js:63-69 | from any cursor, every song is reached by fewer than `n` "next" steps |
| Navigation.StepsBackwardUndoesForward | tp2/site-web/src/assets/js/player.js:50-69 | `k` "previous" steps undo `k` "next" steps |
| Media.Audio.constructor | tp2/site-web/src/assets/js/player.js:5 | a new audio element has no source, is paused, is at full volume and at position 0, with unknown duration |
| Media.Audio.Play | tp2/site-web/src/assets/js/player.js:36 | `play()` leaves the element playing and changes nothing else |
| Media.Audio.Pause | tp2/site-web/src/assets/js/player.js:36 | `pause()` leaves the element paused and changes nothing else |
| Media.Audio.Load | tp2/site-web/src/assets/js/player.js:38 | `load()` pauses, rewinds to 0 and forgets the duration, keeping source and volume |
| Media.Audio.MetadataLoaded | tp2/site-web/src/assets/js/player.js:76 | the element's metadata event makes the duration known (the seconds given); it is the only way the `duration` read by `audioSeek` becomes a number |
| Playback.ToggledVolume | tp2/site-web/src/assets/js/player.js:85 | the new volume is 0 or 1, and it is 0 exactly when the old volume was nonzero |
| Playback.MuteToggleTwiceRestoresVolume | tp2/site-web/src/assets/js/player.js:84-87 | two mute toggles from volume 0 or 1 restore that volume |
| Playback.MuteToggleTwiceRestoresMuted | tp2/site-web/src/assets/js/player.js:84-87 | two mute toggles restore the muted state; an intermediate level comes back as 1, not as itself |
| Playback.Player.constructor | tp2/site-web/src/assets/js/player.js:4-9 | empty list, cursor 0, shuffle off, a fresh paused audio element at full volume, position 0 and unknown duration; the invariant holds |
| Playback.Player.LoadSongs | tp2/site-web/src/assets/js/player.js:15-18 | the list is replaced, the cursor is kept, the source is the song under the cursor, playback state and shuffle are untouched |
| Playback.Player.GetSongFromIndex | tp2/site-web/src/assets/js/player.js:25-27 | the song at `index` when it is in range, nothing (`undefined`) otherwise; reads only |
| Playback.Player.PlayAudio | tp2/site-web/src/assets/js/player.js:34-43 | with `-1` only the paused state flips; with an index the cursor and source move there, the element is rewound and playing |
| Playback.Player.PlayPreviousSong | tp2/site-web/src/assets/js/player.js:50-56 | the cursor stays valid in every mode; outside shuffle it is the predecessor of the old cursor; that song is loaded and playing, rewound to 0 with its duration not yet known |
| Playback.Player.PlayNextSong | tp2/site-web/src/assets/js/player.js:63-69 | the cursor stays valid in every mode; outside shuffle it is the successor of the old cursor; that song is loaded and playing, rewound to 0 with its duration not yet known |
| Playback.Player.AudioSeek | tp2/site-web/src/assets/js/player.js:75-78 | with a known duration the position becomes `timelineValue` percent of it; with unknown duration nothing changes |
| Playback.Player.MuteToggle | tp2/site-web/src/assets/js/player.js:84-87 | the volume is flipped per `ToggledVolume`; the result is true exactly when the player is now muted (the old volume was nonzero) |
| Playback.Player.ShuffleToggle | tp2/site-web/src/assets/js/player.js:93-96 | the flag is negated, the new value is returned, nothing else changes |
| Playback.Player.ScrubTime | tp2/site-web/src/assets/js/player.js:102-104 | the position moves by exactly `delta` seconds |
| Playback.Player.CurrentSong | tp2/site-web/src/assets/js/player.js:110-112 | the song under the cursor, present exactly when songs are loaded, and its source is the one the audio element holds |
| Scenarios.NextThenPrevious | tp2/site-web/src/assets/js/player.js:50-69 | outside shuffle, next then previous restores cursor and source, the song is playing again from position 0 with its duration not yet known, and list, shuffle flag and volume are kept |
| Scenarios.PreviousThenNext | tp2/site-web/src/assets/js/player.js:50-69 | outside shuffle, previous then next restores cursor and source, the song is playing again from position 0 with its duration not yet known, and list, shuffle flag and volume are kept |
| Scenarios.ToggleEachTwice | tp2/site-web/src/assets/js/player.js:84-96 | two shuffle toggles and two mute toggles restore the flag and the muted state, and a 0/1 volume exactly; nothing else changes |
| Scenarios.EndedEvents | tp2/site-web/src/assets/js/playlist.js:191-193 | `k` end-of-track events advance the cursor `k` steps; `n` of them return to the starting song; list, shuffle flag and volume are kept; after at least one event the new song is playing from position 0 with its duration not yet known |
| Scenarios.ThreeSongSession | tp2/site-web/src/assets/js/player.js:15-69 | load three songs (first song loaded, not playing), jump to the second, its end moves to the third, which is playing |

## Left out

- `tp2/site-web/src/assets/js/playlist.js` is not part of this model. It holds the page glue: HTML building, CSS class toggles, the event and keyboard-shortcut bindings, and the timeline display with `formatTime`. Only its "ended ⇒ next" binding appears, as the client `Scenarios.EndedEvents`.
- The other files of the repository are not part of this model: the playlist editor, the library page, the HTTP routes and the React component.
- Utils.Random: the random source is modelled only as "some integer in range". No distribution is modelled, so uniformity and no-repeat questions cannot be stated.
- Playback.Player.AudioSeek: positions and durations are exact `real`s, not IEEE doubles. With an unknown (NaN) duration the browser would reject the non-finite position; the model keeps the position unchanged. The string-to-number coercion of the timeline value is not modelled.
- Playback.Player.ScrubTime: the browser's clamping of the position to the seekable range is not modelled; the position moves by exactly `delta`.
- Media.Audio.Play: the promise that `play()` returns and its possible rejection (for example by an autoplay policy) are not modelled.
- Media.Audio: the reload that a browser starts when `src` is assigned is not modelled. `src` is a plain field.
- Media.Audio: the `timeupdate` event is left out. The player never reacts to it itself. The metadata event is modelled only as `MetadataLoaded`, a step the environment may take at any time; its asynchrony is not modelled.
- Playback.Player.LoadSongs: a list that does not reach the cursor makes the source throw after it has already replaced the list. The model makes this a precondition instead of modelling the half-done state.
- Playback.Player.LoadSongs: "paused and position untouched" holds because `src` is a plain field here. In a browser, assigning `src` starts a reload, which pauses the element and rewinds it; that is not modelled.
- Playback.Player.PlayPreviousSong: on an empty list (reachable after `loadSongs([])` has thrown with the list already emptied, or when no playlist is found and the page never calls `loadSongs`, leaving the constructor's empty list; the buttons are bound first in both cases) the source computes `modulo(x, 0)` or `random(0, -1)`, then calls `playAudio` with an index that is not -1, which runs `load()` and throws. The model requires a non-empty list and does not model that half-done state.
- Playback.Player.PlayNextSong: the same empty-list caller error as `PlayPreviousSong`, excluded by the same precondition.
- Utils.Modulo: requires `n > 0`; what the utility does with `n == 0` is not known and not modelled.
- Utils.Random: requires `lo <= hi`; what the utility does with an empty range is not known and not modelled.
- Playback.Player.PlayAudio: an index other than `-1` outside the list makes the source throw after `load()`. The model makes this a precondition.
- The `liked` flag of a song is carried in `Song` but never changed here. Toggling it goes through a storage collaborator that is not part of this model.
