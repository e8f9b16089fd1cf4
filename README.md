# Home-screen playback state machine

This project models the playback logic of the `HomeScreen` component in
`app/index.tsx`. The screen fetches a speed-dependent playlist and plays the
tracks' preview clips. It has a Play button that always starts track 0, plus
Pause, Next and Back buttons. A completion callback on the playing sound raises
an `isFinishSong` flag. An effect then advances to the next track and lowers the
flag again.

The screen's state has five parts: `playlist`, `sound`, `currentSong`,
`currentIndex` (initially 0) and `isFinishSong`. The model reads React's `setX`
calls as plain assignments, one after another.

- `playback.dfy` (module `Playback`) states the state as the value
  `State` and states each handler as a function from the old state to the
  new one. It also keeps a trace of the calls made to the audio renderer.
  The lemmas prove the properties below.
- `home_screen.dfy` (module `HomeScreen`) has the class `Screen`. Its fields are
  the five state variables plus a ghost trace of renderer calls. Each method
  follows the handler statement by statement and is specified by the matching
  function of `Playback`.

The sound handle is abstracted as a status:
- `NoSound` is the initial `null`.
- `Created`, `Playing`, `Paused` and `Ended` are loaded sounds. `Created` is the
  sound just returned by `createAsync`, before `playAsync` starts it.
- `Unloaded` is a sound object after `unloadAsync`.

An unloaded sound object is still truthy in `if (sound)`. So `handlePlaySong`
unloads it a second time when it is called from Next or Back. The renderer calls
`unloadAsync`, `createAsync`, `playAsync` and `pauseAsync` are recorded as
`Unload`, `Create(url)`, `Start` and `Pause`.

A track's `preview` is `Option<string>`. The model's `!songUrl` is true when the
preview is missing or empty. Each handler ends in one of three ways:
- `Done`: it finishes normally.
- `NoPreview`: it shows the "No preview available" alert.
- `TypeError`: it throws while reading `.preview` of an undefined track.

Behaviour captured as the code has it:
- Replacing the playlist changes only the playlist. It does not reset
  `currentIndex`, stop the sound or clear `currentSong`.
- Next and Back unload the sound even when they do not move.
- There is no wrap-around at either end of the playlist.
- Next onto a track without a preview still moves the index and the song.
  The handle is left as the unloaded sound object, not cleared to `null`, and the
  alert is shown. The next handler therefore still calls `unloadAsync` or
  `pauseAsync` on it.
- After the playlist is replaced by a shorter one, the index can lie past its end.
  When the new list has fewer than `currentIndex` tracks, Back still sets the
  index to `currentIndex - 1` and sets the song to undefined. After that, reading
  `.preview` throws. When the new list has exactly `currentIndex` tracks, Back
  steps onto its last track. Assigned indices therefore stay on the playlist only
  while the playlist is not replaced (`RunKeepsOnPlaylist`,
  `ShorterPlaylistThenBack`, `ExactPlaylistThenBack`).
- The Play button on an empty playlist throws before any state changes.
- At the last track, a completion signal unloads the sound. It leaves the index
  and the song on the last track, with nothing playing.

The code has no stopped state without a current index: after the last track the
index stays on it. It does not reset anything when a playlist is loaded. It does
not tag completion reports with a track index, so it cannot discard stale ones.
It has no resume command: Play always restarts track 0.

## Model

| member | source | states |
|---|---|---|
| `HomeScreen.Screen.constructor` | app/index.tsx:29-33 | the screen starts with an empty playlist, no sound, no current song, index 0, flag lowered and no renderer calls |
| `HomeScreen.Screen.UnloadIfAny` | app/index.tsx:127-129 | a present sound object is told to unload and becomes unloaded; with no sound nothing happens; the invariant is kept |
| `HomeScreen.Screen.HandlePlaySong` | app/index.tsx:87-117 | the new state and outcome are those of `PlaySong`, and the renderer invariant is kept |
| `HomeScreen.Screen.PressPlay` | app/index.tsx:173-176 | the new state and outcome are those of `PlayButton` |
| `HomeScreen.Screen.HandlePauseSong` | app/index.tsx:119-123 | the new state is that of `PauseSong` |
| `HomeScreen.Screen.HandleNextSong` | app/index.tsx:126-138 | the new state and outcome are those of `NextSong` |
| `HomeScreen.Screen.HandlePrevSong` | app/index.tsx:141-152 | the new state and outcome are those of `PrevSong` |
| `HomeScreen.Screen.ReplacePlaylist` | app/index.tsx:67 | the new state is that of `SetPlaylist`: only the playlist changes |
| `HomeScreen.Screen.OnPlaybackFinished` | app/index.tsx:107-116 | the end of the playing sound marks it ended and raises `isFinishSong` |
| `HomeScreen.Screen.RunFinishEffect` | app/index.tsx:80-85 | the new state is that of `FinishEffect` |
| `Playback.AppendCall` | app/index.tsx:93-99 | one more renderer call keeps "no sound is created while another is loaded" if a create comes only when nothing is loaded; unload ends the live sound and create starts one |
| `Playback.CoherentInitial` | app/index.tsx:29-33 | the initial screen satisfies the renderer invariant |
| `Playback.UnloadSound` | app/index.tsx:94-96 | afterwards no sound is loaded; only a present sound object gets an unload call; playlist, song, index and flag are untouched |
| `Playback.UnloadKeepsCoherent` | app/index.tsx:127-129 | unloading keeps the sound status in agreement with the renderer |
| `Playback.PlaySong` | app/index.tsx:87-117 | without a preview nothing changes and the outcome is the alert; with one, the chosen track is current and playing, the playlist and flag are kept, and the calls are unload (if a sound exists), then create for that URL, then play |
| `Playback.PlaySongKeepsCoherent` | app/index.tsx:93-104 | when the new sound is created the renderer holds no other sound, and the invariant holds afterwards |
| `Playback.PlayButton` | app/index.tsx:173-176 | an empty playlist throws with no change; a first track without a preview gives the alert with no change; otherwise track 0 is current and playing, the flag is kept, and the calls are unload (if a sound exists), create for track 0's preview, then play |
| `Playback.PauseSong` | app/index.tsx:119-123 | with no sound nothing changes; otherwise one pause call is made, a playing sound becomes paused and any other status stays; playlist, song, index and flag never change |
| `Playback.PauseKeepsCoherent` | app/index.tsx:119-123 | pausing keeps the renderer invariant |
| `Playback.NextSong` | app/index.tsx:126-138 | any sound is unloaded first; in bounds the index becomes old + 1 and the song that track, playing exactly when it has a preview; without one the handle stays the unloaded sound object (or `null` if there never was a sound); with a preview the calls are the unload, a second unload by `handlePlaySong`, create for that track's preview, then play; without one the unload is the only call; at the end index, song and playlist do not change and the unload is the only call; it never throws |
| `Playback.NextKeepsCoherent` | app/index.tsx:126-138 | Next keeps the renderer invariant |
| `Playback.PrevSong` | app/index.tsx:141-152 | any sound is unloaded first; at index 0 index and song stay and the unload is the only call; in bounds the index becomes old - 1 and the song that track, playing exactly when it has a preview, with the same handle and calls as Next for that track; past the end of the playlist the index still moves, the song becomes undefined, the unload is the only call and the handler throws |
| `Playback.PrevKeepsCoherent` | app/index.tsx:141-152 | Back keeps the renderer invariant |
| `Playback.SetPlaylist` | app/index.tsx:67 | the playlist becomes the fetched list and every other part of the state is unchanged |
| `Playback.SongFinished` | app/index.tsx:107-116 | the flag is raised, the sound is ended but still loaded, and nothing else changes |
| `Playback.SongFinishedKeepsCoherent` | app/index.tsx:107-116 | the completion callback keeps the renderer invariant |
| `Playback.FinishEffect` | app/index.tsx:80-85 | the flag is always lowered afterwards; a raised flag causes exactly one Next step; a lowered flag changes nothing |
| `Playback.FinishEffectKeepsCoherent` | app/index.tsx:80-85 | the effect keeps the renderer invariant |
| `Playback.Apply` | app/index.tsx:80-179 | one event: a button press, a fetched list, a completion report or the effect; only a fetched list changes the playlist; the renderer trace only grows; a completion report for a sound that is not playing is dropped |
| `Playback.Run` | app/index.tsx:67-152 | events in order, one whole handler after another; no events change nothing; the trace only grows; without a fetched list the playlist stays |
| `Playback.ApplyKeepsCoherent` | app/index.tsx:67-152 | every button, playlist arrival, completion or effect keeps the renderer invariant |
| `Playback.RunKeepsCoherent` | app/index.tsx:67-152 | every sequence of events keeps the renderer invariant |
| `Playback.OneSoundInEveryRun` | app/index.tsx:93-99 | in every run from the mounted screen, no sound is ever created while another is loaded, and the `sound` status agrees with the renderer |
| `Playback.ApplyKeepsOnPlaylist` | app/index.tsx:130-136 | every event except a playlist replacement keeps the current index on the playlist (next at +1 in bounds, back at -1, play at 0) |
| `Playback.ExactPlaylistThenBack` | app/index.tsx:145-150 | after replacement by a list with exactly `currentIndex` tracks, the index is off the playlist, but Back steps onto the last track, which is then current, and does not throw |
| `Playback.RunKeepsOnPlaylist` | app/index.tsx:145-151 | a run without playlist replacements keeps the current index on the playlist |
| `Playback.ShorterPlaylistThenBack` | app/index.tsx:145-150 | after replacement by a list with fewer than `currentIndex` tracks, the index is off the playlist, and Back throws and leaves it off |
| `Playback.PlaysThrough` | app/index.tsx:130-136 | from a playing track, k completions each followed by the effect advance the index by exactly k, onto playable tracks, still playing, with the flag lowered |
| `Playback.PlaylistPlaysToEnd` | app/index.tsx:173-176 | Play and then N - 1 completions on N playable tracks end playing track N - 1; the N-th completion unloads the sound and keeps index and song on the last track, with no wrap-around |
| `Playback.NextThenBack` | app/index.tsx:126-152 | Next then Back returns to the same index and song, playing exactly when that track has a preview |
| `Playback.BackThenNext` | app/index.tsx:126-152 | Back then Next returns to the same index and song, playing exactly when that track has a preview |

## Left out

- Location permission and GPS polling (app/index.tsx:39-59) are device I/O on a timer. The m/s to mph conversion is floating point.
- The axios fetch and its 10-second polling (app/index.tsx:61-78) are network I/O. A fetch result is modelled only as an arbitrary list handed to `SetPlaylist`. A failed fetch changes nothing and is not modelled.
- The expo-av library is abstracted as a status and a call trace. The model does not cover failures or rejected promises of `createAsync`, `playAsync`, `unloadAsync` and `pauseAsync`. For example, `pauseAsync` on an unloaded sound rejects in the library; the model records the call and leaves the status unloaded.
- React scheduling is not modelled: asynchronous `setState` batching, handlers interleaving across `await`, and callbacks capturing a stale `currentIndex` or `sound`. The handlers run to completion one at a time, with state read as just assigned.
- An effect re-run needs `isFinishSong` to change value. A completion that arrives while the flag is already raised therefore does not run the effect again. The model leaves it to the caller to issue `EffectRan`.
- `alert` text, `console.log`, JSX rendering, `FlatList` and the style sheet (app/index.tsx:154-222) are UI only. The alert is modelled only as the `NoPreview` outcome.
- Playback.SongFinished: requires a playing sound, because the renderer reports the end only of a sound that is playing. In `Apply`, a completion event in any other state is a no-op.
- app/(tabs)/index.tsx is an earlier, simpler version of the screen: a Play button per track (app/(tabs)/index.tsx:124-127), a "Get Songs" button instead of polling (app/(tabs)/index.tsx:115), no Pause, Next or Back, and a completion callback that plays the next track itself (app/(tabs)/index.tsx:89-96). It is not part of this model.
