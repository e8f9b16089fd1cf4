/** The playback state machine of the home screen of app/index.tsx, stated on values.

    `State` holds the five pieces of screen state (playlist, sound, current song,
    current index, "song just finished" flag) together with the sequence of calls
    made to the audio renderer so far. Each handler of the screen is one function
    from the old state to the new one; the class in home_screen.dfy runs the same
    handlers statement by statement and is specified by these functions.

    React's `setX` calls are read as plain assignments, one after the other. */
module Playback {

  datatype Option<T> = None | Some(value: T)

  /** A track as the playlist endpoint returns it. `preview` is the URL of the
      audio clip; a track whose preview is missing or empty cannot be played. */
  datatype Song = Song(id: int, title: string, artist: string, preview: Option<string>, link: string)

  /** `!songUrl` is false exactly for a present, non-empty URL. */
  predicate HasPreview(url: Option<string>) {
    url.Some? && url.value != ""
  }

  /** What the screen's `sound` handle refers to. `NoSound` is the initial `null`;
      every other status is a sound object, which JavaScript treats as true in
      `if (sound)`, even once it has been unloaded. `Created` is a sound just
      returned by `createAsync` and not yet started; `Ended` is a loaded sound
      that has played to its end. */
  datatype SoundStatus = NoSound | Created | Playing | Paused | Ended | Unloaded {
    /** The renderer still holds the audio of this sound. */
    predicate Loaded() {
      Created? || Playing? || Paused? || Ended?
    }
  }

  /** One call into the audio renderer: `unloadAsync`, `Audio.Sound.createAsync`,
      `playAsync` and `pauseAsync`. */
  datatype Call = Unload | Create(uri: string) | Start | Pause

  /** How a handler ends: normally, with the "No preview available" alert, or
      by throwing a TypeError when it reads `.preview` of an undefined track. */
  datatype Outcome = Done | NoPreview | TypeError

  datatype State = State(
    playlist: seq<Song>,
    sound: SoundStatus,
    currentSong: Option<Song>,
    currentIndex: nat,
    isFinishSong: bool,
    calls: seq<Call>)

  /** The new state of a handler and how the handler ended. */
  datatype Step = Step(state: State, outcome: Outcome)

  /** The state of a freshly mounted screen. */
  function Initial(): State {
    State([], NoSound, None, 0, false, [])
  }

  // ---------------------------------------------------------------------------
  // The renderer-call trace and the coherence invariant

  /** Whether the renderer holds a loaded sound after the calls `t`: the last
      `Create` or `Unload` decides; `Start` and `Pause` leave it as it was. */
  function Live(t: seq<Call>): bool {
    if t == [] then false
    else match t[|t| - 1]
      case Create(_) => true
      case Unload => false
      case _ => Live(t[..|t| - 1])
  }

  /** No sound is ever created while another one is still loaded. */
  ghost predicate OneSoundAtATime(t: seq<Call>) {
    forall j :: 0 <= j < |t| && t[j].Create? ==> !Live(t[..j])
  }

  /** The screen's sound status agrees with the renderer, and the renderer has
      never held two sounds at once. */
  ghost predicate Coherent(s: State) {
    (s.sound.Loaded() <==> Live(s.calls)) && OneSoundAtATime(s.calls)
  }

  /** Appending one call keeps `OneSoundAtATime` as long as a `Create` comes
      only when nothing is loaded, and moves `Live` as the call says. */
  lemma {:induction false} AppendCall(t: seq<Call>, c: Call)
    requires OneSoundAtATime(t)
    requires c.Create? ==> !Live(t)
    ensures OneSoundAtATime(t + [c])
    ensures Live(t + [c]) == (c.Create? || (!c.Unload? && Live(t)))
  {
    var t' := t + [c];
    assert t'[..|t'| - 1] == t;
    forall j | 0 <= j < |t'| && t'[j].Create?
      ensures !Live(t'[..j])
    {
      if j < |t| {
        assert t'[..j] == t[..j];
        assert t'[j] == t[j];
      }
    }
  }

  lemma CoherentInitial()
    ensures Coherent(Initial())
  {
  }

  // ---------------------------------------------------------------------------
  // The handlers

  /** `if (sound) await sound?.unloadAsync()`: any sound object, even an
      already unloaded one, is told to unload; nothing else changes. */
  function UnloadSound(s: State): (r: State)
    ensures !r.sound.Loaded()
    ensures r.sound == NoSound <==> s.sound == NoSound
    ensures r.calls == if s.sound == NoSound then s.calls else s.calls + [Unload]
    ensures r.(sound := s.sound, calls := s.calls) == s
  {
    if s.sound == NoSound then s
    else s.(sound := Unloaded, calls := s.calls + [Unload])
  }

  lemma UnloadKeepsCoherent(s: State)
    requires Coherent(s)
    ensures Coherent(UnloadSound(s))
  {
    if s.sound != NoSound {
      AppendCall(s.calls, Unload);
    }
  }

  /** `handlePlaySong(songUrl, songIndex)`. Every caller passes an index on the
      playlist. */
  function PlaySong(s: State, songUrl: Option<string>, songIndex: nat): (r: Step)
    requires songIndex < |s.playlist|
    // The alert path: nothing at all changes.
    ensures !HasPreview(songUrl) ==> r == Step(s, NoPreview)
    // Otherwise the chosen track is playing and is the current one ...
    ensures HasPreview(songUrl) ==>
      && r.outcome == Done
      && r.state.sound == Playing
      && r.state.currentIndex == songIndex
      && r.state.currentSong == Some(s.playlist[songIndex])
      && r.state.playlist == s.playlist
      && r.state.isFinishSong == s.isFinishSong
    // ... and the renderer was told to unload the old sound before the new one was created.
    ensures HasPreview(songUrl) ==>
      r.state.calls == UnloadSound(s).calls + [Create(songUrl.value)] + [Start]
  {
    if !HasPreview(songUrl) then Step(s, NoPreview)
    else
      var u := UnloadSound(s);
      Step(u.(sound := Playing,
              currentSong := Some(s.playlist[songIndex]),
              currentIndex := songIndex,
              calls := u.calls + [Create(songUrl.value)] + [Start]),
           Done)
  }

  /** Playing a song keeps the screen coherent, and at the moment the new
      sound is created the renderer holds no other sound. */
  lemma PlaySongKeepsCoherent(s: State, songUrl: Option<string>, songIndex: nat)
    requires Coherent(s) && songIndex < |s.playlist|
    ensures HasPreview(songUrl) ==> !Live(UnloadSound(s).calls)
    ensures Coherent(PlaySong(s, songUrl, songIndex).state)
  {
    if HasPreview(songUrl) {
      var u := UnloadSound(s);
      UnloadKeepsCoherent(s);
      AppendCall(u.calls, Create(songUrl.value));
      AppendCall(u.calls + [Create(songUrl.value)], Start);
    }
  }

  /** The Play button: `handlePlaySong(playlist[0].preview, 0)`. On an empty
      playlist `playlist[0]` is undefined and reading its preview throws before
      the handler runs. */
  function PlayButton(s: State): (r: Step)
    ensures |s.playlist| == 0 ==> r == Step(s, TypeError)
    ensures |s.playlist| > 0 && !HasPreview(s.playlist[0].preview) ==> r == Step(s, NoPreview)
    ensures |s.playlist| > 0 && HasPreview(s.playlist[0].preview) ==>
      && r.outcome == Done
      && r.state.sound == Playing
      && r.state.currentIndex == 0
      && r.state.currentSong == Some(s.playlist[0])
      && r.state.playlist == s.playlist
      && r.state.isFinishSong == s.isFinishSong
      && r.state.calls == UnloadSound(s).calls + [Create(s.playlist[0].preview.value)] + [Start]
  {
    if |s.playlist| == 0 then Step(s, TypeError)
    else PlaySong(s, s.playlist[0].preview, 0)
  }

  /** `handlePauseSong`: with no sound it does nothing; otherwise `pauseAsync`
      is called, which pauses a playing sound and leaves any other as it is. */
  function PauseSong(s: State): (r: State)
    ensures s.sound == NoSound ==> r == s
    ensures r.sound == if s.sound == Playing then Paused else s.sound
    ensures s.sound != NoSound ==> r.calls == s.calls + [Pause]
    ensures r.playlist == s.playlist && r.currentSong == s.currentSong
    ensures r.currentIndex == s.currentIndex && r.isFinishSong == s.isFinishSong
  {
    if s.sound == NoSound then s
    else s.(sound := if s.sound == Playing then Paused else s.sound, calls := s.calls + [Pause])
  }

  lemma PauseKeepsCoherent(s: State)
    requires Coherent(s)
    ensures Coherent(PauseSong(s))
  {
    if s.sound != NoSound {
      AppendCall(s.calls, Pause);
    }
  }

  /** `handleNextSong`: unload, then move to the following track and play it
      if there is one. There is no wrap-around at the end of the playlist. */
  function NextSong(s: State): (r: Step)
    ensures r.state.playlist == s.playlist && r.state.isFinishSong == s.isFinishSong
    ensures r.outcome != TypeError
    // The old sound is unloaded first, whichever branch is taken.
    ensures s.sound != NoSound ==>
      |r.state.calls| > |s.calls| && r.state.calls[..|s.calls| + 1] == s.calls + [Unload]
    ensures s.currentIndex + 1 < |s.playlist| ==>
      var next := s.playlist[s.currentIndex + 1];
      && r.state.currentIndex == s.currentIndex + 1
      && r.state.currentSong == Some(next)
      && (r.outcome == Done <==> HasPreview(next.preview))
      && (r.state.sound == Playing <==> HasPreview(next.preview))
      // Without a preview the handle stays the unloaded sound object (it is never cleared).
      && (!HasPreview(next.preview) ==> r.state.sound == UnloadSound(s).sound)
      // With a preview, the clip of that track is created after a second
      // unload by handlePlaySong; without one, the unload is the only call.
      && (HasPreview(next.preview) ==>
            r.state.calls == UnloadSound(UnloadSound(s)).calls + [Create(next.preview.value)] + [Start])
      && (!HasPreview(next.preview) ==> r.state.calls == UnloadSound(s).calls)
    ensures |s.playlist| <= s.currentIndex + 1 ==>
      && r.outcome == Done
      && r.state.currentIndex == s.currentIndex
      && r.state.currentSong == s.currentSong
      && r.state.sound == (if s.sound == NoSound then NoSound else Unloaded)
      && r.state.calls == UnloadSound(s).calls
  {
    var u := UnloadSound(s);
    var nextSongIndex := s.currentIndex + 1;
    if nextSongIndex < |s.playlist| then
      var nextSong := s.playlist[nextSongIndex];
      PlaySong(u.(currentIndex := nextSongIndex, currentSong := Some(nextSong)), nextSong.preview, nextSongIndex)
    else
      Step(u, Done)
  }

  lemma NextKeepsCoherent(s: State)
    requires Coherent(s)
    ensures Coherent(NextSong(s).state)
  {
    UnloadKeepsCoherent(s);
    var u := UnloadSound(s);
    var n := s.currentIndex + 1;
    if n < |s.playlist| {
      var v := u.(currentIndex := n, currentSong := Some(s.playlist[n]));
      PlaySongKeepsCoherent(v, s.playlist[n].preview, n);
      assert NextSong(s).state == PlaySong(v, s.playlist[n].preview, n).state;
    }
  }

  /** `handlePrevSong`: unload, then move to the preceding track and play it if
      the index stays non-negative. Since replacing the playlist keeps the index,
      the preceding index can lie past the end of a shorter playlist: the index
      and the (undefined) song are still set, and reading `.preview` of the
      undefined track then throws. */
  function PrevSong(s: State): (r: Step)
    ensures r.state.playlist == s.playlist && r.state.isFinishSong == s.isFinishSong
    ensures s.sound != NoSound ==>
      |r.state.calls| > |s.calls| && r.state.calls[..|s.calls| + 1] == s.calls + [Unload]
    ensures s.currentIndex == 0 ==>
      && r.outcome == Done
      && r.state.currentIndex == 0
      && r.state.currentSong == s.currentSong
      && r.state.sound == (if s.sound == NoSound then NoSound else Unloaded)
      && r.state.calls == UnloadSound(s).calls
    ensures 0 < s.currentIndex <= |s.playlist| ==>
      var prev := s.playlist[s.currentIndex - 1];
      && r.state.currentIndex == s.currentIndex - 1
      && r.state.currentSong == Some(prev)
      && (r.outcome == Done <==> HasPreview(prev.preview))
      && r.outcome != TypeError
      && (r.state.sound == Playing <==> HasPreview(prev.preview))
      && (!HasPreview(prev.preview) ==> r.state.sound == UnloadSound(s).sound)
      && (HasPreview(prev.preview) ==>
            r.state.calls == UnloadSound(UnloadSound(s)).calls + [Create(prev.preview.value)] + [Start])
      && (!HasPreview(prev.preview) ==> r.state.calls == UnloadSound(s).calls)
    ensures |s.playlist| < s.currentIndex ==>
      && r.outcome == TypeError
      && r.state.currentIndex == s.currentIndex - 1
      && r.state.currentSong == None
      && r.state.sound == (if s.sound == NoSound then NoSound else Unloaded)
      && r.state.calls == UnloadSound(s).calls
  {
    var u := UnloadSound(s);
    var prevSongIndex := s.currentIndex - 1;
    if prevSongIndex >= 0 then
      if prevSongIndex < |s.playlist| then
        var prevSong := s.playlist[prevSongIndex];
        PlaySong(u.(currentIndex := prevSongIndex, currentSong := Some(prevSong)), prevSong.preview, prevSongIndex)
      else
        Step(u.(currentIndex := prevSongIndex, currentSong := None), TypeError)
    else
      Step(u, Done)
  }

  lemma PrevKeepsCoherent(s: State)
    requires Coherent(s)
    ensures Coherent(PrevSong(s).state)
  {
    UnloadKeepsCoherent(s);
    var u := UnloadSound(s);
    var p := s.currentIndex - 1;
    if 0 <= p < |s.playlist| {
      var v := u.(currentIndex := p, currentSong := Some(s.playlist[p]));
      PlaySongKeepsCoherent(v, s.playlist[p].preview, p);
      assert PrevSong(s).state == PlaySong(v, s.playlist[p].preview, p).state;
    }
  }

  /** `setPlaylist(response.data)`: the fetched list replaces the playlist and
      nothing else changes; in particular the current index is not reset. */
  function SetPlaylist(s: State, list: seq<Song>): (r: State)
    ensures r.playlist == list
    ensures r.(playlist := s.playlist) == s
  {
    s.(playlist := list)
  }

  /** The playback-status callback reporting `didJustFinish` for the sound that
      is playing: the sound has ended and `isFinishSong` is set. */
  function SongFinished(s: State): (r: State)
    requires s.sound == Playing
    ensures r.isFinishSong && r.sound == Ended && r.sound.Loaded()
    ensures r.(isFinishSong := s.isFinishSong, sound := s.sound) == s
  {
    s.(sound := Ended, isFinishSong := true)
  }

  lemma SongFinishedKeepsCoherent(s: State)
    requires Coherent(s) && s.sound == Playing
    ensures Coherent(SongFinished(s))
  {
  }

  /** The effect on `isFinishSong`: a raised flag causes exactly one
      `handleNextSong` and is then cleared; a lowered flag does nothing. */
  function FinishEffect(s: State): (r: State)
    ensures !r.isFinishSong
    ensures !s.isFinishSong ==> r == s
    ensures s.isFinishSong ==> r == NextSong(s).state.(isFinishSong := false)
  {
    if s.isFinishSong then NextSong(s).state.(isFinishSong := false) else s
  }

  lemma FinishEffectKeepsCoherent(s: State)
    requires Coherent(s)
    ensures Coherent(FinishEffect(s))
  {
    if s.isFinishSong {
      NextKeepsCoherent(s);
    }
  }

  // ---------------------------------------------------------------------------
  // Runs of events

  /** Everything that can happen to the screen: the four buttons, a playlist
      arriving from the endpoint, the renderer reporting the end of a song, and
      React running the effect on `isFinishSong`. */
  datatype Event =
    | PlayPressed
    | PausePressed
    | NextPressed
    | BackPressed
    | PlaylistFetched(list: seq<Song>)
    | PlaybackFinished
    | EffectRan

  /** One event. The renderer reports the end of a song only for a sound that
      is playing, so `PlaybackFinished` does nothing in any other state. */
  function Apply(s: State, e: Event): (r: State)
    // Only a fetched list changes the playlist, and the renderer trace only grows.
    ensures r.playlist == if e.PlaylistFetched? then e.list else s.playlist
    ensures s.calls <= r.calls
    // A completion report for a sound that is not playing is dropped.
    ensures e.PlaybackFinished? && s.sound != Playing ==> r == s
  {
    match e
    case PlayPressed => PlayButton(s).state
    case PausePressed => PauseSong(s)
    case NextPressed => NextSong(s).state
    case BackPressed => PrevSong(s).state
    case PlaylistFetched(list) => SetPlaylist(s, list)
    case PlaybackFinished => if s.sound == Playing then SongFinished(s) else s
    case EffectRan => FinishEffect(s)
  }

  /** No event of `es` replaces the playlist. */
  predicate NoFetch(es: seq<Event>)
    decreases |es|
  {
    es == [] || (!es[0].PlaylistFetched? && NoFetch(es[1..]))
  }

  /** The events `es`, in order. */
  function Run(s: State, es: seq<Event>): (r: State)
    ensures es == [] ==> r == s
    ensures s.calls <= r.calls
    ensures NoFetch(es) ==> r.playlist == s.playlist
    decreases |es|
  {
    if es == [] then s else Run(Apply(s, es[0]), es[1..])
  }

  lemma {:induction false} RunConcat(s: State, a: seq<Event>, b: seq<Event>)
    ensures Run(s, a + b) == Run(Run(s, a), b)
    decreases |a|
  {
    if a != [] {
      assert (a + b)[0] == a[0];
      assert (a + b)[1..] == a[1..] + b;
      RunConcat(Apply(s, a[0]), a[1..], b);
    } else {
      assert a + b == b;
    }
  }

  lemma ApplyKeepsCoherent(s: State, e: Event)
    requires Coherent(s)
    ensures Coherent(Apply(s, e))
  {
    match e
    case PlayPressed =>
      if |s.playlist| > 0 {
        PlaySongKeepsCoherent(s, s.playlist[0].preview, 0);
      }
    case PausePressed => PauseKeepsCoherent(s);
    case NextPressed => NextKeepsCoherent(s);
    case BackPressed => PrevKeepsCoherent(s);
    case PlaylistFetched(list) =>
    case PlaybackFinished =>
    case EffectRan => FinishEffectKeepsCoherent(s);
  }

  lemma {:induction false} RunKeepsCoherent(s: State, es: seq<Event>)
    requires Coherent(s)
    ensures Coherent(Run(s, es))
    decreases |es|
  {
    if es != [] {
      ApplyKeepsCoherent(s, es[0]);
      RunKeepsCoherent(Apply(s, es[0]), es[1..]);
    }
  }

  /** In every run of whole handlers, one after another, the screen never
      has the renderer create a sound while another one is still loaded, and
      its `sound` status always agrees with the renderer. */
  lemma OneSoundInEveryRun(es: seq<Event>)
    ensures OneSoundAtATime(Run(Initial(), es).calls)
    ensures Run(Initial(), es).sound.Loaded() <==> Live(Run(Initial(), es).calls)
  {
    CoherentInitial();
    RunKeepsCoherent(Initial(), es);
  }

  // ---------------------------------------------------------------------------
  // The index stays on the playlist

  /** The current index names a track of the current playlist. */
  predicate OnPlaylist(s: State) {
    s.currentIndex < |s.playlist|
  }

  /** Every event except a playlist replacement keeps the index on the
      playlist: next and back only move it to a neighbouring track that
      exists, play moves it to 0. */
  lemma ApplyKeepsOnPlaylist(s: State, e: Event)
    requires OnPlaylist(s) && !e.PlaylistFetched?
    ensures OnPlaylist(Apply(s, e))
  {
  }

  /** Replacing the playlist by one with fewer than `currentIndex` tracks
      leaves the index off the new playlist, after which Back both moves the
      index and throws. */
  lemma ShorterPlaylistThenBack(s: State, list: seq<Song>)
    requires |list| < s.currentIndex
    ensures !OnPlaylist(SetPlaylist(s, list))
    ensures PrevSong(SetPlaylist(s, list)).outcome == TypeError
    ensures !OnPlaylist(PrevSong(SetPlaylist(s, list)).state)
  {
  }

  /** With exactly `currentIndex` tracks the index is also off the new
      playlist, but Back steps onto its last track and does not throw. */
  lemma ExactPlaylistThenBack(s: State, list: seq<Song>)
    requires |list| == s.currentIndex > 0
    ensures !OnPlaylist(SetPlaylist(s, list))
    ensures PrevSong(SetPlaylist(s, list)).outcome != TypeError
    ensures PrevSong(SetPlaylist(s, list)).state.currentSong == Some(list[|list| - 1])
    ensures OnPlaylist(PrevSong(SetPlaylist(s, list)).state)
  {
  }

  /** A run without playlist replacements keeps the index on the playlist. */
  lemma {:induction false} RunKeepsOnPlaylist(s: State, es: seq<Event>)
    requires OnPlaylist(s)
    requires NoFetch(es)
    ensures OnPlaylist(Run(s, es))
    decreases |es|
  {
    if es != [] {
      ApplyKeepsOnPlaylist(s, es[0]);
      RunKeepsOnPlaylist(Apply(s, es[0]), es[1..]);
    }
  }

  // ---------------------------------------------------------------------------
  // Playing a playlist through

  /** `k` songs ending, each followed by the effect on `isFinishSong`. */
  function Finishes(k: nat): (es: seq<Event>)
    ensures |es| == 2 * k
  {
    if k == 0 then [] else Finishes(k - 1) + [PlaybackFinished, EffectRan]
  }

  /** Every track of `list` from `lo` to `hi` (inclusive) has a preview. */
  predicate Playable(list: seq<Song>, lo: nat, hi: nat)
    requires hi < |list|
  {
    forall j :: lo <= j <= hi ==> HasPreview(list[j].preview)
  }

  lemma FinishOnce(s: State)
    ensures Run(s, [PlaybackFinished, EffectRan]) == Apply(Apply(s, PlaybackFinished), EffectRan)
  {
    assert [PlaybackFinished, EffectRan][1..] == [EffectRan];
  }

  /** From a playing track, each completion moves playback to the following
      track, as long as those tracks have previews. */
  lemma {:induction false} PlaysThrough(s: State, k: nat)
    requires s.sound == Playing && !s.isFinishSong
    requires s.currentIndex + k < |s.playlist|
    requires Playable(s.playlist, s.currentIndex + 1, s.currentIndex + k)
    ensures var t := Run(s, Finishes(k));
      && t.playlist == s.playlist
      && t.currentIndex == s.currentIndex + k
      && t.sound == Playing
      && !t.isFinishSong
      && (k > 0 ==> t.currentSong == Some(s.playlist[s.currentIndex + k]))
  {
    if k > 0 {
      PlaysThrough(s, k - 1);
      var t := Run(s, Finishes(k - 1));
      RunConcat(s, Finishes(k - 1), [PlaybackFinished, EffectRan]);
      FinishOnce(t);
      assert HasPreview(s.playlist[t.currentIndex + 1].preview);
    }
  }

  /** The Play button on a playlist of N playable tracks, followed by N - 1
      completions, has played tracks 0 to N - 1 and is playing the last one;
      the N-th completion unloads it and keeps the last track as current (no
      wrap-around), after which no sound is playing. */
  lemma PlaylistPlaysToEnd(s: State)
    requires |s.playlist| > 0 && !s.isFinishSong
    requires Playable(s.playlist, 0, |s.playlist| - 1)
    ensures var n := |s.playlist|;
      var t := Run(PlayButton(s).state, Finishes(n - 1));
      && t.currentIndex == n - 1
      && t.currentSong == Some(s.playlist[n - 1])
      && t.sound == Playing
    ensures var n := |s.playlist|;
      var end := Run(PlayButton(s).state, Finishes(n));
      && end.playlist == s.playlist
      && end.currentIndex == n - 1
      && end.currentSong == Some(s.playlist[n - 1])
      && end.sound == Unloaded
      && !end.isFinishSong
  {
    var n := |s.playlist|;
    var p := PlayButton(s).state;
    assert HasPreview(s.playlist[0].preview);
    PlaysThrough(p, n - 1);
    var t := Run(p, Finishes(n - 1));
    RunConcat(p, Finishes(n - 1), [PlaybackFinished, EffectRan]);
    FinishOnce(t);
  }

  // ---------------------------------------------------------------------------
  // Next and Back undo each other

  /** Next followed by Back returns to the track that was current. */
  lemma NextThenBack(s: State)
    requires s.currentIndex + 1 < |s.playlist|
    ensures var t := PrevSong(NextSong(s).state).state;
      && t.currentIndex == s.currentIndex
      && t.currentSong == Some(s.playlist[s.currentIndex])
      && t.playlist == s.playlist
      && (t.sound == Playing <==> HasPreview(s.playlist[s.currentIndex].preview))
  {
  }

  /** Back followed by Next returns to the track that was current. */
  lemma BackThenNext(s: State)
    requires 0 < s.currentIndex < |s.playlist|
    ensures var t := NextSong(PrevSong(s).state).state;
      && t.currentIndex == s.currentIndex
      && t.currentSong == Some(s.playlist[s.currentIndex])
      && t.playlist == s.playlist
      && (t.sound == Playing <==> HasPreview(s.playlist[s.currentIndex].preview))
  {
  }
}
