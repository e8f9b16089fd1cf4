/** The `HomeScreen` component of app/index.tsx as an object: its five pieces of
    state are fields, and each handler updates them in the order the component
    does. Every method is specified by the function of module Playback that
    states the same handler on values. */
module HomeScreen {
  import opened Playback

  class Screen {
    var playlist: seq<Song>
    var sound: SoundStatus
    var currentSong: Option<Song>
    var currentIndex: nat
    var isFinishSong: bool
    /** The calls made to the audio renderer so far. */
    ghost var calls: seq<Call>

    ghost function State(): Playback.State
      reads this
    {
      Playback.State(playlist, sound, currentSong, currentIndex, isFinishSong, calls)
    }

    ghost predicate Valid()
      reads this
    {
      Coherent(State())
    }

    /** The screen as it is first mounted: empty playlist, no sound, index 0. */
    constructor ()
      ensures Valid() && State() == Initial()
    {
      playlist := [];
      sound := NoSound;
      currentSong := None;
      currentIndex := 0;
      isFinishSong := false;
      calls := [];
      CoherentInitial();
    }

    /** `if (sound) await sound?.unloadAsync()`, which opens play, next and back. */
    method UnloadIfAny()
      requires Valid()
      modifies this
      ensures Valid() && State() == UnloadSound(old(State()))
    {
      UnloadKeepsCoherent(State());
      if sound != NoSound {
        calls := calls + [Unload];
        sound := Unloaded;
      }
    }

    method HandlePlaySong(songUrl: Option<string>, songIndex: nat) returns (outcome: Outcome)
      requires Valid() && songIndex < |playlist|
      modifies this
      ensures Valid()
      ensures Step(State(), outcome) == PlaySong(old(State()), songUrl, songIndex)
    {
      PlaySongKeepsCoherent(State(), songUrl, songIndex);
      if !HasPreview(songUrl) {
        return NoPreview;
      }
      UnloadIfAny();
      calls := calls + [Create(songUrl.value)];
      sound := Created;  // setSound(newSound)
      currentSong := Some(playlist[songIndex]);
      currentIndex := songIndex;
      // newSound.playAsync() starts the sound the screen now holds.
      calls := calls + [Start];
      sound := Playing;
      outcome := Done;
    }

    /** The Play button, which always asks for the first track. */
    method PressPlay() returns (outcome: Outcome)
      requires Valid()
      modifies this
      ensures Valid()
      ensures Step(State(), outcome) == PlayButton(old(State()))
    {
      if |playlist| == 0 {
        // playlist[0] is undefined: reading its preview throws.
        return TypeError;
      }
      outcome := HandlePlaySong(playlist[0].preview, 0);
    }

    method HandlePauseSong()
      requires Valid()
      modifies this
      ensures Valid() && State() == PauseSong(old(State()))
    {
      PauseKeepsCoherent(State());
      if sound != NoSound {
        calls := calls + [Pause];
        if sound == Playing {
          sound := Paused;
        }
      }
    }

    method HandleNextSong() returns (outcome: Outcome)
      requires Valid()
      modifies this
      ensures Valid()
      ensures Step(State(), outcome) == NextSong(old(State()))
    {
      UnloadIfAny();
      var nextSongIndex := currentIndex + 1;
      if nextSongIndex < |playlist| {
        var nextSong := playlist[nextSongIndex];
        currentIndex := nextSongIndex;
        currentSong := Some(nextSong);
        outcome := HandlePlaySong(nextSong.preview, nextSongIndex);
      } else {
        outcome := Done;
      }
    }

    method HandlePrevSong() returns (outcome: Outcome)
      requires Valid()
      modifies this
      ensures Valid()
      ensures Step(State(), outcome) == PrevSong(old(State()))
    {
      UnloadIfAny();
      var prevSongIndex := currentIndex - 1;
      if prevSongIndex >= 0 {
        if prevSongIndex < |playlist| {
          var prevSong := playlist[prevSongIndex];
          currentIndex := prevSongIndex;
          currentSong := Some(prevSong);
          outcome := HandlePlaySong(prevSong.preview, prevSongIndex);
        } else {
          // playlist[prevSongIndex] is undefined: index and song are set,
          // then reading the preview throws.
          currentIndex := prevSongIndex;
          currentSong := None;
          outcome := TypeError;
        }
      } else {
        outcome := Done;
      }
    }

    /** `setPlaylist(response.data)` with whatever list the endpoint returned. */
    method ReplacePlaylist(list: seq<Song>)
      requires Valid()
      modifies this
      ensures Valid() && State() == SetPlaylist(old(State()), list)
    {
      playlist := list;
    }

    /** The playback-status callback of the playing sound, on `didJustFinish`. */
    method OnPlaybackFinished()
      requires Valid() && sound == Playing
      modifies this
      ensures Valid() && State() == SongFinished(old(State()))
    {
      sound := Ended;
      isFinishSong := true;
    }

    /** The effect that React runs when `isFinishSong` changes. */
    method RunFinishEffect()
      requires Valid()
      modifies this
      ensures Valid() && State() == FinishEffect(old(State()))
    {
      if isFinishSong {
        var ignored := HandleNextSong();
        isFinishSong := false;
      }
    }
  }
}
