/**
 * The `MusicPlayer` object: its fields and the methods that update them in
 * place, each calling the others as the original methods do. `State()`
 * reads the fields as a `Playback.Session`, and every command method is
 * proved to move that session exactly as the matching `Playback` command
 * does; the helpers that render the list, mark the playing item and start
 * the progress timer state the fields they set and keep the rest.
 */
module MusicPlayer {
  import opened Wrappers
  import opened Catalog
  import opened Views
  import Playback

  class Player {
    const playlist: seq<Track>
    var currentIndex: int
    var playMode: Playback.Mode
    var isPlaying: bool
    var volume: int
    var previousVolume: Option<int>
    var progressTimer: Playback.Timer
    var shown: seq<Track>
    var highlight: seq<bool>
    var searchPanel: Option<SearchOutcome>
    var activeView: Option<string>

    ghost function State(): Playback.Session
      reads this
    {
      Playback.Session(currentIndex, playMode, isPlaying, volume, previousVolume, progressTimer,
                       shown, highlight, searchPanel, activeView)
    }

    ghost predicate Valid()
      reads this
    {
      Playback.Valid(playlist, State())
    }

    /** The catalog loaded, nothing selected, full volume, every track listed. */
    constructor ()
      ensures Valid() && playlist == Tracks()
      ensures State() == Playback.Initial(Tracks())
    {
      playlist := Tracks();
      currentIndex := -1;
      playMode := Playback.Normal;
      isPlaying := false;
      volume := 100;
      previousVolume := None;
      progressTimer := Playback.NoTimer;
      searchPanel := None;
      activeView := None;
      new;
      RenderPlaylist(playlist);
    }

    /** `renderPlaylist`: one unmarked item per song, in order. */
    method RenderPlaylist(songs: seq<Track>)
      requires forall t :: t in songs ==> t in playlist
      modifies this
      ensures shown == songs && |highlight| == |songs|
      ensures forall k :: 0 <= k < |highlight| ==> !highlight[k]
      ensures State().(shown := old(shown), highlight := old(highlight)) == old(State())
    {
      shown := [];
      highlight := [];
      var k := 0;
      while k < |songs|
        invariant 0 <= k <= |songs|
        invariant shown == songs[..k] && |highlight| == k
        invariant forall j :: 0 <= j < k ==> !highlight[j]
        invariant State().(shown := old(shown), highlight := old(highlight)) == old(State())
      {
        shown := shown + [songs[k]];
        highlight := highlight + [false];
        k := k + 1;
      }
      assert shown == songs;
    }

    /** `updatePlaylistHighlight`: each displayed item is marked exactly when its position is `currentIndex`. */
    method UpdatePlaylistHighlight()
      requires |highlight| == |shown|
      modifies this
      ensures highlight == Highlight(|shown|, currentIndex)
      ensures State().(highlight := old(highlight)) == old(State())
    {
      var k := 0;
      while k < |highlight|
        invariant 0 <= k <= |highlight| == |shown|
        invariant forall j :: 0 <= j < k ==> (highlight[j] <==> j == currentIndex)
        invariant State().(highlight := old(highlight)) == old(State())
      {
        highlight := highlight[k := k == currentIndex];
        k := k + 1;
      }
    }

    /** `togglePlay` */
    method TogglePlay()
      requires Valid()
      modifies this
      ensures Valid() && State() == Playback.TogglePlay(playlist, old(State()))
    {
      if currentIndex == -1 {
        PlaySong(0);
      } else if isPlaying {
        Pause();
      } else {
        Play();
      }
    }

    /** `playSong` */
    method PlaySong(index: int)
      requires Valid()
      modifies this
      ensures Valid() && State() == Playback.PlaySong(playlist, old(State()), index)
    {
      if index < 0 || index >= |playlist| {
        return;
      }
      currentIndex := index;
      Play();
      UpdatePlaylistHighlight();
    }

    /** `play` */
    method Play()
      requires Playback.Settled(playlist, State()) && 0 <= currentIndex < |playlist|
      modifies this
      ensures Valid() && State() == Playback.Play(playlist, old(State()))
    {
      isPlaying := true;
      SimulateProgress();
    }

    /** `simulateProgress`: drops the running interval, if any, and starts one from 0 for the current track. */
    method SimulateProgress()
      requires 0 <= currentIndex < |playlist|
      modifies this
      ensures State().(progressTimer := old(progressTimer)) == old(State())
      ensures progressTimer == Playback.Ticking(0, playlist[currentIndex].duration)
    {
      if progressTimer != Playback.NoTimer {
        progressTimer := Playback.NoTimer;
      }
      progressTimer := Playback.Ticking(0, playlist[currentIndex].duration);
    }

    /** `pause` */
    method Pause()
      requires Valid()
      modifies this
      ensures Valid() && State() == Playback.Pause(playlist, old(State()))
    {
      isPlaying := false;
      if progressTimer != Playback.NoTimer {
        progressTimer := Playback.NoTimer;
      }
    }

    /** `playPrevious` */
    method PlayPrevious()
      requires Valid()
      modifies this
      ensures Valid() && State() == Playback.PlayPrevious(playlist, old(State()))
    {
      if currentIndex > 0 {
        PlaySong(currentIndex - 1);
      } else if playMode == Playback.Repeat {
        PlaySong(|playlist| - 1);
      }
    }

    /** `playNext`, with `pick` the position `Math.random()` draws in shuffle mode. */
    method PlayNext(pick: nat)
      requires Valid() && pick < |playlist|
      modifies this
      ensures Valid() && State() == Playback.PlayNext(playlist, old(State()), pick)
    {
      if playMode == Playback.Shuffle {
        PlaySong(pick);
      } else if currentIndex < |playlist| - 1 {
        PlaySong(currentIndex + 1);
      } else if playMode == Playback.Repeat {
        PlaySong(0);
      }
    }

    /** `handleSongEnd` */
    method HandleSongEnd(pick: nat)
      requires Valid() && pick < |playlist|
      requires playMode == Playback.Repeat ==> 0 <= currentIndex
      modifies this
      ensures Valid() && State() == Playback.HandleSongEnd(playlist, old(State()), pick)
    {
      if playMode == Playback.Repeat {
        Play();
      } else {
        PlayNext(pick);
      }
    }

    /** One callback of the interval `simulateProgress` starts. */
    method Tick(pick: nat)
      requires Valid() && pick < |playlist|
      modifies this
      ensures Valid() && State() == Playback.Tick(playlist, old(State()), pick)
    {
      match progressTimer
      case NoTimer =>
      case Ticking(seconds, total) =>
        if seconds >= total {
          HandleSongEnd(pick);
          progressTimer := Playback.NoTimer;
        } else {
          progressTimer := Playback.Ticking(seconds + 1, total);
        }
    }

    /** `setVolume`, with the clicked position already turned into a percentage. */
    method SetVolume(percent: int)
      requires Valid()
      modifies this
      ensures Valid() && State() == Playback.SetVolume(playlist, old(State()), percent)
    {
      if percent < 0 {
        volume := 0;
      } else if percent > 100 {
        volume := 100;
      } else {
        volume := percent;
      }
    }

    /** `toggleMute` */
    method ToggleMute()
      requires Valid()
      modifies this
      ensures Valid() && State() == Playback.ToggleMute(playlist, old(State()))
    {
      if volume > 0 {
        previousVolume := Some(volume);
        volume := 0;
      } else if previousVolume.Some? && previousVolume.value != 0 {
        // `this.previousVolume || 100` treats a remembered 0 as absent
        // too; the invariant keeps a remembered volume positive.
        volume := previousVolume.value;
      } else {
        volume := 100;
      }
    }

    /** `updateVolumeIcon`: the icon for the current volume. */
    method VolumeIcon() returns (icon: Playback.VolumeIcon)
      ensures icon == Playback.IconFor(volume)
    {
      if volume == 0 {
        icon := Playback.Muted;
      } else if volume < 50 {
        icon := Playback.Low;
      } else {
        icon := Playback.High;
      }
    }

    /** `toggleShuffle` */
    method ToggleShuffle()
      requires Valid()
      modifies this
      ensures Valid() && State() == Playback.ToggleShuffle(playlist, old(State()))
    {
      if playMode == Playback.Shuffle {
        playMode := Playback.Normal;
      } else {
        playMode := Playback.Shuffle;
      }
    }

    /** `toggleRepeat` */
    method ToggleRepeat()
      requires Valid()
      modifies this
      ensures Valid() && State() == Playback.ToggleRepeat(playlist, old(State()))
    {
      if playMode == Playback.Repeat {
        playMode := Playback.Normal;
      } else {
        playMode := Playback.Repeat;
      }
    }

    /** `filterPlaylist` */
    method FilterPlaylist(genre: string)
      requires Valid()
      modifies this
      ensures Valid() && State() == Playback.FilterPlaylist(playlist, old(State()), genre)
    {
      var songs := if genre == AllGenres then playlist else FilterByGenre(playlist, genre);
      RenderPlaylist(songs);
    }

    /** `performSearch`, with `input` the text of the search box. */
    method PerformSearch(input: string)
      requires Valid()
      modifies this
      ensures Valid() && State() == Playback.PerformSearch(playlist, old(State()), input)
    {
      searchPanel := Some(Search(playlist, input));
      assert State() == Playback.PerformSearch(playlist, old(State()), input);
    }

    /** The click handler `renderPlaylist` attaches to the item at `position`. */
    method ClickPlaylistItem(position: nat)
      requires Valid() && position < |shown|
      modifies this
      ensures Valid() && State() == Playback.ClickPlaylistItem(playlist, old(State()), position)
    {
      var song := shown[position];
      var realIndex := CatalogIndex(playlist, song);
      PlaySong(realIndex);
    }

    /** The click handler `renderSearchResults` attaches to the result at `position`. */
    method ClickSearchResult(position: nat)
      requires Valid() && searchPanel.Some? && searchPanel.value.Found?
      requires position < |searchPanel.value.songs|
      modifies this
      ensures Valid() && State() == Playback.ClickSearchResult(playlist, old(State()), position)
    {
      var song := searchPanel.value.songs[position];
      var realIndex := CatalogIndex(playlist, song);
      PlaySong(realIndex);
      SwitchView("player");
    }

    /** `switchView` */
    method SwitchView(view: string)
      requires Valid()
      modifies this
      ensures Valid() && State() == Playback.SwitchView(playlist, old(State()), view)
    {
      activeView := Some(view);
    }
  }
}
