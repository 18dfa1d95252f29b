/**
 * The playback state machine of `MusicPlayer` as values. A `Session`
 * holds every field the player's commands change, the displayed lists
 * included; each command is a function from the session before it to the
 * session after it, and each keeps the invariant `Valid`.
 *
 * `setInterval`/`clearInterval` become the `progressTimer` field: one
 * callback of the interval is the `Tick` command. `Math.random()` in
 * shuffle mode becomes the `pick` argument.
 */
module Playback {
  import opened Wrappers
  import opened Catalog
  import opened Views

  datatype Mode = Normal | Shuffle | Repeat

  /**
   * The simulated progress interval: none, or the one live interval with
   * its closure's seconds counter and the track length it captured.
   */
  datatype Timer = NoTimer | Ticking(seconds: nat, total: nat)

  datatype Session = Session(
    currentIndex: int,                   // -1: nothing selected yet
    playMode: Mode,
    isPlaying: bool,
    volume: int,
    previousVolume: Option<int>,         // None: never muted
    progressTimer: Timer,
    shown: seq<Track>,                   // the items of the playlist panel
    highlight: seq<bool>,                // which of them carry the "playing" mark
    searchPanel: Option<SearchOutcome>,  // None: as the page was loaded
    activeView: Option<string>)          // None: as the page was loaded

  /** Everything the invariant says except about the timer. */
  predicate Settled(playlist: seq<Track>, s: Session)
  {
    && (s.currentIndex == -1 || 0 <= s.currentIndex < |playlist|)
    && 0 <= s.volume <= 100
    && (s.previousVolume.Some? ==> 0 < s.previousVolume.value <= 100)
    && |s.highlight| == |s.shown|
    && (forall t :: t in s.shown ==> t in playlist)
    && (s.searchPanel.Some? && s.searchPanel.value.Found? ==>
          forall t :: t in s.searchPanel.value.songs ==> t in playlist)
  }

  /** A live timer belongs to the playing track and never counts past its length. */
  predicate TimerValid(playlist: seq<Track>, s: Session)
  {
    s.progressTimer.Ticking? ==>
      && s.isPlaying
      && 0 <= s.currentIndex < |playlist|
      && s.progressTimer.total == playlist[s.currentIndex].duration
      && s.progressTimer.seconds <= s.progressTimer.total
  }

  predicate Valid(playlist: seq<Track>, s: Session)
  {
    Settled(playlist, s) && TimerValid(playlist, s)
  }

  /** The state the constructor leaves: nothing selected, full volume, the whole playlist shown. */
  function Initial(playlist: seq<Track>): (s: Session)
    ensures Valid(playlist, s)
    ensures s.currentIndex == -1 && !s.isPlaying && s.progressTimer == NoTimer
    ensures s.playMode == Normal && s.volume == 100 && s.previousVolume == None
    ensures s.shown == playlist && forall k :: 0 <= k < |s.highlight| ==> !s.highlight[k]
    ensures s.searchPanel == None && s.activeView == None
  {
    Session(-1, Normal, false, 100, None, NoTimer, playlist,
            seq(|playlist|, _ => false), None, None)
  }

  /**
   * `play`: marks the session playing and (through `simulateProgress`)
   * replaces any timer by a fresh one counting from 0 for the current track.
   */
  function Play(playlist: seq<Track>, s: Session): (r: Session)
    requires Settled(playlist, s) && 0 <= s.currentIndex < |playlist|
    ensures Valid(playlist, r)
    ensures r.isPlaying && r.progressTimer == Ticking(0, playlist[s.currentIndex].duration)
    ensures r.(isPlaying := s.isPlaying, progressTimer := s.progressTimer) == s
  {
    s.(isPlaying := true, progressTimer := Ticking(0, playlist[s.currentIndex].duration))
  }

  /** `pause`: not playing, and no timer left running. */
  function Pause(playlist: seq<Track>, s: Session): (r: Session)
    requires Valid(playlist, s)
    ensures Valid(playlist, r)
    ensures !r.isPlaying && r.progressTimer == NoTimer
    ensures r.(isPlaying := s.isPlaying, progressTimer := s.progressTimer) == s
  {
    s.(isPlaying := false, progressTimer := NoTimer)
  }

  /**
   * `playSong`: an index inside the playlist becomes current and starts
   * from 0, and the displayed item at that POSITION is marked; any other
   * index changes nothing.
   */
  function PlaySong(playlist: seq<Track>, s: Session, index: int): (r: Session)
    requires Valid(playlist, s)
    ensures Valid(playlist, r)
    ensures 0 <= index < |playlist| ==>
              && r.currentIndex == index && r.isPlaying
              && r.progressTimer == Ticking(0, playlist[index].duration)
              && r.highlight == Highlight(|s.shown|, index)
              && r.(currentIndex := s.currentIndex, isPlaying := s.isPlaying,
                    progressTimer := s.progressTimer, highlight := s.highlight) == s
    ensures !(0 <= index < |playlist|) ==> r == s
  {
    if index < 0 || index >= |playlist| then s
    else Play(playlist, s.(currentIndex := index)).(highlight := Highlight(|s.shown|, index))
  }

  /**
   * `togglePlay`: with nothing selected, the first track; otherwise the
   * playing flag flips on the same track, and resuming restarts the
   * progress count from 0.
   */
  function TogglePlay(playlist: seq<Track>, s: Session): (r: Session)
    requires Valid(playlist, s)
    ensures Valid(playlist, r)
    ensures s.currentIndex == -1 ==> r == PlaySong(playlist, s, 0)
    ensures s.currentIndex != -1 ==>
              && r.currentIndex == s.currentIndex
              && r.isPlaying == !s.isPlaying
              && r.progressTimer == (if r.isPlaying then Ticking(0, playlist[s.currentIndex].duration) else NoTimer)
              && r.(isPlaying := s.isPlaying, progressTimer := s.progressTimer) == s
  {
    if s.currentIndex == -1 then PlaySong(playlist, s, 0)
    else if s.isPlaying then Pause(playlist, s)
    else Play(playlist, s)
  }

  /**
   * `playPrevious`: one position back; from the first position (or from
   * nothing selected) only repeat mode wraps to the last track. Shuffle
   * mode steps back like normal mode.
   */
  function PlayPrevious(playlist: seq<Track>, s: Session): (r: Session)
    requires Valid(playlist, s)
    ensures Valid(playlist, r)
    ensures s.currentIndex > 0 ==> r == PlaySong(playlist, s, s.currentIndex - 1)
    ensures s.currentIndex <= 0 && s.playMode == Repeat ==> r == PlaySong(playlist, s, |playlist| - 1)
    ensures s.currentIndex <= 0 && s.playMode != Repeat ==> r == s
  {
    if s.currentIndex > 0 then PlaySong(playlist, s, s.currentIndex - 1)
    else if s.playMode == Repeat then PlaySong(playlist, s, |playlist| - 1)
    else s
  }

  /**
   * `playNext`: in shuffle mode the randomly drawn position `pick` (the
   * current one included); otherwise one position on (so nothing selected
   * goes to the first track), and past the last track repeat mode wraps
   * to the first while normal mode stays where it is.
   */
  function PlayNext(playlist: seq<Track>, s: Session, pick: nat): (r: Session)
    requires Valid(playlist, s) && pick < |playlist|
    ensures Valid(playlist, r)
    ensures s.playMode == Shuffle ==> r == PlaySong(playlist, s, pick)
    ensures s.playMode != Shuffle && s.currentIndex < |playlist| - 1 ==>
              r == PlaySong(playlist, s, s.currentIndex + 1)
    ensures s.playMode == Repeat && s.currentIndex == |playlist| - 1 ==> r == PlaySong(playlist, s, 0)
    ensures s.playMode == Normal && s.currentIndex == |playlist| - 1 ==> r == s
  {
    if s.playMode == Shuffle then PlaySong(playlist, s, pick)
    else if s.currentIndex < |playlist| - 1 then PlaySong(playlist, s, s.currentIndex + 1)
    else if s.playMode == Repeat then PlaySong(playlist, s, 0)
    else s
  }

  /**
   * `handleSongEnd`: repeat mode plays the same track again from 0; the
   * other modes move on as `playNext` does.
   */
  function HandleSongEnd(playlist: seq<Track>, s: Session, pick: nat): (r: Session)
    requires Valid(playlist, s) && pick < |playlist|
    requires s.playMode == Repeat ==> 0 <= s.currentIndex
    ensures Valid(playlist, r)
    ensures s.playMode == Repeat ==>
              r.isPlaying && r.progressTimer == Ticking(0, playlist[s.currentIndex].duration)
              && r.(isPlaying := s.isPlaying, progressTimer := s.progressTimer) == s
    ensures s.playMode != Repeat ==> r == PlayNext(playlist, s, pick)
  {
    if s.playMode == Repeat then Play(playlist, s) else PlayNext(playlist, s, pick)
  }

  /**
   * One callback of the progress interval. Below the captured length it
   * counts one second. At the length it runs `handleSongEnd` and THEN
   * clears `this.progressTimer`, which by then is the timer that
   * `handleSongEnd` may just have started: no timer survives a song end.
   */
  function Tick(playlist: seq<Track>, s: Session, pick: nat): (r: Session)
    requires Valid(playlist, s) && pick < |playlist|
    ensures Valid(playlist, r)
    ensures s.progressTimer == NoTimer ==> r == s
    ensures s.progressTimer.Ticking? && s.progressTimer.seconds < s.progressTimer.total ==>
              r == s.(progressTimer := Ticking(s.progressTimer.seconds + 1, s.progressTimer.total))
    ensures s.progressTimer.Ticking? && s.progressTimer.seconds >= s.progressTimer.total ==>
              r == HandleSongEnd(playlist, s, pick).(progressTimer := NoTimer)
  {
    match s.progressTimer
    case NoTimer => s
    case Ticking(seconds, total) =>
      if seconds >= total then HandleSongEnd(playlist, s, pick).(progressTimer := NoTimer)
      else s.(progressTimer := Ticking(seconds + 1, total))
  }

  /** `toggleShuffle`: shuffle off goes to normal; any other mode (repeat too) goes to shuffle. */
  function ToggleShuffle(playlist: seq<Track>, s: Session): (r: Session)
    requires Valid(playlist, s)
    ensures Valid(playlist, r)
    ensures r.playMode == (if s.playMode == Shuffle then Normal else Shuffle)
    ensures r.(playMode := s.playMode) == s
  {
    s.(playMode := if s.playMode == Shuffle then Normal else Shuffle)
  }

  /** `toggleRepeat`: repeat off goes to normal; any other mode (shuffle too) goes to repeat. */
  function ToggleRepeat(playlist: seq<Track>, s: Session): (r: Session)
    requires Valid(playlist, s)
    ensures Valid(playlist, r)
    ensures r.playMode == (if s.playMode == Repeat then Normal else Repeat)
    ensures r.(playMode := s.playMode) == s
  {
    s.(playMode := if s.playMode == Repeat then Normal else Repeat)
  }

  /**
   * `setVolume`, given the clicked position as an integer percentage: the
   * volume is that percentage clamped to [0, 100]; the remembered volume
   * is left alone.
   */
  function SetVolume(playlist: seq<Track>, s: Session, percent: int): (r: Session)
    requires Valid(playlist, s)
    ensures Valid(playlist, r)
    ensures 0 <= r.volume <= 100
    ensures 0 <= percent <= 100 ==> r.volume == percent
    ensures percent < 0 ==> r.volume == 0
    ensures percent > 100 ==> r.volume == 100
    ensures r.(volume := s.volume) == s
  {
    s.(volume := if percent < 0 then 0 else if percent > 100 then 100 else percent)
  }

  /**
   * `toggleMute`: a sounding volume is remembered and set to 0; a silent
   * one comes back as the remembered volume, or 100 when none was
   * remembered (`this.previousVolume || 100`).
   */
  function ToggleMute(playlist: seq<Track>, s: Session): (r: Session)
    requires Valid(playlist, s)
    ensures Valid(playlist, r)
    ensures s.volume > 0 ==> r.volume == 0 && r.previousVolume == Some(s.volume)
    ensures s.volume == 0 ==>
              r.volume == (if s.previousVolume.Some? then s.previousVolume.value else 100)
              && r.previousVolume == s.previousVolume
    ensures r.(volume := s.volume, previousVolume := s.previousVolume) == s
  {
    if s.volume > 0 then s.(previousVolume := Some(s.volume), volume := 0)
    // `this.previousVolume || 100`: JavaScript also treats a remembered 0 as
    // absent, which the invariant already rules out.
    else s.(volume := if s.previousVolume.Some? && s.previousVolume.value != 0
                      then s.previousVolume.value else 100)
  }

  /** The three volume icons. */
  datatype VolumeIcon = Muted | Low | High

  /** `updateVolumeIcon`: muted at 0, low below 50, high from 50 on. */
  function IconFor(volume: int): (icon: VolumeIcon)
    ensures icon == Muted <==> volume == 0
    ensures icon == High <==> volume >= 50
  {
    if volume == 0 then Muted else if volume < 50 then Low else High
  }

  /**
   * `filterPlaylist`: the playlist panel is re-rendered with the
   * selection; its fresh items carry no "playing" mark.
   */
  function FilterPlaylist(playlist: seq<Track>, s: Session, genre: string): (r: Session)
    requires Valid(playlist, s)
    ensures Valid(playlist, r)
    ensures r.shown == FilterByGenre(playlist, genre)
    ensures forall k :: 0 <= k < |r.highlight| ==> !r.highlight[k]
    ensures r.(shown := s.shown, highlight := s.highlight) == s
  {
    var songs := FilterByGenre(playlist, genre);
    s.(shown := songs, highlight := seq(|songs|, _ => false))
  }

  /** `performSearch`: the search panel shows the outcome for the input. */
  function PerformSearch(playlist: seq<Track>, s: Session, input: string): (r: Session)
    requires Valid(playlist, s)
    ensures Valid(playlist, r)
    ensures r.searchPanel == Some(Search(playlist, input))
    ensures r.(searchPanel := s.searchPanel) == s
  {
    s.(searchPanel := Some(Search(playlist, input)))
  }

  /** `switchView`: the named panel becomes the active one. */
  function SwitchView(playlist: seq<Track>, s: Session, view: string): (r: Session)
    requires Valid(playlist, s)
    ensures Valid(playlist, r)
    ensures r.activeView == Some(view) && r.(activeView := s.activeView) == s
  {
    s.(activeView := Some(view))
  }

  /**
   * A click on an item of the playlist panel plays the catalog track that
   * item shows, found by `indexOf`; the active panel stays.
   */
  function ClickPlaylistItem(playlist: seq<Track>, s: Session, position: nat): (r: Session)
    requires Valid(playlist, s) && position < |s.shown|
    ensures Valid(playlist, r)
    ensures 0 <= r.currentIndex < |playlist| && playlist[r.currentIndex] == s.shown[position]
    ensures r.isPlaying && r.progressTimer == Ticking(0, s.shown[position].duration)
    ensures r.highlight == Highlight(|s.shown|, r.currentIndex)
    ensures r.(currentIndex := s.currentIndex, isPlaying := s.isPlaying,
               progressTimer := s.progressTimer, highlight := s.highlight) == s
  {
    PlaySong(playlist, s, CatalogIndex(playlist, s.shown[position]))
  }

  /**
   * A click on a search result plays the catalog track it shows and then
   * switches to the player panel.
   */
  function ClickSearchResult(playlist: seq<Track>, s: Session, position: nat): (r: Session)
    requires Valid(playlist, s)
    requires s.searchPanel.Some? && s.searchPanel.value.Found?
    requires position < |s.searchPanel.value.songs|
    ensures Valid(playlist, r)
    ensures 0 <= r.currentIndex < |playlist|
    ensures playlist[r.currentIndex] == s.searchPanel.value.songs[position]
    ensures r.isPlaying && r.progressTimer == Ticking(0, s.searchPanel.value.songs[position].duration)
    ensures r.activeView == Some("player")
    ensures r.highlight == Highlight(|s.shown|, r.currentIndex)
    ensures r.(currentIndex := s.currentIndex, isPlaying := s.isPlaying, progressTimer := s.progressTimer,
               highlight := s.highlight, activeView := s.activeView) == s
  {
    var song := s.searchPanel.value.songs[position];
    SwitchView(playlist, PlaySong(playlist, s, CatalogIndex(playlist, song)), "player")
  }
}
