/**
 * Properties of the playback commands over several steps: runs of the
 * progress interval, navigation back and forth, the mode and mute
 * toggles, and the "playing" mark under a genre filter.
 */
module PlaybackProperties {
  import opened Wrappers
  import opened Catalog
  import opened Views
  import opened Playback

  /** `n` callbacks of the progress interval, with `pick` as every random draw. */
  function TickN(playlist: seq<Track>, s: Session, n: nat, pick: nat): (r: Session)
    requires Valid(playlist, s) && pick < |playlist|
    ensures Valid(playlist, r)
    ensures s.progressTimer == NoTimer ==> r == s
    decreases n
  {
    if n == 0 then s else TickN(playlist, Tick(playlist, s, pick), n - 1, pick)
  }

  /** Callbacks compose: `a` of them and then `b` more are `a + b` of them. */
  lemma {:induction false} TickNAdd(playlist: seq<Track>, s: Session, a: nat, b: nat, pick: nat)
    requires Valid(playlist, s) && pick < |playlist|
    ensures TickN(playlist, s, a + b, pick) == TickN(playlist, TickN(playlist, s, a, pick), b, pick)
    decreases a
  {
    if a > 0 {
      TickNAdd(playlist, Tick(playlist, s, pick), a - 1, b, pick);
    }
  }

  /** Before the track's length is reached, each callback counts one second and changes nothing else. */
  lemma {:induction false} TicksAdvance(playlist: seq<Track>, s: Session, n: nat, pick: nat)
    requires Valid(playlist, s) && pick < |playlist|
    requires s.progressTimer.Ticking? && s.progressTimer.seconds + n <= s.progressTimer.total
    ensures TickN(playlist, s, n, pick)
         == s.(progressTimer := Ticking(s.progressTimer.seconds + n, s.progressTimer.total))
    decreases n
  {
    if n > 0 {
      var next := Tick(playlist, s, pick);
      assert next == s.(progressTimer := Ticking(s.progressTimer.seconds + 1, s.progressTimer.total));
      TicksAdvance(playlist, next, n - 1, pick);
    }
  }

  /**
   * A track started from 0 reaches its end handling exactly at the callback
   * after its length in seconds: `duration` callbacks count up to it, the
   * next one runs `handleSongEnd` and stops every timer.
   */
  lemma SongEndAfterDuration(playlist: seq<Track>, s: Session, pick: nat)
    requires Valid(playlist, s) && pick < |playlist|
    requires 0 <= s.currentIndex < |playlist|
    ensures var started := Play(playlist, s);
            var d := playlist[s.currentIndex].duration;
            && TickN(playlist, started, d, pick) == started.(progressTimer := Ticking(d, d))
            && TickN(playlist, started, d + 1, pick)
               == HandleSongEnd(playlist, started.(progressTimer := Ticking(d, d)), pick).(progressTimer := NoTimer)
  {
    var started := Play(playlist, s);
    var d := playlist[s.currentIndex].duration;
    TicksAdvance(playlist, started, d, pick);
    TickNAdd(playlist, started, d, 1, pick);
  }

  /**
   * The end handling starts a new interval (in `play`) and the callback
   * then clears `this.progressTimer`, which is that new interval: after a
   * song end no timer is left, yet the session still counts as playing
   * whenever a track was started.
   */
  lemma SongEndStopsTimer(playlist: seq<Track>, s: Session, pick: nat)
    requires Valid(playlist, s) && pick < |playlist|
    requires s.progressTimer.Ticking? && s.progressTimer.seconds >= s.progressTimer.total
    ensures Tick(playlist, s, pick).progressTimer == NoTimer
    ensures Tick(playlist, s, pick).isPlaying
  {
  }

  /** Without a timer, callbacks change nothing. */
  lemma {:induction false} NoTimerIsStill(playlist: seq<Track>, s: Session, n: nat, pick: nat)
    requires Valid(playlist, s) && pick < |playlist| && s.progressTimer == NoTimer
    ensures TickN(playlist, s, n, pick) == s
    decreases n
  {
    if n > 0 {
      NoTimerIsStill(playlist, Tick(playlist, s, pick), n - 1, pick);
    }
  }

  /**
   * In repeat mode a started track does not loop: after its length plus
   * one callback the session is the started one with no timer, and it
   * stays so however many callbacks follow.
   */
  lemma RepeatStopsAfterOneEnd(playlist: seq<Track>, s: Session, n: nat, pick: nat)
    requires Valid(playlist, s) && pick < |playlist|
    requires 0 <= s.currentIndex < |playlist| && s.playMode == Repeat
    ensures var started := Play(playlist, s);
            TickN(playlist, started, playlist[s.currentIndex].duration + 1 + n, pick)
              == started.(progressTimer := NoTimer)
  {
    var started := Play(playlist, s);
    var d := playlist[s.currentIndex].duration;
    SongEndAfterDuration(playlist, s, pick);
    TickNAdd(playlist, started, d + 1, n, pick);
    NoTimerIsStill(playlist, started.(progressTimer := NoTimer), n, pick);
  }

  /**
   * In normal mode the end of a track that is not the last one selects
   * and marks the next track, but leaves no timer running for it: automatic
   * advance goes one track and no further.
   */
  lemma NormalEndAdvancesOnce(playlist: seq<Track>, s: Session, n: nat, pick: nat)
    requires Valid(playlist, s) && pick < |playlist|
    requires 0 <= s.currentIndex < |playlist| - 1 && s.playMode == Normal
    ensures var started := Play(playlist, s);
            var after := TickN(playlist, started, playlist[s.currentIndex].duration + 1 + n, pick);
            && after.currentIndex == s.currentIndex + 1
            && after.isPlaying && after.progressTimer == NoTimer
            && after.highlight == Highlight(|s.shown|, s.currentIndex + 1)
  {
    var started := Play(playlist, s);
    var d := playlist[s.currentIndex].duration;
    SongEndAfterDuration(playlist, s, pick);
    TickNAdd(playlist, started, d + 1, n, pick);
    var ended := TickN(playlist, started, d + 1, pick);
    assert ended.progressTimer == NoTimer;
    NoTimerIsStill(playlist, ended, n, pick);
  }

  /** Pausing and resuming a track keeps the track but restarts its progress from 0. */
  lemma ResumeRestartsProgress(playlist: seq<Track>, s: Session)
    requires Valid(playlist, s) && s.isPlaying && s.progressTimer.Ticking?
    ensures TogglePlay(playlist, TogglePlay(playlist, s))
         == s.(progressTimer := Ticking(0, s.progressTimer.total))
  {
  }

  /** Of two song selections in a row only the second one shows. */
  lemma PlaySongLastWins(playlist: seq<Track>, s: Session, i: int, j: int)
    requires Valid(playlist, s) && 0 <= j < |playlist|
    ensures PlaySong(playlist, PlaySong(playlist, s, i), j) == PlaySong(playlist, s, j)
  {
  }

  /** In repeat mode "previous" undoes "next", wrap-around at either end included. */
  lemma PreviousUndoesNextInRepeat(playlist: seq<Track>, s: Session, pick: nat)
    requires Valid(playlist, s) && pick < |playlist|
    requires s.playMode == Repeat && 0 <= s.currentIndex
    ensures PlayPrevious(playlist, PlayNext(playlist, s, pick)) == PlaySong(playlist, s, s.currentIndex)
  {
    var next := PlayNext(playlist, s, pick);
    var target := if s.currentIndex < |playlist| - 1 then s.currentIndex + 1 else 0;
    assert next == PlaySong(playlist, s, target);
    PlaySongLastWins(playlist, s, target, s.currentIndex);
  }

  /** In repeat mode "next" undoes "previous", wrap-around at either end included. */
  lemma NextUndoesPreviousInRepeat(playlist: seq<Track>, s: Session, pick: nat)
    requires Valid(playlist, s) && pick < |playlist|
    requires s.playMode == Repeat && 0 <= s.currentIndex
    ensures PlayNext(playlist, PlayPrevious(playlist, s), pick) == PlaySong(playlist, s, s.currentIndex)
  {
    var previous := PlayPrevious(playlist, s);
    var target := if s.currentIndex > 0 then s.currentIndex - 1 else |playlist| - 1;
    assert previous == PlaySong(playlist, s, target);
    PlaySongLastWins(playlist, s, target, s.currentIndex);
  }

  /** In normal mode "previous" undoes "next" away from the last track. */
  lemma PreviousUndoesNextInNormal(playlist: seq<Track>, s: Session, pick: nat)
    requires Valid(playlist, s) && pick < |playlist|
    requires s.playMode == Normal && 0 <= s.currentIndex < |playlist| - 1
    ensures PlayPrevious(playlist, PlayNext(playlist, s, pick)) == PlaySong(playlist, s, s.currentIndex)
  {
    PlaySongLastWins(playlist, s, s.currentIndex + 1, s.currentIndex);
  }

  /** In normal mode nothing comes before the first track and nothing after the last. */
  lemma NormalModeStopsAtEnds(playlist: seq<Track>, s: Session, pick: nat)
    requires Valid(playlist, s) && pick < |playlist| && s.playMode == Normal
    ensures s.currentIndex <= 0 ==> PlayPrevious(playlist, s) == s
    ensures s.currentIndex == |playlist| - 1 ==> PlayNext(playlist, s, pick) == s
  {
  }

  /** Shuffle mode may draw the current track again, which restarts it. */
  lemma ShuffleMayReplay(playlist: seq<Track>, s: Session)
    requires Valid(playlist, s) && s.playMode == Shuffle && 0 <= s.currentIndex < |playlist|
    ensures var r := PlayNext(playlist, s, s.currentIndex);
            r.currentIndex == s.currentIndex && r.progressTimer == Ticking(0, playlist[s.currentIndex].duration)
  {
  }

  /** Toggling shuffle twice is no change, unless repeat was on: then it ends in normal mode. */
  lemma ShuffleTwice(playlist: seq<Track>, s: Session)
    requires Valid(playlist, s)
    ensures var r := ToggleShuffle(playlist, ToggleShuffle(playlist, s));
            (s.playMode != Repeat ==> r == s) && (s.playMode == Repeat ==> r.playMode == Normal)
  {
  }

  /** Toggling repeat twice is no change, unless shuffle was on: then it ends in normal mode. */
  lemma RepeatTwice(playlist: seq<Track>, s: Session)
    requires Valid(playlist, s)
    ensures var r := ToggleRepeat(playlist, ToggleRepeat(playlist, s));
            (s.playMode != Shuffle ==> r == s) && (s.playMode == Shuffle ==> r.playMode == Normal)
  {
  }

  /** Muting then unmuting a sounding volume brings it back; only the remembered volume changes. */
  lemma MuteUnmuteRestores(playlist: seq<Track>, s: Session)
    requires Valid(playlist, s) && s.volume > 0
    ensures ToggleMute(playlist, ToggleMute(playlist, s)) == s.(previousVolume := Some(s.volume))
    ensures IconFor(ToggleMute(playlist, s).volume) == Muted
  {
  }

  /** Two presses of the mute button give back the starting volume, whatever it was. */
  lemma MuteTwiceKeepsVolume(playlist: seq<Track>, s: Session)
    requires Valid(playlist, s)
    ensures ToggleMute(playlist, ToggleMute(playlist, s)).volume == s.volume
  {
    var once := ToggleMute(playlist, s);
    if s.volume == 0 {
      assert once.volume > 0;
    }
  }

  /**
   * A volume set to 0 on the bar is unmuted to the last volume the mute
   * button remembered, or to 100 if it never muted, not to the volume
   * before the bar was clicked.
   */
  lemma UnmuteAfterSettingZero(playlist: seq<Track>, s: Session)
    requires Valid(playlist, s)
    ensures var r := ToggleMute(playlist, SetVolume(playlist, s, 0));
            r.volume == (if s.previousVolume.Some? then s.previousVolume.value else 100)
  {
  }

  /** The first press of play on a freshly loaded player starts the first track and marks the first item. */
  lemma FirstPressPlaysFirstTrack()
    ensures var r := TogglePlay(Tracks(), Initial(Tracks()));
            && r.currentIndex == 0 && r.isPlaying
            && r.progressTimer == Ticking(0, 245)
            && r.highlight == Highlight(10, 0)
  {
    assert Tracks()[0] == Song01;
  }

  /**
   * The "playing" mark goes to the displayed POSITION equal to the
   * catalog index: a clicked item gets the mark exactly when it sits at
   * its own catalog position, as on the unfiltered list.
   */
  lemma ClickMarksItemIffInPlace(playlist: seq<Track>, s: Session, position: nat)
    requires Valid(playlist, s) && Distinct(playlist) && position < |s.shown|
    ensures ClickPlaylistItem(playlist, s, position).highlight[position]
        <==> position < |playlist| && playlist[position] == s.shown[position]
  {
    var r := ClickPlaylistItem(playlist, s, position);
    if position < |playlist| && playlist[position] == s.shown[position] {
      assert playlist[r.currentIndex] == playlist[position];
    }
  }

  /**
   * With the electronic genre selected, a click on its first item plays
   * catalog track 1 and marks the second item, which shows another track.
   */
  lemma FilteredClickMarksAnotherItem(s: Session)
    requires Valid(Tracks(), s) && s.shown == FilterByGenre(Tracks(), "电子")
    ensures |s.shown| >= 2
    ensures var r := ClickPlaylistItem(Tracks(), s, 0);
            && r.currentIndex == 1 && !r.highlight[0] && r.highlight[1]
            && s.shown[1] != Tracks()[r.currentIndex]
  {
    ElectronicClickTarget();
  }
}
