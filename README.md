# Music player playback model

A Dafny model of the `MusicPlayer` class of a browser music player
(`script.js`). The player holds a fixed catalog of ten tracks. It keeps a
current track index (−1 before anything is chosen), a play mode (normal,
shuffle or repeat), a playing flag, a volume with a remembered pre-mute
volume, and a simulated progress timer that counts seconds once per
interval callback. It also shows a playlist panel that a genre filter can
narrow, with a "playing" mark on one item, and a search panel. Clicking an
item in either panel plays that track.

The model has two layers.

- `Playback` is the state machine on values. A `Session` holds every field
  the commands change, and there is one function per command. Each
  function keeps the invariant `Valid` and states what it does to the
  session. The simulated interval is the `progressTimer` field: a `Timer`
  is either `NoTimer` or `Ticking(seconds, total)`. A single field can hold
  at most one timer, and `Valid` keeps `seconds <= total`. One callback of
  the interval is the `Tick` command.
- `MusicPlayer.Player` is the object itself. It is a class whose methods
  update its fields in place and call one another as the original methods
  do. `State()` reads the fields as a `Session`. Every command method is
  proved to move it exactly as the matching `Playback` function does. The
  helpers `RenderPlaylist`, `UpdatePlaylistHighlight` and `SimulateProgress`
  state the fields they set and that the others stay as they were.

`Catalog` holds the ten tracks. `Views` holds what is derived for display:
the genre filter, the search outcome, the statistics line, the "playing"
mark and the click-to-catalog-index mapping. `TimeFormat`, `Strings` and
`Sequences` model the JavaScript built-ins these use. `PlaybackProperties`
proves facts about sequences of commands.

The model reproduces the program's behaviour as written, including these
consequences:

- Resuming after a pause restarts progress from 0 (`ResumeRestartsProgress`).
- At a song end, the interval callback runs `handleSongEnd` first and only
  then clears `this.progressTimer`. By then that field holds the interval
  `play` has just started, so no timer survives a song end
  (`SongEndStopsTimer`).
  - In repeat mode a track therefore plays once. At its end it is restarted
    at 0 and then stalls there, still marked playing (`RepeatStopsAfterOneEnd`).
  - In normal mode automatic advance goes only one track further
    (`NormalEndAdvancesOnce`).
- The "playing" mark goes to the list position equal to the catalog
  index. Under a genre filter it can therefore land on another track
  (`ClickMarksItemIffInPlace`, `FilteredClickMarksAnotherItem`).

## Model

| member | source | states |
|---|---|---|
| Catalog.Tracks | script.js:90-183 | The catalog has ten tracks with ids 1 to 10 in order. Every track has a positive length and one of the five genre labels. |
| Catalog.TracksDistinct | script.js:90-183 | No two catalog positions hold the same track. |
| Sequences.Filter | script.js:550 | `Array.prototype.filter` keeps exactly the elements that pass the test and is never longer than its input. |
| Sequences.FilterAppend | script.js:550 | Filtering keeps order: filtering a concatenation concatenates the filtered parts. |
| Sequences.FilterCount | script.js:550 | A passing element keeps its number of occurrences. A failing element disappears. |
| Sequences.FilterKeepsAll | script.js:550 | When every element passes, filtering returns the list unchanged. |
| Sequences.IndexOf | script.js:501 | `indexOf` returns −1 exactly when the value is absent. Otherwise it returns the first position holding the value. |
| Strings.Trim | script.js:558 | `trim` returns the slice of the input left once white space is cut from both ends: everything before and after the slice is white space. The result is empty exactly when the input is all white space, and otherwise neither starts nor ends with white space. |
| Strings.TrimKeepsTrimmed | script.js:558 | Text that neither starts nor ends with white space is left unchanged by `trim`. |
| Strings.ToLowerCase | script.js:558 | `toLowerCase` keeps the length and maps every character through the case mapping. |
| Strings.ToLowerCaseKeepsLower | script.js:558 | Text without capitals is left unchanged by `toLowerCase`. |
| Strings.Includes | script.js:572-574 | `includes` is true exactly when the needle occurs at some position of the text. |
| Strings.NatToString | script.js:473-475 | `toString` of a whole number gives decimal digits, one digit exactly below 10, and no leading zero. |
| Strings.DecimalRoundTrip | script.js:473-475 | The decimal digits of `n` read back as `n`. |
| Strings.CanonicalIsNatToString | script.js:473-475 | Every digit string without a superfluous leading zero is the `toString` of the number it denotes. |
| Strings.PadStart | script.js:475 | `padStart` prepends fill characters up to the width and keeps the original text as the suffix. |
| TimeFormat.FormatTime | script.js:472-476 | The display is the whole minutes in decimal without leading zeros, a colon, then the seconds within the minute as exactly two digits. The minutes field reads back as `seconds / 60` and the seconds field as `seconds % 60`. |
| TimeFormat.PaddedSecondsValue | script.js:474-475 | The zero-padded seconds field has two digits and reads back as the seconds. |
| TimeFormat.PaddedFieldIsPadStart | script.js:474-475 | Every two-digit field is the zero-padded `toString` of the number it denotes. |
| TimeFormat.ShownIsFormatTime | script.js:472-476 | The display described for `FormatTime` leaves no choice: any text of that form for a time is `formatTime` of it. |
| TimeFormat.ParseShown | script.js:472-476 | Any display of that form reads back as the time it shows. |
| TimeFormat.FormatTimeRoundTrip | script.js:472-476 | Reading the display back as minutes and seconds gives the original number of seconds. |
| TimeFormat.FormatTimeInjective | script.js:472-476 | Two different times never share a display. |
| TimeFormat.FormatTimeExample245 | script.js:472-476 | 245 seconds display as "4:05". |
| TimeFormat.FormatTimeExample59 | script.js:472-476 | 59 seconds display as "0:59". |
| TimeFormat.FormatTimeExample0 | script.js:472-476 | 0 seconds display as "0:00". |
| Views.FilterByGenre | script.js:547-551 | "all" gives the whole playlist. Any other genre gives exactly the tracks of that genre, all taken from the playlist. |
| Views.FilterByGenreOrder | script.js:550 | The genre selection keeps playlist order. |
| Views.FilterByGenreUnknown | script.js:550 | A genre that no track carries gives the empty list. |
| Views.Keyword | script.js:558 | The keyword is empty exactly when the trimmed input is empty. |
| Views.PlainKeyword | script.js:558 | Input without surrounding white space or capitals is its own keyword. |
| Views.Matches | script.js:571-575 | The search test holds exactly when the keyword occurs in the lower-cased title, artist or album, and the empty keyword matches every track. |
| Views.Search | script.js:557-587 | The prompt shows exactly for an all-white-space input. "No results" shows exactly for a non-empty keyword that no track matches, and it repeats the keyword. Otherwise the results are non-empty and are the playlist filtered by the match test, so they keep catalog order and each track's multiplicity. |
| Views.SearchMissingCharacter | script.js:570-583 | A keyword holding a character that no lower-cased title, artist or album holds shows "no results". |
| Views.SearchNoResultsExample | script.js:570-583 | Searching the catalog for "zzz_no_match" shows "no results" for that keyword, not the prompt. |
| Views.TotalSeconds | script.js:516 | The `reduce` sum is at least every single duration, and it is 0 exactly when every duration is 0. |
| Views.TotalSecondsAppend | script.js:516 | The `reduce` sum of a concatenation is the sum of the sums. |
| Views.TotalSecondsPartition | script.js:516 | Splitting a list by any test splits its total time between the two parts. |
| Views.PlaylistStats | script.js:514-520 | The statistics line counts the songs. Its time is the display of their summed durations, so it also reads back as that sum. |
| Views.CatalogTotalSeconds | script.js:516 | The catalog's durations add up to 2667 seconds. |
| Views.CatalogStats | script.js:514-520 | For the whole catalog the line reads 10 songs and "44:27". |
| Views.Highlight | script.js:523-532 | One mark per displayed item, set exactly on the position equal to `currentIndex`. |
| Views.HighlightFullList | script.js:523-532 | On the unfiltered catalog an item is marked exactly when it shows the current track. |
| Views.ElectronicClickTarget | script.js:547-551 | Under the electronic filter the first item maps to catalog position 1, and the second item shows another track. |
| Views.CatalogIndex | script.js:501 | A clicked track in the playlist maps to a position holding that track. A track not in the playlist maps to −1. |
| Views.CatalogIndexOfPosition | script.js:501 | With distinct tracks, the track at position `i` maps back to `i`. |
| Playback.Initial | script.js:3-33 | A new player has nothing selected, is not playing, has no timer, and is in normal mode at volume 100 with no remembered volume. It shows the whole catalog unmarked, and the search panel and active view are unset. |
| Playback.Play | script.js:269-278 | Playing sets the playing flag and replaces any timer by one counting from 0 for the current track. Nothing else changes. |
| Playback.Pause | script.js:281-292 | Pausing clears the playing flag and leaves no timer. Nothing else changes. |
| Playback.PlaySong | script.js:248-266 | An index inside the playlist becomes current and starts playing from 0, and the mark moves to that position. Nothing else changes. Any other index changes nothing. |
| Playback.TogglePlay | script.js:234-245 | With nothing selected this is `playSong(0)`. Otherwise the track stays and the playing flag flips: the timer stops, or restarts from 0. Nothing else changes. |
| Playback.PlayPrevious | script.js:295-301 | From index > 0 it goes one back. Otherwise repeat mode goes to the last track, and any other mode (shuffle included) changes nothing. |
| Playback.PlayNext | script.js:304-314 | Shuffle plays the drawn index. Otherwise it goes one on (so −1 goes to 0). At the last track repeat goes to 0 and normal changes nothing. |
| Playback.HandleSongEnd | script.js:317-324 | Repeat restarts the same track from 0 and changes nothing else. The other modes act as `playNext`. |
| Playback.Tick | script.js:349-365 | No timer: nothing changes. Below the length: one more second, nothing else. At the length: `handleSongEnd`, then no timer left. |
| Playback.ToggleShuffle | script.js:448-457 | Shuffle goes to normal and any other mode (repeat too) goes to shuffle. Nothing else changes. |
| Playback.ToggleRepeat | script.js:460-469 | Repeat goes to normal and any other mode (shuffle too) goes to repeat. Nothing else changes. |
| Playback.SetVolume | script.js:406-420 | The volume is the percentage clamped to [0, 100]. The remembered volume and everything else are untouched. |
| Playback.ToggleMute | script.js:423-434 | A sounding volume is remembered and set to 0. Zero comes back as the remembered volume, or as 100 if none was remembered. |
| Playback.IconFor | script.js:437-445 | The icon is muted exactly at 0 and high exactly from 50 on. Low is left for everything between. |
| Playback.FilterPlaylist | script.js:535-554 | The panel shows the genre selection, with no item marked. Nothing else changes. |
| Playback.PerformSearch | script.js:557-587 | The search panel shows the outcome for the input. Nothing else changes. |
| Playback.SwitchView | script.js:622-640 | The named view becomes active. Nothing else changes. |
| Playback.ClickPlaylistItem | script.js:498-503 | The clicked track plays from 0 at its catalog position, and the mark goes to the position equal to that index. Nothing else changes. |
| Playback.ClickSearchResult | script.js:609-615 | The clicked result plays from 0 at its catalog position, the mark goes to the position equal to that index, and the player view becomes active. Nothing else changes. |
| PlaybackProperties.TickN | script.js:349-365 | Any number of callbacks keeps the invariant, and without a timer they change nothing. |
| PlaybackProperties.TickNAdd | script.js:349-365 | `a` callbacks followed by `b` more are `a + b` callbacks. |
| PlaybackProperties.TicksAdvance | script.js:355-364 | Before the length is reached, `n` callbacks add exactly `n` seconds and change nothing else. |
| PlaybackProperties.SongEndAfterDuration | script.js:345-353 | A track started from 0 reaches its length after `duration` callbacks, and the next callback runs `handleSongEnd` and leaves no timer. |
| PlaybackProperties.SongEndStopsTimer | script.js:350-353 | After a song-end callback no timer runs, yet the player still counts as playing. |
| PlaybackProperties.NoTimerIsStill | script.js:349-365 | Without a timer any number of callbacks changes nothing. |
| PlaybackProperties.RepeatStopsAfterOneEnd | script.js:317-324 | In repeat mode, from the track's length plus one callback on, the session is the started one with no timer, forever. |
| PlaybackProperties.NormalEndAdvancesOnce | script.js:304-314 | In normal mode a track's end selects and marks the next track but leaves it without a timer, for every later callback too. |
| PlaybackProperties.ResumeRestartsProgress | script.js:234-245 | Pause then play keeps the track but restarts its count from 0. |
| PlaybackProperties.PlaySongLastWins | script.js:248-266 | Of two selections in a row only the second shows. |
| PlaybackProperties.PreviousUndoesNextInRepeat | script.js:295-314 | In repeat mode "previous" after "next" returns to the starting track, wrap-around included. |
| PlaybackProperties.NextUndoesPreviousInRepeat | script.js:295-314 | In repeat mode "next" after "previous" returns to the starting track, wrap-around included. |
| PlaybackProperties.PreviousUndoesNextInNormal | script.js:295-314 | In normal mode "previous" after "next" returns to the starting track away from the last one. |
| PlaybackProperties.NormalModeStopsAtEnds | script.js:295-314 | In normal mode "previous" does nothing at the first track or before a selection, and "next" does nothing at the last track. |
| PlaybackProperties.ShuffleMayReplay | script.js:305-308 | Shuffle can draw the current track, which restarts it. |
| PlaybackProperties.ShuffleTwice | script.js:448-457 | Toggling shuffle twice changes nothing, except that from repeat it ends in normal mode. |
| PlaybackProperties.RepeatTwice | script.js:460-469 | Toggling repeat twice changes nothing, except that from shuffle it ends in normal mode. |
| PlaybackProperties.MuteUnmuteRestores | script.js:423-445 | Muting a sounding volume and unmuting gives it back and shows the muted icon in between. Only the remembered volume changes. |
| PlaybackProperties.MuteTwiceKeepsVolume | script.js:423-434 | Two presses of mute give back the starting volume for every start. |
| PlaybackProperties.UnmuteAfterSettingZero | script.js:406-434 | After the bar sets 0, unmuting restores the volume the mute button remembered, or 100, not the volume before the click. |
| PlaybackProperties.FirstPressPlaysFirstTrack | script.js:234-238 | On a fresh player, play starts the first track from 0 with a 245-second count and marks the first item. |
| PlaybackProperties.ClickMarksItemIffInPlace | script.js:523-532 | A clicked item gets the mark exactly when it sits at its own catalog position. |
| PlaybackProperties.FilteredClickMarksAnotherItem | script.js:523-532 | Under the electronic filter, a click on the first item plays catalog track 1, leaves that item unmarked and marks the second item, which shows another track. |
| MusicPlayer.Player.constructor | script.js:3-33 | The new player holds the catalog, satisfies the invariant and is in the initial session. |
| MusicPlayer.Player.RenderPlaylist | script.js:479-511 | The panel shows exactly the given songs in order, none marked. The other fields are untouched. |
| MusicPlayer.Player.UpdatePlaylistHighlight | script.js:523-532 | The loop leaves each item marked exactly when its position is `currentIndex`. The other fields are untouched. |
| MusicPlayer.Player.TogglePlay | script.js:234-245 | The new state is `Playback.TogglePlay` of the old one. |
| MusicPlayer.Player.PlaySong | script.js:248-266 | The new state is `Playback.PlaySong` of the old one. |
| MusicPlayer.Player.Play | script.js:269-278 | The new state is `Playback.Play` of the old one. |
| MusicPlayer.Player.SimulateProgress | script.js:340-349 | Exactly one timer runs afterwards, counting from 0 for the current track. Nothing else changes. |
| MusicPlayer.Player.Pause | script.js:281-292 | The new state is `Playback.Pause` of the old one. |
| MusicPlayer.Player.PlayPrevious | script.js:295-301 | The new state is `Playback.PlayPrevious` of the old one. |
| MusicPlayer.Player.PlayNext | script.js:304-314 | The new state is `Playback.PlayNext` of the old one for the drawn index. |
| MusicPlayer.Player.HandleSongEnd | script.js:317-324 | The new state is `Playback.HandleSongEnd` of the old one. |
| MusicPlayer.Player.Tick | script.js:349-365 | The new state is `Playback.Tick` of the old one. |
| MusicPlayer.Player.SetVolume | script.js:406-420 | The new state is `Playback.SetVolume` of the old one. |
| MusicPlayer.Player.ToggleMute | script.js:423-434 | The new state is `Playback.ToggleMute` of the old one. |
| MusicPlayer.Player.VolumeIcon | script.js:437-445 | Returns the icon `Playback.IconFor` chooses for the current volume. |
| MusicPlayer.Player.ToggleShuffle | script.js:448-457 | The new state is `Playback.ToggleShuffle` of the old one. |
| MusicPlayer.Player.ToggleRepeat | script.js:460-469 | The new state is `Playback.ToggleRepeat` of the old one. |
| MusicPlayer.Player.FilterPlaylist | script.js:535-554 | The new state is `Playback.FilterPlaylist` of the old one. |
| MusicPlayer.Player.PerformSearch | script.js:557-587 | The new state is `Playback.PerformSearch` of the old one. |
| MusicPlayer.Player.ClickPlaylistItem | script.js:498-503 | The new state is `Playback.ClickPlaylistItem` of the old one. |
| MusicPlayer.Player.ClickSearchResult | script.js:609-615 | The new state is `Playback.ClickSearchResult` of the old one. |
| MusicPlayer.Player.SwitchView | script.js:622-640 | The new state is `Playback.SwitchView` of the old one. |

## Left out

- Rendering is presentation only and is not modelled: `initElements`, `bindEvents`, `updatePlayerUI`, the HTML of list items and search results, the button icons, the spinning record, and the active-class loops over the filter and navigation buttons. The panels are modelled by what they list (`shown`, `searchPanel`), the mark (`highlight`) and the active view name.
- The search panel and the active view as first loaded come from the HTML page, which is not part of this model. They are `None` until the first search or view switch.
- `updateProgress` and `updateDuration` read floating-point times from an audio element that never gets a source. They are not modelled.
- `seekTo` computes a floating-point time and only logs it, so it changes no state. It is not modelled.
- `startVisualizer` is a cosmetic 200 ms animation with random bar heights. It is not modelled.
- The `DOMContentLoaded` bootstrap is not modelled beyond the constructor.
- Numbers are unbounded integers (`nat`), while JavaScript numbers are doubles. `FormatTime`, `NatToString` and `TotalSeconds` therefore have no precision limit and no exponent notation: `toString` switches to forms like "1e+21" only from 10^21, and integers stay exact only up to 2^53. The catalog's durations and their sum (2667 seconds) are far below both.
- Timing is not modelled: one `Tick` call stands for one callback of the 1-second interval.
- The progress bar widths and the time text written on each callback are not modelled; `FormatTime` is modelled on its own.
- `pause` clears the interval but leaves its stale id in `this.progressTimer`. The model writes `NoTimer` for "no live interval", because clearing a cleared interval again has no effect.
- Clicks on an item's own play and like buttons are excluded by the click handlers. The model covers only clicks on the rest of the item.
- Playback.PlayNext: the value `Math.random()` would draw is the parameter `pick < |playlist|`, the range `Math.floor(Math.random() * length)` covers. The same holds for `Playback.HandleSongEnd`, `Playback.Tick` and the matching `Player` methods.
- Playback.SetVolume: the click geometry and `Math.round` of `setVolume` are reduced to an integer percentage, clamped as the original clamps its ratio.
- Strings.ToLowerCase: maps only the ASCII capitals A to Z, while JavaScript also lower-cases capitals of other scripts. The catalog's Chinese text has no case.
- Playback.Play: requires a selected track. The original only calls `play` with one selected; with none, `simulateProgress` would fail on `this.playlist[-1].duration`.
- Playback.HandleSongEnd: requires a selected track in repeat mode, for the same reason. Only the audio `ended` event could call it without one, and the audio element never plays.
- Playback.ClickSearchResult: requires the panel to show results, since only shown results can be clicked.
