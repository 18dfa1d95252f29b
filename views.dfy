/**
 * What the player derives from the catalog for display: the genre filter,
 * the search outcome, the statistics line, the "playing" highlight and the
 * mapping from a clicked list item back to its catalog position.
 */
module Views {
  import opened Wrappers
  import opened Sequences
  import opened Strings
  import opened TimeFormat
  import opened Catalog

  /** The filter value that shows the whole catalog. */
  const AllGenres: string := "all"

  /** The selection `filterPlaylist` makes: the whole playlist for "all", otherwise exactly the tracks of that genre, in playlist order. */
  function FilterByGenre(playlist: seq<Track>, genre: string): (r: seq<Track>)
    ensures genre == AllGenres ==> r == playlist
    ensures genre != AllGenres ==> forall t :: t in r <==> t in playlist && t.genre == genre
    ensures forall t :: t in r ==> t in playlist
  {
    if genre == AllGenres then playlist else Filter(playlist, (t: Track) => t.genre == genre)
  }

  /** Filtering keeps relative order: filtering a concatenation concatenates the filtered parts. */
  lemma FilterByGenreOrder(a: seq<Track>, b: seq<Track>, genre: string)
    ensures FilterByGenre(a + b, genre) == FilterByGenre(a, genre) + FilterByGenre(b, genre)
  {
    if genre != AllGenres {
      FilterAppend(a, b, (t: Track) => t.genre == genre);
    }
  }

  /** A genre no track carries gives the empty list. */
  lemma FilterByGenreUnknown(playlist: seq<Track>, genre: string)
    requires genre != AllGenres
    requires forall k :: 0 <= k < |playlist| ==> playlist[k].genre != genre
    ensures FilterByGenre(playlist, genre) == []
  {
  }

  /** What the search panel shows. */
  datatype SearchOutcome =
    | EmptyPrompt                    // blank keyword: the "type a keyword" prompt
    | NoResults(keyword: string)     // the "nothing found for keyword" message
    | Found(songs: seq<Track>)       // the matching tracks, one item each

  /** The keyword `performSearch` searches for: the input, trimmed and lower-cased. */
  function Keyword(input: string): (k: string)
    ensures k == [] <==> Trim(input) == []
  {
    ToLowerCase(Trim(input))
  }

  /**
   * The test `performSearch` filters with: the keyword occurs in the
   * lower-cased title, artist or album. The empty keyword occurs in every text.
   */
  predicate Matches(keyword: string, t: Track)
    ensures keyword == [] ==> Matches(keyword, t)
    ensures Matches(keyword, t) <==>
              exists i :: OccursAt(ToLowerCase(t.title), keyword, i)
                       || OccursAt(ToLowerCase(t.artist), keyword, i)
                       || OccursAt(ToLowerCase(t.album), keyword, i)
  {
    assert keyword == [] ==> OccursAt(ToLowerCase(t.title), keyword, 0);

    Includes(ToLowerCase(t.title), keyword)
    || Includes(ToLowerCase(t.artist), keyword)
    || Includes(ToLowerCase(t.album), keyword)
  }

  /** What `performSearch` shows: the three outcomes the panel can show for a given input. */
  function Search(playlist: seq<Track>, input: string): (r: SearchOutcome)
    ensures r == EmptyPrompt <==> forall k :: 0 <= k < |input| ==> IsWhiteSpace(input[k])
    ensures r.NoResults? <==>
      Keyword(input) != [] && forall t :: t in playlist ==> !Matches(Keyword(input), t)
    ensures r.NoResults? ==> r.keyword == Keyword(input)
    ensures r.Found? ==>
              r.songs != [] &&
              forall t :: t in r.songs <==> t in playlist && Matches(Keyword(input), t)
    ensures r.Found? ==> r.songs == Filter(playlist, (t: Track) => Matches(Keyword(input), t))
  {
    var keyword := Keyword(input);
    if keyword == [] then EmptyPrompt
    else
      var results := Filter(playlist, (t: Track) => Matches(Keyword(input), t));
      assert results != [] ==> results[0] in playlist && Matches(keyword, results[0]);
      if results == [] then NoResults(keyword) else Found(results)
  }

  /** A keyword holding a character that no title, artist or album holds (after lower-casing) finds nothing. */
  lemma SearchMissingCharacter(playlist: seq<Track>, input: string, c: char)
    requires c in Keyword(input)
    requires forall t :: t in playlist ==>
               c !in ToLowerCase(t.title) && c !in ToLowerCase(t.artist) && c !in ToLowerCase(t.album)
    ensures Search(playlist, input) == NoResults(Keyword(input))
  {
    var keyword := Keyword(input);
    forall t | t in playlist ensures !Matches(keyword, t) {
      MissingCharacterNotIncluded(ToLowerCase(t.title), keyword, c);
      MissingCharacterNotIncluded(ToLowerCase(t.artist), keyword, c);
      MissingCharacterNotIncluded(ToLowerCase(t.album), keyword, c);
    }
  }

  lemma MissingCharacterNotIncluded(hay: string, needle: string, c: char)
    requires c in needle && c !in hay
    ensures !Includes(hay, needle)
  {
  }

  /** No letter z, in either case, in `s`. */
  predicate LacksZ(s: string)
  {
    forall i :: 0 <= i < |s| ==> s[i] != 'z' && s[i] != 'Z'
  }

  predicate TrackLacksZ(t: Track)
  {
    LacksZ(t.title) && LacksZ(t.artist) && LacksZ(t.album)
  }

  lemma LowerLacksZ(s: string)
    requires LacksZ(s)
    ensures 'z' !in ToLowerCase(s)
  {
    var r := ToLowerCase(s);
    forall i | 0 <= i < |r| ensures r[i] != 'z' {
      assert r[i] == LowerChar(s[i]);
    }
  }

  lemma LacksZ01() ensures TrackLacksZ(Song01) {}
  lemma LacksZ02() ensures TrackLacksZ(Song02) {}
  lemma LacksZ03() ensures TrackLacksZ(Song03) {}
  lemma LacksZ04() ensures TrackLacksZ(Song04) {}
  lemma LacksZ05() ensures TrackLacksZ(Song05) {}
  lemma LacksZ06() ensures TrackLacksZ(Song06) {}
  lemma LacksZ07() ensures TrackLacksZ(Song07) {}
  lemma LacksZ08() ensures TrackLacksZ(Song08) {}
  lemma LacksZ09() ensures TrackLacksZ(Song09) {}
  lemma LacksZ10() ensures TrackLacksZ(Song10) {}

  /** Input without surrounding white space or capitals is its own keyword. */
  lemma PlainKeyword(input: string)
    requires input != [] ==> !IsWhiteSpace(input[0]) && !IsWhiteSpace(input[|input| - 1])
    requires forall k :: 0 <= k < |input| ==> !('A' <= input[k] <= 'Z')
    ensures Keyword(input) == input
  {
    var trimmed := Trim(input);
    assert trimmed == input by { TrimKeepsTrimmed(input); }
    assert ToLowerCase(trimmed) == input by { ToLowerCaseKeepsLower(input); }
  }

  lemma NoResultsKeyword()
    ensures Keyword("zzz_no_match") == "zzz_no_match"
  {
    PlainKeyword("zzz_no_match");
  }

  /** Searching the catalog for "zzz_no_match" shows the no-results message, not the prompt. */
  lemma SearchNoResultsExample()
    ensures Search(Tracks(), "zzz_no_match") == NoResults("zzz_no_match")
  {
    NoResultsKeyword();
    LacksZ01(); LacksZ02(); LacksZ03(); LacksZ04(); LacksZ05();
    LacksZ06(); LacksZ07(); LacksZ08(); LacksZ09(); LacksZ10();
    forall t | t in Tracks()
      ensures 'z' !in ToLowerCase(t.title) && 'z' !in ToLowerCase(t.artist) && 'z' !in ToLowerCase(t.album)
    {
      assert TrackLacksZ(t);
      LowerLacksZ(t.title);
      LowerLacksZ(t.artist);
      LowerLacksZ(t.album);
    }
    SearchMissingCharacter(Tracks(), "zzz_no_match", 'z');
  }

  /** `updatePlaylistStats`' `reduce`: the summed durations, added left to right. */
  function TotalSeconds(songs: seq<Track>): (r: nat)
    ensures forall k :: 0 <= k < |songs| ==> songs[k].duration <= r
    ensures r == 0 <==> forall k :: 0 <= k < |songs| ==> songs[k].duration == 0
  {
    if songs == [] then 0 else TotalSeconds(songs[..|songs| - 1]) + songs[|songs| - 1].duration
  }

  lemma {:induction false} TotalSecondsAppend(a: seq<Track>, b: seq<Track>)
    ensures TotalSeconds(a + b) == TotalSeconds(a) + TotalSeconds(b)
    decreases |b|
  {
    if b != [] {
      assert (a + b)[..|a + b| - 1] == a + b[..|b| - 1];
      TotalSecondsAppend(a, b[..|b| - 1]);
    } else {
      assert a + b == a;
    }
  }

  /** Splitting the list by any test splits its total time between the two parts. */
  lemma {:induction false} TotalSecondsPartition(songs: seq<Track>, p: Track -> bool)
    ensures TotalSeconds(songs) == TotalSeconds(Filter(songs, p)) + TotalSeconds(Filter(songs, (t: Track) => !p(t)))
  {
    if songs != [] {
      var s, n := songs[..|songs| - 1], songs[|songs| - 1];
      assert songs == s + [n];
      FilterAppend(s, [n], p);
      FilterAppend(s, [n], (t: Track) => !p(t));
      TotalSecondsPartition(s, p);
      TotalSecondsAppend(Filter(s, p), Filter([n], p));
      TotalSecondsAppend(Filter(s, (t: Track) => !p(t)), Filter([n], (t: Track) => !p(t)));
      assert TotalSeconds([n]) == n.duration by {
        assert [n][..0] == [];
      }
    }
  }

  /** The statistics line: number of songs and their total time as shown. */
  datatype Stats = Stats(totalSongs: nat, totalDuration: string)

  /** `updatePlaylistStats`: the count, and the display of the summed durations, which reads back as them. */
  function PlaylistStats(songs: seq<Track>): (r: Stats)
    ensures r.totalSongs == |songs|
    ensures Shows(r.totalDuration, TotalSeconds(songs))
    ensures ParseTime(r.totalDuration) == Some(TotalSeconds(songs))
  {
    FormatTimeRoundTrip(TotalSeconds(songs));
    Stats(|songs|, FormatTime(TotalSeconds(songs)))
  }

  /** The catalog runs 2667 seconds in all. */
  lemma CatalogTotalSeconds()
    ensures TotalSeconds(Tracks()) == 2667
  {
    var c := Tracks();
    assert c[..1][..0] == [];
    assert TotalSeconds(c[..1]) == 245;
    assert c[..2][..1] == c[..1];
    assert TotalSeconds(c[..2]) == 457;
    assert c[..3][..2] == c[..2];
    assert TotalSeconds(c[..3]) == 783;
    assert c[..4][..3] == c[..3];
    assert TotalSeconds(c[..4]) == 1017;
    assert c[..5][..4] == c[..4];
    assert TotalSeconds(c[..5]) == 1344;
    assert c[..6][..5] == c[..5];
    assert TotalSeconds(c[..6]) == 1649;
    assert c[..7][..6] == c[..6];
    assert TotalSeconds(c[..7]) == 1861;
    assert c[..8][..7] == c[..7];
    assert TotalSeconds(c[..8]) == 2106;
    assert c[..9][..8] == c[..8];
    assert TotalSeconds(c[..9]) == 2460;
    assert c[..9] == c[..|c| - 1];
  }

  /** For the whole catalog the line reads 10 songs, 44:27. */
  lemma CatalogStats()
    ensures PlaylistStats(Tracks()) == Stats(10, "44:27")
  {
    CatalogTotalSeconds();
    assert 2667 / 60 == 44 && 2667 % 60 == 27;
    assert NatToString(44) == NatToString(4) + [DigitChar(4)] == "44";
    assert NatToString(27) == NatToString(2) + [DigitChar(7)] == "27";
  }

  /** `updatePlaylistHighlight`: the displayed item whose POSITION equals `currentIndex` is marked. */
  function Highlight(count: nat, currentIndex: int): (r: seq<bool>)
    ensures |r| == count
    ensures forall k :: 0 <= k < count ==> (r[k] <==> k == currentIndex)
  {
    seq(count, k => k == currentIndex)
  }

  /** On the unfiltered list the mark is on the playing track and on no other. */
  lemma HighlightFullList(playlist: seq<Track>, currentIndex: int, k: nat)
    requires Distinct(playlist)
    requires 0 <= currentIndex < |playlist| && k < |playlist|
    ensures Highlight(|playlist|, currentIndex)[k] <==> playlist[k] == playlist[currentIndex]
  {
  }

  /**
   * Under the electronic filter (Fade, Faded, ...) the first item shows
   * Fade, catalog position 1, and the second item shows another track.
   */
  lemma ElectronicClickTarget()
    ensures var shown := FilterByGenre(Tracks(), "电子");
      && |shown| >= 2 && CatalogIndex(Tracks(), shown[0]) == 1
      && shown[1] != Tracks()[1]
  {
    ElectronicHead();
    ElectronicTail();
    FadeAtPositionOne();
  }

  /** Fade sits at catalog position 1, and `indexOf` finds it there. */
  lemma FadeAtPositionOne()
    ensures Tracks()[1] == Song02 && CatalogIndex(Tracks(), Song02) == 1
  {
    var c := Tracks();
    assert c[1] == Song02;
    var i := CatalogIndex(c, Song02);
    assert c[i].id == i + 1;
  }

  /** The first electronic track is Fade, catalog position 1. */
  lemma ElectronicHead()
    ensures FilterByGenre(Tracks(), "电子") == [Song02] + FilterByGenre(Tracks()[2..], "电子")
  {
    var c := Tracks();
    assert c == [Song01, Song02] + c[2..];
    FilterByGenreOrder([Song01, Song02], c[2..], "电子");
    ElectronicOfFirstTwo();
  }

  /** Of the first two tracks only Fade is electronic. */
  lemma ElectronicOfFirstTwo()
    ensures FilterByGenre([Song01, Song02], "电子") == [Song02]
  {
    FilterByGenreOrder([Song01], [Song02], "电子");
    assert [Song01] + [Song02] == [Song01, Song02];
  }

  /** After it come more electronic tracks (Faded among them), none of them Fade. */
  lemma ElectronicTail()
    ensures var rest := FilterByGenre(Tracks()[2..], "电子");
      rest != [] && rest[0] != Song02
  {
    var c := Tracks();
    assert Song07 in c[2..] by {
      assert c[2..][4] == Song07;
    }
    assert forall t :: t in c[2..] ==> t.id != 2 by {
      forall t | t in c[2..] ensures t.id != 2 {
        var j :| 0 <= j < |c[2..]| && c[2..][j] == t;
        assert c[j + 2] == t;
      }
    }
  }

  /** The catalog position a clicked item maps to (`this.playlist.indexOf(song)`). */
  function CatalogIndex(playlist: seq<Track>, song: Track): (r: int)
    ensures song in playlist ==> 0 <= r < |playlist| && playlist[r] == song
    ensures song !in playlist ==> r == -1
  {
    IndexOf(playlist, song)
  }

  /** With distinct tracks, the item at catalog position `i` maps back to `i`. */
  lemma CatalogIndexOfPosition(playlist: seq<Track>, i: nat)
    requires Distinct(playlist) && i < |playlist|
    ensures CatalogIndex(playlist, playlist[i]) == i
  {
  }
}
