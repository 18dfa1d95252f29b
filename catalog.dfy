/** The static playlist built by `MusicPlayer.generatePlaylist`. */
module Catalog {

  /** One playlist entry; `duration` is in whole seconds, `cover` an artwork URL. */
  datatype Track = Track(
    id: int, title: string, artist: string, album: string,
    genre: string, duration: nat, cover: string)

  /** The five genre labels the catalog uses. */
  function Genres(): set<string>
  {
    {"流行", "电子", "摇滚", "民谣", "古典"}
  }

  const Song01: Track := Track(1, "夜空中最亮的星", "逃跑计划", "世界", "流行", 245,
    "https://via.placeholder.com/300/e74c3c/ffffff?text=专辑封面1")
  const Song02: Track := Track(2, "Fade", "Alan Walker", "Different World", "电子", 212,
    "https://via.placeholder.com/300/c0392b/ffffff?text=专辑封面2")
  const Song03: Track := Track(3, "海阔天空", "Beyond", "乐与怒", "摇滚", 326,
    "https://via.placeholder.com/300/e74c3c/ffffff?text=专辑封面3")
  const Song04: Track := Track(4, "Shape of You", "Ed Sheeran", "÷ (Divide)", "流行", 234,
    "https://via.placeholder.com/300/c0392b/ffffff?text=专辑封面4")
  const Song05: Track := Track(5, "成都", "赵雷", "无法长大", "民谣", 327,
    "https://via.placeholder.com/300/e74c3c/ffffff?text=专辑封面5")
  const Song06: Track := Track(6, "Canon in D", "Johann Pachelbel", "Classical Masterpieces", "古典", 305,
    "https://via.placeholder.com/300/c0392b/ffffff?text=专辑封面6")
  const Song07: Track := Track(7, "Faded", "Alan Walker", "Different World", "电子", 212,
    "https://via.placeholder.com/300/e74c3c/ffffff?text=专辑封面7")
  const Song08: Track := Track(8, "光年之外", "G.E.M. 邓紫棋", "光年之外", "流行", 245,
    "https://via.placeholder.com/300/c0392b/ffffff?text=专辑封面8")
  const Song09: Track := Track(9, "Bohemian Rhapsody", "Queen", "A Night at the Opera", "摇滚", 354,
    "https://via.placeholder.com/300/e74c3c/ffffff?text=专辑封面9")
  const Song10: Track := Track(10, "告白气球", "周杰伦", "周杰伦的床边故事", "流行", 207,
    "https://via.placeholder.com/300/c0392b/ffffff?text=专辑封面10")

  /** The ten tracks, ids 1 to 10 in order, every one with a positive length and a known genre. */
  function Tracks(): (r: seq<Track>)
    ensures |r| == 10
    ensures forall k :: 0 <= k < |r| ==> r[k].id == k + 1 && r[k].duration > 0 && r[k].genre in Genres()
  {
    [Song01, Song02, Song03, Song04, Song05, Song06, Song07, Song08, Song09, Song10]
  }

  /** No two positions hold the same track, so a track's position is its identity. */
  predicate Distinct(songs: seq<Track>)
  {
    forall i, j :: 0 <= i < j < |songs| ==> songs[i] != songs[j]
  }

  lemma TracksDistinct()
    ensures Distinct(Tracks())
  {
    var r := Tracks();
    forall i, j | 0 <= i < j < |r| ensures r[i] != r[j] {
      assert r[i].id == i + 1 && r[j].id == j + 1;
    }
  }
}
