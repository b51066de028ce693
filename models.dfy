/** The two frozen record types the scraper emits (src/models/data_classes.py)
    and the union of what a scraper callback may yield. */
module Models {

  /** One scraped track; `index` is its 1-based position in the extracted list. */
  datatype SongInfo = SongInfo(title: string, artist: string, album: string, index: int)

  /** The displayed name of the scraped playlist or album. */
  datatype PlaylistSource = PlaylistSource(name: string)

  /** An item handed to the item pipeline: one of the two records, or anything else. */
  datatype Item =
    | SongItem(song: SongInfo)
    | PlaylistItem(source: PlaylistSource)
    | OtherItem

  /** Wraps each song as a pipeline item, in order. */
  function SongItems(songs: seq<SongInfo>): (items: seq<Item>)
    ensures |items| == |songs|
    ensures forall i :: 0 <= i < |songs| ==> items[i] == SongItem(songs[i])
    decreases |songs|
  {
    if songs == [] then [] else SongItems(songs[..|songs| - 1]) + [SongItem(songs[|songs| - 1])]
  }
}
