/** `FalkordbPipeline.process_item` of src/scraper/pipelines.py: each item the
    spider yields is routed to one store operation, and the item is passed on
    unchanged. Scrapy hands the items of a crawl to the pipeline one by one, in
    the order they were yielded; `ApplyItems` is the store effect of that run. */
module Pipeline {
  import opened Text
  import opened Models
  import opened Store
  import opened Spider

  /** The store effect of one item: a song is saved with its title, artist and
      index (its album is not passed on), a playlist source saves the name, and
      anything else, or a store without a connection, changes nothing. */
  function ApplyItem(connected: bool, g: Graph, item: Item): (g': Graph)
    ensures !connected || item.OtherItem? ==> g' == g
    ensures connected && item.SongItem? ==>
              g'.songs.Keys == g.songs.Keys + {(item.song.title, item.song.artist)}
    ensures connected && item.PlaylistItem? ==>
              g'.playlistName == Some(item.source.name) && g'.songs == g.songs
    ensures g.songs.Keys <= g'.songs.Keys && g.nextId <= g'.nextId
  {
    if !connected then g
    else match item
      case SongItem(s) => SaveSong(g, s.title, s.artist, s.index)
      case PlaylistItem(p) => SavePlaylistName(g, p.name)
      case OtherItem => g
  }

  /** The store effect of handing `items` to the pipeline in order. */
  function ApplyItems(connected: bool, g: Graph, items: seq<Item>): (g': Graph)
    ensures g.songs.Keys <= g'.songs.Keys && g.nextId <= g'.nextId
    decreases |items|
  {
    if items == [] then g
    else ApplyItem(connected, ApplyItems(connected, g, items[..|items| - 1]), items[|items| - 1])
  }

  class FalkordbPipeline {
    /** The store the pipeline writes to (the module-level `db_manager`). */
    const db: FalkordbManager

    constructor (db: FalkordbManager)
      ensures this.db == db
    {
      this.db := db;
    }

    /** `process_item`: one store operation chosen by the item's type; the item is returned as it came. */
    method ProcessItem(item: Item) returns (result: Item)
      requires db.Valid()
      modifies db
      ensures db.Valid()
      ensures result == item
      ensures db.State() == ApplyItem(db.connected, old(db.State()), item)
    {
      match item {
        case SongItem(s) => db.SaveSongInfo(s.title, s.artist, s.index);
        case PlaylistItem(p) => db.SavePlaylistNameInfo(p.name);
        case OtherItem =>
      }
      result := item;
    }
  }

  // ---------------------------------------------------------------------------
  // Properties of a crawl's effect on the store
  // ---------------------------------------------------------------------------

  lemma NoStatusRegressionTrans(g1: Graph, g2: Graph, g3: Graph)
    requires NoStatusRegression(g1, g2) && NoStatusRegression(g2, g3)
    ensures NoStatusRegression(g1, g3)
  {
  }

  lemma ApplyItemKeeps(connected: bool, g: Graph, item: Item)
    ensures WellFormed(g) ==> WellFormed(ApplyItem(connected, g, item))
    ensures NoStatusRegression(g, ApplyItem(connected, g, item))
  {
    if connected {
      match item
      case SongItem(s) =>
        if WellFormed(g) { SaveSongWellFormed(g, s.title, s.artist, s.index); }
        SaveSongKeepsMatch(g, s.title, s.artist, s.index);
      case PlaylistItem(p) =>
        if WellFormed(g) { SavePlaylistNameWellFormed(g, p.name); }
      case OtherItem =>
    }
  }

  /** Any sequence of items keeps the store well formed and never turns a
      MATCHED song back into PENDING or drops a song: a re-scrape keeps earlier matches. */
  lemma {:induction false} ApplyItemsKeeps(connected: bool, g: Graph, items: seq<Item>)
    ensures WellFormed(g) ==> WellFormed(ApplyItems(connected, g, items))
    ensures NoStatusRegression(g, ApplyItems(connected, g, items))
    decreases |items|
  {
    if items != [] {
      var prev := ApplyItems(connected, g, items[..|items| - 1]);
      ApplyItemsKeeps(connected, g, items[..|items| - 1]);
      ApplyItemKeeps(connected, prev, items[|items| - 1]);
      NoStatusRegressionTrans(g, prev, ApplyItems(connected, g, items));
    }
  }

  /** Items other than songs and playlist sources never change the store. */
  lemma {:induction false} OtherItemsChangeNothing(connected: bool, g: Graph, n: nat)
    ensures ApplyItems(connected, g, seq(n, _ => OtherItem)) == g
    decreases n
  {
    if n > 0 {
      var items := seq(n, _ => OtherItem);
      assert items[..n - 1] == seq(n - 1, _ => OtherItem);
      OtherItemsChangeNothing(connected, g, n - 1);
    }
  }

  /** Without a connection no item changes the store. */
  lemma {:induction false} DisconnectedChangesNothing(g: Graph, items: seq<Item>)
    ensures ApplyItems(false, g, items) == g
    decreases |items|
  {
    if items != [] {
      DisconnectedChangesNothing(g, items[..|items| - 1]);
    }
  }

  function SongKeyOf(s: SongInfo): SongKey {
    (s.title, s.artist)
  }

  function SongKeys(songs: seq<SongInfo>): set<SongKey> {
    set j | 0 <= j < |songs| :: SongKeyOf(songs[j])
  }

  /** No two songs share their (title, artist). */
  ghost predicate DistinctPairs(songs: seq<SongInfo>) {
    forall j1, j2 :: 0 <= j1 < j2 < |songs| ==> SongKeyOf(songs[j1]) != SongKeyOf(songs[j2])
  }

  lemma SongKeysSnoc(songs: seq<SongInfo>)
    requires songs != []
    ensures SongKeys(songs) == SongKeys(songs[..|songs| - 1]) + {SongKeyOf(songs[|songs| - 1])}
  {
    var n := |songs|;
    var prefix := songs[..n - 1];
    forall k | k in SongKeys(songs) ensures k in SongKeys(prefix) + {SongKeyOf(songs[n - 1])} {
      var j :| 0 <= j < n && k == SongKeyOf(songs[j]);
      if j < n - 1 { assert prefix[j] == songs[j]; }
    }
    forall k | k in SongKeys(prefix) ensures k in SongKeys(songs) {
      var j :| 0 <= j < n - 1 && k == SongKeyOf(prefix[j]);
      assert prefix[j] == songs[j];
    }
  }

  lemma DistinctPairsPrefix(songs: seq<SongInfo>, m: nat)
    requires m <= |songs| && DistinctPairs(songs)
    ensures DistinctPairs(songs[..m])
  {
    var prefix := songs[..m];
    forall j1, j2 | 0 <= j1 < j2 < |prefix| ensures SongKeyOf(prefix[j1]) != SongKeyOf(prefix[j2]) {
      assert prefix[j1] == songs[j1] && prefix[j2] == songs[j2];
    }
  }

  /** The pipeline saves the songs one after the other. */
  lemma ApplySongItemsSnoc(connected: bool, g: Graph, songs: seq<SongInfo>)
    requires songs != []
    ensures ApplyItems(connected, g, SongItems(songs)) ==
              ApplyItem(connected, ApplyItems(connected, g, SongItems(songs[..|songs| - 1])), SongItem(songs[|songs| - 1]))
  {
    var items := SongItems(songs);
    assert items[..|songs| - 1] == SongItems(songs[..|songs| - 1]);
  }

  /** What saving `songs` into `g` gave `g'`: exactly their keys added, each
      with its own index, every other song untouched, the name kept. */
  ghost predicate StoredEach(g: Graph, songs: seq<SongInfo>, g': Graph) {
    && g'.songs.Keys == g.songs.Keys + SongKeys(songs)
    && (forall j :: 0 <= j < |songs| ==> g'.songs[SongKeyOf(songs[j])].playlistIndex == songs[j].index)
    && (forall k :: k in g.songs && k !in SongKeys(songs) ==> g'.songs[k] == g.songs[k])
    && g'.playlistName == g.playlistName
  }

  /** Saving one more song whose key is new among `songs` extends `StoredEach`. */
  lemma StoredEachSnoc(g: Graph, songs: seq<SongInfo>, mid: Graph)
    requires songs != [] && DistinctPairs(songs)
    requires StoredEach(g, songs[..|songs| - 1], mid)
    ensures var last := songs[|songs| - 1];
            StoredEach(g, songs, SaveSong(mid, last.title, last.artist, last.index))
  {
    var n := |songs|;
    var prefix := songs[..n - 1];
    var last := songs[n - 1];
    SongKeysSnoc(songs);
    var g' := SaveSong(mid, last.title, last.artist, last.index);
    forall j | 0 <= j < n ensures g'.songs[SongKeyOf(songs[j])].playlistIndex == songs[j].index {
      if j < n - 1 {
        assert prefix[j] == songs[j];
        assert SongKeyOf(songs[j]) != SongKeyOf(last);
      }
    }
  }

  /** Saving songs with distinct (title, artist) stores each with its own index,
      adds exactly their keys, and leaves every other song as it was. */
  lemma {:induction false} SaveSongsStoresEach(g: Graph, songs: seq<SongInfo>)
    requires DistinctPairs(songs)
    ensures StoredEach(g, songs, ApplyItems(true, g, SongItems(songs)))
    decreases |songs|
  {
    if songs != [] {
      var n := |songs|;
      DistinctPairsPrefix(songs, n - 1);
      SaveSongsStoresEach(g, songs[..n - 1]);
      ApplySongItemsSnoc(true, g, songs);
      StoredEachSnoc(g, songs, ApplyItems(true, g, SongItems(songs[..n - 1])));
    } else {
      assert SongKeys(songs) == {};
    }
  }

  /** The items of one crawl (a playlist source, then songs with distinct
      (title, artist)) leave the store with that playlist name and every song
      saved under its own index, while no earlier match is lost. */
  lemma CrawlStoresSongs(g: Graph, name: string, songs: seq<SongInfo>)
    requires DistinctPairs(songs)
    ensures var g' := ApplyItems(true, g, [PlaylistItem(PlaylistSource(name))] + SongItems(songs));
            && g'.playlistName == Some(name)
            && g'.songs.Keys == g.songs.Keys + SongKeys(songs)
            && (forall j :: 0 <= j < |songs| ==> g'.songs[SongKeyOf(songs[j])].playlistIndex == songs[j].index)
            && NoStatusRegression(g, g')
  {
    var items := [PlaylistItem(PlaylistSource(name))] + SongItems(songs);
    var g1 := SavePlaylistName(g, name);
    ApplyItemsAppend(g, [PlaylistItem(PlaylistSource(name))], SongItems(songs));
    assert [PlaylistItem(PlaylistSource(name))][..0] == [];
    assert ApplyItems(true, g, [PlaylistItem(PlaylistSource(name))]) == g1;
    SaveSongsStoresEach(g1, songs);
    ApplyItemsKeeps(true, g, items);
  }

  /** Applying `a + b` is applying `a`, then `b`. */
  lemma {:induction false} ApplyItemsAppend(g: Graph, a: seq<Item>, b: seq<Item>)
    ensures ApplyItems(true, g, a + b) == ApplyItems(true, ApplyItems(true, g, a), b)
    decreases |b|
  {
    if b == [] {
      assert a + b == a;
    } else {
      var n := |b|;
      assert (a + b)[..|a + b| - 1] == a + b[..n - 1];
      assert (a + b)[|a + b| - 1] == b[n - 1];
      ApplyItemsAppend(g, a, b[..n - 1]);
    }
  }

  /** The songs of the main loop of `parse` have distinct (title, artist), since
      equal pairs would have equal dedup keys. */
  lemma EmittedDistinctPairs(data: seq<Track>)
    ensures DistinctPairs(Emitted(data))
  {
    EmittedKeysDistinct(data);
  }

  /** A crawl of a page from whose track rows the script extracts tracks stores each of them with its
      index and the page's playlist title as the playlist name. */
  lemma CrawlOfPage(g: Graph, url: string, page: Page)
    requires ExtractedTracks(url, page) != []
    ensures var songs := ScrapedSongs(url, page);
            var g' := ApplyItems(true, g, [PlaylistItem(PlaylistSource(PlaylistInfo(page.header).0))] + SongItems(songs));
            && g'.playlistName == Some(PlaylistInfo(page.header).0)
            && (forall j :: 0 <= j < |songs| ==>
                  SongKeyOf(songs[j]) in g'.songs && g'.songs[SongKeyOf(songs[j])].playlistIndex == songs[j].index)
            && NoStatusRegression(g, g')
  {
    EmittedEmptyIff(ExtractedTracks(url, page));
    EmittedDistinctPairs(ExtractedTracks(url, page));
    CrawlStoresSongs(g, PlaylistInfo(page.header).0, ScrapedSongs(url, page));
  }
}
