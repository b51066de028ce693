/** `run_match` and `run_create_playlist` of sync_cli.py: the two loops that read
    the store, call a video searcher and write the results back. The searcher is
    the scripted `VideoSearcher`; the menu, the prompts and the progress bars are
    not part of this model. */
module SyncCli {
  import opened Text
  import opened Store
  import opened Interfaces

  const PlaylistDescription := "Created by Spotify-Youtube Sync"

  /** The search query of a pending song: its title, a space, its artist. */
  function Query(row: PendingSong): string {
    row.title + " " + row.artist
  }

  /** The `not_found_list` entry of a pending song: `title - artist`. */
  function NotFoundEntry(row: PendingSong): string {
    row.title + " - " + row.artist
  }

  function Queries(rows: seq<PendingSong>): (qs: seq<string>)
    ensures |qs| == |rows| && forall i :: 0 <= i < |rows| ==> qs[i] == Query(rows[i])
  {
    seq(|rows|, i requires 0 <= i < |rows| => Query(rows[i]))
  }

  /** The songs of `rows` whose query finds nothing, as not-found entries, in order. */
  function Misses(rows: seq<PendingSong>, hits: map<string, VideoMatch>): (entries: seq<string>)
    ensures |entries| <= |rows|
    decreases |rows|
  {
    if rows == [] then []
    else
      var last := rows[|rows| - 1];
      Misses(rows[..|rows| - 1], hits) + (if Query(last) in hits then [] else [NotFoundEntry(last)])
  }

  /** The number of songs of `rows` whose query finds a video. */
  function HitCount(rows: seq<PendingSong>, hits: map<string, VideoMatch>): (n: nat)
    ensures n <= |rows|
    decreases |rows|
  {
    if rows == [] then 0
    else HitCount(rows[..|rows| - 1], hits) + (if Query(rows[|rows| - 1]) in hits then 1 else 0)
  }

  /** Every pending song is counted exactly once: as a success or as not found. */
  lemma {:induction false} HitsPlusMisses(rows: seq<PendingSong>, hits: map<string, VideoMatch>)
    ensures HitCount(rows, hits) + |Misses(rows, hits)| == |rows|
    decreases |rows|
  {
    if rows != [] {
      HitsPlusMisses(rows[..|rows| - 1], hits);
    }
  }

  /** The store effect of matching one pending song. */
  function MatchStep(g: Graph, row: PendingSong, hits: map<string, VideoMatch>): (g': Graph)
    ensures g'.songs.Keys == g.songs.Keys && g'.nextId == g.nextId
    ensures g'.artists == g.artists && g'.performedBy == g.performedBy && g'.playlistName == g.playlistName
    ensures Query(row) !in hits ==> g' == g
  {
    var q := Query(row);
    if q in hits then RecordMatch(g, row.songId, hits[q].videoId, q) else g
  }

  /** The store effect of matching `rows` in order. */
  function ApplyMatches(g: Graph, rows: seq<PendingSong>, hits: map<string, VideoMatch>): (g': Graph)
    ensures g'.songs.Keys == g.songs.Keys && g'.nextId == g.nextId
    ensures g'.artists == g.artists && g'.performedBy == g.performedBy && g'.playlistName == g.playlistName
    decreases |rows|
  {
    if rows == [] then g
    else MatchStep(ApplyMatches(g, rows[..|rows| - 1], hits), rows[|rows| - 1], hits)
  }

  /** What matching `rows` did to `g`, giving `g'`: each song whose query found a
      video is MATCHED with that video and query and otherwise as it was (its id
      and its playlist index kept), each song whose query found nothing is as it
      was, no song outside `rows` changed, no node id changed, and nothing but
      songs changed. */
  ghost predicate MatchEffect(g: Graph, rows: seq<PendingSong>, hits: map<string, VideoMatch>, g': Graph) {
    && g'.songs.Keys == g.songs.Keys
    && (forall k :: k in g.songs ==> g'.songs[k].id == g.songs[k].id)
    && (forall i :: 0 <= i < |rows| && Query(rows[i]) in hits && RowKey(rows[i]) in g.songs ==>
          g'.songs[RowKey(rows[i])] == g.songs[RowKey(rows[i])].(
            status := Matched, youtubeId := Some(hits[Query(rows[i])].videoId), queryUsed := Some(Query(rows[i]))))
    && (forall i :: 0 <= i < |rows| && Query(rows[i]) !in hits && RowKey(rows[i]) in g.songs ==>
          g'.songs[RowKey(rows[i])] == g.songs[RowKey(rows[i])])
    && (forall k :: k in g.songs && k !in KeysOf(rows) ==> g'.songs[k] == g.songs[k])
    && g'.artists == g.artists && g'.performedBy == g.performedBy
    && g'.playlistName == g.playlistName && g'.nextId == g.nextId
  }

  /** Matching keeps every stored song's playlist index, hence the playlist order. */
  lemma MatchKeepsOrder(g: Graph, rows: seq<PendingSong>, hits: map<string, VideoMatch>, g': Graph)
    requires MatchEffect(g, rows, hits, g')
    ensures forall k :: k in g.songs ==> k in g'.songs && g'.songs[k].playlistIndex == g.songs[k].playlistIndex
  {
    forall k | k in g.songs ensures g'.songs[k].playlistIndex == g.songs[k].playlistIndex {
      if k in KeysOf(rows) {
        var i :| 0 <= i < |rows| && KeysOf(rows)[i] == k;
        assert RowKey(rows[i]) == k;
      }
    }
  }

  /** `rows` name distinct songs of `g`, each with its node id. */
  ghost predicate RowsOf(g: Graph, rows: seq<PendingSong>) {
    && (forall i :: 0 <= i < |rows| ==> RowKey(rows[i]) in g.songs && rows[i].songId == g.songs[RowKey(rows[i])].id)
    && Distinct(KeysOf(rows))
  }

  lemma RowsOfPrefix(g: Graph, rows: seq<PendingSong>, m: nat)
    requires m <= |rows| && RowsOf(g, rows)
    ensures RowsOf(g, rows[..m])
    ensures forall k :: k !in KeysOf(rows) ==> k !in KeysOf(rows[..m])
  {
    assert KeysOf(rows[..m]) == KeysOf(rows)[..m];
    forall i | 0 <= i < m ensures rows[..m][i] == rows[i] { }
  }

  /** Recording a match for an id that only the node `key` carries updates that node alone. */
  lemma RecordMatchAt(g: Graph, key: SongKey, videoId: string, query: string)
    requires key in g.songs
    requires forall k :: k in g.songs && k != key ==> g.songs[k].id != g.songs[key].id
    ensures RecordMatch(g, g.songs[key].id, videoId, query) ==
              g.(songs := g.songs[key := g.songs[key].(status := Matched, youtubeId := Some(videoId), queryUsed := Some(query))])
  {
    var g1 := RecordMatch(g, g.songs[key].id, videoId, query);
    var g2 := g.(songs := g.songs[key := g.songs[key].(status := Matched, youtubeId := Some(videoId), queryUsed := Some(query))]);
    assert g1.songs == g2.songs;
  }

  /** The keys of `rows[..|rows| - 1]` are those of `rows` but the last, and the last is none of them. */
  lemma KeysOfSnoc(g: Graph, rows: seq<PendingSong>)
    requires rows != [] && RowsOf(g, rows)
    ensures var prefix := rows[..|rows| - 1];
            && KeysOf(rows) == KeysOf(prefix) + [RowKey(rows[|rows| - 1])]
            && RowKey(rows[|rows| - 1]) !in KeysOf(prefix)
            && forall i :: 0 <= i < |prefix| ==> prefix[i] == rows[i] && RowKey(rows[i]) != RowKey(rows[|rows| - 1])
  {
    var n := |rows|;
    var prefix := rows[..n - 1];
    assert KeysOf(rows) == KeysOf(prefix) + [RowKey(rows[n - 1])];
    forall i | 0 <= i < n - 1 ensures prefix[i] == rows[i] && RowKey(rows[i]) != RowKey(rows[n - 1]) {
      assert KeysOf(rows)[i] != KeysOf(rows)[n - 1];
    }
  }

  /** A miss leaves the store as it was. */
  lemma MatchStepMiss(g: Graph, rows: seq<PendingSong>, hits: map<string, VideoMatch>, mid: Graph)
    requires rows != [] && RowsOf(g, rows) && Query(rows[|rows| - 1]) !in hits
    requires MatchEffect(g, rows[..|rows| - 1], hits, mid)
    ensures MatchEffect(g, rows, hits, mid)
  {
    RowsOfPrefix(g, rows, |rows| - 1);
    KeysOfSnoc(g, rows);
  }

  /** Marking the node of the last song MATCHED extends `MatchEffect`. */
  lemma MarkLastEffect(g: Graph, rows: seq<PendingSong>, hits: map<string, VideoMatch>, mid: Graph, g': Graph)
    requires rows != [] && RowsOf(g, rows) && Query(rows[|rows| - 1]) in hits
    requires MatchEffect(g, rows[..|rows| - 1], hits, mid)
    requires var last := rows[|rows| - 1];
             var q := Query(last);
             g' == mid.(songs := mid.songs[RowKey(last) := mid.songs[RowKey(last)].(
                        status := Matched, youtubeId := Some(hits[q].videoId), queryUsed := Some(q))])
    ensures MatchEffect(g, rows, hits, g')
  {
    var n := |rows|;
    var prefix := rows[..n - 1];
    var key := RowKey(rows[n - 1]);
    RowsOfPrefix(g, rows, n - 1);
    KeysOfSnoc(g, rows);
    forall i | 0 <= i < n - 1 ensures g'.songs[RowKey(rows[i])] == mid.songs[RowKey(rows[i])] {
      assert RowKey(rows[i]) != key;
    }
    forall k | k in g.songs && k !in KeysOf(rows) ensures g'.songs[k] == g.songs[k] {
      assert k != key && k !in KeysOf(prefix);
    }
    assert mid.songs[key] == g.songs[key];
  }

  /** A hit updates the node of the song alone, the only one carrying its id. */
  lemma MatchStepHit(g: Graph, rows: seq<PendingSong>, hits: map<string, VideoMatch>, mid: Graph)
    requires rows != [] && IdsDistinct(g.songs) && RowsOf(g, rows) && Query(rows[|rows| - 1]) in hits
    requires MatchEffect(g, rows[..|rows| - 1], hits, mid)
    ensures MatchEffect(g, rows, hits, MatchStep(mid, rows[|rows| - 1], hits))
  {
    var last := rows[|rows| - 1];
    var key := RowKey(last);
    var q := Query(last);
    forall k | k in mid.songs && k != key ensures mid.songs[k].id != mid.songs[key].id {
      assert g.songs[k].id != g.songs[key].id;
    }
    RecordMatchAt(mid, key, hits[q].videoId, q);
    MarkLastEffect(g, rows, hits, mid, MatchStep(mid, last, hits));
  }

  /** Matching one more song extends `MatchEffect`. */
  lemma MatchStepEffect(g: Graph, rows: seq<PendingSong>, hits: map<string, VideoMatch>, mid: Graph)
    requires rows != [] && IdsDistinct(g.songs) && RowsOf(g, rows)
    requires MatchEffect(g, rows[..|rows| - 1], hits, mid)
    ensures MatchEffect(g, rows, hits, MatchStep(mid, rows[|rows| - 1], hits))
  {
    if Query(rows[|rows| - 1]) in hits {
      MatchStepHit(g, rows, hits, mid);
    } else {
      MatchStepMiss(g, rows, hits, mid);
    }
  }

  /** Matching distinct songs of the store has exactly the effect `MatchEffect` describes. */
  lemma {:induction false} ApplyMatchesEffect(g: Graph, rows: seq<PendingSong>, hits: map<string, VideoMatch>)
    requires IdsDistinct(g.songs) && RowsOf(g, rows)
    ensures MatchEffect(g, rows, hits, ApplyMatches(g, rows, hits))
    decreases |rows|
  {
    if rows != [] {
      RowsOfPrefix(g, rows, |rows| - 1);
      ApplyMatchesEffect(g, rows[..|rows| - 1], hits);
      MatchStepEffect(g, rows, hits, ApplyMatches(g, rows[..|rows| - 1], hits));
    }
  }

  /** Extending the prefix `rows[..i]` by one row extends every measure by that row. */
  lemma MatchPrefixStep(g: Graph, rows: seq<PendingSong>, i: nat, hits: map<string, VideoMatch>)
    requires i < |rows|
    ensures Queries(rows[..i + 1]) == Queries(rows[..i]) + [Query(rows[i])]
    ensures ApplyMatches(g, rows[..i + 1], hits) == MatchStep(ApplyMatches(g, rows[..i], hits), rows[i], hits)
    ensures HitCount(rows[..i + 1], hits) == HitCount(rows[..i], hits) + (if Query(rows[i]) in hits then 1 else 0)
    ensures Misses(rows[..i + 1], hits) == Misses(rows[..i], hits) + (if Query(rows[i]) in hits then [] else [NotFoundEntry(rows[i])])
  {
    assert rows[..i + 1][..i] == rows[..i] && rows[..i + 1][i] == rows[i];
  }

  /** One turn of the loop of `run_match`: search for the song with the query
      `title artist` and, on a hit, record the match in the store. */
  method MatchOne(db: FalkordbManager, yt: VideoSearcher, song: PendingSong) returns (found: bool)
    requires db.Valid() && db.connected
    modifies db, yt
    ensures db.Valid()
    ensures db.State() == MatchStep(old(db.State()), song, yt.hits)
    ensures found <==> Query(song) in yt.hits
    ensures yt.searches == old(yt.searches) + [Query(song)]
    ensures yt.creations == old(yt.creations) && yt.additions == old(yt.additions)
  {
    var query := song.title + " " + song.artist;
    var m := yt.SearchVideo(query);
    if m.Some? {
      db.UpdateSongWithYoutubeMatch(song.songId, m.value.videoId, query);
    }
    found := m.Some?;
  }

  /** The loop of `run_match` over `rows`. */
  method MatchSongs(db: FalkordbManager, yt: VideoSearcher, rows: seq<PendingSong>)
    returns (successCount: nat, notFound: seq<string>)
    requires db.Valid() && db.connected
    modifies db, yt
    ensures db.Valid()
    ensures db.State() == ApplyMatches(old(db.State()), rows, yt.hits)
    ensures yt.searches == old(yt.searches) + Queries(rows)
    ensures yt.creations == old(yt.creations) && yt.additions == old(yt.additions)
    ensures successCount == HitCount(rows, yt.hits) && notFound == Misses(rows, yt.hits)
  {
    successCount, notFound := 0, [];
    ghost var g0 := db.State();
    for i := 0 to |rows|
      invariant db.Valid()
      invariant db.State() == ApplyMatches(g0, rows[..i], yt.hits)
      invariant yt.searches == old(yt.searches) + Queries(rows[..i])
      invariant yt.creations == old(yt.creations) && yt.additions == old(yt.additions)
      invariant successCount == HitCount(rows[..i], yt.hits) && notFound == Misses(rows[..i], yt.hits)
    {
      var song := rows[i];
      MatchPrefixStep(g0, rows, i, yt.hits);
      var found := MatchOne(db, yt, song);
      if found {
        successCount := successCount + 1;
      } else {
        notFound := notFound + [song.title + " - " + song.artist];
      }
    }
    assert rows[..|rows|] == rows;
  }

  /** `run_match`: read the pending songs; with none, stop before any search;
      otherwise search each in store order with `title artist`, record a hit in
      the store with that query, and list a miss as `title - artist`. */
  method RunMatch(db: FalkordbManager, yt: VideoSearcher)
    returns (successCount: nat, notFound: seq<string>, ghost pending: seq<PendingSong>)
    requires db.Valid()
    modifies db, yt
    ensures db.Valid()
    ensures !db.connected ==> pending == [] && db.State() == old(db.State())
    ensures db.connected ==> IsListing(old(db.songs), Pending, KeysOf(pending))
    ensures yt.searches == old(yt.searches) + Queries(pending)
    ensures yt.creations == old(yt.creations) && yt.additions == old(yt.additions)
    ensures successCount == HitCount(pending, yt.hits) && notFound == Misses(pending, yt.hits)
    ensures successCount + |notFound| == |pending|
    ensures MatchEffect(old(db.State()), pending, yt.hits, db.State())
    ensures forall k :: k in old(db.songs) ==> k in db.songs && db.songs[k].playlistIndex == old(db.songs)[k].playlistIndex
  {
    var rows := db.FindPendingSongs();
    pending := rows;
    ghost var g0 := db.State();
    assert RowsOf(g0, rows);
    ApplyMatchesEffect(g0, rows, yt.hits);
    MatchKeepsOrder(g0, rows, yt.hits, ApplyMatches(g0, rows, yt.hits));
    HitsPlusMisses(rows, yt.hits);
    if rows == [] {
      return 0, [], pending;
    }
    successCount, notFound := MatchSongs(db, yt, rows);
  }

  /** A playlist id Python treats as true: present and non-empty. */
  predicate IsTruthy(id: Option<string>) {
    id.Some? && id.value != ""
  }

  /** The `add_video_to_playlist` calls for `ids`, in order. */
  function AddCalls(playlistId: string, ids: seq<string>): (calls: seq<(string, string)>)
    ensures |calls| == |ids| && forall i :: 0 <= i < |ids| ==> calls[i] == (playlistId, ids[i])
  {
    seq(|ids|, i requires 0 <= i < |ids| => (playlistId, ids[i]))
  }

  /** `run_create_playlist`: read the matched videos; with none, create nothing;
      otherwise create a playlist named after the stored playlist name and, if an
      id came back, add every video once, in store order, whatever each add returns. */
  method RunCreatePlaylist(db: FalkordbManager, yt: VideoSearcher)
    returns (playlistId: Option<string>, ghost videoIds: seq<string>, ghost keys: seq<SongKey>)
    requires db.Valid()
    modifies yt
    ensures db.connected ==> IsListing(db.songs, Matched, keys)
    ensures !db.connected ==> videoIds == [] && keys == []
    ensures |videoIds| == |keys| && forall i :: 0 <= i < |keys| ==> keys[i] in db.songs && db.songs[keys[i]].youtubeId == Some(videoIds[i])
    ensures yt.searches == old(yt.searches)
    ensures videoIds == [] ==> playlistId.None? && yt.creations == old(yt.creations) && yt.additions == old(yt.additions)
    ensures videoIds != [] ==>
              && playlistId == yt.createdId
              && yt.creations == old(yt.creations) + [(PlaylistNameOf(db.connected, db.State()), PlaylistDescription)]
    ensures videoIds != [] && IsTruthy(playlistId) ==> yt.additions == old(yt.additions) + AddCalls(playlistId.value, videoIds)
    ensures !IsTruthy(playlistId) ==> yt.additions == old(yt.additions)
  {
    var ids;
    ids, keys := db.GetAllMatchedVideoIds();
    videoIds := ids;
    if ids == [] {
      return None, videoIds, keys;
    }
    var name := db.GetPlaylistName();
    playlistId := yt.CreatePlaylist(name, PlaylistDescription);
    if playlistId.Some? && playlistId.value != "" {
      var id := playlistId.value;
      for i := 0 to |ids|
        invariant yt.searches == old(yt.searches)
        invariant yt.creations == old(yt.creations) + [(name, PlaylistDescription)]
        invariant yt.additions == old(yt.additions) + AddCalls(id, ids[..i])
      {
        assert AddCalls(id, ids[..i + 1]) == AddCalls(id, ids[..i]) + [(id, ids[i])];
        var added := yt.AddVideoToPlaylist(id, ids[i]);
      }
      assert ids[..|ids|] == ids;
    }
  }
}
