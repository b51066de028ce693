/** The graph store of src/db/falkordb_manager.py: `Song` nodes keyed by
    (title, artist), `Artist` nodes, `PERFORMED_BY` edges and the singleton
    `PlaylistMeta` node, held in memory. Each Cypher statement is modelled by
    its effect on the graph (a pure function on `Graph`), and the manager class
    applies that effect to its fields. */
module Store {
  import opened Text

  // ---------------------------------------------------------------------------
  // The query-literal sanitizer
  // ---------------------------------------------------------------------------

  /** `_sanitize`: every `'` becomes `\'`; all other characters pass through. */
  function Sanitize(text: string): (r: string)
    ensures |r| == |text| + multiset(text)['\'']
    ensures r == [] || r[0] != '\''
    ensures '\'' !in text ==> r == text
    decreases |text|
  {
    if text == "" then ""
    else
      var rest := Sanitize(text[1..]);
      assert text == [text[0]] + text[1..];
      assert multiset(text) == multiset{text[0]} + multiset(text[1..]);
      (if text[0] == '\'' then "\\'" else [text[0]]) + rest
  }

  /** In a sanitized text every `'` is escaped: a backslash stands right before it. */
  lemma {:induction false} SanitizeEscapes(text: string)
    ensures forall i :: 0 <= i < |Sanitize(text)| && Sanitize(text)[i] == '\'' ==> 0 < i && Sanitize(text)[i - 1] == '\\'
    decreases |text|
  {
    if text != "" {
      SanitizeEscapes(text[1..]);
      var rest := Sanitize(text[1..]);
      var head := if text[0] == '\'' then "\\'" else [text[0]];
      var r := Sanitize(text);
      assert r == head + rest;
      forall i | 0 <= i < |r| && r[i] == '\'' ensures 0 < i && r[i - 1] == '\\' {
        if i < |head| {
          assert r[i] == head[i];
          assert text[0] == '\'' && i == 1;
          assert r[0] == head[0] == '\\';
        } else {
          var j := i - |head|;
          assert rest[j] == '\'';
          assert j > 0;
          assert rest[j - 1] == '\\';
          assert r[i - 1] == rest[j - 1];
        }
      }
    }
  }

  /** Deletes the character in front of every `'`: the inverse of `Sanitize`. */
  function DropBeforeQuotes(s: string): (r: string)
    decreases |s|
  {
    if |s| <= 1 then s
    else (if s[1] == '\'' then "" else [s[0]]) + DropBeforeQuotes(s[1..])
  }

  lemma DropBeforeQuotesCons(c: char, t: string)
    requires t == [] || t[0] != '\''
    ensures DropBeforeQuotes([c] + t) == [c] + DropBeforeQuotes(t)
  {
    if t != [] {
      assert ([c] + t)[1..] == t;
    }
  }

  lemma DropBeforeQuotesEscaped(t: string)
    requires t == [] || t[0] != '\''
    ensures DropBeforeQuotes("\\'" + t) == "'" + DropBeforeQuotes(t)
  {
    assert ("\\'" + t)[1..] == "'" + t;
    DropBeforeQuotesCons('\'', t);
  }

  /** The original text is recovered from its sanitized form. */
  lemma {:induction false} SanitizeRoundTrip(text: string)
    ensures DropBeforeQuotes(Sanitize(text)) == text
    decreases |text|
  {
    if text != "" {
      var rest := Sanitize(text[1..]);
      SanitizeRoundTrip(text[1..]);
      if text[0] == '\'' {
        assert Sanitize(text) == "\\'" + rest;
        DropBeforeQuotesEscaped(rest);
      } else {
        assert Sanitize(text) == [text[0]] + rest;
        DropBeforeQuotesCons(text[0], rest);
      }
      assert text == [text[0]] + text[1..];
    }
  }

  /** Distinct texts give distinct sanitized texts. For texts without a
      backslash, which the Cypher literal stores as written, keying the store
      by sanitized text or by raw text therefore yields the same table. */
  lemma SanitizeInjective(a: string, b: string)
    requires Sanitize(a) == Sanitize(b)
    ensures a == b
  {
    SanitizeRoundTrip(a);
    SanitizeRoundTrip(b);
  }

  // ---------------------------------------------------------------------------
  // The graph
  // ---------------------------------------------------------------------------

  datatype Status = Pending | Matched

  /** A song node; `id` is the engine's node id `ID(s)`. */
  datatype Song = Song(id: nat, status: Status, playlistIndex: int,
                       youtubeId: Option<string>, queryUsed: Option<string>)

  /** The MERGE key (title, artist) of a song node. */
  type SongKey = (string, string)

  /** A `PERFORMED_BY` edge from a song to an artist name. */
  type Edge = (SongKey, string)

  datatype Graph = Graph(
    songs: map<SongKey, Song>,
    artists: set<string>,
    performedBy: set<Edge>,
    playlistName: Option<string>,  // the name of `PlaylistMeta {id: 1}`, if that node exists
    nextId: nat)                    // an id no song node carries yet

  const EmptyGraph := Graph(map[], {}, {}, None, 0)

  const DefaultPlaylistName := "Spotify Playlist"

  ghost predicate IdsDistinct(songs: map<SongKey, Song>) {
    forall k1, k2 :: k1 in songs && k2 in songs && k1 != k2 ==> songs[k1].id != songs[k2].id
  }

  /** The shape every reachable graph has. */
  ghost predicate WellFormed(g: Graph) {
    && IdsDistinct(g.songs)
    && (forall k :: k in g.songs ==> g.songs[k].id < g.nextId)
    && (forall k :: k in g.songs ==>
          && (g.songs[k].status == Matched <==> g.songs[k].youtubeId.Some?)
          && (g.songs[k].status == Matched <==> g.songs[k].queryUsed.Some?))
    && (forall k :: k in g.songs ==> k.1 in g.artists && (k, k.1) in g.performedBy)
    && (forall e :: e in g.performedBy ==> e.0 in g.songs && e.1 == e.0.1)
  }

  /** No song disappears and no MATCHED song goes back to PENDING. */
  ghost predicate NoStatusRegression(g: Graph, g': Graph) {
    forall k :: k in g.songs ==> k in g'.songs && (g.songs[k].status == Matched ==> g'.songs[k].status == Matched)
  }

  /** The effect of `save_song_info(title, artist, index)`: MERGE the song (a new
      one is PENDING with the given index; an existing one only gets the new
      index), MERGE the artist and MERGE the edge between them. */
  function SaveSong(g: Graph, title: string, artist: string, index: int): (g': Graph)
    ensures g'.songs.Keys == g.songs.Keys + {(title, artist)}
    ensures (title, artist) in g.songs ==>
              && g'.songs[(title, artist)] == g.songs[(title, artist)].(playlistIndex := index)
              && g'.nextId == g.nextId
    ensures (title, artist) !in g.songs ==>
              && g'.songs[(title, artist)] == Song(g.nextId, Pending, index, None, None)
              && g'.nextId == g.nextId + 1
    ensures forall k :: k in g.songs && k != (title, artist) ==> g'.songs[k] == g.songs[k]
    ensures g'.artists == g.artists + {artist}
    ensures g'.performedBy == g.performedBy + {((title, artist), artist)}
    ensures g'.playlistName == g.playlistName
  {
    var key := (title, artist);
    var song := if key in g.songs then g.songs[key].(playlistIndex := index)
                else Song(g.nextId, Pending, index, None, None);
    Graph(g.songs[key := song], g.artists + {artist}, g.performedBy + {(key, artist)},
          g.playlistName, if key in g.songs then g.nextId else g.nextId + 1)
  }

  /** The effect of `save_playlist_name(name)`: the single `PlaylistMeta` node now carries `name`. */
  function SavePlaylistName(g: Graph, name: string): (g': Graph)
    ensures g'.playlistName == Some(name)
    ensures g'.songs == g.songs && g'.artists == g.artists && g'.performedBy == g.performedBy
    ensures g'.nextId == g.nextId
  {
    g.(playlistName := Some(name))
  }

  /** What `get_playlist_name` returns for graph `g` (`connected` says whether there is a graph at all). */
  function PlaylistNameOf(connected: bool, g: Graph): (name: string)
    ensures !connected || g.playlistName.None? ==> name == DefaultPlaylistName
    ensures connected && g.playlistName.Some? ==> name == g.playlistName.value
  {
    if connected && g.playlistName.Some? then g.playlistName.value else DefaultPlaylistName
  }

  /** The effect of `update_song_with_youtube_match(songId, videoId, query)`:
      the song node with that id becomes MATCHED with the video and the query;
      no other node changes. */
  function RecordMatch(g: Graph, songId: nat, videoId: string, query: string): (g': Graph)
    ensures g'.songs.Keys == g.songs.Keys
    ensures forall k :: k in g.songs && g.songs[k].id == songId ==>
              && g'.songs[k].status == Matched
              && g'.songs[k].youtubeId == Some(videoId)
              && g'.songs[k].queryUsed == Some(query)
              && g'.songs[k].id == songId
              && g'.songs[k].playlistIndex == g.songs[k].playlistIndex
    ensures forall k :: k in g.songs && g.songs[k].id != songId ==> g'.songs[k] == g.songs[k]
    ensures g'.artists == g.artists && g'.performedBy == g.performedBy
    ensures g'.playlistName == g.playlistName && g'.nextId == g.nextId
  {
    g.(songs := map k | k in g.songs ::
         if g.songs[k].id == songId
         then g.songs[k].(status := Matched, youtubeId := Some(videoId), queryUsed := Some(query))
         else g.songs[k])
  }

  /** The effect of `clear_database`: every node and edge is deleted. */
  function Clear(g: Graph): (g': Graph)
    ensures g'.songs == map[] && g'.artists == {} && g'.performedBy == {} && g'.playlistName.None?
  {
    EmptyGraph.(nextId := g.nextId)
  }

  // ---------------------------------------------------------------------------
  // Properties of the effects
  // ---------------------------------------------------------------------------

  lemma SaveSongWellFormed(g: Graph, title: string, artist: string, index: int)
    requires WellFormed(g)
    ensures WellFormed(SaveSong(g, title, artist, index))
  {
    var g' := SaveSong(g, title, artist, index);
    var key := (title, artist);
    forall k1, k2 | k1 in g'.songs && k2 in g'.songs && k1 != k2
      ensures g'.songs[k1].id != g'.songs[k2].id
    {
      if k1 != key && k2 != key {
        assert g'.songs[k1] == g.songs[k1] && g'.songs[k2] == g.songs[k2];
      }
    }
    forall k | k in g'.songs
      ensures g'.songs[k].id < g'.nextId
      ensures g'.songs[k].status == Matched <==> g'.songs[k].youtubeId.Some?
      ensures g'.songs[k].status == Matched <==> g'.songs[k].queryUsed.Some?
      ensures k.1 in g'.artists && (k, k.1) in g'.performedBy
    {
      if k != key {
        assert g'.songs[k] == g.songs[k];
      }
    }
  }

  lemma SavePlaylistNameWellFormed(g: Graph, name: string)
    requires WellFormed(g)
    ensures WellFormed(SavePlaylistName(g, name))
  {
  }

  lemma RecordMatchWellFormed(g: Graph, songId: nat, videoId: string, query: string)
    requires WellFormed(g)
    ensures WellFormed(RecordMatch(g, songId, videoId, query))
  {
    var g' := RecordMatch(g, songId, videoId, query);
    assert forall k :: k in g.songs ==> g'.songs[k].id == g.songs[k].id;
  }

  lemma ClearWellFormed(g: Graph)
    ensures WellFormed(Clear(g))
  {
  }

  /** Re-saving a song keeps its status, video and query: a re-scrape never erases a match. */
  lemma SaveSongKeepsMatch(g: Graph, title: string, artist: string, index: int)
    ensures NoStatusRegression(g, SaveSong(g, title, artist, index))
    ensures forall k :: k in g.songs ==>
              var s' := SaveSong(g, title, artist, index).songs[k];
              s'.status == g.songs[k].status && s'.youtubeId == g.songs[k].youtubeId &&
              s'.queryUsed == g.songs[k].queryUsed && s'.id == g.songs[k].id
  {
  }

  /** Saving the same song twice is the same as saving it once: MERGE creates no second node, artist or edge. */
  lemma SaveSongIdempotent(g: Graph, title: string, artist: string, index: int)
    ensures SaveSong(SaveSong(g, title, artist, index), title, artist, index) == SaveSong(g, title, artist, index)
  {
    var g1 := SaveSong(g, title, artist, index);
    var g2 := SaveSong(g1, title, artist, index);
    assert g2.songs == g1.songs;
  }

  /** Saving a song twice with different indices leaves one song with the second index. */
  lemma SaveSongTwice(g: Graph, title: string, artist: string, i1: int, i2: int)
    ensures var g2 := SaveSong(SaveSong(g, title, artist, i1), title, artist, i2);
            && g2.songs.Keys == g.songs.Keys + {(title, artist)}
            && g2.songs[(title, artist)].playlistIndex == i2
            && g2.songs[(title, artist)].status == (if (title, artist) in g.songs then g.songs[(title, artist)].status else Pending)
  {
  }

  lemma RecordMatchMonotone(g: Graph, songId: nat, videoId: string, query: string)
    ensures NoStatusRegression(g, RecordMatch(g, songId, videoId, query))
  {
  }

  /** Recording the same match twice leaves the graph as after the first time. */
  lemma RecordMatchIdempotent(g: Graph, songId: nat, videoId: string, query: string)
    ensures RecordMatch(RecordMatch(g, songId, videoId, query), songId, videoId, query)
         == RecordMatch(g, songId, videoId, query)
  {
    var g1 := RecordMatch(g, songId, videoId, query);
    var g2 := RecordMatch(g1, songId, videoId, query);
    assert g2.songs == g1.songs;
  }

  /** The playlist name read back is the one saved last. */
  lemma SaveThenReadPlaylistName(g: Graph, first: string, second: string)
    ensures PlaylistNameOf(true, SavePlaylistName(g, first)) == first
    ensures PlaylistNameOf(true, SavePlaylistName(SavePlaylistName(g, first), second)) == second
    ensures PlaylistNameOf(true, Clear(SavePlaylistName(g, first))) == DefaultPlaylistName
  {
  }

  // ---------------------------------------------------------------------------
  // Ordered listings (the ORDER BY playlist_index reads)
  // ---------------------------------------------------------------------------

  ghost predicate Distinct(keys: seq<SongKey>) {
    forall i, j :: 0 <= i < j < |keys| ==> keys[i] != keys[j]
  }

  ghost predicate SortedByIndex(songs: map<SongKey, Song>, keys: seq<SongKey>) {
    forall i, j :: 0 <= i < j < |keys| && keys[i] in songs && keys[j] in songs ==>
      songs[keys[i]].playlistIndex <= songs[keys[j]].playlistIndex
  }

  /** `keys` lists every song with status `status` exactly once, ascending by `playlist_index`. */
  ghost predicate IsListing(songs: map<SongKey, Song>, status: Status, keys: seq<SongKey>) {
    && (forall i :: 0 <= i < |keys| ==> keys[i] in songs && songs[keys[i]].status == status)
    && (forall k :: k in songs && songs[k].status == status ==> k in keys)
    && Distinct(keys)
    && SortedByIndex(songs, keys)
  }

  lemma DistinctCons(x: SongKey, keys: seq<SongKey>)
    requires Distinct(keys) && x !in keys
    ensures Distinct([x] + keys)
  {
    var r := [x] + keys;
    forall i, j | 0 <= i < j < |r| ensures r[i] != r[j] {
      if i == 0 {
        assert r[j] == keys[j - 1];
      } else {
        assert r[i] == keys[i - 1] && r[j] == keys[j - 1];
      }
    }
  }

  lemma SortedCons(songs: map<SongKey, Song>, x: SongKey, keys: seq<SongKey>)
    requires x in songs && SortedByIndex(songs, keys)
    requires forall y :: y in keys && y in songs ==> songs[x].playlistIndex <= songs[y].playlistIndex
    ensures SortedByIndex(songs, [x] + keys)
  {
    var r := [x] + keys;
    forall i, j | 0 <= i < j < |r| && r[i] in songs && r[j] in songs
      ensures songs[r[i]].playlistIndex <= songs[r[j]].playlistIndex
    {
      assert r[j] == keys[j - 1];
      if i > 0 {
        assert r[i] == keys[i - 1];
      }
    }
  }

  /** Putting `k` in front of keys whose indices are all greater keeps the order and the distinctness. */
  lemma InsertFront(songs: map<SongKey, Song>, keys: seq<SongKey>, k: SongKey)
    requires k in songs && keys != [] && keys[0] in songs
    requires songs[k].playlistIndex < songs[keys[0]].playlistIndex
    ensures SortedByIndex(songs, keys) ==> SortedByIndex(songs, [k] + keys)
    ensures Distinct(keys) && k !in keys ==> Distinct([k] + keys)
  {
    if SortedByIndex(songs, keys) {
      forall y | y in keys && y in songs ensures songs[k].playlistIndex <= songs[y].playlistIndex {
        var j :| 0 <= j < |keys| && keys[j] == y;
        if j > 0 {
          assert songs[keys[0]].playlistIndex <= songs[keys[j]].playlistIndex;
        }
      }
      SortedCons(songs, k, keys);
    }
    if Distinct(keys) && k !in keys {
      DistinctCons(k, keys);
    }
  }

  /** Keeping the head of `keys` in front of the insertion into its tail keeps the order and the distinctness. */
  lemma InsertBehind(songs: map<SongKey, Song>, keys: seq<SongKey>, k: SongKey, tail: seq<SongKey>)
    requires keys != [] && keys[0] in songs
    requires forall x :: x in tail <==> x in keys[1..] || x == k
    requires SortedByIndex(songs, keys[1..]) ==> SortedByIndex(songs, tail)
    requires Distinct(keys[1..]) && k !in keys[1..] ==> Distinct(tail)
    requires k in songs && songs[keys[0]].playlistIndex <= songs[k].playlistIndex
    ensures SortedByIndex(songs, keys) ==> SortedByIndex(songs, [keys[0]] + tail)
    ensures Distinct(keys) && k !in keys ==> Distinct([keys[0]] + tail)
  {
    if SortedByIndex(songs, keys) {
      assert SortedByIndex(songs, keys[1..]);
      forall y | y in tail && y in songs ensures songs[keys[0]].playlistIndex <= songs[y].playlistIndex {
        if y != k {
          var j :| 0 <= j < |keys[1..]| && keys[1..][j] == y;
          assert songs[keys[0]].playlistIndex <= songs[keys[j + 1]].playlistIndex;
        }
      }
      SortedCons(songs, keys[0], tail);
    }
    if Distinct(keys) && k !in keys {
      assert Distinct(keys[1..]);
      assert keys[0] !in keys[1..];
      DistinctCons(keys[0], tail);
    }
  }

  /** Inserts `k` into `keys` after every key whose index is not greater. */
  function InsertByIndex(songs: map<SongKey, Song>, keys: seq<SongKey>, k: SongKey): (r: seq<SongKey>)
    requires k in songs && forall x :: x in keys ==> x in songs
    ensures |r| == |keys| + 1
    ensures forall x :: x in r <==> x in keys || x == k
    ensures SortedByIndex(songs, keys) ==> SortedByIndex(songs, r)
    ensures Distinct(keys) && k !in keys ==> Distinct(r)
    decreases |keys|
  {
    if keys == [] then [k]
    else if songs[k].playlistIndex < songs[keys[0]].playlistIndex then
      InsertFront(songs, keys, k);
      [k] + keys
    else
      var tail := InsertByIndex(songs, keys[1..], k);
      assert keys == [keys[0]] + keys[1..];
      InsertBehind(songs, keys, k, tail);
      [keys[0]] + tail
  }

  // ---------------------------------------------------------------------------
  // The manager
  // ---------------------------------------------------------------------------

  /** A row of `find_pending_songs`: `{"title", "artist", "song_id"}`. */
  datatype PendingSong = PendingSong(title: string, artist: string, songId: nat)

  function RowKey(row: PendingSong): SongKey {
    (row.title, row.artist)
  }

  function KeysOf(rows: seq<PendingSong>): (keys: seq<SongKey>)
    ensures |keys| == |rows| && forall i :: 0 <= i < |rows| ==> keys[i] == RowKey(rows[i])
  {
    seq(|rows|, i requires 0 <= i < |rows| => RowKey(rows[i]))
  }

  /** The videos of the MATCHED songs. */
  function MatchedVideos(songs: map<SongKey, Song>): set<string> {
    set k | k in songs && songs[k].status == Matched && songs[k].youtubeId.Some? :: songs[k].youtubeId.value
  }

  /** `FalkordbManager`: `connected` says whether a graph handle was obtained
      when the manager was built; without one every operation is a no-op or
      returns its default. */
  class FalkordbManager {
    const connected: bool
    var songs: map<SongKey, Song>
    var artists: set<string>
    var performedBy: set<Edge>
    var playlistName: Option<string>
    var nextId: nat

    function State(): Graph
      reads this
    {
      Graph(songs, artists, performedBy, playlistName, nextId)
    }

    ghost predicate Valid()
      reads this
    {
      WellFormed(State())
    }

    /** Attaching to the graph: the manager sees whatever the named graph
        already holds; `connected` is false when no handle was obtained. */
    constructor (connected: bool, persisted: Graph)
      requires WellFormed(persisted)
      ensures Valid() && this.connected == connected && State() == persisted
    {
      this.connected := connected;
      songs, artists, performedBy := persisted.songs, persisted.artists, persisted.performedBy;
      playlistName, nextId := persisted.playlistName, persisted.nextId;
    }

    method SaveSongInfo(title: string, artist: string, index: int)
      requires Valid()
      modifies this
      ensures Valid()
      ensures State() == if connected then SaveSong(old(State()), title, artist, index) else old(State())
    {
      if !connected {
        return;
      }
      ghost var g := State();
      SaveSongWellFormed(g, title, artist, index);
      var key := (title, artist);
      if key in songs {
        songs := songs[key := songs[key].(playlistIndex := index)];
      } else {
        songs := songs[key := Song(nextId, Pending, index, None, None)];
        nextId := nextId + 1;
      }
      artists := artists + {artist};
      performedBy := performedBy + {(key, artist)};
      assert State() == SaveSong(g, title, artist, index);
    }

    method SavePlaylistNameInfo(name: string)
      requires Valid()
      modifies this
      ensures Valid()
      ensures State() == if connected then SavePlaylistName(old(State()), name) else old(State())
    {
      if !connected {
        return;
      }
      playlistName := Some(name);
    }

    /** `get_playlist_name`. */
    function GetPlaylistName(): (name: string)
      reads this
      ensures name == PlaylistNameOf(connected, State())
      ensures connected && playlistName.Some? ==> name == playlistName.value
      ensures !connected || playlistName.None? ==> name == DefaultPlaylistName
    {
      PlaylistNameOf(connected, State())
    }

    /** The keys of all songs with `status`, ordered by `playlist_index`; ties come in any order. */
    method ListByIndex(status: Status) returns (keys: seq<SongKey>)
      ensures IsListing(songs, status, keys)
    {
      keys := [];
      var rest := songs.Keys;
      while rest != {}
        invariant rest <= songs.Keys
        invariant forall x :: x in keys ==> x in songs && x !in rest && songs[x].status == status
        invariant forall k :: k in songs && k !in rest && songs[k].status == status ==> k in keys
        invariant Distinct(keys)
        invariant SortedByIndex(songs, keys)
        decreases rest
      {
        var k :| k in rest;
        if songs[k].status == status {
          keys := InsertByIndex(songs, keys, k);
        }
        rest := rest - {k};
      }
    }

    /** `find_pending_songs`: every PENDING song once, ascending by `playlist_index`. */
    method FindPendingSongs() returns (rows: seq<PendingSong>)
      requires Valid()
      ensures !connected ==> rows == []
      ensures connected ==> IsListing(songs, Pending, KeysOf(rows))
      ensures forall i :: 0 <= i < |rows| ==> RowKey(rows[i]) in songs && rows[i].songId == songs[RowKey(rows[i])].id
    {
      if !connected {
        return [];
      }
      var keys := ListByIndex(Pending);
      var m := songs;
      rows := seq(|keys|, i requires 0 <= i < |keys| => PendingSong(keys[i].0, keys[i].1, m[keys[i]].id));
      assert KeysOf(rows) == keys;
    }

    /** `update_song_with_youtube_match`. */
    method UpdateSongWithYoutubeMatch(songId: nat, videoId: string, query: string)
      requires Valid()
      modifies this
      ensures Valid()
      ensures State() == if connected then RecordMatch(old(State()), songId, videoId, query) else old(State())
    {
      if !connected {
        return;
      }
      RecordMatchWellFormed(State(), songId, videoId, query);
      songs := map k | k in songs ::
        if songs[k].id == songId
        then songs[k].(status := Matched, youtubeId := Some(videoId), queryUsed := Some(query))
        else songs[k];
    }

    /** `get_all_matched_video_ids`: the video of every MATCHED song, ascending by
        `playlist_index`; `keys` names the songs they come from. */
    method GetAllMatchedVideoIds() returns (ids: seq<string>, ghost keys: seq<SongKey>)
      requires Valid()
      ensures !connected ==> ids == [] && keys == []
      ensures connected ==> IsListing(songs, Matched, keys)
      ensures |ids| == |keys|
      ensures forall i :: 0 <= i < |ids| ==> keys[i] in songs && songs[keys[i]].youtubeId == Some(ids[i])
      ensures connected ==> (set i | 0 <= i < |ids| :: ids[i]) == MatchedVideos(songs)
    {
      if !connected {
        return [], [];
      }
      var matched := ListByIndex(Matched);
      var m := songs;
      ids := seq(|matched|, i requires 0 <= i < |matched| => m[matched[i]].youtubeId.value);
      keys := matched;
      forall v | v in MatchedVideos(songs) ensures v in ids {
        var k :| k in songs && songs[k].status == Matched && songs[k].youtubeId == Some(v);
        var i :| 0 <= i < |keys| && keys[i] == k;
        assert ids[i] == v;
      }
    }

    /** `clear_database`. */
    method ClearDatabase()
      requires Valid()
      modifies this
      ensures Valid()
      ensures State() == if connected then Clear(old(State())) else old(State())
    {
      if !connected {
        return;
      }
      songs, artists, performedBy, playlistName := map[], {}, {}, None;
    }
  }
}
