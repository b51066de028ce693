/** The scrape side of src/scraper/spotify_spider.py. The browser is replaced by
    what it lets the spider observe: the header facts read by
    `_extract_playlist_info`/`_find_artist`, the track rows seen by the in-page
    script of `_extract_songs_js`, and the oEmbed answers of `_fallback_parse`.
    Over those, the title/artist heuristics are functions, and `parse` is a
    method whose emitted items are tied to the specification `ScrapedSongs`. */
module Spider {
  import opened Text
  import opened Models

  const UnknownArtist := "Unknown"
  const DefaultPlaylistTitle := "Spotify Playlist"
  const By := " by "

  /** A track `{title, artist}` as the in-page script returns it. */
  datatype Track = Track(title: string, artist: string)

  /** What the in-page script observes about one track row. */
  datatype Row = Row(
    titleText: Option<string>,         // innerText of the row's title element, if the row has one
    ariaLabel: string,                 // the row's aria-label; "" when absent
    artistLinks: seq<string>,          // innerText of each `/artist/` link in the row
    siblingTexts: seq<string>,         // innerText of each text span or div under the title element's parent
    ancestors: seq<(string, string)>)  // (data-testid, aria-label) of each ancestor below <body>; "" when absent

  /** What `_extract_playlist_info` and `_find_artist` observe about the page. */
  datatype Header = Header(
    h1Rendered: bool,                  // an <h1> appeared within the 7 s wait
    h1Text: Option<string>,            // innerText of the <h1>, if `query_selector` found one
    creatorLink: Option<string>,       // innerText of the creator link, if present
    headerArtistLink: Option<string>,  // innerText of the entity header's artist link, if present
    metaDescription: string,           // content of og:description; "" when absent
    pageTitle: string)

  /** A field of a JSON object: the key is missing, it holds null, or it holds a string. */
  datatype JsonField = Missing | Null | Str(text: string)

  /** `data.get(key, default)` as it reaches the store: the default when the key
      is missing, "" when it holds null (the `None` that `_sanitize` stores as
      ''), and the string otherwise. */
  function StoredField(f: JsonField, default: string): (v: string)
    ensures f.Missing? ==> v == default
    ensures f.Null? ==> v == ""
    ensures f.Str? ==> v == f.text
  {
    match f
    case Missing => default
    case Null => ""
    case Str(t) => t
  }

  /** One oEmbed answer. */
  datatype OEmbed = OEmbed(title: JsonField, authorName: JsonField)

  datatype Page = Page(
    header: Header,
    tracklist: Option<seq<Row>>,       // rows of the playlist (or else album) tracklist container, if there is one
    documentRows: seq<Row>,            // every row of the document
    oembed: seq<Option<OEmbed>>)       // the answer for each `music:song` URL, in order; None when the fetch failed

  /** The first present entry of `tiers`, or `default`. */
  function FirstHit(tiers: seq<Option<string>>, default: string): string
    decreases |tiers|
  {
    if tiers == [] then default
    else match tiers[0]
      case Some(v) => v
      case None => FirstHit(tiers[1..], default)
  }

  /** The first non-empty entry of `tiers`, or `default`. */
  function FirstNonEmpty(tiers: seq<string>, default: string): string
    decreases |tiers|
  {
    if tiers == [] then default
    else if tiers[0] != "" then tiers[0]
    else FirstNonEmpty(tiers[1..], default)
  }

  function TrimAll(texts: seq<string>): (r: seq<string>)
    ensures |r| == |texts| && forall i :: 0 <= i < |texts| ==> r[i] == Trim(texts[i])
  {
    seq(|texts|, i requires 0 <= i < |texts| => Trim(texts[i]))
  }

  // ---------------------------------------------------------------------------
  // `_find_artist` and `_extract_playlist_info`
  // ---------------------------------------------------------------------------

  /** Tier 3: the og:description text before the first '·', trimmed, unless it is Spotify's own blurb. */
  function MetaTier(h: Header): (c: Option<string>)
    ensures h.metaDescription == "" ==> c.None?
    ensures c.Some? ==> !Contains(c.value, "Listen to") && !Contains(c.value, "Spotify")
  {
    if h.metaDescription == "" then None
    else
      var candidate := Trim(Split(h.metaDescription, "\U{B7}")[0]);
      if !Contains(candidate, "Listen to") && !Contains(candidate, "Spotify") then Some(candidate) else None
  }

  /** Tier 4: the page-title text after the first " by ", up to the next " by " and then up to " |", trimmed. */
  function PageTitleTier(h: Header): (c: Option<string>)
    ensures c.Some? <==> Contains(h.pageTitle, By)
    ensures c.Some? ==> !Contains(c.value, " |")
  {
    if Contains(h.pageTitle, By) then
      var parts := Split(h.pageTitle, By);
      var head := Split(parts[1], " |")[0];
      TrimNotContains(head, " |");
      Some(Trim(head))
    else None
  }

  /** The artist sources of `_find_artist`, most trusted first. */
  function ArtistSources(h: Header): seq<Option<string>> {
    [ if h.creatorLink.Some? then Some(Trim(h.creatorLink.value)) else None,
      if h.headerArtistLink.Some? then Some(Trim(h.headerArtistLink.value)) else None,
      MetaTier(h),
      PageTitleTier(h) ]
  }

  /** `_find_artist`: the creator link, else the header artist link, else the
      description tier, else the page-title tier, else "Unknown". */
  function FindArtist(h: Header): (artist: string)
    ensures h.creatorLink.Some? ==> artist == Trim(h.creatorLink.value)
    ensures h.creatorLink.None? && h.headerArtistLink.None? && MetaTier(h).Some? ==>
              !Contains(artist, "Listen to") && !Contains(artist, "Spotify")
  {
    if h.creatorLink.Some? then Trim(h.creatorLink.value)
    else if h.headerArtistLink.Some? then Trim(h.headerArtistLink.value)
    else match MetaTier(h)
      case Some(candidate) => candidate
      case None =>
        match PageTitleTier(h)
        case Some(a) => a
        case None => UnknownArtist
  }

  lemma FirstHitCons(x: Option<string>, rest: seq<Option<string>>, default: string)
    ensures FirstHit([x] + rest, default) == if x.Some? then x.value else FirstHit(rest, default)
  {
    assert ([x] + rest)[1..] == rest;
  }

  lemma FirstHitOfFour(a: Option<string>, b: Option<string>, c: Option<string>, d: Option<string>, default: string)
    ensures FirstHit([a, b, c, d], default) ==
              if a.Some? then a.value else if b.Some? then b.value else if c.Some? then c.value
              else if d.Some? then d.value else default
  {
    FirstHitCons(d, [], default);
    assert [c, d] == [c] + [d];
    FirstHitCons(c, [d], default);
    assert [b, c, d] == [b] + [c, d];
    FirstHitCons(b, [c, d], default);
    assert [a, b, c, d] == [a] + [b, c, d];
    FirstHitCons(a, [b, c, d], default);
  }

  lemma FirstNonEmptyOfFour(a: string, b: string, c: string, d: string, default: string)
    ensures FirstNonEmpty([a, b, c, d], default) ==
              if a != "" then a else if b != "" then b else if c != "" then c
              else if d != "" then d else default
  {
    FirstNonEmptyCons(d, [], default);
    assert [c, d] == [c] + [d];
    FirstNonEmptyCons(c, [d], default);
    assert [b, c, d] == [b] + [c, d];
    FirstNonEmptyCons(b, [c, d], default);
    assert [a, b, c, d] == [a] + [b, c, d];
    FirstNonEmptyCons(a, [b, c, d], default);
  }

  lemma FirstNonEmptyCons(x: string, rest: seq<string>, default: string)
    ensures FirstNonEmpty([x] + rest, default) == if x != "" then x else FirstNonEmpty(rest, default)
  {
    assert ([x] + rest)[1..] == rest;
  }

  /** `_find_artist` tries its sources strictly in order of trust. */
  lemma FindArtistTiers(h: Header)
    ensures FindArtist(h) == FirstHit(ArtistSources(h), UnknownArtist)
  {
    var s := ArtistSources(h);
    FirstHitOfFour(s[0], s[1], s[2], s[3], UnknownArtist);
    assert s == [s[0], s[1], s[2], s[3]];
  }

  /** `_extract_playlist_info`: (playlist title, default artist). When the <h1>
      wait times out both keep their defaults. */
  function PlaylistInfo(h: Header): (info: (string, string))
    ensures !h.h1Rendered ==> info == (DefaultPlaylistTitle, UnknownArtist)
    ensures h.h1Rendered ==> info.1 == FindArtist(h)
    ensures h.h1Rendered && h.h1Text.None? ==> info.0 == DefaultPlaylistTitle
    ensures h.h1Rendered && h.h1Text.Some? ==> info.0 == Trim(h.h1Text.value)
  {
    if !h.h1Rendered then (DefaultPlaylistTitle, UnknownArtist)
    else
      var title := if h.h1Text.Some? then Trim(h.h1Text.value) else DefaultPlaylistTitle;
      (title, FindArtist(h))
  }

  // ---------------------------------------------------------------------------
  // The in-page row heuristics of `_extract_songs_js`
  // ---------------------------------------------------------------------------

  predicate IsRecommendationRegion(testId: string, ariaLabel: string) {
    Contains(testId, "recommend") || Contains(ariaLabel, "Recommended") || Contains(ariaLabel, "\U{D6}nerilenler")
  }

  /** Some ancestor of the row below <body> is a recommendations region. */
  predicate InRecommendations(row: Row) {
    exists i :: 0 <= i < |row.ancestors| && IsRecommendationRegion(row.ancestors[i].0, row.ancestors[i].1)
  }

  function DropRecommendations(rows: seq<Row>): (kept: seq<Row>)
    ensures |kept| <= |rows|
    ensures forall r :: r in kept <==> r in rows && !InRecommendations(r)
    decreases |rows|
  {
    if rows == [] then []
    else
      assert forall r :: r in rows <==> r == rows[0] || r in rows[1..];
      (if InRecommendations(rows[0]) then [] else [rows[0]]) + DropRecommendations(rows[1..])
  }

  lemma DropRecommendationsOne(row: Row)
    ensures DropRecommendations([row]) == if InRecommendations(row) then [] else [row]
  {
    assert [row][1..] == [];
  }

  /** The filter keeps the order and the repeats of the rows it keeps. */
  lemma {:induction false} DropRecommendationsAppend(a: seq<Row>, b: seq<Row>)
    ensures DropRecommendations(a + b) == DropRecommendations(a) + DropRecommendations(b)
    decreases |a|
  {
    if a == [] {
      assert a + b == b;
    } else {
      TailOfAppend(a, b);
      DropRecommendationsAppend(a[1..], b);
    }
  }

  /** The rows the script reads: the tracklist container's rows as they are, or
      else every document row outside a recommendations region. */
  function RowsToScan(page: Page): (rows: seq<Row>)
    ensures page.tracklist.Some? ==> rows == page.tracklist.value
    ensures page.tracklist.None? ==> forall r :: r in rows <==> r in page.documentRows && !InRecommendations(r)
    ensures page.tracklist.None? ==> rows == DropRecommendations(page.documentRows)
  {
    match page.tracklist
    case Some(container) => container
    case None => DropRecommendations(page.documentRows)
  }

  /** The title sources of a row: its title element's text, else its aria-label
      cut at the first " by " (trimmed), else the whole aria-label. */
  function TitleSources(row: Row): seq<Option<string>> {
    [ if row.titleText.Some? then Some(Trim(row.titleText.value)) else None,
      if row.ariaLabel == "" then None
      else if Contains(row.ariaLabel, By) then Some(Trim(Split(row.ariaLabel, By)[0]))
      else Some(row.ariaLabel) ]
  }

  /** The row title of the script: the title element's text, else the aria-label
      before its first " by ", else the aria-label, else "". */
  function RowTitle(row: Row): (title: string)
    ensures row.titleText.Some? ==> title == Trim(row.titleText.value)
    ensures row.titleText.None? ==> !Contains(title, By)
  {
    if row.titleText.Some? then Trim(row.titleText.value)
    else if row.ariaLabel == "" then ""
    else if Contains(row.ariaLabel, By) then
      var head := Split(row.ariaLabel, By)[0];
      TrimNotContains(head, By);
      Trim(head)
    else row.ariaLabel
  }

  /** The row title is the first title source that is present. */
  lemma RowTitleTiers(row: Row)
    ensures RowTitle(row) == FirstHit(TitleSources(row), "")
  {
    var s := TitleSources(row);
    assert s == [s[0]] + ([s[1]] + []);
    FirstHitCons(s[1], [], "");
    FirstHitCons(s[0], [s[1]], "");
  }

  /** A title for which the script drops the row. */
  predicate IsPlaceholderTitle(title: string) {
    title == "" || title == "Title" || title == "#"
  }

  /** A sibling text the script may take as the artist: not the title, not
      empty, not the explicit marker "E" and not a bullet. */
  predicate Usable(t: string, title: string) {
    t != title && t != "" && t != "E" && t != "\U{2022}"
  }

  /** The first usable sibling text, or "" when there is none. */
  function FirstUsableText(texts: seq<string>, title: string): (t: string)
    ensures t == "" <==> forall u :: u in texts ==> !Usable(u, title)
    ensures t != "" ==> Usable(t, title)
    ensures t != "" ==> exists i :: 0 <= i < |texts| && texts[i] == t && forall j :: 0 <= j < i ==> !Usable(texts[j], title)
    decreases |texts|
  {
    if texts == [] then ""
    else
      var t := texts[0];
      if Usable(t, title) then t
      else
        var r := FirstUsableText(texts[1..], title);
        assert forall u :: u in texts <==> u == t || u in texts[1..];
        assert r != "" ==> exists i :: 0 <= i < |texts| && texts[i] == r && forall j :: 0 <= j < i ==> !Usable(texts[j], title) by {
          if r != "" {
            var i :| 0 <= i < |texts[1..]| && texts[1..][i] == r && forall j :: 0 <= j < i ==> !Usable(texts[1..][j], title);
            assert texts[i + 1] == r;
            assert forall j :: 0 <= j < i + 1 ==> !Usable(texts[j], title) by {
              forall j | 0 <= j < i + 1 ensures !Usable(texts[j], title) {
                if j > 0 { assert texts[j] == texts[1..][j - 1]; }
              }
            }
          }
        }
        r
  }

  /** The artist sources of a row, in the order the script tries them. */
  function ArtistSourcesOfRow(row: Row, title: string, defaultArtist: string, isAlbum: bool): seq<string> {
    [ Join(TrimAll(row.artistLinks), ", "),
      if row.titleText.Some? then FirstUsableText(TrimAll(row.siblingTexts), title) else "",
      if row.ariaLabel != "" && Contains(row.ariaLabel, By)
      then var parts := Split(row.ariaLabel, By); Trim(parts[|parts| - 1])
      else "",
      if isAlbum && defaultArtist != UnknownArtist then defaultArtist else "" ]
  }

  /** The artist of a row: the first source that is non-empty, else "Unknown"; never empty. */
  function RowArtist(row: Row, title: string, defaultArtist: string, isAlbum: bool): (artist: string)
    ensures artist != ""
  {
    var links := Join(TrimAll(row.artistLinks), ", ");
    var a1 := if links != "" then links
              else if row.titleText.Some? then FirstUsableText(TrimAll(row.siblingTexts), title)
              else "";
    var a2 := if a1 != "" then a1
              else if row.ariaLabel != "" && Contains(row.ariaLabel, By)
              then var parts := Split(row.ariaLabel, By); Trim(parts[|parts| - 1])
              else "";
    var a3 := if a2 != "" then a2
              else if isAlbum && defaultArtist != UnknownArtist then defaultArtist
              else "";
    if a3 == "" then UnknownArtist else a3
  }

  /** The row artist is the first artist source that is non-empty. */
  lemma RowArtistTiers(row: Row, title: string, defaultArtist: string, isAlbum: bool)
    ensures RowArtist(row, title, defaultArtist, isAlbum) == FirstNonEmpty(ArtistSourcesOfRow(row, title, defaultArtist, isAlbum), UnknownArtist)
  {
    var s := ArtistSourcesOfRow(row, title, defaultArtist, isAlbum);
    FirstNonEmptyOfFour(s[0], s[1], s[2], s[3], UnknownArtist);
    assert s == [s[0], s[1], s[2], s[3]];
  }

  /** One row of the script's `rows.map(...)`: nothing for a placeholder title. */
  function ExtractRow(row: Row, defaultArtist: string, isAlbum: bool): (t: Option<Track>)
    ensures t.None? <==> IsPlaceholderTitle(RowTitle(row))
    ensures t.Some? ==> t.value == Track(RowTitle(row), RowArtist(row, RowTitle(row), defaultArtist, isAlbum))
  {
    var title := RowTitle(row);
    if IsPlaceholderTitle(title) then None
    else Some(Track(title, RowArtist(row, title, defaultArtist, isAlbum)))
  }

  /** The present values of `xs`, in order (the script's `.filter(item => item !== null)`). */
  function Present(xs: seq<Option<Track>>): (r: seq<Track>)
    ensures |r| <= |xs|
    ensures forall y :: y in r <==> Some(y) in xs
    decreases |xs|
  {
    if xs == [] then []
    else
      assert forall o :: o in xs <==> o == xs[0] || o in xs[1..];
      (if xs[0].Some? then [xs[0].value] else []) + Present(xs[1..])
  }

  lemma PresentOne(x: Option<Track>)
    ensures Present([x]) == if x.Some? then [x.value] else []
  {
    assert [x][1..] == [];
  }

  /** The filter keeps the order and the repeats of the values it keeps. */
  lemma {:induction false} PresentAppend(a: seq<Option<Track>>, b: seq<Option<Track>>)
    ensures Present(a + b) == Present(a) + Present(b)
    decreases |a|
  {
    if a == [] {
      assert a + b == b;
    } else {
      TailOfAppend(a, b);
      PresentAppend(a[1..], b);
    }
  }

  /** The script's `rows.map(...)`. */
  function ExtractRows(rows: seq<Row>, defaultArtist: string, isAlbum: bool): (ts: seq<Option<Track>>)
    ensures |ts| == |rows| && forall i :: 0 <= i < |rows| ==> ts[i] == ExtractRow(rows[i], defaultArtist, isAlbum)
  {
    seq(|rows|, i requires 0 <= i < |rows| => ExtractRow(rows[i], defaultArtist, isAlbum))
  }

  /** The script's result: the tracks of the usable rows, in row order. */
  function ExtractAll(rows: seq<Row>, defaultArtist: string, isAlbum: bool): (tracks: seq<Track>)
    ensures |tracks| <= |rows|
  {
    Present(ExtractRows(rows, defaultArtist, isAlbum))
  }

  /** Every extracted track comes from a row with a usable title and has a
      non-empty artist, and every row with a usable title contributes its track. */
  lemma ExtractAllTracks(rows: seq<Row>, defaultArtist: string, isAlbum: bool)
    ensures forall t :: t in ExtractAll(rows, defaultArtist, isAlbum) ==>
              !IsPlaceholderTitle(t.title) && t.artist != "" &&
              exists i :: 0 <= i < |rows| && ExtractRow(rows[i], defaultArtist, isAlbum) == Some(t)
    ensures forall i :: 0 <= i < |rows| && !IsPlaceholderTitle(RowTitle(rows[i])) ==>
              ExtractRow(rows[i], defaultArtist, isAlbum).value in ExtractAll(rows, defaultArtist, isAlbum)
  {
    var ts := ExtractRows(rows, defaultArtist, isAlbum);
    forall t | t in ExtractAll(rows, defaultArtist, isAlbum)
      ensures !IsPlaceholderTitle(t.title) && t.artist != ""
      ensures exists i :: 0 <= i < |rows| && ExtractRow(rows[i], defaultArtist, isAlbum) == Some(t)
    {
      var i :| 0 <= i < |ts| && ts[i] == Some(t);
      assert ExtractRow(rows[i], defaultArtist, isAlbum) == Some(t);
    }
    forall i | 0 <= i < |rows| && !IsPlaceholderTitle(RowTitle(rows[i]))
      ensures ExtractRow(rows[i], defaultArtist, isAlbum).value in ExtractAll(rows, defaultArtist, isAlbum)
    {
      assert ts[i] == Some(ExtractRow(rows[i], defaultArtist, isAlbum).value);
    }
  }

  /** `/album/` in the URL. */
  predicate IsAlbumUrl(url: string) {
    Contains(url, "/album/")
  }

  /** What `_extract_songs_js` returns for the page, given the default artist. */
  function ExtractedTracks(url: string, page: Page): (tracks: seq<Track>)
    ensures |tracks| <= |RowsToScan(page)|
  {
    ExtractAll(RowsToScan(page), PlaylistInfo(page.header).1, IsAlbumUrl(url))
  }

  // ---------------------------------------------------------------------------
  // Dedup and indexing in `parse`
  // ---------------------------------------------------------------------------

  /** The dedup key of `parse`: the string `title-artist`. */
  function DedupKey(t: Track): string {
    t.title + "-" + t.artist
  }

  function KeySet(data: seq<Track>): set<string> {
    set i | 0 <= i < |data| :: DedupKey(data[i])
  }

  /** The songs emitted by the main loop of `parse`: each track whose key did not
      occur earlier, with its 1-based position in `data` as index. */
  function Emitted(data: seq<Track>): (songs: seq<SongInfo>)
    ensures |songs| <= |data|
    decreases |data|
  {
    if data == [] then []
    else
      var prev := data[..|data| - 1];
      var last := data[|data| - 1];
      Emitted(prev) + (if DedupKey(last) in KeySet(prev) then [] else [SongInfo(last.title, last.artist, "", |data|)])
  }

  /** One step of the main loop of `parse`. */
  lemma EmittedSnoc(data: seq<Track>, i: nat)
    requires i < |data|
    ensures KeySet(data[..i + 1]) == KeySet(data[..i]) + {DedupKey(data[i])}
    ensures Emitted(data[..i + 1]) == Emitted(data[..i]) +
              (if DedupKey(data[i]) in KeySet(data[..i]) then [] else [SongInfo(data[i].title, data[i].artist, "", i + 1)])
  {
    var d := data[..i + 1];
    assert d[..i] == data[..i] && d[i] == data[i];
    forall k | k in KeySet(d) ensures k in KeySet(data[..i]) + {DedupKey(data[i])} {
      var m :| 0 <= m < |d| && k == DedupKey(d[m]);
      if m < i { assert d[m] == data[..i][m]; }
    }
    forall k | k in KeySet(data[..i]) ensures k in KeySet(d) {
      var m :| 0 <= m < i && k == DedupKey(data[..i][m]);
      assert d[m] == data[..i][m];
    }
    assert DedupKey(d[i]) in KeySet(d);
  }

  /** Position `i` holds the first track with its key. */
  predicate FirstOccurrence(data: seq<Track>, i: nat)
    requires i < |data|
  {
    DedupKey(data[i]) !in KeySet(data[..i])
  }

  /** `s` is the song emitted for the track at position `s.index - 1`. */
  predicate EmitsTrack(data: seq<Track>, s: SongInfo) {
    && 1 <= s.index <= |data|
    && s == SongInfo(data[s.index - 1].title, data[s.index - 1].artist, "", s.index)
    && FirstOccurrence(data, s.index - 1)
  }

  lemma KeySetPrefix(data: seq<Track>, m: nat, i: nat)
    requires i <= m <= |data|
    ensures KeySet(data[..m][..i]) == KeySet(data[..i])
  {
    assert data[..m][..i] == data[..i];
  }

  /** Every emitted song is a first occurrence at its own index, and indices strictly increase. */
  lemma {:induction false} EmittedShape(data: seq<Track>)
    ensures forall j :: 0 <= j < |Emitted(data)| ==> EmitsTrack(data, Emitted(data)[j])
    ensures forall j1, j2 :: 0 <= j1 < j2 < |Emitted(data)| ==> Emitted(data)[j1].index < Emitted(data)[j2].index
    decreases |data|
  {
    if data != [] {
      var prev := data[..|data| - 1];
      EmittedShape(prev);
      var e := Emitted(data);
      var ep := Emitted(prev);
      forall j | 0 <= j < |ep| ensures EmitsTrack(data, ep[j]) {
        var s := ep[j];
        assert EmitsTrack(prev, s);
        assert prev[s.index - 1] == data[s.index - 1];
        KeySetPrefix(data, |data| - 1, s.index - 1);
      }
      if |e| > |ep| {
        assert e[|ep|] == SongInfo(data[|data| - 1].title, data[|data| - 1].artist, "", |data|);
        assert FirstOccurrence(data, |data| - 1);
      }
    }
  }

  /** Every first occurrence is emitted. */
  lemma {:induction false} EmittedComplete(data: seq<Track>, i: nat)
    requires i < |data| && FirstOccurrence(data, i)
    ensures exists j :: 0 <= j < |Emitted(data)| && Emitted(data)[j].index == i + 1
    decreases |data|
  {
    var prev := data[..|data| - 1];
    if i == |data| - 1 {
      assert DedupKey(data[|data| - 1]) !in KeySet(prev);
      assert Emitted(data)[|Emitted(prev)|].index == i + 1;
    } else {
      assert prev[i] == data[i];
      KeySetPrefix(data, |data| - 1, i);
      EmittedComplete(prev, i);
      var j :| 0 <= j < |Emitted(prev)| && Emitted(prev)[j].index == i + 1;
      assert Emitted(data)[j] == Emitted(prev)[j];
    }
  }

  /** The main loop emits nothing exactly when the script returned no tracks, so
      the fallback runs exactly then. */
  lemma EmittedEmptyIff(data: seq<Track>)
    ensures Emitted(data) == [] <==> data == []
  {
    if data != [] {
      assert data[..0] == [];
      assert FirstOccurrence(data, 0);
      EmittedComplete(data, 0);
    }
  }

  /** No two emitted songs have the same dedup key, hence no two have the same (title, artist). */
  lemma EmittedKeysDistinct(data: seq<Track>)
    ensures forall j1, j2 :: 0 <= j1 < j2 < |Emitted(data)| ==>
              Emitted(data)[j1].title + "-" + Emitted(data)[j1].artist != Emitted(data)[j2].title + "-" + Emitted(data)[j2].artist
  {
    EmittedShape(data);
    var e := Emitted(data);
    forall j1, j2 | 0 <= j1 < j2 < |e|
      ensures e[j1].title + "-" + e[j1].artist != e[j2].title + "-" + e[j2].artist
    {
      var i1, i2 := e[j1].index - 1, e[j2].index - 1;
      assert EmitsTrack(data, e[j1]) && EmitsTrack(data, e[j2]);
      assert i1 < i2;
      assert data[..i2][i1] == data[i1];
      assert DedupKey(data[i1]) in KeySet(data[..i2]);
    }
  }

  /** The string key merges distinct pairs: ("A-B", "C") and ("A", "B-C") share
      the key "A-B-C", so only the first is emitted. */
  lemma DedupKeyMergesPairs()
    ensures Emitted([Track("A-B", "C"), Track("A", "B-C")]) == [SongInfo("A-B", "C", "", 1)]
  {
    var data := [Track("A-B", "C"), Track("A", "B-C")];
    assert data[..1] == [Track("A-B", "C")];
    assert data[..1][..0] == [];
    assert DedupKey(data[..1][0]) == "A-B-C";
    assert DedupKey(data[1]) == "A-B-C";
    assert DedupKey(data[1]) in KeySet(data[..1]);
  }

  // ---------------------------------------------------------------------------
  // `_fallback_parse`
  // ---------------------------------------------------------------------------

  /** An oEmbed answer that `_fallback_parse` turns into a song: one that has a
      `title` key, whatever it holds. */
  predicate HasTitle(answer: Option<OEmbed>) {
    answer.Some? && !answer.value.title.Missing?
  }

  /** The song `_fallback_parse` makes of the `n`-th answer (1-based), if any. */
  function FallbackSong(answer: Option<OEmbed>, n: nat): (songs: seq<SongInfo>)
    ensures |songs| <= 1 && (songs != [] <==> HasTitle(answer))
    ensures songs != [] ==> songs[0].index == n && songs[0].album == ""
    ensures songs != [] && answer.value.title.Null? ==> songs[0].title == ""
    ensures songs != [] && answer.value.authorName.Missing? ==> songs[0].artist == UnknownArtist
    ensures songs != [] && answer.value.authorName.Null? ==> songs[0].artist == ""
  {
    if HasTitle(answer)
    then [SongInfo(StoredField(answer.value.title, UnknownArtist),
                   StoredField(answer.value.authorName, UnknownArtist), "", n)]
    else []
  }

  /** A title holding null still yields a song, stored with the empty title; an
      author holding null gives the empty artist, a missing one "Unknown". */
  lemma FallbackNullFields()
    ensures FallbackSong(Some(OEmbed(Null, Null)), 1) == [SongInfo("", "", "", 1)]
    ensures FallbackSong(Some(OEmbed(Str("X"), Missing)), 2) == [SongInfo("X", UnknownArtist, "", 2)]
    ensures FallbackSong(Some(OEmbed(Missing, Str("A"))), 3) == []
  {
  }

  /** The songs of `_fallback_parse`: each answer with a title, in order. */
  function FallbackSongs(answers: seq<Option<OEmbed>>): (songs: seq<SongInfo>)
    ensures |songs| <= |answers|
    decreases |answers|
  {
    if answers == [] then []
    else FallbackSongs(answers[..|answers| - 1]) + FallbackSong(answers[|answers| - 1], |answers|)
  }

  /** `s` is the song made of the answer at position `s.index - 1`. */
  predicate FallbackOf(answers: seq<Option<OEmbed>>, s: SongInfo) {
    && 1 <= s.index <= |answers|
    && HasTitle(answers[s.index - 1])
    && s == SongInfo(StoredField(answers[s.index - 1].value.title, UnknownArtist),
                     StoredField(answers[s.index - 1].value.authorName, UnknownArtist), "", s.index)
  }

  /** Every fallback song comes from an answer with a title, indexed by that
      answer's 1-based position among all answers, and indices strictly increase. */
  lemma {:induction false} FallbackShape(answers: seq<Option<OEmbed>>)
    ensures forall j :: 0 <= j < |FallbackSongs(answers)| ==> FallbackOf(answers, FallbackSongs(answers)[j])
    ensures forall j1, j2 :: 0 <= j1 < j2 < |FallbackSongs(answers)| ==>
              FallbackSongs(answers)[j1].index < FallbackSongs(answers)[j2].index
    decreases |answers|
  {
    if answers != [] {
      var n := |answers|;
      var prev := answers[..n - 1];
      FallbackShape(prev);
      var ep := FallbackSongs(prev);
      forall j | 0 <= j < |ep| ensures FallbackOf(answers, ep[j]) {
        assert FallbackOf(prev, ep[j]);
        assert prev[ep[j].index - 1] == answers[ep[j].index - 1];
      }
    }
  }

  /** Every answer with a title yields a song. */
  lemma {:induction false} FallbackComplete(answers: seq<Option<OEmbed>>, i: nat)
    requires i < |answers| && HasTitle(answers[i])
    ensures exists j :: 0 <= j < |FallbackSongs(answers)| && FallbackSongs(answers)[j].index == i + 1
    decreases |answers|
  {
    var n := |answers|;
    var prev := answers[..n - 1];
    if i == n - 1 {
      assert FallbackSongs(answers)[|FallbackSongs(prev)|].index == i + 1;
    } else {
      assert prev[i] == answers[i];
      FallbackComplete(prev, i);
      var j :| 0 <= j < |FallbackSongs(prev)| && FallbackSongs(prev)[j].index == i + 1;
      assert FallbackSongs(answers)[j] == FallbackSongs(prev)[j];
    }
  }

  // ---------------------------------------------------------------------------
  // `parse`
  // ---------------------------------------------------------------------------

  /** The songs a scrape of `page` at `url` emits: the deduplicated tracks, or
      the fallback songs when there are none. */
  function ScrapedSongs(url: string, page: Page): (songs: seq<SongInfo>)
    ensures forall j :: 0 <= j < |songs| ==> 1 <= songs[j].index && songs[j].album == ""
    ensures forall j1, j2 :: 0 <= j1 < j2 < |songs| ==> songs[j1].index < songs[j2].index
  {
    var main := Emitted(ExtractedTracks(url, page));
    EmittedShape(ExtractedTracks(url, page));
    FallbackShape(page.oembed);
    if main != [] then main else FallbackSongs(page.oembed)
  }

  /** The main loop of `parse`: the songs it yields, in order, and their number. */
  method YieldDistinct(songsData: seq<Track>) returns (songs: seq<SongInfo>, count: nat)
    ensures songs == Emitted(songsData)
    ensures count == |songs|
  {
    songs := [];
    count := 0;
    var seen: set<string> := {};
    for i := 0 to |songsData|
      invariant seen == KeySet(songsData[..i])
      invariant songs == Emitted(songsData[..i])
      invariant count == |songs|
    {
      var s := songsData[i];
      var key := DedupKey(s);
      EmittedSnoc(songsData, i);
      if key !in seen {
        seen := seen + {key};
        count := count + 1;
        songs := songs + [SongInfo(s.title, s.artist, "", i + 1)];
      }
    }
    assert songsData[..|songsData|] == songsData;
  }

  /** `parse`: yields one PlaylistSource, then the songs; `count` is the number of songs yielded. */
  method Parse(url: string, page: Page) returns (items: seq<Item>, count: nat)
    ensures |items| >= 1 && items[0] == PlaylistItem(PlaylistSource(PlaylistInfo(page.header).0))
    ensures items[1..] == SongItems(ScrapedSongs(url, page))
    ensures count == |items| - 1
  {
    var playlistTitle := PlaylistInfo(page.header).0;
    var songsData := ExtractedTracks(url, page);   // `_extract_songs_js` with the default artist and `/album/` flag
    var songs;
    songs, count := YieldDistinct(songsData);
    if count == 0 {
      // `_fallback_parse` yields its songs one by one, each counted
      songs := FallbackSongs(page.oembed);
      count := |songs|;
    }
    items := [PlaylistItem(PlaylistSource(playlistTitle))] + SongItems(songs);
  }
}
