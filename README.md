# Spotify-Youtube-Sync, modelled in Dafny

This project models the core of Spotify-Youtube-Sync, a tool that copies a Spotify playlist to YouTube in three steps:

1. **Scrape.** A Scrapy spider renders the playlist page. It reads the playlist title and the tracks from the page, deduplicates them, and emits a `PlaylistSource` and one `SongInfo` per song. An item pipeline writes each item into a FalkorDB graph.
2. **Match.** `run_match` searches YouTube for every PENDING song and records each hit in the graph as MATCHED.
3. **Create.** `run_create_playlist` creates a YouTube playlist named after the stored playlist and adds every matched video to it.

## Modules

| module | file | models |
|---|---|---|
| `Text` | `text.dfy` | An `Option` type, `trim`/`strip`, substring search, and left-to-right `split`/`join` with a non-empty separator (the same in Python and JavaScript). |
| `Models` | `models.dfy` | The record types `SongInfo` and `PlaylistSource`, and the items a spider callback yields. |
| `Store` | `store.dfy` | The graph as a value (`Graph`), one pure function per Cypher statement giving its effect, and class `FalkordbManager`, whose fields hold the graph. `connected` says whether a graph handle exists. |
| `Spider` | `spider.dfy` | `parse` and its helpers. The page is an input: the header facts, the track rows the in-page script sees, and the oEmbed answers. |
| `Pipeline` | `pipeline.dfy` | `FalkordbPipeline.process_item`, and what a whole crawl does to the store. |
| `Interfaces` | `interfaces.dfy` | The `VideoSearcher` interface, as a scripted searcher that logs every call. |
| `YouTube` | `youtube.dfy` | The retry loop and the result shaping of `YouTubeManager`. |
| `SyncCli` | `sync_cli.dfy` | `run_match` and `run_create_playlist`. |

## How each side is modelled

**Store.** The state-changing operations are methods on `FalkordbManager`. Each one ensures that the new `State()` is the matching spec function (`SaveSong`, `RecordMatch`, …) applied to the old state, and that `Valid()` is kept. The properties are lemmas about those functions:
- MERGE idempotence;
- a match is never lost;
- the store stays well formed;
- `_sanitize` round-trips.

The two ordered reads return listings: every song with the wanted status, exactly once, in non-decreasing `playlist_index`. Ties come in an unspecified order, as `ORDER BY` leaves them.

**Songs are keyed by raw (title, artist).** The store keys songs by the raw pair, not by the sanitised text. `SanitizeInjective` shows that sanitising never maps two texts to one. So for texts without a backslash, which a Cypher string literal stores as written, the two keyings give the same table. Texts with a backslash are not covered (see "Left out").

**Spider.** The main loop of `parse` is a method (`YieldDistinct`, with its loop invariants). It is proved against `Emitted`, which states the dedup and the index rule. The row heuristics are functions, and `*Tiers` lemmas prove that each one is a first-hit cascade.

**Retries.** A request's `execute` is a script `nat -> Outcome<R>`: what its k-th call returns or raises. `RetryFrom` specifies the loop.

**Matching.** The searcher is a class with fixed answers (`hits`, `createdId`, `failing`) and call logs. So the `sync_cli.py` loops are stated against exact logs of searches, creations and additions.

## Where the model follows the code rather than its comments

- `_api_call_with_retries` promises exponential backoff in its docstring, but the code retries at once. The model retries at once.
- The trailing `return None` of `_api_call_with_retries` is never reached: every attempt either returns or raises. `ApiCallWithRetries` has no such path.
- The spider's dedup key is the string `title + "-" + artist`. Two distinct pairs can share it, and then only the first is stored (`DedupKeyMergesPairs`).
- Song indices are enumerate positions in the extracted list, so skipped duplicates leave gaps.
- `process_item` drops the `album` field.
- `_fallback_parse` tests only that an oEmbed answer has a `title` key, and `data.get` gives its default only for a missing key. A field holding JSON null therefore becomes `None`, which `_sanitize` stores as ''. The model keeps the three cases apart (`JsonField`) and carries a null field as "", so the store ends up the same.
- `run_create_playlist` reads the matched ids before the playlist name.
- `run_create_playlist` uses the id from `create_playlist` only when it is truthy, so an empty id is treated like no id.

## Model

| member | source | states |
|---|---|---|
| Text.Trim | src/scraper/spotify_spider.py:95 | The result is an infix of the input, and everything cut off before and after it is whitespace. It neither starts nor ends with whitespace. An input already without outer whitespace comes back unchanged. |
| Text.Split | src/scraper/spotify_spider.py:187-188 | There is at least one piece. There is more than one exactly when the separator occurs. No piece contains the separator. Each cut is at the leftmost occurrence: no piece but the last, followed by all but the last character of the separator, contains the separator. |
| Text.JoinSplit | src/scraper/spotify_spider.py:222-223 | Joining the pieces of a split with the same separator gives the string back. |
| Store.Sanitize | src/db/falkordb_manager.py:42-49 | The output length is the input length plus the number of `'`. The output never starts with `'`. A text without `'` (the empty one included) comes back unchanged. |
| Store.SanitizeEscapes | src/db/falkordb_manager.py:49 | Every `'` in the output has a backslash right before it. |
| Store.SanitizeRoundTrip | src/db/falkordb_manager.py:49 | Deleting the character before each `'` recovers the input. |
| Store.SanitizeInjective | src/db/falkordb_manager.py:56-57 | Distinct texts give distinct sanitised texts. For texts without a backslash, MERGE on the sanitised text therefore keys songs exactly like the raw pair. |
| Store.SaveSong | src/db/falkordb_manager.py:51-68 | Adds exactly the key (title, artist). A new song is PENDING with the index and a fresh id. An existing song only gets the new index. Other songs are unchanged. The artist and the edge are added. The name is kept. |
| Store.SavePlaylistName | src/db/falkordb_manager.py:70-77 | The name becomes the argument. Nothing else changes. |
| Store.PlaylistNameOf | src/db/falkordb_manager.py:79-87 | Gives the stored name. Gives "Spotify Playlist" with no graph or no name. |
| Store.RecordMatch | src/db/falkordb_manager.py:108-121 | The song with that id becomes MATCHED with the video and the query, keeping its id and index. Every other song, and everything else, is unchanged. |
| Store.Clear | src/db/falkordb_manager.py:139-148 | No songs, artists, edges or playlist name remain. |
| Store.SaveSongWellFormed | src/db/falkordb_manager.py:59-66 | `save_song_info` keeps the graph well formed: ids are distinct and below the counter, and status agrees with video and query. Every song has its artist and edge, and every edge points from a song to its own artist. |
| Store.SavePlaylistNameWellFormed | src/db/falkordb_manager.py:76 | `save_playlist_name` keeps the graph well formed. |
| Store.RecordMatchWellFormed | src/db/falkordb_manager.py:114-121 | A recorded match keeps the graph well formed. |
| Store.ClearWellFormed | src/db/falkordb_manager.py:144 | The cleared graph is well formed. |
| Store.SaveSongKeepsMatch | src/db/falkordb_manager.py:61-64 | Re-saving never drops a song and never changes any song's status, video, query or id. |
| Store.SaveSongIdempotent | src/db/falkordb_manager.py:60-66 | Saving the same song twice equals saving it once: no second node, artist or edge. |
| Store.SaveSongTwice | src/db/falkordb_manager.py:60-64 | After two saves with different indices there is one song. It has the second index and its status from before the saves, or PENDING if it is new. |
| Store.RecordMatchMonotone | src/db/falkordb_manager.py:114-119 | A recorded match drops no song and turns no MATCHED song back into PENDING. |
| Store.RecordMatchIdempotent | src/db/falkordb_manager.py:114-121 | Recording the same match twice gives the state after the first time. |
| Store.SaveThenReadPlaylistName | src/db/falkordb_manager.py:76-87 | The name read back is the last one saved. After a clear it is the default. |
| Store.InsertByIndex | src/db/falkordb_manager.py:97 | Inserting one key gives a sequence one longer, with the old keys plus the new one. It keeps the sequence sorted by `playlist_index` and free of repeats. |
| Store.FalkordbManager.constructor | src/db/falkordb_manager.py:26-40 | A manager attaches to the graph as it is persisted (any well-formed graph, not necessarily empty) and keeps the given connection flag. |
| Store.FalkordbManager.SaveSongInfo | src/db/falkordb_manager.py:51-68 | Applies `SaveSong` when connected and is a no-op otherwise. It keeps the store valid. |
| Store.FalkordbManager.SavePlaylistNameInfo | src/db/falkordb_manager.py:70-77 | Applies `SavePlaylistName` when connected and is a no-op otherwise. It keeps the store valid. |
| Store.FalkordbManager.GetPlaylistName | src/db/falkordb_manager.py:79-87 | Returns `PlaylistNameOf` the current state. |
| Store.FalkordbManager.ListByIndex | src/db/falkordb_manager.py:94-104 | Lists every song with the given status exactly once, in non-decreasing `playlist_index`. |
| Store.FalkordbManager.FindPendingSongs | src/db/falkordb_manager.py:89-106 | Without a graph it returns nothing. Otherwise it returns every PENDING song once, in index order, each with its node id. |
| Store.FalkordbManager.UpdateSongWithYoutubeMatch | src/db/falkordb_manager.py:108-121 | Applies `RecordMatch` when connected and is a no-op otherwise. It keeps the store valid. |
| Store.FalkordbManager.GetAllMatchedVideoIds | src/db/falkordb_manager.py:123-137 | Without a graph it returns nothing. Otherwise it returns the video of every MATCHED song once, in index order. Its ids are exactly the set of videos of the MATCHED songs. |
| Store.FalkordbManager.ClearDatabase | src/db/falkordb_manager.py:139-148 | Applies `Clear` when connected and is a no-op otherwise. It keeps the store valid. |
| Spider.FindArtist | src/scraper/spotify_spider.py:104-137 | A creator link wins, trimmed. A description-tier answer never contains "Listen to" or "Spotify". |
| Spider.MetaTier | src/scraper/spotify_spider.py:117-125 | No description gives no answer. An answer contains neither "Listen to" nor "Spotify". |
| Spider.PageTitleTier | src/scraper/spotify_spider.py:127-133 | There is an answer exactly when the page title contains " by ". The answer never contains " \|". |
| Spider.FindArtistTiers | src/scraper/spotify_spider.py:104-137 | The artist is the first present tier, in order: the creator link; the header artist link; the og:description text before the first `·`, trimmed, when it contains neither "Listen to" nor "Spotify"; the page title's text after the first " by ", up to the next " by " or " \|", trimmed. Otherwise it is "Unknown". |
| Spider.PlaylistInfo | src/scraper/spotify_spider.py:87-102 | If the h1 wait fails, the result is ("Spotify Playlist", "Unknown"). Otherwise the title is the trimmed h1 text (the default when there is no h1), and the artist is `FindArtist`. |
| Spider.DropRecommendations | src/scraper/spotify_spider.py:164-176 | Keeps exactly the rows with no ancestor marked `recommend`, `Recommended` or `Önerilenler`. |
| Spider.DropRecommendationsOne | src/scraper/spotify_spider.py:167-175 | One row is kept exactly when it is outside recommendations. |
| Spider.DropRecommendationsAppend | src/scraper/spotify_spider.py:164-176 | Filtering a concatenation is concatenating the filtered parts, so kept rows keep their order and their repeats. |
| Spider.RowsToScan | src/scraper/spotify_spider.py:155-176 | With a tracklist container, its rows are kept unfiltered. Without one, the rows are the document rows with those inside recommendations dropped, in document order. |
| Spider.RowTitle | src/scraper/spotify_spider.py:179-193 | The title element's text, trimmed. Without a title element the title contains no " by ". |
| Spider.RowTitleTiers | src/scraper/spotify_spider.py:180-193 | The title is the first present source: the title element; else the aria-label before its first " by ", trimmed; else the whole aria-label; else "". |
| Spider.FirstUsableText | src/scraper/spotify_spider.py:208-214 | The result is "" exactly when no sibling text is usable (usable: not the title, not empty, not "E", not "•"). Otherwise it is a usable sibling text, and every sibling before it is unusable. |
| Spider.RowArtist | src/scraper/spotify_spider.py:197-231 | The artist is never empty. |
| Spider.RowArtistTiers | src/scraper/spotify_spider.py:197-231 | The artist is the first non-empty source, in order: the artist links joined by ", "; the first usable sibling text; the aria-label after its last " by "; the album artist on an album page; otherwise "Unknown". |
| Spider.ExtractRow | src/scraper/spotify_spider.py:178-233 | A row yields nothing exactly when its title is "", "Title" or "#". Otherwise it yields (its title, its artist). |
| Spider.Present | src/scraper/spotify_spider.py:234 | Drops the null entries: the result holds exactly the present values. |
| Spider.PresentOne | src/scraper/spotify_spider.py:234 | One entry gives its value if present, and nothing if null. |
| Spider.PresentAppend | src/scraper/spotify_spider.py:234 | Filtering a concatenation is concatenating the filtered parts, so values keep their order and their repeats. |
| Spider.ExtractAll | src/scraper/spotify_spider.py:178-234 | At most one track per row. |
| Spider.ExtractedTracks | src/scraper/spotify_spider.py:155-234 | At most one track per scanned row. |
| Spider.ExtractRows | src/scraper/spotify_spider.py:178 | Maps every row, in order. |
| Spider.ExtractAllTracks | src/scraper/spotify_spider.py:178-234 | Every extracted track has a usable title and a non-empty artist, and comes from some row. Every row with a usable title contributes its track. |
| Spider.Emitted | src/scraper/spotify_spider.py:64-73 | The main loop emits at most one song per extracted track. |
| Spider.EmittedSnoc | src/scraper/spotify_spider.py:67-73 | One loop step adds the key to `seen`. It emits the track with index i+1 exactly when the key was not seen. |
| Spider.EmittedShape | src/scraper/spotify_spider.py:64-73 | Every emitted song is the first track with its key, at its 1-based position. Indices strictly increase. |
| Spider.EmittedComplete | src/scraper/spotify_spider.py:67-73 | Every first occurrence of a key is emitted. |
| Spider.EmittedEmptyIff | src/scraper/spotify_spider.py:75 | The main loop emits nothing exactly when no tracks were extracted, which is when the fallback runs. |
| Spider.EmittedKeysDistinct | src/scraper/spotify_spider.py:68-70 | No two emitted songs share a dedup key. |
| Spider.DedupKeyMergesPairs | src/scraper/spotify_spider.py:68 | ("A-B","C") and ("A","B-C") share a key, so only the first is emitted. |
| Spider.FallbackSong | src/scraper/spotify_spider.py:256-261 | An answer yields one song exactly when it has a `title` key, whatever the key holds, and none otherwise. The song has the given index and an empty album. A null title is stored as "". A missing author gives "Unknown", and a null author "". |
| Spider.FallbackNullFields | src/scraper/spotify_spider.py:257-259 | `{"title": null, "author_name": null}` yields a song with title "" and artist "". A missing author gives "Unknown". An answer with no `title` key yields nothing. |
| Spider.FallbackSongs | src/scraper/spotify_spider.py:256-261 | At most one song per answer. |
| Spider.FallbackShape | src/scraper/spotify_spider.py:256-261 | Every fallback song comes from an answer with a title. It has that answer's 1-based position as index, and its fields as `StoredField` reads them: "Unknown" for a missing author, "" for a null field. Indices strictly increase. |
| Spider.FallbackComplete | src/scraper/spotify_spider.py:256-261 | Every answer with a title yields a song. |
| Spider.ScrapedSongs | src/scraper/spotify_spider.py:62-78 | The songs `parse` yields after the playlist source have indices from 1 up, strictly increasing, and empty albums. |
| Spider.YieldDistinct | src/scraper/spotify_spider.py:64-73 | The loop emits exactly `Emitted(songs_data)`, and `count` is their number. |
| Spider.Parse | src/scraper/spotify_spider.py:45-85 | Exactly one PlaylistSource comes first, with the playlist title. The songs follow: the deduplicated tracks, or the fallback songs when there are none. `count` is the number of songs. |
| Pipeline.FalkordbPipeline.ProcessItem | src/scraper/pipelines.py:12-23 | A song is saved with its title, artist and index. A playlist source saves the name. Anything else changes nothing. The item is returned unchanged. |
| Pipeline.ApplyItem | src/scraper/pipelines.py:17-21 | Without a graph, or for an item of another type, nothing changes. Otherwise a song adds exactly its (title, artist) key, and a playlist source sets the name and leaves the songs alone. No song key is lost and the id counter never goes back. |
| Pipeline.ApplyItems | src/scraper/pipelines.py:12-23 | A sequence of items loses no song key and never moves the id counter back. |
| Pipeline.ApplyItemKeeps | src/scraper/pipelines.py:17-21 | One item keeps the store well formed and loses no song or match. |
| Pipeline.ApplyItemsKeeps | src/scraper/pipelines.py:12-23 | Any item sequence keeps the store well formed and never loses a song or a match. |
| Pipeline.OtherItemsChangeNothing | src/scraper/pipelines.py:17-23 | Items of other types never change the store. |
| Pipeline.DisconnectedChangesNothing | src/scraper/pipelines.py:17-21 | Without a graph no item changes the store. |
| Pipeline.SaveSongsStoresEach | src/scraper/pipelines.py:17-18 | Songs with distinct (title, artist) add exactly their keys, each with its own index. Every other song is unchanged. |
| Pipeline.CrawlStoresSongs | src/scraper/pipelines.py:17-21 | A playlist source and distinct songs leave the name set, exactly the song keys added with their indices, and no match lost. |
| Pipeline.EmittedDistinctPairs | src/scraper/spotify_spider.py:68-70 | The main loop's songs have distinct (title, artist). |
| Pipeline.CrawlOfPage | src/scraper/spotify_spider.py:58-73 | A crawl of a page from which the script extracts tracks leaves the page's playlist title as the name. Each emitted song is stored with its index, and no match is lost. |
| Interfaces.VideoSearcher.constructor | src/youtube/interfaces.py:10-11 | The searcher starts with the given answers and empty call logs. |
| Interfaces.VideoSearcher.SearchVideo | src/youtube/interfaces.py:13-16 | Returns the match for the query, if there is one, and logs the query. |
| Interfaces.VideoSearcher.CreatePlaylist | src/youtube/interfaces.py:18-21 | Returns the scripted id and logs (title, description). |
| Interfaces.VideoSearcher.AddVideoToPlaylist | src/youtube/interfaces.py:23-26 | True exactly when the video is not refused. Logs the pair. |
| YouTube.RetryFrom | src/youtube/youtube_manager.py:90-101 | The loop ends at an attempt between the starting one and three, with that attempt's outcome. Ending before the third attempt means the outcome was not retryable. |
| YouTube.RetryFromShape | src/youtube/youtube_manager.py:90-101 | One to three calls. The result is the last call's outcome, and every earlier call raised a 5xx error. Stopping before the third call means a return or a non-retryable error. |
| YouTube.ApiCallWithRetries | src/youtube/youtube_manager.py:83-102 | The loop makes 1–3 calls, returns the final call's outcome and matches `RetryFrom`. Every earlier call raised 5xx. |
| YouTube.FirstReturnWins | src/youtube/youtube_manager.py:93-94 | The first returned value is the result, and no call follows it. |
| YouTube.NonRetryableStops | src/youtube/youtube_manager.py:95-101 | A 4xx or non-HTTP error propagates after one call. |
| YouTube.TwoServerErrorsThenValue | src/youtube/youtube_manager.py:97-100 | 5xx, 5xx, then a value gives the value after exactly three calls. |
| YouTube.ThreeServerErrorsRaise | src/youtube/youtube_manager.py:97-99 | Three 5xx errors: the third is raised. |
| YouTube.TopResult | src/youtube/youtube_manager.py:118-124 | A match is found exactly when there are items and the first has all three fields. The match is made of the first item. |
| YouTube.TopResultFirstOnly | src/youtube/youtube_manager.py:118-119 | Only the first item decides. |
| YouTube.ShapeSearch | src/youtube/youtube_manager.py:109-128 | An error gives None. A response gives its top result. |
| YouTube.ShapeCreate | src/youtube/youtube_manager.py:135-152 | An id comes back exactly when the call returned one. |
| YouTube.ShapeAdd | src/youtube/youtube_manager.py:159-176 | True exactly when the call returned. |
| YouTube.YouTubeManager.constructor | src/youtube/youtube_manager.py:35-38 | Records whether authentication produced a client. |
| YouTube.YouTubeManager.SearchVideo | src/youtube/youtube_manager.py:104-128 | No client: None and no call. Otherwise the shaped outcome of the retry loop, and a match only from a returned response. |
| YouTube.YouTubeManager.CreatePlaylist | src/youtube/youtube_manager.py:130-152 | No client: None and no call. Otherwise the shaped outcome of the retry loop, and an id only from a returned response. |
| YouTube.YouTubeManager.AddVideoToPlaylist | src/youtube/youtube_manager.py:154-176 | No client: false and no call. Otherwise true exactly when the retry loop ended with a return. |
| SyncCli.HitCount | sync_cli.py:80-84 | The success count never exceeds the number of songs. |
| SyncCli.Misses | sync_cli.py:85-86 | There is at most one not-found entry per song. |
| SyncCli.MatchStep | sync_cli.py:80-84 | One song's turn keeps the song keys, the id counter, the artists, the edges and the name. A miss changes nothing. |
| SyncCli.ApplyMatches | sync_cli.py:79-86 | Matching keeps the song keys, the id counter, the artists, the edges and the name. |
| SyncCli.HitsPlusMisses | sync_cli.py:75-86 | Every pending song is counted once: as a success or as not found. |
| SyncCli.MatchStepEffect | sync_cli.py:80-86 | Matching one more distinct song extends the described effect: a hit's record changes only in status, video and query. |
| SyncCli.ApplyMatchesEffect | sync_cli.py:79-86 | Matching distinct stored songs has these effects: every hit becomes MATCHED with its video and query and is otherwise unchanged, keeping its id and playlist index. Every miss stays as it was. No other song, id, artist, edge or name changes. |
| SyncCli.MatchKeepsOrder | src/db/falkordb_manager.py:114-119 | Matching keeps every stored song and its playlist index, so the playlist order is the one the scrape stored. |
| SyncCli.MatchOne | sync_cli.py:80-86 | Searches once with `title artist`. Reports a hit exactly when the query has an answer. The store changes as `MatchStep` states. No create or add call is made. |
| SyncCli.MatchSongs | sync_cli.py:78-86 | Searches each song in order with `title artist`. Records each hit in the store and lists each miss as `title - artist`. Makes no create or add call. |
| SyncCli.RunMatch | sync_cli.py:66-91 | Searches exactly the PENDING songs, in index order. The successes plus the not-found entries equal their number. The store changes as `ApplyMatchesEffect` states, and every song keeps its playlist index. With nothing pending there is no search. |
| SyncCli.RunCreatePlaylist | sync_cli.py:93-119 | With no matched video, nothing is created. Otherwise one playlist is created with the stored name and the fixed description. With a truthy id, each matched video is added once, in index order, whatever each add returns. Otherwise nothing is added. |

## Left out

- OAuth, the token file and `.env` handling in `_authenticate`: file and network I/O. `YouTubeManager` takes whether a client exists as a parameter.
- Building the HTTP requests, and the Google client's own behaviour. `execute` is a scripted function.
- The FalkorDB connection, the singleton `_instance`, the module-level `db_manager` and the Cypher query text. The model states each query's effect on the graph.
- Node ids are a counter in the model, standing in for the engine's internal ids.
- The `scraped_at` and `matched_at` timestamps: they come from a clock.
- Exceptions raised by FalkorDB queries. The model's queries always succeed, so the `except` defaults of the read methods are not modelled.
- The escaping gaps:
  - `_sanitize` escapes no backslash. A `\'` in a text ends the literal early, and other escapes such as `\\` or `\n` are stored decoded, so a text with a backslash is not stored as written;
  - `update_song_with_youtube_match` interpolates `video_id` unsanitised.
  Both are outside the model, which stores raw values.
- Browser plumbing:
  - scrolling, waits, page closing;
  - the anti-detection init script;
  - the DOM queries themselves, which become the observed `Row`/`Header` facts.
- The oEmbed `fetch`/`Promise.all` in `_fallback_parse`. Its answers are an input sequence, and a failed fetch is None.
- An exception thrown part-way through `_fallback_parse`, which would end it early.
- Whitespace handling: `Text.Trim` removes ASCII whitespace and the no-break space only, not every Unicode space that `trim()`/`strip()` remove.
- The tie order of `ORDER BY playlist_index`: equal indices may come in any order.
- `src/scraper/runner.py` and `main_menu`, with its prompts, progress bars, `subprocess.run`, the clear-after-create prompt and the Windows event-loop fix: UI and process control.
- The printed messages of every operation.
- `VideoSearcher` is one scripted class, not an abstract base class that `YouTubeManager` inherits from. The two are separate classes with the same three operations. The scripted searcher gives one fixed answer per query, whatever was asked before. An add fails only because of its video id, not because of the playlist or earlier calls.
- SyncCli: the loops call the scripted searcher, not `YouTubeManager`.
- SyncCli: the model leaves out a `YouTubeManager()` constructor that raises inside `run_create_playlist`, which is caught and printed.
- Pipeline.CrawlOfPage: says nothing about the fallback path. Fallback songs are not deduplicated, so a repeated (title, artist) keeps only its later index.
- Spider.RowArtist and Spider.FindArtist: their own contracts are partial. The full tier order is stated in `RowArtistTiers` and `FindArtistTiers`.
