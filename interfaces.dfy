/** `VideoSearcher` of src/youtube/interfaces.py: search a video, create a
    playlist, add a video to a playlist. The interface is represented by a
    scripted searcher whose answers are fixed at construction and which records
    every call made to it, in order; the match and playlist-build loops of
    sync_cli.py are stated against it. */
module Interfaces {
  import opened Text

  /** `{video_id, title, channel}` as `search_video` returns it. */
  datatype VideoMatch = VideoMatch(videoId: string, title: string, channel: string)

  class VideoSearcher {
    /** What a search for each query finds; a query outside the map finds nothing. */
    const hits: map<string, VideoMatch>
    /** What `create_playlist` returns. */
    const createdId: Option<string>
    /** The videos whose `add_video_to_playlist` fails. */
    const failing: set<string>

    /** The queries searched, the (title, description) pairs created and the
        (playlist id, video id) pairs added, in call order. */
    var searches: seq<string>
    var creations: seq<(string, string)>
    var additions: seq<(string, string)>

    constructor (hits: map<string, VideoMatch>, createdId: Option<string>, failing: set<string>)
      ensures this.hits == hits && this.createdId == createdId && this.failing == failing
      ensures searches == [] && creations == [] && additions == []
    {
      this.hits, this.createdId, this.failing := hits, createdId, failing;
      searches, creations, additions := [], [], [];
    }

    /** The most relevant video for `query`, if any. */
    method SearchVideo(query: string) returns (m: Option<VideoMatch>)
      modifies this
      ensures m == if query in hits then Some(hits[query]) else None
      ensures searches == old(searches) + [query]
      ensures creations == old(creations) && additions == old(additions)
    {
      m := if query in hits then Some(hits[query]) else None;
      searches := searches + [query];
    }

    /** Creates a playlist and returns its id, if the service gave one. */
    method CreatePlaylist(title: string, description: string) returns (id: Option<string>)
      modifies this
      ensures id == createdId
      ensures creations == old(creations) + [(title, description)]
      ensures searches == old(searches) && additions == old(additions)
    {
      id := createdId;
      creations := creations + [(title, description)];
    }

    /** Adds `videoId` to `playlistId`; false when the service refused it. */
    method AddVideoToPlaylist(playlistId: string, videoId: string) returns (ok: bool)
      modifies this
      ensures ok <==> videoId !in failing
      ensures additions == old(additions) + [(playlistId, videoId)]
      ensures searches == old(searches) && creations == old(creations)
    {
      ok := videoId !in failing;
      additions := additions + [(playlistId, videoId)];
    }
  }
}
