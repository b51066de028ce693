/** The retry policy and the response shaping of `YouTubeManager` in
    src/youtube/youtube_manager.py. A request's `execute` is a foreign call; it is
    represented by a script `execute: nat -> Outcome<R>` giving what its k-th
    invocation (k = 1, 2, ...) returns or raises. Whether `_authenticate` left a
    client is the constant `hasClient`. */
module YouTube {
  import opened Text
  import opened Interfaces

  /** What `execute` may raise: an `HttpError` with its HTTP status, or anything else. */
  datatype ApiError = HttpError(status: int) | OtherError

  /** One invocation of `execute`: it returned a value or raised. */
  datatype Outcome<R> = Returned(value: R) | Raised(error: ApiError)

  const MaxAttempts := 3

  /** An outcome after which `_api_call_with_retries` tries again (unless it was the last attempt). */
  predicate IsRetryable<R>(o: Outcome<R>) {
    o.Raised? && o.error.HttpError? && o.error.status >= 500
  }

  // ---------------------------------------------------------------------------
  // `_api_call_with_retries`
  // ---------------------------------------------------------------------------

  /** The specification of the retry loop from attempt `attempt` on: the outcome
      it ends with and the number of the attempt that produced it. */
  function RetryFrom<R>(execute: nat -> Outcome<R>, attempt: nat): (r: (Outcome<R>, nat))
    requires 1 <= attempt <= MaxAttempts
    ensures attempt <= r.1 <= MaxAttempts && r.0 == execute(r.1)
    ensures r.1 < MaxAttempts ==> !IsRetryable(r.0)
    decreases MaxAttempts - attempt
  {
    var o := execute(attempt);
    if IsRetryable(o) && attempt < MaxAttempts then RetryFrom(execute, attempt + 1) else (o, attempt)
  }

  /** The retry loop makes between one and three calls, ends with the outcome of
      its last call, and every earlier call raised a 5xx `HttpError`; it stops
      before the third call only on a return or a non-retryable error. */
  lemma {:induction false} RetryFromShape<R>(execute: nat -> Outcome<R>, attempt: nat)
    requires 1 <= attempt <= MaxAttempts
    ensures var (o, calls) := RetryFrom(execute, attempt);
            && attempt <= calls <= MaxAttempts
            && o == execute(calls)
            && (forall k :: attempt <= k < calls ==> IsRetryable(execute(k)))
            && (calls < MaxAttempts ==> !IsRetryable(o))
    decreases MaxAttempts - attempt
  {
    if IsRetryable(execute(attempt)) && attempt < MaxAttempts {
      RetryFromShape(execute, attempt + 1);
    }
  }

  /** `_api_call_with_retries(func)`: call `func`; after a 5xx `HttpError` try
      again at once, up to three attempts; return the first value returned;
      re-raise any other error, and the third 5xx error. `calls` is the number of
      invocations made. Every exit is the outcome of a call, so the trailing
      `return None` of the source is never reached. */
  method ApiCallWithRetries<R>(execute: nat -> Outcome<R>) returns (result: Outcome<R>, calls: nat)
    ensures 1 <= calls <= MaxAttempts
    ensures result == execute(calls)
    ensures forall k :: 1 <= k < calls ==> IsRetryable(execute(k))
    ensures calls < MaxAttempts ==> !IsRetryable(result)
    ensures (result, calls) == RetryFrom(execute, 1)
  {
    calls := 1;
    result := execute(1);
    while IsRetryable(result) && calls < MaxAttempts
      invariant 1 <= calls <= MaxAttempts
      invariant result == execute(calls)
      invariant forall k :: 1 <= k < calls ==> IsRetryable(execute(k))
      invariant RetryFrom(execute, calls) == RetryFrom(execute, 1)
      decreases MaxAttempts - calls
    {
      calls := calls + 1;
      result := execute(calls);
    }
  }

  /** The first value returned is the result: no call follows it. */
  lemma FirstReturnWins<R>(execute: nat -> Outcome<R>, k: nat)
    requires 1 <= k <= MaxAttempts && execute(k).Returned?
    requires forall j :: 1 <= j < k ==> IsRetryable(execute(j))
    ensures RetryFrom(execute, 1) == (execute(k), k)
  {
    if k >= 2 {
      assert IsRetryable(execute(1));
      if k == 3 { assert IsRetryable(execute(2)); }
    }
  }

  /** A 4xx `HttpError` or any other error propagates after that single call. */
  lemma NonRetryableStops<R>(execute: nat -> Outcome<R>)
    requires execute(1).Raised? && !IsRetryable(execute(1))
    ensures RetryFrom(execute, 1) == (execute(1), 1)
  {
  }

  /** 5xx, 5xx, then a value: the value is returned after exactly three calls. */
  lemma TwoServerErrorsThenValue<R>(execute: nat -> Outcome<R>, v: R)
    requires execute(1) == Raised(HttpError(503)) && execute(2) == Raised(HttpError(500))
    requires execute(3) == Returned(v)
    ensures RetryFrom(execute, 1) == (Returned(v), 3)
  {
    FirstReturnWins(execute, 3);
  }

  /** Three 5xx errors: the third is raised; there is no fourth call. */
  lemma ThreeServerErrorsRaise<R>(execute: nat -> Outcome<R>)
    requires forall k :: 1 <= k <= MaxAttempts ==> IsRetryable(execute(k))
    ensures RetryFrom(execute, 1) == (execute(3), 3)
  {
    assert IsRetryable(execute(1)) && IsRetryable(execute(2));
  }

  // ---------------------------------------------------------------------------
  // Response shaping
  // ---------------------------------------------------------------------------

  /** One entry of a search response's `items`; a missing key is None (reading
      it raises `KeyError`). */
  datatype SearchItem = SearchItem(videoId: Option<string>, title: Option<string>, channelTitle: Option<string>)

  /** The `items` of a search response; None when the response is empty or has no `items`. */
  type SearchItems = Option<seq<SearchItem>>

  predicate Complete(item: SearchItem) {
    item.videoId.Some? && item.title.Some? && item.channelTitle.Some?
  }

  /** The top-1 extraction of `search_video`: the first item as a match; nothing
      when there are no items, and nothing when the first item lacks a field (the
      `KeyError` is caught). */
  function TopResult(items: SearchItems): (m: Option<VideoMatch>)
    ensures m.Some? <==> items.Some? && |items.value| > 0 && Complete(items.value[0])
    ensures m.Some? ==> m.value == VideoMatch(items.value[0].videoId.value, items.value[0].title.value,
                                              items.value[0].channelTitle.value)
  {
    if items.Some? && |items.value| > 0 then
      var item := items.value[0];
      if Complete(item) then Some(VideoMatch(item.videoId.value, item.title.value, item.channelTitle.value))
      else None
    else None
  }

  /** Only the first item decides the result. */
  lemma TopResultFirstOnly(first: SearchItem, rest: seq<SearchItem>)
    ensures TopResult(Some([first] + rest)) == TopResult(Some([first]))
  {
  }

  /** `search_video` on the outcome of its call: the top result, or None when the call raised. */
  function ShapeSearch(o: Outcome<SearchItems>): (m: Option<VideoMatch>)
    ensures o.Raised? ==> m.None?
    ensures o.Returned? ==> m == TopResult(o.value)
  {
    match o
    case Returned(items) => TopResult(items)
    case Raised(_) => None
  }

  /** `create_playlist` on the outcome of its call (the response's `id`, None
      when it has none): the id, or None when the call raised or gave no id. */
  function ShapeCreate(o: Outcome<Option<string>>): (id: Option<string>)
    ensures id.Some? <==> o.Returned? && o.value.Some?
    ensures id.Some? ==> id.value == o.value.value
  {
    match o
    case Returned(response) => response
    case Raised(_) => None
  }

  /** `add_video_to_playlist`: true exactly when its call returned. */
  function ShapeAdd<R>(o: Outcome<R>): (ok: bool)
    ensures ok <==> o.Returned?
  {
    o.Returned?
  }

  class YouTubeManager {
    /** `self.youtube` is set: `_authenticate` built a client. */
    const hasClient: bool

    constructor (hasClient: bool)
      ensures this.hasClient == hasClient
    {
      this.hasClient := hasClient;
    }

    /** `search_video(query)`; `calls` is the number of times the request was executed. */
    method SearchVideo(query: string, execute: nat -> Outcome<SearchItems>) returns (m: Option<VideoMatch>, calls: nat)
      ensures !hasClient ==> m.None? && calls == 0
      ensures hasClient ==> 1 <= calls <= MaxAttempts && (m, calls) == (ShapeSearch(RetryFrom(execute, 1).0), RetryFrom(execute, 1).1)
      ensures m.Some? ==> hasClient && execute(calls).Returned? && m == TopResult(execute(calls).value)
    {
      if !hasClient {
        return None, 0;
      }
      var o;
      o, calls := ApiCallWithRetries(execute);
      m := ShapeSearch(o);
    }

    /** `create_playlist(title, description)`. */
    method CreatePlaylist(title: string, description: string, execute: nat -> Outcome<Option<string>>)
      returns (id: Option<string>, calls: nat)
      ensures !hasClient ==> id.None? && calls == 0
      ensures hasClient ==> 1 <= calls <= MaxAttempts && (id, calls) == (ShapeCreate(RetryFrom(execute, 1).0), RetryFrom(execute, 1).1)
      ensures id.Some? ==> hasClient && execute(calls) == Returned(id)
    {
      if !hasClient {
        return None, 0;
      }
      var o;
      o, calls := ApiCallWithRetries(execute);
      id := ShapeCreate(o);
    }

    /** `add_video_to_playlist(playlistId, videoId)`: true only after the call returned. */
    method AddVideoToPlaylist<R>(playlistId: string, videoId: string, execute: nat -> Outcome<R>)
      returns (ok: bool, calls: nat)
      ensures !hasClient ==> !ok && calls == 0
      ensures hasClient ==> 1 <= calls <= MaxAttempts && (ok, calls) == (ShapeAdd(RetryFrom(execute, 1).0), RetryFrom(execute, 1).1)
      ensures ok <==> hasClient && execute(calls).Returned?
    {
      if !hasClient {
        return false, 0;
      }
      var o;
      o, calls := ApiCallWithRetries(execute);
      ok := ShapeAdd(o);
    }
  }
}
