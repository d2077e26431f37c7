/** The search route (`src/app/api/search/route.ts`): a search for videos,
    a search for channels and up to three per-channel video searches are
    merged, de-duplicated by video id and truncated, and the surviving ids
    are looked up in one details request.

    The upstream API is a parameter: each of its four endpoints is a
    function from the request parameters to the payload or the error it
    throws. Search results are represented by their video ids, the only
    part of them the route reads. Besides the response the model returns
    the list of requests made, so that the calls the route does and does
    not make can be stated. */
module SearchRoute {
  import opened Wrappers
  import opened Http
  import opened Types
  import Seqs
  import Text
  import Iso8601Duration

  // ------------------------------------------------------------ upstream

  /** A page of video search results: the ids and `pageInfo.totalResults`. */
  datatype VideoPage = VideoPage(ids: seq<string>, totalResults: Option<nat>)

  /** A channel search result: `id.channelId` and `snippet.title`. */
  datatype ChannelHit = ChannelHit(channelId: string, title: string)

  /** A details record of the `videos` endpoint. */
  datatype VideoDetails = VideoDetails(
    id: string,
    title: string,
    description: string,
    mediumThumbnail: Option<string>,
    defaultThumbnail: Option<string>,
    duration: string,
    viewCount: Option<nat>,
    likeCount: Option<nat>,
    tags: Option<seq<string>>,
    channelId: string,
    channelTitle: string)

  /** The four upstream calls: video search (query, page size), channel
      search (query, page size), a channel's videos (channel id, page size)
      and details (comma-joined ids). */
  datatype SearchApi = SearchApi(
    searchVideos: (string, nat) -> Upstream<VideoPage>,
    searchChannels: (string, nat) -> Upstream<seq<ChannelHit>>,
    channelVideos: (string, nat) -> Upstream<seq<string>>,
    videoDetails: string -> Upstream<seq<VideoDetails>>)

  /** A request the route sends upstream. */
  datatype Request =
    | VideoSearch(q: string, maxResults: nat)
    | ChannelSearch(q: string, maxResults: nat)
    | ChannelVideos(channelId: string, maxResults: nat)
    | Details(ids: string)

  // ------------------------------------------------------------ responses

  datatype SearchBody =
    | Error(error: string)
    | Results(videos: seq<Video>, query: string, totalResults: nat, channelMatches: Option<nat>)

  /** The response and the requests made, in order. */
  datatype Outcome = Outcome(response: Response<SearchBody>, requests: seq<Request>)

  const KeyMissingMessage: string := "YouTube API key not configured"
  const QueryMissingMessage: string := "Search query is required"
  const UpstreamFailedMessage: string := "Failed to search videos from YouTube API"

  /** Channels queried for their videos, at most. */
  const ChannelsQueried: nat := 3
  /** Channels asked of the channel search. */
  const ChannelSearchSize: nat := 5
  /** Videos asked per channel. */
  const VideosPerChannel: nat := 3
  /** Page size when `maxResults` is absent or empty. */
  const DefaultMaxResults: nat := 12

  /** The error response for a thrown upstream error: its HTTP status and
      message when present and truthy, else 500 and a generic message. */
  function UpstreamError(status: Option<nat>, message: Option<string>): (r: Response<SearchBody>)
    ensures r.body.Error?
    ensures r.status != 0
    ensures status.Some? && status.value != 0 ==> r.status == status.value
    ensures (status.None? || status.value == 0) ==> r.status == ServerError500
    ensures message.Some? && message.value != "" ==> r.body.error == message.value
    ensures (message.None? || message.value == "") ==> r.body.error == UpstreamFailedMessage
  {
    var s := if status.Some? && status.value != 0 then status.value else ServerError500;
    var m := if message.Some? && message.value != "" then message.value else UpstreamFailedMessage;
    Response(s, Error(m))
  }

  /** The query sent to the video search. */
  function EnhancedQuery(q: string): string
  {
    q + " skateboarding OR bmx OR longboarding OR scooter OR \"action sports\""
  }

  /** `Math.ceil(m / 2)` for a natural `m`. */
  function HalfUp(m: nat): (r: nat)
    ensures 2 * r == m || 2 * r == m + 1
  {
    (m + 1) / 2
  }

  // ------------------------------------------------------------ de-duplication

  /** `self.findIndex(t => t === x)`: the first index holding `x`. */
  function FirstIndex(s: seq<string>, x: string): (i: nat)
    requires x in s
    ensures i < |s| && s[i] == x
    ensures forall j :: 0 <= j < i ==> s[j] != x
  {
    if s[0] == x then 0 else 1 + FirstIndex(s[1..], x)
  }

  /** The elements of `s` from index `i` on that pass the route's filter
      `index === self.findIndex(...)`: those at their first occurrence. */
  function KeepFirstFrom(s: seq<string>, i: nat): seq<string>
    requires i <= |s|
    decreases |s| - i
  {
    if i == |s| then []
    else (if FirstIndex(s, s[i]) == i then [s[i]] else []) + KeepFirstFrom(s, i + 1)
  }

  /** The route's de-duplication of a whole list. */
  function KeepFirst(s: seq<string>): seq<string>
  {
    KeepFirstFrom(s, 0)
  }

  /** Reference de-duplication: a left-to-right scan that keeps a value
      unless it was already seen (initially, `seen`). */
  function Dedupe(s: seq<string>, seen: set<string>): (r: seq<string>)
    ensures Seqs.NoDuplicates(r)
    ensures forall x :: x in r <==> x in s && x !in seen
  {
    if |s| == 0 then []
    else if s[0] in seen then Dedupe(s[1..], seen)
    else [s[0]] + Dedupe(s[1..], seen + {s[0]})
  }

  /** The reference scan keeps an order-preserving subsequence. */
  lemma {:induction false} DedupeIsSubsequence(s: seq<string>, seen: set<string>)
    ensures Seqs.IsSubsequence(Dedupe(s, seen), s)
  {
    if |s| > 0 {
      if s[0] in seen {
        DedupeIsSubsequence(s[1..], seen);
        var r := Dedupe(s[1..], seen);
        if |r| > 0 {
          assert Seqs.IsSubsequence(r, s[1..]);
        }
      } else {
        DedupeIsSubsequence(s[1..], seen + {s[0]});
        var r := Dedupe(s[1..], seen + {s[0]});
        assert ([s[0]] + r)[1..] == r;
      }
    }
  }

  /** An element is at its first occurrence exactly when it does not occur
      before it. */
  lemma FirstIndexIff(s: seq<string>, i: nat)
    requires i < |s|
    ensures FirstIndex(s, s[i]) == i <==> s[i] !in s[..i]
  {
    var k := FirstIndex(s, s[i]);
    if k < i {
      assert s[..i][k] == s[i];
    }
    if s[i] in s[..i] {
      var j :| 0 <= j < i && s[..i][j] == s[i];
      assert s[j] == s[i];
    }
  }

  /** The route's filter agrees with the reference scan: an element at index
      `i` is at its first occurrence exactly when it is not among the
      elements before it. */
  lemma {:induction false} KeepFirstFromIsDedupe(s: seq<string>, i: nat)
    requires i <= |s|
    ensures KeepFirstFrom(s, i) == Dedupe(s[i..], Seqs.Elements(s[..i]))
    decreases |s| - i
  {
    if i < |s| {
      var seen := Seqs.Elements(s[..i]);
      var t := s[i..];
      var later := KeepFirstFrom(s, i + 1);
      assert later == Dedupe(s[i + 1..], seen + {s[i]}) by {
        KeepFirstFromIsDedupe(s, i + 1);
        assert s[..i + 1] == s[..i] + [s[i]];
        assert Seqs.Elements(s[..i + 1]) == seen + {s[i]};
      }
      assert FirstIndex(s, s[i]) == i <==> s[i] !in seen by {
        FirstIndexIff(s, i);
      }
      assert t[0] == s[i] && t[1..] == s[i + 1..];
      if s[i] in seen {
        assert seen + {s[i]} == seen;
        assert KeepFirstFrom(s, i) == later;
      } else {
        assert KeepFirstFrom(s, i) == [s[i]] + later;
      }
    } else {
      assert s[i..] == [];
    }
  }

  /** The route's de-duplication is the reference scan from nothing seen. */
  lemma KeepFirstIsDedupe(s: seq<string>)
    ensures KeepFirst(s) == Dedupe(s, {})
  {
    KeepFirstFromIsDedupe(s, 0);
    assert s[0..] == s;
    assert Seqs.Elements(s[..0]) == {};
  }

  /** What the de-duplication keeps: each id once, every id of the input,
      in input order, as many as there are distinct ids. */
  lemma KeepFirstProperties(s: seq<string>)
    ensures Seqs.NoDuplicates(KeepFirst(s))
    ensures forall x :: x in KeepFirst(s) <==> x in s
    ensures Seqs.IsSubsequence(KeepFirst(s), s)
    ensures |KeepFirst(s)| == |Seqs.Elements(s)|
  {
    KeepFirstIsDedupe(s);
    DedupeIsSubsequence(s, {});
    Seqs.DistinctElements(KeepFirst(s));
    assert Seqs.Elements(KeepFirst(s)) == Seqs.Elements(s);
  }

  // ------------------------------------------------------------ merge

  /** The ids whose details are requested: primary results, then channel
      results, de-duplicated keeping first occurrences, truncated to `max`. */
  function MergeIds(primary: seq<string>, channel: seq<string>, max: nat): (r: seq<string>)
    ensures Seqs.NoDuplicates(r)
    ensures forall x :: x in r ==> x in primary || x in channel
    ensures Seqs.IsSubsequence(r, primary + channel)
    ensures |r| == (if max < |Seqs.Elements(primary + channel)| then max else |Seqs.Elements(primary + channel)|)
    ensures r == Seqs.Take(Dedupe(primary + channel, {}), max)
  {
    var all := primary + channel;
    KeepFirstProperties(all);
    KeepFirstIsDedupe(all);
    TakeOfDistinct(KeepFirst(all), max);
    TakeIsSubsequence(KeepFirst(all), max, all);
    Seqs.Take(KeepFirst(all), max)
  }

  /** A prefix of a list without duplicates has none, and holds only
      elements of the list. */
  lemma TakeOfDistinct(a: seq<string>, n: nat)
    requires Seqs.NoDuplicates(a)
    ensures Seqs.NoDuplicates(Seqs.Take(a, n))
    ensures forall x :: x in Seqs.Take(a, n) ==> x in a
  {
    var r := Seqs.Take(a, n);
    assert forall i :: 0 <= i < |r| ==> r[i] == a[i];
  }

  /** A prefix of a subsequence is a subsequence. */
  lemma {:induction false} TakeIsSubsequence(a: seq<string>, n: nat, b: seq<string>)
    requires Seqs.IsSubsequence(a, b)
    ensures Seqs.IsSubsequence(Seqs.Take(a, n), b)
    decreases |b|
  {
    if n < |a| && n > 0 && |b| > 0 {
      if a[0] == b[0] && Seqs.IsSubsequence(a[1..], b[1..]) {
        TakeIsSubsequence(a[1..], n - 1, b[1..]);
        assert Seqs.Take(a, n)[1..] == Seqs.Take(a[1..], n - 1);
      } else {
        TakeIsSubsequence(a, n, b[1..]);
      }
    }
  }

  /** The video ids returned by the channels queried, concatenated in
      channel order; a channel whose request fails contributes nothing. */
  function CollectChannelVideos(fetch: (string, nat) -> Upstream<seq<string>>, hits: seq<ChannelHit>): seq<string>
  {
    if |hits| == 0 then []
    else
      var mine := match fetch(hits[0].channelId, VideosPerChannel)
        case Ok(ids) => ids
        case Failed(_, _) => [];
      mine + CollectChannelVideos(fetch, hits[1..])
  }

  /** A failing channel is skipped without aborting: the ids collected are
      those collected without that channel. */
  lemma {:induction false} FailingChannelSkipped(fetch: (string, nat) -> Upstream<seq<string>>, hits: seq<ChannelHit>, i: nat)
    requires i < |hits| && fetch(hits[i].channelId, VideosPerChannel).Failed?
    ensures CollectChannelVideos(fetch, hits) == CollectChannelVideos(fetch, hits[..i] + hits[i + 1..])
  {
    if i == 0 {
      assert hits[..0] + hits[1..] == hits[1..];
    } else {
      FailingChannelSkipped(fetch, hits[1..], i - 1);
      assert (hits[..i] + hits[i + 1..])[1..] == hits[1..][..i - 1] + hits[1..][i..];
      assert (hits[..i] + hits[i + 1..])[0] == hits[0];
    }
  }

  /** Every id collected comes from a channel that answered. */
  lemma {:induction false} CollectedFromAnsweringChannels(fetch: (string, nat) -> Upstream<seq<string>>, hits: seq<ChannelHit>, x: string)
    requires x in CollectChannelVideos(fetch, hits)
    ensures exists i :: 0 <= i < |hits| && fetch(hits[i].channelId, VideosPerChannel).Ok?
                        && x in fetch(hits[i].channelId, VideosPerChannel).value
  {
    var mine := match fetch(hits[0].channelId, VideosPerChannel)
      case Ok(ids) => ids
      case Failed(_, _) => [];
    if x in mine {
      assert fetch(hits[0].channelId, VideosPerChannel).Ok?;
    } else {
      CollectedFromAnsweringChannels(fetch, hits[1..], x);
      var i :| 0 <= i < |hits[1..]| && fetch(hits[1..][i].channelId, VideosPerChannel).Ok?
                        && x in fetch(hits[1..][i].channelId, VideosPerChannel).value;
      assert hits[1..][i] == hits[i + 1];
    }
  }

  /** One per-channel request for each channel queried. */
  function ChannelRequests(hits: seq<ChannelHit>): (r: seq<Request>)
    ensures |r| == |hits|
    ensures forall i :: 0 <= i < |hits| ==> r[i] == ChannelVideos(hits[i].channelId, VideosPerChannel)
  {
    if |hits| == 0 then [] else [ChannelVideos(hits[0].channelId, VideosPerChannel)] + ChannelRequests(hits[1..])
  }

  // ------------------------------------------------------------ mapping

  /** The thumbnail: the medium one, else the default one (absent: ""). */
  function Thumbnail(d: VideoDetails): string
  {
    if d.mediumThumbnail.Some? && d.mediumThumbnail.value != "" then d.mediumThumbnail.value
    else d.defaultThumbnail.GetOr("")
  }

  /** A details record as a `Video`. */
  function ToVideo(d: VideoDetails): Video
  {
    Video(
      d.id, d.title, Some(d.description), Thumbnail(d), WatchUrl(d.id),
      Iso8601Duration.ConvertIso8601ToSeconds(d.duration),
      d.viewCount.GetOr(0), d.likeCount.GetOr(0), 0, "other", d.tags.GetOr([]),
      d.channelId, Channel(d.channelId, d.channelTitle, "", 0))
  }

  function ToVideos(ds: seq<VideoDetails>): (r: seq<Video>)
    ensures |r| == |ds|
    ensures forall i :: 0 <= i < |ds| ==> r[i] == ToVideo(ds[i])
  {
    if |ds| == 0 then [] else [ToVideo(ds[0])] + ToVideos(ds[1..])
  }

  /** A video whose upstream duration is a written duration gets the length
      that duration denotes. */
  lemma ToVideoDuration(d: VideoDetails, dur: Iso8601Duration.Duration)
    requires Iso8601Duration.ValidDuration(dur) && d.duration == Iso8601Duration.Format(dur)
    ensures ToVideo(d).duration == Iso8601Duration.TotalSeconds(dur)
  {
    Iso8601Duration.ConvertIso8601RoundTrip("", dur, "");
    assert "" + Iso8601Duration.Format(dur) + "" == d.duration;
  }

  // ------------------------------------------------------------ the handler

  /** The ids whose details the route requests once both searches have
      answered: the primary results and the videos of the first three
      channels, merged and truncated to `m`. */
  function DetailIds(api: SearchApi, page: VideoPage, hits: seq<ChannelHit>, m: nat): seq<string>
  {
    MergeIds(page.ids, CollectChannelVideos(api.channelVideos, Seqs.Take(hits, ChannelsQueried)), m)
  }

  /** The rest of the handler once both searches have answered: the
      per-channel requests, the merge and the details request. */
  function AfterSearches(api: SearchApi, query: string, m: nat, page: VideoPage, hits: seq<ChannelHit>): Outcome
  {
    var queried := Seqs.Take(hits, ChannelsQueried);
    var joined := Text.JoinComma(DetailIds(api, page, hits, m));
    if joined == "" then Outcome(Response(Ok200, Results([], query, 0, None)), ChannelRequests(queried))
    else
      var requests := ChannelRequests(queried) + [Details(joined)];
      match api.videoDetails(joined)
      case Failed(st, msg) => Outcome(UpstreamError(st, msg), requests)
      case Ok(details) =>
        var total := page.totalResults.GetOr(0) + |CollectChannelVideos(api.channelVideos, queried)|;
        Outcome(Response(Ok200, Results(ToVideos(details), query, total, Some(|hits|))), requests)
  }

  /** `GET /api/search?q=…&maxResults=…` with the given API key. `maxResults`
      is absent (or empty) or a natural number. The key is checked before
      the query, and neither failure makes a request. */
  function Search(api: SearchApi, key: Option<string>, q: Option<string>, maxResults: Option<nat>): (out: Outcome)
    ensures !Present(key) ==> out == Outcome(Response(ServerError500, Error(KeyMissingMessage)), [])
    ensures Present(key) && !Present(q) ==> out == Outcome(Response(BadRequest400, Error(QueryMissingMessage)), [])
    ensures Present(key) && Present(q) ==>
              |out.requests| >= 1
              && out.requests[0] == VideoSearch(EnhancedQuery(q.value), HalfUp(maxResults.GetOr(DefaultMaxResults)))
  {
    if !Present(key) then Outcome(Response(ServerError500, Error(KeyMissingMessage)), [])
    else if !Present(q) then Outcome(Response(BadRequest400, Error(QueryMissingMessage)), [])
    else
      var query := q.value;
      var m := maxResults.GetOr(DefaultMaxResults);
      var first := [VideoSearch(EnhancedQuery(query), HalfUp(m))];
      match api.searchVideos(EnhancedQuery(query), HalfUp(m))
      case Failed(st, msg) => Outcome(UpstreamError(st, msg), first)
      case Ok(page) =>
        var second := first + [ChannelSearch(query + " skateboarding", ChannelSearchSize)];
        match api.searchChannels(query + " skateboarding", ChannelSearchSize)
        case Failed(st, msg) => Outcome(UpstreamError(st, msg), second)
        case Ok(hits) =>
          var rest := AfterSearches(api, query, m, page, hits);
          Outcome(rest.response, second + rest.requests)
  }

  // ------------------------------------------------------------ properties

  /** Once both searches have answered, the requests are: the two searches,
      one request per channel among the first three channels found, and a
      details request for the merged ids unless they join to nothing. */
  lemma SearchRequests(api: SearchApi, key: Option<string>, q: string, maxResults: Option<nat>)
    requires Present(key) && q != ""
    requires api.searchVideos(EnhancedQuery(q), HalfUp(maxResults.GetOr(DefaultMaxResults))).Ok?
    requires api.searchChannels(q + " skateboarding", ChannelSearchSize).Ok?
    ensures var m := maxResults.GetOr(DefaultMaxResults);
            var page := api.searchVideos(EnhancedQuery(q), HalfUp(m)).value;
            var hits := api.searchChannels(q + " skateboarding", ChannelSearchSize).value;
            var joined := Text.JoinComma(DetailIds(api, page, hits, m));
            Search(api, key, Some(q), maxResults).requests
            == [VideoSearch(EnhancedQuery(q), HalfUp(m)), ChannelSearch(q + " skateboarding", ChannelSearchSize)]
               + ChannelRequests(Seqs.Take(hits, ChannelsQueried))
               + (if joined == "" then [] else [Details(joined)])
  {
    var m := maxResults.GetOr(DefaultMaxResults);
    var page := api.searchVideos(EnhancedQuery(q), HalfUp(m)).value;
    var hits := api.searchChannels(q + " skateboarding", ChannelSearchSize).value;
    var two := [VideoSearch(EnhancedQuery(q), HalfUp(m)), ChannelSearch(q + " skateboarding", ChannelSearchSize)];
    var joined := Text.JoinComma(DetailIds(api, page, hits, m));
    var cr := ChannelRequests(Seqs.Take(hits, ChannelsQueried));
    var tail: seq<Request> := if joined == "" then [] else [Details(joined)];
    SearchAfterBothSearches(api, key, q, maxResults);
    AfterSearchesRequests(api, q, m, page, hits);
    assert two + (cr + tail) == two + cr + tail;
  }

  /** With both searches answered, the handler's outcome is that of the rest
      of the handler, after the two search requests. */
  lemma SearchAfterBothSearches(api: SearchApi, key: Option<string>, q: string, maxResults: Option<nat>)
    requires Present(key) && q != ""
    requires api.searchVideos(EnhancedQuery(q), HalfUp(maxResults.GetOr(DefaultMaxResults))).Ok?
    requires api.searchChannels(q + " skateboarding", ChannelSearchSize).Ok?
    ensures var m := maxResults.GetOr(DefaultMaxResults);
            var rest := AfterSearches(api, q, m, api.searchVideos(EnhancedQuery(q), HalfUp(m)).value,
                                      api.searchChannels(q + " skateboarding", ChannelSearchSize).value);
            Search(api, key, Some(q), maxResults)
            == Outcome(rest.response, [VideoSearch(EnhancedQuery(q), HalfUp(m)),
                                       ChannelSearch(q + " skateboarding", ChannelSearchSize)] + rest.requests)
  {
    var m := maxResults.GetOr(DefaultMaxResults);
    assert [VideoSearch(EnhancedQuery(q), HalfUp(m))] + [ChannelSearch(q + " skateboarding", ChannelSearchSize)]
        == [VideoSearch(EnhancedQuery(q), HalfUp(m)), ChannelSearch(q + " skateboarding", ChannelSearchSize)];
  }

  /** The requests of the rest of the handler: one per channel queried, then
      the details request unless the ids join to nothing. */
  lemma AfterSearchesRequests(api: SearchApi, q: string, m: nat, page: VideoPage, hits: seq<ChannelHit>)
    ensures var joined := Text.JoinComma(DetailIds(api, page, hits, m));
            AfterSearches(api, q, m, page, hits).requests
            == ChannelRequests(Seqs.Take(hits, ChannelsQueried)) + (if joined == "" then [] else [Details(joined)])
  {
    if Text.JoinComma(DetailIds(api, page, hits, m)) == "" {
      assert ChannelRequests(Seqs.Take(hits, ChannelsQueried)) + [] == ChannelRequests(Seqs.Take(hits, ChannelsQueried));
    }
  }

  /** At most three channels are asked for their videos, and never more
      than the channel search found. */
  lemma AtMostThreeChannels(hits: seq<ChannelHit>)
    ensures |ChannelRequests(Seqs.Take(hits, ChannelsQueried))| <= ChannelsQueried
    ensures |ChannelRequests(Seqs.Take(hits, ChannelsQueried))| <= |hits|
  {
  }

  /** The merged ids joining to nothing (no id, or a single empty id) gives
      an empty result with total 0, and no details request is made. */
  lemma SearchNothingFound(api: SearchApi, key: Option<string>, q: string, maxResults: Option<nat>)
    requires Present(key) && q != ""
    requires api.searchVideos(EnhancedQuery(q), HalfUp(maxResults.GetOr(DefaultMaxResults))).Ok?
    requires api.searchChannels(q + " skateboarding", ChannelSearchSize).Ok?
    requires var m := maxResults.GetOr(DefaultMaxResults);
             DetailIds(api, api.searchVideos(EnhancedQuery(q), HalfUp(m)).value,
                       api.searchChannels(q + " skateboarding", ChannelSearchSize).value, m) == []
    ensures Search(api, key, Some(q), maxResults).response == Response(Ok200, Results([], q, 0, None))
    ensures forall r :: r in Search(api, key, Some(q), maxResults).requests ==> !r.Details?
  {
    SearchRequests(api, key, q, maxResults);
  }

  /** A successful search: one video per details record, in order, and a
      total of the primary total plus every id the channels returned
      (counted before de-duplication). */
  lemma SearchSucceeds(api: SearchApi, key: Option<string>, q: string, maxResults: Option<nat>)
    requires Present(key) && q != ""
    requires api.searchVideos(EnhancedQuery(q), HalfUp(maxResults.GetOr(DefaultMaxResults))).Ok?
    requires api.searchChannels(q + " skateboarding", ChannelSearchSize).Ok?
    requires var m := maxResults.GetOr(DefaultMaxResults);
             var joined := Text.JoinComma(DetailIds(api, api.searchVideos(EnhancedQuery(q), HalfUp(m)).value,
                                                  api.searchChannels(q + " skateboarding", ChannelSearchSize).value, m));
             joined != "" && api.videoDetails(joined).Ok?
    ensures var m := maxResults.GetOr(DefaultMaxResults);
            var page := api.searchVideos(EnhancedQuery(q), HalfUp(m)).value;
            var hits := api.searchChannels(q + " skateboarding", ChannelSearchSize).value;
            var details := api.videoDetails(Text.JoinComma(DetailIds(api, page, hits, m))).value;
            var body := Search(api, key, Some(q), maxResults).response.body;
            && Search(api, key, Some(q), maxResults).response.status == Ok200
            && body.Results?
            && |body.videos| == |details|
            && (forall i :: 0 <= i < |details| ==> body.videos[i] == ToVideo(details[i]))
            && body.totalResults
               == page.totalResults.GetOr(0) + |CollectChannelVideos(api.channelVideos, Seqs.Take(hits, ChannelsQueried))|
            && body.channelMatches == Some(|hits|)
  {
  }

  /** A failing video search ends the handler: the error response is built
      from that failure and nothing else is requested. */
  lemma SearchUpstreamFailure(api: SearchApi, key: Option<string>, q: string, maxResults: Option<nat>)
    requires Present(key) && q != ""
    requires api.searchVideos(EnhancedQuery(q), HalfUp(maxResults.GetOr(DefaultMaxResults))).Failed?
    ensures var f := api.searchVideos(EnhancedQuery(q), HalfUp(maxResults.GetOr(DefaultMaxResults)));
            Search(api, key, Some(q), maxResults)
            == Outcome(UpstreamError(f.status, f.message), [VideoSearch(EnhancedQuery(q), HalfUp(maxResults.GetOr(DefaultMaxResults)))])
  {
  }
}
