/** The category feed (`src/app/api/youtube/route.ts`): a category is
    mapped to an upstream search query, the search results are zipped by
    position with a details request, and any upstream failure is answered
    with the canned videos of the category.

    The upstream API is a parameter (search: query and page size; details:
    comma-joined ids), and the model returns the requests made besides the
    response. `Math.random()` is a parameter too: `draw(i)` is the number in
    [0, 1) drawn for the i-th video, scaled by 100000. */
module CategoryFeed {
  import opened Wrappers
  import opened Http
  import opened Types
  import Seqs
  import Text
  import Iso8601Duration
  import FallbackVideos
  import opened Categories

  // ------------------------------------------------------------ categories

  const DefaultCategory: string := "skateboarding"
  const DefaultMaxResults: string := "12"
  const KeyMissingMessage: string := "YouTube API key not configured"
  const FallbackMessage: string := "YouTube API unavailable - showing fallback data"

  /** The category in effect: the parameter, or `skateboarding` when it is
      absent or empty. */
  function EffectiveCategory(category: Option<string>): (c: string)
    ensures c != ""
    ensures Present(category) ==> c == category.value
    ensures !Present(category) ==> c == DefaultCategory
  {
    if Present(category) then category.value else DefaultCategory
  }

  /** `searchTerms[category] || searchTerms['skateboarding']`: the query of
      a known category, else the skateboarding query. */
  function SearchQuery(category: string): string
  {
    match Parse(category)
    case Some(c) => SearchTerm(c)
    case None => SearchTerm(Skateboarding)
  }

  /** `mockVideosByCategory[category] || mockVideosByCategory.all`: the
      canned list of a known category, else the `all` list; never empty. */
  function FallbackFor(category: string): (vs: seq<Video>)
    ensures |vs| > 0
  {
    match Parse(category)
    case Some(c) => FallbackVideos.FallbackList(c)
    case None => FallbackVideos.FallbackList(All)
  }

  /** Whatever the category, the canned answer is tagged `fallback`. */
  lemma FallbackTagged(category: string)
    ensures forall i :: 0 <= i < |FallbackFor(category)| ==> FallbackVideos.Tagged(FallbackFor(category)[i])
  {
    match Parse(category)
    case Some(c) => FallbackVideos.AllTagged(c);
    case None => FallbackVideos.AllTagged(All);
  }

  // ------------------------------------------------------------ upstream

  /** A search result: `id.videoId` and the snippet fields read. */
  datatype SearchItem = SearchItem(
    videoId: string, title: string, description: string,
    highThumbnail: Option<string>, mediumThumbnail: string,
    channelTitle: string)

  /** A details record: `contentDetails.duration`, `statistics.viewCount`
      and the optional `statistics.likeCount`. */
  datatype DetailItem = DetailItem(duration: string, viewCount: nat, likeCount: Option<nat>)

  datatype FeedApi = FeedApi(
    search: (string, string) -> Upstream<seq<SearchItem>>,
    details: string -> Upstream<seq<DetailItem>>)

  datatype Request = Search(q: string, maxResults: string) | Details(ids: string)

  datatype FeedBody =
    | Error(error: string)
    | Videos(videos: seq<Video>)
    | Fallback(videos: seq<Video>, error: string)

  datatype Outcome = Outcome(response: Response<FeedBody>, requests: seq<Request>)

  // ------------------------------------------------------------ mapping

  /** The channel id derived from a channel title: whitespace removed,
      lower-cased. */
  function ChannelId(title: string): (id: string)
    ensures forall i :: 0 <= i < |id| ==> !Text.IsSpace(id[i]) && !Text.IsUpper(id[i])
  {
    Text.Lower(Text.RemoveWhitespace(title))
  }

  /** Deriving the id of an id changes nothing: the id is already a
      normal form. */
  lemma ChannelIdIdempotent(title: string)
    ensures ChannelId(ChannelId(title)) == ChannelId(title)
  {
    var id := ChannelId(title);
    Seqs.FilterAll(id, c => !Text.IsSpace(c));
    assert Text.RemoveWhitespace(id) == id;
    forall i | 0 <= i < |id| ensures Text.LowerChar(id[i]) == id[i] { }
  }

  /** The derived e-mail address. */
  function ChannelEmail(title: string): string
  {
    ChannelId(title) + "@youtube.com"
  }

  /** The thumbnail: the high one when present and non-empty, else the medium one. */
  function Thumbnail(item: SearchItem): string
  {
    if item.highThumbnail.Some? && item.highThumbnail.value != "" then item.highThumbnail.value
    else item.mediumThumbnail
  }

  /** The details record at the same position, if there is one. */
  function DetailsAt(details: seq<DetailItem>, i: nat): Option<DetailItem>
  {
    if i < |details| then Some(details[i]) else None
  }

  /** Search item `i` with the details at the same position, as a `Video`. */
  function ToVideo(item: SearchItem, d: Option<DetailItem>, category: string, subscribers: nat): Video
  {
    var id := ChannelId(item.channelTitle);
    Video(
      item.videoId, item.title, Some(item.description), Thumbnail(item), WatchUrl(item.videoId),
      if d.Some? then Iso8601Duration.ConvertDuration(d.value.duration) else 0,
      if d.Some? then d.value.viewCount else 0,
      if d.Some? && d.value.likeCount.Some? then d.value.likeCount.value else 0,
      0, category, [category, "youtube"], id,
      Channel(id, item.channelTitle, ChannelEmail(item.channelTitle), subscribers))
  }

  /** `videos.map((video, index) => …)`: each search item with the details
      at its position. */
  function Zip(items: seq<SearchItem>, details: seq<DetailItem>, category: string, draw: nat -> nat): (vs: seq<Video>)
  {
    seq(|items|, i requires 0 <= i < |items| => ToVideo(items[i], DetailsAt(details, i), category, draw(i) % 100000))
  }

  /** The positional zip: one video per search item, in order; item `i`
      takes its duration, views and likes from details record `i`, and gets
      0 for each when there is no such record or no like count. The channel
      fields are derived from the channel title. */
  lemma ZipFields(items: seq<SearchItem>, details: seq<DetailItem>, c: string, draw: nat -> nat, i: nat)
    requires i < |items|
    ensures |Zip(items, details, c, draw)| == |items|
    ensures var v := Zip(items, details, c, draw)[i];
            && v.id == items[i].videoId
            && v.videoUrl == WatchUrl(items[i].videoId)
            && v.duration == (if i < |details| then Iso8601Duration.ConvertDuration(details[i].duration) else 0)
            && v.viewCount == (if i < |details| then details[i].viewCount else 0)
            && v.likeCount == (if i < |details| && details[i].likeCount.Some? then details[i].likeCount.value else 0)
            && v.dislikeCount == 0
            && v.category == c
            && v.tags == [c, "youtube"]
            && v.userId == v.user.id == ChannelId(items[i].channelTitle)
            && v.user.username == items[i].channelTitle
            && v.user.email == ChannelId(items[i].channelTitle) + "@youtube.com"
            && v.user.subscriberCount < 100000
  {
    assert Zip(items, details, c, draw)[i] == ToVideo(items[i], DetailsAt(details, i), c, draw(i) % 100000);
  }

  /** The joined video ids of the details request. */
  function VideoIds(items: seq<SearchItem>): (ids: seq<string>)
    ensures |ids| == |items|
    ensures forall i :: 0 <= i < |items| ==> ids[i] == items[i].videoId
  {
    if |items| == 0 then [] else [items[0].videoId] + VideoIds(items[1..])
  }

  // ------------------------------------------------------------ the handler

  /** The `maxResults` passed upstream: the parameter, or `12`. */
  function MaxResults(maxResults: Option<string>): string
  {
    if Present(maxResults) then maxResults.value else DefaultMaxResults
  }

  /** The handler past the key check, for category `c` with upstream query
      `query` and canned list `fallback`: search; an empty result ends it;
      else request the details and zip. A failure of either request is
      answered with the canned list. */
  function Respond(api: FeedApi, c: string, query: string, m: string, fallback: seq<Video>, draw: nat -> nat): (out: Outcome)
    ensures out.response.status == Ok200
    ensures 1 <= |out.requests| <= 2 && out.requests[0] == Search(query, m)
  {
    var first := [Search(query, m)];
    match api.search(query, m)
    case Failed(_, _) => Outcome(Response(Ok200, Fallback(fallback, FallbackMessage)), first)
    case Ok(items) =>
      if |items| == 0 then Outcome(Response(Ok200, Videos([])), first)
      else
        var joined := Text.JoinComma(VideoIds(items));
        var both := first + [Details(joined)];
        match api.details(joined)
        case Failed(_, _) => Outcome(Response(Ok200, Fallback(fallback, FallbackMessage)), both)
        case Ok(details) => Outcome(Response(Ok200, Videos(Zip(items, details, c, draw))), both)
  }

  /** `GET /api/youtube?category=…&maxResults=…` with the given API key: the
      key is checked first, and its absence is an error, not a fallback. */
  function Feed(api: FeedApi, key: Option<string>, category: Option<string>, maxResults: Option<string>, draw: nat -> nat): (out: Outcome)
    ensures !Present(key) ==> out == Outcome(Response(ServerError500, Error(KeyMissingMessage)), [])
    ensures Present(key) ==> out.response.status == Ok200 && !out.response.body.Error?
  {
    var c := EffectiveCategory(category);
    if !Present(key) then Outcome(Response(ServerError500, Error(KeyMissingMessage)), [])
    else Respond(api, c, SearchQuery(c), MaxResults(maxResults), FallbackFor(c), draw)
  }

  // ------------------------------------------------------------ properties

  /** A key finds its own query and canned list. */
  lemma LookupKnown(k: Category)
    ensures SearchQuery(Name(k)) == SearchTerm(k)
    ensures FallbackFor(Name(k)) == FallbackVideos.FallbackList(k)
  {
    ParseName(k);
  }

  /** Any other string finds the skateboarding query and the `all` list. */
  lemma LookupUnknown(category: string)
    requires forall k :: Name(k) != category
    ensures SearchQuery(category) == SearchTerm(Skateboarding)
    ensures FallbackFor(category) == FallbackVideos.FallbackList(All)
  {
    ParseIff(category);
  }

  /** With a key and category `k` in effect, the search asks for the query
      of `k`, and a fallback answers with the canned list of `k`. */
  lemma FeedKnownCategory(api: FeedApi, key: Option<string>, category: Option<string>, maxResults: Option<string>,
                          draw: nat -> nat, k: Category)
    requires Present(key) && EffectiveCategory(category) == Name(k)
    ensures var out := Feed(api, key, category, maxResults, draw);
            && out.requests[0] == Search(SearchTerm(k), MaxResults(maxResults))
            && (out.response.body.Fallback? ==> out.response.body.videos == FallbackVideos.FallbackList(k))
  {
    LookupKnown(k);
    RespondLooksUp(api, Name(k), MaxResults(maxResults), draw);
  }

  /** With a key and a category in effect that is not a key, the search
      asks for the skateboarding query, and a fallback answers with the
      `all` list. */
  lemma FeedUnknownCategory(api: FeedApi, key: Option<string>, category: Option<string>, maxResults: Option<string>,
                            draw: nat -> nat)
    requires Present(key) && forall k :: Name(k) != EffectiveCategory(category)
    ensures var out := Feed(api, key, category, maxResults, draw);
            && out.requests[0] == Search(SearchTerm(Skateboarding), MaxResults(maxResults))
            && (out.response.body.Fallback? ==> out.response.body.videos == FallbackVideos.FallbackList(All))
  {
    LookupUnknown(EffectiveCategory(category));
    RespondLooksUp(api, EffectiveCategory(category), MaxResults(maxResults), draw);
  }

  /** The handler past the key check asks for the category's query and
      falls back to its canned list. */
  lemma RespondLooksUp(api: FeedApi, c: string, m: string, draw: nat -> nat)
    ensures var out := Respond(api, c, SearchQuery(c), m, FallbackFor(c), draw);
            && out.requests[0] == Search(SearchQuery(c), m)
            && (out.response.body.Fallback? ==> out.response.body.videos == FallbackFor(c))
  {
    var out := Respond(api, c, SearchQuery(c), m, FallbackFor(c), draw);
    if out.response.body.Fallback? {
      FallbackBody(api, c, SearchQuery(c), m, FallbackFor(c), draw);
    }
  }

  /** With a key and no category, or an empty one, the feed is the
      skateboarding feed. */
  lemma FeedDefaultsToSkateboarding(api: FeedApi, key: Option<string>, maxResults: Option<string>, draw: nat -> nat)
    requires Present(key)
    ensures Feed(api, key, None, maxResults, draw) == Feed(api, key, Some(Name(Skateboarding)), maxResults, draw)
    ensures Feed(api, key, Some(""), maxResults, draw) == Feed(api, key, Some(Name(Skateboarding)), maxResults, draw)
  {
  }

  /** A fallback answer carries exactly the canned list it was given. */
  lemma FallbackBody(api: FeedApi, c: string, query: string, m: string, fallback: seq<Video>, draw: nat -> nat)
    requires Respond(api, c, query, m, fallback, draw).response.body.Fallback?
    ensures Respond(api, c, query, m, fallback, draw).response.body == Fallback(fallback, FallbackMessage)
  {
  }

  /** An empty search result: no videos and no details request. */
  lemma RespondEmptySearch(api: FeedApi, c: string, query: string, m: string, fallback: seq<Video>, draw: nat -> nat)
    requires api.search(query, m) == Ok([])
    ensures Respond(api, c, query, m, fallback, draw) == Outcome(Response(Ok200, Videos([])), [Search(query, m)])
  {
  }

  /** A failing search, or a failing details request after a non-empty
      search, is answered with the canned list. */
  lemma RespondFallsBack(api: FeedApi, c: string, query: string, m: string, fallback: seq<Video>, draw: nat -> nat)
    requires api.search(query, m).Failed?
             || (api.search(query, m).Ok? && |api.search(query, m).value| > 0
                 && api.details(Text.JoinComma(VideoIds(api.search(query, m).value))).Failed?)
    ensures Respond(api, c, query, m, fallback, draw).response == Response(Ok200, Fallback(fallback, FallbackMessage))
  {
  }

  /** Search and details answered: the videos are the positional zip, and
      the details request asks for the search results' ids. */
  lemma RespondZips(api: FeedApi, c: string, query: string, m: string, fallback: seq<Video>, draw: nat -> nat,
                    items: seq<SearchItem>, details: seq<DetailItem>)
    requires api.search(query, m) == Ok(items) && |items| > 0
    requires api.details(Text.JoinComma(VideoIds(items))) == Ok(details)
    ensures Respond(api, c, query, m, fallback, draw)
            == Outcome(Response(Ok200, Videos(Zip(items, details, c, draw))),
                       [Search(query, m), Details(Text.JoinComma(VideoIds(items)))])
  {
  }

  /** Whitespace anywhere in a channel title does not change its id. */
  lemma ChannelIdIgnoresSpace(a: string, c: char, b: string)
    requires Text.IsSpace(c)
    ensures ChannelId(a + [c] + b) == ChannelId(a + b)
  {
    Seqs.FilterAppend(a + [c], b, x => !Text.IsSpace(x));
    Seqs.FilterAppend(a, [c], x => !Text.IsSpace(x));
    Seqs.FilterAppend(a, b, x => !Text.IsSpace(x));
  }
}
