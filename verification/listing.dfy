/** The mock catalogue route (`src/app/api/videos/route.ts`): `GET` filters
    the catalogue by category and text and returns one page of it; `POST`
    validates an upload's metadata and echoes the new video record.

    The catalogue is a parameter (the route seeds it with two fixed
    records). Query parameters arrive as text: an absent or empty one is
    `None`, and `limit`/`offset` are taken as already-parsed naturals. */
module VideosRoute {
  import opened Wrappers
  import opened Http
  import opened Types
  import Seqs
  import VideoFilters

  const DefaultLimit: nat := 10
  const DefaultOffset: nat := 0

  /** The `GET` body. */
  datatype Page = Page(videos: seq<Video>, total: nat, hasMore: bool)

  /** The category and text filters of `GET`: the category filter applies
      only to a present category other than `all`, the text filter only to
      a present query. */
  function Filtered(catalog: seq<Video>, category: Option<string>, search: Option<string>): (r: seq<Video>)
    ensures Seqs.IsSubsequence(r, catalog)
    ensures forall v :: v in r ==> v in catalog
    ensures category.Some? && category.value != "" && category.value != "all" ==>
              forall v :: v in r ==> v.category == category.value
    ensures search.Some? && search.value != "" ==>
              forall v :: v in r ==> VideoFilters.Matches(v, search.value)
    ensures forall v :: v in r <==>
              && v in catalog
              && (category.Some? && category.value != "" && category.value != "all" ==> v.category == category.value)
              && (search.Some? && search.value != "" ==> VideoFilters.Matches(v, search.value))
  {
    var byCategory :=
      if category.Some? && category.value != "" && category.value != "all"
      then VideoFilters.ByCategory(catalog, category.value) else catalog;
    assert Seqs.IsSubsequence(byCategory, catalog) by {
      if byCategory == catalog { Seqs.SubsequenceRefl(catalog); }
    }
    var r := VideoFilters.ByQuery(byCategory, if search.Some? then search.value else "");
    Seqs.SubsequenceTrans(r, byCategory, catalog);
    r
  }

  /** `GET /api/videos?category=…&search=…&limit=…&offset=…`: the filtered
      catalogue's elements from `offset` on, at most `limit` of them, its
      total size, and whether anything lies past the page. */
  function List(catalog: seq<Video>, category: Option<string>, search: Option<string>,
                limit: Option<nat>, offset: Option<nat>): (p: Page)
    ensures var f := Filtered(catalog, category, search);
            var lim := limit.GetOr(DefaultLimit);
            var off := offset.GetOr(DefaultOffset);
            && p.total == |f|
            && (p.hasMore <==> off + lim < p.total)
            && |p.videos| <= lim
            && |p.videos| == (if off < |f| then (if off + lim < |f| then lim else |f| - off) else 0)
            && (forall i :: 0 <= i < |p.videos| ==> off + i < |f| && p.videos[i] == f[off + i])
  {
    var f := Filtered(catalog, category, search);
    var lim := limit.GetOr(DefaultLimit);
    var off := offset.GetOr(DefaultOffset);
    Page(Seqs.Slice(f, off, off + lim), |f|, off + lim < |f|)
  }

  /** The total does not depend on the page asked for. */
  lemma TotalIgnoresPaging(catalog: seq<Video>, category: Option<string>, search: Option<string>,
                           l1: Option<nat>, o1: Option<nat>, l2: Option<nat>, o2: Option<nat>)
    ensures List(catalog, category, search, l1, o1).total == List(catalog, category, search, l2, o2).total
  {
  }

  /** Paging through the results loses and repeats nothing: the page at
      `offset` of size `a` followed by the page at `offset + a` of size `b`
      is the page at `offset` of size `a + b`. */
  lemma PagesConcatenate(catalog: seq<Video>, category: Option<string>, search: Option<string>,
                         offset: nat, a: nat, b: nat)
    ensures List(catalog, category, search, Some(a), Some(offset)).videos
            + List(catalog, category, search, Some(b), Some(offset + a)).videos
            == List(catalog, category, search, Some(a + b), Some(offset)).videos
  {
    var f := Filtered(catalog, category, search);
    Seqs.SliceAdjacent(f, offset, offset + a, offset + a + b);
  }

  /** With neither filter nor paging parameters, the first ten catalogue
      entries are listed. */
  lemma ListDefaults(catalog: seq<Video>)
    ensures List(catalog, None, None, None, None).videos == Seqs.Take(catalog, DefaultLimit)
    ensures List(catalog, Some("all"), None, None, None) == List(catalog, None, None, None, None)
  {
    var f := Filtered(catalog, None, None);
    assert f == catalog;
  }

  // ------------------------------------------------------------ POST

  /** The fields of an upload's JSON body that the route reads. */
  datatype UploadRequest = UploadRequest(
    title: Option<string>, description: Option<string>, category: Option<string>,
    tags: Option<seq<string>>, thumbnail: Option<string>)

  datatype UploadBody =
    | Error(error: string)
    | Uploaded(message: string, video: Video)

  const MissingFieldsMessage: string := "Title and category are required"
  const UploadFailedMessage: string := "Failed to upload video"
  const UploadedMessage: string := "Video uploaded successfully"
  const UploadedUrl: string := "/videos/uploaded-video.mp4"
  const UploaderId: string := "current-user-id"
  /** The fixed uploader every new video is attributed to. */
  const Uploader: Channel := Channel(UploaderId, "current-user", "user@example.com", 0)

  function OrEmpty(s: Option<string>): string
  {
    if s.Some? then s.value else ""
  }

  /** `POST /api/videos`. `body` is `None` when the request body is not
      JSON, and `id` is the text of the current time that names the video.
      A title and a category are required; everything else has a default:
      an empty description, the placeholder thumbnail, no tags, and zero
      duration and counts. */
  function Upload(body: Option<UploadRequest>, id: string): (r: Response<UploadBody>)
    ensures body.None? ==> r == Response(ServerError500, Error(UploadFailedMessage))
    ensures body.Some? ==>
              (r.status == BadRequest400 <==> OrEmpty(body.value.title) == "" || OrEmpty(body.value.category) == "")
    ensures body.Some? ==>
              (r.status == Ok200 <==> OrEmpty(body.value.title) != "" && OrEmpty(body.value.category) != "")
    ensures r.status == Ok200 <==> r.body.Uploaded?
    ensures r.body.Uploaded? ==>
              var b := body.value;
              var v := r.body.video;
              && b.title == Some(v.title) && v.title != ""
              && b.category == Some(v.category) && v.category != ""
              && v.id == id
              && v.description == Some(OrEmpty(b.description))
              && v.thumbnail == (if OrEmpty(b.thumbnail) != "" then b.thumbnail.value else PlaceholderThumbnail)
              && v.tags == (if b.tags.Some? then b.tags.value else [])
              && v.duration == v.viewCount == v.likeCount == v.dislikeCount == 0
              && v.userId == v.user.id
  {
    match body
    case None => Response(ServerError500, Error(UploadFailedMessage))
    case Some(b) =>
      if OrEmpty(b.title) == "" || OrEmpty(b.category) == "" then
        Response(BadRequest400, Error(MissingFieldsMessage))
      else
        var video := Video(
          id, b.title.value, Some(OrEmpty(b.description)),
          if OrEmpty(b.thumbnail) != "" then b.thumbnail.value else PlaceholderThumbnail,
          UploadedUrl, 0, 0, 0, 0, b.category.value,
          if b.tags.Some? then b.tags.value else [], UploaderId, Uploader);
        Response(Ok200, Uploaded(UploadedMessage, video))
  }

  /** A body holding only a title and a category is accepted, and every
      other field of the new video takes its default. */
  lemma UploadMinimal(title: string, category: string, id: string)
    requires title != "" && category != ""
    ensures Upload(Some(UploadRequest(Some(title), None, Some(category), None, None)), id)
            == Response(Ok200, Uploaded(UploadedMessage,
                 Video(id, title, Some(""), PlaceholderThumbnail, UploadedUrl, 0, 0, 0, 0,
                       category, [], UploaderId, Uploader)))
  {
  }

  /** An uploaded video, once in the catalogue, is listed under its own
      category and found by its own title. */
  lemma UploadedIsListed(catalog: seq<Video>, body: Option<UploadRequest>, id: string)
    requires Upload(body, id).status == Ok200
    ensures var v := Upload(body, id).body.video;
            v in Filtered(catalog + [v], Some(v.category), Some(v.title))
  {
    var v := Upload(body, id).body.video;
    VideoFilters.TitleMatches(v, "", v.title, "");
    assert v in catalog + [v];
  }
}
