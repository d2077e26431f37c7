/** The two catalogue filters shared by the listing route
    (`src/app/api/videos/route.ts`) and the home page (`src/app/page.tsx`):
    by category, and by a case-insensitive text query over the title, the
    description and the tags. */
module VideoFilters {
  import opened Wrappers
  import opened Types
  import Seqs
  import Text

  /** The query text occurs, ignoring case, in the title, the description
      (when there is one) or some tag. */
  predicate Matches(v: Video, query: string)
  {
    var q := Text.Lower(query);
    || Text.Contains(Text.Lower(v.title), q)
    || (v.description.Some? && Text.Contains(Text.Lower(v.description.value), q))
    || (exists t :: t in v.tags && Text.Contains(Text.Lower(t), q))
  }

  /** The filter predicate of a category. */
  function InCategory(c: string): Video -> bool
  {
    (v: Video) => v.category == c
  }

  /** The filter predicate of a text query. */
  function MatchesQuery(query: string): Video -> bool
  {
    (v: Video) => Matches(v, query)
  }

  /** `videos.filter(video => video.category === c)`. */
  function ByCategory(videos: seq<Video>, c: string): (r: seq<Video>)
    ensures forall v :: v in r <==> v in videos && v.category == c
    ensures Seqs.IsSubsequence(r, videos)
  {
    Seqs.FilterIsSubsequence(videos, InCategory(c));
    forall v ensures v in Seqs.Filter(videos, InCategory(c)) <==> v in videos && v.category == c {
      Seqs.FilterMembership(videos, InCategory(c), v);
    }
    Seqs.Filter(videos, InCategory(c))
  }

  /** The text filter: nothing is filtered when the query is empty (falsy),
      else the videos matching it are kept. */
  function ByQuery(videos: seq<Video>, query: string): (r: seq<Video>)
    ensures query == "" ==> r == videos
    ensures query != "" ==> forall v :: v in r <==> v in videos && Matches(v, query)
    ensures Seqs.IsSubsequence(r, videos)
  {
    if query == "" then
      Seqs.FilterAll(videos, MatchesQuery(""));
      Seqs.FilterIsSubsequence(videos, MatchesQuery(""));
      videos
    else
      Seqs.FilterIsSubsequence(videos, MatchesQuery(query));
      forall v ensures v in Seqs.Filter(videos, MatchesQuery(query)) <==> v in videos && Matches(v, query) {
        Seqs.FilterMembership(videos, MatchesQuery(query), v);
      }
      Seqs.Filter(videos, MatchesQuery(query))
  }

  /** The empty query matches every video, so the text filter with it would
      keep everything anyway: skipping it for an empty query changes no
      result. */
  lemma EmptyQueryMatchesAll(v: Video)
    ensures Matches(v, "")
  {
    Text.ContainsEmpty(Text.Lower(v.title));
  }

  /** Matching ignores the case of the query. */
  lemma MatchesIgnoresQueryCase(v: Video, query: string)
    ensures Matches(v, query) <==> Matches(v, Text.Lower(query))
  {
    Text.LowerIdempotent(query);
  }

  /** A video is found by a query that occurs literally in its title. */
  lemma TitleMatches(v: Video, before: string, query: string, after: string)
    requires v.title == before + query + after
    ensures Matches(v, query)
  {
    var lt := Text.Lower(v.title);
    var q := Text.Lower(query);
    assert lt[|before|..|before| + |query|] == q;
    assert Text.OccursAt(lt, q, |before|);
    Text.ContainsIff(lt, q);
  }

  /** The category filter and the text filter commute. */
  lemma FiltersCommute(videos: seq<Video>, c: string, query: string)
    ensures ByQuery(ByCategory(videos, c), query) == ByCategory(ByQuery(videos, query), c)
  {
    if query != "" {
      Seqs.FilterCommutes(videos, InCategory(c), MatchesQuery(query));
    }
  }
}
