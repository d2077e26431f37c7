/** The home page's visible list (`src/app/page.tsx`): the seeded videos
    filtered by the selected category (`all` selects everything) and then
    by the header's search text. */
module HomePage {
  import opened Wrappers
  import opened Types
  import Seqs
  import VideoFilters
  import VideosRoute

  /** The category selection that disables the category filter. */
  const AllCategories: string := "all"

  /** The effect that recomputes `filteredVideos`. */
  function Visible(videos: seq<Video>, selected: string, query: string): (r: seq<Video>)
    ensures forall v :: v in r <==>
              && v in videos
              && (selected == AllCategories || v.category == selected)
              && (query == "" || VideoFilters.Matches(v, query))
    ensures Seqs.IsSubsequence(r, videos)
  {
    var byCategory := if selected != AllCategories then VideoFilters.ByCategory(videos, selected) else videos;
    assert Seqs.IsSubsequence(byCategory, videos) by {
      if selected == AllCategories { Seqs.SubsequenceRefl(videos); }
    }
    var r := VideoFilters.ByQuery(byCategory, query);
    Seqs.SubsequenceTrans(r, byCategory, videos);
    r
  }

  /** Filtering by text first and by category second gives the same list. */
  lemma VisibleFiltersCommute(videos: seq<Video>, selected: string, query: string)
    requires selected != AllCategories
    ensures Visible(videos, selected, query)
            == VideoFilters.ByCategory(VideoFilters.ByQuery(videos, query), selected)
  {
    VideoFilters.FiltersCommute(videos, selected, query);
  }

  /** With `all` selected and no search text, every video is visible, in order. */
  lemma VisibleUnfiltered(videos: seq<Video>)
    ensures Visible(videos, AllCategories, "") == videos
  {
  }

  /** The page shows what the listing route's filters would return for the
      same (non-empty) category and search text. */
  lemma VisibleAgreesWithListing(videos: seq<Video>, selected: string, query: string)
    requires selected != ""
    ensures Visible(videos, selected, query) == VideosRoute.Filtered(videos, Some(selected), Some(query))
  {
  }
}
