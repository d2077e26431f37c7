/** The watch-later page (`src/app/watch-later/page.tsx`): the saved videos,
    removing one by id, clearing them all, and the summary line under the
    heading.

    The stored copy under the `watchLater` key is a field of the page
    (`None` when the key is absent). Reading it back on mount, and the JSON
    encoding, are left out. */
module WatchLater {
  import opened Wrappers
  import opened Types
  import Seqs
  import Text

  /** The saved videos and their stored copy. */
  datatype Page = Page(videos: seq<Video>, stored: Option<seq<Video>>)

  predicate Persisted(p: Page)
  {
    p.stored == Some(p.videos)
  }

  /** The filter predicate keeping videos with another id. */
  function OtherId(id: string): Video -> bool
  {
    (v: Video) => v.id != id
  }

  /** The videos with the given id. */
  function HasId(id: string): Video -> bool
  {
    (v: Video) => v.id == id
  }

  /** `removeVideo`: every video with the id is dropped, the others keep
      their order, and the new list is stored. */
  function RemoveVideo(p: Page, id: string): (r: Page)
    ensures forall v :: v in r.videos <==> v in p.videos && v.id != id
    ensures Seqs.IsSubsequence(r.videos, p.videos)
    ensures |r.videos| == |p.videos| - Seqs.CountWhere(p.videos, HasId(id))
    ensures Persisted(r)
  {
    var videos := Seqs.Filter(p.videos, OtherId(id));
    Seqs.FilterIsSubsequence(p.videos, OtherId(id));
    Seqs.FilterLength(p.videos, OtherId(id));
    Seqs.CountComplement(p.videos, HasId(id), OtherId(id));
    forall v ensures v in videos <==> v in p.videos && v.id != id {
      Seqs.FilterMembership(p.videos, OtherId(id), v);
    }
    Page(videos, Some(videos))
  }

  /** Removing an id no saved video has changes no video. */
  lemma RemoveAbsentId(p: Page, id: string)
    requires forall i :: 0 <= i < |p.videos| ==> p.videos[i].id != id
    ensures RemoveVideo(p, id).videos == p.videos
  {
    Seqs.FilterAll(p.videos, OtherId(id));
  }

  /** Removing is idempotent, and removals of two ids commute. */
  lemma RemoveVideoCommutes(p: Page, a: string, b: string)
    ensures RemoveVideo(RemoveVideo(p, a), b).videos == RemoveVideo(RemoveVideo(p, b), a).videos
    ensures RemoveVideo(RemoveVideo(p, a), a) == RemoveVideo(p, a)
  {
    Seqs.FilterCommutes(p.videos, OtherId(a), OtherId(b));
    var r := RemoveVideo(p, a).videos;
    Seqs.FilterAll(r, OtherId(a));
  }

  /** `clearWatchLater`: no videos, and the storage key removed. */
  function Clear(p: Page): (r: Page)
    ensures |r.videos| == 0 && r.stored.None?
  {
    Page([], None)
  }

  /** After clearing, removing anything changes nothing. */
  lemma ClearThenRemove(p: Page, id: string)
    ensures RemoveVideo(Clear(p), id).videos == []
  {
  }

  const EmptySummary: string := "No videos saved to watch later"
  const SummaryTail: string := " saved to watch later"

  /** The summary line for `n` saved videos. */
  function Summary(n: nat): string
  {
    if n > 0 then Text.NatToString(n) + " video" + (if n == 1 then "" else "s") + SummaryTail
    else EmptySummary
  }

  /** The summary line states the count: for a non-empty list it begins
      with the decimal count followed by ` video`, and the noun is plural
      exactly when the count is not one. */
  lemma SummaryStatesCount(n: nat)
    requires n > 0
    ensures var d := Text.NatToString(n);
            var s := Summary(n);
            && |s| > |d| + 6
            && Text.AllDigits(s[..|d|]) && Text.ParseNat(s[..|d|]) == n
            && s[|d|..|d| + 6] == " video"
            && (s[|d| + 6] == 's' <==> n != 1)
  {
    var d := Text.NatToString(n);
    var s := Summary(n);
    var noun := if n == 1 then "" else "s";
    assert s == d + " video" + noun + SummaryTail;
    assert s[..|d|] == d;
    assert s[|d|..|d| + 6] == " video";
    assert s[|d| + 6] == (noun + SummaryTail)[0];
  }

  /** The three forms of the line. */
  lemma SummaryExamples()
    ensures Summary(0) == "No videos saved to watch later"
    ensures Summary(1) == "1 video" + SummaryTail
    ensures Summary(3) == "3 videos" + SummaryTail
  {
    assert Summary(1) == "1 video" + SummaryTail by {
      assert Text.NatToString(1) == "1";
      assert "1" + " video" + "" == "1 video";
    }
    assert Summary(3) == "3 videos" + SummaryTail by {
      assert Text.NatToString(3) == "3";
      assert "3" + " video" + "s" == "3 videos";
    }
  }
}
