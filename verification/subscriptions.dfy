/** The subscriptions page (`src/app/subscriptions/page.tsx`): the list of
    subscribed channel names, kept in the page state and written to the
    browser's storage after every change, and the guard that skips the
    video fetch when nothing is subscribed.

    The stored copy is a field of the page: `None` until the first write.
    Reading it back on mount, and the JSON encoding, are left out. */
module Subscriptions {
  import opened Wrappers
  import Seqs

  /** The channel list and its stored copy. */
  datatype Page = Page(channels: seq<string>, stored: Option<seq<string>>)

  /** The stored copy is the list. */
  predicate Persisted(p: Page)
  {
    p.stored == Some(p.channels)
  }

  /** `subscribeToChannel`: an absent channel is appended at the end and the
      new list stored; a present one changes nothing. */
  function Subscribe(p: Page, name: string): (r: Page)
    ensures name in p.channels ==> r == p
    ensures name !in p.channels ==> r.channels == p.channels + [name] && Persisted(r)
    ensures name in r.channels
  {
    if name in p.channels then p
    else
      var channels := p.channels + [name];
      Page(channels, Some(channels))
  }

  /** `unsubscribeFromChannel`: every occurrence is removed, the rest keep
      their order, and the new list is stored. */
  function Unsubscribe(p: Page, name: string): (r: Page)
    ensures forall c :: c in r.channels <==> c in p.channels && c != name
    ensures Seqs.IsSubsequence(r.channels, p.channels)
    ensures |r.channels| == |p.channels| - multiset(p.channels)[name]
    ensures Persisted(r)
  {
    var channels := Seqs.Remove(p.channels, name);
    Seqs.RemoveLength(p.channels, name);
    assert forall c :: c in channels <==> c in p.channels && c != name;
    Page(channels, Some(channels))
  }

  /** Subscribing is idempotent. */
  lemma SubscribeIdempotent(p: Page, name: string)
    ensures Subscribe(Subscribe(p, name), name) == Subscribe(p, name)
  {
  }

  /** Both operations keep the list free of duplicates. */
  lemma SubscribeKeepsDistinct(p: Page, name: string)
    requires Seqs.NoDuplicates(p.channels)
    ensures Seqs.NoDuplicates(Subscribe(p, name).channels)
  {
    if name !in p.channels {
      var c := p.channels + [name];
      forall i, j | 0 <= i < j < |c| ensures c[i] != c[j] {
        if j == |p.channels| {
          assert c[i] in p.channels;
        }
      }
    }
  }

  lemma UnsubscribeKeepsDistinct(p: Page, name: string)
    requires Seqs.NoDuplicates(p.channels)
    ensures Seqs.NoDuplicates(Unsubscribe(p, name).channels)
  {
  }

  /** Unsubscribing from a channel just subscribed restores the list, and
      unsubscribing from a channel not in the list leaves it as it was. */
  lemma UnsubscribeUndoesSubscribe(p: Page, name: string)
    requires name !in p.channels
    ensures Unsubscribe(Subscribe(p, name), name).channels == p.channels
    ensures Unsubscribe(p, name).channels == p.channels
  {
    Seqs.RemoveAppendLast(p.channels, name);
    Seqs.RemoveAbsent(p.channels, name);
  }

  /** Once the list has been written, it stays equal to its stored copy
      after any operation. */
  lemma OperationsKeepPersisted(p: Page, name: string)
    requires Persisted(p)
    ensures Persisted(Subscribe(p, name)) && Persisted(Unsubscribe(p, name))
  {
  }

  /** What the fetch effect does for a channel list. */
  datatype Load = Load(loading: bool, fetchUrl: Option<string>)

  const FeedUrl: string := "/api/youtube?category=all&maxResults=50"

  /** The start of `fetchSubscriptionVideos`: with no channel nothing is
      fetched and loading stops; otherwise the general feed is requested
      while loading. */
  function StartLoad(channels: seq<string>): (l: Load)
    ensures |channels| == 0 <==> l.fetchUrl.None?
    ensures |channels| == 0 ==> !l.loading
    ensures |channels| > 0 ==> l.loading && l.fetchUrl == Some(FeedUrl)
  {
    if |channels| == 0 then Load(false, None) else Load(true, Some(FeedUrl))
  }

  /** The fetch follows the list: after subscribing something is fetched,
      and unsubscribing from the only channel stops fetching. */
  lemma FetchFollowsList(p: Page, name: string)
    ensures StartLoad(Subscribe(p, name).channels).fetchUrl.Some?
    ensures p.channels == [name] ==> StartLoad(Unsubscribe(p, name).channels).fetchUrl.None?
  {
    if p.channels == [name] {
      assert p.channels[0] == name;
    }
  }
}
