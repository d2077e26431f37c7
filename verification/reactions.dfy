/** The viewer's reactions on the watch page (`src/components/VideoInfo.tsx`):
    like and dislike, which exclude each other, the subscribe toggle, the
    like count shown, and the truncated description with its "more"
    toggle. */
module VideoReactions {
  import opened Wrappers
  import Text

  /** The component's four flags. */
  datatype Reactions = Reactions(liked: bool, disliked: bool, subscribed: bool, showFull: bool)

  /** Everything off, as on mount. */
  const Initial: Reactions := Reactions(false, false, false, false)

  /** The buttons a viewer can press. */
  datatype Action = Like | Dislike | Subscribe | ToggleDescription

  /** `handleLike`: the like flips and any dislike is withdrawn. */
  function Like(r: Reactions): (n: Reactions)
    ensures n.liked == !r.liked && !n.disliked
    ensures n.subscribed == r.subscribed && n.showFull == r.showFull
  {
    r.(liked := !r.liked, disliked := false)
  }

  /** `handleDislike`: the dislike flips and any like is withdrawn. */
  function Dislike(r: Reactions): (n: Reactions)
    ensures n.disliked == !r.disliked && !n.liked
    ensures n.subscribed == r.subscribed && n.showFull == r.showFull
  {
    r.(liked := false, disliked := !r.disliked)
  }

  /** `handleSubscribe`: the subscription flips. */
  function Subscribe(r: Reactions): (n: Reactions)
    ensures n.subscribed == !r.subscribed
    ensures n.liked == r.liked && n.disliked == r.disliked && n.showFull == r.showFull
  {
    r.(subscribed := !r.subscribed)
  }

  /** The "...more" / "Show less" button. */
  function ToggleDescription(r: Reactions): Reactions
  {
    r.(showFull := !r.showFull)
  }

  function Step(r: Reactions, a: Action): Reactions
  {
    match a
    case Like => Like(r)
    case Dislike => Dislike(r)
    case Subscribe => Subscribe(r)
    case ToggleDescription => ToggleDescription(r)
  }

  /** The flags after pressing the buttons in order. */
  function Run(r: Reactions, actions: seq<Action>): Reactions
    decreases |actions|
  {
    if |actions| == 0 then r else Run(Step(r, actions[0]), actions[1..])
  }

  /** A video is never liked and disliked at once. */
  predicate Exclusive(r: Reactions)
  {
    !(r.liked && r.disliked)
  }

  /** Every button keeps like and dislike exclusive. */
  lemma StepKeepsExclusive(r: Reactions, a: Action)
    requires Exclusive(r)
    ensures Exclusive(Step(r, a))
  {
  }

  /** From the initial flags, no sequence of presses likes and dislikes the
      video at once. */
  lemma {:induction false} RunKeepsExclusive(r: Reactions, actions: seq<Action>)
    requires Exclusive(r)
    ensures Exclusive(Run(r, actions))
    decreases |actions|
  {
    if |actions| > 0 {
      StepKeepsExclusive(r, actions[0]);
      RunKeepsExclusive(Step(r, actions[0]), actions[1..]);
    }
  }

  lemma NeverLikedAndDisliked(actions: seq<Action>)
    ensures Exclusive(Run(Initial, actions))
  {
    RunKeepsExclusive(Initial, actions);
  }

  /** Subscribing twice, or liking twice from a state without a dislike,
      restores the flags. */
  lemma TogglesUndo(r: Reactions)
    ensures Subscribe(Subscribe(r)) == r
    ensures ToggleDescription(ToggleDescription(r)) == r
    ensures !r.disliked ==> Like(Like(r)) == r
    ensures !r.liked ==> Dislike(Dislike(r)) == r
  {
  }

  /** The like count shown: the stored count, plus the viewer's own like. */
  function ShownLikes(likeCount: nat, r: Reactions): (n: nat)
    ensures n == likeCount + 1 <==> r.liked
    ensures n == likeCount <==> !r.liked
  {
    likeCount + (if r.liked then 1 else 0)
  }

  /** Liking counts the viewer once, and liking again takes it back. */
  lemma LikeCountsOnce(likeCount: nat, r: Reactions)
    requires !r.liked
    ensures ShownLikes(likeCount, Like(r)) == likeCount + 1
    ensures ShownLikes(likeCount, Like(Like(r))) == likeCount
  {
  }

  const DescriptionLimit: nat := 200
  const Ellipsis: string := "..."

  /** `truncatedDescription`: a description longer than 200 characters is
      cut to its first 200 and marked with `...`; a shorter (or absent)
      one is shown as it is. */
  function Truncated(description: Option<string>): (t: Option<string>)
    ensures description.None? <==> t.None?
    ensures description.Some? && |description.value| > DescriptionLimit ==>
              && |t.value| == DescriptionLimit + 3
              && t.value[..DescriptionLimit] == description.value[..DescriptionLimit]
              && t.value[DescriptionLimit..] == Ellipsis
              && Text.StartsWith(description.value, t.value[..DescriptionLimit])
    ensures description.Some? && |description.value| <= DescriptionLimit ==> t == description
  {
    match description
    case None => None
    case Some(d) =>
      if |d| > DescriptionLimit then
        var t := d[..DescriptionLimit] + Ellipsis;
        assert t[..DescriptionLimit] == d[..DescriptionLimit];
        Some(t)
      else Some(d)
  }

  /** The "more" button is offered exactly for a description longer than
      the limit. */
  predicate HasToggle(description: Option<string>)
  {
    description.Some? && |description.value| > DescriptionLimit
  }

  /** Truncating twice is truncating once: a truncated description is cut
      at the same place again. */
  lemma TruncatedIdempotent(description: Option<string>)
    ensures Truncated(Truncated(description)) == Truncated(description)
  {
    if HasToggle(description) {
      var t := Truncated(description).value;
      assert t[..DescriptionLimit] + Ellipsis == t;
    }
  }

  /** The description shown: in full when expanded, truncated otherwise. */
  function ShownDescription(description: Option<string>, r: Reactions): (t: Option<string>)
    ensures r.showFull ==> t == description
    ensures !HasToggle(description) ==> t == description
    ensures HasToggle(description) && !r.showFull ==>
              t.Some? && |t.value| == DescriptionLimit + |Ellipsis| && Text.StartsWith(description.value, t.value[..DescriptionLimit])
  {
    if r.showFull then description else Truncated(description)
  }
}
