/** The `User` and `Video` records of `src/types/index.ts`, without their
    timestamps. */
module Types {
  import opened Wrappers

  /** The channel (`User`) that owns a video, as embedded in a `Video`. */
  datatype Channel = Channel(id: string, username: string, email: string, subscriberCount: nat)

  /** A video as the routes return it and the pages display it. The
      `description` may be absent. */
  datatype Video = Video(
    id: string,
    title: string,
    description: Option<string>,
    thumbnail: string,
    videoUrl: string,
    duration: nat,
    viewCount: nat,
    likeCount: nat,
    dislikeCount: nat,
    category: string,
    tags: seq<string>,
    userId: string,
    user: Channel)

  /** The placeholder image every canned video and every upload defaults to. */
  const PlaceholderThumbnail: string := "/api/placeholder/400/225"

  /** The public watch page of an upstream video id. */
  function WatchUrl(videoId: string): string
  {
    "https://www.youtube.com/watch?v=" + videoId
  }
}
