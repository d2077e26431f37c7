/** The canned videos the category feed (`src/app/api/youtube/route.ts`)
    answers with when the upstream API fails: one list per category, the
    same sixteen categories as its search-term table. Timestamps are
    omitted. */
module FallbackVideos {
  import opened Wrappers
  import opened Types
  import opened Categories

  /** A canned video; all of them use the placeholder thumbnail. */
  function Canned(
    id: string, title: string, description: string, videoUrl: string,
    duration: nat, viewCount: nat, likeCount: nat, dislikeCount: nat,
    category: string, tags: seq<string>, userId: string, username: string,
    email: string, subscriberCount: nat): Video
  {
    Video(id, title, Some(description), PlaceholderThumbnail, videoUrl, duration, viewCount,
          likeCount, dislikeCount, category, tags, userId,
          Channel(userId, username, email, subscriberCount))
  }

  const Skate1: Video := Canned(
    "fallback-skate-1",
    "Epic Skateboarding Tricks - YouTube API Unavailable",
    "Please configure your YouTube API key to see real videos",
    "/videos/sample1.mp4", 180, 1250, 89, 3, "skateboarding", ["skateboarding", "fallback"],
    "1", "Demo Channel", "demo@example.com", 5420)

  const Bmx1: Video := Canned(
    "fallback-bmx-1",
    "BMX Street Riding - YouTube API Unavailable",
    "Please configure your YouTube API key to see real videos",
    "/videos/sample2.mp4", 240, 890, 67, 2, "bmx", ["bmx", "fallback"],
    "2", "BMX Pro", "bmx@example.com", 3200)

  const Mtb1: Video := Canned(
    "fallback-mtb-1",
    "Mountain Biking Adventures - YouTube API Unavailable",
    "Please configure your YouTube API key to see real videos",
    "/videos/sample3.mp4", 320, 2100, 145, 8, "biking", ["mountain biking", "fallback"],
    "3", "MTB Rider", "mtb@example.com", 7800)

  const Longboard1: Video := Canned(
    "fallback-longboard-1",
    "Longboarding Downhill - YouTube API Unavailable",
    "Please configure your YouTube API key to see real videos",
    "/videos/sample4.mp4", 195, 1560, 98, 5, "longboarding", ["longboarding", "fallback"],
    "4", "Longboard Pro", "longboard@example.com", 4200)

  const Skate2: Video := Canned(
    "fallback-skate-2",
    "Street Skating Session - YouTube API Unavailable",
    "Please configure your YouTube API key to see real videos",
    "/videos/sample5.mp4", 220, 980, 72, 4, "skateboarding", ["skateboarding", "street", "fallback"],
    "5", "Street Skater", "street@example.com", 2800)

  const Scooter1: Video := Canned(
    "fallback-scooter-1",
    "Scooter Tricks Compilation - YouTube API Unavailable",
    "Please configure your YouTube API key to see real videos",
    "/videos/sample6.mp4", 165, 750, 54, 3, "scooter", ["scooter", "fallback"],
    "6", "Scooter Pro", "scooter@example.com", 1900)

  const Other1: Video := Canned(
    "fallback-other-1",
    "Extreme Sports Mix - YouTube API Unavailable",
    "Please configure your YouTube API key to see real videos",
    "/videos/sample7.mp4", 280, 1100, 78, 6, "other", ["extreme sports", "fallback"],
    "7", "Extreme Sports", "extreme@example.com", 3500)

  const Trending1: Video := Canned(
    "trending-1",
    "\U{1F525} VIRAL Skateboarding Compilation - YouTube API Unavailable",
    "Most viral skateboarding moments - YouTube API Unavailable",
    "/videos/trending1.mp4", 300, 50000, 2500, 50, "trending", ["trending", "viral", "fallback"],
    "trending", "Trending Channel", "trending@example.com", 100000)

  const Music1: Video := Canned(
    "music-1",
    "\U{1F3B5} Skateboarding Music Mix - YouTube API Unavailable",
    "Best music for skateboarding - YouTube API Unavailable",
    "/videos/music1.mp4", 180, 15000, 800, 20, "music", ["music", "skateboarding", "fallback"],
    "music", "Music Channel", "music@example.com", 25000)

  const Gaming1: Video := Canned(
    "gaming-1",
    "\U{1F3AE} Skateboarding Gameplay - YouTube API Unavailable",
    "Best skateboarding games - YouTube API Unavailable",
    "/videos/gaming1.mp4", 240, 8000, 400, 15, "gaming", ["gaming", "skateboarding", "fallback"],
    "gaming", "Gaming Channel", "gaming@example.com", 15000)

  const Sports1: Video := Canned(
    "sports-1",
    "\U{1F3C6} Skateboarding Competition - YouTube API Unavailable",
    "Professional skateboarding competitions - YouTube API Unavailable",
    "/videos/sports1.mp4", 360, 12000, 600, 25, "sports", ["sports", "competition", "fallback"],
    "sports", "Sports Channel", "sports@example.com", 30000)

  const Shorts1: Video := Canned(
    "shorts-1",
    "\U{26A1} Quick Skateboarding Tricks - YouTube API Unavailable",
    "Short skateboarding clips - YouTube API Unavailable",
    "/videos/shorts1.mp4", 30, 25000, 1200, 40, "shorts", ["shorts", "quick", "fallback"],
    "shorts", "Shorts Channel", "shorts@example.com", 50000)

  const Kickflip1: Video := Canned(
    "kickflip-1",
    "\U{1F6F9} Epic Kickflip Compilation - YouTube API Unavailable",
    "Best kickflip tricks and tutorials - YouTube API Unavailable",
    "/videos/kickflip1.mp4", 180, 15000, 800, 20, "kickflips", ["kickflip", "tricks", "fallback"],
    "kickflip", "Kickflip Pro", "kickflip@example.com", 25000)

  const Compilation1: Video := Canned(
    "compilation-1",
    "\U{1F3AC} Best Skateboarding Compilation - YouTube API Unavailable",
    "Epic skateboarding montage - YouTube API Unavailable",
    "/videos/compilation1.mp4", 300, 25000, 1200, 30, "compilations", ["compilation", "montage", "fallback"],
    "compilation", "Compilation Channel", "compilation@example.com", 40000)

  const Street1: Video := Canned(
    "street-1",
    "\U{1F3D9}\U{FE0F} Street Skating Session - YouTube API Unavailable",
    "Raw street skating in the city - YouTube API Unavailable",
    "/videos/street1.mp4", 240, 18000, 900, 25, "street-skating", ["street", "urban", "fallback"],
    "street", "Street Skater", "street@example.com", 30000)

  const Park1: Video := Canned(
    "park-1",
    "\U{1F6F9} Skate Park Session - YouTube API Unavailable",
    "Epic skate park tricks and bowl riding - YouTube API Unavailable",
    "/videos/park1.mp4", 200, 12000, 600, 15, "skate-park", ["skatepark", "bowl", "fallback"],
    "park", "Park Rider", "park@example.com", 20000)

  /** `mockVideosByCategory`: the canned list of each category. */
  function FallbackList(c: Category): (vs: seq<Video>)
    ensures |vs| > 0
  {
    match c
    case All => [Skate1, Bmx1, Mtb1, Longboard1]
    case Skateboarding => [Skate1, Skate2]
    case Biking => [Mtb1]
    case Bmx => [Bmx1]
    case Longboarding => [Longboard1]
    case Scooter => [Scooter1]
    case Other => [Other1]
    case Trending => [Trending1]
    case Music => [Music1]
    case Gaming => [Gaming1]
    case Sports => [Sports1]
    case Shorts => [Shorts1]
    case Kickflips => [Kickflip1]
    case Compilations => [Compilation1]
    case StreetSkating => [Street1]
    case SkatePark => [Park1]
  }

  /** A canned video is marked as such by its `fallback` tag. */
  predicate Tagged(v: Video)
  {
    "fallback" in v.tags
  }

  /** Every canned video carries the `fallback` tag. */
  lemma AllTagged(c: Category)
    ensures forall i :: 0 <= i < |FallbackList(c)| ==> Tagged(FallbackList(c)[i])
  {
    match c
    case All => assert FallbackList(c) == [Skate1, Bmx1, Mtb1, Longboard1];
    case Skateboarding => assert FallbackList(c) == [Skate1, Skate2];
    case Biking => assert FallbackList(c) == [Mtb1];
    case Bmx => assert FallbackList(c) == [Bmx1];
    case Longboarding => assert FallbackList(c) == [Longboard1];
    case Scooter => assert FallbackList(c) == [Scooter1];
    case Other => assert FallbackList(c) == [Other1];
    case Trending => assert FallbackList(c) == [Trending1];
    case Music => assert FallbackList(c) == [Music1];
    case Gaming => assert FallbackList(c) == [Gaming1];
    case Sports => assert FallbackList(c) == [Sports1];
    case Shorts => assert FallbackList(c) == [Shorts1];
    case Kickflips => assert FallbackList(c) == [Kickflip1];
    case Compilations => assert FallbackList(c) == [Compilation1];
    case StreetSkating => assert FallbackList(c) == [Street1];
    case SkatePark => assert FallbackList(c) == [Park1];
  }
}
