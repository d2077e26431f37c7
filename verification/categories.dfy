/** The sixteen categories the category feed (`src/app/api/youtube/route.ts`)
    knows: the keys of its search-term table and of its canned-video table.
    A category arrives as a string; `Parse` is the key lookup, `Name` the
    key itself. */
module Categories {
  import opened Wrappers

  datatype Category =
    | All | Skateboarding | Biking | Bmx | Longboarding | Scooter | Other
    | Trending | Music | Gaming | Sports | Shorts | Kickflips | Compilations
    | StreetSkating | SkatePark

  /** The key of a category. */
  function Name(c: Category): string
  {
    match c
    case All => "all"
    case Skateboarding => "skateboarding"
    case Biking => "biking"
    case Bmx => "bmx"
    case Longboarding => "longboarding"
    case Scooter => "scooter"
    case Other => "other"
    case Trending => "trending"
    case Music => "music"
    case Gaming => "gaming"
    case Sports => "sports"
    case Shorts => "shorts"
    case Kickflips => "kickflips"
    case Compilations => "compilations"
    case StreetSkating => "street-skating"
    case SkatePark => "skate-park"
  }

  /** The category whose key is `s`, if any (keys are case-sensitive). */
  function Parse(s: string): (r: Option<Category>)
    ensures r.Some? ==> Name(r.value) == s
  {
    if s == "all" then Some(All)
    else if s == "skateboarding" then Some(Skateboarding)
    else if s == "biking" then Some(Biking)
    else if s == "bmx" then Some(Bmx)
    else if s == "longboarding" then Some(Longboarding)
    else if s == "scooter" then Some(Scooter)
    else if s == "other" then Some(Other)
    else if s == "trending" then Some(Trending)
    else if s == "music" then Some(Music)
    else if s == "gaming" then Some(Gaming)
    else if s == "sports" then Some(Sports)
    else if s == "shorts" then Some(Shorts)
    else if s == "kickflips" then Some(Kickflips)
    else if s == "compilations" then Some(Compilations)
    else if s == "street-skating" then Some(StreetSkating)
    else if s == "skate-park" then Some(SkatePark)
    else None
  }

  /** Every key is found, as its own category: the keys are distinct. */
  lemma ParseName(c: Category)
    ensures Parse(Name(c)) == Some(c)
  {
  }

  /** A string is a key exactly when it is the name of some category. */
  lemma ParseIff(s: string)
    ensures Parse(s).Some? <==> exists c :: Name(c) == s
  {
    if exists c :: Name(c) == s {
      var c :| Name(c) == s;
      ParseName(c);
    }
  }

  /** `searchTerms`: the upstream query of each category. None of them is
      empty, so the `|| searchTerms['skateboarding']` default of the lookup
      applies to unknown categories only. */
  function SearchTerm(c: Category): string
  {
    match c
    case All => "skateboarding OR bmx OR \"mountain biking\" OR longboarding OR scooter"
    case Skateboarding => "skateboarding tricks OR street skating OR skate park"
    case Biking => "mountain biking OR MTB OR trail riding"
    case Bmx => "BMX tricks OR BMX freestyle OR BMX park"
    case Longboarding => "longboarding OR longboard dancing OR downhill longboard"
    case Scooter => "scooter tricks OR pro scooter OR scooter park"
    case Other => "extreme sports OR action sports"
    case Trending => "trending skateboarding OR viral skateboarding OR popular skateboarding"
    case Music => "skateboarding music OR skateboarding songs OR skateboarding soundtrack"
    case Gaming => "skateboarding game OR skateboarding gaming OR skateboarding video game"
    case Sports => "skateboarding competition OR skateboarding tournament OR skateboarding sports"
    case Shorts => "skateboarding shorts OR short skateboarding OR skateboarding clips"
    case Kickflips => "kickflip OR kickflip tricks OR kickflip tutorial OR kickflip compilation"
    case Compilations => "skateboarding compilation OR skateboarding montage OR best skateboarding tricks"
    case StreetSkating => "street skating OR street skateboarding OR urban skating OR city skating"
    case SkatePark => "skate park OR skatepark OR skate park tricks OR bowl riding OR ramp skating"
  }
}
