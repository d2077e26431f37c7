# SkateTube core, modelled in Dafny

SkateTube is a Next.js video site for skateboarding and other action sports.
This project models the deterministic core of its server routes and client
components as pure Dafny functions over immutable datatypes, and proves
properties of them:

- the two ISO 8601 duration readers (the "format with designators" of
  section 4.4.3.2 of ISO 8601:2004, restricted to days, hours, minutes and
  seconds) and the round trip from a written duration back to its seconds;
- the search route: the error order, the merge of primary and per-channel
  results, de-duplication by video id, truncation, the requests sent
  upstream, and `totalResults`;
- the category feed: the category table, the positional zip of search
  results with details records, the derived channel fields, and the canned
  fallback lists;
- the mock catalogue route: category and text filtering, pagination, and
  upload validation with its defaults;
- the mock account routes (register, login, current user): validation order,
  status codes, the uniqueness invariant of the user store, the id counter,
  and password stripping;
- client state: the upload form (tags, chosen file, submit guard, progress
  tick, reset), like/dislike/subscribe, description truncation, the comment
  form, the `m:ss` label and its inverse, the three "time ago" labels, the
  subscription and watch-later lists, and the home page filter.

Upstream HTTP calls are function-typed fields of an API record, so the
handlers are total functions of their inputs. Each handler returns its
response (status and body) together with the requests it sent, so the
calls it does and does not make can be stated. The module-level stores of
the routes are passed in and returned explicitly. Storage that the pages
write to is a field beside the list it mirrors.

Files: `wrappers.dfy` (Option), `http.dfy` (responses and upstream
outcomes), `types.dfy` (Video, Channel), `seqs.dfy` (filter, subsequence,
slicing), `text.dfy` (trim, lower-casing, decimal numbers), and one file
per route or component, named after it.

## Model

| member | source | states |
|---|---|---|
| Iso8601Duration.DigitRun | src/app/api/search/route.ts:10 | the `\d+` run is maximal: all digits, followed by a non-digit or the end |
| Iso8601Duration.Designated | src/app/api/search/route.ts:10 | an optional `(\d+)X` group matches exactly when a non-empty digit run is followed by the designator, and then reads the run's decimal value |
| Iso8601Duration.FindIsoHead | src/app/api/search/route.ts:10-13 | the match starts at the leftmost position where `P(\d+D)?T` matches; when none matches, no position does |
| Iso8601Duration.FindPtHead | src/app/api/youtube/route.ts:47-48 | the same leftmost, unanchored search for a literal `PT` |
| Iso8601Duration.ConvertIso8601ToSeconds | src/app/api/search/route.ts:9-21 | text with no `P…T` head yields 0, so the reader never fails |
| Iso8601Duration.ConvertDuration | src/app/api/youtube/route.ts:45-56 | text with no `PT` yields 0 |
| Iso8601Duration.ConvertIso8601RoundTrip | src/app/api/search/route.ts:9-21 | a written duration, after any text without `P` and before any text that cannot extend its last number, is read as days*86400 + hours*3600 + minutes*60 + seconds rounded up |
| Iso8601Duration.ConvertDurationRoundTrip | src/app/api/youtube/route.ts:45-56 | the same round trip for the feed reader on durations without days |
| Iso8601Duration.ConvertDurationIgnoresDays | src/app/api/youtube/route.ts:47-48 | a written duration with a day field reads as 0 in the feed reader, because `P1DT` holds no `PT` |
| Iso8601Duration.ParsersAgreeWithoutDays | src/app/api/youtube/route.ts:45-56 | on every text without `D` the two readers return the same number |
| Iso8601Duration.FindHeadsAgree | src/app/api/search/route.ts:10 | without `D` both heads match first at the same position with the same remainder |
| Iso8601Duration.SecondsDigitsFraction | src/app/api/search/route.ts:18-20 | `w.fS` is read as w, plus 1 exactly when some digit of f is non-zero |
| Iso8601Duration.FractionGroupReads | src/app/api/search/route.ts:10 | after the point, a digit run and `S` complete the seconds group and the text after `S` is left to read |
| Iso8601Duration.DesignatedOther | src/app/api/search/route.ts:10 | a number followed by a different designator leaves the group unmatched |
| Iso8601Duration.TimeRoundTrip | src/app/api/search/route.ts:10-20 | the written time part reads back as hours*3600 + minutes*60 + rounded-up seconds |
| Iso8601Duration.ExampleHoursMinutesSeconds | src/app/api/search/route.ts:9-20 | `PT1H2M3S` is 3723 |
| Iso8601Duration.ExampleDaysHours | src/app/api/search/route.ts:9-20 | `P1DT1H` is 90000 |
| Iso8601Duration.ExampleFractionRoundsUp | src/app/api/search/route.ts:18-20 | `PT3M45.5S` is 226 |
| Iso8601Duration.ExampleZeroFraction | src/app/api/search/route.ts:18-20 | `PT45.0S` is 45 |
| Iso8601Duration.ExampleNoHead | src/app/api/search/route.ts:10-13 | `P1D` and the empty text are 0 |
| Iso8601Duration.ExampleTrailingDigits | src/app/api/search/route.ts:10-11 | `PT5M3` is 300: the trailing `3` is outside the match |
| Iso8601Duration.ExampleFeedMinutesSeconds | src/app/api/youtube/route.ts:45-56 | the feed reader reads `PT4M13S` as 253 |
| Iso8601Duration.ExampleFeedDays | src/app/api/youtube/route.ts:47-48 | the feed reader reads `P1DT2H` as 0 |
| SearchRoute.UpstreamError | src/app/api/search/route.ts:142-147 | a thrown upstream error answers with its status and message when they are truthy, else 500 and the generic message |
| SearchRoute.HalfUp | src/app/api/search/route.ts:47 | half the page size rounded up: 2r is m or m+1 |
| SearchRoute.FirstIndex | src/app/api/search/route.ts:95 | `findIndex` returns the first index holding the value |
| SearchRoute.Dedupe | src/app/api/search/route.ts:94-95 | reference de-duplication: no duplicates, and exactly the unseen values of the input |
| SearchRoute.KeepFirstIsDedupe | src/app/api/search/route.ts:94-95 | the route's `index === findIndex(...)` filter equals the reference scan |
| SearchRoute.KeepFirstFromIsDedupe | src/app/api/search/route.ts:94-95 | from any index on, the filter keeps what the scan keeps, having seen the elements before that index |
| SearchRoute.FirstIndexIff | src/app/api/search/route.ts:95 | an element is at its first occurrence exactly when it does not occur earlier |
| SearchRoute.KeepFirstProperties | src/app/api/search/route.ts:93-95 | each id is kept once, every id of the input is kept, in input order, and the count is the number of distinct ids |
| SearchRoute.DedupeIsSubsequence | src/app/api/search/route.ts:94-95 | the scan keeps an order-preserving subsequence |
| SearchRoute.MergeIds | src/app/api/search/route.ts:93-96 | the ids requested are primary then channel results, de-duplicated keeping first occurrences, an order-preserving subsequence, of length min(maxResults, distinct ids) |
| SearchRoute.FailingChannelSkipped | src/app/api/search/route.ts:72-89 | a channel whose request fails contributes nothing, and the loop goes on |
| SearchRoute.CollectedFromAnsweringChannels | src/app/api/search/route.ts:72-89 | every collected id comes from a channel that answered |
| SearchRoute.ChannelRequests | src/app/api/search/route.ts:72-84 | one request of three videos per channel queried, in channel order |
| SearchRoute.AtMostThreeChannels | src/app/api/search/route.ts:72 | at most three channels are asked, and never more than were found |
| SearchRoute.ToVideos | src/app/api/search/route.ts:113-136 | one video per details record, in order |
| SearchRoute.ToVideoDuration | src/app/api/search/route.ts:119 | a video's duration is the seconds its written duration denotes |
| SearchRoute.Search | src/app/api/search/route.ts:23-47 | a missing key gives 500 before the query is looked at; a missing query gives 400; neither sends a request; otherwise the first request is the enhanced video search for half the page size |
| SearchRoute.SearchRequests | src/app/api/search/route.ts:41-111 | after both searches the requests are those two, one per channel among the first three, and a details request unless the merged ids join to nothing |
| SearchRoute.SearchNothingFound | src/app/api/search/route.ts:98-102 | no merged id gives an empty list with total 0 and no details request |
| SearchRoute.SearchSucceeds | src/app/api/search/route.ts:113-141 | one video per details record, total = primary total (or 0) + channel ids before de-duplication, and the channel count |
| SearchRoute.SearchUpstreamFailure | src/app/api/search/route.ts:142-147 | a failing video search ends the handler with the error built from that failure and nothing else requested |
| Categories.Parse | src/app/api/youtube/route.ts:72-91 | a string found in the table is the key of the category returned |
| Categories.ParseName | src/app/api/youtube/route.ts:72-89 | every key finds its own category, so the sixteen keys are distinct |
| Categories.ParseIff | src/app/api/youtube/route.ts:91 | a string is found exactly when it is some category's key |
| FallbackVideos.FallbackList | src/app/api/youtube/route.ts:172-685 | every canned list is non-empty |
| FallbackVideos.AllTagged | src/app/api/youtube/route.ts:172-685 | every canned video carries the `fallback` tag |
| CategoryFeed.EffectiveCategory | src/app/api/youtube/route.ts:60 | an absent or empty category is `skateboarding`; a present one is kept |
| CategoryFeed.FallbackFor | src/app/api/youtube/route.ts:687 | the canned answer for any string is non-empty |
| CategoryFeed.FallbackTagged | src/app/api/youtube/route.ts:687 | whatever the category, every canned video is tagged `fallback` |
| CategoryFeed.LookupKnown | src/app/api/youtube/route.ts:91 | a table key finds its own query and its own canned list |
| CategoryFeed.LookupUnknown | src/app/api/youtube/route.ts:91 | any other string finds the skateboarding query and the `all` list |
| CategoryFeed.ChannelId | src/app/api/youtube/route.ts:152 | the derived channel id holds no whitespace and no upper-case letter |
| CategoryFeed.ChannelIdIdempotent | src/app/api/youtube/route.ts:152 | deriving the id of an id changes nothing |
| CategoryFeed.ChannelIdIgnoresSpace | src/app/api/youtube/route.ts:152 | whitespace anywhere in the title does not change the id |
| CategoryFeed.ZipFields | src/app/api/youtube/route.ts:134-163 | one video per search item; item i takes duration, views and likes from details record i, with 0 for each when the record or the like count is missing; dislikes 0, tags [category, "youtube"], id, user id and e-mail derived from the channel title |
| CategoryFeed.VideoIds | src/app/api/youtube/route.ts:119 | the details request lists the search results' ids in order |
| CategoryFeed.Respond | src/app/api/youtube/route.ts:93-166 | past the key check the answer is always 200, and the first request is the search for the category's query |
| CategoryFeed.Feed | src/app/api/youtube/route.ts:58-69 | a missing key gives 500 with no fallback and no request; with a key the answer is 200 and never an error |
| CategoryFeed.FeedKnownCategory | src/app/api/youtube/route.ts:60-91 | a known category searches its own query and falls back to its own list |
| CategoryFeed.FeedUnknownCategory | src/app/api/youtube/route.ts:91 | an unknown category searches the skateboarding query and falls back to the `all` list |
| CategoryFeed.RespondLooksUp | src/app/api/youtube/route.ts:91-110 | the handler searches the looked-up query and falls back to the looked-up list |
| CategoryFeed.FeedDefaultsToSkateboarding | src/app/api/youtube/route.ts:60 | no category, and an empty one, give the skateboarding feed |
| CategoryFeed.FallbackBody | src/app/api/youtube/route.ts:687-692 | a fallback answer carries exactly the canned list and the error string |
| CategoryFeed.RespondEmptySearch | src/app/api/youtube/route.ts:114-116 | an empty search result gives no videos and no details request |
| CategoryFeed.RespondFallsBack | src/app/api/youtube/route.ts:168-692 | a failing search, or a failing details request, is answered with the canned list |
| CategoryFeed.RespondZips | src/app/api/youtube/route.ts:119-166 | with both answers the videos are the positional zip, after a details request for the result ids |
| VideoFilters.ByCategory | src/app/api/videos/route.ts:65-67 | a video is kept exactly when it is in the input with that category, in input order |
| VideoFilters.ByQuery | src/app/api/videos/route.ts:70-77 | an empty query keeps everything; otherwise a video is kept exactly when the lowered query occurs in its lowered title, description or some tag |
| VideoFilters.EmptyQueryMatchesAll | src/app/api/videos/route.ts:70 | the empty query matches every video, so skipping the filter for it changes nothing |
| VideoFilters.MatchesIgnoresQueryCase | src/app/api/videos/route.ts:71 | matching ignores the case of the query |
| VideoFilters.TitleMatches | src/app/api/videos/route.ts:73 | a query that occurs literally in the title finds the video |
| VideoFilters.FiltersCommute | src/app/api/videos/route.ts:64-77 | the category and text filters commute |
| VideosRoute.Filtered | src/app/api/videos/route.ts:62-77 | an order-preserving subsequence of the catalogue holding exactly the catalogue's videos that have the category (when one other than `all` is given) and match the query (when one is given) |
| VideosRoute.List | src/app/api/videos/route.ts:55-89 | the page is filtered[offset .. offset+limit), of at most `limit` videos; total is the filtered length; hasMore iff offset + limit < total; defaults 10 and 0 |
| VideosRoute.TotalIgnoresPaging | src/app/api/videos/route.ts:86 | the total does not depend on offset or limit |
| VideosRoute.PagesConcatenate | src/app/api/videos/route.ts:82 | consecutive pages concatenate to the page spanning both: nothing lost or repeated |
| VideosRoute.ListDefaults | src/app/api/videos/route.ts:59-66 | with no parameters the first ten catalogue entries are listed, and `all` equals no category |
| VideosRoute.UploadMinimal | src/app/api/videos/route.ts:110-138 | a body with only a title and a category is accepted with an empty description, the placeholder thumbnail, no tags and zero counts |
| VideosRoute.UploadedIsListed | src/app/api/videos/route.ts:62-121 | an uploaded video added to a catalogue is listed under its category and found by its title |
| VideosRoute.Upload | src/app/api/videos/route.ts:91-146 | a body that is not JSON gives 500; 400 exactly when title or category is missing or empty, and 200 exactly when both are given, with the given title and category, description defaulting to "", thumbnail to the placeholder, tags to [], and zero duration and counts |
| HomePage.Visible | src/app/page.tsx:96-121 | a video is visible exactly when it is in the list, in the selected category unless `all` is selected, and matches the search text when there is one; the visible list keeps list order |
| HomePage.VisibleFiltersCommute | src/app/page.tsx:99-118 | filtering by text first gives the same list |
| HomePage.VisibleUnfiltered | src/app/page.tsx:100-107 | with `all` and no text every video is visible, in order |
| HomePage.VisibleAgreesWithListing | src/app/page.tsx:108-118 | the page shows what the catalogue route's filters return for the same category and text |
| Accounts.StripRoundTrip | src/app/api/auth/register/route.ts:68 | stripping the password loses that field and nothing else |
| Accounts.StripIgnoresPassword | src/app/api/auth/login/route.ts:55 | the returned record does not depend on the password |
| Accounts.FindByEmail | src/app/api/auth/login/route.ts:34 | a user is found exactly when one has that exact address, and the first such user is returned |
| RegisterRoute.Register | src/app/api/auth/register/route.ts:9-82 | a body that is not JSON gives 500; missing fields give 400, then a short password 400, then a taken e-mail or username 409, and a request passing all three checks succeeds with 200; any failure leaves the store unchanged; success appends one user whose id is the counter, advances the counter, and returns the user without the password |
| RegisterRoute.RegisterDefaults | src/app/api/auth/register/route.ts:46-49 | bio defaults to "", avatar to none, subscribers to 0, role to user |
| RegisterRoute.FirstRegistration | src/app/api/auth/register/route.ts:6-54 | into the empty store, any request with the three fields and a long enough password succeeds, creating user 1 and advancing the counter to 2 |
| RegisterRoute.RegisterPreservesValid | src/app/api/auth/register/route.ts:28-54 | no two users share an e-mail or a username, and ids stay strictly increasing and below the counter |
| RegisterRoute.SecondRegistrationConflicts | src/app/api/auth/register/route.ts:29-38 | registering the same e-mail or username again is refused with 409 and the store kept |
| LoginRoute.LoginWith | src/app/api/auth/login/route.ts:21-69 | missing fields give 400; 200 exactly when the first user with the address has the password, answering that user without the password; otherwise the same 401 |
| LoginRoute.OnlyAdminLogsIn | src/app/api/auth/login/route.ts:6-19 | only admin@skatetube.com with admin123 logs in |
| LoginRoute.NoAccountEnumeration | src/app/api/auth/login/route.ts:34-41 | an unknown address and a wrong password get the identical response |
| LoginRoute.RegisteredUserNotFound | src/app/api/auth/login/route.ts:4-19 | a user just registered cannot log in, since the login store is separate |
| MeRoute.MeWith | src/app/api/auth/me/route.ts:30-57 | no cookie gives 401; any cookie gives the first user; 404 exactly when the list is empty |
| MeRoute.MeIsAlwaysAdmin | src/app/api/auth/me/route.ts:43-50 | every cookie gets user 1 with the admin role, and 404 never happens |
| UploadForm.AddTag | src/components/VideoUpload.tsx:92-101 | a blank input changes nothing; the form either stays as it is or gains the trimmed input as its last tag with the input cleared, and the tags change exactly when the input is non-blank, new and there are fewer than ten tags; at most ten distinct, non-empty, trimmed tags stay so |
| UploadForm.RemoveTag | src/components/VideoUpload.tsx:103-105 | every occurrence is removed, the rest keep their order, the count drops by the occurrences, and nothing else changes |
| UploadForm.RemoveTagPreservesValid | src/components/VideoUpload.tsx:103-105 | at most ten distinct, non-empty, trimmed tags stay so by removing |
| UploadForm.RemoveUndoesAdd | src/components/VideoUpload.tsx:92-105 | removing a tag just added restores the tag list |
| UploadForm.LastDot | src/components/VideoUpload.tsx:65 | the position of the last dot, if any |
| UploadForm.StripExtension | src/components/VideoUpload.tsx:65 | a final `.ext` with a non-empty `ext` free of `.` and `/` is cut; otherwise the name is kept |
| UploadForm.StripAppendedExtension | src/components/VideoUpload.tsx:65 | a base name with an extension appended gets back exactly the base |
| UploadForm.StripExtensionExamples | src/components/VideoUpload.tsx:65 | `a.b.mp4` gives `a.b`; `clip` and `clip.` are kept |
| UploadForm.SelectFile | src/components/VideoUpload.tsx:57-71 | only a `video/` file is taken; it names the video only when the title is empty |
| UploadForm.Submit | src/components/VideoUpload.tsx:127-131 | nothing happens without a file or with an all-whitespace title; otherwise only the upload changes, to uploading at 0% |
| UploadForm.Tick | src/components/VideoUpload.tsx:135-142 | ten more percent, or 100% and processing once 100 is reached |
| UploadForm.TickKeepsSteps | src/components/VideoUpload.tsx:135-142 | progress stays a multiple of 10 within 0..100 and grows until 100 |
| UploadForm.UploadReachesProcessing | src/components/VideoUpload.tsx:131-143 | from 0%, k < 10 ticks show 10k% uploading, and the tenth reaches 100% processing, after which nothing changes |
| UploadForm.RunTicksBelow | src/components/VideoUpload.tsx:134-143 | ticks that stay below 100 add ten each |
| UploadForm.RunTicksToEnd | src/components/VideoUpload.tsx:134-143 | enough ticks end at 100% processing |
| UploadForm.Complete | src/components/VideoUpload.tsx:145-147 | only the upload changes, to 100% and completed |
| UploadForm.Reset | src/components/VideoUpload.tsx:114-125 | no file or previews, empty title, description, tags and input, the skateboarding category, idle at 0% |
| UploadForm.UploadLifecycle | src/components/VideoUpload.tsx:127-150 | a submittable form starts at 0% uploading, is at 100% processing after the ten ticks due before the six-second timeout, then is complete with its fields unchanged, and the final timeout resets it to the initial form |
| VideoReactions.Like | src/components/VideoInfo.tsx:49-52 | (liked, disliked) becomes (not liked, false); the rest is kept |
| VideoReactions.Dislike | src/components/VideoInfo.tsx:54-57 | (liked, disliked) becomes (false, not disliked) |
| VideoReactions.Subscribe | src/components/VideoInfo.tsx:59-61 | subscribed flips; the rest is kept |
| VideoReactions.StepKeepsExclusive | src/components/VideoInfo.tsx:49-61 | no button makes a video liked and disliked at once |
| VideoReactions.RunKeepsExclusive | src/components/VideoInfo.tsx:49-61 | nor does any sequence of presses |
| VideoReactions.NeverLikedAndDisliked | src/components/VideoInfo.tsx:44-57 | from the initial flags, like and dislike never hold together |
| VideoReactions.TogglesUndo | src/components/VideoInfo.tsx:49-61 | subscribing twice restores; liking twice restores without a dislike |
| VideoReactions.ShownLikes | src/components/VideoInfo.tsx:166 | the count shown is one more than stored exactly when liked |
| VideoReactions.LikeCountsOnce | src/components/VideoInfo.tsx:166 | liking adds one, liking again takes it back |
| VideoReactions.Truncated | src/components/VideoInfo.tsx:68-71 | a description over 200 characters shows its first 200 and `...`; a shorter or absent one is unchanged |
| VideoReactions.TruncatedIdempotent | src/components/VideoInfo.tsx:68-71 | truncating a truncated description changes nothing |
| VideoReactions.ShownDescription | src/components/VideoInfo.tsx:359-377 | expanded shows everything; the toggle exists only past 200 characters, and collapsed then shows 203 characters starting with the description's first 200 |
| DurationLabel.ParseClock | src/components/VideoCard.tsx:12-16 | a label that reads back has at least one minute digit and its only colon third from the end |
| DurationLabel.SplitColon | src/components/VideoCard.tsx:15 | a label splits at its first colon |
| DurationLabel.ParseFormat | src/components/VideoCard.tsx:12-16 | every label reads back as its duration: minutes times 60 plus the padded seconds |
| DurationLabel.FormatInjective | src/components/RelatedVideos.tsx:12-16 | distinct durations get distinct labels |
| DurationLabel.SecondsField | src/components/VideoCard.tsx:14-15 | the seconds field is two digits whose value is the remainder |
| DurationLabel.ExampleNoHours | src/components/VideoCard.tsx:12-16 | 3723 seconds is `62:03`: there is no hours field |
| TimeAgo.CardAge | src/components/VideoCard.tsx:27-55 | an invalid date is recently; 0 days today; negative days stay days; otherwise the unit is days below 7, weeks below 30, months below 365, years beyond, counted as whole units elapsed |
| TimeAgo.CardCountRanges | src/components/VideoCard.tsx:45-51 | weeks are 1 to 4 and months 1 to 12 |
| TimeAgo.RelatedAge | src/components/RelatedVideos.tsx:27-52 | the same buckets with no years: months count on past a year |
| TimeAgo.RelatedAgreesWithCard | src/components/RelatedVideos.tsx:39-47 | below a year both lists pick the same bucket |
| TimeAgo.RelatedTextAgreesWithCard | src/components/RelatedVideos.tsx:39-40 | below a year the labels differ only in `today` against `Today` |
| TimeAgo.DayExamples | src/components/VideoCard.tsx:39-54 | 400 days is `1 year ago` on a card and `13 months ago` in the related list; 1, 14 and -3 days and an invalid date read as expected |
| TimeAgo.CommentAge | src/components/CommentSection.tsx:12-35 | an invalid date is recently; under a minute (or in the future) just now; minutes below 60; whole hours 1..23 below a day; whole days beyond |
| TimeAgo.CommentExamples | src/components/CommentSection.tsx:21-33 | the labels at the bucket edges: -5, 59, 60, 1439 and 1440 minutes |
| CommentForm.ShownLikes | src/components/CommentSection.tsx:106 | a comment's count shown is one more than stored exactly when liked |
| CommentForm.DoubleToggleRestores | src/components/CommentSection.tsx:87 | two presses show the original count; one changes it |
| CommentForm.Submit | src/components/CommentSection.tsx:241-245 | a whitespace-only comment is ignored; any other marks the form as submitting |
| CommentForm.BlankNeverSubmits | src/components/CommentSection.tsx:243 | a blank comment is never sent, however often submitted, and the button stays disabled |
| CommentForm.SubmitThenComplete | src/components/CommentSection.tsx:245-253 | a sendable comment is sent, cannot be sent twice, and completion clears and closes the form |
| Subscriptions.Subscribe | src/app/subscriptions/page.tsx:63-69 | an absent channel is appended at the end and stored; a present one changes nothing |
| Subscriptions.Unsubscribe | src/app/subscriptions/page.tsx:71-75 | every occurrence is removed, the rest keep order, and the list is stored |
| Subscriptions.SubscribeIdempotent | src/app/subscriptions/page.tsx:64 | subscribing twice is subscribing once |
| Subscriptions.SubscribeKeepsDistinct | src/app/subscriptions/page.tsx:63-69 | a duplicate-free list stays duplicate-free |
| Subscriptions.UnsubscribeKeepsDistinct | src/app/subscriptions/page.tsx:71-75 | likewise for unsubscribing |
| Subscriptions.UnsubscribeUndoesSubscribe | src/app/subscriptions/page.tsx:63-75 | unsubscribing a channel just subscribed restores the list; unsubscribing an absent one changes nothing |
| Subscriptions.OperationsKeepPersisted | src/app/subscriptions/page.tsx:65-74 | the stored copy stays equal to the list |
| Subscriptions.StartLoad | src/app/subscriptions/page.tsx:32-44 | no channel means no fetch and loading stops; otherwise the general feed is fetched |
| Subscriptions.FetchFollowsList | src/app/subscriptions/page.tsx:31-75 | after subscribing something is fetched; dropping the only channel stops fetching |
| WatchLater.RemoveVideo | src/app/watch-later/page.tsx:37-41 | every video with the id is dropped, the rest keep order, the length drops by the matches, and the list is stored |
| WatchLater.RemoveAbsentId | src/app/watch-later/page.tsx:38 | an id no video has changes nothing |
| WatchLater.RemoveVideoCommutes | src/app/watch-later/page.tsx:37-41 | removals commute and removing twice is removing once |
| WatchLater.Clear | src/app/watch-later/page.tsx:32-35 | no videos, and the storage key removed |
| WatchLater.ClearThenRemove | src/app/watch-later/page.tsx:32-41 | removing from a cleared list leaves it empty |
| WatchLater.SummaryStatesCount | src/app/watch-later/page.tsx:121-123 | a non-empty list's line begins with its count in decimal and `video`, plural exactly when the count is not one |
| WatchLater.SummaryExamples | src/app/watch-later/page.tsx:121-123 | the lines for 0, 1 and 3 videos |
| Text.Trim | src/components/VideoUpload.tsx:94 | the result is trimmed, and is `s` with whitespace removed only at its ends |
| Text.TrimIdempotent | src/components/VideoUpload.tsx:94-98 | trimming a trimmed text changes nothing |
| Text.TrimEmptyIff | src/components/CommentSection.tsx:243 | the trim is empty exactly when the text is all whitespace |
| Text.RemoveWhitespace | src/app/api/youtube/route.ts:152 | no whitespace is left, every other character is kept, in order |
| Text.Lower | src/app/api/videos/route.ts:71 | lower-casing keeps length and maps each character |
| Text.LowerIdempotent | src/app/page.tsx:110 | lower-casing twice is lower-casing once |
| Text.ContainsIff | src/app/api/videos/route.ts:73 | `includes` holds exactly when some window equals the text sought |
| Text.NatToString | src/components/VideoCard.tsx:15 | the decimal form has no leading zero and parses back to the number |
| Text.NatToStringInjective | src/components/VideoCard.tsx:15 | distinct numbers have distinct decimal forms |
| Text.PadStart2 | src/components/VideoCard.tsx:15 | `padStart(2, "0")` left-pads with zeros to two characters and keeps longer text |
| Text.JoinCommaEmptyIff | src/app/api/search/route.ts:98-100 | the joined ids are empty exactly when there is no id or a single empty one |

## Left out

- Network calls, `NextResponse` and `cookies()`. The upstream API is a parameter. The session cookie is present or absent. Setting the cookie and the session token (which holds `Date.now()`) are not modelled.
- Clocks. `Date.now()` as an upload id is a parameter. The time-ago labels take the elapsed whole days or minutes as an integer, and `None` for a date that does not parse. `createdAt`/`updatedAt` fields are not modelled.
- `Math.random` in the feed's subscriber counts is a `draw` parameter reduced modulo 100000.
- Floating point. `parseFloat` is modelled exactly on the decimal text (whole part, plus one for a non-zero fraction), not with binary precision. `formatViewCount`, player time, volume and the file-size display are not modelled.
- `parseInt` of the query parameters `limit`, `offset` and `maxResults`. These are taken as naturals, so NaN, negative values and JavaScript's negative-index `slice` are not modelled. The feed passes `maxResults` upstream as text, unparsed.
- JSON. Bodies are records whose fields are optional strings. A body that does not parse is `None`. Non-string JSON values (a numeric `title`, say) are not modelled.
- Look-ups in `searchTerms` and `mockVideosByCategory` by prototype keys such as `constructor`. These are treated as unknown categories.
- Text. `trim` and `\s` use the ECMAScript whitespace set. Lower-casing covers ASCII letters only. Lengths count characters, not UTF-16 code units, which matters for the 6-character password minimum and the 200-character description cut.
- The canned fallback titles. They contain emoji that the source file stores mis-encoded; they appear here decoded.
- Categories.SearchTerm: that no query is empty is stated in its documentation, not proved as a contract.
- The catalogue seeded in the catalogue route and on the home page is a parameter. Its two records are not restated.
- Browser storage. It is a field of each page beside the list it mirrors. Reading it on mount and `JSON.parse` failures are not modelled.
- Timers. The delays themselves are not modelled, only the state changes they trigger. For the upload form, one progress tick is one step of the 500 ms interval. The six-second timeout is `UploadForm.Complete`, and the two-second timeout after it is `UploadForm.Reset`; its alert is left out. For the comment form, the completion step is `CommentForm.Submitted`.
- `handleThumbnailSelect`, drag highlighting, the reply form and pure styling. None of them affects the modelled state.
- UploadForm.SelectFile: the object URL of the preview is a parameter.
