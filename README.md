# Knightly client state transitions, in Dafny

Knightly is a Next.js client over Supabase for short animation clips. This project models the client-side
state-transition rules of its components. For each component it models how the handlers change local state
once a store call has returned data or an error:

- the comment list of a video (`Comments`);
- the like toggle (`Likes`);
- the home feed with its search query, per-video comment counts and show-comments flags (`Home`);
- the profile page with its video list, title editing and profile save (`Profile`);
- the navigation bar's hide-on-scroll rule and mobile menu (`Nav`);
- the upload form's guard chain and storage path / public URL construction (`Upload`).

Shared helpers:

- `Remote` holds `Option`, `Outcome` (data or error message) and the signed-in `User`.
- `Lists` holds the filter-by-id that every delete uses.
- `Text` holds JavaScript's `trim`.

Every store call, `confirm` answer, clock reading and environment variable is a parameter. Each component is a
class with the source's state fields. Each handler is a method whose `modifies` clause names exactly the fields
the handler sets.

Some handlers set a flag before their first await: `fetchComments` sets `loading`, `addComment` sets `posting`
and `fetchVideos` sets `loading`. Others read state before the await that they act on after it: `toggleLike`
reads `liked`, and `handleUpload` reads the picked file and the title. Their buttons are never disabled, so a
second click can come in during the await. Each of these handlers is split at the await into a `Begin…` and a
`Finish…` method, so a realtime push, another click or typing can come in between.

In each remaining handler, either the part before the await or the part after it reads no component state. The
profile delete's closed-over list is a parameter. So anything that runs during the await can be moved before or
after the whole call, and one method with the outcomes as parameters is equivalent.

The model follows the code, not a design that would deduplicate, apply changes optimistically or tag responses
with generations:

- A user's own comment followed by the realtime push of the same row leaves two entries
  (`Comments.PostThenPush`).
- Likes change only after the store confirmed the write. A double click before the first write returns issues
  two inserts, and the button ends at (liked, c + 2) (`Likes.DoubleClickLikesTwice`).
- A second submit during an upload uploads a second object and saves a second row
  (`Upload.DoubleSubmitSavesTwice`). A title typed during an upload is cleared when that upload's row is saved
  (`Upload.TitleTypedDuringUploadIsLost`).
- Feed responses are applied in arrival order, so an older search's late answer overwrites a newer one
  (`Home.StaleAnswerWins`).
- The count map is replaced wholesale, so a video whose recount fails shows 0 again
  (`Home.FailedRecountShowsZero`).
- `handleDelete` on the profile page filters the list its click handler closed over. A title edit that
  completes during the delete's awaits is therefore undone (`Profile.DeleteUndoesConcurrentEdit`).

## Model

| member | source | states |
|---|---|---|
| `Lists.Without` | components/CommentsSection.tsx:110 | the filtered list keeps exactly the entries whose id differs from the removed one, and is never longer |
| `Lists.WithoutAppend` | components/CommentsSection.tsx:110 | filtering distributes over concatenation, so the remaining entries keep their relative order |
| `Lists.WithoutLength` | pages/profile.tsx:109 | the filter removes exactly as many entries as carry the id |
| `Lists.WithoutUnchanged` | components/CommentsSection.tsx:110 | deleting leaves the list unchanged if and only if no entry carries the id |
| `Lists.WithoutIdempotent` | components/CommentsSection.tsx:110 | deleting an id twice gives the same list as deleting it once |
| `Text.TrimStart` | components/CommentsSection.tsx:81 | the result is a suffix of the input that does not start with white space, and only white space was dropped |
| `Text.TrimEnd` | components/CommentsSection.tsx:81 | the result is a prefix of the input that does not end with white space, and only white space was dropped |
| `Text.Trim` | components/CommentsSection.tsx:72-81 | the trimmed text is a contiguous piece of the input, everything outside it is white space, it has no white space at either end, and it is empty exactly when the input is blank |
| `Text.TrimIdempotent` | components/CommentsSection.tsx:81 | trimming twice equals trimming once |
| `Comments.StartPost` | components/CommentsSection.tsx:71-82 | no user stops the post; with a user, blank text stops it; otherwise the insert carries the user's id and email, the video id and the non-empty trimmed text |
| `Comments.CommentsSection.constructor` | components/CommentsSection.tsx:20-23 | the initial state is no comments, an empty input, loading, not posting |
| `Comments.CommentsSection.BeginFetch` | components/CommentsSection.tsx:27-30 | without a video id nothing starts; otherwise loading is set |
| `Comments.CommentsSection.FinishFetch` | components/CommentsSection.tsx:31-42 | a successful fetch replaces the list wholesale and a failed one keeps it; loading is false afterwards in both cases |
| `Comments.CommentsSection.OnInsertPushed` | components/CommentsSection.tsx:58-60 | a pushed row is prepended with no duplicate check; the rest keeps its order and that id's count grows by one |
| `Comments.CommentsSection.EditNewComment` | components/CommentsSection.tsx:123 | the input holds the typed text |
| `Comments.CommentsSection.BeginAddComment` | components/CommentsSection.tsx:70-84 | the guards decide as `StartPost` says; posting is set only when the insert is sent |
| `Comments.CommentsSection.FinishAddComment` | components/CommentsSection.tsx:86-93 | a returned row is prepended and the input cleared; an error or no row changes neither; posting ends either way |
| `Comments.CommentsSection.DeleteComment` | components/CommentsSection.tsx:97-111 | a declined confirmation issues nothing; the delete is constrained to the current user's id; only a successful delete filters the id out |
| `Comments.DeleteProperties` | components/CommentsSection.tsx:110 | after a delete no entry with the id remains, the others keep their order, a second delete changes nothing, and deleting an absent id changes nothing |
| `Comments.PostThenPush` | components/CommentsSection.tsx:59-91 | a user's own post followed by the push of the same row leaves two entries with that id |
| `Likes.Settled` | components/LikeButton.tsx:53-66 | a settling toggle changes nothing on failure; on success liked becomes the opposite of what the click saw, and the count current at settling goes up by one, or down by one floored at 0; a non-negative count stays non-negative |
| `Likes.Toggled` | components/LikeButton.tsx:45-66 | a click that settles before anything else happens: a failed write changes nothing; a successful one flips liked and adds 1, or subtracts 1 with `max(0, count - 1)`, so the count is never negative |
| `Likes.Fetched` | components/LikeButton.tsx:25-35 | the count is the server count, or 0 when it is null; liked holds exactly when the lookup returned a like row |
| `Likes.ToggleTwiceFromUnliked` | components/LikeButton.tsx:45-66 | from (not liked, c), two successful toggles return to (not liked, c) |
| `Likes.ToggleTwiceFromLiked` | components/LikeButton.tsx:55 | from (liked, c), two successful toggles return to (liked, c) only for c > 0; the floor turns (liked, 0) into (liked, 1) |
| `Likes.LikeButton.constructor` | components/LikeButton.tsx:11-13 | the initial state is not liked, count 0, loading |
| `Likes.LikeButton.FetchLikes` | components/LikeButton.tsx:16-37 | with no user nothing changes and loading stays true; otherwise the state is `Fetched` and loading ends |
| `Likes.LikeButton.BeginToggleLike` | components/LikeButton.tsx:42-61 | with no user nothing is issued; otherwise a delete when the button shows liked and an insert when not; nothing changes |
| `Likes.LikeButton.FinishToggleLike` | components/LikeButton.tsx:53-66 | the state becomes `Settled` for what the click saw and the write's outcome, and the count stays non-negative |
| `Likes.LikeThenUnlike` | components/LikeButton.tsx:42-68 | a like and an unlike that both succeed bring the button back to where it started |
| `Likes.DoubleClickLikesTwice` | components/LikeButton.tsx:42-80 | two clicks before the first write returns both issue an insert, and once both succeed the button shows (liked, c + 2) |
| `Home.QueryFor` | pages/index.tsx:30-34 | an empty term applies no title filter; any other term is filtered by the pattern `%term%` |
| `Home.CountsFromKeys` | pages/index.tsx:48-62 | the count map has a key exactly for the videos whose count query succeeded, each holding `count ?? 0` from one of them |
| `Home.CountsIsolated` | pages/index.tsx:51-59 | with distinct ids, each successful query yields its own count and a failed query yields no entry, whatever the other queries did |
| `Home.CountsFrom` | pages/index.tsx:48-62 | the count map's keys are ids of videos whose count query succeeded |
| `Home.AggregateCounts` | pages/index.tsx:48-62 | the map built by the per-video loop equals `CountsFrom` |
| `Home.ToggleFlag` | pages/index.tsx:78-83 | only that video's flag flips, with a missing flag read as false; all other flags are unchanged |
| `Home.ToggleFlagTwice` | pages/index.tsx:78-83 | toggling twice restores every video's open state |
| `Home.HomePage.constructor` | pages/index.tsx:22-26 | the initial state is no videos, loading, an empty search, and empty count and flag maps |
| `Home.HomePage.HandleSearch` | pages/index.tsx:72-76 | the search box holds the typed term |
| `Home.HomePage.BeginFetchVideos` | pages/index.tsx:28-34 | loading is set and the query is `QueryFor(term)` |
| `Home.HomePage.FinishFetchVideos` | pages/index.tsx:36-45 | success sets the videos to the data (or [] for null) and starts counts for exactly that list; an error keeps the videos and starts nothing; loading ends either way |
| `Home.HomePage.FinishCommentCounts` | pages/index.tsx:62 | the count map is replaced wholesale by `CountsFrom` of the settled queries |
| `Home.HomePage.ToggleComments` | pages/index.tsx:78-83 | the flags become `ToggleFlag` of the old flags |
| `Home.StaleAnswerWins` | pages/index.tsx:36-41 | when the older search's answer arrives last, the feed shows it: there is no staleness check |
| `Home.Shown` | pages/index.tsx:124 | the feed shows a video's entry, or 0 when it has none |
| `Home.FailedRecountShowsZero` | pages/index.tsx:124 | a video whose recount fails loses its earlier count and shows 0 |
| `Profile.Retitled` | pages/profile.tsx:120-123 | only the titles of the videos with the id change; length, order, ids and all other fields stay |
| `Profile.RetitledIdempotent` | pages/profile.tsx:120-123 | applying the same title edit twice equals applying it once |
| `Profile.ProfilePage.constructor` | pages/profile.tsx:18-23 | the initial state is empty name and bio, loading, no videos, and empty editing and title maps |
| `Profile.ProfilePage.LoadProfile` | pages/profile.tsx:26-47 | with no user nothing happens; a found row sets name and bio, an error keeps them; loading ends in both cases |
| `Profile.ProfilePage.LoadMyVideos` | pages/profile.tsx:50-62 | with no user nothing happens; rows replace the list; an error or null data keeps it |
| `Profile.ProfilePage.HandleSave` | pages/profile.tsx:69-92 | with no user nothing is sent; otherwise the upsert carries the user's id and the current name and bio, and the alert reports the outcome |
| `Profile.ProfilePage.HandleDelete` | pages/profile.tsx:95-110 | a declined confirmation issues nothing; a database error keeps the list and skips the storage removal; after a database success the storage removal is issued and the video is filtered out even if the removal fails |
| `Profile.ProfilePage.HandleTitleEdit` | pages/profile.tsx:113-124 | a failed update changes nothing; a successful one retitles the matching videos and sets only that id's editing flag to false |
| `Profile.TitleToSave` | pages/profile.tsx:179 | Save sends the title typed for that video, or '' when none was typed |
| `Profile.ProfilePage.SaveTitle` | pages/profile.tsx:179 | Save sends the title typed for that video, or '' when none was typed, and applies `HandleTitleEdit` |
| `Profile.ProfilePage.StartEditing` | pages/profile.tsx:188-190 | "Edit Title" sets only that id's editing flag to true |
| `Profile.ProfilePage.TypeTitle` | pages/profile.tsx:174-176 | typing updates only that id's typed title |
| `Profile.DeleteUndoesConcurrentEdit` | pages/profile.tsx:95-123 | a title edit that lands while a delete is awaited is undone when the delete applies its closed-over list |
| `Nav.ShowAfterScroll` | components/Navbar.tsx:17-23 | the bar is hidden if and only if the position moved down and is past 50; at 50 or less, or when not scrolling down, it is shown |
| `Nav.Navbar.constructor` | components/Navbar.tsx:8-10 | the initial state is menu closed, bar shown, last position 0 |
| `Nav.Navbar.HandleScroll` | components/Navbar.tsx:14-26 | visibility follows `ShowAfterScroll` from the last position, and the last position becomes the current one |
| `Nav.Navbar.OnLinkClick` | components/Navbar.tsx:34-37 | a link click closes the menu and shows the bar |
| `Nav.Navbar.ToggleMenu` | components/Navbar.tsx:102 | the hamburger flips the menu |
| `Nav.DownThenUp` | components/Navbar.tsx:17-25 | scrolling down past 50 hides the bar, and any later scroll up shows it |
| `Nav.ToggleMenuTwice` | components/Navbar.tsx:102 | two hamburger clicks restore the menu state |
| `Upload.Decimal` | pages/upload.tsx:21 | the timestamp prints as a non-empty run of decimal digits |
| `Upload.DecimalRoundTrip` | pages/upload.tsx:21 | reading the digits back gives the timestamp |
| `Upload.FilePath` | pages/upload.tsx:21-22 | the path begins with `userId + "/"` and ends with `"-" + fileName` |
| `Upload.FilePathRoundTrip` | pages/upload.tsx:21-22 | for a user id without '/', the path determines the user id, timestamp and file name it was built from |
| `Upload.VideoUrl` | pages/upload.tsx:37 | the public URL ends with the file path |
| `Upload.VideoUrlRoundTrip` | pages/upload.tsx:37 | stripping the base URL and the public-object path from the URL gives the file path back |
| `Upload.StartUpload` | pages/upload.tsx:15-22 | the guards run in order (still loading, no user, no file), each stopping before any upload; past them the upload goes to `FilePath` of the user id, the clock and the file name, with the form's title captured |
| `Upload.Completion` | pages/upload.tsx:24-56 | an upload error stops before the insert; otherwise the row has the captured title, the public URL, `storage_path` = file path and `user_id` = user id, and the result tells a database error from success |
| `Upload.UploadAttempt` | pages/upload.tsx:12-56 | a submit that nothing interleaves with: the guards in order, an upload error stopping before the insert, a database error and a success told apart, and the record fields |
| `Upload.UploadPage.constructor` | pages/upload.tsx:9 | the initial state is an empty title and no file |
| `Upload.UploadPage.SetTitle` | pages/upload.tsx:70 | the title input holds the typed text |
| `Upload.UploadPage.SelectFile` | pages/upload.tsx:75-81 | the file input holds the picked file |
| `Upload.UploadPage.BeginUpload` | pages/upload.tsx:15-22 | the synchronous part ends as `StartUpload` says for the form's current file and title; nothing changes |
| `Upload.UploadPage.FinishUpload` | pages/upload.tsx:24-61 | the awaits end as `Completion` says; title and file input are cleared, whatever they hold by then, only after the insert succeeded |
| `Upload.UploadPage.HandleUpload` | pages/upload.tsx:12-61 | a submit that nothing interleaves with ends as `UploadAttempt` says; title and file input are cleared only after the insert succeeded |
| `Upload.DoubleSubmitSavesTwice` | pages/upload.tsx:12-61 | two submits at different clock readings, the second before the first returned, upload two objects and save two rows with the same title |
| `Upload.TitleTypedDuringUploadIsLost` | pages/upload.tsx:45-59 | the row carries the submitted title, and a title typed during the upload is cleared once the row is saved |

## Left out

- Supabase queries, inserts, deletes, updates, upserts, storage calls and realtime channels are foreign library
  calls. Each is a parameter holding its outcome. Query ordering (`created_at` descending), `ilike` matching and
  the realtime filter are evaluated by the store and are not modelled.
- Subscribing to and unsubscribing from the realtime channel (CommentsSection.tsx:48-66) is not modelled beyond
  `BeginFetch` reporting whether the effect started. Pushes are delivered by calling `OnInsertPushed`.
- The lodash `debounce(…, 400)` of the search (index.tsx:65-70) is wall-clock timing in a foreign library. A
  term that reaches the fetch is modelled as a call of `BeginFetchVideos`, with no claim about which terms reach it.
- `Home.AggregateCounts`: the count queries run in parallel and write into the map as they settle. The model
  writes them in list order. Because of this, the contracts name only "one of" a repeated id's counts; ids are
  distinct in practice.
- `Comments.CommentsSection.FinishFetch`, `Profile.ProfilePage.LoadProfile`: a null `data` with no error, or null
  `username` / `bio` columns, would be stored as null by the source. The model has no null strings.
- `Likes.LikeButton.FetchLikes`: the two awaited queries, with `setLikeCount` between them, are one step. The
  button renders nothing while loading, so no toggle can run in between.
- `Upload.UploadAttempt`: `Date.now()` is the `now` parameter and `process.env.NEXT_PUBLIC_SUPABASE_URL` is the
  `base` parameter, with an unset variable printing as "undefined". The clock's actual values are not modelled.
- `confirm`, `alert` and `console` are left out. Confirmation answers are parameters; alerts appear only as the
  returned notice or result kind; `e.preventDefault()` has no modelled effect.
- JSX rendering, CSS classes and the window scroll listener's registration are not modelled.
- `Nav.Navbar.HandleScroll`: `window.scrollY` is a floating-point number but is modelled as an integer. The rule
  only compares positions with each other and with 50, so fractional offsets behave alike.
- pages/login.tsx, pages/signup.tsx, components/LogoutButton.tsx, components/VideoCard.tsx and lib/useUser.ts are
  not part of this model. The identity provider's user is an `Option<User>` parameter, and its loading flag is the
  `loading` parameter of `HandleUpload`.
- `Text.IsSpace` lists the characters ECMAScript's `trim` strips by code point. There is no other Unicode
  processing.
