# Flickture web client — a verified model of its request layer and view logic

Flickture's web client is a React front end over a REST API for tracking movies and TV
shows: watchlists, watched titles, favourites, lists, reviews and follows. This project
models in Dafny the parts of the client that hold logic of their own. Every network call
becomes an input: a request outcome of type `Api.Outcome`, succeeded with a value or failed
with an error body. The project then proves what the client does with those outcomes.

- `request_client.dfy` (`RequestClient`) models the shared axios instance, as a class that
  owns the pending-request map:
  - the token header;
  - the request key `method:url:params:data`;
  - de-duplication, where a second identical request is handed the pending shared promise;
  - cleanup of the key on success and on failure;
  - classification of transient failures, and up to three retries with a linear wait of
    1000·n ms.
- `time_ago.dfy` (`TimeAgo`) models `formatTimeAgo`: the buckets from successive floor
  divisions, the singular/plural unit, and a parser that reads every phrase back.
- `form_rules.dfy`, `register.dfy` and `login.dfy` model the sign-up and sign-in forms:
  - the unanchored `\S+@\S+\.\S+` email test;
  - the six-code-unit password rule and the confirmation rule;
  - error clearing on edit;
  - the sign-in success and failure paths.
- `create_list.dfy` models the list editor:
  - validation, where images are required only when creating;
  - the multipart payload rules;
  - the movie search guard;
  - selecting and removing movies;
  - the submit paths.
- `watch_status.dfy`, `tv_show_detail.dfy` and `movie_detail.dfy` model the watch-status
  machine (absent / "watchlist" / "watched") and its buttons, plus the two detail pages'
  toggles with their loading guards and error messages.
- `movie_stats_modal.dfy`, `add_to_list_modal.dfy` and `comments.dfy` model the list views:
  - filters and query parameters;
  - page merging;
  - keyed updates that change only the matching items;
  - the scroll trigger;
  - the review and reply guards;
  - the star and rating-filter rules.
- `public_profile.dfy` models the public profile page:
  - the follow counter;
  - private-profile detection and the screen it leads to;
  - the five-item movie strips.
- `js_values.dfy`, `api.dfy` and `collections.dfy` hold the JavaScript semantics the views
  rely on:
  - truthiness and `||` fallback;
  - `null` versus a missing value where the code tells them apart;
  - singular and plural nouns;
  - `trim` and the `\s` set;
  - UTF-16 length;
  - `filter`, and keyed `map` and removal.

`RequestClient.Client` follows axios.js as written. `RequestClient.SharedClient` is the
sharing the de-duplication evidently intends, in which every caller of a key receives the
final outcome; "## Findings" gives the difference.

## Model

| member | source | states |
|---|---|---|
| RequestClient.WithAuth | src/utils/axios.js:36-39 | `Authorization` is `Token <t>` exactly when a non-empty token is stored; no other header changes and nothing else in the config changes |
| RequestClient.RequestKey | src/utils/axios.js:42-44 | the key is the method, a colon and then the url and a colon, then the serialised params, a colon and the serialised body, so its length is the parts' lengths plus 3 |
| RequestClient.KeyDeterminesMethodAndUrl | src/utils/axios.js:42-44 | when neither method nor url contains a colon, equal keys mean equal method, equal url and equal `params:data` text |
| RequestClient.ColonFreePrefix | src/utils/axios.js:42-44 | `a:x == b:y` with colon-free `a` and `b` means `a == b` and `x == y` |
| RequestClient.ColonOnlyAfter | src/utils/axios.js:42-44 | in `p:s` with a colon-free `p`, the first colon sits right after `p` |
| RequestClient.ShouldRetry | src/utils/axios.js:24-31 | no response received means retry; a timeout code (`ECONNABORTED`, `ETIMEDOUT`) means retry; an error response with any other code is not retried |
| RequestClient.DecideFailure | src/utils/axios.js:96-118 | a non-transient failure is rejected unchanged; a retry happens iff the failure is transient, has a config, and the counter is below 3; the retry carries counter n+1 and waits 1000·(n+1) ms; a transient failure without a config throws; a failure is never joined to a shared promise |
| RequestClient.Client.constructor | src/utils/axios.js:7 | the registry starts empty and no promise is settled |
| RequestClient.Client.OnRequest | src/utils/axios.js:35-65 | a pending key leaves the registry unchanged and hands back the existing shared promise; otherwise exactly one entry with a fresh unresolved promise is added, and the config carries the key, its resolver and the auth header |
| RequestClient.Client.OnSuccess | src/utils/axios.js:74-83 | a registered response resolves its promise (a promise resolved earlier keeps its first value) and its key is removed; a response without a key changes nothing |
| RequestClient.Client.OnFailure | src/utils/axios.js:85-119 | a cancelled duplicate joins the shared promise; any other failure removes its key whether or not a retry follows, never settles a promise, and takes the step `DecideFailure` chooses |
| RequestClient.Client.Attempt | src/utils/axios.js:34-119 | one pass through both interceptors: joined when the key is pending; a delivered response resolves its own fresh promise; an error is rejected or retried as `DecideFailure` says; the registry is as it was before |
| RequestClient.Client.Send | src/utils/axios.js:22-118 | at most 4 attempts and 3 waits; wait i is 1000·(c+i+1) ms for a starting counter c; a fresh request that always fails transiently is issued exactly 4 times with waits 1000, 2000, 3000; a first failure that is not transient is not retried; settled promises keep their values |
| RequestClient.DuplicateIsHandedSharedPromise | src/utils/axios.js:47-89 | two identical requests while the first is pending: the second is cancelled with the first one's promise and the registry holds one entry |
| RequestClient.FollowerOfFailedAttemptStaysPending | src/utils/axios.js:56-118 | as written: when the first attempt fails transiently and its retry succeeds, the retry resolves a different promise and the follower's shared one stays unsettled |
| RequestClient.SharedClient.constructor | src/utils/axios.js:7 | the corrected client starts with no key pending and no promise settled |
| RequestClient.SharedClient.OnRequest | src/utils/axios.js:35-65 | a pending key hands out its promise and changes nothing; otherwise exactly one key with a fresh unsettled promise is added and the config carries the key, the promise and the auth header |
| RequestClient.SharedClient.Run | src/utils/axios.js:74-118 | corrected: retries keep the key and the promise; at most 4 attempts, the wait before retry i is 1000·(c+i+1) ms, every attempt but the last failed transiently; the promise settles once, fulfilled with the last attempt's delivery or rejected with its error, and then the key is removed |
| RequestClient.FollowerReceivesFinalOutcome | src/utils/axios.js:46-118 | corrected: a caller that joined during the first attempt receives exactly what the issuing caller receives, fulfilled iff the last attempt delivered |
| TimeAgo.Bucket | src/utils/dateUtils.js:4-19 | exactly one bucket per elapsed time: under 60 s (including negative) few seconds; minutes ⌊ms/60000⌋ in 1..59; hours in 1..23; days in 1..6; 7 days or more, or an invalid date, the locale date |
| TimeAgo.FormatTimeAgo | src/utils/dateUtils.js:1-20 | under a minute gives "few seconds ago"; a minute, hour or day bucket gives its count in decimal and then " minute ago" / " hour ago" / " day ago" for a count of 1 and " minutes ago" / " hours ago" / " days ago" for any other; a week or more, or an invalid date, gives the locale date |
| TimeAgo.LeadingDigits | src/utils/dateUtils.js:12-16 | the first k characters are digits and the next one, if any, is not |
| TimeAgo.LeadingDigitsOf | src/utils/dateUtils.js:12-16 | a digit string followed by a non-digit is read back as exactly that many digits |
| TimeAgo.CountReadsBack | src/utils/dateUtils.js:12-16 | the decimal count in front of a phrase is read back as the same number |
| TimeAgo.UnitReadsBack | src/utils/dateUtils.js:12-16 | the unit text printed for a minute, hour or day bucket reads back as that bucket with that count |
| TimeAgo.TextRoundTrip | src/utils/dateUtils.js:9-16 | every relative phrase parses back to the bucket it was made from |
| TimeAgo.FormatReadsBack | src/utils/dateUtils.js:9-16 | the text produced for any elapsed time under a week parses back to its bucket |
| TimeAgo.BucketMonotone | src/utils/dateUtils.js:9-19 | an older date never reads as younger: bucket rank, and the count within a unit, grow with the elapsed time |
| JsValues.Plural | src/utils/dateUtils.js:12-16 | the noun is the singular iff the count is 1, and the singular followed by "s" for any other count; the movie, list and Response subtitles use the same rule |
| FormRules.TestIffPatternOccurs | src/pages/Register.jsx:19 | the test accepts iff some substring has the shape non-space⁺ `@` non-space⁺ `.` non-space⁺ (unanchored) |
| FormRules.EmailError | src/pages/Register.jsx:17-21 | no error iff the email is non-empty and matches; an empty email gives "Email is required"; a non-empty one that does not match gives "Please enter a valid email address" |
| FormRules.PasswordError | src/pages/Register.jsx:23-27 | no error iff the length in UTF-16 code units is at least 6; empty gives "Password is required"; a shorter non-empty one gives "Password must be at least 6 characters"; six or more characters always pass |
| FormRules.ClearError | src/pages/Register.jsx:69-115 | after editing, the field's error is falsy, every other field's error is unchanged, and a field with no error leaves the map as it was |
| Register.ConfirmError | src/pages/Register.jsx:29-33 | no error iff the confirmation is non-empty and equals the password; empty gives "Please confirm your password"; a non-empty different one gives "Passwords do not match" |
| Register.ValidateForm | src/pages/Register.jsx:14-36 | each field has an error iff its rule fails, only these three keys appear, and every message is non-empty |
| Register.ValidIff | src/pages/Register.jsx:36 | the form is valid iff the email matches, the password has 6+ code units and the confirmation equals it |
| Register.RegisterForm.constructor | src/pages/Register.jsx:6-12 | empty fields, no errors, not loading, no navigation |
| Register.RegisterForm.EditEmail | src/pages/Register.jsx:67-71 | the email is set and only its error is cleared |
| Register.RegisterForm.EditPassword | src/pages/Register.jsx:86-89 | the password is set and only its error is cleared |
| Register.RegisterForm.EditConfirmPassword | src/pages/Register.jsx:112-115 | the confirmation is set and only its error is cleared |
| Register.RegisterForm.HandleRegister | src/pages/Register.jsx:39-53 | errors become the validation result; an invalid form returns before navigating; a valid one ends not loading at `/verify` |
| Login.ValidateForm | src/pages/Login.jsx:13-29 | email and password errors iff their rules fail, only these two keys appear, and every message is non-empty |
| Login.ValidIff | src/pages/Login.jsx:28-29 | valid iff the email matches and the password has at least 6 code units |
| JsValues.StringOf | src/pages/Login.jsx:44-47 | what `setItem` stores for the token: a missing token is stored as "undefined", a `null` one as "null", a string as it is |
| Login.GeneralError | src/pages/Login.jsx:52-54 | the first `non_field_errors` entry when it is present and non-empty, otherwise "Failed to login. Please try again." |
| Login.LoginForm.constructor | src/pages/Login.jsx:7-11 | empty fields and errors, the given storage |
| Login.LoginForm.EditEmail | src/pages/Login.jsx:77-80 | the email is set and only its error is cleared |
| Login.LoginForm.EditPassword | src/pages/Login.jsx:96-99 | the password is set and only its error is cleared |
| Login.LoginForm.HandleLogin | src/pages/Login.jsx:32-59 | an invalid form sends nothing; otherwise the credentials are sent; success stores `String(token)` and `isAuthenticated = "true"` and goes to `/home`; failure adds the general error to the errors seen at click time; loading ends false |
| CreateList.ValidateForm | src/pages/CreateList.jsx:239-254 | name and description errors iff blank after trim; image errors iff creating without that image; a movies error iff no movie; only these keys, non-empty messages |
| CreateList.ValidIff | src/pages/CreateList.jsx:253 | valid iff name and description are not blank, images are chosen when creating, and there is a movie |
| CreateList.ValuesOfAppend | src/pages/CreateList.jsx:260-282 | the values appended under a key split over concatenation of the payload |
| CreateList.ValuesOfSingle | src/pages/CreateList.jsx:260-282 | a single entry contributes its value under its own key only |
| CreateList.ValuesOfFour | src/pages/CreateList.jsx:260-282 | the values under a key split over the four parts of the payload |
| CreateList.TmdbIds | src/pages/CreateList.jsx:279 | `movie_ids` holds the movies' `tmdb_id`s in list order |
| CreateList.ImageEntries | src/pages/CreateList.jsx:266-276 | an image is sent when chosen, sent as "" when creating without one, and omitted when editing without one |
| CreateList.TextEntries | src/pages/CreateList.jsx:262-263 | name and description are each appended once with their text |
| CreateList.IdEntry | src/pages/CreateList.jsx:279-280 | one `movie_ids` entry holding the ids in order |
| CreateList.BuildPayload | src/pages/CreateList.jsx:260-282 | the payload has exactly one name and one description, the image rule for each image, one `movie_ids`, and no other keys |
| CreateList.RemoveMovie | src/pages/CreateList.jsx:439-441 | exactly the movies with that `tmdb_id` are dropped, so the movie is no longer selected; the list never grows; a movie not selected leaves the list unchanged |
| CreateList.RemoveMovieKeepsOrder | src/pages/CreateList.jsx:439-441 | removal splits over any split of the list, so the remaining movies keep their order |
| CreateList.IsSelected | src/pages/CreateList.jsx:93-95 | a movie is selected iff its `tmdb_id` is among the ids the form sends |
| CreateList.SelectThenRemove | src/pages/CreateList.jsx:439-485 | selecting a movie that was not selected and then removing it restores the list |
| CreateList.MovieSearchModal.constructor | src/pages/CreateList.jsx:16-18 | empty query and results, not loading |
| CreateList.MovieSearchModal.HandleSearch | src/pages/CreateList.jsx:20-36 | under 2 code units: results cleared and nothing sent; otherwise the query url is sent and results replaced on success |
| CreateList.ListEditor.constructor | src/pages/CreateList.jsx:149-162 | an empty form with no previews, errors or navigation |
| CreateList.ListEditor.EditName | src/pages/CreateList.jsx:376-379 | the name is set and its error set to "" |
| CreateList.ListEditor.EditDescription | src/pages/CreateList.jsx:392-398 | the description is set and its error set to "" |
| CreateList.ListEditor.SelectImage | src/pages/CreateList.jsx:211-237 | a chosen file is stored with its preview and its error cleared; no file changes nothing |
| CreateList.ListEditor.ChooseMovie | src/pages/CreateList.jsx:481-486 | a selected movie changes nothing; another is appended at the end and the movies error cleared |
| CreateList.ListEditor.Remove | src/pages/CreateList.jsx:439-441 | the form's movies become `RemoveMovie` of them |
| CreateList.ListEditor.Submit | src/pages/CreateList.jsx:256-304 | errors become the validation result and an invalid form sends nothing; a valid one sends PATCH `/lists/<id>/` when editing, POST `/lists/` otherwise, with the built payload; success goes to `/lists/<new id>`; a failure with a body replaces the errors with its fields |
| WatchStatus.WatchlistToggle | src/pages/TvShowDetail.jsx:131-148 | a falsy status is POSTed to "watchlist"; any other status is deleted and cleared |
| WatchStatus.WatchedToggle | src/pages/TvShowDetail.jsx:156-190 | anything but "watched" is marked watched (PATCH on the TV page, POST on the movie page); "watched" is deleted |
| WatchStatus.ButtonsFor | src/pages/TvShowDetail.jsx:410-488 | "watched" shows the badge, "watchlist" shows mark-as-watched plus remove, anything else shows add |
| WatchStatus.PrimaryClick | src/pages/TvShowDetail.jsx:410-451 | the badge of a watched title deletes; mark-as-watched marks watched; the add button runs the watchlist toggle; a successful click always changes the status |
| WatchStatus.Settle | src/pages/TvShowDetail.jsx:131-154 | the status after the request is the toggle's target on success, and it changes only when the request succeeded |
| WatchStatus.PrimaryCycle | src/pages/TvShowDetail.jsx:410-451 | successful clicks of the primary button cycle absent → watchlist → watched → absent, and remove takes a watchlisted title back to absent |
| WatchStatus.CanonicalPreserved | src/pages/TvShowDetail.jsx:131-196 | starting in one of the three statuses, every click and outcome stays in them |
| WatchStatus.FailureKeepsStatus | src/pages/TvShowDetail.jsx:149-178 | a failed request leaves the status unchanged |
| WatchStatus.UnknownStatusAddDeletes | src/pages/TvShowDetail.jsx:410-451 | an unexpected truthy status shows the add button whose request is a DELETE; an empty status is added like an absent one |
| TvShowDetail.BackButtonText | src/pages/TvShowDetail.jsx:235-244 | "search" gives "Back to Search", "profile" gives "Back to Profile", anything else "Back" |
| TvShowDetail.ReviewSubmit | src/pages/TvShowDetail.jsx:30-35 | a zero rating sends nothing and shows "Please select a rating"; otherwise the review is sent |
| TvShowDetail.ShowView.constructor | src/pages/TvShowDetail.jsx:90-96 | loading, no error, no request in flight |
| TvShowDetail.ShowView.Load | src/pages/TvShowDetail.jsx:101-122 | the show on success; on failure the server message or "Failed to load TV show details. Please try again later."; loading ends false |
| TvShowDetail.ShowView.TryAgainAsWritten | src/pages/TvShowDetail.jsx:289-295 | as written: the error is cleared and the page goes back to loading, but nothing is fetched |
| TvShowDetail.ShowView.TryAgain | src/pages/TvShowDetail.jsx:289-295 | corrected: the show is fetched again, loading ends, and the page shows the show or the message exactly as after the first load |
| TvShowDetail.TryAgainStaysLoading | src/pages/TvShowDetail.jsx:284-300 | after a failed load, Try Again as written leaves the page loading with nothing fetched, while the corrected one shows the show |
| TvShowDetail.ShowView.HandleWatchlistToggle | src/pages/TvShowDetail.jsx:131-154 | ignored while loading; otherwise the toggle is sent, the status settles to its target on success and stays on failure, the error stays cleared and loading ends false |
| TvShowDetail.ShowView.HandleWatchedToggle | src/pages/TvShowDetail.jsx:156-196 | ignored while loading; the status settles as the toggle says; marking as watched opens the review dialog on success; failure shows the message or the fallback |
| TvShowDetail.ShowView.HandleFavoriteToggle | src/pages/TvShowDetail.jsx:198-223 | ignored while loading; add when not a favourite, remove otherwise; the flag flips only on success; failure shows the message or the fallback |
| TvShowDetail.ShowView.HandleCommentSubmit | src/pages/TvShowDetail.jsx:256-278 | success closes the dialog; failure keeps it and shows the message or the fallback; submitting ends false |
| MovieDetail.MovieView.constructor | src/pages/MovieDetail.jsx:26-33 | no movie, no status, loading |
| MovieDetail.MovieView.Load | src/pages/MovieDetail.jsx:36-46 | the status comes from the response; a failure sets "Failed to load movie details"; loading ends false |
| MovieDetail.MovieView.HandleWatchlistToggle | src/pages/MovieDetail.jsx:51-70 | the watchlist toggle's request is sent and the status settles to its target only on success; loading ends false |
| MovieDetail.MovieView.HandleWatchedToggle | src/pages/MovieDetail.jsx:72-91 | marks as watched by POST (or deletes "watched"); the status changes only on success; loading ends false |
| MovieDetail.MovieView.HandleFavoriteToggle | src/pages/MovieDetail.jsx:93-95 | a local flip and nothing else |
| MovieStatsModal.InitialFilters | src/components/MovieStatsModal.jsx:26-31 | "favorites" opens on every status with the favourite filter on; any other kind opens on its own status with favourites off |
| MovieStatsModal.QueryParams | src/components/MovieStatsModal.jsx:36-47 | page and search always; `status` iff the status filter is not "all"; `is_favorite` iff the favourite filter is not "all", true iff it is "favorite"; no other keys |
| MovieStatsModal.NextFavoriteFilter | src/components/MovieStatsModal.jsx:254-258 | "favorite" goes to "all", anything else to "favorite" |
| MovieStatsModal.FavoriteFilterAlternates | src/components/MovieStatsModal.jsx:254-258 | from either setting, the button always changes the filter and two presses come back |
| MovieStatsModal.SetStatus | src/components/MovieStatsModal.jsx:111-145 | only the entries of that movie change status; length, order and every other entry are kept |
| MovieStatsModal.SetFavorite | src/components/MovieStatsModal.jsx:158-173 | only the entries of that movie change their favourite flag; every other entry is kept |
| MovieStatsModal.ItemButton | src/components/MovieStatsModal.jsx:303-329 | "watched" and "watchlist" entries get mark-as-watched, a falsy status gets add, any other status no button |
| MovieStatsModal.ToggleCallAsWritten | src/components/MovieStatsModal.jsx:103-131 | as written: a falsy status adds and any other removes, by the entry's own top-level `tmdb_id`, absent when the entry has none |
| MovieStatsModal.AfterToggleAsWritten | src/components/MovieStatsModal.jsx:103-131 | as written: on success only the entries whose movie id equals the entry's top-level id are rewritten, so an entry without one changes nothing; a failure changes nothing |
| MovieStatsModal.AsWrittenMissesEntry | src/components/MovieStatsModal.jsx:103-131 | an entry without a top-level id is posted with no movie id and keeps its empty status, while the corrected toggle posts the movie's id and shows it on the watchlist |
| MovieStatsModal.ToggleCall | src/components/MovieStatsModal.jsx:106-119 | a falsy status adds the movie, any other removes it, by the entry's movie id |
| MovieStatsModal.AfterToggle | src/components/MovieStatsModal.jsx:103-131 | corrected: on success every entry of the clicked entry's movie takes the toggled status and every other entry is kept; a failure changes nothing |
| MovieStatsModal.ToggleUpdatesClickedEntry | src/components/MovieStatsModal.jsx:103-131 | after a successful toggle the clicked entry has the toggled status, other movies' entries are untouched, and a failure changes nothing |
| MovieStatsModal.StatsModal.constructor | src/components/MovieStatsModal.jsx:19-31 | empty list, page 1, more to load, the initial filters |
| MovieStatsModal.StatsModal.FetchMovies | src/components/MovieStatsModal.jsx:33-64 | the params hold only page, search, `status` iff the status filter is not "all" and `is_favorite` iff the favourite one is not, with their values; page 1 replaces the list, later pages append; total from the page and `hasMore` iff `next` is not `null`; failure keeps them; loading ends false |
| MovieStatsModal.StatsModal.ShouldLoadMore | src/components/MovieStatsModal.jsx:84-91 | the next page loads iff what is left to scroll is at most 1.5 client heights, nothing is loading and there is more |
| MovieStatsModal.StatsModal.OnScroll | src/components/MovieStatsModal.jsx:82-95 | when 2·(scrollHeight − scrollTop) ≤ 3·clientHeight, nothing loads and there is more, page+1 is requested and merged; otherwise nothing happens |
| MovieStatsModal.StatsModal.SetStatusFilter | src/components/MovieStatsModal.jsx:225-248 | a new filter value resets the page to 1 and refetches the first page; the active value changes nothing |
| MovieStatsModal.StatsModal.SettleSearch | src/components/MovieStatsModal.jsx:66-80 | the settled search resets the page and refetches the first page iff the query changed |
| MovieStatsModal.StatsModal.ToggleFavoriteFilter | src/components/MovieStatsModal.jsx:254-258 | the favourite filter alternates and the first page is fetched again |
| MovieStatsModal.StatsModal.HandleWatchlistToggle | src/components/MovieStatsModal.jsx:103-131 | corrected keying (the code as written is `ToggleCallAsWritten` and `AfterToggleAsWritten`, see `AsWrittenMissesEntry`): the request is `ToggleCall` of the entry and the list becomes `AfterToggle` of it |
| MovieStatsModal.StatsModal.HandleWatchedToggle | src/components/MovieStatsModal.jsx:133-149 | PATCHes the entry's movie to "watched"; on success its entries show watched; failure keeps the list |
| MovieStatsModal.StatsModal.HandleFavoriteToggle | src/components/MovieStatsModal.jsx:151-178 | adds when not a favourite, removes otherwise; on success the flag flips on that movie's entries only |
| AddToListModal.TagAll | src/components/AddToListModal.jsx:20-30 | every list is tagged with its own check result, in order, and the whole fetch fails iff some check fails |
| AddToListModal.SetHasMovie | src/components/AddToListModal.jsx:55-78 | only the lists with that id change `hasMovie`; every other list is kept |
| AddToListModal.AddThenRemoveRestores | src/components/AddToListModal.jsx:55-78 | adding to a list without the movie and then removing restores the lists |
| AddToListModal.FilteredLists | src/components/AddToListModal.jsx:88-90 | exactly the lists whose lower-cased name contains the lower-cased query |
| AddToListModal.NameMatches | src/components/AddToListModal.jsx:89 | an empty query matches every list, a query equal to the name up to case matches, and a query longer than the name never does |
| AddToListModal.FilteredListsKeepOrder | src/components/AddToListModal.jsx:88-90 | filtering splits over any split of the lists, so the original order is kept |
| AddToListModal.EmptyQueryShowsAll | src/components/AddToListModal.jsx:88-90 | an empty query shows every list |
| AddToListModal.ActionFor | src/components/AddToListModal.jsx:146-148 | remove iff the list holds the movie, add otherwise |
| AddToListModal.ListsModal.constructor | src/components/AddToListModal.jsx:10-12 | no lists, not loading, empty search |
| AddToListModal.ListsModal.FetchLists | src/components/AddToListModal.jsx:14-42 | nothing is requested while closed; when open the lists become the tagged lists if everything succeeds and stay otherwise; loading ends false |
| AddToListModal.ListsModal.HandleAddToList | src/components/AddToListModal.jsx:48-65 | on success only that list holds the movie; loading ends false either way |
| AddToListModal.ListsModal.HandleRemoveFromList | src/components/AddToListModal.jsx:67-84 | on success only that list no longer holds the movie; loading ends false either way |
| AddToListModal.ListsModal.ClickAction | src/components/AddToListModal.jsx:143-149 | the button runs remove iff the list holds the movie, and on success that list shows the opposite flag |
| Comments.Stars | src/pages/Comments.jsx:28-32 | five stars, star i filled iff i ≤ rating |
| Comments.StarsShape | src/pages/Comments.jsx:28-32 | the filled stars form a prefix and there are as many as the rating clamped to 0..5 |
| Comments.StarClick | src/pages/Comments.jsx:33 | a click on star i reports i iff the stars are interactive |
| Comments.RatingOptions | src/pages/Comments.jsx:485-491 | five buttons with values 0..4; "All" iff the value is 0; the others show the number and a star |
| Comments.OneActiveOption | src/pages/Comments.jsx:488 | exactly one button is highlighted for a selected rating 0..4, none otherwise |
| Comments.CanSubmit | src/pages/Comments.jsx:304 | the review form submits, and Post is enabled, iff the text is not whitespace-only, the rating is not 0, and no submit is in flight |
| Comments.CommentForm.constructor | src/pages/Comments.jsx:299-301 | empty text, rating 0, not submitting |
| Comments.CommentForm.ClickStar | src/pages/Comments.jsx:312-315 | a star click sets the rating to its number |
| Comments.CommentForm.HandleSubmit | src/pages/Comments.jsx:303-308 | text and rating are handed on iff the guard holds, and submitting ends false |
| Comments.CommentItem.constructor | src/pages/Comments.jsx:53-59 | the replies from the comment, an empty box, the given like state |
| Comments.CommentItem.HandleSubmitResponse | src/pages/Comments.jsx:74-95 | sent iff the text is not blank, nothing is in flight and the movie is loaded, filed under the comment with rating 1; with no movie the id read throws and nothing changes; success appends the reply at the end, clears and closes the box and shows the replies; failure keeps them |
| Comments.CommentItem.HandleLike | src/pages/Comments.jsx:62-72 | the server's flag and count replace the local ones; failure changes nothing |
| Comments.WithoutComment | src/pages/Comments.jsx:385-386 | exactly the comments with that id are gone and a list without it is unchanged |
| Comments.WithoutCommentKeepsOrder | src/pages/Comments.jsx:386 | deletion splits over any split of the list, so the rest keep their order |
| Comments.CommentsView.constructor | src/pages/Comments.jsx:344-351 | no movie, no comments, loading, page 1, rating 0, sorted by date |
| Comments.CommentsView.LoadMovie | src/pages/Comments.jsx:370-381 | the movie is kept on success; failure changes nothing |
| Comments.CommentsView.FetchComments | src/pages/Comments.jsx:392-413 | the query is the current page, rating and sort; page 1 replaces, later pages append; `hasMore` iff `next` is not `null`; failure keeps the list; loading ends false |
| Comments.CommentsView.OnLastCommentVisible | src/pages/Comments.jsx:359-363 | the page advances by one iff the last comment is visible and there is more |
| Comments.CommentsView.SelectRating | src/pages/Comments.jsx:484-494 | the rating is set; the current page is fetched again iff the rating changed, without resetting the page; clicking the active rating fetches nothing and changes nothing |
| Comments.CommentsView.HandleDeleteComment | src/pages/Comments.jsx:383-390 | on success the list becomes `WithoutComment` of it; failure changes nothing |
| Comments.CommentsView.HandleSubmitComment | src/pages/Comments.jsx:415-430 | nothing is sent before the movie is loaded; success puts the new review first and closes the form; any failure keeps the list and shows "Failed to post your review. Please try again." |
| PublicProfile.AfterFollow | src/pages/PublicProfile.jsx:177-183 | "followed" sets following and adds one; "unfollowed" clears it and subtracts one; anything else changes nothing |
| PublicProfile.FollowUnfollowRestores | src/pages/PublicProfile.jsx:177-183 | a follow and an unfollow in either order bring the count back |
| PublicProfile.ScreenFor | src/pages/PublicProfile.jsx:189-246 | loading first, then an error, then user-not-found, then the private notice, then the profile |
| PublicProfile.FollowButtonShown | src/pages/PublicProfile.jsx:256 | shown iff someone is signed in and is viewing another user |
| PublicProfile.StripFor | src/pages/PublicProfile.jsx:100-129 | the empty state iff no movies; otherwise the first min(n, 5) in order, and "See all" iff the count is above 5 |
| PublicProfile.StripBounds | src/pages/PublicProfile.jsx:129 | never more than five items; all of a list of five or fewer; else its first five |
| PublicProfile.ProfileView.constructor | src/pages/PublicProfile.jsx:141-149 | no user, loading, no error, not private, not following, count 0 |
| PublicProfile.ProfileView.Load | src/pages/PublicProfile.jsx:151-169 | the profile and its follow state on success; private iff the detail is "This profile is private"; otherwise the message or "Failed to load user profile"; loading ends false |
| PublicProfile.ProfileView.HandleFollow | src/pages/PublicProfile.jsx:174-187 | the follow state becomes `AfterFollow` of the answer; failure changes nothing |
| PublicProfile.FirstLoad | src/pages/PublicProfile.jsx:151-246 | after the first load the profile shows iff it succeeded, the private notice iff the detail says so, and otherwise the error screen with the message or fallback |
| Collections.FilterMembers | src/components/AddToListModal.jsx:88-90 | `filter` keeps exactly the items that pass |
| Collections.FilterAppend | src/pages/Comments.jsx:386 | `filter` commutes with concatenation |
| Collections.FilterKeepsAll | src/components/AddToListModal.jsx:88-90 | when every item passes, nothing is filtered |
| Collections.RemoveWhereSpec | src/pages/Comments.jsx:386 | keyed removal drops exactly the matching items, splits over concatenation, and is the identity without a match |
| Collections.UpdateWhereAt | src/components/MovieStatsModal.jsx:111-126 | a keyed `map` keeps length and positions and rewrites only the matching items |
| Collections.MergePageSpec | src/components/MovieStatsModal.jsx:51-55 | page 1 is exactly the new results; a later page keeps the old list as prefix and the new results after it |
| JsValues.TrimEmptyIff | src/pages/CreateList.jsx:241-243 | `trim()` is empty iff every character is `\s` whitespace |
| JsValues.Utf16Length | src/pages/Register.jsx:25 | `length` in UTF-16 code units lies between the number of characters and twice it |
| JsValues.ContainsEmpty | src/components/AddToListModal.jsx:89 | every string includes the empty string |
| JsValues.DecimalRoundTrip | src/pages/CreateList.jsx:297 | the decimal text of a number reads back as that number |

## Left out

- `JSON.stringify` of params and body is left out: they are opaque strings inside the request key. Key order and canonicalisation are not modelled.
- The axios transport, the 10-second timeout, the default headers and the request interceptor's error pass-through are left out. They are library behaviour with no logic here.
- Promise identity is a number handed out by the client. The wait before a retry is a returned delay, not a timer.
- `Date` parsing, the clock and `toLocaleDateString` are left out. `TimeAgo` takes the elapsed milliseconds (absent for an invalid date) and the locale text as inputs.
- `toLowerCase` is modelled for ASCII letters only. Other Unicode case mappings are left out.
- Lone surrogates are left out: `Utf16Length` counts code units of well-formed text only.
- `localStorage`, `navigate`, `window.location`, toasts, `FileReader` previews and `FormData` are recorded effects or inputs, not real ones. An image preview is an input string.
- Scroll positions are integers. Fractional DOM values are left out; `ShouldLoadMore` states the 1.5 factor over the reals.
- The 500 ms search debounce timer is left out. `SettleSearch` models only the moment the debounced query settles.
- CreateList's edit-mode prefill from the router state and the list fetch (src/pages/CreateList.jsx:164-209) are not part of this model. They are loading and navigation only.
- Share and back-navigation handlers of the detail pages are left out. They are navigation and clipboard only.
- The nested `ResponseItem` reply box (src/pages/Comments.jsx:105-128) has the same guard and append as `HandleSubmitResponse`. Its prefilled `@username` text is not modelled separately.
- `Comments.CommentsView.OnLastCommentVisible` states the observer callback's own rule. In the code that callback is never attached: the list passes `observer.current` as `ref`, not `lastCommentRef` (src/pages/Comments.jsx:521). The page therefore does not advance from scrolling.
- A JSON value that may be `null` or missing is an `Option` wherever the code treats the two alike (truthiness, `?.`, `||`). The login token and the `next` link of a page are `JsonString`, which keeps them apart, because `String(token)` and `next !== null` do not treat them alike.
- AddToListModal's "create list" navigation and the check url's query string are left out. They are navigation and string formatting only.
- Rendering, styling, skeletons, and fractional ratings and their `toFixed` are left out.

## Findings

| source | as written | input that shows it | evidently intended | confidence | as-written member | corrected member |
|---|---|---|---|---|---|---|
| src/components/MovieStatsModal.jsx:103-131 | the add-to-watchlist handler is called with the whole watchlist entry (line 323), yet reads `tmdb_id` from the entry itself, not from `entry.movie`, for the POST body, the DELETE url and the match at lines 113 and 122 | an entry `{id: 1, movie: {tmdb_id: 550}, status: null}` with no top-level `tmdb_id`: the POST carries no movie id and no entry's status changes | key on `entry.movie.tmdb_id`, as the watched handler (lines 136, 141) and the favourite handler (called with `item.movie`, line 334) do | medium (depends on the entry having no top-level id); not executed | MovieStatsModal.AsWrittenMissesEntry | MovieStatsModal.ToggleUpdatesClickedEntry |
| src/utils/axios.js:46-118 | the shared promise's resolver lives in the attempt's config (lines 56-63) and only the success handler calls it (lines 76-80); a retry re-enters the request interceptor, which makes a new promise under the same key (lines 99-118), and no handler ever rejects a shared promise | a request that times out once and then succeeds, with a second identical call made during the first attempt: the second caller's promise never settles | every caller of a key receives the final outcome of the logical request: retries keep the key and the promise, which is fulfilled or rejected with the last attempt's outcome | high; not executed | RequestClient.FollowerOfFailedAttemptStaysPending | RequestClient.FollowerReceivesFinalOutcome |
| src/pages/TvShowDetail.jsx:289-295 | the Try Again handler clears the error, sets loading and calls `fetchShowDetails`, which is declared inside the load effect (line 101) and so is not in scope there; the call throws a ReferenceError | any failed load followed by a click on Try Again: the page shows the loading skeleton and no request is sent | re-run the show fetch and settle the page as after the first load | high; not executed | TvShowDetail.TryAgainStaysLoading | TvShowDetail.ShowView.TryAgain |
