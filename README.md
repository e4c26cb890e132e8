# CivicConnect feed core, modelled in Dafny

This project models the integer- and list-valued logic of the CivicConnect
single-page app (`script.js`): the `FeedManager`'s infinite-scroll pagination
and pull-to-refresh state, the item-list actions of the `CivicConnect` object
(like, save, compose, append), the scheme and job directory filters, the theme
toggle, the sign-up validation chain, the composer's 280-character rule and the
"time ago" label.

Layout, one module per file:

- `common.dfy` (`Common`): `Option`, `Result`, and `Response` (a network read that either delivered decoded JSON or failed).
- `text.dfy` (`Text`): JavaScript's `trim`, ASCII `toLowerCase`, `includes`, decimal rendering.
- `seqs.dfy` (`Seqs`): `Array.prototype.filter` and the subsequence relation.
- `posts.dfy` (`Posts`): the feed item, how fetched JSON becomes items, the per-item toggles, `find` by id, the composer rule, `getTimeAgo`.
- `theme.dfy` (`Theme`), `accounts.dfy` (`Accounts`), `directory.dfy` (`Directory`): the theme cycle, sign-up, the filters.
- `app.dfy` (`App`): class `CivicConnect`, whose `posts` list and user store change in place.
- `feed.dfy` (`Feed`): class `FeedManager` (`page`, `loading`, `hasMore`) and class `PullToRefresh` (the touch handlers' shared `startY`, `pullDistance`, `isPulling`).
- `scenarios.dfy` (`Scenarios`): clients that drive fresh objects through event sequences.

The two asynchronous handlers of `FeedManager`, `loadMorePosts` and
`refreshFeed`, are each split at their `await` into a start step and a
finish step. The start step checks the guard and takes `loading`. The finish
step receives the network's answer as a parameter. The browser runs handlers
one at a time, so each step is atomic. A ghost field `inFlight` records which
handler holds `loading`; `FeedManager.Valid()` ties it to `loading`, which is
the mutual exclusion between `loadMorePosts` and `refreshFeed`.

`this.posts` is undefined until `loadPosts` first succeeds. The model keeps it
as `Option<seq<Post>>`: before that, `find`, `unshift` and `push` throw and
change nothing. This is the one way the `catch` of `loadMorePosts`
(script.js:1683-1686) is reached. `appendPosts` pushes into an undefined list,
throws, and `page` is not advanced. `fetchMorePosts` catches every fetch error
itself, so the network cannot reach that `catch`.

In four places the code behaves differently from what one might expect, and the model follows the code:

- A failed next-page request does end pagination. `fetchMorePosts` returns `[]` on any error (script.js:1715-1718), and `loadMorePosts` treats `[]` as the end of the feed (script.js:1676-1678). One might expect a transient failure not to end pagination. `FinishLoadMore` and `Scenarios.FailureThenRefresh` state the code's behaviour.
- When the feed container is missing, `appendPosts` returns without appending, and `loadMorePosts` still advances `page` (script.js:1721-1723, 1680).
- Item ids can collide. A refresh whose reload fails keeps the list but sets `page` back to 1 (script.js:1816-1820), so the next trigger fetches page 2 again and appends the same `id + 1000` items a second time (script.js:1697). `find` then returns the first copy (script.js:333), so a like on the second copy flips the first. `Scenarios.DuplicateIdsAfterFailedRefresh` and `Posts.LikeMissesLaterCopy` state this; the id offset protects only the first paged fetch after the first load (`Posts.PagedIdsAvoidFeed`).
- `submitPost` accepts an image-only draft (script.js:437). The composer button, however, is disabled while the trimmed text is empty (script.js:404). `updateCharCount` sets the button's state only on typing and when the composer closes (script.js:64, 392), so the rule applies once the composer has been typed in or closed. On the first opening the button's state comes from the page markup, which is not part of this model.

## Model

| member | source | states |
|---|---|---|
| Text.TrimStart | script.js:404 | the result is the longest suffix not starting with JavaScript whitespace; every dropped character is whitespace |
| Text.Trim | script.js:404 | `trim()` returns the piece of the input with only whitespace before and after it; a non-empty result starts and ends with a non-whitespace character |
| Text.TrimEnd | script.js:404 | the result is the longest prefix not ending with whitespace; every dropped character is whitespace |
| Text.TrimEmptyIff | script.js:404 | `trim()` yields the empty string exactly when every character is whitespace |
| Text.TrimIdempotent | script.js:434 | trimming an already trimmed string changes nothing |
| Text.Lower | script.js:1384 | `toLowerCase` maps each character on its own and keeps the length |
| Text.Contains | script.js:1384-1385 | a needle at the start of the haystack is found; a found needle is no longer than the haystack |
| Text.ContainsAt | script.js:1384-1385 | `includes` holds exactly when the needle occurs at some offset of the haystack |
| Text.ContainsIgnoringCase | script.js:1384-1385 | `hay.toLowerCase().includes(needle.toLowerCase())` holds exactly when the lower-cased needle occurs at some offset of the lower-cased haystack |
| Seqs.Filter | script.js:1381-1387 | `filter` keeps only elements satisfying the predicate, keeps every element that does, and keeps each passing value as many times as it occurs |
| Seqs.FilterIsSubsequence | script.js:1381-1387 | `filter` preserves order: its result is a subsequence of its input |
| Seqs.FilterKeepsAll | script.js:1381-1387 | when every element passes, `filter` returns the input unchanged |
| Posts.PagedPost | script.js:1696-1713 | one paged-in record becomes an item with id + 1000, the record's title and user, both flags false, likes in 10..209, comments in 1..30, shares in 0..9, and a timestamp within the last three days |
| Posts.FetchMorePosts | script.js:1692-1718 | one item per fetched record, in order, id = source id + 1000, flags false, counters in their random ranges, timestamps within three days; any failure gives `[]` |
| Posts.PagedIdsAvoidFeed | script.js:1697 | for the first paged fetch after the first load (every feed id below 1000) and non-negative source ids, no paged-in id collides with a feed id |
| Posts.PagedIdsInjective | script.js:1697 | records with distinct ids become items with distinct ids |
| Posts.LoadedPost | script.js:206-222 | one first-load record becomes an item with its own id, the given user, both flags false, likes in 10..509, comments in 1..50, shares in 0..19, and a timestamp within the last seven days |
| Posts.LoadedPosts | script.js:190-231 | `loadPosts` yields one item per post record, with its id and title, the user at `index % users.length`, both flags false, likes in 10..509, comments in 1..50, shares in 0..19 and a timestamp within the last seven days; or it leaves the list alone when a request fails or there are posts but no users |
| Posts.IndexOf | script.js:333 | `find` by id: the first index with that id, or none exactly when no item has it |
| Posts.LikeToggled | script.js:335-336 | the liked flag flips, the likes from others stay the same, nothing else changes, non-negative counters stay non-negative |
| Posts.SaveToggled | script.js:344 | only the saved flag flips |
| Posts.WithLikeToggled | script.js:332-339 | the first item with the id flips `liked`, its likes from others stay the same and its other fields are kept; every other item is unchanged; an id not in the list leaves it unchanged; well-formed counters preserved |
| Posts.WithSaveToggled | script.js:341-347 | the first item with the id flips `saved` and keeps every other field; every other item is unchanged; an id not in the list leaves it unchanged |
| Posts.LikeToggledTwice | script.js:332-339 | toggling like twice restores the list, flag and counter |
| Posts.SaveToggledTwice | script.js:341-347 | toggling save twice restores the list |
| Posts.LikeMissesLaterCopy | script.js:332-339 | when two items share an id, a like on that id never changes the later one |
| Posts.SubmitAccepts | script.js:437 | `submitPost` goes ahead exactly when the draft has a non-whitespace character or an image is attached |
| Posts.NewPost | script.js:445-456 | a composed item starts with zero counters and both flags false |
| Posts.CharsRemaining | script.js:402-404 | the remaining count is at most 280 and is negative exactly when the draft is longer than 280 characters |
| Posts.PostButtonEnabled | script.js:396-406 | the post button is enabled exactly when the draft has a non-whitespace character and at most 280 characters |
| Posts.ButtonImpliesAccepted | script.js:433-437 | a draft the button lets through is one `submitPost` accepts |
| Posts.TimeAgo | script.js:320-330 | minutes below one hour, hours below one day, days beyond, each the whole number of units elapsed |
| Posts.PagedPostAge | script.js:1711 | a freshly paged-in item is labelled at most "2d" |
| Theme.CurrentTheme | script.js:1168 | the stored theme, or "system" when nothing is stored |
| Theme.NextTheme | script.js:1168-1177 | light goes to dark, dark to system, anything else to light; the result is always a valid theme |
| Theme.NextThemeCycle | script.js:1168-1177 | three clicks bring each theme back to itself, and every click changes it |
| Accounts.ValidateSignup | script.js:694-734 | the checks run in order (missing field, invalid email, short password, mismatch, terms, duplicate email), and each error is reported exactly when every earlier check passed and its own fails; the form passes exactly when all hold and the email is not registered |
| Accounts.LocalPart | script.js:750 | `split("@")[0]` is the prefix before the first '@' |
| Accounts.KeepAlphanumeric | script.js:750 | the result is an order-preserving subsequence of the input holding each ASCII letter and digit as many times as the input does, and nothing else |
| Accounts.UsernameOf | script.js:750 | the username derived from an email holds only ASCII letters and digits |
| Accounts.NewAccount | script.js:747-758 | the account has the given id, the trimmed first and last name joined by a space, the trimmed email, the password, and the username derived from the email's local part |
| Accounts.SignupKeepsEmailsDistinct | script.js:731-760 | because the duplicate check precedes the push, an accepted account keeps the store's emails distinct |
| Directory.SchemeMatches | script.js:1381-1386 | empty criteria match every scheme; a set category that differs from the scheme's rules it out |
| Directory.JobMatches | script.js:1593-1600 | empty criteria match every job; a set department, experience or education that differs from the job's rules it out |
| Directory.FilterSchemes | script.js:1376-1388 | the shown schemes are a subsequence of the directory; each meets every non-empty criterion (exact category, case-insensitive eligibility and state); every matching scheme is shown, as many times as it occurs |
| Directory.FilterJobs | script.js:1587-1601 | the same for jobs: exact department, experience and education, case-insensitive location |
| Directory.SchemesUnfiltered | script.js:1378-1387 | with every criterion empty all schemes are shown, in order |
| Directory.JobsUnfiltered | script.js:1589-1600 | with every criterion empty all jobs are shown, in order |
| Directory.StateCriterionIgnoresCase | script.js:1385 | the typed criterion's letter case does not matter |
| App.CivicConnect.constructor | script.js:3-9 | the user store comes from storage and the item list is not yet defined |
| App.CivicConnect.LoadPosts | script.js:190-231 | the list becomes the loaded items, or stays as it was on failure |
| App.CivicConnect.ToggleLike | script.js:332-339 | the list becomes `WithLikeToggled` of the old list; before the first load nothing changes |
| App.CivicConnect.ToggleSave | script.js:341-347 | the list becomes `WithSaveToggled` of the old list |
| App.CivicConnect.SubmitPost | script.js:433-465 | with trimmed text or an image, one zero-counter item goes to the front and the rest keep their order; otherwise the list is unchanged |
| App.CivicConnect.Signup | script.js:692-786 | a refused form changes nothing and reports the first failing check; an accepted one appends exactly one account, signs it in, and keeps emails distinct |
| Feed.NearBottom | script.js:1659-1660 | the viewport is near the bottom exactly when at most 1000 pixels of content remain below it |
| Feed.FeedManager.constructor | script.js:1624-1629 | page 1, not loading, more available |
| Feed.FeedManager.ShouldLoadMore | script.js:1652-1661 | never while loading or after the feed ran out; otherwise exactly when at most 1000 pixels remain below the viewport |
| Feed.FeedManager.BeginLoadMore | script.js:1663-1666 | nothing while loading or exhausted; otherwise takes `loading` and requests page `page + 1` |
| Feed.FeedManager.AppendPosts | script.js:1721-1730 | pushes the batch onto the app's list in order; no change without the container; throws on an undefined list |
| Feed.FeedManager.FinishLoadMore | script.js:1668-1690 | an empty or failed page clears `hasMore` and keeps `page`; a non-empty page is appended and `page` grows by 1 unless appending threw; `loading` is released on every path |
| Feed.FeedManager.BeginRefresh | script.js:1808-1811 | a no-op while any fetch is in flight; otherwise takes `loading` |
| Feed.FeedManager.FinishRefresh | script.js:1813-1829 | after the reload `page` is 1 and `hasMore` is true, even when exhausted before; `loading` is released |
| Feed.FeedManager.OnScrollFrame | script.js:1642-1661 | a request goes out exactly when not loading, not exhausted, and the viewport bottom is within 1000 pixels of the content end |
| Feed.PullToRefresh.constructor | script.js:1733-1736 | the gesture starts at rest |
| Feed.PullToRefresh.TouchStart | script.js:1752-1758 | a gesture begins only when the page is scrolled to the top |
| Feed.PullToRefresh.TouchMove | script.js:1760-1773 | while pulling, the distance is `max(0, currentY - startY)`; the indicator reads "release" exactly past 80 |
| Feed.PullToRefresh.TouchEnd | script.js:1775-1786 | `refreshFeed` is called exactly when a pull exceeds 80; the gesture always returns to rest |
| Scenarios.FivePagesThenEnd | script.js:1663-1690 | five items then an empty page: the feed holds the five, pagination is over, a later scroll requests nothing |
| Scenarios.NoSecondFetch | script.js:1652-1666 | while a page is in flight neither scrolling nor refreshing starts a second fetch |
| Scenarios.FailureThenRefresh | script.js:1692-1718 | a failed request exhausts the feed; a refresh, even a failed one, gives back page 1 and `hasMore` |
| Scenarios.ReleaseAfterPull | script.js:1752-1786 | a release after pulling 81 calls for a refresh, after 80 it does not |
| Scenarios.PullWhileScrolled | script.js:1753 | a pull begun below the top never calls for a refresh |
| Scenarios.DoubleRelease | script.js:1775-1786 | two touchend events after one pull call for one refresh |
| Scenarios.DuplicateIdsAfterFailedRefresh | script.js:1663-1690 | after page 2 is appended and a refresh's reload fails, the next trigger asks for page 2 again and the list holds its items twice, so ids collide |
| Scenarios.SaveMissingId | script.js:341-347 | saving an absent id leaves the list unchanged |

## Left out

- DOM rendering: `renderPosts`, `createPostElement`, the scheme and job cards, the end-of-feed and error messages, the indicator's opacity and transform (a floating-point ratio), navigation highlighting and notifications. The model keeps only the indicator's two observable decisions: whether it moves and which text it shows.
- Network: the `fetch` calls are parameters of type `Response`, covering both a delivered JSON body and any failure. JSON whose shape the code does not expect counts as a failure.
- Storage: `localStorage` and `sessionStorage` (the user store, tokens, theme) are not modelled. The user store is the `registeredUsers` sequence, and the stored theme is a parameter.
- Randomness and the clock: `Math.random` and `Date.now()` are parameters (`draw`, `now`).
- Browser scheduling: the `requestAnimationFrame` throttle of the scroll listener, `delay`, `debounce` and `setTimeout`. The scroll position is taken as one integer; the `pageYOffset || scrollTop` fallback is not modelled.
- Platform APIs: `navigator.share`, the clipboard, `FileReader`, and `URL.createObjectURL` (the attached image's URL is a parameter). `sharePost` only dispatches to one of these, so it is not modelled.
- `isValidEmail` is a regular expression and is taken as a parameter `validEmail`.
- Sign-up side effects after the push: persisting, the auth token, and re-running `loadPosts` and `setupFeedManager`. Every sign-in creates another `FeedManager`, each with its own listeners and its own `loading` flag. The model has one `FeedManager` and does not capture several managers running at once.
- Avatar URLs, bios, locations and join dates: these are display strings with no logic behind them.
- Text.Lower: folds only ASCII letters; JavaScript's `toLowerCase` maps all of Unicode.
- Posts.PostButtonEnabled: counts Unicode scalar values; JavaScript's `length` counts UTF-16 code units, so characters outside the Basic Multilingual Plane count once here and twice in the browser.
- Accounts.ValidateSignup: the six-character password minimum is counted the same way, in Unicode scalar values.
- Posts.PagedPost: the timestamp subtracts a whole number of milliseconds below three days; the source subtracts a fractional one and `Date` truncates, so it can land exactly three days back.
- Posts.LoadedPost: the same holds for its seven-day timestamp range.
- Posts.PagedPostAge: follows from the whole-millisecond timestamps above; in the source a truncated timestamp exactly three days old is labelled "3d".
- Posts.FetchMorePosts: inherits the whole-millisecond timestamps of `Posts.PagedPost`.
- Posts.LoadedPosts: inherits the whole-millisecond timestamps of `Posts.LoadedPost`.
- Posts.CharsRemaining: counts Unicode scalar values, like `Posts.PostButtonEnabled`.
- App.CivicConnect.Signup: does the duplicate-email check and the push in one step. The source waits one second between them (script.js:732, 744, 760) and relies on the disabled submit button (script.js:738) to stop a second submission in that second; a second submission is not modelled.
