# GitHub Focus background script, modelled in Dafny

GitHub Focus is a browser extension. Its background script, `background.js`,
polls the GitHub notifications endpoint. It filters each notification through
an ordered list of suppression rules and shows a desktop notification for the
ones that pass. It keeps two in-memory caches: `notificationURLs` (id → URL
stored when shown) and `readNotifications` (ids marked read locally after a
click). It also keeps one integer, `POLL_INTERVAL`. A server hint in the
`X-Poll-Interval` header can raise that interval but never lower it.

The project models this decision logic. Every browser or network effect is
an input. `fetch` answers come in as a `FetchOutcome` (a network error, or a
status plus the parsed poll hint). The pull-request lookup of `isOpenPR` is a
`PrLookup` (that fetch's outcome and the PR's `state`). The click handler gets
the mark-read request's outcome.

Files and modules:

- `wrappers.dfy` (`Wrappers`): `Option` and `Result`. `None` stands for
  JavaScript's `undefined`; `Failure` stands for a thrown error.
- `request.dfy` (`Request`): `setMinPollInterval` as `RaisedInterval`,
  `getAccessToken` as `TokenResult`, and `apiRequest`'s decision logic. That
  covers the options it sends, how it sorts a response, and the poll hint.
- `notifications.dfy` (`Notifications`): the notification record and the
  string tests on reason and subject type.
- `urls.dfy` (`Urls`): `getIdFromApiUrl`, which writes out the regular
  expression `/\/([0-9]+)$/`, and `getNotificationURL`.
- `classifier.dfy` (`Classifier`): one notification's decision, first match
  wins, with `isOpenPR` as a pure function.
- `background.dfy` (`Background`): the whole process state as a value. Also
  what one notification (`Step`), one poll (`Poll`) and one click (`Click`)
  do to it.
- `properties.dfy` (`Properties`): lemmas about these functions.
- `script.dfy` (`Script`): class `BackgroundScript`. Its fields are
  `pollInterval`, `accessToken`, `notificationURLs` and `readNotifications`.
  Most methods follow one function of the script: `SetMinPollInterval`,
  `GetAccessToken`, `ApiRequest`, `IsOpenPR`, `CheckNotifications`,
  `MarkNotificationAsRead` and `HandleNotificationClick`. The `forEach`
  callback is split into `ProcessNotification`, which runs the cache and
  reason checks, and `ShowIfOpen`, which runs the pull-request check and
  records the URL. The request-level methods are proved against the
  `Request` and `Classifier` functions. The methods that change the caches
  are proved to produce the state that `Step`, `Poll` and `Click` describe.

Behaviour of the code worth knowing:

- **Unresolvable URL.** For an unknown subject type with no repository of its
  own, `getNotificationURL` (background.js:203-225) returns `undefined`. The
  callback stores that value at background.js:149 and still creates the
  desktop notification at background.js:152. Because `undefined` is falsy,
  the "already shown" test at background.js:101 does not catch it, so the
  notification is shown again on every poll
  (`Properties.UnresolvedUrlIsShownAgain`). Idempotence holds only for a
  truthy URL (`Properties.ShowingIsIdempotent`).
- **Interesting reasons.** The accepted reasons at background.js:112-120 are
  `assign`, `comment`, `mention` and `review_requested`, and also `author`,
  `manual` and `subscribed` (`Properties.SubscribedIsInteresting`).
- **Malformed PR URL.** `isOpenPR` extracts the number at background.js:172,
  before its `try` at background.js:174. When a pull request's API URL has no
  trailing number, the throw is not caught there and the fail-open path is
  not taken: the callback rejects and the notification is dropped, with
  neither cache written (`Decision.Dropped`).
- **Every request applies the hint.** `apiRequest` reads `X-Poll-Interval`
  at background.js:62-65 for every call, so the pull-request lookup and the
  mark-read request raise the interval too, not just the listing.
- **The timer is not re-armed.** `setInterval` at background.js:281 reads
  `POLL_INTERVAL` once, in `start`. Raising the interval later does not
  change the timer. The model keeps only the interval's value.
- **Commit subjects.** These take the issue-URL branch at
  background.js:210-216. A commit API URL ends in a hash, which usually is
  not all digits, so `getIdFromApiUrl` throws and the notification is
  dropped.

All tests on cached values use JavaScript truthiness.
`readNotifications[id]` counts only when the stored value is `true`.
`notificationURLs[id]` counts only when the value is defined and non-empty
(`Classifier.IsSet`). The token counts only when it is defined and non-empty.

## Model

| member | source | states |
|---|---|---|
| `Request.RaisedInterval` | background.js:17-26 | the new interval is at least the old one and at least the request, and equals one of them; a request no larger than the current interval leaves it unchanged |
| `Script.BackgroundScript.SetMinPollInterval` | background.js:17-26 | POLL_INTERVAL becomes `RaisedInterval(old, interval)`; nothing else changes |
| `Request.TokenResult` | background.js:28-40 | the token is returned exactly when it is set and non-empty; otherwise the call fails with MissingToken |
| `Script.BackgroundScript.GetAccessToken` | background.js:28-40 | returns what `TokenResult` describes for the stored token |
| `Request.PrepareOptions` | background.js:43-48 | the method defaults to GET; Accept is pinned to the v3 media type; Authorization is `token <token>`; every other header and the body are kept; no other header is added |
| `Request.SentRequest` | background.js:42-52 | a request reaches fetch exactly when a token is set, with the prepared options |
| `Request.RequestResult` | background.js:48-60 | success exactly when a token is set, fetch answered, the status is 2xx and, if a status is required, equals it; each failure is named in the source's order: missing token, network, non-ok status, unexpected status |
| `Request.IntervalAfter` | background.js:62-65 | the interval never shrinks; only a successful response with a hint can change it, and only to hint × 1000 |
| `Request.OkButNotRequiredFails` | background.js:56-60 | a 200 answer to a request requiring 205 fails with UnexpectedStatus(200), although 200 is ok |
| `Request.HintRaisesThenHolds` | background.js:62-65 | a 300 s hint raises 60000 ms to 300000 ms, a later 60 s hint leaves 300000 ms, and a 300 s hint does not lower the 600000 ms default |
| `Script.BackgroundScript.ApiRequest` | background.js:42-68 | the result is `RequestResult`, the request sent is `SentRequest`, and only the poll interval changes, to `IntervalAfter` |
| `Urls.DigitRunLength` | background.js:196 | the length of the trailing run of digits the pattern `[0-9]+$` can match; never longer than the string |
| `Urls.DigitRunIsMaximal` | background.js:196 | the trailing digit run that `DigitRunLength` measures is all digits, and the character before it is not a digit |
| `Urls.IdFromApiUrl` | background.js:193-201 | a result is a non-empty digit run, and the URL is a prefix, "/" and that run; no result means the pattern matches nowhere |
| `Urls.IdFoundAtMatch` | background.js:196-200 | if the pattern matches at k, the match is unique and the id is the text after k |
| `Urls.IdOfJoined` | background.js:193-201 | extracting the id from prefix + "/" + digits gives the digits back |
| `Urls.NotificationUrl` | background.js:203-225 | the subject-type case split; it fails exactly for an issue-like type whose API URL has no id; for issue-like types the page URL's trailing id equals the API URL's id; it is undefined exactly for an unknown type without its own repository |
| `Urls.IssueScenario` | background.js:210-216 | an issue whose API URL ends in /issues/42 resolves to https://github.com/org/repo/issues/42 |
| `Classifier.PullRequestApiUrl` | background.js:175-177 | the lookup URL starts with the repository's API URL, and a numeric PR number can be read back from it by `getIdFromApiUrl` |
| `Classifier.PullRequestIsOpen` | background.js:171-191 | fails exactly when the subject URL has no id; a failed lookup request counts as open (fail open); "closed" exactly when the lookup succeeded and the state is not "open" |
| `Classifier.LocalSuppression` | background.js:92-131 | the checks before the PR lookup: a result names a rule that fires with no earlier rule firing, and is never the closed-PR rule; no result means none of those rules fires |
| `Classifier.Resolve` | background.js:147-149 | the notification is shown exactly when `getNotificationURL` returns, with that URL; otherwise it is dropped with the error thrown |
| `Classifier.Classify` | background.js:91-161 | a suppression names the first rule that fires; if any rule fires, the notification is suppressed; it is shown exactly when no rule fires and its URL resolves, with that URL; it is dropped only when URL resolution throws |
| `Background.Record` | background.js:149 | a shown notification's URL is stored under its id; other decisions leave the map alone; no other key changes and no key is lost |
| `Background.Step` | background.js:91-161 | one callback keeps the token and the read cache; the interval can only grow, and only through the PR lookup; a notification that is not shown leaves both caches unchanged; no cached key is lost and no truthy URL is overwritten |
| `Background.Batch` | background.js:91-161 | over a whole list: the read cache and token are unchanged; the interval does not shrink; truthy URLs are kept; new keys are only ids from the list; which ids are recorded is stated by `Properties.ShownIsRecorded` and `Properties.RecordedWasShown` |
| `Background.NotificationsUrl` | background.js:79-81 | the listing URL is the participating-notifications endpoint followed by the `since` timestamp |
| `Background.Poll` | background.js:70-169 | a failed listing request leaves the whole state unchanged; otherwise the read cache and token are unchanged, the interval does not shrink, no cached key is lost, truthy URLs are kept and new keys are only ids from the list; which ids are recorded is stated by `Properties.PollRecordsShown` |
| `Properties.StepAddsOnlyShown` | background.js:147-149 | a key that one callback adds to the URL cache is its own notification's id, and that notification was shown |
| `Properties.BatchKeeps` | background.js:91-161 | whatever a prefix of the list has recorded survives the rest of the list: no key is lost and a truthy URL keeps its value |
| `Properties.ShownIsRecorded` | background.js:147-149 | every notification accepted during the loop is in the URL cache at its end, with the URL it was shown with when that URL is truthy (`AcceptedAt`: the decision at its turn is Shown) |
| `Properties.RecordedWasShown` | background.js:147-149 | conversely, every id the loop adds to the URL cache belongs to a listed notification that was accepted when its turn came |
| `Properties.PollRecordsShown` | background.js:79-161 | after a successful listing request, the poll records every notification its loop accepts, with its truthy URL, and records no other new id |
| `Background.ThreadUrl` | background.js:230-231 | the mark-read URL is exactly `https://api.github.com/notifications/threads`, "/" and the id, for any id; a numeric id is read back from it by `getIdFromApiUrl` |
| `Background.MarkReadOptions` | background.js:232-238 | the mark-read options: method PATCH, no extra headers, and a body that is exactly `{"last_read_at":"`, the timestamp and `"}` |
| `Background.Click` | background.js:246-272 | the URL cache is never changed; the interval changes only when the click is acknowledged (a failed request applies no hint); the outcome is NoUrl exactly when no truthy URL is cached, and then nothing changes; the id is recorded read exactly when a token is set and the mark-read request answered 205 |
| `Notifications.IsInterestingReason` | background.js:109-121 | a reason is interesting exactly when it is one of the seven listed reasons |
| `Properties.CachedOrReadIsSuppressed` | background.js:92-106 | not unread, locally read, or already shown: suppressed by that rule, in that order, whatever the reason, and the state is unchanged |
| `Properties.UninterestingReasonIsSuppressed` | background.js:109-121 | a reason outside the interesting set is suppressed and the state is unchanged |
| `Properties.SubscribedIsInteresting` | background.js:112-120 | "subscribed" is interesting; "team_mention" and "state_change" are not |
| `Properties.CommentRestriction` | background.js:122-131 | with the restriction on, a comment on a non-PR subject is suppressed and changes nothing; with it off, that comment is never suppressed |
| `Properties.ClosedPullRequestIsSuppressed` | background.js:137-145 | a PR whose lookup succeeded with a state other than "open" is suppressed; only the lookup's hint touches the state |
| `Properties.FailedLookupFailsOpen` | background.js:171-191 | when the lookup request fails, the PR is shown at repo/issues/<number> and that URL is recorded |
| `Properties.AcceptanceRecordsUrl` | background.js:147-149 | an accepted notification stores its computed URL under its id, and nothing else changes in the caches |
| `Properties.ShowingIsIdempotent` | background.js:101-106 | after a notification is shown with a truthy URL, classifying it again (for any lookup answer) is suppressed as already shown and changes nothing |
| `Properties.UnresolvedUrlIsShownAgain` | background.js:147-149 | when the stored URL is undefined or empty, the same notification gets the same Shown decision again |
| `Properties.ClassifyIsLocalToId` | background.js:95-106 | the decision depends on the caches only through the notification's own id |
| `Properties.StepKeepsOtherDecision` | background.js:91-161 | processing one notification does not change the decision for another id, or whether that id's PR is looked up |
| `Properties.LookupsCommute` | background.js:62-65 | two lookups' hints give the same interval in either order |
| `Properties.RecordsCommute` | background.js:149 | recording URLs for two different ids commutes |
| `Properties.StepsCommute` | background.js:91-161 | processing two notifications with different ids in either order gives the same state |
| `Properties.AcknowledgedClickSuppresses` | background.js:95-100 | after an acknowledged click, the same notification is suppressed by the local read cache while the server still says unread |
| `Properties.ClickAnswered200` | background.js:255-268 | a mark-read answered 200 ends in UnexpectedStatus(200) and leaves both caches unchanged |
| `Properties.MentionedIssueIsShown` | background.js:109-157 | an unread mention on issue 42 with empty caches is shown at https://github.com/org/repo/issues/42 |
| `Properties.PullRequestScenario` | background.js:137-145 | a PR reported closed is suppressed; the same PR with a network error on lookup is shown |
| `Script.BackgroundScript.constructor` | background.js:8-15 | the default interval of 600000 ms, empty caches, and the token from the preference store |
| `Script.BackgroundScript.IsOpenPR` | background.js:171-191 | returns `PullRequestIsOpen`; only the interval changes, and only when the lookup was made |
| `Script.BackgroundScript.ProcessNotification` | background.js:91-161 | returns the `Classify` decision, and the new state is `Step` of the old |
| `Script.BackgroundScript.ShowIfOpen` | background.js:137-157 | once the local checks pass: the same decision and state as `Classify` and `Step` |
| `Script.BackgroundScript.CheckNotifications` | background.js:70-169 | the loop over the list leaves the state `Poll` describes, with the comment restriction off as in the source |
| `Script.BackgroundScript.MarkNotificationAsRead` | background.js:227-244 | a PATCH to the thread URL with the last_read_at body, requiring 205; its result and the interval follow `RequestResult` and `IntervalAfter` |
| `Script.BackgroundScript.HandleNotificationClick` | background.js:246-272 | the new state and the outcome are `Click` of the old state |

## Left out

- Desktop notification display and clear, `browser.tabs.create`, `browser.windows.update` and `browser.storage` are external I/O and are not modelled. A click's model assumes that `browser.notifications.clear` (background.js:248), `browser.tabs.create` (background.js:257) and `browser.windows.update` (background.js:258) all succeed. When any of them throws, the source skips the mark-read request and the read-cache write, and the model does not cover that case.
- The "not configured" alert that `getAccessToken` shows is I/O. Only the failure it causes is modelled (`MissingToken`).
- `setInterval`, `start`'s listener registration and the browser-action trigger are scheduling, not decision logic.
- The concurrent, fire-and-forget callbacks of `forEach`: the model runs each notification's callback to completion, in list order. For distinct ids, order does not matter (`Properties.StepsCommute`). Two entries with the same id in one batch could both pass the "already shown" check before either write lands; the sequential model shows that id once.
- The `since` timestamp (`Date.now`, the 4-day window, `toISOString`) and the mark-read request's `now` are plain string inputs.
- `response.json()` is left out. The list and the PR's `state` are inputs, and a JSON parsing error is not modelled.
- `parseInt` of the header is left out. The hint arrives already parsed as integer seconds, with None for a missing, empty or non-numeric header. All of those leave the interval unchanged in the source too.
- `console` logging and the `zeroNotifications` flag, which only feeds a log line.
- The URL of the pull-request lookup (`Classifier.PullRequestApiUrl`) is passed to the request but not used to choose the lookup's answer. That answer is an input.
- Cache keys are strings compared as such. JavaScript object lookups that hit inherited properties (an id such as "constructor") are not modelled.
- `options/options.js` is form and storage plumbing with an empty validation stub and is not part of this model.
