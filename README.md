# Letterboxd recommender web client — submit, poll and hand off

A model of the client side of the Letterboxd recommender. The home page copies its four
form values (username, training data size, popularity filter, data opt-in) into a request
to `/api/get_recs`. The reply names two backend jobs, and the page polls `/api/results`
with that job pair:

- a 202 reply schedules one more poll after 1000 ms;
- a 200 reply whose `result` is an array stores that list in localStorage under
  `movieRecommendations` and navigates to `/recommendations`;
- anything else (a network error, an unreadable body, a 200 without a result array, any
  other status) stops the polling and clears the loading flag.

The recommendations page reads that slot once when it mounts and removes it. It then
renders one card per film, in the stored order. Each card's image is
`https://a.ltrbxd.com/resized/<image_url>.jpg`.

Every fetch response is an input. The poll loop is driven by a finite script of responses:
the i-th poll gets the i-th response. Over a finite script the model reports where the
polling stopped, and it adds no timeout.

Files:

- `movies.dfy`: the film item and `Option`.
- `browser_storage.dfy`: localStorage as a class over a map, and the slot's read-once model `TakeOnce`.
- `home_page.dfy`: the form and its parameters, the response shapes, `Classify`, the loop
  function `PollLoop`, the whole-submission function `Flow`, and the `Home` class.
- `recommendations_page.dfy`: the card projection and the `Recommendations` class.
- `end_to_end.dfy`: one concrete submission followed by two mounts of the recommendations page.

`Home` has one event method per thing the browser can deliver: the submit event, the submit
fetch settling, a poll fetch settling, and the retry timer firing. `HandleSubmit` runs one
whole submission through those events. Its postcondition equates the page's new state with
`Flow`. The properties are proved about `Flow` and `PollLoop`.

Behaviour of the code that a reader might not expect:

- A submit reply with `ok` set but without job ids is not a submission error. The code
  destructures the missing ids as `undefined` and polls with them; `JobIds` holds `Option`s for this.
- The username is not trimmed or validated. Only the HTML `required` attribute guards it:
  an empty username blocks the submit, but a username of only spaces is sent.
- There is no attempt limit or timeout. A script of only 202 replies leaves the page polling,
  with one poll in flight.
- Failures are not surfaced as typed errors. The page logs them and clears `isLoading`.
  `FailureReason` names the poll failures, but the `Home` class drops the reason.
- After success `isLoading` stays true. The page navigates away and never resets it.

## Model

| member | source | states |
|---|---|---|
| `HomePage.BuildParams` | app/page.tsx:27-32 | the request has exactly the keys username, training_data_size, popularity_filter, data_opt_in |
| `HomePage.ParamsRoundTrip` | app/page.tsx:27-32 | every form value can be read back unchanged from the request built from it |
| `HomePage.ParamsCarryNothingElse` | app/page.tsx:27-32 | a parameter object with exactly those four keys, all of the right kind, is the one built from the form it encodes |
| `HomePage.SubmitJobIds` | app/page.tsx:38-46 | the submit step yields a job pair iff the fetch resolved, `ok` was set and the body was readable; the pair is the body's two ids, missing ones included |
| `HomePage.Classify` | app/page.tsx:53-67 | 202 means pending whatever the body; 200 with an array `result` means ready with exactly that list; 200 with a missing or non-array result is an invalid-format failure; any other status fails with that status |
| `HomePage.PollLoop` | app/page.tsx:49-72 | the loop stops at the first response that is not 202, with that response's outcome, after consuming exactly up to it; it is still polling iff every response is 202, having consumed the whole script |
| `HomePage.PollLoopEndsAt` | app/page.tsx:53-67 | if response k is the first that is not 202, the loop ends there with k responses consumed |
| `HomePage.PollLoopIgnoresLaterResponses` | app/page.tsx:53-71 | after a terminal response no further poll happens: appending responses changes nothing |
| `HomePage.Flow` | app/page.tsx:21-80 | a failed submit sends no poll, stores nothing, does not navigate and clears loading; every poll carries the submit's job pair; loading ends iff a step failed; storage gets exactly the result list and the route is `/recommendations` iff a poll succeeded, and storage is unchanged otherwise; there is one poll per attempt |
| `HomePage.FlowIgnoresLaterResponses` | app/page.tsx:59-71 | once the submission has succeeded or failed, more responses change nothing |
| `HomePage.FlowAfterPending` | app/page.tsx:63-64 | a 202 reply changes nothing but adds one poll with the same job pair and one consumed response |
| `HomePage.Home.constructor` | app/page.tsx:14-18 | the form starts as "", 500000, -1, false, not loading, nothing in flight |
| `HomePage.Home.SetUsername` | app/page.tsx:100 | only the username changes |
| `HomePage.Home.SetPerformanceRatio` | app/page.tsx:128 | only the training data size changes |
| `HomePage.Home.SetPopularityThreshold` | app/page.tsx:161 | only the popularity filter changes |
| `HomePage.Home.SetContributeRatings` | app/page.tsx:178 | only the opt-in flag changes |
| `HomePage.Home.Submit` | app/page.tsx:21-32 | while loading (the disabled button, line 190) or with an empty username (the `required` input, line 103) no submit is delivered and nothing changes; otherwise loading starts and the request is built from the current form |
| `HomePage.Home.OnSubmitResponse` | app/page.tsx:42-79 | a failed submit clears loading and issues no poll; a successful one records the job pair and sends exactly one poll with it |
| `HomePage.Home.OnPollResponse` | app/page.tsx:50-71 | 202 schedules exactly one retry after 1000 ms, keeps loading and stores nothing; ready stores the list under `movieRecommendations` and navigates; a failure clears loading; the job pair and the poll log do not change |
| `HomePage.Home.OnRetryTimer` | app/page.tsx:64 | the timer sends one more poll with the same job pair |
| `HomePage.Home.HandleSubmit` | app/page.tsx:21-80 | one submission from an idle page with a non-empty username leaves the page, storage, route, job pair and poll log as `Flow` says; the request is built from the form; the page's invariant (loading iff not idle, at most one attempt pending, a single job pair per submission) holds throughout |
| `BrowserStorage.LocalStorage.SetItem` | app/page.tsx:57 | the key now holds the value, overwriting any earlier value; other keys are unchanged |
| `BrowserStorage.LocalStorage.GetItem` | app/recommendations/page.tsx:11 | returns the stored value iff the key is present |
| `BrowserStorage.LocalStorage.RemoveItem` | app/recommendations/page.tsx:15 | the key is gone and the other keys are unchanged |
| `BrowserStorage.TakeOnce` | app/recommendations/page.tsx:10-17 | a present slot yields its list and is removed, other keys untouched; an absent slot yields the empty list and storage is unchanged |
| `BrowserStorage.TakeTwiceFindsNothing` | app/recommendations/page.tsx:14-17 | after one read a second read finds nothing and changes nothing |
| `BrowserStorage.LastStoreWins` | app/page.tsx:57 | a store followed by a read returns the last stored list; an unread earlier store is overwritten |
| `RecommendationsPage.CardOf` | app/recommendations/page.tsx:25-39 | the image source is the image host path, then the item's `image_url`, then `.jpg`; key, alt text, title, year and rating are the item's own |
| `RecommendationsPage.Cards` | app/recommendations/page.tsx:24-45 | one card per item, the i-th card being the i-th item's |
| `RecommendationsPage.CardsOfConcatenation` | app/recommendations/page.tsx:24 | rendering keeps the order: the cards of a concatenation are the concatenated cards |
| `RecommendationsPage.Recommendations.constructor` | app/recommendations/page.tsx:8 | the list starts empty |
| `RecommendationsPage.Recommendations.Rendered` | app/recommendations/page.tsx:24 | the page renders one card per stored item |
| `RecommendationsPage.Recommendations.MountEffect` | app/recommendations/page.tsx:10-17 | a stored list becomes the page's list and the slot is removed; with nothing stored the list and storage stay as they were |

## Left out

- JSX rendering, styling and the Card, Slider, Checkbox and Tooltip components are not modelled.
- The slider bounds and steps are not modelled. The widgets enforce them, and this code never checks them.
- Real HTTP, real timers and `router.push` are not modelled. Fetch results are inputs, the
  1000 ms timer is the `RetryScheduled` phase plus the `OnRetryTimer` event, and the route is `navigatedTo`.
- The request is modelled as the parameters object. URLSearchParams encoding and the URL
  text of the poll request are not modelled, so the poll request is its job pair.
- JSON.stringify and JSON.parse are not modelled. They are taken as the identity on the item list.
  The mount effect's truthiness test on the stored string is therefore read as "a value is present";
  the stored JSON text of an array is never empty.
- Arbitrary JSON is not modelled. Array elements of a result are taken to be well-formed items.
- A throwing `localStorage.setItem` is not modelled; it would fail like a bad poll.
- Against a closed script, the model states outcomes and adds no timeout. The code has no
  timeout and no cancellation. If the home page is torn down mid-poll, the scheduled retry
  still runs; that is not modelled.
- `RecommendationsPage.CardOf` does not model `predicted_rating.toFixed(2)`, which is floating-point
  formatting. The card carries the raw rating.
- `app/layout.tsx` is not modelled. It holds only static metadata and a layout wrapper.
