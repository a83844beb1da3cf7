# Blog analytics: scroll milestones and the persistent user id

This project models the behavioural core of a small blog's client-side
analytics:

- **Scroll-depth milestones** (`src/ts/analytics/index.ts`). After a warm-up
  delay, the thresholds `[25, 50, 75, 90, 99]` are filtered down to those at or
  above the scroll percentage at that moment. A scroll listener then keeps a
  cursor into that list. On each notification the listener does one of three
  things. If the cursor is past the end, it removes itself. If the percentage
  is below the threshold at the cursor, it does nothing. Otherwise it sends
  exactly one page-scroll event carrying that threshold and advances the
  cursor by one. Only one threshold is sent per notification, even when the
  page jumped past several.
- **The user id** (`src/ts/utils/id-generator.ts`). `getUserId` returns the
  non-empty string stored under `msawicki.dev:user_id` in persistent storage.
  When that entry is missing or empty, it generates `'_'` followed by up to
  nine random base-36 characters, stores it under that key and returns it.

Files:

- `wrappers.dfy`: `Option`, for a storage entry that may be absent.
- `id_generator.dfy` (module `IdGenerator`): the storage as a class
  `LocalStorage` over a `map<string, string>`, and the method `GetUserId`. The
  method is proved against the specification function `GetOrCreate`, and
  idempotence and the frame are proved about that function.
- `events.dfy` (module `Events`): the event records and `EventSender`. The
  sender is a sink that records every event registered with it, in order.
- `analytics.dfy` (module `Analytics`): the initial filter `AtLeast` and
  `InitialBreakpoints`. The pure step function `React` and its fold `Run` over
  a run of notifications, with the lemmas about runs. The listener as the
  class `ScrollWatcher`, whose fields are `breakpoints`, `currentIndex` and
  `subscribed`. Its invariant `Valid` says that the thresholds of the scroll
  events it has sent are exactly `breakpoints[..currentIndex]`. Also the
  page-load wiring `AnalyticsInit` and `StartScrollWatch`.

The model has inputs in place of the browser:

- The scroll percentage of each notification, and the one read when watching
  starts, are `real` parameters.
- The referrer and URL read at send time are a `PageContext` parameter.
- `Math.random().toString(36)` is a string parameter `randomBase36`.
- `localStorage` is a `LocalStorage` object passed in.
- Registering and removing the scroll listener is the `subscribed` flag.

`EventSender` in `src/ts/analytics/event-sender.ts` defines only
`registerPageView`. The `registerPageScroll` that `index.ts:39` calls is not
defined in that file. The model gives the sender both operations, as
appending to its record of events.

## Model

| member | source | states |
|---|---|---|
| IdGenerator.Substr | src/ts/utils/id-generator.ts:16 | `substr(2, 9)` yields at most 9 characters, a contiguous slice from index 2, as long as the string allows; empty when the string is too short |
| IdGenerator.GenerateRandomId | src/ts/utils/id-generator.ts:15-17 | a generated id starts with `'_'`, so it is non-empty; it has at most 10 characters; the rest are the random string's characters from index 2 on |
| IdGenerator.LocalStorage.GetItem | src/ts/utils/id-generator.ts:4 | returns the stored string when the key is present, and None (`null`) exactly when it is absent |
| IdGenerator.LocalStorage.SetItem | src/ts/utils/id-generator.ts:10 | the storage afterwards is the old one with only `key` set to `value` |
| IdGenerator.GetOrCreate | src/ts/utils/id-generator.ts:3-12 | afterwards the storage holds the returned id under the key; the id is non-empty; a usable stored id is returned and the storage is left unchanged; otherwise the generated id is stored and returned; no other key is added, removed or changed |
| IdGenerator.GetUserId | src/ts/utils/id-generator.ts:3-12 | the id returned and the new storage are exactly those of `GetOrCreate` on the old storage, so every property proved about `GetOrCreate` holds of the method |
| IdGenerator.ReturnedIdIsUsable | src/ts/utils/id-generator.ts:4-11 | after any call, the storage holds the returned id under the key as a usable value |
| IdGenerator.GetOrCreateIdempotent | src/ts/utils/id-generator.ts:3-17 | a second call, with any random input, returns the first call's id and leaves the storage as the first call left it |
| IdGenerator.GetUserIdTwice | src/ts/utils/id-generator.ts:3-12 | two successive calls on one storage return the same id |
| Events.EventSender.constructor | src/ts/analytics/index.ts:5 | a new sender has sent nothing |
| Events.EventSender.RegisterPageView | src/ts/analytics/event-sender.ts:6-11 | appends exactly the given page-view event; scroll events are unchanged |
| Events.EventSender.RegisterPageScroll | src/ts/analytics/index.ts:39-44 | appends exactly the given page-scroll event; page views are unchanged |
| Analytics.AtLeast | src/ts/analytics/index.ts:17 | the filter keeps exactly the thresholds that are `>=` the initial percentage, so one equal to it is kept; the result is no longer than its input |
| Analytics.AtLeastKeepsAll | src/ts/analytics/index.ts:17 | when every threshold is at or above the initial percentage, the filter returns its input unchanged |
| Analytics.AscendingFilterIsSuffix | src/ts/analytics/index.ts:15-17 | on an ascending list the filter's result is a suffix of the list, in the original order, and every dropped threshold is below the initial percentage |
| Analytics.InitialBreakpoints | src/ts/analytics/index.ts:15-17 | the starting list is a suffix of `[25, 50, 75, 90, 99]`; it holds exactly the thresholds `>=` the initial percentage; every dropped one is below it; it is strictly ascending |
| Analytics.StartAtSixtyKeepsUpperThresholds | src/ts/analytics/index.ts:15-17 | starting at 60%, the list is `[75, 90, 99]` |
| Analytics.StartAtTopKeepsAllThresholds | src/ts/analytics/index.ts:15-17 | starting at 0%, the list is all five thresholds |
| Analytics.RunEmitsNextThresholds | src/ts/analytics/index.ts:26-46 | over any run of notifications the cursor stays within the list, and the thresholds sent are exactly the list between the start and end cursors, in order |
| Analytics.RunEmitsAtMostOnePerNotification | src/ts/analytics/index.ts:27-47 | a run of n notifications sends at most n events |
| Analytics.RunEmitsAscending | src/ts/analytics/index.ts:26-46 | on a strictly ascending list, the thresholds sent are strictly ascending, so none is sent twice |
| Analytics.JumpEmitsOnlyCursorThreshold | src/ts/analytics/index.ts:35-46 | a notification whose percentage has reached the threshold at the cursor sends only that threshold and advances the cursor by one, however many later thresholds it has also passed |
| Analytics.JumpToEightySendsOnlyFirstThreshold | src/ts/analytics/index.ts:35-46 | jumping from the top to 80% passes 25, 50 and 75, yet the one notification sends only 25 and moves the cursor to 1 |
| Analytics.ExhaustedSendsNothing | src/ts/analytics/index.ts:28-31 | once the cursor is past the end, notifications send nothing and leave the cursor alone, and any notification removes the listener |
| Analytics.RunConcat | src/ts/analytics/index.ts:27-48 | two batches of notifications run one after the other have the same effect as running them together |
| Analytics.RunUnsubscribesOnlyWhenExhausted | src/ts/analytics/index.ts:28-31 | the listener removes itself only when the cursor has passed the end of the list |
| Analytics.NothingSentAfterUnsubscribe | src/ts/analytics/index.ts:28-31 | after the listener has removed itself, later notifications send no further events |
| Analytics.SteadyScrollSendsEveryThreshold | src/ts/analytics/index.ts:15-46 | starting at 0% and scrolling through 0, 30, 60, 80, 95, 100 sends 25, 50, 75, 90, 99, each once, in order |
| Analytics.StartAtSixtyNeverSendsLowThresholds | src/ts/analytics/index.ts:15-46 | a watcher started at 60% never sends 25 or 50, whatever the later percentages are |
| Analytics.ScrollWatcher.constructor | src/ts/analytics/index.ts:24-48 | the cursor starts at 0, the listener is registered, and nothing has been sent |
| Analytics.ScrollWatcher.OnScroll | src/ts/analytics/index.ts:27-47 | keeps `Valid` (the scroll events sent are exactly `breakpoints[..currentIndex]`); the cursor advances by one exactly on a send; past the end the listener is removed and nothing is sent; below the threshold nothing is sent and storage is untouched; a send is one event carrying the threshold at the cursor, the user id from `getUserId`, and the current referrer and URL |
| Analytics.AnalyticsInit | src/ts/analytics/index.ts:4-11 | resolves the user id through `getUserId` and sends one page-view event with that id and the current referrer and URL; no scroll event is sent |
| Analytics.StartScrollWatch | src/ts/analytics/index.ts:14-20 | the watcher starts on `InitialBreakpoints` of the percentage at that moment, with cursor 0 and the listener registered |

## Left out

- `getScrollPercent` (src/ts/analytics/index.ts:52-58) is floating-point division over DOM metrics, so the percentage is an input. Its NaN and Infinity results are not modelled. These arise when the page is no taller than the viewport. IEEE comparisons with NaN are false, so the source would keep no threshold when the starting percentage is NaN. It would send an event when a later percentage is NaN. This model's `real` has neither value.
- The 1000 ms `setTimeout` (src/ts/analytics/index.ts:14-20) is not modelled as time. `AnalyticsInit` covers lines 4-11 and `StartScrollWatch` covers the timer callback.
- `document.addEventListener` / `removeEventListener` (src/ts/analytics/index.ts:29, 48) become the `subscribed` flag. The browser delivers no notifications to a removed listener. The model allows further `OnScroll` calls, and they change nothing.
- `console.log` (src/ts/analytics/index.ts:25) is output only.
- The network request of `EventSender` (src/ts/analytics/event-sender.ts:6-11) is not modelled: the URL, the misspelt `page-vew` path, the JSON body and the returned promise. The sender only records events. Network failures are therefore not modelled either.
- `Math.random()` is an input string. That two generated ids differ, or that an id generated after the storage is cleared differs from the old one, cannot be stated without a model of randomness.
- Storage that throws (private browsing, quota) is not modelled. The source does not catch it.
- src/ts/analytics/analytics.ts and src/index.ts are a stale duplicate initialisation and the bundle entry point. webpack.common.js is build configuration. None of them is part of this model.
- The event interfaces extend a `BaseEvent` that is not part of this model. The event records carry only the fields the source sets.
- IdGenerator.GetUserId: the storage is assumed to have no other writer, between the read (src/ts/utils/id-generator.ts:4) and the write (:10) and between two calls. Browser storage is shared by every tab of the site and `getUserId` takes no lock. Two tabs starting on empty storage can each generate and store an id, and the last write wins. The losing tab's next call (src/ts/analytics/index.ts:40) then returns the other tab's id, so its page view and its scroll events carry different user ids. `GetOrCreate`, `ReturnedIdIsUsable`, `GetOrCreateIdempotent` and `GetUserIdTwice` hold only for storage that nothing else writes.
