# Epoch Buddy core, modelled in Dafny

Epoch Buddy is a mobile app. It connects a Solana wallet, shows a live
countdown to the end of the current epoch, sums the wallet's native stake,
and schedules local reminders shortly before an epoch ends. Most of the
repository is UI, RPC and storage glue. This project models the small
pieces of logic underneath that glue:

- **Reminder scheduler** (`epoch_notifications.dfy`, module
  `EpochNotifications`). The class `EpochReminders` holds the module-level
  `scheduledIds` list. It works over a `NotificationPlatform` class, which
  stands for the local notification service: the reminders it has pending,
  a generator of fresh handles, and a record of every call the app made.
  `Clear` cancels every recorded id. `ScheduleReminders` first cancels
  every recorded id, then schedules at most two reminders (`Plan`), then
  records exactly the new ids. The list lives only in memory, so when the
  module is loaded after an app restart it is empty. Reminders the earlier
  run scheduled may still be pending on the platform. The class keeps them
  as `leftover`, and no operation of the module ever cancels them. The
  object invariant `Valid` says there are no orphans of the current run:
  every pending reminder is either one of the recorded ids or a leftover.
- **Countdown clock** (`epoch_countdown.dfy`, module `EpochCountdown`). This
  is the countdown hook without React. Its five state cells form a
  `ClockState`. The event semantics is `Step`: a fetch starts, a fetch
  answers, a one-second tick, a manual refresh, teardown. The class
  `CountdownClock` updates the cells in place, and each method is tied to
  `Step`. Effect runs are numbered, and a fetch carries the number of the
  run that started it. A fetch is "alive" when the hook is still mounted and
  its run is still the current one.
- **Epoch estimator and formatter** (`epoch.dfy`, module `Epoch`). This is
  the arithmetic of `fetchEpochStatus` once both RPC answers have arrived:
  seconds per slot with its 0.4 s fallback, remaining slots, and the rounded
  ETA. It also holds `formatHMS`, with a parser (`ParseHMS`) that reads the
  formatted text back. `decimal.dfy` (module `Decimal`) renders integers the
  way JavaScript's `String(n)` does, and parses them back.
- **CORS proxy router** (`cors_proxy.dfy`, module `CorsProxy`). The worker's
  `fetch` handler is a total function from a request, plus an upstream
  function, to a response. `RouteOf` is its ordered chain of checks.
- **Stake deduplication** (`native_stake.dfy`, module `NativeStake`).
  `TotalStakedLamports` works like the source: it fills a map from both
  account lists, where the later write wins, and adds up the map's values.
  Its result equals `SumValues(Merged(...))`.
- **Address validators and dispatch** (`connect_wallet.dfy`, module
  `ConnectWallet`). This module holds the two regular-expression predicates
  and `toPubkeyBase58`, which works on a datatype of JavaScript values. The
  Base58 encoder, the Base64 decoder and number conversion are passed in as
  functions. It also holds the platform guard of `connectWallet`.
- **Address shortener** (`wallet_ui.dfy`, module `WalletUi`).

`wrappers.dfy` holds the `Option` and `Result` datatypes.

Everything with an effect is an input or a parameter:

- the RPC answers (`EpochInfo`, `PerfSample`, `StakeAccount` lists, the
  `Result` of a fetch);
- the upstream call of the proxy (`UpstreamRequest -> UpstreamReply`);
- `bs58.encode`, `Buffer.from(s, "base64")` and JavaScript's number
  conversion of array elements that are not numbers, booleans, null or
  undefined (`AddressCodec`);
- the operating system (`platformOs`);
- the accounts returned by the wallet session;
- the notification service (the `NotificationPlatform` class).

Points where the code's behaviour is easy to misread, and which the model
follows as written:

- A failed fetch sets `status` to null, so the tick stops
  (`src/hooks/useEpochCountdown.ts:37`). The countdown does not keep running
  on the last estimate.
- Seconds per slot divides the summed sample period by the summed slot
  count over all samples, and checks only that both sums are positive
  (`src/solana/epoch.ts:20-22`). It does not first drop the invalid
  samples.
- The code has no debounce, no in-flight lock, no rate-limit backoff, no
  permission check before scheduling, and no persistence of reminder ids
  across restarts. The ids live only in memory. None of these is modelled.
- Both flags off is not a separate early return in the code. The two
  conditions just fail, and `scheduledIds` is set to the empty list
  (`src/notifications/epochNotifications.ts:21-47`).

## Model

| member | source | states |
|---|---|---|
| `EpochNotifications.EpochReminders.constructor` | src/notifications/epochNotifications.ts:3 | the recorded list starts empty over any platform state; whatever is pending then is recorded as leftover from an earlier run |
| `EpochNotifications.EpochReminders.Clear` | src/notifications/epochNotifications.ts:5-10 | one cancel call per recorded id, in order; afterwards nothing is recorded; exactly the recorded reminders stop being pending, so only leftovers remain; no handle is created |
| `EpochNotifications.Without` | src/notifications/epochNotifications.ts:6-8 | after cancelling a list of handles, a reminder is pending iff it was pending before and its handle is not in the list, and its content is unchanged |
| `EpochNotifications.EpochReminders.ScheduleIf` | src/notifications/epochNotifications.ts:25-34 | when the guard holds, one scheduling call under a fresh handle, which is appended to the new ids; otherwise nothing happens |
| `EpochNotifications.EpochReminders.SchedulePlanned` | src/notifications/epochNotifications.ts:23-45 | the two guarded blocks create exactly the planned reminders, in plan order, under fresh consecutive handles; what was pending before stays pending unchanged, and nothing else becomes pending |
| `EpochNotifications.EpochReminders.ScheduleReminders` | src/notifications/epochNotifications.ts:12-49 | the platform sees all recorded ids cancelled before any new reminder is created; the new ids are fresh, one per planned reminder in plan order; each is pending with its planned content; reminders that were pending but not recorded stay pending unchanged; nothing else is pending; the recorded list equals the returned list |
| `EpochNotifications.PlanOneHour` | src/notifications/epochNotifications.ts:25-34 | the one-hour reminder is planned iff `notifyAtOneHour && eta > 3600`, comes first, and has delay `eta - 3600` |
| `EpochNotifications.PlanEnd` | src/notifications/epochNotifications.ts:36-45 | the end reminder is planned iff `notifyAtEnd && eta > 5`, comes last, and has delay `eta` |
| `EpochNotifications.PlanShape` | src/notifications/epochNotifications.ts:23-45 | at most two reminders and no other kind; when both are present the one-hour reminder is before the end reminder; both flags off plans nothing |
| `EpochNotifications.PlanBoundaries` | src/notifications/epochNotifications.ts:25-42 | eta 3601 gives a one-hour reminder with a 1 s delay and eta 3600 gives none; eta 6 gives an end reminder with a 6 s delay and eta 5 gives none |
| `EpochNotifications.RescheduleTwice` | src/notifications/epochNotifications.ts:20-48 | two identical calls record the same number of ids; none of the first call's ids is still pending or reused; what is pending is exactly the second call's ids plus the reminders that were pending unrecorded before the first call |
| `EpochNotifications.DisableAll` | src/notifications/epochNotifications.ts:21-47 | with both flags off the result is empty and nothing is recorded; exactly the recorded reminders are cancelled, so only leftovers from an earlier run can still be pending |
| `EpochNotifications.RestartLeavesEarlierReminder` | src/notifications/epochNotifications.ts:3-48 | after a restart, a reminder scheduled by the earlier run is still pending with its content after `scheduleEpochNotifications`; it is not among the new ids, which are one per planned reminder, each pending with its planned content |
| `EpochNotifications.RestartDisableKeepsEarlierReminder` | src/notifications/epochNotifications.ts:3-47 | after a restart, turning both flags off leaves the earlier run's reminder pending |
| `EpochNotifications.OneHourReminder` | src/notifications/epochNotifications.ts:26-32 | the one-hour reminder's content and trigger; its properties are `ReminderContents` and `PlanOneHour` |
| `EpochNotifications.EndReminder` | src/notifications/epochNotifications.ts:37-43 | the end reminder's content and trigger; its properties are `ReminderContents` and `PlanEnd` |
| `EpochNotifications.ReminderContents` | src/notifications/epochNotifications.ts:26-43 | both reminders use the "epoch" channel and have different titles; the one-hour reminder is due exactly 3600 s before the end reminder, which is due at the ETA; each body names the epoch, so bodies are equal iff the epochs are |
| `EpochNotifications.Plan` | src/notifications/epochNotifications.ts:23-45 | the reminders one call creates, in creation order; its properties are `PlanOneHour`, `PlanEnd`, `PlanShape` and `PlanBoundaries` |
| `EpochNotifications.NotificationPlatform.Schedule` | src/notifications/epochNotifications.ts:26-32 | the platform hands out a handle never used before and marks the reminder pending |
| `EpochNotifications.NotificationPlatform.Cancel` | src/notifications/epochNotifications.ts:7 | cancelling removes the handle from the pending reminders; an unknown handle is ignored |
| `EpochNotifications.NotificationPlatform.Deliver` | src/notifications/epochNotifications.ts:31 | platform behaviour, not app code: a reminder whose delay has run out fires and stops being pending, and the app's call record is untouched |
| `EpochCountdown.Step` | src/hooks/useEpochCountdown.ts:25-56 | the event semantics of the hook's state cells; its properties are the lemmas below |
| `EpochCountdown.InitialState` | src/hooks/useEpochCountdown.ts:10-15 | initially status is null, eta 0, error null, secondsSinceUpdate 0, refreshTick 0 |
| `EpochCountdown.FetchStartClearsError` | src/hooks/useEpochCountdown.ts:25-27 | a fetch start clears the error and changes nothing else |
| `EpochCountdown.FetchSuccess` | src/hooks/useEpochCountdown.ts:28-33 | a live success sets status to s, eta to `s.etaSeconds` and secondsSinceUpdate to 0 |
| `EpochCountdown.FetchFailure` | src/hooks/useEpochCountdown.ts:34-38 | a live failure sets the error message and a null status; eta and secondsSinceUpdate are unchanged; a later tick changes nothing |
| `EpochCountdown.StaleAnswerIgnored` | src/hooks/useEpochCountdown.ts:29-35 | an answer to a fetch that is no longer alive leaves the whole state unchanged |
| `EpochCountdown.RefreshRetiresEarlierFetches` | src/hooks/useEpochCountdown.ts:18-48 | a refresh raises refreshTick by exactly 1 and re-runs the fetch (error cleared); answers to fetches started before it are ignored |
| `EpochCountdown.TickNeedsStatus` | src/hooks/useEpochCountdown.ts:50-56 | without a status a tick changes nothing; with one it sets eta to `max(0, eta - 1)` and adds 1 to secondsSinceUpdate |
| `EpochCountdown.TicksCountDown` | src/hooks/useEpochCountdown.ts:53-56 | after n ticks from eta e ≥ 0, eta is `max(0, e - n)`, secondsSinceUpdate has grown by n, and nothing else changed |
| `EpochCountdown.TicksExamples` | src/hooks/useEpochCountdown.ts:53-56 | eta 10 after 3 ticks is 7 with secondsSinceUpdate 3; eta 2 after 5 ticks is 0 |
| `EpochCountdown.TornDownIsFinal` | src/hooks/useEpochCountdown.ts:44-47 | after teardown no sequence of events, fetch answers included, changes the state |
| `EpochCountdown.EtaNeverNegative` | src/hooks/useEpochCountdown.ts:31-56 | from a non-negative eta, any sequence of events whose statuses have non-negative estimates keeps eta non-negative |
| `EpochCountdown.CountdownClock.constructor` | src/hooks/useEpochCountdown.ts:10-15 | the cells start at their `useState` initial values |
| `EpochCountdown.CountdownClock.StartFetch` | src/hooks/useEpochCountdown.ts:25-27 | the new state is `Step` of the fetch start, and the ticket is the current effect run |
| `EpochCountdown.CountdownClock.FinishFetch` | src/hooks/useEpochCountdown.ts:28-38 | the new state is `Step` of the fetch answer |
| `EpochCountdown.CountdownClock.OnTick` | src/hooks/useEpochCountdown.ts:50-56 | the new state is `Step` of a tick |
| `EpochCountdown.CountdownClock.DoRefresh` | src/hooks/useEpochCountdown.ts:18-20 | the new state is `Step` of a refresh, and the returned ticket belongs to the new effect run |
| `EpochCountdown.CountdownClock.Unmount` | src/hooks/useEpochCountdown.ts:44-47 | the new state is `Step` of teardown |
| `Epoch.TotalSlots` | src/solana/epoch.ts:20 | the `reduce` over `numSlots ?? 0`; characterised in `TotalsAppend` and `TotalsOfOne` |
| `Epoch.TotalSecs` | src/solana/epoch.ts:21 | the `reduce` over `samplePeriodSecs ?? 0`; characterised in `TotalsAppend` and `TotalsOfOne` |
| `Epoch.TotalsAppend` | src/solana/epoch.ts:20-21 | both sums of a concatenation are the sums of its parts, so every sample counts once, in any position |
| `Epoch.TotalsOfOne` | src/solana/epoch.ts:20-21 | a single sample contributes its field, and a missing field contributes 0 |
| `Epoch.SecsPerSlot` | src/solana/epoch.ts:17-23 | always positive; 0.4 with no samples or when either sum is not positive; otherwise it times the summed slots equals the summed seconds, with missing fields counted as 0 |
| `Epoch.RemainingSlots` | src/solana/epoch.ts:25 | never negative; 0 exactly when `slotIndex >= slotsInEpoch`, otherwise the difference |
| `Epoch.Round` | src/solana/epoch.ts:26 | the result is within half a unit of its argument, with halves rounded up |
| `Epoch.EtaSeconds` | src/solana/epoch.ts:26 | non-negative when the remaining slots are non-negative and the slot time is positive; 0 when no slots remain |
| `Epoch.EstimateStatus` | src/solana/epoch.ts:25-34 | `epoch`, `slotIndex` and `slotsInEpoch` are copied over; the ETA is never negative, is 0 once `slotIndex >= slotsInEpoch`, and is the rounded product of remaining slots and seconds per slot |
| `Epoch.EstimateWithoutSamples` | src/solana/epoch.ts:18-26 | with no samples, seconds per slot is 0.4 and the ETA is `round(remaining * 0.4)` |
| `Epoch.EstimateExample` | src/solana/epoch.ts:17-26 | two samples of 150 slots in 60 s give 0.4 s per slot, so 1000 slots left is 400 s |
| `Epoch.SplitHMS` | src/solana/epoch.ts:38-41 | after clamping at 0, `hh*3600 + mm*60 + ss` equals the input, with `mm < 60` and `ss < 60` |
| `Epoch.FormatHMS` | src/solana/epoch.ts:37-44 | `formatHMS` on integer seconds; its properties are `FormatHMSFields`, `FormatHMSShape`, `FormatHMSRoundTrip` and `FormatHMSExamples` |
| `Epoch.FormatHMSFields` | src/solana/epoch.ts:39-43 | the output's fields are the hours and two padded fields when hh > 0, and otherwise the minutes and one padded field |
| `Epoch.FormatHMSShape` | src/solana/epoch.ts:43 | the output has the `h:mm:ss` form iff the input is at least 3600, and `m:ss` otherwise; padded fields have exactly two digits |
| `Epoch.FormatHMSRoundTrip` | src/solana/epoch.ts:37-44 | parsing the output gives back the input clamped at 0 |
| `Epoch.FormatHMSExamples` | src/solana/epoch.ts:37-44 | `formatHMS(0)` and `formatHMS(-42)` are "0:00", 65 is "1:05", 3661 is "1:01:01" |
| `Decimal.NatToString` | src/solana/epoch.ts:42 | `String(n)` for a natural number: only digits, one digit exactly below 10, and no leading zero unless n is 0 |
| `Decimal.DigitsValueOfNatToString` | src/solana/epoch.ts:42 | reading back the decimal rendering `String(n)` gives n |
| `Decimal.IntToString` | src/notifications/epochNotifications.ts:29 | `${epoch}` for an integer: a leading '-' iff negative, then digits without a leading zero for a negative value, digits only otherwise |
| `Decimal.IntToStringRoundTrip` | src/notifications/epochNotifications.ts:29 | reading the rendering back, sign included, gives the integer |
| `Decimal.IntToStringInjective` | src/notifications/epochNotifications.ts:40 | two integers have the same rendering iff they are equal |
| `Decimal.Pad2` | src/solana/epoch.ts:42 | `padStart(2, "0")` keeps the value, gives only digits, and has exactly two characters below 100 |
| `CorsProxy.CorsHeaders` | src/index.ts:3-10 | `access-control-allow-origin` is the origin when present and "*" otherwise; exactly the four CORS headers |
| `CorsProxy.RouteOf` | src/index.ts:16-36 | the worker's ordered chain of checks; characterised branch by branch in `RouteClassification` |
| `CorsProxy.RouteClassification` | src/index.ts:16-36 | each branch described on its own: OPTIONS on any path is preflight; GET "/" is health; a non-OPTIONS request off "/rpc" that is not GET "/" is 404; "/rpc" with neither POST nor OPTIONS is 405; only POST "/rpc" is proxied |
| `CorsProxy.RouteOrderExamples` | src/index.ts:17-36 | POST "/" is 404, GET "/rpc" is 405, OPTIONS anywhere is preflight, HEAD "/" is 404 |
| `CorsProxy.Forwarded` | src/index.ts:38-44 | the upstream request is a POST to the Solana RPC URL carrying the request body unchanged |
| `CorsProxy.Handle` | src/index.ts:13-56 | every response carries every CORS header with its value |
| `CorsProxy.HandleLocalAnswers` | src/index.ts:17-36 | OPTIONS gives 204 with a null body; GET "/" gives 200 "ok" with `cache-control: no-store`; the 404 case gives 404 "not found" and the 405 case 405 "method not allowed"; a request that is not proxied does not depend on the upstream |
| `CorsProxy.HandleRelaysUpstream` | src/index.ts:38-55 | POST "/rpc" returns the upstream status and text unchanged, with the JSON content type and `cache-control: no-store` |
| `NativeStake.Store` | src/portfolio/nativeStake.ts:44-46 | the keys after a run of `map.set` are the old keys plus every account's public key |
| `NativeStake.Merged` | src/portfolio/nativeStake.ts:44-46 | the map after both `map.set` loops; characterised in `MergedValue` |
| `NativeStake.StoreLastWins` | src/portfolio/nativeStake.ts:45-46 | the value kept for a key is that of its last write |
| `NativeStake.MergedValue` | src/portfolio/nativeStake.ts:44-46 | for a key in the withdrawer list, that list's last entry decides; otherwise the staker list's last entry decides |
| `NativeStake.SumValuesRemove` | src/portfolio/nativeStake.ts:48-49 | the map sum equals any one key's value plus the sum of the rest, so the order of iteration does not matter |
| `NativeStake.TotalStakedLamports` | src/portfolio/nativeStake.ts:43-51 | the loops compute the sum of the merged map's values, each distinct key once |
| `NativeStake.SumOfValues` | src/portfolio/nativeStake.ts:48-49 | the loop over the map's values computes the sum of all values, whatever order the keys are taken in |
| `NativeStake.DuplicateAccountExample` | src/portfolio/nativeStake.ts:43-51 | the same account in both lists counts once (5, not 10) |
| `NativeStake.WithdrawerUpdateExample` | src/portfolio/nativeStake.ts:44-51 | when the withdrawer list has a newer balance for an account, that balance is the one counted |
| `NativeStake.EmptyListsTotalZero` | src/portfolio/nativeStake.ts:48-51 | two empty lists give 0 |
| `NativeStake.TotalBounds` | src/portfolio/nativeStake.ts:44-49 | with non-negative balances the total is at least 0 and at most the sum over both raw lists |
| `ConnectWallet.Base58CharInAlphabet` | src/solana/connectWallet.ts:7-8 | a character is in the regex's class iff it is in the 58-character Bitcoin alphabet |
| `ConnectWallet.Base58CharIsAlphanumericButLookalikes` | src/solana/connectWallet.ts:7-8 | the regex's class is exactly the ASCII letters and digits without '0', 'O', 'I' and 'l' |
| `ConnectWallet.IsLikelyBase58` | src/solana/connectWallet.ts:6-9 | the regular expression `^[1-9A-HJ-NP-Za-km-z]+$`; characterised in `IsLikelyBase58Alphabet` |
| `ConnectWallet.IsLikelyBase64` | src/solana/connectWallet.ts:11-14 | the regular expression plus the length test; characterised in `IsLikelyBase64Shape` |
| `ConnectWallet.ToPubkeyBase58` | src/solana/connectWallet.ts:16-48 | the shape dispatch, in source order; characterised in the five lemmas below |
| `ConnectWallet.IsLikelyBase58Alphabet` | src/solana/connectWallet.ts:6-9 | `isLikelyBase58` holds iff the string is non-empty and every character is in the Base58 alphabet |
| `ConnectWallet.Base58RejectsLookalikes` | src/solana/connectWallet.ts:7-8 | the alphabet has 58 characters in increasing order, and '0', 'O', 'I' and 'l' are not among them |
| `ConnectWallet.TrailingPads` | src/solana/connectWallet.ts:13 | counts the '=' run at the end of the string, which stops at the first other character |
| `ConnectWallet.PadsFollowBody` | src/solana/connectWallet.ts:13 | in a string of the regex's shape, the pad run starts exactly where the body ends |
| `ConnectWallet.IsLikelyBase64Shape` | src/solana/connectWallet.ts:11-14 | `isLikelyBase64` holds iff the string is one or more Base64 characters, then at most two '=', and its length is divisible by 4 |
| `ConnectWallet.Base58IsBase64` | src/solana/connectWallet.ts:8-13 | every Base58-looking string whose length is divisible by 4 is also Base64-looking |
| `ConnectWallet.ToUint8` | src/solana/connectWallet.ts:25 | the element conversion of `Uint8Array.from`; characterised in `ToUint8Wraps` |
| `ConnectWallet.ToUint8Wraps` | src/solana/connectWallet.ts:25-31 | a number becomes itself modulo 256: a byte value is kept, values 256 apart give the same byte, -1 gives 255; `true` is 1; `false`, null and undefined are 0 |
| `ConnectWallet.ObjectTag` | src/solana/connectWallet.ts:47 | `Object.prototype.toString.call`: the tag has the form `[object T]` |
| `ConnectWallet.Message` | src/solana/connectWallet.ts:43-66 | the four error texts of lines 43, 47, 52 and 66; characterised in `MessagesIdentifyErrors` and `UnsupportedShapes` |
| `ConnectWallet.MessagesIdentifyErrors` | src/solana/connectWallet.ts:43-66 | two errors have the same text iff they are the same error, so the unsupported-type text determines its tag |
| `ConnectWallet.ToBytes` | src/solana/connectWallet.ts:25-31 | `Uint8Array.from` keeps the length and converts each element modulo 256 |
| `ConnectWallet.Base58StringUnchanged` | src/solana/connectWallet.ts:35-36 | a string that passes `isLikelyBase58` is returned unchanged |
| `ConnectWallet.OtherStringDecoded` | src/solana/connectWallet.ts:38-44 | any other string is Base64-decoded and then Base58-encoded; if decoding throws, the result is the unknown-format error |
| `ConnectWallet.ByteShapesEncoded` | src/solana/connectWallet.ts:17-32 | Uint8Array, ArrayBuffer and arrays of numbers (the empty array included) are encoded from their bytes; any object with an array `data` property, whatever its other properties (the `{ type: "Buffer", data }` shape among them) and whatever the array's elements, is encoded from `Uint8Array.from(data)` |
| `ConnectWallet.UnsupportedShapes` | src/solana/connectWallet.ts:47 | undefined, null, booleans, numbers, arrays that are not all numbers, and objects without an array `data` field give "Unsupported address type: [object …]" |
| `ConnectWallet.ToPubkeyBase58Result` | src/solana/connectWallet.ts:16-48 | a success is the input string itself (when it is Base58-looking) or an encoder output; a failure is the unknown-format error (for strings only) or the unsupported-type error |
| `ConnectWallet.Connect` | src/solana/connectWallet.ts:50-69 | any platform other than android fails at once with the Android-only error; with no account it is the no-accounts error; otherwise the first account's address is converted |
| `WalletUi.ShortAddress` | src/ui/walletUi.ts:1-4 | "" maps to ""; otherwise the result has length `min(6,n) + 1 + min(4,n)`, starts with the first `min(6,n)` characters, has "…" at position `min(6,n)`, and ends with the last `min(4,n)` characters |
| `WalletUi.ShortAddressExample` | src/ui/walletUi.ts:1-4 | a 13-character address keeps its first six and last four characters; a 3-character one appears twice around the ellipsis |

## Left out

- The RPC calls `getEpochInfo`, `getRecentPerformanceSamples` and `getProgramAccounts`, the proxy's upstream `fetch`, the wallet's `transact`/`authorize` and `saveAuthToken` are I/O. They appear only as inputs or parameters. An upstream fetch that throws is not modelled: the source does not catch it.
- Timers: the 30 s poll and the 1 s interval are discrete events (`FetchStart`, `Tick`), not times. `Promise.all` in the fetch and in `clearEpochNotifications` runs its calls concurrently; the model runs them one by one, in list order.
- A change of `rpcUrl`, which also re-runs the fetching effect, is not modelled separately. It has the same effect on alive status as a refresh, minus the `refreshTick` bump.
- Exceptions from `scheduleNotificationAsync` or `cancelScheduledNotificationAsync` are not modelled. In the source, a failing cancel leaves `scheduledIds` stale. A throw from the second `scheduleNotificationAsync` has a different effect. By then `scheduledIds` is already empty, and the one-hour reminder just scheduled stays pending without being recorded, so no later call cancels it. Overlapping async calls of `scheduleEpochNotifications` are not modelled either. The model is sequential.
- Reminder delivery is the platform's own business. `NotificationPlatform.Deliver` exists only so that the invariant says pending ⊆ recorded ∪ leftover, not equality.
- The platform model numbers its handles consecutively, while the real service returns opaque strings. `NotificationPlatform.Schedule` and the helper predicate `Created` behind `ScheduleIf` and `SchedulePlanned` state this consecutive numbering. The public contracts of `ScheduleReminders`, `RescheduleTwice` and `DisableAll` state only that a new handle has never been used before.
- The notification `content`/`trigger` objects become a flat `Reminder` record: title, body, delay and channel.
- `secsPerSlot` is a Dafny `real`, not an IEEE-754 double. `Math.round` is `Floor(x + 0.5)`. Sample fields and epoch numbers are integers.
- `formatHMS` is modelled on integer input. JavaScript would also accept fractional seconds.
- Decimal rendering is plain digits for every integer. JavaScript switches to exponent notation from 10^21.
- `shortAddress` works on Dafny characters, not on UTF-16 code units. Base58 addresses are ASCII, so the two agree.
- `toPubkeyBase58` works on a closed datatype of JavaScript values. Typed arrays other than `Uint8Array`, class instances and arrays with a `data` property are not among them. `Object.prototype.toString` tags are given for the modelled kinds only.
- `isLikelyBase64` is modelled and proved, but the source never calls it. The Base64 branch of `toPubkeyBase58` decodes any string that is not Base58-looking.
- `TotalStakedLamports` adds up the map's values in an arbitrary key order, while JavaScript iterates in insertion order. It sums with unbounded integers. JavaScript's `total += lamports` is a double addition, which is exact and independent of order only while every partial sum stays below 2^53 lamports (about 9 million SOL). Above that the source rounds and the model does not.
- `JsNumber` holds an integer. A fractional number, NaN or ±Infinity also passes `typeof n === "number"`. `Uint8Array.from` truncates the first toward zero and turns the others into 0. The model does not represent these values.
- `EpochCountdown.TicksCountDown` is stated only for a non-negative starting eta. The hook only reaches such states (`EtaNeverNegative`). From a negative eta, zero ticks leave it negative, while one tick already clamps it to 0.
- The screens, the layout, haptics and permission prompts are UI and are not modelled. So are the secure-storage session, the RPC connection singleton, the SOL and SKR balance wrappers, and the logo export script.
