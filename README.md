# famio dashboard: a Dafny model of its stateful logic

The famio dashboard is a React single-page client for an embedded device. It handles Wi-Fi
provisioning, FM-radio control and reset. Most of it renders views and calls HTTP
endpoints. This project models the parts that hold state or make decisions, and proves what
they do:

- **Store** (`store.dfy`): the shared store's initial state and its reducer. A reducer step
  returns the next state plus the cookie writes it made; a cookie write is recorded as data
  and never performed.
- **Api** (`api.dfy`): the request gateway `fetchRequest`. It covers the URL, method,
  headers, body and timeout of a request. It also covers the internal abort controller, the
  timer and the external-signal listener, each path's side effects in order, and how a
  `fetch` outcome becomes a result or an error. The `fetch` outcome is a parameter.
- **ExploreNetworks** (`explore_networks.dfy`): what the Wi-Fi view does to a completed scan.
  It coerces each record's rssi and sorts the list in place on an array, strongest signal
  first. It also computes the signal-bar width.
- **Explore** (`explore.dfy`): the Wi-Fi scan view as a class `ScanController`. Its fields are
  the component's state and refs plus the store. There is one method per event: starting a
  scan, the first reply, a poll reply or failure, the overall timeout, clearing the polling,
  unmounting, the first-scan effect, selecting a network, editing the password, and the two
  halves of the submit.
- **FmRadio** (`fm_radio.dfy`): the FM panel as a class `RadioPanel`. It covers the handler
  guards, the volume clamp, error and loading bookkeeping, the `fetchData` result, and the
  multi-click burst counter as a small state machine.
- **Provisioning** (`provisioning.dfy`): the startup probe of `/wifi/status`. It returns its
  ordered effects: the dispatches and the navigation.
- **ErrorPage** (`error_page.dfy`): the error page's first-truthy message chain.
- **Js** and **WifiRecords** (`js.dfy`, `wifi_records.dfy`): shared values. These are
  absent-or-present fields, settled promises, `Error` objects with name and message,
  string truthiness, and the scan record.

Each asynchronous handler is split at its `await`s. One method runs the code before the
`await`. Another takes the request's settlement as a parameter and runs the code after it.
Where a continuation itself awaits again, the awaits after the first are folded into that
one event. `fetchData` reads the status and then the channels in a single event. The power,
save and delete handlers settle their POST and the `fetchData` that follows it in a single
event.
Timers firing and replies arriving are events, handled one at a time. A class method states
the controller's whole new state through a snapshot (`View()`) written as an update of the old
one. A class invariant is preserved: in the scan controller, the abort controller that the ref
holds has never been aborted.

Where the project's written specification and the code disagree, the model follows the code:

- the poll interval is 2000 ms, not 5000 ms;
- a network is selected by its SSID, not its BSSID;
- an empty password sets the "Password is required" error, but the credentials are POSTed
  anyway, with no local validation error;
- there is no submit retry, no restart countdown and no reboot flow;
- the scan list is not deduplicated;
- unmounting does not stop every timer. The cleanup at
  `src/components/Explore/explore.jsx:186-190` clears only the polling handles. It does not
  cancel the 300 ms first-scan timer (lines 179-181), so `startScan` can still run after
  teardown. It does not cancel the 60 ms focus timer of `selectNetwork` (line 144) either.
  `Explore.ScanController.Unmount` states the cleanup as written.

Further properties of the code, stated as the code has them:

- The rssi coercion writes into the records. `Number(rssi) || -100` maps a zero conversion
  to -100 as well.
- A poll failure named TypeError makes the catch handler throw (`String.prototype.include`
  does not exist), so it changes nothing.
- The provisioning status dispatch uses the action-types object as its type, so the reducer's
  default case ignores it.
- After a failed refresh inside the power, save or delete handlers, the success notice is
  still shown.

## Model

| member | source | states |
|---|---|---|
| Store.InitState | src/contexts/reducers/storeReducer.js:7-15 | language is the cookie when set and non-empty, else "vi"; not loading; provisioning {false, ""}; no networks |
| Store.Reduce | src/contexts/reducers/storeReducer.js:17-38 | exactly one cookie write for a language action and none otherwise; each action changes only its own field |
| Store.LanguageActions | src/contexts/reducers/storeReducer.js:20-24 | GET_LANGUAGE and UPDATE_LANGUAGE give the same step: language becomes the payload, nothing else changes, cookie ("language", payload, 365) |
| Store.LoadingActions | src/contexts/reducers/storeReducer.js:25-28 | START_LOADING sets loading true, END_LOADING sets it false, no other field changes, no cookie |
| Store.ReplaceActions | src/contexts/reducers/storeReducer.js:29-32 | SET_WIFI_NETWORKS and SET_PROVISIONING replace their field wholesale with the payload |
| Store.ResetWifiNetworksIdempotent | src/contexts/reducers/storeReducer.js:33-34 | RESET_WIFI_NETWORKS yields an empty list whatever the prior list, and applying it twice equals applying it once |
| Store.UnrecognisedIsIdentity | src/contexts/reducers/storeReducer.js:35-36 | an unrecognised action type returns the state unchanged and writes no cookie |
| Store.CookiesCountLanguageActions | src/contexts/reducers/storeReducer.js:20-24 | over any sequence of dispatches, exactly one cookie write per language action |
| Api.Prepare | src/utils/api.js:3-13 | URL is root + "/api" + src; method defaults to GET, timeout to 15000; body and the JSON Content-Type header are present exactly when the payload is non-null and the method is POST, PUT or PATCH |
| Api.Normalise | src/utils/api.js:60-67 | every AbortError becomes AbortError "API Called timeout"; other errors pass unchanged |
| Api.Decimal | src/utils/api.js:51 | a status code renders as a non-empty digit string with no leading zero |
| Api.DecimalRoundTrip | src/utils/api.js:51 | reading the rendered status code back gives the code |
| Api.HttpError | src/utils/api.js:51 | the non-ok error message is "HTTP error! status: <status> - <body>" |
| Api.FetchRequest | src/utils/api.js:3-69 | an already-aborted signal aborts at once and fails with the timeout error; rejection, non-ok (body or "<unreadable>") and ok paths classified; timer cleared and listener removed on every path; the timer is cleared before the body is read |
| ExploreNetworks.CoerceRssi | src/components/Explore/explore.jsx:58-60 | a numeric rssi is kept; a non-number becomes Number(rssi) when non-zero and not NaN, else -100 |
| ExploreNetworks.Coerce | src/components/Explore/explore.jsx:58-60 | only the rssi of a record changes, it becomes numeric, and a numeric record is untouched |
| ExploreNetworks.SinkInto | src/components/Explore/explore.jsx:61 | one insertion step: extends the sorted prefix by one element, permuting the array and leaving the rest alone |
| ExploreNetworks.SortByRssi | src/components/Explore/explore.jsx:61 | in-place sort: the array ends ordered by rssi non-increasing and is a permutation of itself |
| ExploreNetworks.NormaliseNetworks | src/components/Explore/explore.jsx:57-61 | the stored list has the source's length, is a permutation of the coerced records, is ordered strongest first, and every rssi is numeric |
| ExploreNetworks.NormalisedOrderExample | src/components/Explore/explore.jsx:57-61 | records with rssi -80, -40, -60 are stored in the order -40, -60, -80 |
| ExploreNetworks.Round | src/components/Explore/explore.jsx:268 | Math.round lands within half a unit of its argument |
| ExploreNetworks.BarWidth | src/components/Explore/explore.jsx:266-269 | the bar width always lies in [0, 100] |
| ExploreNetworks.BarWidthInIntegers | src/components/Explore/explore.jsx:266-269 | the width equals clamp(floor((20*(rssi+100)+7)/14), 0, 100) exactly |
| ExploreNetworks.BarWidthMonotone | src/components/Explore/explore.jsx:266-269 | the width is monotone non-decreasing in rssi |
| ExploreNetworks.BarWidthLandmarks | src/components/Explore/explore.jsx:266-269 | width 0 for rssi <= -100, 100 for rssi >= -30, 64 at -55 |
| Explore.Cleared | src/components/Explore/explore.jsx:34-51 | after clearPolling the interval, timeout and abort handles are null and the controller the ref held is aborted |
| Explore.ClearedIdempotent | src/components/Explore/explore.jsx:34-51 | clearing twice is the same as clearing once |
| Explore.Failed | src/components/Explore/explore.jsx:133-137 | an AbortError leaves everything unchanged; any other error clears polling, sets status "error" and the message or the fallback |
| Explore.ScanController.constructor | src/components/Explore/explore.jsx:14-30 | initial state: idle, no error or server message, empty selection and password, no handles, first scan not yet scheduled |
| Explore.ScanController.ClearPolling | src/components/Explore/explore.jsx:34-51 | the new state is the cleared state of the old one |
| Explore.ScanController.HandleScanJson | src/components/Explore/explore.jsx:53-70 | null is a no-op; a non-complete reply sets "scanning" only; a complete one stores the normalised list, sets "complete" and clears all handles |
| Explore.ScanController.StartPolling | src/components/Explore/explore.jsx:73-105 | reuses the held controller or installs a fresh one, then sets interval and timeout handles without clearing an earlier interval |
| Explore.ScanController.StartScan | src/components/Explore/explore.jsx:108-126 | clears polling, error, server message, the store's list, selection and password, sets "scanning", installs a fresh unaborted controller and requests /wifi/scan with 35000 ms |
| Explore.ScanController.FirstResponse | src/components/Explore/explore.jsx:120-138 | a complete first reply is handled with no interval or timeout scheduled; an unfinished one starts polling, reusing the controller the ref holds (the one `startScan` installed) or installing a fresh one, with no other change; failures go through the catch block with "Failed to start scan" |
| Explore.ScanController.StartFailed | src/components/Explore/explore.jsx:133-137 | the catch block of startScan |
| Explore.ScanController.PollResponse | src/components/Explore/explore.jsx:81-89 | a poll reply is handled as handleScanJson handles it |
| Explore.ScanController.PollFailure | src/components/Explore/explore.jsx:90-96 | AbortError and TypeError leave all state unchanged; other errors clear polling, set "error" and the message or "Scan failed" |
| Explore.ScanController.TimeoutFired | src/components/Explore/explore.jsx:99-104 | status "error", error "Scan timed out. Please try again.", all handles cleared, the held controller aborted |
| Explore.ScanController.Unmount | src/components/Explore/explore.jsx:186-190 | unmounting clears polling |
| Explore.ScanController.FirstScanEffect | src/components/Explore/explore.jsx:177-184 | the first run schedules a scan, later runs do not; the ref is set |
| Explore.ScanController.SelectNetwork | src/components/Explore/explore.jsx:141-145 | the selection becomes the SSID and nothing else changes |
| Explore.ScanController.EditPassword | src/components/Explore/explore.jsx:297-300 | the password becomes the field's text |
| Explore.ScanController.BeginSubmit | src/components/Explore/explore.jsx:147-162 | clears messages, sets submitting, sets the required error on an empty password, and still POSTs {ssid, pass} to /wifi/config with 15000 ms |
| Explore.ScanController.SubmitSettled | src/components/Explore/explore.jsx:163-172 | shows the reply's message (its JSON text or "Device restarting..." as fallbacks) or the error or "Submit failed"; submitting ends false; status unchanged |
| FmRadio.ClampVolume | src/components/FmRadio/fmRadio.jsx:129-130 | the new volume is volume + delta clamped to [0, 15] |
| FmRadio.Click | src/components/FmRadio/fmRadio.jsx:174-179 | a click while a timer is pending increments the count; the new timer remembers the click's direction |
| FmRadio.Fire | src/components/FmRadio/fmRadio.jsx:179-186 | firing yields the count (negated downwards) when positive, else the fine step, and resets count and timer |
| FmRadio.ClicksWhilePending | src/components/FmRadio/fmRadio.jsx:174-193 | while a timer is pending each click adds one and the last click decides the direction |
| FmRadio.BurstOfClicks | src/components/FmRadio/fmRadio.jsx:174-202 | a burst of n clicks from rest leaves count n-1; firing then steps by n-1 in the last direction, or by the fine step after one click |
| FmRadio.StatusFrom | src/components/FmRadio/fmRadio.jsx:72-78 | missing status fields default to 0 or false; present ones are kept |
| FmRadio.GuardsOfHandlers | src/components/FmRadio/fmRadio.jsx:105-274 | power has no guard, delete is guarded only by loading, the other handlers by not powered or loading |
| FmRadio.WithError | src/components/FmRadio/fmRadio.jsx:54-57 | the error becomes err.message when non-empty, else the handler's default; the notice is cleared |
| FmRadio.AfterFetch | src/components/FmRadio/fmRadio.jsx:63-94 | a failed status request, or a null status reply (a TypeError reading `freq`), sets isPowered false, keeps the other status fields and the channels, clears the notice and sets the error; a failed channels request keeps the fetched status with isPowered false, keeps the channels, sets the error and clears the notice; a success stores the defaulted status and the channel array if there is one; loading ends false on every path |
| FmRadio.RadioPanel.constructor | src/components/FmRadio/fmRadio.jsx:35-47 | initial status {99.5, 10, off, 0, mono}, no channels, not loading, no error, no notice, no burst |
| FmRadio.RadioPanel.BeginFetch | src/components/FmRadio/fmRadio.jsx:63-65 | loading set and error cleared |
| FmRadio.RadioPanel.FetchSettled | src/components/FmRadio/fmRadio.jsx:66-93 | the new state is the settled fetchData state |
| FmRadio.RadioPanel.BeginPowerToggle | src/components/FmRadio/fmRadio.jsx:105-108 | no guard; loading set, error cleared, target state is the opposite of the current one |
| FmRadio.RadioPanel.Begin | src/components/FmRadio/fmRadio.jsx:146-156 | a blocked handler or a change to the current frequency is a no-op; otherwise loading is set and the error cleared |
| FmRadio.RadioPanel.SettleTuning | src/components/FmRadio/fmRadio.jsx:159-169 | on success the reply's frequency (or the old one) and a notice; on failure the error; loading ends false |
| FmRadio.RadioPanel.SettleRefreshing | src/components/FmRadio/fmRadio.jsx:109-121 | on success fetchData runs and then the notice is shown; on failure the error with the handler's default; loading ends false |
| FmRadio.RadioPanel.HandleError | src/components/FmRadio/fmRadio.jsx:54-61 | the error is the message or the default, and the notice is cleared |
| FmRadio.RadioPanel.BeginVolumeChange | src/components/FmRadio/fmRadio.jsx:125-130 | nothing when off or loading; otherwise the clamped level in [0, 15]; no state change |
| FmRadio.RadioPanel.VolumeSettled | src/components/FmRadio/fmRadio.jsx:132-140 | the volume changes only after the POST succeeds; on failure it is unchanged and the error is set |
| FmRadio.RadioPanel.MultiClick | src/components/FmRadio/fmRadio.jsx:174-193 | the burst refs advance by one click |
| FmRadio.RadioPanel.BurstTimerFired | src/components/FmRadio/fmRadio.jsx:179-201 | returns the firing step and resets count and timer |
| FmRadio.RadioPanel.MessageExpired | src/components/FmRadio/fmRadio.jsx:49-52 | the notice's timer clears it |
| Provisioning.Decide | src/components/Provisioning/provisioning.jsx:30-46 | non-empty ip and not operational go to /explore, non-empty ip and operational go to /, otherwise /error with the network-failure text |
| Provisioning.Destructured | src/components/Provisioning/provisioning.jsx:15-25 | the status starts as {false, ""}; on success each reply field that is present (a value or null) is kept and each undefined one takes its default; a failure or a null reply leaves the initial status |
| Provisioning.RoutesOfReplies | src/components/Provisioning/provisioning.jsx:15-46 | a reply with a non-empty ip goes to / when isOperational is true and to /explore otherwise; a missing, null or empty ip, a null reply and a failed request go to /error |
| Provisioning.RunEffect | src/components/Provisioning/provisioning.jsx:13-48 | START_LOADING first and END_LOADING last on every outcome, exactly one navigation to the route decided on the destructured status; present reply fields are kept and missing ones default to false and ""; a failed request routes to /error |
| Provisioning.DispatchesNetEffect | src/components/Provisioning/provisioning.jsx:14-47 | through the reducer the effect's dispatches leave the store unchanged except loading false, the status dispatch being ignored, and write no cookie |
| ErrorPage.Message | src/components/Error/error.jsx:15-18 | a non-empty location message wins, then the route error's message, then its statusText, then the default; empty strings count as absent |

## Left out

- `fetch`, `response.json()`, `response.text()`, `JSON.stringify`, console logging, the
  environment lookup of the API root and the cookie utilities are I/O or foreign calls. The
  root is a parameter. Fetch outcomes are parameters. A config reply carries its own JSON
  text. Cookie writes are returned as data.
- Real time. The 2000 ms interval, the 35000 ms and 15000 ms timeouts, and the 300 ms, 60 ms,
  500 ms and 3000 ms delays appear only as events and handle flags.
- Interleavings of overlapping async handlers, and React's stale closures. Events run one at
  a time, and a handler reads the current state instead of the state of the render that
  created it. The model does not tie an aborted controller to the AbortError its request then
  settles with. That outcome is the caller's parameter.
- Explore.ScanController.StartPolling: a second `startPolling` while an interval is installed
  orphans the earlier interval in the source. The model keeps one handle flag and does not
  count orphaned intervals.
- ExploreNetworks.NormaliseNetworks: does not state that the sort is stable (records of
  equal rssi keep their order), which `Array.prototype.sort` guarantees. The model's
  insertion sort is stable, but the contract proves only the order and the permutation.
- Rssi values are integers. A fractional `Number(...)` conversion, and a numeric NaN rssi
  passing the `typeof` test, are not modelled. The width is computed on exact rationals, since
  `(rssi + 100) / 70 * 100` never lands on a half for an integer rssi.
- FM frequency arithmetic (`toFixed`, `parseFloat`, the 87.0–108.0 clamp, the 0.1 MHz step)
  is floating point. The frequency a handler requests is a parameter, and a burst ends in an
  abstract step. Notice texts, which format frequencies, are shown as structured notices.
- FmRadio: a null reply body from the set-frequency, seek and select endpoints is not
  modelled. A reply frequency of 0 counts as missing, as `||` treats it.
- FmRadio.AfterFetch: the two awaits of `fetchData` settle as one event. The moment between
  them, when the status is stored but the channel list is still loading, is not visible.
- Rendering, CSS, the i18n `t` function (its results are opaque string parameters), and
  focusing the password field.
- The reset-Wi-Fi and reset-system components each make a single request with no logic. The
  router, entry point, layout, app shell and header are wiring or presentation.
- The action-type constants file is not part of this model. The six action types are assumed
  distinct from one another and from the constants object itself.
