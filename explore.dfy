/** The Wi-Fi scan view's controller (src/components/Explore/explore.jsx): the component's
    state and refs, one method per event. Timers and responses are events: a method runs the
    synchronous code of one callback or of one continuation after an `await`. */
module Explore {
  import opened Js
  import opened WifiRecords
  import opened ExploreNetworks
  import Store
  import Api

  datatype ScanStatus = Idle | Scanning | Complete | Error

  /** A parsed `/wifi/scan` reply; `networks` is None when the reply's `networks` is not an array. */
  datatype ScanJson = ScanJson(status: string, networks: Option<seq<Network>>)

  /** A parsed `/wifi/config` reply: `status`, `message` ("" when missing) and the reply's JSON text. */
  datatype ConfigReply = ConfigReply(status: string, message: string, serialised: string)

  /** The body POSTed to `/wifi/config`. */
  datatype Credentials = Credentials(ssid: string, pass: string)

  const ScanTimeoutMs := 35000
  const ConfigTimeoutMs := 15000
  const StartFailedMessage := "Failed to start scan"
  const PollFailedMessage := "Scan failed"
  const TimedOutMessage := "Scan timed out. Please try again."
  const SubmitFailedMessage := "Submit failed"
  const RestartingMessage := "Device restarting..."

  /** Everything the controller holds. Abort controllers are numbered: `abortRef` is the one the
      ref holds, `aborted` those whose `abort()` has been called, `nextController` the next number. */
  datatype ScanView = ScanView(
    status: ScanStatus,
    error: Option<string>,
    serverMessage: Option<string>,
    selectedSsid: string,
    password: string,
    submitting: bool,
    interval: bool,
    timeout: bool,
    abortRef: Option<nat>,
    aborted: set<nat>,
    nextController: nat,
    firstScanDone: bool,
    store: Store.State)

  /** Every controller handed out is numbered below `nextController`, and the one the ref holds
      has not been aborted. */
  ghost predicate Consistent(v: ScanView) {
    Numbered(v) && (v.abortRef.Some? ==> v.abortRef.value !in v.aborted)
  }

  ghost predicate Numbered(v: ScanView) {
    && (forall c :: c in v.aborted ==> c < v.nextController)
    && (v.abortRef.Some? ==> v.abortRef.value < v.nextController)
  }

  /** The records a scan reply carries: an empty list when `networks` is not an array. */
  function Reported(j: ScanJson): seq<Network> {
    j.networks.GetOr([])
  }

  /** The state after `clearPolling`: the three handles are null, and the controller the ref
      held, if any, has been aborted. */
  function Cleared(v: ScanView): (w: ScanView)
    ensures !w.interval && !w.timeout && w.abortRef == None
    ensures v.abortRef.Some? ==> w.aborted == v.aborted + {v.abortRef.value}
    ensures v.abortRef.None? ==> w.aborted == v.aborted
    ensures w.(aborted := v.aborted) == v.(interval := false, timeout := false, abortRef := None)
    ensures Numbered(v) ==> Consistent(w)
  {
    v.(interval := false, timeout := false, abortRef := None,
       aborted := if v.abortRef.Some? then v.aborted + {v.abortRef.value} else v.aborted)
  }

  /** Calling `clearPolling` twice is calling it once. */
  lemma ClearedIdempotent(v: ScanView)
    ensures Cleared(Cleared(v)) == Cleared(v)
  {
  }

  /** The catch block of `startScan` and of the poll callback: an AbortError changes nothing; any
      other error stops polling and shows its message, or `fallback` when it has none. */
  function Failed(v: ScanView, e: JsError, fallback: string): (w: ScanView)
    ensures e.name == AbortErrorName ==> w == v
    ensures e.name != AbortErrorName ==> w.status == Error && w.error == Some(Or(e.message, fallback))
    ensures e.name != AbortErrorName ==> w == Cleared(v).(status := Error, error := w.error)
  {
    if e.name == AbortErrorName then v
    else Cleared(v).(status := Error, error := Some(Or(e.message, fallback)))
  }

  class ScanController {
    var status: ScanStatus
    var error: Option<string>
    var serverMessage: Option<string>
    var selectedSsid: string
    var password: string
    var submitting: bool
    var interval: bool
    var timeout: bool
    var abortRef: Option<nat>
    var aborted: set<nat>
    var nextController: nat
    var firstScanDone: bool
    var store: Store.State

    function View(): ScanView
      reads this
    {
      ScanView(status, error, serverMessage, selectedSsid, password, submitting,
               interval, timeout, abortRef, aborted, nextController, firstScanDone, store)
    }

    ghost predicate Valid()
      reads this
    {
      Consistent(View())
    }

    /** Mounting: the initial `useState`/`useRef` values, over the shared store as it is. */
    constructor (shared: Store.State)
      ensures Valid()
      ensures View() == ScanView(Idle, None, None, "", "", false, false, false, None, {}, 0, false, shared)
    {
      status, error, serverMessage := Idle, None, None;
      selectedSsid, password, submitting := "", "", false;
      interval, timeout, abortRef := false, false, None;
      aborted, nextController := {}, 0;
      firstScanDone, store := false, shared;
    }

    /** `clearPolling`. It also runs right after the timeout callback has aborted the live
        controller, so it asks only that controllers be numbered. */
    method ClearPolling()
      requires Numbered(View())
      modifies this
      ensures Valid()
      ensures View() == Cleared(old(View()))
    {
      if interval {
        interval := false;
      }
      if timeout {
        timeout := false;
      }
      if abortRef.Some? {
        aborted := aborted + {abortRef.value};
        abortRef := None;
      }
    }

    /** `handleScanJson`: nothing for a null reply; "scanning" for an unfinished scan; for a
        complete one, the normalised records go to the store and polling stops. */
    method HandleScanJson(json: Option<ScanJson>)
      requires Valid()
      modifies this
      ensures Valid()
      ensures json == None ==> View() == old(View())
      ensures json.Some? && json.value.status != "complete" ==> View() == old(View()).(status := Scanning)
      ensures json.Some? && json.value.status == "complete" ==>
                && Normalised(Reported(json.value), store.wifiNetworks)
                && View() == Cleared(old(View())).(status := Complete,
                                                   store := old(store).(wifiNetworks := store.wifiNetworks))
    {
      if json == None {
        return;
      }
      if json.value.status == "complete" {
        var list := NormaliseNetworks(Reported(json.value));
        store := Store.Reduce(store, Store.SetWifiNetworks(list)).state;
        status := Complete;
        ClearPolling();
      } else {
        status := Scanning;
      }
    }

    /** `startPolling`: reuses the controller the ref holds, or makes one, then installs the poll
        interval and the overall timeout. An interval already installed is not cleared first. */
    method StartPolling()
      requires Valid()
      modifies this
      ensures Valid()
      ensures interval && timeout && abortRef.Some?
      ensures old(abortRef).Some? ==> View() == old(View()).(interval := true, timeout := true)
      ensures old(abortRef) == None ==>
                View() == old(View()).(interval := true, timeout := true,
                                       abortRef := Some(old(nextController)),
                                       nextController := old(nextController) + 1)
    {
      if abortRef == None {
        abortRef := Some(nextController);
        nextController := nextController + 1;
      }
      interval := true;
      timeout := true;
    }

    /** `startScan` up to its `await`: everything is reset, the status is "scanning", a fresh
        controller is installed, and the first `/wifi/scan` request is issued with its signal. */
    method StartScan(root: string) returns (request: Api.Request<()>, signal: nat)
      requires Valid()
      modifies this
      ensures Valid()
      ensures signal == old(nextController) && abortRef == Some(signal) && signal !in aborted
      ensures View() == Cleared(old(View())).(
                error := None, serverMessage := None,
                store := Store.Reduce(old(store), Store.ResetWifiNetworks).state,
                selectedSsid := "", password := "", status := Scanning,
                abortRef := Some(signal), nextController := signal + 1)
      ensures request.url == root + "/api/wifi/scan" && request.httpMethod == "GET"
      ensures request.timeoutMs == ScanTimeoutMs && request.body == None
    {
      ClearPolling();
      error := None;
      serverMessage := None;
      store := Store.Reduce(store, Store.ResetWifiNetworks).state;
      selectedSsid := "";
      password := "";
      status := Scanning;
      signal := nextController;
      abortRef := Some(signal);
      nextController := nextController + 1;
      request := Api.Prepare(root, Api.Args("/wifi/scan", Some("GET"), None, Some(ScanTimeoutMs), Api.Signal(false)));
    }

    /** `startScan` after its `await`: a complete first reply is handled at once and nothing is
        scheduled; an unfinished one starts polling; a failure goes to the catch block (reading
        `status` of a null reply is such a failure). */
    method FirstResponse(outcome: Result<Option<ScanJson>, JsError>)
      requires Valid()
      modifies this
      ensures Valid()
      ensures outcome.Failure? ==> View() == Failed(old(View()), outcome.error, StartFailedMessage)
      ensures outcome == Success(None) ==>
                View() == Failed(old(View()), NullPropertyError("status"), StartFailedMessage)
      ensures outcome.Success? && outcome.value.Some? && outcome.value.value.status == "complete" ==>
                && Normalised(Reported(outcome.value.value), store.wifiNetworks)
                && View() == Cleared(old(View())).(status := Complete,
                                                   store := old(store).(wifiNetworks := store.wifiNetworks))
      ensures outcome.Success? && outcome.value.Some? && outcome.value.value.status != "complete" ==>
                && interval && timeout && abortRef.Some?
                && (old(abortRef).Some? ==> View() == old(View()).(interval := true, timeout := true))
                && (old(abortRef) == None ==>
                      View() == old(View()).(interval := true, timeout := true,
                                             abortRef := Some(old(nextController)),
                                             nextController := old(nextController) + 1))
    {
      match outcome {
        case Failure(e) =>
          StartFailed(e);
        case Success(None) =>
          StartFailed(NullPropertyError("status"));
        case Success(Some(j)) =>
          if j.status == "complete" {
            HandleScanJson(Some(j));
          } else {
            StartPolling();
          }
      }
    }

    /** The catch block of `startScan`. */
    method StartFailed(e: JsError)
      requires Valid()
      modifies this
      ensures Valid()
      ensures View() == Failed(old(View()), e, StartFailedMessage)
    {
      if e.name == AbortErrorName {
        return;
      }
      ClearPolling();
      error := Some(Or(e.message, StartFailedMessage));
      status := Error;
    }

    /** The poll callback after a reply arrived. */
    method PollResponse(json: Option<ScanJson>)
      requires Valid()
      modifies this
      ensures Valid()
      ensures json == None ==> View() == old(View())
      ensures json.Some? && json.value.status != "complete" ==> View() == old(View()).(status := Scanning)
      ensures json.Some? && json.value.status == "complete" ==>
                && Normalised(Reported(json.value), store.wifiNetworks)
                && View() == Cleared(old(View())).(status := Complete,
                                                   store := old(store).(wifiNetworks := store.wifiNetworks))
    {
      HandleScanJson(json);
    }

    /** The poll callback's catch block. An AbortError is ignored. A TypeError makes the handler
        itself throw (it calls `include`, which strings do not have) before any state is touched.
        Anything else stops polling and shows the message, or "Scan failed". */
    method PollFailure(e: JsError)
      requires Valid()
      modifies this
      ensures Valid()
      ensures e.name == AbortErrorName || e.name == TypeErrorName ==> View() == old(View())
      ensures e.name != TypeErrorName ==> View() == Failed(old(View()), e, PollFailedMessage)
    {
      if e.name == AbortErrorName {
        return;
      }
      if e.name == TypeErrorName {
        return;
      }
      ClearPolling();
      error := Some(Or(e.message, PollFailedMessage));
      status := Error;
    }

    /** The overall scan timeout fires. */
    method TimeoutFired()
      requires Valid()
      modifies this
      ensures Valid()
      ensures View() == Cleared(old(View())).(status := Error, error := Some(TimedOutMessage))
      ensures !interval && !timeout && abortRef == None
    {
      if abortRef.Some? {
        aborted := aborted + {abortRef.value};
      }
      ClearPolling();
      status := Error;
      error := Some(TimedOutMessage);
    }

    /** The cleanup of the unmount effect. */
    method Unmount()
      requires Valid()
      modifies this
      ensures Valid()
      ensures View() == Cleared(old(View()))
    {
      ClearPolling();
    }

    /** The first-scan effect: the first run schedules `startScan` (after a short delay) and
        marks the ref; later runs do nothing. */
    method FirstScanEffect() returns (scheduled: bool)
      requires Valid()
      modifies this
      ensures Valid()
      ensures scheduled == !old(firstScanDone)
      ensures View() == old(View()).(firstScanDone := true)
    {
      scheduled := !firstScanDone;
      if !firstScanDone {
        firstScanDone := true;
      }
    }

    /** `selectNetwork`: the selection is the SSID (focusing the password field is not modelled). */
    method SelectNetwork(ssid: string)
      requires Valid()
      modifies this
      ensures Valid()
      ensures View() == old(View()).(selectedSsid := ssid)
    {
      selectedSsid := ssid;
    }

    /** The password field's `onChange`. */
    method EditPassword(text: string)
      requires Valid()
      modifies this
      ensures Valid()
      ensures View() == old(View()).(password := text)
    {
      password := text;
    }

    /** `handleSubmit` up to its `await`. An empty password sets the "required" error (the
        translated text is `requiredText`) but the credentials are POSTed all the same. */
    method BeginSubmit(root: string, requiredText: string) returns (request: Api.Request<Credentials>)
      requires Valid()
      modifies this
      ensures Valid()
      ensures View() == old(View()).(serverMessage := None, submitting := true,
                                     error := if old(password) == "" then Some(requiredText) else None)
      ensures request.url == root + "/api/wifi/config" && request.httpMethod == "POST"
      ensures request.body == Some(Credentials(old(selectedSsid), old(password)))
      ensures request.timeoutMs == ConfigTimeoutMs
    {
      serverMessage := None;
      error := None;
      submitting := true;
      if password == "" {
        error := Some(requiredText);
      }
      var payload := Credentials(selectedSsid, password);
      request := Api.Prepare(root, Api.Args("/wifi/config", Some("POST"), Some(payload),
                                            Some(ConfigTimeoutMs), Api.NoSignal));
    }

    /** `handleSubmit` after its `await`. A reply's message is shown (its JSON text when it has
        none; "Device restarting..." for a successful one without a message); a failure shows its
        message or "Submit failed"; reading `message` of a null reply is such a failure. */
    method SubmitSettled(outcome: Result<Option<ConfigReply>, JsError>)
      requires Valid()
      modifies this
      ensures Valid()
      ensures !submitting && status == old(status)
      ensures outcome.Success? && outcome.value.Some? ==>
                var res := outcome.value.value;
                View() == old(View()).(submitting := false,
                  serverMessage := Some(if res.status == "success" then Or(res.message, RestartingMessage)
                                        else Or(res.message, res.serialised)))
      ensures outcome.Failure? ==>
                View() == old(View()).(submitting := false, error := Some(Or(outcome.error.message, SubmitFailedMessage)))
      ensures outcome == Success(None) ==>
                View() == old(View()).(submitting := false, error := Some(NullPropertyError("message").message))
    {
      match outcome {
        case Success(Some(res)) =>
          serverMessage := Some(Or(res.message, res.serialised));
          if res.status == "success" {
            serverMessage := Some(Or(res.message, RestartingMessage));
          }
        case Success(None) =>
          error := Some(Or(NullPropertyError("message").message, SubmitFailedMessage));
        case Failure(e) =>
          error := Some(Or(e.message, SubmitFailedMessage));
      }
      submitting := false;
    }
  }
}
