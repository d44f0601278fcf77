/** The FM radio panel (src/components/FmRadio/fmRadio.jsx): the guards on its handlers, the
    volume clamp, error and loading bookkeeping, and the multi-click burst counter. Frequency
    arithmetic is floating point and is not modelled: a requested frequency is a parameter,
    and a burst ends in an abstract step. */
module FmRadio {
  import opened Js

  const MinVolume := 0
  const MaxVolume := 15

  /** `Math.min(15, Math.max(0, volume + delta))`. */
  function ClampVolume(volume: int, delta: int): (v: int)
    ensures 0 <= v <= 15
    ensures 0 <= volume + delta <= 15 ==> v == volume + delta
    ensures volume + delta < 0 ==> v == 0
    ensures volume + delta > 15 ==> v == 15
  {
    var raised := if volume + delta < MinVolume then MinVolume else volume + delta;
    if raised > MaxVolume then MaxVolume else raised
  }

  datatype Direction = Up | Down

  /** The two refs of the multi-click buttons: the click count and the pending timer, which
      remembers the direction of the click that armed it (None: no timer). Both buttons share them. */
  datatype Burst = Burst(count: nat, pending: Option<Direction>)

  const NoBurst := Burst(0, None)

  /** What a burst hands to `handleSetFrequency`: plus or minus the count, or plus or minus the
      fine step of 0.1 MHz. */
  datatype Step = Coarse(delta: int) | Fine(dir: Direction)

  /** A click: a pending timer is replaced and the count goes up; a new timer is armed. */
  function Click(b: Burst, d: Direction): (r: Burst)
    ensures r.pending == Some(d)
    ensures b.pending.Some? ==> r.count == b.count + 1
    ensures b.pending.None? ==> r.count == b.count
  {
    Burst(if b.pending.Some? then b.count + 1 else b.count, Some(d))
  }

  /** The pending timer fires: the step is the count (negated downwards) when it is positive,
      the fine step otherwise; the count and the timer are reset. */
  function Fire(b: Burst): (r: (Step, Burst))
    requires b.pending.Some?
    ensures r.1 == NoBurst
    ensures b.count > 0 && b.pending == Some(Up) ==> r.0 == Coarse(b.count)
    ensures b.count > 0 && b.pending == Some(Down) ==> r.0 == Coarse(-(b.count as int))
    ensures b.count == 0 ==> r.0 == Fine(b.pending.value)
  {
    var d := b.pending.value;
    var step := if b.count > 0 then Coarse(if d == Up then b.count else -(b.count as int)) else Fine(d);
    (step, NoBurst)
  }

  /** Several clicks in a row, none of them followed by a firing. */
  function Clicks(b: Burst, ds: seq<Direction>): Burst
    decreases |ds|
  {
    if ds == [] then b else Clicks(Click(b, ds[0]), ds[1..])
  }

  /** While a timer is pending, every click adds one to the count, and the last click decides
      the direction. */
  lemma {:induction false} ClicksWhilePending(b: Burst, ds: seq<Direction>)
    requires b.pending.Some? && ds != []
    ensures Clicks(b, ds) == Burst(b.count + |ds|, Some(ds[|ds| - 1]))
    decreases |ds|
  {
    if |ds| > 1 {
      ClicksWhilePending(Click(b, ds[0]), ds[1..]);
    }
  }

  /** A burst of n clicks from rest leaves the count at n - 1; when its timer fires, the step is
      n - 1 in the last click's direction, or the fine step after a single click. */
  lemma {:induction false} BurstOfClicks(ds: seq<Direction>)
    requires ds != []
    ensures Clicks(NoBurst, ds) == Burst(|ds| - 1, Some(ds[|ds| - 1]))
    ensures |ds| == 1 ==> Fire(Clicks(NoBurst, ds)).0 == Fine(ds[0])
    ensures |ds| > 1 && ds[|ds| - 1] == Up ==> Fire(Clicks(NoBurst, ds)).0 == Coarse(|ds| - 1)
    ensures |ds| > 1 && ds[|ds| - 1] == Down ==> Fire(Clicks(NoBurst, ds)).0 == Coarse(-(|ds| - 1))
  {
    if |ds| > 1 {
      ClicksWhilePending(Click(NoBurst, ds[0]), ds[1..]);
    }
  }

  /** The panel's status record. */
  datatype RadioStatus = RadioStatus(freq: real, volume: int, isPowered: bool, rssi: int, stereo: bool)

  const InitialStatus := RadioStatus(99.5, 10, false, 0, false)

  /** A `/fm/status` reply; None stands for a field that is missing or falsy. */
  datatype StatusReply = StatusReply(freq: Option<real>, volume: Option<int>, isPowered: Option<bool>,
                                     rssi: Option<int>, stereo: Option<bool>)

  /** The status `fetchData` stores: `field || 0` and `field || false`. */
  function StatusFrom(r: StatusReply): (s: RadioStatus)
    ensures r.freq.Some? ==> s.freq == r.freq.value
    ensures r.volume.Some? ==> s.volume == r.volume.value
    ensures r.isPowered.Some? ==> s.isPowered == r.isPowered.value
    ensures r.rssi.Some? ==> s.rssi == r.rssi.value
    ensures r.stereo.Some? ==> s.stereo == r.stereo.value
    ensures r.freq == None ==> s.freq == 0.0
    ensures r.volume == None ==> s.volume == 0
    ensures r.isPowered == None ==> !s.isPowered
    ensures r.rssi == None ==> s.rssi == 0
    ensures r.stereo == None ==> !s.stereo
  {
    RadioStatus(r.freq.GetOr(0.0), r.volume.GetOr(0), r.isPowered.GetOr(false),
                r.rssi.GetOr(0), r.stereo.GetOr(false))
  }

  /** The transient notice `showMessage` displays (its text, which formats frequencies with
      `toFixed`, is not modelled). */
  datatype Notice = Powered(on: bool) | Tuned(freq: real) | Sought | Saved | Selected(index: int) | Deleted(index: int)

  /** The handlers that set `loading` around a request. `PowerToggle(on)` turns the radio on
      when `on`; `SetFrequency(target)` carries the frequency computed from the step. */
  datatype Action =
    | PowerToggle(on: bool)
    | SetFrequency(target: real)
    | Seek
    | SaveChannel
    | SelectChannel(index: int)
    | DeleteChannel(index: int)
  {
    /** The request's reply carries the new frequency. */
    predicate Tunes() { SetFrequency? || Seek? || SelectChannel? }
    /** The handler awaits `fetchData` after its request. */
    predicate Refreshes() { PowerToggle? || SaveChannel? || DeleteChannel? }
  }

  const FetchFailedMessage := "Không thể kết nối đến thiết bị."
  const VolumeFailedMessage := "Lỗi khi thay đổi âm lượng."

  /** The message `handleError` falls back to, per handler. */
  function DefaultError(a: Action): string {
    match a
    case PowerToggle(on) => if on then "Lỗi khi bật đài." else "Lỗi khi tắt đài."
    case SetFrequency(_) => "Lỗi khi chuyển tần số."
    case Seek => "Lỗi khi dò kênh."
    case SaveChannel => "Lỗi khi lưu kênh."
    case SelectChannel(_) => "Lỗi khi chọn kênh."
    case DeleteChannel(_) => "Lỗi khi xóa kênh."
  }

  function NoticeFor(a: Action): Notice {
    match a
    case PowerToggle(on) => Powered(on)
    case SetFrequency(target) => Tuned(target)
    case Seek => Sought
    case SaveChannel => Saved
    case SelectChannel(i) => Selected(i)
    case DeleteChannel(i) => Deleted(i)
  }

  /** The early return at the top of a handler. Power has none, delete checks only `loading`,
      the others need the radio on and idle. */
  predicate Blocked(a: Action, isPowered: bool, loading: bool) {
    match a
    case PowerToggle(_) => false
    case DeleteChannel(_) => loading
    case _ => !isPowered || loading
  }

  lemma GuardsOfHandlers(a: Action, isPowered: bool, loading: bool)
    ensures a.PowerToggle? ==> !Blocked(a, isPowered, loading)
    ensures a.DeleteChannel? ==> (Blocked(a, isPowered, loading) <==> loading)
    ensures !a.PowerToggle? && !a.DeleteChannel? ==> (Blocked(a, isPowered, loading) <==> !isPowered || loading)
  {
  }

  datatype PanelView = PanelView(
    status: RadioStatus,
    savedChannels: seq<real>,
    loading: bool,
    error: Option<string>,
    message: Option<Notice>,
    burst: Burst)

  /** `handleError(err, fallback)`: the error's message, or the fallback when it has none; the
      notice is cleared. */
  function WithError(v: PanelView, e: JsError, fallback: string): (w: PanelView)
    ensures e.message != "" ==> w.error == Some(e.message)
    ensures e.message == "" ==> w.error == Some(fallback)
    ensures w == v.(error := w.error, message := None)
  {
    v.(error := Some(Or(e.message, fallback)), message := None)
  }

  /** `fetchData` after its requests settled: the status request, then (only when it succeeded)
      the channels request, whose `channels` is None when not an array. A failure of either
      sets the error and marks the radio off; `loading` ends false on every path. */
  function AfterFetch(v: PanelView, statusReply: Result<Option<StatusReply>, JsError>,
                      channels: Result<Option<seq<real>>, JsError>): (w: PanelView)
    ensures !w.loading && w.burst == v.burst
    ensures statusReply.Failure? ==>
              w == WithError(v, statusReply.error, FetchFailedMessage).(status := v.status.(isPowered := false), loading := false)
    ensures statusReply == Success(None) ==>
              w == v.(status := v.status.(isPowered := false), loading := false,
                      error := Some(NullPropertyError("freq").message), message := None)
    ensures statusReply.Success? && statusReply.value.Some? && channels.Failure? ==>
              && w.status == StatusFrom(statusReply.value.value).(isPowered := false)
              && w.savedChannels == v.savedChannels
              && w.error == Some(Or(channels.error.message, FetchFailedMessage))
              && w.message == None
    ensures statusReply.Success? && statusReply.value.Some? && channels.Success? ==>
              && w.status == StatusFrom(statusReply.value.value)
              && w.savedChannels == channels.value.GetOr(v.savedChannels)
              && w.error == v.error && w.message == v.message
  {
    match statusReply
    case Failure(e) =>
      WithError(v, e, FetchFailedMessage).(status := v.status.(isPowered := false), loading := false)
    case Success(None) =>
      // reading `freq` of a null reply throws inside the try block
      WithError(v, NullPropertyError("freq"), FetchFailedMessage).(status := v.status.(isPowered := false), loading := false)
    case Success(Some(r)) =>
      var fetched := v.(status := StatusFrom(r));
      match channels
      case Failure(e) =>
        WithError(fetched, e, FetchFailedMessage).(status := fetched.status.(isPowered := false), loading := false)
      case Success(list) =>
        fetched.(savedChannels := list.GetOr(fetched.savedChannels), loading := false)
  }

  class RadioPanel {
    var status: RadioStatus
    var savedChannels: seq<real>
    var loading: bool
    var error: Option<string>
    var message: Option<Notice>
    var burst: Burst

    function View(): PanelView
      reads this
    {
      PanelView(status, savedChannels, loading, error, message, burst)
    }

    /** No timer pending means no count. */
    ghost predicate Valid()
      reads this
    {
      burst.pending == None ==> burst.count == 0
    }

    constructor ()
      ensures Valid()
      ensures View() == PanelView(InitialStatus, [], false, None, None, NoBurst)
    {
      status, savedChannels, loading := InitialStatus, [], false;
      error, message, burst := None, None, NoBurst;
    }

    /** `fetchData` up to its first `await`. */
    method BeginFetch()
      requires Valid()
      modifies this
      ensures Valid()
      ensures View() == old(View()).(loading := true, error := None)
    {
      loading := true;
      error := None;
    }

    /** `fetchData` after its requests settled. */
    method FetchSettled(statusReply: Result<Option<StatusReply>, JsError>, channels: Result<Option<seq<real>>, JsError>)
      requires Valid()
      modifies this
      ensures Valid()
      ensures View() == AfterFetch(old(View()), statusReply, channels)
    {
      var w := AfterFetch(View(), statusReply, channels);
      status, savedChannels, loading, error, message := w.status, w.savedChannels, w.loading, w.error, w.message;
    }

    /** `handlePowerToggle` up to its `await`: no guard; the new state is the opposite of the
        current one. */
    method BeginPowerToggle() returns (a: Action)
      requires Valid()
      modifies this
      ensures Valid()
      ensures a == PowerToggle(!old(status.isPowered))
      ensures View() == old(View()).(loading := true, error := None)
    {
      loading := true;
      error := None;
      a := PowerToggle(!status.isPowered);
    }

    /** The start of a guarded handler: a blocked handler, or a frequency change to the current
        frequency, returns at once; otherwise `loading` is set and the error cleared. */
    method Begin(a: Action) returns (started: bool)
      requires Valid()
      requires !a.PowerToggle?
      modifies this
      ensures Valid()
      ensures started <==> !Blocked(a, old(status.isPowered), old(loading))
                           && !(a.SetFrequency? && a.target == old(status.freq))
      ensures started ==> View() == old(View()).(loading := true, error := None)
      ensures !started ==> View() == old(View())
    {
      if Blocked(a, status.isPowered, loading) {
        return false;
      }
      if a.SetFrequency? && a.target == status.freq {
        return false;
      }
      loading := true;
      error := None;
      started := true;
    }

    /** A tuning handler after its request: the reply's frequency is kept (the old one when the
        reply has none) and a notice shown, or the error is recorded; `loading` ends false. */
    method SettleTuning(a: Action, reply: Result<Option<real>, JsError>)
      requires Valid()
      requires a.Tunes()
      modifies this
      ensures Valid()
      ensures !loading
      ensures reply.Success? ==>
                View() == old(View()).(status := old(status).(freq := reply.value.GetOr(old(status.freq))),
                                       message := Some(NoticeFor(a)), loading := false)
      ensures reply.Failure? ==>
                View() == WithError(old(View()), reply.error, DefaultError(a)).(loading := false)
    {
      match reply {
        case Success(freq) =>
          status := status.(freq := freq.GetOr(status.freq));
          message := Some(NoticeFor(a));
        case Failure(e) =>
          HandleError(e, DefaultError(a));
      }
      loading := false;
    }

    /** A handler that refreshes after its request: on success `fetchData` runs (setting
        `loading` and clearing the error, then settling), and the notice is shown even when the
        refresh failed; on failure the error is recorded. `loading` ends false. */
    method SettleRefreshing(a: Action, post: Result<(), JsError>,
                            statusReply: Result<Option<StatusReply>, JsError>,
                            channels: Result<Option<seq<real>>, JsError>)
      requires Valid()
      requires a.Refreshes()
      modifies this
      ensures Valid()
      ensures !loading
      ensures post.Failure? ==> View() == WithError(old(View()), post.error, DefaultError(a)).(loading := false)
      ensures post.Success? ==>
                View() == AfterFetch(old(View()).(loading := true, error := None), statusReply, channels)
                            .(message := Some(NoticeFor(a)), loading := false)
    {
      match post {
        case Failure(e) =>
          HandleError(e, DefaultError(a));
        case Success(_) =>
          BeginFetch();
          FetchSettled(statusReply, channels);
          message := Some(NoticeFor(a));
      }
      loading := false;
    }

    /** `handleError`. */
    method HandleError(e: JsError, fallback: string)
      requires Valid()
      modifies this
      ensures Valid()
      ensures View() == WithError(old(View()), e, fallback)
    {
      error := Some(Or(e.message, fallback));
      message := None;
    }

    /** `handleVolumeChange` up to its `await`: nothing when the radio is off or busy, else the
        clamped level to POST. No state changes yet. */
    method BeginVolumeChange(delta: int) returns (level: Option<int>)
      ensures level == None <==> !status.isPowered || loading
      ensures level.Some? ==> level.value == ClampVolume(status.volume, delta) && 0 <= level.value <= 15
    {
      if !status.isPowered || loading {
        return None;
      }
      level := Some(ClampVolume(status.volume, delta));
    }

    /** `handleVolumeChange` after the POST: the volume changes only when it succeeded. */
    method VolumeSettled(level: int, post: Result<(), JsError>)
      requires Valid()
      modifies this
      ensures Valid()
      ensures post.Success? ==> View() == old(View()).(status := old(status).(volume := level))
      ensures post.Failure? ==> View() == WithError(old(View()), post.error, VolumeFailedMessage)
    {
      match post {
        case Success(_) =>
          status := status.(volume := level);
        case Failure(e) =>
          HandleError(e, VolumeFailedMessage);
      }
    }

    /** `handleMultiClickFreqUp` / `handleMultiClickFreqDown`. */
    method MultiClick(d: Direction)
      requires Valid()
      modifies this
      ensures Valid()
      ensures View() == old(View()).(burst := Click(old(burst), d))
    {
      if burst.pending.Some? {
        burst := burst.(count := burst.count + 1);
      }
      burst := burst.(pending := Some(d));
    }

    /** The burst timer fires (only a pending timer can): returns the step handed to
        `handleSetFrequency`, and resets the count and the timer. */
    method BurstTimerFired() returns (step: Step)
      requires Valid()
      requires burst.pending.Some?
      modifies this
      ensures Valid()
      ensures step == Fire(old(burst)).0
      ensures View() == old(View()).(burst := NoBurst)
    {
      var d := burst.pending.value;
      step := if burst.count > 0 then Coarse(if d == Up then burst.count else -(burst.count as int)) else Fine(d);
      burst := NoBurst;
    }

    /** The timer `showMessage` arms clears the notice. */
    method MessageExpired()
      requires Valid()
      modifies this
      ensures Valid()
      ensures View() == old(View()).(message := None)
    {
      message := None;
    }
  }
}
