/** The startup connectivity probe (src/components/Provisioning/provisioning.jsx): it asks
    `/wifi/status`, then routes to the Wi-Fi scan, to the home view, or to the error page,
    bracketed by two loading dispatches. */
module Provisioning {
  import opened Js
  import Store

  /** A field of the reply as destructuring sees it: `undefined`, `null`, or a value. */
  datatype Field<T> = Undefined | Null | Value(v: T)

  /** A parsed `/wifi/status` reply; a null reply is None. */
  datatype StatusReply = StatusReply(isOperational: Field<bool>, ip: Field<string>)

  datatype Route = ExploreView | HomeView | ErrorView(message: string) {
    function Path(): string {
      match this
      case ExploreView => "/explore"
      case HomeView => "/"
      case ErrorView(_) => "/error"
    }
  }

  /** What the effect does, in order: dispatches to the store and navigations. */
  datatype Effect = Dispatch(action: Store.Action) | Navigate(route: Route)

  /** The local `status` object once the request has settled. */
  datatype Probe = Probe(isOperational: Field<bool>, ip: Field<string>)

  /** `status.ip?.length > 0`. */
  predicate HasIp(p: Probe) {
    p.ip.Value? && |p.ip.v| > 0
  }

  /** `!status.isOperational`: false and null are falsy. */
  predicate NotOperational(p: Probe) {
    !(p.isOperational == Value(true))
  }

  /** The route chosen in `finally`; `failText` is the translated "Network init failed". */
  function Decide(p: Probe, failText: string): (r: Route)
    ensures r == ExploreView <==> HasIp(p) && p.isOperational != Value(true)
    ensures r == HomeView <==> HasIp(p) && p.isOperational == Value(true)
    ensures r == ErrorView(failText) <==> !HasIp(p)
  {
    if HasIp(p) then (if NotOperational(p) then ExploreView else HomeView)
    else ErrorView(failText)
  }

  function Navigations(effects: seq<Effect>): (r: seq<Route>)
    decreases |effects|
  {
    if effects == [] then []
    else (if effects[0].Navigate? then [effects[0].route] else []) + Navigations(effects[1..])
  }

  function Dispatches(effects: seq<Effect>): (r: seq<Store.Action>)
    decreases |effects|
  {
    if effects == [] then []
    else (if effects[0].Dispatch? then [effects[0].action] else []) + Dispatches(effects[1..])
  }

  /** The local `status` once `then` or `catch` has run: `{isOperational: false, ip: ""}`,
      overwritten on success by the reply's fields, with the destructuring defaults standing
      in for `undefined` ones (a `null` field is kept; a null reply destructures as `{}`). */
  function Destructured(settled: Result<Option<StatusReply>, JsError>): (p: Probe)
    ensures settled.Failure? || settled == Success(None) ==> p == Probe(Value(false), Value(""))
    ensures settled.Success? && settled.value.Some? ==>
              var reply := settled.value.value;
              && (reply.isOperational.Undefined? ==> p.isOperational == Value(false))
              && (!reply.isOperational.Undefined? ==> p.isOperational == reply.isOperational)
              && (reply.ip.Undefined? ==> p.ip == Value(""))
              && (!reply.ip.Undefined? ==> p.ip == reply.ip)
  {
    match settled
    case Failure(_) => Probe(Value(false), Value(""))
    case Success(response) =>
      var reply := response.GetOr(StatusReply(Undefined, Undefined));
      Probe(if reply.isOperational.Undefined? then Value(false) else reply.isOperational,
            if reply.ip.Undefined? then Value("") else reply.ip)
  }

  /** Where each reply leads: a non-empty ip goes to the home view when the device reports
      itself operational and to the scan otherwise; a missing, null or empty ip, a null reply
      and a failed request go to the error page. */
  lemma RoutesOfReplies(failText: string, settled: Result<Option<StatusReply>, JsError>)
    ensures settled.Failure? || settled == Success(None) ==>
              Decide(Destructured(settled), failText) == ErrorView(failText)
    ensures settled.Success? && settled.value.Some? ==>
              var reply := settled.value.value;
              && (reply.ip.Value? && |reply.ip.v| > 0 && reply.isOperational == Value(true) ==>
                    Decide(Destructured(settled), failText) == HomeView)
              && (reply.ip.Value? && |reply.ip.v| > 0 && reply.isOperational != Value(true) ==>
                    Decide(Destructured(settled), failText) == ExploreView)
              && (!(reply.ip.Value? && |reply.ip.v| > 0) ==>
                    Decide(Destructured(settled), failText) == ErrorView(failText))
  {
  }

  /** The effect, with the request's settlement as a parameter; `finally` routes on the
      destructured status. The status dispatch uses the action-types object as its type,
      which no reducer case matches. */
  method RunEffect(failText: string, settled: Result<Option<StatusReply>, JsError>)
    returns (effects: seq<Effect>, probe: Probe)
    ensures |effects| >= 3
    ensures effects[0] == Dispatch(Store.StartLoading)
    ensures effects[|effects| - 1] == Dispatch(Store.EndLoading)
    ensures probe == Destructured(settled)
    ensures Navigations(effects) == [Decide(probe, failText)]
    ensures Dispatches(effects) == [Store.StartLoading] + (if HasIp(probe) then [Store.Unrecognised] else [])
                                   + [Store.EndLoading]
    ensures settled.Failure? || settled == Success(None) ==> probe == Probe(Value(false), Value(""))
    ensures settled.Success? && settled.value.Some? && settled.value.value.ip.Undefined? ==> probe.ip == Value("")
    ensures settled.Success? && settled.value.Some? && settled.value.value.isOperational.Undefined? ==>
              probe.isOperational == Value(false)
    ensures settled.Success? && settled.value.Some? && !settled.value.value.isOperational.Undefined? ==>
              probe.isOperational == settled.value.value.isOperational
    ensures settled.Success? && settled.value.Some? && !settled.value.value.ip.Undefined? ==>
              probe.ip == settled.value.value.ip
    ensures settled.Failure? ==> Navigations(effects) == [ErrorView(failText)]
  {
    probe := Destructured(settled);
    var tail: seq<Effect>;
    if HasIp(probe) {
      tail := [Dispatch(Store.Unrecognised)];
      if NotOperational(probe) {
        tail := tail + [Navigate(ExploreView)];
      } else {
        tail := tail + [Navigate(HomeView)];
      }
    } else {
      tail := [Navigate(ErrorView(failText))];
    }
    effects := [Dispatch(Store.StartLoading)] + tail + [Dispatch(Store.EndLoading)];
    Bracketed(tail);
    TailProjections(tail, probe, failText);
  }

  /** The projections of an effect list bracketed by the two loading dispatches. */
  lemma Bracketed(tail: seq<Effect>)
    ensures Navigations([Dispatch(Store.StartLoading)] + tail + [Dispatch(Store.EndLoading)]) == Navigations(tail)
    ensures Dispatches([Dispatch(Store.StartLoading)] + tail + [Dispatch(Store.EndLoading)])
            == [Store.StartLoading] + Dispatches(tail) + [Store.EndLoading]
  {
    var head, last := [Dispatch(Store.StartLoading)], [Dispatch(Store.EndLoading)];
    NavigationsSplit(head + tail, last);
    NavigationsSplit(head, tail);
    DispatchesSplit(head + tail, last);
    DispatchesSplit(head, tail);
    Singletons(head[0]);
    Singletons(last[0]);
  }

  /** The effects `finally` produces before its last dispatch. */
  lemma TailProjections(tail: seq<Effect>, probe: Probe, failText: string)
    requires HasIp(probe) ==> tail == [Dispatch(Store.Unrecognised), Navigate(Decide(probe, failText))]
    requires !HasIp(probe) ==> tail == [Navigate(ErrorView(failText))]
    ensures Navigations(tail) == [Decide(probe, failText)]
    ensures Dispatches(tail) == if HasIp(probe) then [Store.Unrecognised] else []
  {
    Singletons(tail[0]);
    if HasIp(probe) {
      Singletons(tail[1]);
      NavigationsSplit([tail[0]], [tail[1]]);
      DispatchesSplit([tail[0]], [tail[1]]);
      assert tail == [tail[0]] + [tail[1]];
    }
  }

  /** One effect's contribution to the two projections. */
  lemma Singletons(e: Effect)
    ensures Navigations([e]) == if e.Navigate? then [e.route] else []
    ensures Dispatches([e]) == if e.Dispatch? then [e.action] else []
  {
    assert [e][1..] == [];
  }

  lemma {:induction false} NavigationsSplit(a: seq<Effect>, b: seq<Effect>)
    ensures Navigations(a + b) == Navigations(a) + Navigations(b)
    decreases |a|
  {
    if a == [] {
      assert a + b == b;
    } else {
      NavigationsSplit(a[1..], b);
      assert (a + b)[0] == a[0];
      assert (a + b)[1..] == a[1..] + b;
    }
  }

  lemma {:induction false} DispatchesSplit(a: seq<Effect>, b: seq<Effect>)
    ensures Dispatches(a + b) == Dispatches(a) + Dispatches(b)
    decreases |a|
  {
    if a == [] {
      assert a + b == b;
    } else {
      DispatchesSplit(a[1..], b);
      assert (a + b)[0] == a[0];
      assert (a + b)[1..] == a[1..] + b;
    }
  }

  /** Run through the reducer, the effect's dispatches leave the store as it was except that
      `loading` ends false, and write no cookie. */
  lemma DispatchesNetEffect(s: Store.State, withStatus: bool)
    ensures Store.ReduceAll(s, [Store.StartLoading] + (if withStatus then [Store.Unrecognised] else [])
                               + [Store.EndLoading])
            == Store.Step(s.(loading := false), [])
  {
    var loaded := s.(loading := true);
    var done := Store.Step(s.(loading := false), []);
    assert Store.ReduceAll(loaded, [Store.EndLoading]) == done by {
      assert [Store.EndLoading][1..] == [];
    }
    if withStatus {
      var actions := [Store.StartLoading, Store.Unrecognised, Store.EndLoading];
      assert actions[1..][1..] == [Store.EndLoading];
      assert Store.ReduceAll(loaded, actions[1..]) == done;
      assert [Store.StartLoading] + [Store.Unrecognised] + [Store.EndLoading] == actions;
    } else {
      var actions := [Store.StartLoading, Store.EndLoading];
      assert actions[1..] == [Store.EndLoading];
      assert [Store.StartLoading] + [] + [Store.EndLoading] == actions;
    }
  }
}
