/** The request gateway `fetchRequest` (src/utils/api.js): request construction, the timer
    and abort-listener lifecycle, and the classification of what `fetch` did. The network
    call itself is a parameter: the caller supplies how `fetch` settled. */
module Api {
  import opened Js

  const DefaultMethod := "GET"
  const DefaultTimeoutMs := 15000
  const ApiPrefix := "/api"
  const ContentType := "Content-Type"
  const JsonMediaType := "application/json"
  const AbortMessage := "API Called timeout"
  const UnreadableBody := "<unreadable>"

  /** The caller's external abort signal, as it stands when `fetchRequest` is entered. */
  datatype SignalArg = NoSignal | Signal(aborted: bool)

  /** The argument object of `fetchRequest`; None stands for a key that is `undefined`.
      `P` is the payload object. */
  datatype Args<P> = Args(src: string, httpMethod: Option<string>, payload: Option<P>,
                          timeout: Option<int>, signal: SignalArg)

  /** What is handed to `fetch`. The body is the payload itself (its JSON text is not modelled). */
  datatype Request<P> = Request(url: string, httpMethod: string, headers: map<string, string>,
                                body: Option<P>, timeoutMs: int)

  /** A response: `ok`, `status`, what `text()` yields (None: it threw) and how `json()` settles. */
  datatype Response<J> = Response(ok: bool, status: nat, text: Option<string>, json: Result<J, JsError>)

  /** How the `fetch` promise settled. */
  datatype FetchOutcome<J> = Responded(response: Response<J>) | Rejected(error: JsError)

  /** The side effects of one call, in the order they happen. */
  datatype Effect = AbortController | AddListener | SetTimer | CallFetch
                  | ClearTimer | RemoveListener | ReadText | ReadJson

  predicate MethodSendsBody(m: string) {
    m == "POST" || m == "PUT" || m == "PATCH"
  }

  /** URL, method, headers, body and timeout of the request. */
  function Prepare<P>(root: string, args: Args<P>): (r: Request<P>)
    ensures r.url == root + "/api" + args.src
    ensures args.httpMethod == None ==> r.httpMethod == "GET"
    ensures args.httpMethod.Some? ==> r.httpMethod == args.httpMethod.value
    ensures args.timeout == None ==> r.timeoutMs == 15000
    ensures args.timeout.Some? ==> r.timeoutMs == args.timeout.value
    ensures r.body.Some? <==> args.payload.Some? && MethodSendsBody(r.httpMethod)
    ensures r.body.Some? ==> r.body == args.payload
    ensures ContentType in r.headers <==> r.body.Some?
    ensures forall k :: k in r.headers ==> k == ContentType && r.headers[k] == JsonMediaType
  {
    var httpMethod := args.httpMethod.GetOr(DefaultMethod);
    var sends := args.payload.Some? && MethodSendsBody(httpMethod);
    Request(root + ApiPrefix + args.src, httpMethod,
            if sends then map[ContentType := JsonMediaType] else map[],
            if sends then args.payload else None,
            args.timeout.GetOr(DefaultTimeoutMs))
  }

  /** The error a rejected call reports: every abort becomes the same AbortError with a fixed
      message, every other error passes through unchanged. */
  function Normalise(e: JsError): (r: JsError)
    ensures e.name == AbortErrorName ==> r == JsError("AbortError", "API Called timeout")
    ensures e.name != AbortErrorName ==> r == e
    ensures r.name == e.name
  {
    if e.name == AbortErrorName then JsError(AbortErrorName, AbortMessage) else e
  }

  function Digit(d: nat): (c: char)
    requires d < 10
    ensures '0' <= c <= '9'
  {
    "0123456789"[d]
  }

  predicate AllDigits(s: string) {
    forall i :: 0 <= i < |s| ==> '0' <= s[i] <= '9'
  }

  /** The decimal text of a status code, as a template literal renders it. */
  function Decimal(n: nat): (s: string)
    ensures |s| >= 1 && AllDigits(s)
    ensures (s[0] == '0') <==> n == 0
    decreases n
  {
    if n < 10 then [Digit(n)] else Decimal(n / 10) + [Digit(n % 10)]
  }

  /** The value of a string of decimal digits. */
  function DecimalValue(s: string): nat
    requires AllDigits(s)
    decreases |s|
  {
    if s == [] then 0 else 10 * DecimalValue(s[..|s| - 1]) + ((s[|s| - 1] as int) - ('0' as int))
  }

  /** The rendering of a status code loses nothing: reading it back gives the code. */
  lemma {:induction false} DecimalRoundTrip(n: nat)
    ensures DecimalValue(Decimal(n)) == n
    decreases n
  {
    if n >= 10 {
      DecimalRoundTrip(n / 10);
      var s := Decimal(n);
      assert s[..|s| - 1] == Decimal(n / 10);
    }
  }

  /** The error thrown for a response whose status is not in the success range. */
  function HttpError(status: nat, body: string): (e: JsError)
    ensures e.name == "Error" && e.name != AbortErrorName
    ensures e.message == "HTTP error! status: " + Decimal(status) + " - " + body
  {
    JsError("Error", "HTTP error! status: " + Decimal(status) + " - " + body)
  }

  /** True when every occurrence of `later` in `t` has an occurrence of `earlier` before it. */
  ghost predicate Precedes(t: seq<Effect>, earlier: Effect, later: Effect) {
    forall j :: 0 <= j < |t| && t[j] == later ==> earlier in t[..j]
  }

  lemma PrecedesAppend(t: seq<Effect>, x: Effect, earlier: Effect, later: Effect)
    requires Precedes(t, earlier, later)
    requires x != later || earlier in t
    ensures Precedes(t + [x], earlier, later)
  {
    var u := t + [x];
    forall j | 0 <= j < |u| && u[j] == later
      ensures earlier in u[..j]
    {
      if j < |t| {
        assert u[..j] == t[..j];
      } else {
        assert u[..j] == t;
      }
    }
  }

  lemma AppendKeepsOrders(t: seq<Effect>, x: Effect)
    ensures Precedes(t, SetTimer, ClearTimer) && (x != ClearTimer || SetTimer in t) ==>
              Precedes(t + [x], SetTimer, ClearTimer)
    ensures Precedes(t, ClearTimer, ReadText) && (x != ReadText || ClearTimer in t) ==>
              Precedes(t + [x], ClearTimer, ReadText)
  {
    if Precedes(t, SetTimer, ClearTimer) && (x != ClearTimer || SetTimer in t) {
      PrecedesAppend(t, x, SetTimer, ClearTimer);
    }
    if Precedes(t, ClearTimer, ReadText) && (x != ReadText || ClearTimer in t) {
      PrecedesAppend(t, x, ClearTimer, ReadText);
    }
  }

  /** Appends one effect to a trace, keeping the two orderings `FetchRequest` promises. */
  function Record(t: seq<Effect>, x: Effect): (r: seq<Effect>)
    ensures r == t + [x]
    ensures Precedes(t, SetTimer, ClearTimer) && (x != ClearTimer || SetTimer in t) ==>
              Precedes(r, SetTimer, ClearTimer)
    ensures Precedes(t, ClearTimer, ReadText) && (x != ReadText || ClearTimer in t) ==>
              Precedes(r, ClearTimer, ReadText)
  {
    AppendKeepsOrders(t, x);
    t + [x]
  }

  /** One call of `fetchRequest`, with `fetch` replaced by its outcome. Returns the request
      handed to `fetch`, how the call settles, the effects in order, and whether the timer is
      still pending, the listener still attached and the internal controller aborted at the end.
      A signal that is already aborted aborts the internal controller before `fetch` is called,
      so `fetch` rejects with an AbortError whatever `outcome` says. */
  method FetchRequest<P, J>(root: string, args: Args<P>, outcome: FetchOutcome<J>)
    returns (request: Request<P>, result: Result<J, JsError>, trace: seq<Effect>,
             timerPending: bool, listening: bool, controllerAborted: bool)
    ensures request == Prepare(root, args)
    ensures args.signal == Signal(true) ==>
              controllerAborted && result == Failure(JsError("AbortError", "API Called timeout"))
    ensures args.signal != Signal(true) && outcome.Rejected? ==>
              result == Failure(Normalise(outcome.error))
    ensures args.signal != Signal(true) && outcome.Responded? && !outcome.response.ok ==>
              result == Failure(HttpError(outcome.response.status,
                                          outcome.response.text.GetOr(UnreadableBody)))
    ensures args.signal != Signal(true) && outcome.Responded? && outcome.response.ok ==>
              result == match outcome.response.json
                        case Success(j) => Success(j)
                        case Failure(e) => Failure(Normalise(e))
    ensures result.Failure? && result.error.name == AbortErrorName ==> result.error.message == AbortMessage
    ensures !timerPending && !listening
    ensures ClearTimer in trace && SetTimer in trace
    ensures args.signal == Signal(false) <==> AddListener in trace
    ensures args.signal == Signal(false) ==> RemoveListener in trace
    ensures Precedes(trace, SetTimer, ClearTimer)
    ensures Precedes(trace, ClearTimer, ReadText)
  {
    request := Prepare(root, args);
    trace := [];
    controllerAborted := false;
    listening := false;
    match args.signal {
      case Signal(true) =>
        controllerAborted := true;
        trace := Record(trace, AbortController);
      case Signal(false) =>
        listening := true;
        trace := Record(trace, AddListener);
      case NoSignal =>
    }
    timerPending := true;
    trace := Record(trace, SetTimer);
    trace := Record(trace, CallFetch);
    // fetch rejects at once when its signal is already aborted
    var settled := if controllerAborted then Rejected(JsError(AbortErrorName, "signal is aborted without reason")) else outcome;
    var thrown: Option<JsError> := None;
    match settled {
      case Rejected(e) =>
        thrown := Some(e);
      case Responded(response) =>
        timerPending := false;
        trace := Record(trace, ClearTimer);
        if listening {
          listening := false;
          trace := Record(trace, RemoveListener);
        }
        if !response.ok {
          trace := Record(trace, ReadText);
          var errBody := response.text.GetOr(UnreadableBody);
          thrown := Some(HttpError(response.status, errBody));
        } else {
          trace := Record(trace, ReadJson);
          match response.json {
            case Success(j) => result := Success(j);
            case Failure(e) => thrown := Some(e);
          }
        }
    }
    if thrown.Some? {
      // the catch block: clear the timer, detach the listener, map aborts
      timerPending := false;
      trace := Record(trace, ClearTimer);
      if args.signal == Signal(false) {
        listening := false;
        trace := Record(trace, RemoveListener);
      }
      result := Failure(Normalise(thrown.value));
    }
  }
}
