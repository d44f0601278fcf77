/** The shared application store: its initial state and its reducer
    (src/contexts/reducers/storeReducer.js). */
module Store {
  import opened Js
  import opened WifiRecords

  /** The device connectivity record the store keeps under `provisioning`. */
  datatype ProvisioningInfo = ProvisioningInfo(isOperational: bool, ip: string)

  datatype State = State(
    language: string,
    loading: bool,
    provisioning: ProvisioningInfo,
    wifiNetworks: seq<Network>)

  /** A dispatched action. `Unrecognised` stands for any value of the `type` field that is not
      one of the six action-type constants (for instance the constants object itself). */
  datatype Action =
    | GetLanguage(language: string)
    | UpdateLanguage(language: string)
    | StartLoading
    | EndLoading
    | SetProvisioning(info: ProvisioningInfo)
    | SetWifiNetworks(networks: seq<Network>)
    | ResetWifiNetworks
    | Unrecognised
  {
    predicate IsLanguage() { GetLanguage? || UpdateLanguage? }
  }

  /** One `setCookie` call, recorded instead of performed. */
  datatype CookieWrite = CookieWrite(name: string, value: string, days: nat)

  /** What one reduction yields: the next state and the cookie writes made on the way. */
  datatype Step = Step(state: State, cookies: seq<CookieWrite>)

  const DefaultLanguage := "vi"
  const LanguageCookie := "language"
  const LanguageCookieDays := 365

  /** The initial state, given the value of the `language` cookie (None when it is not set). */
  function InitState(cookie: Option<string>): (s: State)
    ensures cookie.Some? && cookie.value != "" ==> s.language == cookie.value
    ensures cookie == None || cookie == Some("") ==> s.language == DefaultLanguage
    ensures !s.loading
    ensures s.provisioning == ProvisioningInfo(false, "")
    ensures s.wifiNetworks == []
  {
    State(Or(cookie.GetOr(""), DefaultLanguage), false, ProvisioningInfo(false, ""), [])
  }

  /** The reducer: one `switch` over the action type, returning a copy of the state. */
  function Reduce(s: State, a: Action): (r: Step)
    ensures |r.cookies| == if a.IsLanguage() then 1 else 0
    ensures !a.IsLanguage() ==> r.state.language == s.language
    ensures !(a.StartLoading? || a.EndLoading?) ==> r.state.loading == s.loading
    ensures !a.SetProvisioning? ==> r.state.provisioning == s.provisioning
    ensures !(a.SetWifiNetworks? || a.ResetWifiNetworks?) ==> r.state.wifiNetworks == s.wifiNetworks
  {
    match a
    case GetLanguage(lang) =>
      Step(s.(language := lang), [CookieWrite(LanguageCookie, lang, LanguageCookieDays)])
    case UpdateLanguage(lang) =>
      Step(s.(language := lang), [CookieWrite(LanguageCookie, lang, LanguageCookieDays)])
    case StartLoading => Step(s.(loading := true), [])
    case EndLoading => Step(s.(loading := false), [])
    case SetProvisioning(info) => Step(s.(provisioning := info), [])
    case SetWifiNetworks(list) => Step(s.(wifiNetworks := list), [])
    case ResetWifiNetworks => Step(s.(wifiNetworks := []), [])
    case Unrecognised => Step(s, [])
  }

  /** Dispatching several actions in order; the cookie writes are concatenated. */
  function ReduceAll(s: State, actions: seq<Action>): (r: Step)
    decreases |actions|
  {
    if actions == [] then Step(s, [])
    else
      var first := Reduce(s, actions[0]);
      var rest := ReduceAll(first.state, actions[1..]);
      Step(rest.state, first.cookies + rest.cookies)
  }

  /** GET_LANGUAGE and UPDATE_LANGUAGE are the same case: the language becomes the payload,
      nothing else changes, and exactly one cookie is written. */
  lemma LanguageActions(s: State, lang: string)
    ensures Reduce(s, GetLanguage(lang)) == Reduce(s, UpdateLanguage(lang))
    ensures Reduce(s, UpdateLanguage(lang)).state == s.(language := lang)
    ensures Reduce(s, UpdateLanguage(lang)).cookies == [CookieWrite("language", lang, 365)]
  {
  }

  /** START_LOADING and END_LOADING set the flag and touch nothing else. */
  lemma LoadingActions(s: State)
    ensures Reduce(s, StartLoading) == Step(s.(loading := true), [])
    ensures Reduce(s, EndLoading) == Step(s.(loading := false), [])
  {
  }

  /** SET_WIFI_NETWORKS and SET_PROVISIONING replace their field wholesale. */
  lemma ReplaceActions(s: State, list: seq<Network>, info: ProvisioningInfo)
    ensures Reduce(s, SetWifiNetworks(list)) == Step(s.(wifiNetworks := list), [])
    ensures Reduce(s, SetProvisioning(info)) == Step(s.(provisioning := info), [])
  {
  }

  /** RESET_WIFI_NETWORKS empties the list whatever it held, and doing it twice is doing it once. */
  lemma ResetWifiNetworksIdempotent(s: State)
    ensures Reduce(s, ResetWifiNetworks).state.wifiNetworks == []
    ensures Reduce(Reduce(s, ResetWifiNetworks).state, ResetWifiNetworks) == Reduce(s, ResetWifiNetworks)
  {
  }

  /** The default case returns the state itself. */
  lemma UnrecognisedIsIdentity(s: State)
    ensures Reduce(s, Unrecognised) == Step(s, [])
  {
  }

  /** A sequence of dispatches writes one cookie per language action it contains. */
  lemma {:induction false} CookiesCountLanguageActions(s: State, actions: seq<Action>)
    ensures |ReduceAll(s, actions).cookies| == |LanguageActionsIn(actions)|
    decreases |actions|
  {
    if actions != [] {
      CookiesCountLanguageActions(Reduce(s, actions[0]).state, actions[1..]);
      assert actions == [actions[0]] + actions[1..];
    }
  }

  /** The language actions of a sequence of dispatches, in order. */
  function LanguageActionsIn(actions: seq<Action>): seq<Action>
    decreases |actions|
  {
    if actions == [] then []
    else (if actions[0].IsLanguage() then [actions[0]] else []) + LanguageActionsIn(actions[1..])
  }
}
