/** The message the error page shows (src/components/Error/error.jsx). */
module ErrorPage {
  import opened Js

  /** The route error, if one was thrown; a missing or falsy field is "". */
  datatype RouteError = RouteError(message: string, statusText: string)

  /** `location?.state?.message || (routeError && (routeError.message || routeError.statusText))
      || defaultMessage`, where `stateMessage` is None when the location, its state or the
      message is missing, and `defaultMessage` is the translated default. */
  function Message(stateMessage: Option<string>, routeError: Option<RouteError>, defaultMessage: string): (m: string)
    ensures stateMessage.Some? && stateMessage.value != "" ==> m == stateMessage.value
    ensures (stateMessage == None || stateMessage == Some("")) && routeError.Some? ==>
              (routeError.value.message != "" ==> m == routeError.value.message)
              && (routeError.value.message == "" && routeError.value.statusText != "" ==> m == routeError.value.statusText)
              && (routeError.value.message == "" && routeError.value.statusText == "" ==> m == defaultMessage)
    ensures (stateMessage == None || stateMessage == Some("")) && routeError == None ==> m == defaultMessage
    ensures m == "" ==> defaultMessage == ""
  {
    var fromState := stateMessage.GetOr("");
    var fromRoute := match routeError
                     case Some(r) => Or(r.message, r.statusText)
                     case None => "";
    Or(Or(fromState, fromRoute), defaultMessage)
  }
}
