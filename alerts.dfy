/**
 * The simulated alert feed: GET returns two fixed alerts stamped for the
 * session user, POST echoes back one new alert built from the body with
 * defaults. Nothing is stored. Times are seconds on the abstract clock `now`.
 */
module Alerts {
  import opened Wrappers

  datatype Verb = Options | Get | Post | OtherVerb

  datatype Alert = Alert(id: nat, userId: nat, breakerId: int, kind: string, message: string,
                         severity: string, status: string, createdAt: int, resolvedAt: Option<int>)

  /** The decoded POST body; a field is `None` when unset or null (or the body is not JSON). */
  datatype AlertInput = AlertInput(breakerId: Option<int>, kind: Option<string>, message: Option<string>,
                                   severity: Option<string>)

  datatype Response =
    | PreflightOk                // 200, empty body
    | Unauthorized               // 401
    | Feed(alerts: seq<Alert>)   // 200
    | Posted(alert: Alert)       // 200
    | MethodNotAllowed           // 405

  /** The two simulated alerts, one and two hours old. */
  function SimulatedAlerts(userId: nat, now: int): (r: seq<Alert>)
    ensures |r| == 2
    ensures forall k :: 0 <= k < |r| ==>
              r[k].id == k + 1 && r[k].userId == userId && r[k].status == "active" && r[k].resolvedAt.None? &&
              r[k].createdAt == now - 3600 * (k + 1)
  {
    [Alert(1, userId, 1, "overload", "High current detected in Kitchen", "high", "active", now - 3600, None),
     Alert(2, userId, 2, "voltage", "Voltage fluctuation in Living Room", "medium", "active", now - 7200, None)]
  }

  /** The alert a POST reports: the next id after the simulated ones, body fields or their defaults. */
  function NewAlert(userId: nat, input: AlertInput, now: int): (a: Alert)
    ensures a.id == |SimulatedAlerts(userId, now)| + 1 == 3
    ensures a.userId == userId && a.status == "active" && a.resolvedAt.None? && a.createdAt == now
    ensures a.breakerId == input.breakerId.GetOr(1) && a.kind == input.kind.GetOr("overload")
    ensures a.message == input.message.GetOr("New alert") && a.severity == input.severity.GetOr("medium")
  {
    Alert(|SimulatedAlerts(userId, now)| + 1, userId, input.breakerId.GetOr(1), input.kind.GetOr("overload"),
          input.message.GetOr("New alert"), input.severity.GetOr("medium"), "active", now, None)
  }

  /** The alerts script; `sessionUser` is the session's user id, 0 counting as absent. */
  function Handle(verb: Verb, sessionUser: Option<nat>, input: AlertInput, now: int): (r: Response)
    ensures verb == Options <==> r == PreflightOk
    ensures verb != Options && (sessionUser.None? || sessionUser.value == 0) <==> r == Unauthorized
    ensures r.Feed? <==> verb == Get && sessionUser.Some? && sessionUser.value != 0
    ensures r.Feed? ==> r.alerts == SimulatedAlerts(sessionUser.value, now)
    ensures r.Posted? <==> verb == Post && sessionUser.Some? && sessionUser.value != 0
    ensures r.Posted? ==> r.alert == NewAlert(sessionUser.value, input, now)
    ensures r == MethodNotAllowed <==> verb == OtherVerb && sessionUser.Some? && sessionUser.value != 0
  {
    if verb == Options then PreflightOk
    else if sessionUser.None? || sessionUser.value == 0 then Unauthorized
    else match verb
      case Get => Feed(SimulatedAlerts(sessionUser.value, now))
      case Post => Posted(NewAlert(sessionUser.value, input, now))
      case _ => MethodNotAllowed
  }

  /** Nothing is persisted: what a GET returns ignores any body, so no earlier POST can change it. */
  lemma FeedIgnoresPosts(sessionUser: Option<nat>, a: AlertInput, b: AlertInput, now: int)
    ensures Handle(Get, sessionUser, a, now) == Handle(Get, sessionUser, b, now)
  {
  }

  /** An empty POST body gives the fully defaulted alert. */
  lemma EmptyPostDefaults(userId: nat, now: int)
    requires userId != 0
    ensures Handle(Post, Some(userId), AlertInput(None, None, None, None), now) ==
            Posted(Alert(3, userId, 1, "overload", "New alert", "medium", "active", now, None))
  {
  }
}
