/** The dashboard's system-alerts panel: resolving an alert, the count of
    active alerts, the "Mark as resolved" action and the per-type icon and
    colour. */
module Dashboard {
  import opened Seqs

  datatype AlertType = Warning | Error | Info | Success

  /** An alert; the timestamp is an opaque string. */
  datatype Alert = Alert(id: int, kind: AlertType, title: string, message: string, timestamp: string, resolved: bool)

  /** `resolveAlert`: every alert with that id becomes resolved; all else,
      the length and the order are kept. */
  function WithResolved(alerts: seq<Alert>, id: int): (r: seq<Alert>)
    ensures |r| == |alerts|
    ensures forall i :: 0 <= i < |alerts| && alerts[i].id == id ==> r[i] == alerts[i].(resolved := true)
    ensures forall i :: 0 <= i < |alerts| && alerts[i].id != id ==> r[i] == alerts[i]
  {
    MapWhere((a: Alert) => a.id == id, (a: Alert) => a.(resolved := true), alerts)
  }

  /** Resolving the same alert twice is resolving it once. */
  lemma ResolveIdempotent(alerts: seq<Alert>, id: int)
    ensures WithResolved(WithResolved(alerts, id), id) == WithResolved(alerts, id)
  {
    MapWhereIdempotent((a: Alert) => a.id == id, (a: Alert) => a.(resolved := true), alerts);
  }

  /** The "N Active" badge. */
  function ActiveCount(alerts: seq<Alert>): (n: nat)
    ensures n <= |alerts|
    ensures n == 0 <==> forall i :: 0 <= i < |alerts| ==> alerts[i].resolved
  {
    FilterEmpty((a: Alert) => !a.resolved, alerts);
    |Filter((a: Alert) => !a.resolved, alerts)|
  }

  /** Resolving lowers the badge by exactly the number of unresolved alerts
      with that id, so it never raises it. */
  lemma {:induction false} ResolveLowersActiveCount(alerts: seq<Alert>, id: int)
    ensures ActiveCount(WithResolved(alerts, id)) ==
            ActiveCount(alerts) - |Filter((a: Alert) => a.id == id && !a.resolved, alerts)|
    ensures ActiveCount(WithResolved(alerts, id)) <= ActiveCount(alerts)
    decreases |alerts|
  {
    if |alerts| > 0 {
      ResolveLowersActiveCount(alerts[1..], id);
      assert WithResolved(alerts, id)[1..] == WithResolved(alerts[1..], id);
    }
  }

  /** The "Mark as resolved" button is shown exactly for unresolved alerts. */
  predicate ShowsResolveAction(a: Alert)
  {
    !a.resolved
  }

  /** Clicking the button of an alert that shows it lowers the badge by at
      least one, and afterwards no alert with that id shows the button. */
  lemma ResolveFromButton(alerts: seq<Alert>, k: int)
    requires 0 <= k < |alerts| && ShowsResolveAction(alerts[k])
    ensures ActiveCount(WithResolved(alerts, alerts[k].id)) < ActiveCount(alerts)
    ensures forall i :: 0 <= i < |alerts| && alerts[i].id == alerts[k].id ==>
              !ShowsResolveAction(WithResolved(alerts, alerts[k].id)[i])
  {
    var id := alerts[k].id;
    ResolveLowersActiveCount(alerts, id);
    assert alerts[k] in Filter((a: Alert) => a.id == id && !a.resolved, alerts);
  }

  /** `getAlertIcon`. */
  function AlertIcon(t: AlertType): (r: string)
    ensures |r| == 1
  {
    match t
    case Error => "\U{1F534}"
    case Warning => "\U{1F7E1}"
    case Info => "\U{1F535}"
    case Success => "\U{1F7E2}"
  }

  /** `getAlertColor`. */
  function AlertColor(t: AlertType): (r: string)
    ensures |r| > 7 && r[..7] == "border-"
  {
    match t
    case Error => "border-red-200 bg-red-50"
    case Warning => "border-yellow-200 bg-yellow-50"
    case Info => "border-blue-200 bg-blue-50"
    case Success => "border-green-200 bg-green-50"
  }

  /** The first letter of each alert type's colour name. */
  function ColorInitial(t: AlertType): char
  {
    match t
    case Error => 'r'
    case Warning => 'y'
    case Info => 'b'
    case Success => 'g'
  }

  /** Each alert type has its own icon and its own colour. */
  lemma AlertStylesDistinct(s: AlertType, t: AlertType)
    ensures AlertIcon(s) == AlertIcon(t) <==> s == t
    ensures AlertColor(s) == AlertColor(t) <==> s == t
  {
    if s != t {
      assert AlertIcon(s)[0] != AlertIcon(t)[0];
      assert AlertColor(s)[7] == ColorInitial(s) && AlertColor(t)[7] == ColorInitial(t);
    }
  }

  /** The alerts panel's state. */
  class DashboardScreen {
    var alerts: seq<Alert>

    constructor ()
      ensures alerts == []
    {
      alerts := [];
    }

    /** The load of the alert list. */
    method Load(loaded: seq<Alert>)
      modifies this
      ensures alerts == loaded
    {
      alerts := loaded;
    }

    /** `resolveAlert`. */
    method ResolveAlert(id: int)
      modifies this
      ensures alerts == WithResolved(old(alerts), id)
      ensures ActiveCount(alerts) <= ActiveCount(old(alerts))
    {
      ResolveLowersActiveCount(alerts, id);
      alerts := WithResolved(alerts, id);
    }
  }
}
