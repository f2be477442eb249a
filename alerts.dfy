/** Alert records and their dismissal. */
module Alerts {
  import opened Lookup

  datatype AlertKind = Warning | Info

  datatype Alert = Alert(id: int, kind: AlertKind, title: string, message: string, time: string, dismissed: bool)

  function AlertIds(alerts: seq<Alert>): seq<int>
  {
    Ids(alerts, (a: Alert) => a.id)
  }

  /** The alerts after the one found under `id` is marked dismissed; an unknown id leaves them as they are. */
  function Dismiss(alerts: seq<Alert>, id: int): (r: seq<Alert>)
    ensures |r| == |alerts|
    ensures forall i :: 0 <= i < |r| ==> r[i] == alerts[i].(dismissed := r[i].dismissed)
    ensures forall i :: 0 <= i < |r| && alerts[i].id != id ==> r[i] == alerts[i]
    ensures id in AlertIds(alerts) ==> exists i :: 0 <= i < |r| && r[i].id == id && r[i].dismissed
  {
    match FirstIndexOf(AlertIds(alerts), id)
    case None => alerts
    case Some(k) => alerts[k := alerts[k].(dismissed := true)]
  }

  /** Dismissal changes no id, so a second lookup finds the same alert. */
  lemma DismissKeepsIds(alerts: seq<Alert>, id: int)
    ensures AlertIds(Dismiss(alerts, id)) == AlertIds(alerts)
  {
    var r := Dismiss(alerts, id);
    forall i | 0 <= i < |alerts|
      ensures AlertIds(r)[i] == AlertIds(alerts)[i]
    {
    }
  }

  /** Dismissing twice is dismissing once. */
  lemma DismissIdempotent(alerts: seq<Alert>, id: int)
    ensures Dismiss(Dismiss(alerts, id), id) == Dismiss(alerts, id)
  {
    DismissKeepsIds(alerts, id);
  }

  /**
   * With distinct ids, exactly the alert with that id ends dismissed; every
   * other alert, and everything else about that one, is unchanged.
   */
  lemma DismissOnlyMatching(alerts: seq<Alert>, id: int)
    requires Distinct(AlertIds(alerts))
    ensures forall i :: 0 <= i < |alerts| ==>
      Dismiss(alerts, id)[i] == if alerts[i].id == id then alerts[i].(dismissed := true) else alerts[i]
  {
  }

  /** An id no alert carries changes nothing. */
  lemma DismissUnknown(alerts: seq<Alert>, id: int)
    requires id !in AlertIds(alerts)
    ensures Dismiss(alerts, id) == alerts
  {
  }
}
