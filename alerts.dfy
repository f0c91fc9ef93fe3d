/**
 * The alert list behind the compliance dashboard: its two seeded cases, and the two
 * updates the context offers, each computing the next list from the previous one.
 */
module Alerts {
  import opened JsSemantics
  import opened ComplianceEngine

  /**
   * `initialMockAlerts`. `firstNow` and `secondNow` stand for the two separate evaluations of
   * `new Date().toISOString()`, one in each seeded action, at load time.
   */
  function InitialMockAlerts(firstNow: string, secondNow: string): (alerts: seq<DashboardAlert>)
    ensures |alerts| == 2
    ensures alerts[0].action.timestamp == firstNow && alerts[1].action.timestamp == secondNow
    ensures alerts[0].id == "CASE-9247" && alerts[1].id == "CASE-9243"
    ensures forall i :: 0 <= i < |alerts| ==> alerts[i].status == Pending
  {
    [ DashboardAlert(
        Block, Critical, [], "Unauthorized export attempt.", [],
        Action("EMP-001", "Sarah Johnson", "export_customer_list", "", firstNow),
        "CASE-9247", "Sarah Johnson", "2 minutes ago", Pending),
      DashboardAlert(
        Escalate, High, [], "Sensitive file shared externally.", [],
        Action("EMP-002", "Michael Chen", "external_share", "", secondNow),
        "CASE-9243", "Michael Chen", "14 minutes ago", Pending) ]
  }

  /** The seeded case identifiers have the form the dashboard generates. */
  lemma InitialIdsAreCaseIds(firstNow: string, secondNow: string)
    ensures InitialMockAlerts(firstNow, secondNow)[0].id == CaseId(9247)
    ensures InitialMockAlerts(firstNow, secondNow)[1].id == CaseId(9243)
  {
    assert DecimalString(9247) == "9247" by {
      assert DecimalString(924) == "924" by {
        assert DecimalString(92) == "92";
      }
    }
    assert DecimalString(9243) == "9243" by {
      assert DecimalString(924) == "924" by {
        assert DecimalString(92) == "92";
      }
    }
  }

  /** `addAlert`: the verdict becomes a new pending case in front of the list. */
  function AddAlert(alerts: seq<DashboardAlert>, response: ComplianceResponse, n: CaseSuffix)
    : (r: seq<DashboardAlert>)
    ensures |r| == |alerts| + 1
    ensures r[0] == NewAlert(response, n) && AsResponse(r[0]) == response
    ensures r[1..] == alerts
  {
    [NewAlert(response, n)] + alerts
  }

  /** `updateStatus`: every case with the given id takes the new status. */
  function UpdateStatus(alerts: seq<DashboardAlert>, id: string, status: AlertStatus)
    : (r: seq<DashboardAlert>)
    ensures |r| == |alerts|
    ensures forall i :: 0 <= i < |alerts| && alerts[i].id == id ==>
              r[i] == alerts[i].(status := status)
    ensures forall i :: 0 <= i < |alerts| && alerts[i].id != id ==> r[i] == alerts[i]
  {
    if alerts == [] then []
    else
      var a := alerts[0];
      [if a.id == id then a.(status := status) else a] + UpdateStatus(alerts[1..], id, status)
  }

  /** A status change keeps every case's id and verdict. */
  lemma UpdateStatusKeepsCases(alerts: seq<DashboardAlert>, id: string, status: AlertStatus)
    ensures forall i :: 0 <= i < |alerts| ==>
              UpdateStatus(alerts, id, status)[i].id == alerts[i].id &&
              AsResponse(UpdateStatus(alerts, id, status)[i]) == AsResponse(alerts[i])
  {
  }

  /** When no case carries the id, the list is unchanged. */
  lemma UpdateStatusNoMatch(alerts: seq<DashboardAlert>, id: string, status: AlertStatus)
    requires forall i :: 0 <= i < |alerts| ==> alerts[i].id != id
    ensures UpdateStatus(alerts, id, status) == alerts
  {
  }

  /** Applying the same status change twice is the same as applying it once. */
  lemma UpdateStatusIdempotent(alerts: seq<DashboardAlert>, id: string, status: AlertStatus)
    ensures UpdateStatus(UpdateStatus(alerts, id, status), id, status) == UpdateStatus(alerts, id, status)
  {
  }

  /**
   * Reviewing a freshly added case reaches that case; the older cases change only
   * where they share its id.
   */
  lemma UpdateNewCase(alerts: seq<DashboardAlert>, response: ComplianceResponse, n: CaseSuffix,
                      status: AlertStatus)
    ensures UpdateStatus(AddAlert(alerts, response, n), CaseId(n), status)
            == [NewAlert(response, n).(status := status)] + UpdateStatus(alerts, CaseId(n), status)
  {
    var added := AddAlert(alerts, response, n);
    assert added[1..] == alerts;
  }
}
