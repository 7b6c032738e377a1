/**
 * The reports page: reports by status tab, the per-report warn/mute/ban buttons and
 * the loading key that disables them while an action is under way.
 */
module AdminReportsView {
  import opened Wrappers
  import opened Seqs
  import opened Text

  datatype Report = Report(id: string, status: string, reasonCategory: string, reportedId: Option<string>)

  datatype ModAction = Warn | Mute | Ban

  function ActionName(a: ModAction): string {
    match a
    case Warn => "warn"
    case Mute => "mute"
    case Ban => "ban"
  }

  /** `reports.filter(r => r.status === activeTab)` */
  function FilteredReports(reports: seq<Report>, activeTab: string): seq<Report> {
    Filter(reports, (r: Report) => r.status == activeTab)
  }

  /** A tab lists exactly the reports with its status, in the order received. */
  lemma FilteredReportsSpec(reports: seq<Report>, activeTab: string, r: Report)
    ensures IsSubseq(FilteredReports(reports, activeTab), reports)
    ensures r in FilteredReports(reports, activeTab) <==> r in reports && r.status == activeTab
  {
    FilterIsSubseq(reports, (q: Report) => q.status == activeTab);
    FilterMembership(reports, (q: Report) => q.status == activeTab, r);
  }

  /** `reportId + action`: the value `actionLoading` holds while an action runs. */
  function LoadingKey(reportId: string, a: ModAction): string {
    reportId + ActionName(a)
  }

  lemma ConcatCancel(x: string, u: string, y: string, v: string)
    requires x + u == y + v && |u| == |v|
    ensures x == y && u == v
  {
    assert x == (x + u)[..|x|];
    assert y == (y + v)[..|y|];
    assert u == (x + u)[|x|..];
    assert v == (y + v)[|y|..];
  }

  lemma LastThree(x: string, u: string)
    requires |u| >= 3
    ensures (x + u)[|x + u| - 3..] == u[|u| - 3..]
  {
  }

  /** The loading key names its report and its action: no two (report, action) pairs share one. */
  lemma LoadingKeyInjective(id1: string, a1: ModAction, id2: string, a2: ModAction)
    requires LoadingKey(id1, a1) == LoadingKey(id2, a2)
    ensures id1 == id2 && a1 == a2
  {
    var n1, n2 := ActionName(a1), ActionName(a2);
    if |n1| == |n2| {
      ConcatCancel(id1, n1, id2, n2);
    } else {
      LastThree(id1, n1);
      LastThree(id2, n2);
    }
  }

  /** `isItemLoading`: the key is this report's id followed by one of the three actions. */
  predicate IsItemLoading(actionLoading: Option<string>, reportId: string) {
    actionLoading == Some(LoadingKey(reportId, Warn)) ||
    actionLoading == Some(LoadingKey(reportId, Mute)) ||
    actionLoading == Some(LoadingKey(reportId, Ban))
  }

  /** While an action on one report runs, that report shows as loading and no other does. */
  lemma LoadingOnlyActedReport(reportId: string, a: ModAction, other: string)
    ensures IsItemLoading(Some(LoadingKey(reportId, a)), reportId)
    ensures other != reportId ==> !IsItemLoading(Some(LoadingKey(reportId, a)), other)
  {
    if other != reportId && IsItemLoading(Some(LoadingKey(reportId, a)), other) {
      if LoadingKey(reportId, a) == LoadingKey(other, Warn) {
        LoadingKeyInjective(reportId, a, other, Warn);
      } else if LoadingKey(reportId, a) == LoadingKey(other, Mute) {
        LoadingKeyInjective(reportId, a, other, Mute);
      } else {
        LoadingKeyInjective(reportId, a, other, Ban);
      }
    }
  }

  /** The action buttons exist only on the `pending` tab. */
  predicate ButtonsShown(activeTab: string) {
    activeTab == "pending"
  }

  /** A report's buttons are disabled while it is loading or when the reported user is gone. */
  predicate ButtonsDisabled(r: Report, actionLoading: Option<string>) {
    IsItemLoading(actionLoading, r.id) || r.reportedId.None?
  }

  /**
   * Buttons appear on a listed report exactly when the pending tab is open and the report is
   * pending.
   */
  lemma ButtonsOnlyOnPending(reports: seq<Report>, activeTab: string, r: Report)
    ensures (ButtonsShown(activeTab) && r in FilteredReports(reports, activeTab)) <==>
      (activeTab == "pending" && r in reports && r.status == "pending")
  {
    FilteredReportsSpec(reports, activeTab, r);
  }

  /**
   * While an action on one report is in flight, only that report's buttons are disabled among
   * those whose reported user still exists; with nothing in flight, only those without one are.
   */
  lemma ButtonsDisabledWhileActing(r: Report, acted: string, a: ModAction)
    ensures r.reportedId.Some? ==> (ButtonsDisabled(r, Some(LoadingKey(acted, a))) <==> r.id == acted)
    ensures ButtonsDisabled(r, None) <==> r.reportedId.None?
  {
    LoadingOnlyActedReport(acted, a, r.id);
  }

  const CategoryIcons: map<string, string> := map[
    "toxic" := "\U{1F92C}", "sara" := "\U{26A1}", "pornografi" := "\U{1F51E}",
    "spam" := "\U{1F4E2}", "scam" := "\U{1F3A3}", "lainnya" := "\U{1F4DD}"]

  /** `categoryIcons[r.reasonCategory] || "📝"` */
  function CategoryIcon(category: string): (icon: string)
    ensures category in CategoryIcons ==> icon == CategoryIcons[category]
    ensures category !in CategoryIcons ==> icon == "\U{1F4DD}"
  {
    if category in CategoryIcons then CategoryIcons[category] else "\U{1F4DD}"
  }

  /** `lainnya` ("other") and every unknown category share the memo icon. */
  lemma UnknownCategoryLikeOther(category: string)
    requires category !in CategoryIcons
    ensures CategoryIcon(category) == CategoryIcon("lainnya")
  {
  }

  /** The call `takeAction` makes: the reported user's id (possibly missing), the action, the report. */
  datatype ActionRequest = ActionRequest(userId: Option<string>, action: ModAction, reportId: string)

  /** The result of the call: the server's message, or an error with an optional server message. */
  datatype ActionOutcome = ActionDone(msg: string) | ActionFailed(serverMsg: Option<string>, errorMessage: string)

  function OutcomeAlert(outcome: ActionOutcome): (t: string)
    ensures outcome.ActionDone? ==> t == outcome.msg
    ensures outcome.ActionFailed? && Truthy(outcome.serverMsg) ==> t == "Gagal ambil tindakan: " + outcome.serverMsg.value
    ensures outcome.ActionFailed? && !Truthy(outcome.serverMsg) ==> t == "Gagal ambil tindakan: " + outcome.errorMessage
  {
    match outcome
    case ActionDone(msg) => msg
    case ActionFailed(serverMsg, errorMessage) =>
      "Gagal ambil tindakan: " + OrElse(serverMsg, errorMessage)
  }

  class AdminReports {
    var reports: seq<Report>
    var activeTab: string
    var actionLoading: Option<string>
    var requests: seq<ActionRequest>
    var alerts: seq<string>

    constructor ()
      ensures reports == [] && activeTab == "pending" && actionLoading == None
      ensures requests == [] && alerts == []
    {
      reports := [];
      activeTab := "pending";
      actionLoading := None;
      requests := [];
      alerts := [];
    }

    method OnReportsFetched(rs: seq<Report>)
      modifies this`reports
      ensures reports == rs
    {
      reports := rs;
    }

    method SelectTab(tab: string)
      modifies this`activeTab
      ensures activeTab == tab
    {
      activeTab := tab;
    }

    /**
     * The first half of `takeAction`: a declined confirm does nothing; an accepted one marks the
     * report and action as loading and issues the call.
     */
    method BeginTakeAction(reportId: string, userId: Option<string>, action: ModAction, confirmed: bool)
      modifies this`actionLoading, this`requests
      ensures confirmed ==>
        actionLoading == Some(LoadingKey(reportId, action)) &&
        requests == old(requests) + [ActionRequest(userId, action, reportId)]
      ensures !confirmed ==> actionLoading == old(actionLoading) && requests == old(requests)
    {
      if confirmed {
        actionLoading := Some(LoadingKey(reportId, action));
        requests := requests + [ActionRequest(userId, action, reportId)];
      }
    }

    /** The second half: the outcome is alerted and the loading key is cleared either way. */
    method ResolveTakeAction(outcome: ActionOutcome)
      modifies this`actionLoading, this`alerts
      ensures actionLoading == None
      ensures alerts == old(alerts) + [OutcomeAlert(outcome)]
    {
      alerts := alerts + [OutcomeAlert(outcome)];
      actionLoading := None;
    }
  }
}
