/** The audit log tab: pages of 25 entries stepped by Previous and Next, and the action colours. */
module AuditLogView {
  import opened Text
  import opened Auth
  import opened Paging

  const LogLimit: nat := 25

  const ActionColors: map<string, string> := map[
    "DELETE_USER" := "bg-red-100 text-red-800 dark:bg-red-900/50 dark:text-red-300",
    "REJECT_USER" := "bg-red-100 text-red-800 dark:bg-red-900/50 dark:text-red-300",
    "CHANGE_ROLE" := "bg-purple-100 text-purple-800 dark:bg-purple-900/50 dark:text-purple-300",
    "DELETE_CHAT" := "bg-yellow-100 text-yellow-800 dark:bg-yellow-900/50 dark:text-yellow-300",
    "ACTION_WARN" := "bg-orange-100 text-orange-800 dark:bg-orange-900/50 dark:text-orange-300",
    "ACTION_MUTE" := "bg-orange-100 text-orange-800 dark:bg-orange-900/50 dark:text-orange-300",
    "ACTION_BAN" := "bg-red-100 text-red-800 dark:bg-red-900/50 dark:text-red-300"]

  /** `actionColors[log.action] || "bg-gray-100"` */
  function ActionColor(action: string): (c: string)
    ensures action in ActionColors ==> c == ActionColors[action]
    ensures action !in ActionColors ==> c == "bg-gray-100"
  {
    if action in ActionColors then ActionColors[action] else "bg-gray-100"
  }

  /** The seven known actions get a colour of their own; anything else, the grey fallback. */
  lemma ActionColorFallback(action: string)
    ensures ActionColor(action) == "bg-gray-100" <==>
      action !in {"DELETE_USER", "REJECT_USER", "CHANGE_ROLE", "DELETE_CHAT", "ACTION_WARN", "ACTION_MUTE", "ACTION_BAN"}
  {
  }

  datatype LogEntry = LogEntry(adminAlias: string, action: string, targetUserAlias: string, details: string)

  /** `getAuditLogs(token, page, limit)` */
  datatype LogRequest = LogRequest(page: int, limit: nat)

  /** The answer to a log request: a page of entries and the total count, or a failure. */
  datatype FetchOutcome = Fetched(entries: seq<LogEntry>, total: nat) | FetchFailed

  class AuditLogTab {
    const user: AuthUser
    var logs: seq<LogEntry>
    var totalLogs: nat
    var page: int
    var loading: bool
    var requests: seq<LogRequest>

    function TotalLogPages(): nat
      reads this
    {
      TotalPages(totalLogs, LogLimit)
    }

    /** The page lies between 1 and the last page (1 when there is at most one page). */
    predicate InRange()
      reads this
    {
      1 <= page && (page == 1 || page <= TotalLogPages())
    }

    /** The bar is rendered: not while the spinner replaces the tab, and only with more than one page. */
    predicate BarShown()
      reads this
    {
      !loading && TotalLogPages() > 1
    }

    constructor (user: AuthUser)
      ensures this.user == user
      ensures logs == [] && totalLogs == 0 && page == 1 && loading && requests == []
      ensures InRange()
    {
      this.user := user;
      logs := [];
      totalLogs := 0;
      page := 1;
      loading := true;
      requests := [];
    }

    /**
     * `fetchLogs` up to the call, run on mount and whenever the page changes: without a token it
     * returns at once and the spinner stays as it is; otherwise loading starts and the current
     * page is requested.
     */
    method BeginFetch()
      modifies this`loading, this`requests
      ensures Truthy(user.token) ==> loading && requests == old(requests) + [LogRequest(page, LogLimit)]
      ensures !Truthy(user.token) ==> loading == old(loading) && requests == old(requests)
    {
      if Truthy(user.token) {
        loading := true;
        requests := requests + [LogRequest(page, LogLimit)];
      }
    }

    /** The answer: a page of the log and the total on success, nothing on failure; loading ends either way. */
    method ResolveFetch(outcome: FetchOutcome)
      requires loading
      modifies this`logs, this`totalLogs, this`loading
      ensures !loading
      ensures outcome.Fetched? ==> logs == outcome.entries && totalLogs == outcome.total
      ensures outcome.FetchFailed? ==> logs == old(logs) && totalLogs == old(totalLogs)
    {
      loading := false;
      if outcome.Fetched? {
        logs := outcome.entries;
        totalLogs := outcome.total;
      }
    }

    /** Previous: only on the rendered bar, and disabled on page 1; else one page back. */
    method Previous()
      modifies this`page
      ensures page == if BarShown() && old(page) != 1 then old(page) - 1 else old(page)
      ensures old(InRange()) ==> InRange()
    {
      if BarShown() && page != 1 {
        page := page - 1;
      }
    }

    /**
     * Next: only on the rendered bar, and disabled exactly on the last page; else one page on.
     * A page beyond the last one, left by a refetch with a smaller total, keeps it enabled.
     */
    method Next()
      modifies this`page
      ensures page == if BarShown() && old(page) != TotalLogPages() then old(page) + 1 else old(page)
      ensures old(InRange()) ==> InRange()
    {
      if BarShown() && page != TotalLogPages() {
        page := page + 1;
      }
    }

    /**
     * A click, then the effect on `[user, page]`: only a click that changes the page refetches,
     * and the given outcome answers that request. A click that leaves the page alone sends
     * nothing and changes nothing else.
     */
    method ClickAndFetch(next: bool, outcome: FetchOutcome)
      requires Truthy(user.token)
      modifies this`page, this`logs, this`totalLogs, this`loading, this`requests
      ensures page == if next then
          (if old(BarShown()) && old(page) != old(TotalLogPages()) then old(page) + 1 else old(page))
        else if old(BarShown()) && old(page) != 1 then old(page) - 1 else old(page)
      ensures page != old(page) ==> !loading && requests == old(requests) + [LogRequest(page, LogLimit)]
      ensures page != old(page) && outcome.Fetched? ==> logs == outcome.entries && totalLogs == outcome.total
      ensures page != old(page) && outcome.FetchFailed? ==> logs == old(logs) && totalLogs == old(totalLogs)
      ensures page == old(page) ==>
        logs == old(logs) && totalLogs == old(totalLogs) && loading == old(loading) && requests == old(requests)
      ensures old(InRange()) && (outcome.FetchFailed? || outcome.total == old(totalLogs)) ==> InRange()
    {
      var before := page;
      if next {
        Next();
      } else {
        Previous();
      }
      if page != before {
        BeginFetch();
        ResolveFetch(outcome);
      }
    }
  }

  /** With a fixed total, any run of Previous and Next clicks from page 1 stays within the pages. */
  method ClickThrough(user: AuthUser, total: nat, clicks: seq<bool>) returns (final: int)
    requires Truthy(user.token)
    ensures 1 <= final && (final == 1 || final <= TotalPages(total, LogLimit))
  {
    var tab := new AuditLogTab(user);
    tab.BeginFetch();
    tab.ResolveFetch(Fetched([], total));
    var i := 0;
    while i < |clicks|
      invariant 0 <= i <= |clicks|
      invariant tab.user == user
      invariant tab.totalLogs == total && tab.InRange()
    {
      tab.ClickAndFetch(clicks[i], Fetched([], total));
      i := i + 1;
    }
    final := tab.page;
  }

  /**
   * Paging to the last of four pages, then a refetch that reports only two pages, leaves the
   * tab on page 4 of 2, and Next still moves on to page 5.
   */
  method ShrinkingTotal(user: AuthUser) returns (page: int, pages: nat)
    requires Truthy(user.token)
    ensures pages == 2 && page == 5
  {
    var tab := new AuditLogTab(user);
    tab.BeginFetch();
    tab.ResolveFetch(Fetched([], 100));
    assert tab.TotalLogPages() == 4;
    tab.ClickAndFetch(true, Fetched([], 100));
    tab.ClickAndFetch(true, Fetched([], 100));
    tab.ClickAndFetch(true, Fetched([], 30));
    assert tab.page == 4 && tab.TotalLogPages() == 2;
    tab.Next();
    page := tab.page;
    pages := tab.TotalLogPages();
  }
}
