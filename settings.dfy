/** The audit-log table of the settings page: 120 generated log entries and the fetch
    callback that searches, filters and pages them. `now` is the clock reading `Date.now()`
    stands for; a timestamp is kept in milliseconds rather than as its locale string. */
module Settings {
  import opened Common
  import opened Text
  import opened Listing
  import opened IndexPages

  datatype AuditStatus = Success | Failed | Pending

  function AuditStatusLabel(s: AuditStatus): string
  {
    match s
    case Success => "success"
    case Failed => "failed"
    case Pending => "pending"
  }

  datatype AuditLog = AuditLog(id: int, user: string, action: string, timestamp: int, status: AuditStatus)

  const LogCount: nat := 120
  const HourMillis: int := 3600000
  const ActionLabels: seq<string> := ["Logged in", "Updated profile", "Deleted item", "Created new user", "Changed password"]
  const StatusCycle: seq<AuditStatus> := [Success, Failed, Pending]

  /** Entry `i` of `Array.from({ length: 120 }, (_, i) => …)`. */
  function MockLog(now: int, i: nat): AuditLog
  {
    AuditLog(
      LogCount - i,
      "user" + NatToString(i % 10 + 1) + "@example.com",
      ActionLabels[i % 5],
      now - i * HourMillis,
      StatusCycle[i % 3])
  }

  function MockLogs(now: int): (r: seq<AuditLog>)
    ensures |r| == LogCount
    ensures forall i :: 0 <= i < |r| ==> r[i] == MockLog(now, i)
  {
    seq(LogCount, i requires 0 <= i < LogCount => MockLog(now, i))
  }

  /** The generated log lists ids `120` down to `1`, one hour apart and newest first. */
  lemma MockLogsNewestFirst(now: int)
    ensures var logs := MockLogs(now);
      && (forall i :: 0 <= i < |logs| ==> 1 <= logs[i].id <= LogCount)
      && (forall i, j :: 0 <= i < j < |logs| ==> logs[i].id > logs[j].id)
      && (forall i, j :: 0 <= i < j < |logs| ==> logs[j].timestamp == logs[i].timestamp - (j - i) * HourMillis)
  {
    var logs := MockLogs(now);
    forall i, j | 0 <= i < j < |logs|
      ensures logs[j].timestamp == logs[i].timestamp - (j - i) * HourMillis
    {
      assert j * HourMillis == i * HourMillis + (j - i) * HourMillis;
    }
  }

  /** The action and status labels of the generated log repeat every 15 entries and its
      users every 10. */
  lemma MockLogsCycle(now: int)
    ensures var logs := MockLogs(now);
      && (forall i :: 0 <= i < |logs| - 15 ==> logs[i + 15].action == logs[i].action && logs[i + 15].status == logs[i].status)
      && (forall i :: 0 <= i < |logs| - 10 ==> logs[i + 10].user == logs[i].user)
  {
    var logs := MockLogs(now);
    forall i | 0 <= i < |logs| - 15
      ensures logs[i + 15].action == logs[i].action && logs[i + 15].status == logs[i].status
    {
      assert (i + 15) % 5 == i % 5;
      assert (i + 15) % 3 == i % 3;
    }
    forall i | 0 <= i < |logs| - 10 ensures logs[i + 10].user == logs[i].user {
      assert (i + 10) % 10 == i % 10;
    }
  }

  /** The user or the action contains the term. */
  predicate AuditMatches(log: AuditLog, term: string)
  {
    IncludesCI(log.user, term) || IncludesCI(log.action, term)
  }

  function AuditSearch(term: string): AuditLog -> bool
  {
    (log: AuditLog) => AuditMatches(log, term)
  }

  function AuditStatusIs(filters: map<string, string>): AuditLog -> bool
  {
    (log: AuditLog) => PassesFilter(filters, "status", AuditStatusLabel(log.status))
  }

  function AuditActionIs(filters: map<string, string>): AuditLog -> bool
  {
    (log: AuditLog) => PassesFilter(filters, "action", log.action)
  }

  /** A log survives the search (skipped for an empty term) and both filters. */
  predicate AuditPasses(log: AuditLog, term: string, filters: map<string, string>)
  {
    && (term == "" || AuditMatches(log, term))
    && PassesFilter(filters, "status", AuditStatusLabel(log.status))
    && PassesFilter(filters, "action", log.action)
  }

  function AuditPassesAll(term: string, filters: map<string, string>): AuditLog -> bool
  {
    (log: AuditLog) => AuditPasses(log, term, filters)
  }

  /** The filtering of `fetchAuditLogs`. */
  function FilterAuditLogs(logs: seq<AuditLog>, term: string, filters: map<string, string>): seq<AuditLog>
  {
    var searched := if term != "" then Filter(logs, AuditSearch(term)) else logs;
    var byStatus := if FilterSet(filters, "status") then Filter(searched, AuditStatusIs(filters)) else searched;
    if FilterSet(filters, "action") then Filter(byStatus, AuditActionIs(filters)) else byStatus
  }

  /** `fetchAuditLogs(page, pageSize, searchTerm, filters)` over the generated logs. */
  function FetchAuditLogs(now: int, page: int, pageSize: nat, term: string, filters: map<string, string>): FetchResult<AuditLog>
    requires pageSize >= 1
  {
    Paginate(FilterAuditLogs(MockLogs(now), term, filters), page, pageSize)
  }

  /** The search and the two filters amount to one order-preserving filter: a log is listed
      exactly when the term is empty or occurs in its user or action, and it has the filtered
      status and action. */
  lemma AuditSearchExact(logs: seq<AuditLog>, term: string, filters: map<string, string>)
    ensures FilterAuditLogs(logs, term, filters) == Filter(logs, AuditPassesAll(term, filters))
    ensures forall log :: log in FilterAuditLogs(logs, term, filters) <==> log in logs && AuditPasses(log, term, filters)
  {
    var searchOnly := (log: AuditLog) => term == "" || AuditMatches(log, term);
    var searched := if term != "" then Filter(logs, AuditSearch(term)) else logs;
    assert searched == Filter(logs, searchOnly) by {
      if term == "" {
        FilterKeepsAll(logs, searchOnly);
      } else {
        FilterSame(logs, AuditSearch(term), searchOnly);
      }
    }
    var both := (log: AuditLog) => searchOnly(log) && PassesFilter(filters, "status", AuditStatusLabel(log.status));
    var byStatus := if FilterSet(filters, "status") then Filter(searched, AuditStatusIs(filters)) else searched;
    assert byStatus == Filter(logs, both) by {
      if FilterSet(filters, "status") {
        FilterFilter(logs, searchOnly, AuditStatusIs(filters), both);
      } else {
        FilterSame(logs, searchOnly, both);
      }
    }
    if FilterSet(filters, "action") {
      FilterFilter(logs, both, AuditActionIs(filters), AuditPassesAll(term, filters));
    } else {
      FilterSame(logs, both, AuditPassesAll(term, filters));
    }
  }

  /** A page of audit logs holds at most `pageSize` passing logs, and pages `1..totalPages`
      concatenate to the filtered logs; with no term and no filter there are
      `ceil(120 / pageSize)` pages. */
  lemma AuditPage(now: int, page: int, pageSize: nat, term: string, filters: map<string, string>)
    requires pageSize >= 1
    ensures var r := FetchAuditLogs(now, page, pageSize, term, filters);
      var filtered := FilterAuditLogs(MockLogs(now), term, filters);
      && |r.data| <= pageSize
      && (forall log :: log in r.data ==> log in MockLogs(now) && AuditPasses(log, term, filters))
      && PagesUpTo(filtered, pageSize, r.totalPages) == filtered
      && (term == "" && filters == map[] ==> r.totalPages == CeilDiv(LogCount, pageSize))
  {
    FilteredPage(MockLogs(now), page, pageSize, term, filters);
  }

  /** `AuditPage` over any list of logs. */
  lemma FilteredPage(logs: seq<AuditLog>, page: int, pageSize: nat, term: string, filters: map<string, string>)
    requires pageSize >= 1
    ensures var filtered := FilterAuditLogs(logs, term, filters);
      var r := Paginate(filtered, page, pageSize);
      && |r.data| <= pageSize
      && (forall log :: log in r.data ==> log in logs && AuditPasses(log, term, filters))
      && PagesUpTo(filtered, pageSize, r.totalPages) == filtered
      && (term == "" && filters == map[] ==> r.totalPages == CeilDiv(|logs|, pageSize))
  {
    var filtered := FilterAuditLogs(logs, term, filters);
    PageShape(filtered, page, pageSize);
    PageMembers(logs, page, pageSize, term, filters);
    PagesPartition(filtered, pageSize);
    if term == "" && filters == map[] {
      UnfilteredKeepsAll(logs);
    }
  }

  /** Every log on a page is one of the logs and passes the search and both filters. */
  lemma PageMembers(logs: seq<AuditLog>, page: int, pageSize: nat, term: string, filters: map<string, string>)
    requires pageSize >= 1
    ensures forall log :: log in Paginate(FilterAuditLogs(logs, term, filters), page, pageSize).data ==>
      log in logs && AuditPasses(log, term, filters)
  {
    var filtered := FilterAuditLogs(logs, term, filters);
    SliceWithin(filtered, (page - 1) * pageSize, page * pageSize);
    AuditSearchExact(logs, term, filters);
  }

  /** With no term and no filter every log is listed. */
  lemma UnfilteredKeepsAll(logs: seq<AuditLog>)
    ensures FilterAuditLogs(logs, "", map[]) == logs
  {
    assert !FilterSet(map[], "status") && !FilterSet(map[], "action");
  }
}
