/** `/api/reports`: listing reports, newest first (GET), and filing a
    report validated by `reportSchema` (POST). */
module ReportsRoute {
  import opened Common
  import opened Store
  import opened Validators

  function ReportTime(r: Report): int { r.createdAt }

  /** `GET /api/reports`: every report, newest first. */
  function Get(db: Db): (r: seq<Report>)
    ensures multiset(r) == multiset(db.reports)
    ensures forall i, j :: 0 <= i < j < |r| ==> r[i].createdAt >= r[j].createdAt
  {
    var sorted := SortDesc(db.reports, ReportTime);
    assert SortedDesc(sorted, ReportTime);
    sorted
  }

  /** `POST /api/reports`. The reporter is always the caller; missing or
      null details are stored as null. */
  function Post(db: Db, x: ReportInput, userId: string, newId: string, now: int): (r: (Gated<Report>, Db))
    ensures r.0.Rejected? <==> !(x.reason.Present? && Utf16Length(x.reason.value) >= 3
                                 && OptionalTextOk(x.details, 3) && x.listingId.Present?)
    ensures r.0.Rejected? ==> r.1 == db && r.0.issues == ReportIssues(x) && StatusCode(r.0) == 400
    ensures r.0.Created? ==>
      && StatusCode(r.0) == 201
      && r.1 == db.(reports := db.reports + [r.0.record])
      && r.0.record.id == newId && r.0.record.createdAt == now
      && r.0.record.reporterId == userId
      && r.0.record.reason == x.reason.value
      && r.0.record.details == PresentOrNone(x.details)
      && r.0.record.listingId == x.listingId.value
  {
    var issues := ReportIssues(x);
    if issues != [] then (Rejected(issues), db)
    else
      var report := Report(newId, x.reason.value, PresentOrNone(x.details), x.listingId.value, userId, now);
      (Created(report), db.(reports := db.reports + [report]))
  }

  /** A report filed after every earlier one heads the next GET. */
  lemma NewestReportFirst(db: Db, x: ReportInput, userId: string, newId: string, now: int)
    requires forall k :: 0 <= k < |db.reports| ==> db.reports[k].createdAt < now
    requires ReportIssues(x) == []
    ensures var r := Post(db, x, userId, newId, now);
            Get(r.1)[0] == r.0.record
  {
    var r := Post(db, x, userId, newId, now);
    var g := Get(r.1);
    assert r.0.record in multiset(r.1.reports);
    assert g[0] in multiset(r.1.reports);
  }
}
