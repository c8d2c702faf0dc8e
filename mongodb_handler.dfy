/** The database helpers of the test definition: the search form and its
    query, the statistics shown to the operator, and the periodic clean-up of
    old attachments and reports. The MongoDB database is its two collections
    held in memory; a document is a dict `Value`, and a point in time is an
    integer number of seconds. */
module MongoDb {
  import opened PyValue

  const Hour: int := 3600
  const Week: int := 7 * 24 * Hour
  /** The number of reports a search returns when it names no limit. */
  const DefaultLimit: int := 500

  /** The database's `test_reports` and `file_attachments` collections, in
      insertion order. */
  class Database {
    var testReports: seq<Value>
    var fileAttachments: seq<Value>

    constructor ()
      ensures testReports == [] && fileAttachments == []
    {
      testReports, fileAttachments := [], [];
    }

    /** `test_reports.insert_one(record)` */
    method InsertReport(record: Value)
      modifies this
      ensures testReports == old(testReports) + [record]
      ensures fileAttachments == old(fileAttachments)
    {
      testReports := testReports + [record];
    }

    /** `store_test_data_file_to_db(**kwargs)`: the keyword arguments become
        one attachment document. */
    method StoreTestDataFile(kwargs: seq<(Value, Value)>)
      modifies this
      ensures fileAttachments == old(fileAttachments) + [VDict(kwargs)]
      ensures testReports == old(testReports)
    {
      fileAttachments := fileAttachments + [VDict(kwargs)];
    }
  }

  // ---------------------------------------------------------------------------
  // Matching documents.

  /** A document's field, when the document is a dict that has it. */
  function Field(doc: Value, name: string): (r: Option<Value>)
    ensures r.Some? <==> doc.VDict? && VStr(name) in KeySet(doc.entries)
  {
    if doc.VDict? then Get(doc.entries, VStr(name)) else None
  }

  /** `{name: {'$gt': t}}`: a missing field or one that is not a time does
      not match. */
  predicate After(doc: Value, name: string, t: int) {
    var f := Field(doc, name);
    f.Some? && f.value.VInt? && f.value.i > t
  }

  /** `{name: {'$lt': t}}` */
  predicate Before(doc: Value, name: string, t: int) {
    var f := Field(doc, name);
    f.Some? && f.value.VInt? && f.value.i < t
  }

  /** `collection.find(filter)`: the matching documents in collection order. */
  function Where(docs: seq<Value>, keep: Value -> bool): (r: seq<Value>)
    ensures |r| <= |docs|
    ensures forall d :: d in r <==> d in docs && keep(d)
  {
    if docs == [] then []
    else (if keep(docs[0]) then [docs[0]] else []) + Where(docs[1..], keep)
  }

  /** Filtering by a weaker condition first changes nothing. */
  lemma {:induction false} WhereWeaker(docs: seq<Value>, p: Value -> bool, q: Value -> bool)
    requires forall d :: q(d) ==> p(d)
    ensures Where(Where(docs, p), q) == Where(docs, q)
  {
    if docs != [] {
      WhereWeaker(docs[1..], p, q);
      var head := if p(docs[0]) then [docs[0]] else [];
      assert Where(docs, p) == head + Where(docs[1..], p);
      WhereConcat(head, Where(docs[1..], p), q);
    }
  }

  lemma {:induction false} WhereConcat(a: seq<Value>, b: seq<Value>, keep: Value -> bool)
    ensures Where(a + b, keep) == Where(a, keep) + Where(b, keep)
  {
    if a == [] {
      assert a + b == b;
    } else {
      assert (a + b)[0] == a[0] && (a + b)[1..] == a[1..] + b;
      WhereConcat(a[1..], b, keep);
    }
  }

  // ---------------------------------------------------------------------------
  // Statistics.

  /** A report started within the last four weeks. */
  predicate Recent(report: Value, now: int) {
    After(report, "start_time", now - 4 * Week)
  }

  /** `'overallResult': True`: only the boolean matches. */
  predicate RecentPass(report: Value, now: int) {
    Recent(report, now) && Field(report, "overallResult") == Some(VBool(true))
  }

  /** `get_yield()`: 0 without a recent report, otherwise the ratio of
      passes to runs (the percentage is `100 * passCount / allCount`). */
  datatype Yield = Zero | Ratio(passCount: nat, allCount: nat)

  /** The documents `find(...).count()` counts for the yield and for the units
      per hour. */
  function RecentReports(reports: seq<Value>, now: int): seq<Value> {
    Where(reports, r => Recent(r, now))
  }

  function RecentPasses(reports: seq<Value>, now: int): seq<Value> {
    Where(reports, r => RecentPass(r, now))
  }

  function LastHourReports(reports: seq<Value>, now: int): seq<Value> {
    Where(reports, r => After(r, "start_time", now - Hour))
  }

  function GetYield(reports: seq<Value>, now: int): (y: Yield)
    ensures y.Zero? <==> forall r :: r in reports ==> !Recent(r, now)
    ensures y.Ratio? ==> 0 < y.allCount && y.passCount <= y.allCount
  {
    var passes := RecentPasses(reports, now);
    var all := RecentReports(reports, now);
    WhereWeaker(reports, r => Recent(r, now), r => RecentPass(r, now));
    if |all| == 0 then
      assert all == [];
      Zero
    else
      assert all[0] in all;
      Ratio(|passes|, |all|)
  }

  /** `get_uph()`: the reports started within the last hour. */
  function GetUph(reports: seq<Value>, now: int): (n: nat)
    ensures n <= |reports|
    ensures n == 0 <==> forall r :: r in reports ==> !After(r, "start_time", now - Hour)
  {
    var started := LastHourReports(reports, now);
    if started == [] then 0
    else assert started[0] in started; |started|
  }

  /** The positions of the documents a filter matches. */
  function MatchingIndices(docs: seq<Value>, keep: Value -> bool): set<int> {
    set i | 0 <= i < |docs| && keep(docs[i])
  }

  /** `find(filter).count()`: `find` returns one document per matching
      position of the collection. */
  lemma {:induction false} WhereCountsMatches(docs: seq<Value>, keep: Value -> bool)
    ensures |Where(docs, keep)| == |MatchingIndices(docs, keep)|
    decreases |docs|
  {
    if docs != [] {
      var n := |docs| - 1;
      var init := docs[..n];
      var last := [docs[n]];
      assert docs == init + last;
      WhereConcat(init, last, keep);
      WhereCountsMatches(init, keep);
      MatchingIndicesSnoc(docs, keep);
      assert last[1..] == [];
      assert Where(last, keep) == (if keep(docs[n]) then last else []) + Where([], keep);
    }
  }

  /** The matching positions of a non-empty collection are those of all but
      its last document, and the last position when that document matches. */
  lemma {:induction false} MatchingIndicesSnoc(docs: seq<Value>, keep: Value -> bool)
    requires docs != []
    ensures var n := |docs| - 1;
            MatchingIndices(docs, keep) == MatchingIndices(docs[..n], keep) + (if keep(docs[n]) then {n} else {})
    ensures |docs| - 1 !in MatchingIndices(docs[..|docs| - 1], keep)
  {
    var n := |docs| - 1;
    var init := docs[..n];
    var extra: set<int> := if keep(docs[n]) then {n} else {};
    forall i | i in MatchingIndices(docs, keep) ensures i in MatchingIndices(init, keep) + extra {
      if i < n { assert init[i] == docs[i]; }
    }
    forall i | i in MatchingIndices(init, keep) + extra ensures i in MatchingIndices(docs, keep) {
      if i < n { assert init[i] == docs[i]; }
    }
  }

  /** The yield counts the recent passes and the recent reports, in that
      order, and the units per hour count the reports of the last hour: each
      is the number of positions in the collection whose report matches. */
  lemma {:induction false} StatisticsCounts(reports: seq<Value>, now: int)
    ensures GetYield(reports, now) ==
      (if RecentReports(reports, now) == [] then Zero
       else Ratio(|RecentPasses(reports, now)|, |RecentReports(reports, now)|))
    ensures GetUph(reports, now) == |LastHourReports(reports, now)|
    ensures GetUph(reports, now) == |set i | 0 <= i < |reports| && After(reports[i], "start_time", now - Hour)|
    ensures GetYield(reports, now).Ratio? ==>
      GetYield(reports, now).passCount == |set i | 0 <= i < |reports| && RecentPass(reports[i], now)| &&
      GetYield(reports, now).allCount == |set i | 0 <= i < |reports| && Recent(reports[i], now)|
  {
    WhereCountsMatches(reports, r => After(r, "start_time", now - Hour));
    WhereCountsMatches(reports, r => Recent(r, now));
    WhereCountsMatches(reports, r => RecentPass(r, now));
    assert MatchingIndices(reports, r => After(r, "start_time", now - Hour)) ==
      set i | 0 <= i < |reports| && After(reports[i], "start_time", now - Hour);
    assert MatchingIndices(reports, r => Recent(r, now)) == set i | 0 <= i < |reports| && Recent(reports[i], now);
    assert MatchingIndices(reports, r => RecentPass(r, now)) == set i | 0 <= i < |reports| && RecentPass(reports[i], now);
  }

  /** A further report adds one to each count whose filter it passes. */
  lemma {:induction false} StatisticsCountNewReport(reports: seq<Value>, report: Value, now: int)
    ensures |RecentReports(reports + [report], now)| == |RecentReports(reports, now)| + (if Recent(report, now) then 1 else 0)
    ensures |RecentPasses(reports + [report], now)| == |RecentPasses(reports, now)| + (if RecentPass(report, now) then 1 else 0)
    ensures GetUph(reports + [report], now) ==
      GetUph(reports, now) + (if After(report, "start_time", now - Hour) then 1 else 0)
  {
    WhereConcat(reports, [report], r => Recent(r, now));
    WhereConcat(reports, [report], r => RecentPass(r, now));
    WhereConcat(reports, [report], r => After(r, "start_time", now - Hour));
    StatisticsCounts(reports, now);
    StatisticsCounts(reports + [report], now);
  }

  datatype Statistics = Statistics(yieldRate: Yield, uph: nat)

  /** `get_statistics()` */
  function GetStatistics(reports: seq<Value>, now: int): (s: Statistics)
    ensures s.yieldRate.Zero? ==> s.uph == 0
  {
    var s := Statistics(GetYield(reports, now), GetUph(reports, now));
    if s.yieldRate.Zero? then
      assert forall r :: After(r, "start_time", now - Hour) ==> Recent(r, now);
      s
    else s
  }

  // ---------------------------------------------------------------------------
  // Clean-up.

  /** An attachment added more than a week ago. */
  predicate StaleAttachment(doc: Value, now: int) {
    Before(doc, "added", now - Week)
  }

  /** A report started more than four weeks ago. */
  predicate StaleReport(doc: Value, now: int) {
    Before(doc, "start_time", now - 4 * Week)
  }

  /** The files on the disk and the warnings logged while unlinking, and the
      exception that ended the loop, if any. */
  datatype Unlinking = Unlinking(files: set<string>, warnings: seq<string>, error: Option<PyError>)

  /** `pathlib.Path(_file['file_path'])` */
  function FilePath(doc: Value): (r: Result<string, PyError>)
    ensures r.Ok? <==> Field(doc, "file_path").Some? && Field(doc, "file_path").value.VStr?
  {
    match Subscript(doc, VStr("file_path"))
    case Err(e) => Err(e)
    case Ok(VStr(p)) => Ok(p)
    case Ok(_) => Err(TypeError("expected str, bytes or os.PathLike object"))
  }

  function MissingFileWarning(path: string): string {
    "Trying to delete non-existent file attachment: " + path
  }

  /** The loop over the stale attachments: each file is unlinked, a file that
      is not there only logs a warning. */
  function Unlinked(docs: seq<Value>, files: set<string>): Unlinking
    decreases |docs|
  {
    if docs == [] then Unlinking(files, [], None)
    else
      var prev := Unlinked(docs[..|docs| - 1], files);
      if prev.error.Some? then prev
      else match FilePath(docs[|docs| - 1])
        case Err(e) => Unlinking(prev.files, prev.warnings, Some(e))
        case Ok(p) =>
          if p in prev.files then Unlinking(prev.files - {p}, prev.warnings, None)
          else Unlinking(prev.files, prev.warnings + [MissingFileWarning(p)], None)
  }

  /** The paths of documents that all have one. */
  function Paths(docs: seq<Value>): set<string>
    requires forall d :: d in docs ==> FilePath(d).Ok?
  {
    set d | d in docs :: FilePath(d).value
  }

  /** When every stale attachment names its file, the loop ends with none of
      those files left on the disk and every other file untouched. */
  lemma {:induction false} UnlinkedRemovesFiles(docs: seq<Value>, files: set<string>)
    requires forall d :: d in docs ==> FilePath(d).Ok?
    ensures Unlinked(docs, files).error.None?
    ensures Unlinked(docs, files).files == files - Paths(docs)
    decreases |docs|
  {
    if docs != [] {
      var init := docs[..|docs| - 1];
      var last := docs[|docs| - 1];
      PathsSnoc(docs);
      UnlinkedRemovesFiles(init, files);
      var prev := Unlinked(init, files);
      var p := FilePath(last).value;
      if p in prev.files {
        assert Unlinked(docs, files) == Unlinking(prev.files - {p}, prev.warnings, None);
      } else {
        assert Unlinked(docs, files) == Unlinking(prev.files, prev.warnings + [MissingFileWarning(p)], None);
        assert prev.files - {p} == prev.files;
      }
    }
  }

  /** The last document's path adds to the paths of the others. */
  lemma {:induction false} PathsSnoc(docs: seq<Value>)
    requires docs != [] && forall d :: d in docs ==> FilePath(d).Ok?
    ensures forall d :: d in docs[..|docs| - 1] ==> FilePath(d).Ok?
    ensures Paths(docs) == Paths(docs[..|docs| - 1]) + {FilePath(docs[|docs| - 1]).value}
  {
    var init := docs[..|docs| - 1];
    assert docs == init + [docs[|docs| - 1]];
  }

  /** No warning is logged when the stale attachments name distinct files
      that are all on the disk. */
  lemma {:induction false} UnlinkedQuietWhenPresent(docs: seq<Value>, files: set<string>)
    requires forall d :: d in docs ==> FilePath(d).Ok? && FilePath(d).value in files
    requires forall i, j :: 0 <= i < j < |docs| ==> FilePath(docs[i]).value != FilePath(docs[j]).value
    ensures Unlinked(docs, files).warnings == []
    decreases |docs|
  {
    if docs != [] {
      var init := docs[..|docs| - 1];
      var last := docs[|docs| - 1];
      assert forall d :: d in init ==> d in docs;
      UnlinkedQuietWhenPresent(init, files);
      UnlinkedRemovesFiles(init, files);
      assert FilePath(last).value !in Paths(init) by {
        forall d | d in init ensures FilePath(d).value != FilePath(last).value {
          var i :| 0 <= i < |init| && init[i] == d;
        }
      }
    }
  }

  /** `clean_db()`: stale attachments lose their files and their documents,
      stale reports are deleted. `now` stands for the clock and `files` for
      the disk; an exception from the unlink loop leaves both collections
      as they were. */
  method CleanDb(db: Database, now: int, files: set<string>)
    returns (r: Result<(), PyError>, files': set<string>, warnings: seq<string>)
    modifies db
    ensures var u := Unlinked(Where(old(db.fileAttachments), d => StaleAttachment(d, now)), files);
            files' == u.files && warnings == u.warnings &&
            (r.Err? <==> u.error.Some?) && (r.Err? ==> r.error == u.error.value)
    ensures r.Err? ==> db.fileAttachments == old(db.fileAttachments) && db.testReports == old(db.testReports)
    ensures r.Ok? ==> db.fileAttachments == Where(old(db.fileAttachments), d => !StaleAttachment(d, now))
    ensures r.Ok? ==> db.testReports == Where(old(db.testReports), d => !StaleReport(d, now))
  {
    var oldFiles := Where(db.fileAttachments, d => StaleAttachment(d, now));
    files', warnings := files, [];
    for i := 0 to |oldFiles|
      invariant Unlinked(oldFiles[..i], files) == Unlinking(files', warnings, None)
    {
      assert oldFiles[..i + 1][..i] == oldFiles[..i];
      var path := FilePath(oldFiles[i]);
      if path.Err? {
        StopsAfterError(oldFiles, files, i + 1);
        return Err(path.error), files', warnings;
      }
      if path.value in files' {
        files' := files' - {path.value};
      } else {
        warnings := warnings + [MissingFileWarning(path.value)];
      }
    }
    assert oldFiles[..|oldFiles|] == oldFiles;
    db.fileAttachments := Where(db.fileAttachments, d => !StaleAttachment(d, now));
    db.testReports := Where(db.testReports, d => !StaleReport(d, now));
    r := Ok(());
  }

  /** Once an attachment has no usable path, the rest of the loop is skipped. */
  lemma {:induction false} StopsAfterError(docs: seq<Value>, files: set<string>, n: nat)
    requires n <= |docs| && Unlinked(docs[..n], files).error.Some?
    ensures Unlinked(docs, files) == Unlinked(docs[..n], files)
    decreases |docs| - n
  {
    if n < |docs| {
      assert docs[..n + 1][..n] == docs[..n];
      StopsAfterError(docs, files, n + 1);
    } else {
      assert docs[..n] == docs;
    }
  }

  /** The clean-up removes only reports older than those the statistics
      count, so the yield and the hourly count stay the same. */
  lemma {:induction false} CleanKeepsStatistics(reports: seq<Value>, now: int)
    ensures GetStatistics(Where(reports, d => !StaleReport(d, now)), now) == GetStatistics(reports, now)
  {
    var kept := d => !StaleReport(d, now);
    WhereWeaker(reports, kept, r => RecentPass(r, now));
    WhereWeaker(reports, kept, r => Recent(r, now));
    WhereWeaker(reports, kept, r => After(r, "start_time", now - Hour));
  }

  // ---------------------------------------------------------------------------
  // Attachments.

  predicate Named(doc: Value, name: string) {
    Field(doc, "name") == Some(VStr(name))
  }

  /** `get_media_file_path(file_name)`: the first attachment of that name;
      without one, `find_one` gives None and the subscript fails. */
  function GetMediaFilePath(attachments: seq<Value>, name: string): (r: Result<Value, PyError>)
    ensures (forall d :: d in attachments ==> !Named(d, name)) ==> r.Err? && r.error.TypeError?
  {
    if attachments == [] then Err(TypeError("'NoneType' object is not subscriptable"))
    else if Named(attachments[0], name) then Subscript(attachments[0], VStr("file_path"))
    else GetMediaFilePath(attachments[1..], name)
  }

  /** A stored attachment is found by its name unless an earlier one has the
      same name. */
  lemma {:induction false} StoredFileFound(attachments: seq<Value>, name: string, path: Value,
                                          kwargs: seq<(Value, Value)>)
    requires forall d :: d in attachments ==> !Named(d, name)
    requires Get(kwargs, VStr("name")) == Some(VStr(name)) && Get(kwargs, VStr("file_path")) == Some(path)
    ensures GetMediaFilePath(attachments + [VDict(kwargs)], name) == Ok(path)
  {
    if attachments == [] {
      assert attachments + [VDict(kwargs)] == [VDict(kwargs)];
    } else {
      assert (attachments + [VDict(kwargs)])[1..] == attachments[1..] + [VDict(kwargs)];
      assert attachments[0] in attachments;
      StoredFileFound(attachments[1..], name, path, kwargs);
    }
  }

  // ---------------------------------------------------------------------------
  // Search.

  /** The keys `search_db` reads, in the order of the search bar. */
  const SearchKeys: seq<string> := ["limit_N", "limit_hours", "dut_identifier", "only_fails"]

  function BarItem(name: string, placeholder: string, caption: string, kind: string): Value {
    VDict([(VStr("name"), VStr(name)), (VStr("placeholder_txt"), VStr(placeholder)),
           (VStr("label"), VStr(caption)), (VStr("type"), VStr(kind))])
  }

  /** `get_search_bar_items()` */
  function SearchBarItems(): Value {
    VDict([(VStr("searchBarItems"), VList([
      BarItem("limit_N", "Number of items to get", "Number of items", "textbox"),
      BarItem("limit_hours", "Hours", "Hours", "textbox"),
      BarItem("dut_identifier", "ABCD-1234", "DUT ID", "textbox"),
      BarItem("only_fails", "", "Only Fails", "checkbox")]))])
  }

  /** The search bar offers one item per key the search reads, in order. */
  lemma {:induction false} SearchBarNamesSearchKeys()
    ensures var items := SearchBarItems().entries[0].1.items;
            |items| == |SearchKeys| &&
            forall i :: 0 <= i < |items| ==> Field(items[i], "name") == Some(VStr(SearchKeys[i]))
  {
    var items := SearchBarItems().entries[0].1.items;
    forall i | 0 <= i < |items| ensures Field(items[i], "name") == Some(VStr(SearchKeys[i])) {
      assert items[i].entries[0] == (VStr("name"), VStr(SearchKeys[i]));
    }
  }

  const Day: int := 24 * Hour
  /** The largest number of days a `datetime.timedelta` holds, either way. */
  const MaxDeltaDays: int := 999999999
  /** `datetime.min` and `datetime.max`, 0001-01-01 00:00:00 and
      9999-12-31 23:59:59, in seconds since 1970-01-01 00:00:00. */
  const EarliestTime: int := -62135596800
  const LatestTime: int := 253402300799

  /** `datetime.timedelta(hours=h)` in seconds; only whole numbers (and
      booleans, which Python treats as 0 and 1) are modelled. The delta is
      normalised to whole days (rounded down) and seconds, and raises
      OverflowError when the days exceed 999999999 either way. */
  function HoursSpan(h: Value): (r: Result<int, PyError>)
    ensures r.Ok? <==> h.VBool? || (h.VInt? && -MaxDeltaDays * Day <= h.i * Hour < (MaxDeltaDays + 1) * Day)
    ensures r.Ok? && h.VInt? ==> r.value == h.i * Hour
    ensures r.Err? && (h.VInt? || h.VBool?) ==> r.error.OverflowError?
    ensures r.Err? && !h.VInt? ==> r.error.TypeError?
  {
    match h
    case VInt(i) =>
      var days := i / 24;
      if days < -MaxDeltaDays || MaxDeltaDays < days then
        Err(OverflowError("days must have magnitude <= 999999999"))
      else Ok(i * Hour)
    case VBool(b) => Ok(if b then Hour else 0)
    case _ => Err(TypeError("unsupported type for timedelta hours component"))
  }

  /** `datetime.datetime.now() - datetime.timedelta(hours=h)`, with `now` in
      seconds since 1970-01-01; a result before year 1 or after year 9999
      raises OverflowError. */
  function Cutoff(h: Value, now: int): (r: Result<int, PyError>)
    ensures r.Ok? <==> HoursSpan(h).Ok? && EarliestTime <= now - HoursSpan(h).value <= LatestTime
    ensures r.Ok? ==> EarliestTime <= r.value <= LatestTime && r.value == now - HoursSpan(h).value
    ensures HoursSpan(h).Ok? && r.Err? ==> r.error.OverflowError?
  {
    var span :- HoursSpan(h);
    var t := now - span;
    if t < EarliestTime || LatestTime < t then Err(OverflowError("date value out of range"))
    else Ok(t)
  }

  /** What `search_db` hands to `find(...).sort('start_time').limit(...)`. */
  datatype Query = Query(filter: seq<(Value, Value)>, limit: Value)

  /** The query of a search, one optional condition per search key. */
  function SearchQuery(args: seq<(Value, Value)>, now: int): (r: Result<Query, PyError>)
    ensures r.Err? <==> (Get(args, VStr("limit_hours")).Some? && Cutoff(Get(args, VStr("limit_hours")).value, now).Err?)
    ensures r.Err? ==> r == Err(Cutoff(Get(args, VStr("limit_hours")).value, now).error)
  {
    var hours := Get(args, VStr("limit_hours"));
    var cutoff := if hours.Some? then Cutoff(hours.value, now) else Ok(0);
    if cutoff.Err? then Err(cutoff.error)
    else
      var dut := Get(args, VStr("dut_identifier"));
      var limit := Get(args, VStr("limit_N"));
      Ok(Query(
        (if hours.Some? then [(VStr("start_time"), VDict([(VStr("$gt"), VInt(cutoff.value))]))] else []) +
        (if dut.Some? then [(VStr("serialnumber"), dut.value)] else []) +
        (if VStr("only_fails") in KeySet(args) then [(VStr("result"), VBool(false))] else []),
        if limit.Some? then limit.value else VInt(DefaultLimit)))
  }

  /** A limit of a hundred million hours reaches back before year 1: the
      subtraction raises, whatever the time now is. */
  lemma {:induction false} OversizedLimitOverflows(now: int)
    requires EarliestTime <= now <= LatestTime
    ensures SearchQuery([(VStr("limit_hours"), VInt(100000000))], now).Err?
    ensures SearchQuery([(VStr("limit_hours"), VInt(100000000))], now).error.OverflowError?
  {
    var args := [(VStr("limit_hours"), VInt(100000000))];
    assert Get(args, VStr("limit_hours")) == Some(VInt(100000000));
    assert HoursSpan(VInt(100000000)) == Ok(100000000 * Hour);
  }

  /** `search_db(search_args)`: the filter is built by successive updates
      and the limit starts at 500. */
  method SearchDb(args: seq<(Value, Value)>, now: int) returns (r: Result<Query, PyError>)
    ensures r == SearchQuery(args, now)
  {
    var dbFilter: seq<(Value, Value)> := [];
    ghost var hours := Get(args, VStr("limit_hours"));
    if VStr("limit_hours") in KeySet(args) {
      var h := Get(args, VStr("limit_hours")).value;
      var span :- HoursSpan(h);
      var cutoff := now - span;
      if cutoff < EarliestTime || LatestTime < cutoff {
        return Err(OverflowError("date value out of range"));
      }
      UpdateNewKey(dbFilter, VStr("start_time"), VDict([(VStr("$gt"), VInt(cutoff))]));
      dbFilter := Update(dbFilter, [(VStr("start_time"), VDict([(VStr("$gt"), VInt(cutoff))]))]);
    }
    ghost var q := SearchQuery(args, now);
    assert q.Ok?;
    ghost var a := dbFilter;
    assert a == (if hours.Some? then [(VStr("start_time"), VDict([(VStr("$gt"), VInt(Cutoff(hours.value, now).value))]))] else []);
    if VStr("dut_identifier") in KeySet(args) {
      var item: (Value, Value) := (VStr("serialnumber"), Get(args, VStr("dut_identifier")).value);
      UpdateNewKey(dbFilter, item.0, item.1);
      dbFilter := Update(dbFilter, [item]);
    }
    ghost var b := if VStr("dut_identifier") in KeySet(args) then [(VStr("serialnumber"), Get(args, VStr("dut_identifier")).value)] else [];
    assert dbFilter == a + b;
    if VStr("only_fails") in KeySet(args) {
      var item: (Value, Value) := (VStr("result"), VBool(false));
      KeySetConcat(a, b);
      UpdateNewKey(dbFilter, item.0, item.1);
      dbFilter := Update(dbFilter, [item]);
    }
    ghost var c := if VStr("only_fails") in KeySet(args) then [(VStr("result"), VBool(false))] else [];
    assert dbFilter == a + b + c;
    var limit := VInt(DefaultLimit);
    if VStr("limit_N") in KeySet(args) {
      limit := Get(args, VStr("limit_N")).value;
    }
    assert limit == q.value.limit;
    assert dbFilter == q.value.filter;
    r := Ok(Query(dbFilter, limit));
  }

  /** With no arguments the filter is empty and the limit is 500. */
  lemma {:induction false} SearchWithoutArguments(now: int)
    ensures SearchQuery([], now) == Ok(Query([], VInt(500)))
  {
    var none: seq<(Value, Value)> := [];
    assert Get(none, VStr("limit_hours")).None? && Get(none, VStr("limit_N")).None?;
    assert VStr("only_fails") !in KeySet(none);
    assert SearchQuery(none, now).Ok?;
    assert SearchQuery(none, now).value.limit == VInt(500);
    assert SearchQuery(none, now).value.filter == [];
  }

  /** Each search key sets its own condition: the hours bound the start time,
      the DUT identifier is the serial number, `only_fails` asks for failed
      runs whatever its value, and `limit_N` replaces the limit. */
  lemma {:induction false} SearchConditions(args: seq<(Value, Value)>, now: int)
    requires SearchQuery(args, now).Ok?
    ensures var q := SearchQuery(args, now).value;
            DistinctKeys(q.filter) &&
            (Get(q.filter, VStr("start_time")).Some? <==> VStr("limit_hours") in KeySet(args)) &&
            (Get(args, VStr("limit_hours")).Some? && Get(args, VStr("limit_hours")).value.VInt? ==>
               Get(q.filter, VStr("start_time")) ==
                 Some(VDict([(VStr("$gt"), VInt(now - Get(args, VStr("limit_hours")).value.i * Hour))]))) &&
            Get(q.filter, VStr("serialnumber")) == Get(args, VStr("dut_identifier")) &&
            (Get(q.filter, VStr("result")) == (if VStr("only_fails") in KeySet(args) then Some(VBool(false)) else None)) &&
            KeySet(q.filter) <= {VStr("start_time"), VStr("serialnumber"), VStr("result")} &&
            q.limit == (if VStr("limit_N") in KeySet(args) then Get(args, VStr("limit_N")).value else VInt(DefaultLimit))
  {
    var q := SearchQuery(args, now).value;
    var a: seq<(Value, Value)> := if Get(args, VStr("limit_hours")).Some? then [q.filter[0]] else [];
    var b: seq<(Value, Value)> := if Get(args, VStr("dut_identifier")).Some? then [(VStr("serialnumber"), Get(args, VStr("dut_identifier")).value)] else [];
    var c: seq<(Value, Value)> := if VStr("only_fails") in KeySet(args) then [(VStr("result"), VBool(false))] else [];
    assert q.filter == a + b + c;
    FilterParts(a, b, c, VStr("start_time"));
    FilterParts(a, b, c, VStr("serialnumber"));
    FilterParts(a, b, c, VStr("result"));
  }

  /** A filter made of at most one condition on each of the three fields. */
  lemma {:induction false} FilterParts(a: seq<(Value, Value)>, b: seq<(Value, Value)>, c: seq<(Value, Value)>, k: Value)
    requires |a| <= 1 && |b| <= 1 && |c| <= 1
    requires a != [] ==> a[0].0 == VStr("start_time")
    requires b != [] ==> b[0].0 == VStr("serialnumber")
    requires c != [] ==> c[0].0 == VStr("result")
    ensures DistinctKeys(a + b + c)
    ensures KeySet(a + b + c) == KeySet(a) + KeySet(b) + KeySet(c)
    ensures Get(a + b + c, k) == if k in KeySet(a) then Get(a, k) else if k in KeySet(b) then Get(b, k) else Get(c, k)
  {
    GetConcat(a, b, k);
    GetConcat(a + b, c, k);
    KeySetConcat(a, b);
    KeySetConcat(a + b, c);
    DistinctKeysIndex(a + b + c);
  }

  lemma {:induction false} GetConcat(a: seq<(Value, Value)>, b: seq<(Value, Value)>, k: Value)
    ensures Get(a + b, k) == if k in KeySet(a) then Get(a, k) else Get(b, k)
  {
    if a == [] {
      assert a + b == b;
    } else {
      assert (a + b)[0] == a[0] && (a + b)[1..] == a[1..] + b;
      GetConcat(a[1..], b, k);
    }
  }

  lemma {:induction false} KeySetConcat(a: seq<(Value, Value)>, b: seq<(Value, Value)>)
    ensures KeySet(a + b) == KeySet(a) + KeySet(b)
  {
    if a == [] {
      assert a + b == b;
    } else {
      assert (a + b)[0] == a[0] && (a + b)[1..] == a[1..] + b;
      KeySetConcat(a[1..], b);
    }
  }

  /** The search reads the arguments only under the search bar's keys. */
  lemma {:induction false} SearchReadsOnlySearchKeys(args: seq<(Value, Value)>, args': seq<(Value, Value)>, now: int)
    requires forall k :: k in SearchKeys ==> Get(args, VStr(k)) == Get(args', VStr(k))
    ensures SearchQuery(args, now) == SearchQuery(args', now)
  {
    assert "limit_N" in SearchKeys && "limit_hours" in SearchKeys;
    assert "dut_identifier" in SearchKeys && "only_fails" in SearchKeys;
  }
}
