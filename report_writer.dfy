/** The report writer of the test definitions
    (test_definition_template/common/test_report_writer.py): the report's
    file name, the database record stored for each reported DUT, and the
    pruning of old report files. */
module ReportWriter {
  import opened PyValue
  import opened Duts
  import opened Control
  import opened Progress
  import opened Queues
  import MongoDb

  /** A test position as `create_report` reads it: its DUT and whether the
      position is excluded from reporting. */
  datatype ReportPosition = ReportPosition(dut: Option<Dut>, stopReporting: bool)

  // ---------------------------------------------------------------------------
  // The file name.

  /** The 'position-serial' parts of the positions that hold a DUT, in
      position order. */
  function NameParts(ps: seq<(string, ReportPosition)>): (r: seq<string>)
    ensures |r| <= |ps|
    decreases |ps|
  {
    if ps == [] then []
    else (if ps[0].1.dut.Some? then [ps[0].0 + "-" + ps[0].1.dut.value.serialNumber] else [])
         + NameParts(ps[1..])
  }

  /** `'_'.join('%s-%s' % (name, dut.serial_number) ...)` */
  function Filename(ps: seq<(string, ReportPosition)>): string {
    Join("_", NameParts(ps))
  }

  /** A part names a position that holds a DUT, with that DUT's serial, and
      every such position has its part. */
  lemma {:induction false} NamePartsMembers(ps: seq<(string, ReportPosition)>, part: string)
    ensures part in NameParts(ps) <==>
      exists i :: 0 <= i < |ps| && ps[i].1.dut.Some? && part == ps[i].0 + "-" + ps[i].1.dut.value.serialNumber
    decreases |ps|
  {
    if ps != [] {
      NamePartsMembers(ps[1..], part);
      if exists i :: 0 <= i < |ps| && ps[i].1.dut.Some? && part == ps[i].0 + "-" + ps[i].1.dut.value.serialNumber {
        var i :| 0 <= i < |ps| && ps[i].1.dut.Some? && part == ps[i].0 + "-" + ps[i].1.dut.value.serialNumber;
        if i > 0 {
          assert ps[1..][i - 1] == ps[i];
        }
      }
      if part in NameParts(ps[1..]) {
        var i :| 0 <= i < |ps[1..]| && ps[1..][i].1.dut.Some? &&
                 part == ps[1..][i].0 + "-" + ps[1..][i].1.dut.value.serialNumber;
        assert ps[i + 1] == ps[1..][i];
      }
    }
  }

  /** The parts follow the position order: the parts of two runs of
      positions are the parts of the first, then those of the second. */
  lemma {:induction false} NamePartsConcat(a: seq<(string, ReportPosition)>, b: seq<(string, ReportPosition)>)
    ensures NameParts(a + b) == NameParts(a) + NameParts(b)
    decreases |a|
  {
    if a == [] {
      assert a + b == b;
    } else {
      assert (a + b)[0] == a[0] && (a + b)[1..] == a[1..] + b;
      NamePartsConcat(a[1..], b);
      var head := if a[0].1.dut.Some? then [a[0].0 + "-" + a[0].1.dut.value.serialNumber] else [];
      assert NameParts(a + b) == head + NameParts(a[1..] + b);
      assert NameParts(a) == head + NameParts(a[1..]);
    }
  }

  /** Positions without a DUT add nothing to the file name. */
  lemma {:induction false} EmptyPositionsUnnamed(ps: seq<(string, ReportPosition)>)
    requires forall i :: 0 <= i < |ps| ==> ps[i].1.dut.None?
    ensures NameParts(ps) == [] && Filename(ps) == ""
    decreases |ps|
  {
    if ps != [] {
      EmptyPositionsUnnamed(ps[1..]);
    }
  }

  // ---------------------------------------------------------------------------
  // Root items.

  /** `not isinstance(value, dict) or key == 'operator' or key == 'tester'` */
  predicate IsRootItem(key: Value, value: Value) {
    !value.VDict? || key == VStr("operator") || key == VStr("tester")
  }

  /** The root items after the loop has run over `items`, in order. */
  function RootItemsOf(items: seq<(Value, Value)>): (r: seq<(Value, Value)>)
    ensures DistinctKeys(r)
    decreases |items|
  {
    if items == [] then []
    else
      var prev := RootItemsOf(items[..|items| - 1]);
      var (k, v) := items[|items| - 1];
      if IsRootItem(k, v) then Put(prev, k, v) else prev
  }

  /** The root items are exactly the report's entries that are not dicts,
      plus 'operator' and 'tester' whatever they hold, with their values. */
  lemma {:induction false} RootItemsGet(items: seq<(Value, Value)>, k: Value)
    requires DistinctKeys(items)
    ensures Get(RootItemsOf(items), k) ==
      match Get(items, k)
      case Some(v) => if IsRootItem(k, v) then Some(v) else None
      case None => None
    decreases |items|
  {
    if items != [] {
      var n := |items| - 1;
      var init := items[..n];
      var (k', v') := items[n];
      assert items == init + [(k', v')];
      DistinctKeysPrefix(items, n);
      RootItemsGet(init, k);
      GetSnoc(init, k', v', k);
      DistinctKeysIndex(items);
      KeySetIndex(init, k');
      if IsRootItem(k', v') {
        PutGet(RootItemsOf(init), k', v', k);
      }
    }
  }

  /** `for key, value in report_dict.items(): if ...: root_items[key] = value` */
  method CollectRootItems(items: seq<(Value, Value)>) returns (root: seq<(Value, Value)>)
    ensures root == RootItemsOf(items)
  {
    root := [];
    for i := 0 to |items|
      invariant root == RootItemsOf(items[..i])
    {
      assert items[..i + 1][..i] == items[..i];
      var (key, value) := items[i];
      if IsRootItem(key, value) {
        root := Put(root, key, value);
      }
    }
    assert items[..|items|] == items;
  }

  // ---------------------------------------------------------------------------
  // The case lists of a DUT.

  /** Which cases a list keeps: `if case['result']` or `if case['result'] == 'error'`. */
  datatype CaseFilter = Passing | Erroneous

  predicate Selects(f: CaseFilter, result: Value) {
    match f
    case Passing => Truthy(result)
    case Erroneous => result == VStr("error")
  }

  /** The names of the DUT's cases whose result the filter selects, in order;
      the first case without a readable 'result' raises. */
  function CasesWhere(cases: seq<(string, Value)>, f: CaseFilter): (r: Result<seq<string>, PyError>)
    ensures r.Ok? <==> forall i :: 0 <= i < |cases| ==> Subscript(cases[i].1, VStr("result")).Ok?
    ensures r.Ok? ==> forall n :: n in r.value <==>
              exists i :: 0 <= i < |cases| && cases[i].0 == n &&
                Selects(f, Subscript(cases[i].1, VStr("result")).value)
    decreases |cases|
  {
    if cases == [] then Ok([])
    else
      var res :- Subscript(cases[0].1, VStr("result"));
      var rest :- CasesWhere(cases[1..], f);
      assert forall i :: 1 <= i < |cases| ==> cases[i] == cases[1..][i - 1];
      Ok((if Selects(f, res) then [cases[0].0] else []) + rest)
  }

  /** A case whose result is 'error' is listed among the passed cases too:
      'error' is a non-empty str, hence truthy. */
  lemma {:induction false} ErrorCasesArePassed(cases: seq<(string, Value)>)
    ensures CasesWhere(cases, Passing).Ok? <==> CasesWhere(cases, Erroneous).Ok?
    ensures CasesWhere(cases, Erroneous).Ok? ==>
              forall n :: n in CasesWhere(cases, Erroneous).value ==> n in CasesWhere(cases, Passing).value
  {
  }

  // ---------------------------------------------------------------------------
  // The test-case entries of a record.

  /** `{'name': ..., 'limit': ..., 'measurement': ..., 'unit': ..., 'result': ...}` */
  function MeasurementEntry(name: Value, m: Value): Result<Value, PyError> {
    var limit :- Subscript(m, VStr("limit"));
    var measurement :- Subscript(m, VStr("measurement"));
    var unit :- Subscript(m, VStr("unit"));
    var result :- Subscript(m, VStr("result"));
    Ok(VDict([(VStr("name"), name), (VStr("limit"), limit), (VStr("measurement"), measurement),
              (VStr("unit"), unit), (VStr("result"), result)]))
  }

  /** The measurements of a case, copied in order. */
  function MeasurementEntries(items: seq<(Value, Value)>): (r: Result<seq<Value>, PyError>)
    ensures r.Ok? <==> forall i :: 0 <= i < |items| ==> MeasurementEntry(items[i].0, items[i].1).Ok?
    ensures r.Ok? ==> (|r.value| == |items| &&
              forall i :: 0 <= i < |items| ==> MeasurementEntry(items[i].0, items[i].1) == Ok(r.value[i]))
    decreases |items|
  {
    if items == [] then Ok([])
    else
      var e :- MeasurementEntry(items[0].0, items[0].1);
      var rest :- MeasurementEntries(items[1..]);
      assert forall i :: 1 <= i < |items| ==> items[i] == items[1..][i - 1];
      Ok([e] + rest)
  }

  /** `test_case.get(key, '')`, for a case known to be a dict. */
  function FieldOr(entries: seq<(Value, Value)>, key: string): Value {
    match Get(entries, VStr(key))
    case Some(x) => x
    case None => VStr("")
  }

  /** The entry of one test case; only a dict case with a 'measurements'
      dict gives one. */
  function CaseEntry(name: Value, tc: Value): (r: Result<Value, PyError>)
    ensures r.Ok? ==> tc.VDict? && r.value.VDict?
    ensures r.Ok? ==> Subscript(tc, VStr("measurements")).Ok? && Subscript(tc, VStr("measurements")).value.VDict?
  {
    match tc
    case VDict(fields) =>
      var ms :- Subscript(tc, VStr("measurements"));
      var items :- Items(ms);
      var entries :- MeasurementEntries(items);
      // `test_case.get(key, '')` cannot fail on a dict
      Ok(VDict([(VStr("name"), name), (VStr("measurements"), VList(entries)),
                (VStr("startTime"), FieldOr(fields, "start_time")), (VStr("endTime"), FieldOr(fields, "end_time")),
                (VStr("duration"), FieldOr(fields, "duration_s"))]))
    case _ =>
      // `test_case['measurements']` raises on anything but a dict
      match Subscript(tc, VStr("measurements"))
      case Err(e) => Err(e)
      case Ok(_) => Err(TypeError("object is not subscriptable"))
  }

  /** A case entry holds the case's name, its measurements copied in order,
      and its start time, end time and duration, '' for those it lacks. */
  lemma {:induction false} CaseEntryFields(name: Value, tc: Value)
    requires CaseEntry(name, tc).Ok?
    ensures var e := CaseEntry(name, tc).value.entries;
            var ms := Subscript(tc, VStr("measurements")).value.entries;
            MeasurementEntries(ms).Ok? &&
            Get(e, VStr("name")) == Some(name) &&
            Get(e, VStr("measurements")) == Some(VList(MeasurementEntries(ms).value)) &&
            Get(e, VStr("startTime")) == Some(FieldOr(tc.entries, "start_time")) &&
            Get(e, VStr("endTime")) == Some(FieldOr(tc.entries, "end_time")) &&
            Get(e, VStr("duration")) == Some(FieldOr(tc.entries, "duration_s"))
  {
    var e := CaseEntry(name, tc).value.entries;
    assert e[0].0 == VStr("name") && e[1].0 == VStr("measurements") && e[2].0 == VStr("startTime");
    assert e[3].0 == VStr("endTime") && e[4].0 == VStr("duration") && |e| == 5;
    DistinctKeysIndex(e);
    GetIndex(e, 0);
    GetIndex(e, 1);
    GetIndex(e, 2);
    GetIndex(e, 3);
    GetIndex(e, 4);
  }

  /** The items of the selected loop cycle other than 'loop'. */
  function NonLoop(items: seq<(Value, Value)>): (r: seq<(Value, Value)>)
    ensures |r| <= |items|
    ensures forall i :: 0 <= i < |r| ==> r[i].0 != VStr("loop")
    decreases |items|
  {
    if items == [] then []
    else (if items[0].0 == VStr("loop") then [] else [items[0]]) + NonLoop(items[1..])
  }

  /** `NonLoop` drops exactly the 'loop' item and keeps the others in order. */
  lemma {:induction false} NonLoopMembers(items: seq<(Value, Value)>, x: (Value, Value))
    ensures x in NonLoop(items) <==> x in items && x.0 != VStr("loop")
    decreases |items|
  {
    if items != [] {
      NonLoopMembers(items[1..], x);
      assert items == [items[0]] + items[1..];
    }
  }

  /** Every case item gives an entry. */
  predicate EntriesOk(cases: seq<(Value, Value)>) {
    forall i :: 0 <= i < |cases| ==> CaseEntry(cases[i].0, cases[i].1).Ok?
  }

  /** `entries` are the entries of the case items, one each, in order. */
  predicate EntriesOf(cases: seq<(Value, Value)>, entries: seq<Value>) {
    |entries| == |cases| && forall i :: 0 <= i < |entries| ==> CaseEntry(cases[i].0, cases[i].1) == Ok(entries[i])
  }

  lemma {:induction false} EntriesOkCons(c: (Value, Value), cases: seq<(Value, Value)>)
    ensures EntriesOk([c] + cases) <==> CaseEntry(c.0, c.1).Ok? && EntriesOk(cases)
  {
    var l := [c] + cases;
    assert l[0] == c;
    assert forall i :: 0 <= i < |cases| ==> l[i + 1] == cases[i];
    if CaseEntry(c.0, c.1).Ok? && EntriesOk(cases) {
      forall i | 0 <= i < |l| ensures CaseEntry(l[i].0, l[i].1).Ok? {
        if i > 0 {
          assert l[i] == cases[i - 1];
        }
      }
    }
  }

  lemma {:induction false} EntriesOfCons(c: (Value, Value), cases: seq<(Value, Value)>, e: Value, entries: seq<Value>)
    requires CaseEntry(c.0, c.1) == Ok(e) && EntriesOf(cases, entries)
    ensures EntriesOf([c] + cases, [e] + entries)
  {
    var l := [c] + cases;
    var m := [e] + entries;
    forall i | 0 <= i < |m| ensures CaseEntry(l[i].0, l[i].1) == Ok(m[i]) {
      if i > 0 {
        assert l[i] == cases[i - 1] && m[i] == entries[i - 1];
      }
    }
  }

  /** The 'testCases' list: one entry per case of the loop cycle, 'loop'
      skipped, in order. */
  function CaseEntries(items: seq<(Value, Value)>): (r: Result<seq<Value>, PyError>)
    ensures r.Ok? <==> EntriesOk(NonLoop(items))
    ensures r.Ok? ==> EntriesOf(NonLoop(items), r.value)
    decreases |items|
  {
    if items == [] then Ok([])
    else if items[0].0 == VStr("loop") then
      assert NonLoop(items) == NonLoop(items[1..]);
      CaseEntries(items[1..])
    else
      assert NonLoop(items) == [items[0]] + NonLoop(items[1..]);
      match CaseEntry(items[0].0, items[0].1)
      case Err(err) =>
        EntriesOkCons(items[0], NonLoop(items[1..]));
        Err(err)
      case Ok(e) =>
        match CaseEntries(items[1..])
        case Err(err) =>
          EntriesOkCons(items[0], NonLoop(items[1..]));
          Err(err)
        case Ok(rest) =>
          EntriesOkCons(items[0], NonLoop(items[1..]));
          EntriesOfCons(items[0], NonLoop(items[1..]), e, rest);
          Ok([e] + rest)
  }

  // ---------------------------------------------------------------------------
  // The record of one DUT.

  /** `f"{dut_sn}_{dut.pass_fail_result}" if last_result else ""` */
  function ReportPath(d: Dut, lastResult: bool): string {
    if lastResult then d.serialNumber + "_" + d.passFailResult.ToString() else ""
  }

  /** The record's own fields, before the root items are merged in. */
  function BaseRecord(d: Dut, lastResult: bool, loopCycle: int,
                      passed: seq<string>, errors: seq<string>, cases: seq<Value>): seq<(Value, Value)>
  {
    [(VStr("serialnumber"), VStr(d.serialNumber)),
     (VStr("report_path"), VStr(ReportPath(d, lastResult))),
     (VStr("loop_cycle"), VStr(IntToString(loopCycle))),
     (VStr("position"), VStr(d.testPosition)),
     (VStr("result"), d.passFailResult.ToValue()),
     (VStr("failedCases"), StrList(d.failedSteps)),
     (VStr("passedCases"), StrList(passed)),
     (VStr("errorCases"), StrList(errors)),
     (VStr("testCases"), VList(cases))]
  }

  /** The test cases of the DUT's serial in the report: the serial's entry
      itself for loop cycle 0, otherwise its entry for the loop cycle. */
  function CycleItems(report: seq<(Value, Value)>, serial: string, loopCycle: int): Result<seq<(Value, Value)>, PyError> {
    var entry :- Subscript(VDict(report), VStr(serial));
    var cycle :- if loopCycle == 0 then Ok(entry) else Subscript(entry, VInt(loopCycle));
    Items(cycle)
  }

  /** The database record of one DUT, or the exception building it raises. */
  function DutRecord(d: Dut, report: seq<(Value, Value)>, root: seq<(Value, Value)>,
                     loopCycle: int, lastResult: bool): Result<seq<(Value, Value)>, PyError>
  {
    var passed :- CasesWhere(d.testCases, Passing);
    var errors :- CasesWhere(d.testCases, Erroneous);
    var items :- CycleItems(report, d.serialNumber, loopCycle);
    var cases :- CaseEntries(items);
    Ok(Update(BaseRecord(d, lastResult, loopCycle, passed, errors, cases), root))
  }

  /** The record's own fields, looked up by name. */
  lemma {:induction false} BaseRecordGet(d: Dut, lastResult: bool, loopCycle: int,
                      passed: seq<string>, errors: seq<string>, cases: seq<Value>)
    ensures var base := BaseRecord(d, lastResult, loopCycle, passed, errors, cases);
            Get(base, VStr("serialnumber")) == Some(VStr(d.serialNumber)) &&
            Get(base, VStr("report_path")) == Some(VStr(ReportPath(d, lastResult))) &&
            Get(base, VStr("position")) == Some(VStr(d.testPosition)) &&
            Get(base, VStr("result")) == Some(d.passFailResult.ToValue())
  {
    var base := BaseRecord(d, lastResult, loopCycle, passed, errors, cases);
    var k3 := VStr("position");
    var k4 := VStr("result");
    assert base[0].0 != k3 && base[1].0 != k3 && base[2].0 != k3;
    assert base[0].0 != k4 && base[1].0 != k4 && base[2].0 != k4 && base[3].0 != k4;
    assert Get(base, k3) == Get(base[1..], k3) == Get(base[2..], k3) == Get(base[3..], k3);
    assert Get(base, k4) == Get(base[1..], k4) == Get(base[2..], k4) == Get(base[3..], k4) == Get(base[4..], k4);
  }

  /** A record holds every root item with the report's value, overriding the
      record's own field of the same name; the fields the root items do not
      name hold the DUT's serial, report path, position and verdict. */
  lemma {:induction false} RecordFields(d: Dut, report: seq<(Value, Value)>, root: seq<(Value, Value)>,
                     loopCycle: int, lastResult: bool, k: Value)
    requires DistinctKeys(root)
    requires DutRecord(d, report, root, loopCycle, lastResult).Ok?
    ensures var rec := DutRecord(d, report, root, loopCycle, lastResult).value;
            (k in KeySet(root) ==> Get(rec, k) == Get(root, k)) &&
            (k !in KeySet(root) && k == VStr("serialnumber") ==> Get(rec, k) == Some(VStr(d.serialNumber))) &&
            (k !in KeySet(root) && k == VStr("report_path") ==> Get(rec, k) == Some(VStr(ReportPath(d, lastResult)))) &&
            (k !in KeySet(root) && k == VStr("position") ==> Get(rec, k) == Some(VStr(d.testPosition))) &&
            (k !in KeySet(root) && k == VStr("result") ==> Get(rec, k) == Some(d.passFailResult.ToValue()))
  {
    var passed := CasesWhere(d.testCases, Passing).value;
    var errors := CasesWhere(d.testCases, Erroneous).value;
    var cases := CaseEntries(CycleItems(report, d.serialNumber, loopCycle).value).value;
    var base := BaseRecord(d, lastResult, loopCycle, passed, errors, cases);
    UpdateGet(base, root, k);
    BaseRecordGet(d, lastResult, loopCycle, passed, errors, cases);
  }

  /** The report path names the DUT's serial and verdict only for the last
      result. */
  lemma {:induction false} ReportPathShape(d: Dut, lastResult: bool)
    ensures lastResult ==> ReportPath(d, lastResult) == d.serialNumber + "_" + d.passFailResult.ToString()
    ensures !lastResult ==> ReportPath(d, lastResult) == ""
  {
  }

  predicate NoUnderscore(s: string) {
    forall i :: 0 <= i < |s| ==> s[i] != '_'
  }

  /** Of two strings joined by '_' to the same text, the shorter tail sits
      inside the longer one, behind a '_'. */
  lemma {:induction false} UnderscoreInTail(a: string, v: string, a': string, v': string)
    requires a + "_" + v == a' + "_" + v' && |v| < |v'|
    ensures v'[|v'| - |v| - 1] == '_'
  {
    var p := a + "_" + v;
    var k := |p| - |v| - 1;
    assert p[k] == '_';
    assert p[k] == (a' + "_" + v')[k];
  }

  /** A string joined at its last '_' splits back into its two parts. */
  lemma {:induction false} LastUnderscoreSplit(a: string, v: string, a': string, v': string)
    requires NoUnderscore(v) && NoUnderscore(v')
    requires a + "_" + v == a' + "_" + v'
    ensures a == a' && v == v'
  {
    if |v| < |v'| {
      UnderscoreInTail(a, v, a', v');
      assert false;
    } else if |v'| < |v| {
      UnderscoreInTail(a', v', a, v);
      assert false;
    } else {
      var p := a + "_" + v;
      assert a == p[..|a|] == a';
      assert v == p[|a| + 1..] == v';
    }
  }

  /** The report path is empty unless this is the last result; then it is
      never empty and names the DUT's serial and verdict, so two DUTs share
      a path exactly when they share both. */
  lemma {:induction false} ReportPathIdentifiesDut(d: Dut, d': Dut)
    ensures ReportPath(d, false) == "" && ReportPath(d, true) != ""
    ensures ReportPath(d, true) == ReportPath(d', true) <==>
              d.serialNumber == d'.serialNumber && d.passFailResult == d'.passFailResult
  {
    assert |ReportPath(d, true)| > |d.serialNumber|;
    var v, v' := d.passFailResult.ToString(), d'.passFailResult.ToString();
    if ReportPath(d, true) == ReportPath(d', true) {
      assert NoUnderscore(v) && NoUnderscore(v');
      LastUnderscoreSplit(d.serialNumber, v, d'.serialNumber, v');
    }
  }

  // ---------------------------------------------------------------------------
  // The loop over the positions.

  /** A position is reported when it holds a DUT and reporting is not stopped. */
  predicate Reports(p: ReportPosition) {
    p.dut.Some? && !p.stopReporting
  }

  /** The DUTs of the reported positions, in position order. */
  function ReportedDuts(ps: seq<(string, ReportPosition)>): (r: seq<Dut>)
    ensures |r| <= |ps|
    decreases |ps|
  {
    if ps == [] then []
    else
      var p := ps[|ps| - 1].1;
      ReportedDuts(ps[..|ps| - 1]) + (if Reports(p) then [p.dut.value] else [])
  }

  /** The records built, the position-to-path map, and the exception that
      ended the loop, if any. */
  datatype Sweep = Sweep(records: seq<seq<(Value, Value)>>, paths: seq<(string, string)>, error: Option<PyError>)

  /** One pass of the loop over the positions: a position without a
      reported DUT, or any position after a failed record, changes nothing. */
  function SweepStep(prev: Sweep, p: ReportPosition, report: seq<(Value, Value)>, root: seq<(Value, Value)>,
                     loopCycle: int, lastResult: bool): Sweep
  {
    if prev.error.Some? || !Reports(p) then prev
    else
      var d := p.dut.value;
      var paths := if lastResult then Put(prev.paths, d.testPosition, ReportPath(d, true)) else prev.paths;
      match DutRecord(d, report, root, loopCycle, lastResult)
      case Ok(rec) => Sweep(prev.records + [rec], paths, None)
      case Err(e) => Sweep(prev.records, paths, Some(e))
  }

  /** The loop over the positions, from the first to the last. */
  function Swept(ps: seq<(string, ReportPosition)>, report: seq<(Value, Value)>, root: seq<(Value, Value)>,
                 loopCycle: int, lastResult: bool): Sweep
    decreases |ps|
  {
    if ps == [] then Sweep([], [], None)
    else SweepStep(Swept(ps[..|ps| - 1], report, root, loopCycle, lastResult), ps[|ps| - 1].1,
                   report, root, loopCycle, lastResult)
  }

  /** Without errors there is one record per reported position, in order, and
      each is that position's DUT record. */
  lemma {:induction false} SweptRecords(ps: seq<(string, ReportPosition)>, report: seq<(Value, Value)>,
                                        root: seq<(Value, Value)>, loopCycle: int, lastResult: bool)
    requires Swept(ps, report, root, loopCycle, lastResult).error.None?
    ensures var s := Swept(ps, report, root, loopCycle, lastResult);
            |s.records| == |ReportedDuts(ps)| &&
            forall i :: 0 <= i < |s.records| ==>
              DutRecord(ReportedDuts(ps)[i], report, root, loopCycle, lastResult) == Ok(s.records[i])
    decreases |ps|
  {
    if ps != [] {
      var init := ps[..|ps| - 1];
      var prev := Swept(init, report, root, loopCycle, lastResult);
      if prev.error.None? {
        SweptRecords(init, report, root, loopCycle, lastResult);
      }
    }
  }

  /** The path map only grows for the last result: otherwise it stays empty,
      and for the last result each key is the position of a reported DUT. */
  lemma {:induction false} SweptPaths(ps: seq<(string, ReportPosition)>, report: seq<(Value, Value)>,
                                      root: seq<(Value, Value)>, loopCycle: int, lastResult: bool)
    ensures var s := Swept(ps, report, root, loopCycle, lastResult);
            DistinctKeys(s.paths) &&
            (!lastResult ==> s.paths == []) &&
            (forall k :: k in KeySet(s.paths) ==>
               exists d :: d in ReportedDuts(ps) && d.testPosition == k &&
                 Get(s.paths, k) == Some(ReportPath(d, true)))
    decreases |ps|
  {
    if ps != [] {
      var init := ps[..|ps| - 1];
      SweptPaths(init, report, root, loopCycle, lastResult);
      var prev := Swept(init, report, root, loopCycle, lastResult);
      var p := ps[|ps| - 1].1;
      if !(prev.error.Some? || !Reports(p)) && lastResult {
        var d := p.dut.value;
        var s := Swept(ps, report, root, loopCycle, lastResult);
        assert s.paths == Put(prev.paths, d.testPosition, ReportPath(d, true));
        assert ReportedDuts(ps) == ReportedDuts(init) + [d];
        forall k | k in KeySet(s.paths)
          ensures exists d' :: d' in ReportedDuts(ps) && d'.testPosition == k &&
                    Get(s.paths, k) == Some(ReportPath(d', true))
        {
          PutGet(prev.paths, d.testPosition, ReportPath(d, true), k);
          if k != d.testPosition {
            var d' :| d' in ReportedDuts(init) && d'.testPosition == k && Get(prev.paths, k) == Some(ReportPath(d', true));
            assert d' in ReportedDuts(ps);
          } else {
            assert d in ReportedDuts(ps);
          }
        }
      } else if !(prev.error.Some? || !Reports(p)) {
        assert ReportedDuts(ps) == ReportedDuts(init) + [p.dut.value];
      } else {
        assert ReportedDuts(init) <= ReportedDuts(ps);
      }
    }
  }

  /** For the last result, and when no record raised, every reported DUT's
      position is a key of the path map. */
  lemma {:induction false} SweptPathsComplete(ps: seq<(string, ReportPosition)>, report: seq<(Value, Value)>,
                                              root: seq<(Value, Value)>, loopCycle: int)
    requires Swept(ps, report, root, loopCycle, true).error.None?
    ensures forall d :: d in ReportedDuts(ps) ==> d.testPosition in KeySet(Swept(ps, report, root, loopCycle, true).paths)
    decreases |ps|
  {
    if ps != [] {
      var init := ps[..|ps| - 1];
      var prev := Swept(init, report, root, loopCycle, true);
      var p := ps[|ps| - 1].1;
      assert prev.error.None?;
      SweptPathsComplete(init, report, root, loopCycle);
      var s := Swept(ps, report, root, loopCycle, true);
      if Reports(p) {
        var d := p.dut.value;
        assert s.paths == Put(prev.paths, d.testPosition, ReportPath(d, true));
        assert ReportedDuts(ps) == ReportedDuts(init) + [d];
      } else {
        assert s == prev;
        assert ReportedDuts(ps) == ReportedDuts(init) + [];
      }
    }
  }

  // ---------------------------------------------------------------------------
  // `create_report`.

  /** The instruction shown when `OPERATOR_INTRODUCTIONS` is set. */
  const TakeAwayMessage: string := "Take finished DUT away from tester."

  /** The records as the documents inserted into `test_reports`. */
  function RecordValues(records: seq<seq<(Value, Value)>>): (r: seq<Value>)
    ensures |r| == |records| && forall i :: 0 <= i < |records| ==> r[i] == VDict(records[i])
  {
    seq(|records|, i requires 0 <= i < |records| => VDict(records[i]))
  }

  lemma {:induction false} RecordValuesSnoc(records: seq<seq<(Value, Value)>>, record: seq<(Value, Value)>)
    ensures RecordValues(records + [record]) == RecordValues(records) + [VDict(record)]
  {
    assert |RecordValues(records + [record])| == |RecordValues(records) + [VDict(record)]|;
  }

  /** One pass of the loop: builds the position's record, inserts it when
      there is a database, and extends the path map. */
  method ReportPositionStep(p: ReportPosition, report: seq<(Value, Value)>, root: seq<(Value, Value)>,
                            loopCycle: int, lastResult: bool, localDb: Option<MongoDb.Database>,
                            paths: seq<(string, string)>)
    returns (record: Option<seq<(Value, Value)>>, paths': seq<(string, string)>, error: Option<PyError>)
    modifies if localDb.Some? then {localDb.value} else {}
    ensures !Reports(p) ==> record.None? && paths' == paths && error.None?
    ensures Reports(p) ==> paths' == (if lastResult then Put(paths, p.dut.value.testPosition, ReportPath(p.dut.value, true)) else paths)
    ensures Reports(p) ==> match DutRecord(p.dut.value, report, root, loopCycle, lastResult)
                           case Ok(rec) => record == Some(rec) && error.None?
                           case Err(e) => record.None? && error == Some(e)
    ensures localDb.Some? ==>
              (localDb.value.testReports == old(localDb.value.testReports) + (if record.Some? then [VDict(record.value)] else []))
    ensures localDb.Some? ==> localDb.value.fileAttachments == old(localDb.value.fileAttachments)
  {
    record, paths', error := None, paths, None;
    if !Reports(p) {
      return;
    }
    var d := p.dut.value;
    if lastResult {
      paths' := Put(paths, d.testPosition, ReportPath(d, true));
    }
    var built := DutRecord(d, report, root, loopCycle, lastResult);
    if built.Err? {
      error := Some(built.error);
      return;
    }
    record := Some(built.value);
    if localDb.Some? {
      localDb.value.InsertReport(VDict(built.value));
    }
  }

  /** `create_report(...)`: the instructions to take the DUT away are shown
      when configured, the report's file name is computed, and every
      reported DUT's record is inserted into the database when there is one.
      The result is the position-to-path map handed to the reporter, or the
      exception that ends the call. */
  method CreateReport(reporter: ProgressReporter, operatorIntroductions: bool, reportDict: Value,
                      ps: seq<(string, ReportPosition)>, localDb: Option<MongoDb.Database>,
                      loopCycle: int, lastResult: bool)
    returns (filename: string, r: Result<seq<(string, string)>, PyError>)
    requires reporter.control.Valid()
    modifies reporter, reporter.queue, reporter.control, if localDb.Some? then {localDb.value} else {}
    ensures reporter.control.Valid()
    ensures filename == Filename(ps)
    ensures operatorIntroductions ==> reporter.operatorInstructions == Some(TakeAwayMessage) &&
                                      |reporter.queue.items| == |old(reporter.queue.items)| + 1
    ensures operatorIntroductions ==>
              reporter.queue.items == old(reporter.queue.items) +
                [old(SnapshotFor(reporter.control, reporter.generalStep, reporter.testPositions, reporter.overallResult,
                                 reporter.sequenceName, reporter.statistics,
                                 Some(Instructions(reporter.operatorInstructions, TakeAwayMessage, false))))] &&
              reporter.control.entries == old(reporter.control.entries)["progress" := reporter.queue.items[|reporter.queue.items| - 1]]
    ensures !operatorIntroductions ==> reporter.operatorInstructions == old(reporter.operatorInstructions) &&
                                       reporter.queue.items == old(reporter.queue.items) &&
                                       reporter.control.entries == old(reporter.control.entries)
    ensures reporter.control.run == old(reporter.control.run)
    ensures reporter.statistics == old(reporter.statistics) && reporter.generalStep == old(reporter.generalStep)
    ensures reporter.testPositions == old(reporter.testPositions) && reporter.overallResult == old(reporter.overallResult)
    ensures reporter.sequenceName == old(reporter.sequenceName)
    ensures localDb.Some? ==> localDb.value.fileAttachments == old(localDb.value.fileAttachments)
    ensures !reportDict.VDict? ==> r == Err(AttributeError("items"))
    ensures !reportDict.VDict? && localDb.Some? ==> localDb.value.testReports == old(localDb.value.testReports)
    ensures reportDict.VDict? ==>
              var s := Swept(ps, reportDict.entries, RootItemsOf(reportDict.entries), loopCycle, lastResult);
              (r.Ok? <==> s.error.None?) &&
              (r.Ok? ==> r.value == s.paths) &&
              (r.Err? ==> r.error == s.error.value) &&
              (localDb.Some? ==> localDb.value.testReports == old(localDb.value.testReports) + RecordValues(s.records))
  {
    if operatorIntroductions {
      reporter.ShowOperatorInstructions(TakeAwayMessage, false);
    }
    filename := Filename(ps);
    if !reportDict.VDict? {
      return filename, Err(AttributeError("items"));
    }
    var report := reportDict.entries;
    var root := CollectRootItems(report);
    var paths;
    var error;
    paths, error := InsertRecords(ps, report, root, loopCycle, lastResult, localDb);
    if error.Some? {
      return filename, Err(error.value);
    }
    r := Ok(paths);
  }

  /** The loop over the positions: every reported DUT's record goes into the
      database, until a record cannot be built. */
  method InsertRecords(ps: seq<(string, ReportPosition)>, report: seq<(Value, Value)>, root: seq<(Value, Value)>,
                       loopCycle: int, lastResult: bool, localDb: Option<MongoDb.Database>)
    returns (paths: seq<(string, string)>, error: Option<PyError>)
    modifies if localDb.Some? then {localDb.value} else {}
    ensures var s := Swept(ps, report, root, loopCycle, lastResult);
            paths == s.paths && error == s.error &&
            (localDb.Some? ==> localDb.value.testReports == old(localDb.value.testReports) + RecordValues(s.records))
    ensures localDb.Some? ==> localDb.value.fileAttachments == old(localDb.value.fileAttachments)
  {
    paths, error := [], None;
    var records: seq<seq<(Value, Value)>> := [];
    ghost var stored := if localDb.Some? then localDb.value.testReports else [];
    ghost var attachments := if localDb.Some? then localDb.value.fileAttachments else [];
    for i := 0 to |ps|
      invariant Swept(ps[..i], report, root, loopCycle, lastResult) == Sweep(records, paths, None)
      invariant error.None?
      invariant localDb.Some? ==> localDb.value.testReports == stored + RecordValues(records)
      invariant localDb.Some? ==> localDb.value.fileAttachments == attachments
    {
      assert ps[..i + 1][..i] == ps[..i];
      ghost var next := SweepStep(Sweep(records, paths, None), ps[i].1, report, root, loopCycle, lastResult);
      assert Swept(ps[..i + 1], report, root, loopCycle, lastResult) == next;
      var record, paths';
      record, paths', error := ReportPositionStep(ps[i].1, report, root, loopCycle, lastResult, localDb, paths);
      paths := paths';
      if error.Some? {
        assert next == Sweep(records, paths, error);
        SweptStops(ps, report, root, loopCycle, lastResult, i + 1);
        return;
      }
      assert next == Sweep(records + (if record.Some? then [record.value] else []), paths, None);
      if record.Some? {
        RecordValuesSnoc(records, record.value);
        records := records + [record.value];
      }
    }
    assert ps[..|ps|] == ps;
  }

  /** Once a record fails, the rest of the positions change nothing. */
  lemma {:induction false} SweptStops(ps: seq<(string, ReportPosition)>, report: seq<(Value, Value)>,
                                      root: seq<(Value, Value)>, loopCycle: int, lastResult: bool, n: nat)
    requires n <= |ps| && Swept(ps[..n], report, root, loopCycle, lastResult).error.Some?
    ensures Swept(ps, report, root, loopCycle, lastResult) == Swept(ps[..n], report, root, loopCycle, lastResult)
    decreases |ps| - n
  {
    if n < |ps| {
      assert ps[..n + 1][..n] == ps[..n];
      SweptStops(ps, report, root, loopCycle, lastResult, n + 1);
    } else {
      assert ps[..n] == ps;
    }
  }

  // ---------------------------------------------------------------------------
  // Pruning old reports: `remove_tree(path, timespan)`.

  /** A directory entry: a file with its modification time, or a directory
      with its entries by name. */
  datatype Node = File(mtime: int) | Dir(children: seq<(string, Node)>)

  /** A file is deleted when its age exceeds the timespan. */
  predicate Expired(mtime: int, now: int, timespan: int) {
    now - mtime > timespan
  }

  /** What is left of an entry once a positive timespan has been applied: an
      expired file is unlinked, a directory is pruned and then removed when
      `rmdir` finds it empty. None is an entry that is gone. */
  function Pruned(n: Node, now: int, timespan: int): (r: Option<Node>)
    ensures r.Some? ==> r.value.File? == n.File?
    decreases n
  {
    match n
    case File(mtime) => if Expired(mtime, now, timespan) then None else Some(n)
    case Dir(cs) =>
      var kept := PrunedChildren(cs, now, timespan);
      if kept == [] then None else Some(Dir(kept))
  }

  /** What is left of one entry, as a (possibly empty) list of entries. */
  function PrunedEntry(e: (string, Node), now: int, timespan: int): (r: seq<(string, Node)>)
    ensures r == [] <==> Pruned(e.1, now, timespan).None?
    ensures r != [] ==> r == [(e.0, Pruned(e.1, now, timespan).value)]
    decreases e, 1
  {
    assert e.1 < e;
    match Pruned(e.1, now, timespan)
    case None => []
    case Some(m) => [(e.0, m)]
  }

  /** The entries of a directory after the loop over them, in order. */
  function PrunedChildren(cs: seq<(string, Node)>, now: int, timespan: int): (r: seq<(string, Node)>)
    ensures |r| <= |cs|
    decreases cs, 0
  {
    if cs == [] then []
    else
      assert cs[0] in cs;
      PrunedEntry(cs[0], now, timespan) + PrunedChildren(cs[1..], now, timespan)
  }

  /** Pruning the entries of a directory distributes over its list. */
  lemma {:induction false} PrunedChildrenConcat(a: seq<(string, Node)>, b: seq<(string, Node)>, now: int, timespan: int)
    ensures PrunedChildren(a + b, now, timespan) == PrunedChildren(a, now, timespan) + PrunedChildren(b, now, timespan)
    decreases |a|
  {
    if a == [] {
      assert a + b == b;
    } else {
      assert (a + b)[0] == a[0] && (a + b)[1..] == a[1..] + b;
      PrunedChildrenConcat(a[1..], b, now, timespan);
    }
  }

  /** `remove_tree(path, timespan)` on the directory `dir`: nothing happens
      for a timespan of zero or less. */
  function RemovedTree(dir: seq<(string, Node)>, now: int, timespan: int): (r: Option<Node>)
    ensures timespan <= 0 ==> r == Some(Dir(dir))
  {
    if timespan <= 0 then Some(Dir(dir)) else Pruned(Dir(dir), now, timespan)
  }

  /** The recursion of `remove_tree` with its loop over the children;
      `now` stands for the clock. */
  method PruneTree(n: Node, now: int, timespan: int) returns (r: Option<Node>)
    ensures r == Pruned(n, now, timespan)
    decreases n
  {
    match n
    case File(mtime) =>
      r := if Expired(mtime, now, timespan) then None else Some(n);
    case Dir(cs) =>
      var kept: seq<(string, Node)> := [];
      for i := 0 to |cs|
        invariant kept == PrunedChildren(cs[..i], now, timespan)
      {
        var (name, child) := cs[i];
        assert cs[i] in cs && child < cs[i];
        var left := PruneTree(child, now, timespan);
        PrunedChildrenConcat(cs[..i], [cs[i]], now, timespan);
        assert cs[..i + 1] == cs[..i] + [cs[i]];
        assert PrunedChildren([cs[i]], now, timespan) == PrunedEntry(cs[i], now, timespan) + PrunedChildren([], now, timespan);
        if left.Some? {
          kept := kept + [(name, left.value)];
        }
      }
      assert cs[..|cs|] == cs;
      // `path.rmdir()` succeeds only on an empty directory
      r := if kept == [] then None else Some(Dir(kept));
  }

  /** `remove_tree(path, timespan)` */
  method RemoveTree(dir: seq<(string, Node)>, now: int, timespan: int) returns (r: Option<Node>)
    ensures r == RemovedTree(dir, now, timespan)
  {
    if timespan <= 0 {
      return Some(Dir(dir));
    }
    r := PruneTree(Dir(dir), now, timespan);
  }

  /** No file older than the timespan is left anywhere in an entry. */
  predicate NoExpired(n: Node, now: int, timespan: int)
    decreases n
  {
    match n
    case File(mtime) => !Expired(mtime, now, timespan)
    case Dir(cs) => forall i :: 0 <= i < |cs| ==> NoExpired(cs[i].1, now, timespan)
  }

  /** No empty directory is left anywhere in an entry. */
  predicate NoEmptyDir(n: Node)
    decreases n
  {
    match n
    case File(_) => true
    case Dir(cs) => cs != [] && forall i :: 0 <= i < |cs| ==> NoEmptyDir(cs[i].1)
  }

  /** After pruning, no expired file and no empty directory is left. */
  lemma {:induction false} PrunedClean(n: Node, now: int, timespan: int)
    ensures Pruned(n, now, timespan).Some? ==>
              NoExpired(Pruned(n, now, timespan).value, now, timespan) &&
              NoEmptyDir(Pruned(n, now, timespan).value)
    decreases n, 1
  {
    match n
    case File(_) =>
    case Dir(cs) =>
      var kept := PrunedChildren(cs, now, timespan);
      PrunedChildrenClean(cs, now, timespan);
      if kept != [] {
        assert Pruned(n, now, timespan) == Some(Dir(kept));
        assert forall i :: 0 <= i < |kept| ==> kept[i] in kept;
      }
  }

  lemma {:induction false} PrunedChildrenClean(cs: seq<(string, Node)>, now: int, timespan: int)
    ensures forall e :: e in PrunedChildren(cs, now, timespan) ==> NoExpired(e.1, now, timespan) && NoEmptyDir(e.1)
    decreases cs, 0
  {
    if cs != [] {
      assert cs[0] in cs && cs[0].1 < cs[0];
      PrunedClean(cs[0].1, now, timespan);
      PrunedChildrenClean(cs[1..], now, timespan);
      var head: seq<(string, Node)>, rest: seq<(string, Node)> := PrunedEntry(cs[0], now, timespan), PrunedChildren(cs[1..], now, timespan);
      assert PrunedChildren(cs, now, timespan) == head + rest;
      assert head != [] ==> head == [(cs[0].0, Pruned(cs[0].1, now, timespan).value)];
    }
  }

  /** Whether an entry holds a file that has not expired. */
  predicate HasFresh(n: Node, now: int, timespan: int)
    decreases n
  {
    match n
    case File(mtime) => !Expired(mtime, now, timespan)
    case Dir(cs) => exists i :: 0 <= i < |cs| && HasFresh(cs[i].1, now, timespan)
  }

  /** An entry disappears exactly when it holds no file younger than the
      timespan: a directory is removed only when it is empty afterwards. */
  lemma {:induction false} PrunedGone(n: Node, now: int, timespan: int)
    ensures Pruned(n, now, timespan).None? <==> !HasFresh(n, now, timespan)
    decreases n, 1
  {
    match n
    case File(_) =>
    case Dir(cs) =>
      PrunedChildrenGone(cs, now, timespan);
  }

  lemma {:induction false} PrunedChildrenGone(cs: seq<(string, Node)>, now: int, timespan: int)
    ensures PrunedChildren(cs, now, timespan) == [] <==>
              forall i :: 0 <= i < |cs| ==> !HasFresh(cs[i].1, now, timespan)
    decreases cs, 0
  {
    if cs != [] {
      assert cs[0] in cs && cs[0].1 < cs[0];
      PrunedGone(cs[0].1, now, timespan);
      PrunedChildrenGone(cs[1..], now, timespan);
      assert forall i :: 1 <= i < |cs| ==> cs[i] == cs[1..][i - 1];
    }
  }

  /** Where an entry sits in a directory tree. */
  function Find(n: Node, path: seq<string>): Option<Node>
    decreases path
  {
    if path == [] then Some(n)
    else match n
      case File(_) => None
      case Dir(cs) =>
        match Get(cs, path[0])
        case None => None
        case Some(child) => Find(child, path[1..])
  }

  /** An entry that survives pruning is found under its name afterwards. */
  lemma {:induction false} SurvivorFound(cs: seq<(string, Node)>, now: int, timespan: int, name: string)
    requires Get(cs, name).Some? && Pruned(Get(cs, name).value, now, timespan).Some?
    ensures Get(PrunedChildren(cs, now, timespan), name) == Pruned(Get(cs, name).value, now, timespan)
    decreases |cs|
  {
    var rest: seq<(string, Node)> := PrunedChildren(cs[1..], now, timespan);
    var head: seq<(string, Node)> := PrunedEntry(cs[0], now, timespan);
    assert PrunedChildren(cs, now, timespan) == head + rest;
    if cs[0].0 != name {
      SurvivorFound(cs[1..], now, timespan, name);
      if head != [] {
        assert (head + rest)[0].0 != name && (head + rest)[1..] == rest;
        assert Get(head + rest, name) == Get(rest, name);
      } else {
        assert head + rest == rest;
      }
      assert Get(cs, name) == Get(cs[1..], name);
    } else {
      assert head == [(name, Pruned(cs[0].1, now, timespan).value)];
      assert (head + rest)[0] == head[0];
    }
  }

  /** A file that has not expired stays at its path: pruning deletes only
      files older than the timespan. */
  lemma {:induction false} FreshFileKept(n: Node, now: int, timespan: int, path: seq<string>)
    requires Find(n, path).Some? && Find(n, path).value.File?
    requires !Expired(Find(n, path).value.mtime, now, timespan)
    ensures Pruned(n, now, timespan).Some?
    ensures Find(Pruned(n, now, timespan).value, path) == Find(n, path)
    decreases path
  {
    if path != [] {
      var child := Get(n.children, path[0]).value;
      FreshFileKept(child, now, timespan, path[1..]);
      SurvivorFound(n.children, now, timespan, path[0]);
    }
  }
}
