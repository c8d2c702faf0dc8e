/** Progress reporting (test_runner/progress_reporter.py): the snapshot of the
    run the UI polls and receives, built from the reporter's fields, the test
    positions and the test control. Each report stores the snapshot in the
    control under 'progress' and puts one copy on the progress queue. */
module Progress {
  import opened PyValue
  import opened Duts
  import opened Positions
  import opened Control
  import opened Queues

  /** A str-or-None field as JSON sees it. */
  function OptStr(s: Option<string>): (v: Value)
    ensures s.None? <==> v == VNone
    ensures s.Some? ==> v == VStr(s.value)
  {
    match s
    case None => VNone
    case Some(x) => VStr(x)
  }

  /** `str(x)` for a str-or-None field. */
  function PyStr(s: Option<string>): string {
    match s
    case None => "None"
    case Some(x) => x
  }

  /** The entry of one position in the 'duts' map. */
  function PositionView(s: PositionState): (v: seq<(Value, Value)>)
    ensures Keys(v) == [VStr("step"), VStr("status"), VStr("sn"), VStr("test_status")]
    ensures v[2].1 == VNone <==> s.dut.None?
    ensures s.dut.Some? ==> v[2].1 == VStr(s.dut.value.serialNumber)
  {
    [(VStr("step"), OptStr(s.step)),
     (VStr("status"), OptStr(s.status)),
     (VStr("sn"), if s.dut.None? then VNone else VStr(s.dut.value.serialNumber)),
     (VStr("test_status"), VStr(PyStr(s.testStatus)))]
  }

  /** The 'duts' map built by the loop over the positions, one assignment per
      position in order. */
  function DutsView(ps: seq<(string, PositionState)>): seq<(Value, Value)>
    decreases |ps|
  {
    if ps == [] then []
    else Put(DutsView(ps[..|ps| - 1]), VStr(ps[|ps| - 1].0), VDict(PositionView(ps[|ps| - 1].1)))
  }

  /** The position names, as the keys of a JSON dict. */
  function NameKeys(ps: seq<(string, PositionState)>): set<Value> {
    set i | 0 <= i < |ps| :: VStr(ps[i].0)
  }

  /** The 'duts' map has exactly one key per position name. */
  lemma {:induction false} DutsViewKeys(ps: seq<(string, PositionState)>)
    ensures DistinctKeys(DutsView(ps))
    ensures KeySet(DutsView(ps)) == NameKeys(ps)
    decreases |ps|
  {
    if ps != [] {
      var n := |ps| - 1;
      var init := ps[..n];
      DutsViewKeys(init);
      NameKeysSnoc(ps);
    }
  }

  lemma {:induction false} NameKeysSnoc(ps: seq<(string, PositionState)>)
    requires ps != []
    ensures NameKeys(ps) == NameKeys(ps[..|ps| - 1]) + {VStr(ps[|ps| - 1].0)}
  {
    var n := |ps| - 1;
    var init := ps[..n];
    forall x ensures x in NameKeys(ps) <==> x in NameKeys(init) + {VStr(ps[n].0)} {
      if x in NameKeys(ps) {
        var i :| 0 <= i < |ps| && x == VStr(ps[i].0);
        if i < n {
          assert init[i] == ps[i];
        }
      }
      if x in NameKeys(init) {
        var i :| 0 <= i < |init| && x == VStr(init[i].0);
        assert ps[i] == init[i];
      }
    }
  }

  /** Each position's entry shows that position's own fields. */
  lemma {:induction false} DutsViewGet(ps: seq<(string, PositionState)>, i: nat)
    requires DistinctKeys(ps) && i < |ps|
    ensures Get(DutsView(ps), VStr(ps[i].0)) == Some(VDict(PositionView(ps[i].1)))
    decreases |ps|
  {
    var n := |ps| - 1;
    if i < n {
      DistinctPair(ps, i, n);
      DutsViewGetEarlier(ps, i);
      DistinctKeysPrefix(ps, n);
      DutsViewGet(ps[..n], i);
      assert ps[..n][i] == ps[i];
    } else {
      DutsViewGetLast(ps);
    }
  }

  lemma {:induction false} DutsViewGetLast(ps: seq<(string, PositionState)>)
    requires ps != []
    ensures Get(DutsView(ps), VStr(ps[|ps| - 1].0)) == Some(VDict(PositionView(ps[|ps| - 1].1)))
  {
    var n := |ps| - 1;
    PutGet(DutsView(ps[..n]), VStr(ps[n].0), VDict(PositionView(ps[n].1)), VStr(ps[n].0));
  }

  lemma {:induction false} DutsViewGetEarlier(ps: seq<(string, PositionState)>, i: nat)
    requires i < |ps| - 1 && ps[i].0 != ps[|ps| - 1].0
    ensures Get(DutsView(ps), VStr(ps[i].0)) == Get(DutsView(ps[..|ps| - 1]), VStr(ps[i].0))
  {
    var n := |ps| - 1;
    assert VStr(ps[i].0) != VStr(ps[n].0);
    assert DutsView(ps) == Put(DutsView(ps[..n]), VStr(ps[n].0), VDict(PositionView(ps[n].1)));
    PutGet(DutsView(ps[..n]), VStr(ps[n].0), VDict(PositionView(ps[n].1)), VStr(ps[i].0));
  }

  /** The positions' current fields, in order. */
  function States(ps: seq<(string, TestPosition)>): (r: seq<(string, PositionState)>)
    reads set i | 0 <= i < |ps| :: ps[i].1
    ensures |r| == |ps|
    ensures forall i {:trigger ps[i]} :: 0 <= i < |ps| ==> r[i] == (ps[i].0, ps[i].1.State())
  {
    if ps == [] then [] else [(ps[0].0, ps[0].1.State())] + States(ps[1..])
  }

  /** The positions' fields are all `States` reads. */
  twostate lemma StatesUnchanged(ps: seq<(string, TestPosition)>)
    requires unchanged(set i | 0 <= i < |ps| :: ps[i].1)
    ensures States(ps) == old(States(ps))
  {
  }

  /** The loop over `test_positions.items()` that fills the 'duts' map. */
  method BuildDutsView(ps: seq<(string, TestPosition)>) returns (d: seq<(Value, Value)>)
    ensures d == DutsView(States(ps))
  {
    d := [];
    ghost var all := States(ps);
    for i := 0 to |ps|
      invariant d == DutsView(all[..i])
    {
      var (name, position) := ps[i];
      assert all[..i + 1][..i] == all[..i];
      d := Put(d, VStr(name), VDict(PositionView(position.State())));
    }
    assert all[..|ps|] == all;
  }

  /** The progress message of a `ProgressReporter`. */
  function ReporterSnapshot(generalStep: Value, duts: seq<(Value, Value)>, sequenceName: Value,
                            snFromUi: Value, testSequences: Value, overallResult: Value,
                            statistics: Value, instructions: Option<string>): seq<(Value, Value)>
  {
    [(VStr("general_state"), generalStep),
     (VStr("duts"), VDict(duts)),
     (VStr("sequence_name"), sequenceName),
     (VStr("get_sn_from_ui"), snFromUi),
     (VStr("test_sequences"), testSequences)]
    + (if Truthy(overallResult) then [(VStr("overall_result"), overallResult)] else [])
    + [(VStr("statistics"), statistics),
       (VStr("operator_instructions"), OptStr(instructions))]
  }

  /** The progress message is a proper dict: 'overall_result' appears exactly
      when the overall result is truthy, while 'statistics' and
      'operator_instructions' are always there, and every field holds the
      reporter's value. */
  lemma {:induction false} ReporterSnapshotFields(generalStep: Value, duts: seq<(Value, Value)>, sequenceName: Value,
                               snFromUi: Value, testSequences: Value, overallResult: Value,
                               statistics: Value, instructions: Option<string>)
    ensures var r := ReporterSnapshot(generalStep, duts, sequenceName, snFromUi, testSequences,
                                      overallResult, statistics, instructions);
            DistinctKeys(r) &&
            (VStr("overall_result") in KeySet(r) <==> Truthy(overallResult)) &&
            (Truthy(overallResult) ==> Get(r, VStr("overall_result")) == Some(overallResult)) &&
            Get(r, VStr("statistics")) == Some(statistics) &&
            Get(r, VStr("operator_instructions")) == Some(OptStr(instructions)) &&
            Get(r, VStr("duts")) == Some(VDict(duts)) &&
            Get(r, VStr("general_state")) == Some(generalStep) &&
            Get(r, VStr("sequence_name")) == Some(sequenceName) &&
            Get(r, VStr("get_sn_from_ui")) == Some(snFromUi) &&
            Get(r, VStr("test_sequences")) == Some(testSequences)
  {
    var r := ReporterSnapshot(generalStep, duts, sequenceName, snFromUi, testSequences,
                              overallResult, statistics, instructions);
    var n := |r|;
    assert r[0].0 == VStr("general_state") && r[1].0 == VStr("duts") && r[2].0 == VStr("sequence_name");
    assert r[3].0 == VStr("get_sn_from_ui") && r[4].0 == VStr("test_sequences");
    assert r[n - 2].0 == VStr("statistics") && r[n - 1].0 == VStr("operator_instructions");
    DistinctKeysIndex(r);
    KeySetIndex(r, VStr("overall_result"));
    forall i | 0 <= i < n ensures Get(r, r[i].0) == Some(r[i].1) {
      GetIndex(r, i);
    }
    if Truthy(overallResult) {
      assert r[5] == (VStr("overall_result"), overallResult);
    } else {
      forall i | 0 <= i < n ensures r[i].0 != VStr("overall_result") {
      }
    }
  }

  // ---------------------------------------------------------------------------
  // Operator instructions.

  /** The instructions after `show_operator_instructions(message, append)`. */
  function Instructions(current: Option<string>, message: string, append: bool): (r: string)
    ensures EndsWith(r, message)
    ensures append && TruthyStr(current) ==> StartsWith(r, current.value + "\r\n")
  {
    var r := if append && TruthyStr(current) then current.value + "\r\n" + message else message;
    assert r[|r| - |message|..] == message;
    r
  }

  /** The instructions after showing each message in turn with append set. */
  function AppendedAll(current: Option<string>, messages: seq<string>): Option<string>
    decreases |messages|
  {
    if messages == [] then current
    else Some(Instructions(AppendedAll(current, messages[..|messages| - 1]), messages[|messages| - 1], true))
  }

  lemma {:induction false} JoinSnoc(sep: string, parts: seq<string>, last: string)
    requires parts != []
    ensures Join(sep, parts + [last]) == Join(sep, parts) + sep + last
    decreases |parts|
  {
    if |parts| > 1 {
      JoinSnoc(sep, parts[1..], last);
      assert (parts + [last])[1..] == parts[1..] + [last];
    }
  }

  lemma {:induction false} JoinNonEmpty(sep: string, parts: seq<string>)
    requires parts != [] && parts[0] != ""
    ensures Join(sep, parts) != ""
  {
  }

  /** Showing non-empty messages one after another, each appended, leaves
      them all on screen, one per line, in order. */
  lemma {:induction false} AppendedAllJoins(messages: seq<string>)
    requires messages != []
    requires forall i :: 0 <= i < |messages| ==> messages[i] != ""
    ensures AppendedAll(None, messages) == Some(Join("\r\n", messages))
    decreases |messages|
  {
    var n := |messages| - 1;
    var init := messages[..n];
    if n > 0 {
      AppendedAllJoins(init);
      JoinNonEmpty("\r\n", init);
      JoinSnoc("\r\n", init, messages[n]);
      assert init + [messages[n]] == messages;
    } else {
      assert messages == [messages[0]];
    }
  }

  /** A keyword argument of `set_progress`: the value given, or the field's
      current value when the argument is absent. */
  function Given<T>(arg: Option<T>, current: T): T {
    match arg
    case Some(v) => v
    case None => current
  }

  /** The objects a set of positions lets the snapshot read. */
  function PositionsOf(positions: Option<seq<(string, TestPosition)>>): set<TestPosition> {
    match positions
    case None => {}
    case Some(ps) => set i | 0 <= i < |ps| :: ps[i].1
  }

  /** The 'duts' map for the reporter's positions: empty when there are none. */
  function DutsFor(positions: Option<seq<(string, TestPosition)>>): seq<(Value, Value)>
    reads PositionsOf(positions)
  {
    if positions.Some? && positions.value != [] then DutsView(States(positions.value)) else []
  }

  /** The progress message for the given reporter fields and control. */
  function SnapshotFor(control: TestControl, generalStep: Value, positions: Option<seq<(string, TestPosition)>>,
                       overallResult: Value, sequenceName: Value, statistics: Value,
                       instructions: Option<string>): Value
    reads control, PositionsOf(positions)
    requires DefaultKeys <= control.entries.Keys
  {
    VDict(ReporterSnapshot(generalStep, DutsFor(positions), sequenceName, control.entries["get_sn_from_ui"],
                           control.entries["test_sequences"], overallResult, statistics, instructions))
  }

  class ProgressReporter {
    const control: TestControl
    var statistics: Value
    var generalStep: Value
    var testPositions: Option<seq<(string, TestPosition)>>
    var overallResult: Value
    var sequenceName: Value
    var operatorInstructions: Option<string>
    /** The progress queue the UI reads. */
    const queue: Queue

    /** The progress message the reporter would send now. */
    function Snapshot(): Value
      reads this, control, PositionsOf(testPositions)
      requires DefaultKeys <= control.entries.Keys
    {
      SnapshotFor(control, generalStep, testPositions, overallResult, sequenceName, statistics,
                  operatorInstructions)
    }

    /** `ProgressReporter(test_control, progess_queue)`: every field None. */
    constructor (control: TestControl, queue: Queue)
      ensures this.control == control && this.queue == queue
      ensures statistics == VNone && generalStep == VNone && testPositions == None
      ensures overallResult == VNone && sequenceName == VNone && operatorInstructions == None
    {
      this.control := control;
      statistics, generalStep, testPositions := VNone, VNone, None;
      overallResult, sequenceName, operatorInstructions := VNone, VNone, None;
      this.queue := queue;
    }

    /** `_report_progress()`: the snapshot goes into the control under
        'progress', and exactly one copy onto the queue. */
    method ReportProgress()
      requires control.Valid()
      modifies queue, control
      ensures control.Valid() && control.run == old(control.run)
      ensures control.entries == old(control.entries)["progress" := old(Snapshot())]
      ensures queue.items == old(queue.items) + [old(Snapshot())]
    {
      var duts: seq<(Value, Value)> := [];
      if testPositions.Some? && testPositions.value != [] {
        duts := BuildDutsView(testPositions.value);
      }
      var snapshot := VDict(ReporterSnapshot(generalStep, duts, sequenceName, control.entries["get_sn_from_ui"],
                                             control.entries["test_sequences"], overallResult, statistics,
                                             operatorInstructions));
      control.SetEntry("progress", snapshot);
      queue.Put(snapshot);
    }

    /** `set_progress(**kwargs)` for the reporter's own fields: the fields
        given are stored, the others kept, then one report is sent. */
    method SetProgress(statistics: Option<Value>, generalStep: Option<Value>,
                       testPositions: Option<Option<seq<(string, TestPosition)>>>,
                       overallResult: Option<Value>, sequenceName: Option<Value>,
                       operatorInstructions: Option<Option<string>>)
      requires control.Valid()
      modifies this, queue, control
      ensures control.Valid() && control.run == old(control.run)
      ensures this.statistics == Given(statistics, old(this.statistics))
      ensures this.generalStep == Given(generalStep, old(this.generalStep))
      ensures this.testPositions == Given(testPositions, old(this.testPositions))
      ensures this.overallResult == Given(overallResult, old(this.overallResult))
      ensures this.sequenceName == Given(sequenceName, old(this.sequenceName))
      ensures this.operatorInstructions == Given(operatorInstructions, old(this.operatorInstructions))
      ensures queue.items == old(queue.items) +
                [old(SnapshotFor(control, Given(generalStep, this.generalStep),
                                 Given(testPositions, this.testPositions),
                                 Given(overallResult, this.overallResult),
                                 Given(sequenceName, this.sequenceName),
                                 Given(statistics, this.statistics),
                                 Given(operatorInstructions, this.operatorInstructions)))]
      ensures control.entries == old(control.entries)["progress" := queue.items[|queue.items| - 1]]
    {
      this.statistics, this.generalStep, this.testPositions, this.overallResult, this.sequenceName,
        this.operatorInstructions :=
        Given(statistics, this.statistics), Given(generalStep, this.generalStep),
        Given(testPositions, this.testPositions), Given(overallResult, this.overallResult),
        Given(sequenceName, this.sequenceName), Given(operatorInstructions, this.operatorInstructions);
      if this.testPositions.Some? {
        StatesUnchanged(this.testPositions.value);
      }
      ReportProgress();
    }

    /** `show_operator_instructions(message, append=False)`: the message is
        added on a new line when appending to instructions already shown, and
        replaces them otherwise; then one report is sent. */
    method ShowOperatorInstructions(message: string, append: bool)
      requires control.Valid()
      modifies this, queue, control
      ensures control.Valid() && control.run == old(control.run)
      ensures operatorInstructions == Some(Instructions(old(operatorInstructions), message, append))
      ensures !(append && TruthyStr(old(operatorInstructions))) ==> operatorInstructions == Some(message)
      ensures statistics == old(statistics) && generalStep == old(generalStep)
      ensures testPositions == old(testPositions) && overallResult == old(overallResult)
      ensures sequenceName == old(sequenceName)
      ensures queue.items == old(queue.items) +
                [old(SnapshotFor(control, generalStep, testPositions, overallResult, sequenceName, statistics,
                                 Some(Instructions(operatorInstructions, message, append))))]
      ensures control.entries == old(control.entries)["progress" := queue.items[|queue.items| - 1]]
    {
      if append && TruthyStr(operatorInstructions) {
        operatorInstructions := Some(operatorInstructions.value + "\r\n" + message);
      } else {
        operatorInstructions := Some(message);
      }
      if testPositions.Some? {
        StatesUnchanged(testPositions.value);
      }
      ReportProgress();
    }
  }
}
