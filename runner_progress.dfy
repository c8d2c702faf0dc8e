/** The runner's own progress report (`report_progress` inside
    `run_test_runner`, test_runner/runner.py): the same message as the
    progress reporter's, without statistics and operator instructions, stored
    in the control under 'progress' and put once on the progress queue. */
module RunnerProgress {
  import opened PyValue
  import opened Positions
  import opened Control
  import opened Queues
  import opened Progress

  /** The 'duts' field: None without positions, the map of the positions
      otherwise (an empty dict stays empty). */
  function DutsField(positions: Option<seq<(string, TestPosition)>>): (v: Value)
    reads PositionsOf(positions)
    ensures v == VNone <==> positions.None?
  {
    if positions.None? then VNone else VDict(DutsView(States(positions.value)))
  }

  /** The progress message the runner sends. */
  function RunnerSnapshot(generalStep: Value, duts: Value, sequenceName: Value,
                          snFromUi: Value, testSequences: Value, overallResult: Value): seq<(Value, Value)>
  {
    [(VStr("general_state"), generalStep),
     (VStr("duts"), duts),
     (VStr("sequence_name"), sequenceName),
     (VStr("get_sn_from_ui"), snFromUi),
     (VStr("test_sequences"), testSequences)]
    + (if Truthy(overallResult) then [(VStr("overall_result"), overallResult)] else [])
  }

  /** The runner's message is a proper dict with the five fields it always
      has, 'overall_result' exactly when the result is truthy, and neither
      statistics nor operator instructions. */
  lemma {:induction false} RunnerSnapshotFields(generalStep: Value, duts: Value, sequenceName: Value,
                             snFromUi: Value, testSequences: Value, overallResult: Value)
    ensures var r := RunnerSnapshot(generalStep, duts, sequenceName, snFromUi, testSequences, overallResult);
            DistinctKeys(r) &&
            (VStr("overall_result") in KeySet(r) <==> Truthy(overallResult)) &&
            (Truthy(overallResult) ==> Get(r, VStr("overall_result")) == Some(overallResult)) &&
            VStr("statistics") !in KeySet(r) && VStr("operator_instructions") !in KeySet(r) &&
            Get(r, VStr("general_state")) == Some(generalStep) &&
            Get(r, VStr("duts")) == Some(duts) &&
            Get(r, VStr("sequence_name")) == Some(sequenceName) &&
            Get(r, VStr("get_sn_from_ui")) == Some(snFromUi) &&
            Get(r, VStr("test_sequences")) == Some(testSequences)
  {
    var r := RunnerSnapshot(generalStep, duts, sequenceName, snFromUi, testSequences, overallResult);
    assert r[0].0 == VStr("general_state") && r[1].0 == VStr("duts") && r[2].0 == VStr("sequence_name");
    assert r[3].0 == VStr("get_sn_from_ui") && r[4].0 == VStr("test_sequences");
    DistinctKeysIndex(r);
    KeySetIndex(r, VStr("overall_result"));
    KeySetIndex(r, VStr("statistics"));
    KeySetIndex(r, VStr("operator_instructions"));
    forall i | 0 <= i < |r| ensures Get(r, r[i].0) == Some(r[i].1) {
      GetIndex(r, i);
    }
    if Truthy(overallResult) {
      assert r[5] == (VStr("overall_result"), overallResult);
    }
  }

  /** The reporter's message is the runner's followed by the statistics and
      the operator instructions. */
  lemma {:induction false} ReporterExtendsRunner(generalStep: Value, duts: seq<(Value, Value)>, sequenceName: Value,
                              snFromUi: Value, testSequences: Value, overallResult: Value,
                              statistics: Value, instructions: Option<string>)
    ensures ReporterSnapshot(generalStep, duts, sequenceName, snFromUi, testSequences, overallResult,
                             statistics, instructions)
            == RunnerSnapshot(generalStep, VDict(duts), sequenceName, snFromUi, testSequences, overallResult)
               + [(VStr("statistics"), statistics), (VStr("operator_instructions"), OptStr(instructions))]
  {
  }

  /** The runner's message for the given arguments and the control's entries. */
  function RunnerProgressFor(control: TestControl, generalStep: Value,
                             positions: Option<seq<(string, TestPosition)>>,
                             overallResult: Value, sequenceName: Value): Value
    reads control, PositionsOf(positions)
    requires DefaultKeys <= control.entries.Keys
  {
    VDict(RunnerSnapshot(generalStep, DutsField(positions), sequenceName, control.entries["get_sn_from_ui"],
                         control.entries["test_sequences"], overallResult))
  }

  /** `report_progress(general_step, test_positions, overall_result,
      sequence_name)`: the message goes into the control under 'progress',
      and exactly one copy onto the queue. */
  method ReportProgress(control: TestControl, queue: Queue, generalStep: Value,
                        testPositions: Option<seq<(string, TestPosition)>>,
                        overallResult: Value, sequenceName: Value)
    requires control.Valid()
    modifies control, queue
    ensures control.Valid() && control.run == old(control.run)
    ensures control.entries ==
              old(control.entries)["progress" := old(RunnerProgressFor(control, generalStep, testPositions,
                                                                       overallResult, sequenceName))]
    ensures queue.items ==
              old(queue.items) + [old(RunnerProgressFor(control, generalStep, testPositions,
                                                         overallResult, sequenceName))]
  {
    var duts := VNone;
    if testPositions.Some? {
      if testPositions.value != [] {
        var view := BuildDutsView(testPositions.value);
        duts := VDict(view);
      } else {
        duts := VDict([]);
      }
    }
    var progress := VDict(RunnerSnapshot(generalStep, duts, sequenceName, control.entries["get_sn_from_ui"],
                                         control.entries["test_sequences"], overallResult));
    control.SetEntry("progress", progress);
    queue.Put(progress);
  }
}
