/** The test-control dictionary shared by the runner, the REST listener and the
    progress reporter (built by `get_test_control`, test_runner/runner.py). The
    'run' entry is a `threading.Event`; it is kept apart as a flag, and every
    other entry is a plain value. */
module Control {
  import opened PyValue

  /** The keys `get_test_control` creates besides 'run'. */
  const DefaultKeys: set<string> := {
    "single_run", "step", "skip", "loop_all", "loop", "retest_on_fail",
    "terminate", "report_off", "get_sn_from_ui", "test_sequences", "dry_run"
  }

  /** The run flag and the other entries, as values. */
  datatype ControlState = ControlState(run: bool, entries: map<string, Value>)

  class TestControl {
    /** Whether the 'run' event is set. */
    var run: bool
    /** Every entry but 'run'. */
    var entries: map<string, Value>

    function State(): ControlState
      reads this
    {
      ControlState(run, entries)
    }

    ghost predicate Valid()
      reads this
    {
      DefaultKeys <= entries.Keys && "run" !in entries
    }

    /** `test_control[key] = value` for a key other than 'run'. */
    method SetEntry(key: string, value: Value)
      requires Valid() && key != "run"
      modifies this
      ensures Valid() && run == old(run)
      ensures entries == old(entries)[key := value]
    {
      entries := entries[key := value];
    }

    /** `get_test_control()`: the run event starts cleared; the serial-number
        source and the sequence list come from the common definitions. */
    constructor (snFromUi: Value, testSequences: Value)
      ensures Valid() && !run && entries.Keys == DefaultKeys
      ensures entries["get_sn_from_ui"] == snFromUi && entries["test_sequences"] == testSequences
      ensures entries["single_run"] == VBool(false) && entries["step"] == VBool(false)
      ensures entries["skip"] == VNone && entries["loop_all"] == VBool(false)
      ensures entries["loop"] == VNone && entries["retest_on_fail"] == VInt(0)
      ensures entries["terminate"] == VBool(false) && entries["report_off"] == VBool(false)
      ensures entries["dry_run"] == VBool(false)
    {
      run := false;
      entries := map[
        "single_run" := VBool(false),
        "step" := VBool(false),
        "skip" := VNone,
        "loop_all" := VBool(false),
        "loop" := VNone,
        "retest_on_fail" := VInt(0),
        "terminate" := VBool(false),
        "report_off" := VBool(false),
        "get_sn_from_ui" := snFromUi,
        "test_sequences" := testSequences,
        "dry_run" := VBool(false)
      ];
    }
  }
}
