/** A test position of the tester (test_runner/test_position.py): the slot a
    DUT sits in, with the fields the runner and the UI read and update. */
module Positions {
  import opened PyValue
  import opened Duts

  /** Where the runner found a test-case class: the sequence module or the pool. */
  datatype Origin = FromSequence | FromPool

  /** A test-case instance: the class it instantiates, where the class was
      found, and the DUT its constructor was given. */
  datatype Instance = Instance(caseName: string, origin: Origin, dut: Option<Dut>)

  /** The fields of a position that change; `name` and `ui_position` never do. */
  datatype PositionState = PositionState(
    step: Option<string>,
    status: Option<string>,
    testStatus: Option<string>,
    instances: map<string, Instance>,
    dut: Option<Dut>,
    stopTesting: bool)

  /** `if not s` for a str-or-None field. */
  predicate TruthyStr(s: Option<string>) {
    s.Some? && s.value != ""
  }

  /** What `prepare_for_new_test_run` makes of a position. */
  function Prepared(s: PositionState): (r: PositionState)
    ensures r.step == None && r.status == Some("wait") && r.dut == None
    ensures TruthyStr(r.testStatus)
    ensures TruthyStr(s.testStatus) ==> r.testStatus == s.testStatus
    ensures !TruthyStr(s.testStatus) ==> r.testStatus == Some("Idle")
    ensures r.instances == s.instances && r.stopTesting == s.stopTesting
  {
    PositionState(None, Some("wait"),
                  if TruthyStr(s.testStatus) then s.testStatus else Some("Idle"),
                  s.instances, None, s.stopTesting)
  }

  /** Preparing twice leaves the position as preparing once does. */
  lemma {:induction false} PreparedIdempotent(s: PositionState)
    ensures Prepared(Prepared(s)) == Prepared(s)
  {
  }

  class TestPosition {
    const name: string
    const uiPosition: Value
    var step: Option<string>
    var status: Option<string>
    var testStatus: Option<string>
    var testCaseInstances: map<string, Instance>
    var dut: Option<Dut>
    var stopTesting: bool

    function State(): PositionState
      reads this
    {
      PositionState(step, status, testStatus, testCaseInstances, dut, stopTesting)
    }

    constructor (name: string, uiPosition: Value)
      ensures this.name == name && this.uiPosition == uiPosition
      ensures State() == PositionState(None, None, None, map[], None, false)
    {
      this.name := name;
      this.uiPosition := uiPosition;
      step, status, testStatus := None, None, None;
      testCaseInstances := map[];
      dut := None;
      stopTesting := false;
    }

    method PrepareForNewTestRun()
      modifies this
      ensures State() == Prepared(old(State()))
    {
      step := None;
      status := Some("wait");
      dut := None;
      if !TruthyStr(testStatus) {
        testStatus := Some("Idle");
      }
    }

    /** `str(position)`. */
    function ToString(): (s: string)
      ensures s == name
    {
      name
    }
  }
}
