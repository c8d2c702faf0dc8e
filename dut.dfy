/** The device under test (test_runner/dut.py): a record filled once by its
    constructor, and the dictionary the report and the UI receive for it. */
module Duts {
  import opened PyValue

  /** The values the repository stores in `pass_fail_result`: 'testing' until
      the runner decides, then True or False. */
  datatype Verdict = InProgress | Passed | Failed {
    function ToValue(): Value {
      match this
      case InProgress => VStr("testing")
      case Passed => VBool(true)
      case Failed => VBool(false)
    }

    /** `str(pass_fail_result)`, as an f-string shows it. */
    function ToString(): string {
      match this
      case InProgress => "testing"
      case Passed => "True"
      case Failed => "False"
    }
  }

  function VerdictOf(v: Value): (r: Option<Verdict>)
    ensures r.Some? ==> r.value.ToValue() == v
  {
    match v
    case VStr(s) => if s == "testing" then Some(InProgress) else None
    case VBool(b) => Some(if b then Passed else Failed)
    case _ => None
  }

  datatype Dut = Dut(
    testPosition: string,
    serialNumber: string,
    hwId: Value,
    order: Value,
    additionalInfo: Value,
    testCases: seq<(string, Value)>,   // case name -> the case's result dictionary
    passFailResult: Verdict,
    failedSteps: seq<string>,
    errorSteps: seq<string>)

  /** `Dut(serial_number, test_position, hw_id=None, order=None, additional_info=None)`. */
  function NewDut(serialNumber: string, testPosition: string,
                  hwId: Value := VNone, order: Value := VNone,
                  additionalInfo: Value := VNone): (d: Dut)
    ensures d.serialNumber == serialNumber && d.testPosition == testPosition
    ensures d.hwId == hwId && d.order == order && d.additionalInfo == additionalInfo
    ensures d.passFailResult == InProgress && Truthy(d.passFailResult.ToValue())
    ensures d.testCases == [] && d.failedSteps == [] && d.errorSteps == []
  {
    Dut(testPosition, serialNumber, hwId, order, additionalInfo, [], InProgress, [], [])
  }

  /** The optional constructor arguments default to None. */
  lemma {:induction false} NewDutDefaults(serialNumber: string, testPosition: string)
    ensures var d := NewDut(serialNumber, testPosition);
            d.hwId == VNone && d.order == VNone && d.additionalInfo == VNone
  {
  }

  function StrList(ss: seq<string>): (v: Value)
    ensures v.VList? && |v.items| == |ss|
    ensures forall i :: 0 <= i < |ss| ==> v.items[i] == VStr(ss[i])
  {
    VList(seq(|ss|, i requires 0 <= i < |ss| => VStr(ss[i])))
  }

  function StrDict(d: seq<(string, Value)>): (v: Value)
    ensures v.VDict? && |v.entries| == |d|
    ensures forall i :: 0 <= i < |d| ==> v.entries[i] == (VStr(d[i].0), d[i].1)
  {
    VDict(seq(|d|, i requires 0 <= i < |d| => (VStr(d[i].0), d[i].1)))
  }

  /** `get_dut_dict()`: nine keys, 'result' holding `pass_fail_result`. */
  function DutDict(d: Dut): (r: seq<(Value, Value)>)
    ensures Keys(r) == [VStr("test_position"), VStr("serial_number"), VStr("hw_id"),
                        VStr("order"), VStr("additional_info"), VStr("test_cases"),
                        VStr("result"), VStr("failed_steps"), VStr("error_steps")]
    ensures DistinctKeys(r)
  {
    var r := [(VStr("test_position"), VStr(d.testPosition)),
     (VStr("serial_number"), VStr(d.serialNumber)),
     (VStr("hw_id"), d.hwId),
     (VStr("order"), d.order),
     (VStr("additional_info"), d.additionalInfo),
     (VStr("test_cases"), StrDict(d.testCases)),
     (VStr("result"), d.passFailResult.ToValue()),
     (VStr("failed_steps"), StrList(d.failedSteps)),
     (VStr("error_steps"), StrList(d.errorSteps))];
    DistinctKeysIndex(r);
    r
  }

  // ---------------------------------------------------------------------------
  // Reading a DUT back from its dictionary: the projection loses nothing.

  function StrsOf(items: seq<Value>): (r: Option<seq<string>>)
    ensures r.Some? ==> |r.value| == |items|
  {
    if items == [] then Some([])
    else if !items[0].VStr? then None
    else match StrsOf(items[1..])
      case None => None
      case Some(rest) => Some([items[0].s] + rest)
  }

  function StrKeyedOf(entries: seq<(Value, Value)>): (r: Option<seq<(string, Value)>>)
  {
    if entries == [] then Some([])
    else if !entries[0].0.VStr? then None
    else match StrKeyedOf(entries[1..])
      case None => None
      case Some(rest) => Some([(entries[0].0.s, entries[0].1)] + rest)
  }

  function Field(r: seq<(Value, Value)>, name: string): Value {
    match Get(r, VStr(name))
    case Some(v) => v
    case None => VNone
  }

  /** Rebuilds a DUT from a dictionary shaped like `get_dut_dict()`'s. */
  function DutOf(r: seq<(Value, Value)>): Option<Dut> {
    var position := Field(r, "test_position");
    var serial := Field(r, "serial_number");
    var cases := Field(r, "test_cases");
    var verdict := VerdictOf(Field(r, "result"));
    var failed := Field(r, "failed_steps");
    var errors := Field(r, "error_steps");
    if !(position.VStr? && serial.VStr? && cases.VDict? && verdict.Some? && failed.VList? && errors.VList?)
    then None
    else
      match (StrKeyedOf(cases.entries), StrsOf(failed.items), StrsOf(errors.items))
      case (Some(cs), Some(fs), Some(es)) =>
        Some(Dut(position.s, serial.s, Field(r, "hw_id"), Field(r, "order"),
                 Field(r, "additional_info"), cs, verdict.value, fs, es))
      case _ => None
  }

  lemma {:induction false} StrsRoundTrip(ss: seq<string>)
    ensures StrsOf(StrList(ss).items) == Some(ss)
  {
    if ss != [] {
      StrsRoundTrip(ss[1..]);
      var items := StrList(ss).items;
      assert items[1..] == StrList(ss[1..]).items;
      assert items[0] == VStr(ss[0]);
      assert [ss[0]] + ss[1..] == ss;
    }
  }

  lemma {:induction false} StrKeyedRoundTrip(d: seq<(string, Value)>)
    ensures StrKeyedOf(StrDict(d).entries) == Some(d)
  {
    if d != [] {
      StrKeyedRoundTrip(d[1..]);
      assert StrDict(d).entries[1..] == StrDict(d[1..]).entries;
      assert [(d[0].0, d[0].1)] + d[1..] == d;
    }
  }

  /** Every field of the DUT can be read back from `get_dut_dict()`. */
  lemma {:induction false} DutDictRoundTrip(d: Dut)
    ensures DutOf(DutDict(d)) == Some(d)
  {
    var r := DutDict(d);
    forall i | 0 <= i < |r| ensures Get(r, r[i].0) == Some(r[i].1) {
      GetIndex(r, i);
    }
    assert Field(r, "test_position") == VStr(d.testPosition) by { assert r[0].0 == VStr("test_position"); }
    assert Field(r, "serial_number") == VStr(d.serialNumber) by { assert r[1].0 == VStr("serial_number"); }
    assert Field(r, "hw_id") == d.hwId by { assert r[2].0 == VStr("hw_id"); }
    assert Field(r, "order") == d.order by { assert r[3].0 == VStr("order"); }
    assert Field(r, "additional_info") == d.additionalInfo by { assert r[4].0 == VStr("additional_info"); }
    assert Field(r, "test_cases") == StrDict(d.testCases) by { assert r[5].0 == VStr("test_cases"); }
    assert Field(r, "result") == d.passFailResult.ToValue() by { assert r[6].0 == VStr("result"); }
    assert Field(r, "failed_steps") == StrList(d.failedSteps) by { assert r[7].0 == VStr("failed_steps"); }
    assert Field(r, "error_steps") == StrList(d.errorSteps) by { assert r[8].0 == VStr("error_steps"); }
    StrsRoundTrip(d.failedSteps);
    StrsRoundTrip(d.errorSteps);
    StrKeyedRoundTrip(d.testCases);
    assert VerdictOf(d.passFailResult.ToValue()) == Some(d.passFailResult);
  }
}
