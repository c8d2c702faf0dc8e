/** The end of a run in `run_test_runner` (test_runner/runner.py): each
    position with a DUT reports PASSED or FAILED, its test status becomes
    'pass' or 'fail', and the pass/fail streak counters, which live across
    runs, decide whether the operator is warned about repeated identical
    failures. */
module RunnerFinalize {
  import opened PyValue
  import opened Duts
  import opened Positions
  import opened RunnerCases
  import opened Control
  import opened Queues
  import Progress
  import RunnerProgress

  /** `fail_reason_history`: the empty str before any failure, afterwards the
      failed steps of the last failing DUT. The empty str never equals a list. */
  datatype History = NoFailYet | FailedSteps(steps: seq<string>)

  /** `pass_count`, `fail_reason_count` and `fail_reason_history`. */
  datatype Counters = Counters(passCount: nat, failReasonCount: nat, history: History)

  /** The counters before the first run. */
  const InitialCounters := Counters(0, 0, NoFailYet)

  /** `if dut.pass_fail_result:` ('testing' is a non-empty str, so truthy). */
  predicate DutPassed(d: Dut) {
    Truthy(d.passFailResult.ToValue())
  }

  /** The counters after one DUT's verdict. */
  function Tally(c: Counters, d: Dut): (r: Counters)
    ensures DutPassed(d) ==>
      r.passCount == c.passCount + 1 && r.failReasonCount == c.failReasonCount && r.history == c.history
    ensures !DutPassed(d) ==>
      r.passCount == 0 && r.history == FailedSteps(d.failedSteps) &&
      r.failReasonCount == (if c.history == FailedSteps(d.failedSteps) then c.failReasonCount + 1 else 0)
  {
    if DutPassed(d) then c.(passCount := c.passCount + 1)
    else if c.history == FailedSteps(d.failedSteps) then Counters(0, c.failReasonCount + 1, c.history)
    else Counters(0, 0, FailedSteps(d.failedSteps))
  }

  /** The counters after a sequence of verdicts, taken in order. */
  function CountersAfter(c: Counters, duts: seq<Dut>): Counters
    decreases |duts|
  {
    if duts == [] then c else Tally(CountersAfter(c, duts[..|duts| - 1]), duts[|duts| - 1])
  }

  /** The counters carry over from run to run: two runs count as one run over
      both runs' DUTs. */
  lemma {:induction false} CountersAcrossRuns(c: Counters, first: seq<Dut>, second: seq<Dut>)
    ensures CountersAfter(CountersAfter(c, first), second) == CountersAfter(c, first + second)
    decreases |second|
  {
    if second == [] {
      assert first + second == first;
    } else {
      var n := |second| - 1;
      assert (first + second)[..|first + second| - 1] == first + second[..n];
      CountersAcrossRuns(c, first, second[..n]);
    }
  }

  /** `fail_reason_count > 4 and pass_count < 5` */
  predicate WarningDue(c: Counters) {
    c.failReasonCount > 4 && c.passCount < 5
  }

  /** `str(step)` inside a list's repr. */
  function Quoted(s: string): string {
    "'" + s + "'"
  }

  function QuotedAll(steps: seq<string>): (r: seq<string>)
    ensures |r| == |steps|
    ensures forall i :: 0 <= i < |steps| ==> r[i] == Quoted(steps[i])
  {
    seq(|steps|, i requires 0 <= i < |steps| => Quoted(steps[i]))
  }

  /** `str(fail_reason_history)` */
  function HistoryString(h: History): string {
    match h
    case NoFailYet => ""
    case FailedSteps(steps) => "[" + Join(", ", QuotedAll(steps)) + "]"
  }

  function WarningMessage(c: Counters): string {
    "WARNING: 5 or more consecutive fails on " + HistoryString(c.history)
  }

  /** The message sent for one DUT. */
  function VerdictMessage(d: Dut): (m: string)
    ensures DutPassed(d) ==> m == d.serialNumber + ": PASSED"
    ensures !DutPassed(d) ==> m == d.serialNumber + ": FAILED: " + Join(", ", d.failedSteps)
  {
    if DutPassed(d) then d.serialNumber + ": PASSED"
    else d.serialNumber + ": FAILED: " + Join(", ", d.failedSteps)
  }

  /** The DUTs of the positions that hold one, in position order. */
  function DutsOf(states: seq<(string, PositionState)>): (r: seq<Dut>)
    ensures |r| <= |states|
    decreases |states|
  {
    if states == [] then []
    else
      var last := states[|states| - 1].1;
      DutsOf(states[..|states| - 1]) + (if last.dut.Some? then [last.dut.value] else [])
  }

  function VerdictMessages(duts: seq<Dut>): (r: seq<string>)
    ensures |r| == |duts|
    ensures forall i :: 0 <= i < |duts| ==> r[i] == VerdictMessage(duts[i])
  {
    seq(|duts|, i requires 0 <= i < |duts| => VerdictMessage(duts[i]))
  }

  /** The message names the DUT and tells its verdict: it starts with the
      serial number, it is the PASSED message exactly when the DUT passed, and
      a FAILED message ends with the failed steps. */
  lemma {:induction false} VerdictMessageTellsVerdict(d: Dut)
    ensures var sn := d.serialNumber;
            var m := VerdictMessage(d);
            |m| >= |sn| + 8 && m[..|sn|] == sn &&
            (m == sn + ": PASSED" <==> DutPassed(d)) &&
            (!DutPassed(d) ==> |m| >= |sn| + 10 && m[|sn| + 10..] == Join(", ", d.failedSteps))
  {
    var sn := d.serialNumber;
    var m := VerdictMessage(d);
    if !DutPassed(d) {
      var tail := Join(", ", d.failedSteps);
      assert m == sn + ": FAILED: " + tail;
      assert |m| == |sn| + 10 + |tail|;
      assert m[|sn| + 10..] == tail;
    }
  }

  /** One message per DUT, in order: the messages of two groups of DUTs are
      the messages of the first followed by those of the second. */
  lemma {:induction false} VerdictMessagesConcat(a: seq<Dut>, b: seq<Dut>)
    ensures VerdictMessages(a + b) == VerdictMessages(a) + VerdictMessages(b)
  {
    assert |VerdictMessages(a + b)| == |VerdictMessages(a) + VerdictMessages(b)|;
    forall i | 0 <= i < |a + b|
      ensures VerdictMessages(a + b)[i] == (VerdictMessages(a) + VerdictMessages(b))[i]
    {
      if i < |a| {
        assert (a + b)[i] == a[i];
      } else {
        assert (a + b)[i] == b[i - |a|];
      }
    }
  }

  /** A position's test status once its DUT's verdict is known. */
  function Marked(s: PositionState): (r: PositionState)
    ensures s.dut.None? ==> r == s
    ensures s.dut.Some? ==> r == s.(testStatus := Some(if DutPassed(s.dut.value) then "pass" else "fail"))
  {
    if s.dut.None? then s
    else s.(testStatus := Some(if DutPassed(s.dut.value) then "pass" else "fail"))
  }

  /** Marking changes only the test status, a second marking changes
      nothing, and a marked position with a DUT is 'pass' exactly when its
      DUT passed and 'fail' otherwise. */
  lemma {:induction false} MarkedOnlyStatus(s: PositionState)
    ensures Marked(s).(testStatus := s.testStatus) == s
    ensures Marked(Marked(s)) == Marked(s)
    ensures s.dut.Some? ==>
      (Marked(s).testStatus == Some("pass") <==> DutPassed(s.dut.value)) &&
      (Marked(s).testStatus == Some("fail") <==> !DutPassed(s.dut.value))
  {
  }

  /** Everything the end of a run produces: the counters, the messages in the
      order they are sent, and the positions' fields. */
  datatype Final = Final(counters: Counters, messages: seq<string>, states: seq<(string, PositionState)>)

  /** The end of a run, as the corrected code does it: a position without a
      DUT is skipped before anything is read from its DUT. */
  function Finalized(c: Counters, states: seq<(string, PositionState)>): (r: Final)
  {
    var duts := DutsOf(states);
    var c' := CountersAfter(c, duts);
    Final(c',
          VerdictMessages(duts) + (if WarningDue(c') then [WarningMessage(c')] else []),
          MarkedUpTo(states, |states|))
  }

  /** The positions' fields once the first `n` positions are marked. */
  function MarkedUpTo(states: seq<(string, PositionState)>, n: nat): (r: seq<(string, PositionState)>)
    ensures |r| == |states|
  {
    seq(|states|, j requires 0 <= j < |states| => if j < n then (states[j].0, Marked(states[j].1)) else states[j])
  }

  /** A DUT is reported exactly when some position holds it. */
  lemma {:induction false} DutsOfMembers(states: seq<(string, PositionState)>, d: Dut)
    ensures d in DutsOf(states) <==> exists i :: 0 <= i < |states| && states[i].1.dut == Some(d)
    decreases |states|
  {
    if states != [] {
      var n := |states| - 1;
      DutsOfMembers(states[..n], d);
      if exists i :: 0 <= i < n && states[..n][i].1.dut == Some(d) {
        var i :| 0 <= i < n && states[..n][i].1.dut == Some(d);
        assert states[i].1.dut == Some(d);
      }
      if exists i :: 0 <= i < |states| && states[i].1.dut == Some(d) {
        var i :| 0 <= i < |states| && states[i].1.dut == Some(d);
        if i < n {
          assert states[..n][i].1.dut == Some(d);
        }
      }
    }
  }

  /** The DUTs are taken position by position, in order. */
  lemma {:induction false} DutsOfConcat(a: seq<(string, PositionState)>, b: seq<(string, PositionState)>)
    ensures DutsOf(a + b) == DutsOf(a) + DutsOf(b)
    decreases |b|
  {
    if b == [] {
      assert a + b == a;
    } else {
      var n := |b| - 1;
      assert (a + b)[..|a + b| - 1] == a + b[..n];
      assert (a + b)[|a + b| - 1] == b[n];
      DutsOfConcat(a, b[..n]);
    }
  }

  /** runner.py:286-291 as written: `dut.serial_number` is read before the
      `if not test_position_instance.dut` check, so a position without a DUT
      raises `AttributeError` and the check never skips anything. */
  function FinalizedAsWritten(c: Counters, states: seq<(string, PositionState)>): (r: Result<Final, PyError>)
  {
    if exists i :: 0 <= i < |states| && states[i].1.dut.None? then Err(AttributeError("serial_number"))
    else Ok(Finalized(c, states))
  }

  /** As written, a run with a position left empty (`prepare_test` gave it
      no DUT information) ends in an exception instead of a report. */
  lemma {:induction false} EmptyPositionCrashesAsWritten(c: Counters, states: seq<(string, PositionState)>, i: nat)
    requires i < |states| && states[i].1.dut.None?
    ensures FinalizedAsWritten(c, states).Err?
  {
  }

  lemma {:induction false} DutsOfSkipsEmpty(states: seq<(string, PositionState)>)
    requires forall i :: 0 <= i < |states| ==> states[i].1.dut.None?
    ensures DutsOf(states) == []
    decreases |states|
  {
    if states != [] {
      DutsOfSkipsEmpty(states[..|states| - 1]);
    }
  }

  /** A position without a DUT is left alone and adds nothing: positions
      without a DUT only, put after the others, change neither the counters
      nor the messages. */
  lemma {:induction false} EmptyPositionsSkipped(c: Counters, states: seq<(string, PositionState)>, empty: seq<(string, PositionState)>)
    requires forall i :: 0 <= i < |empty| ==> empty[i].1.dut.None?
    ensures DutsOf(states + empty) == DutsOf(states)
    ensures Finalized(c, states + empty).counters == Finalized(c, states).counters
    ensures Finalized(c, states + empty).messages == Finalized(c, states).messages
    ensures forall i :: |states| <= i < |states + empty| ==> Finalized(c, states + empty).states[i] == empty[i - |states|]
    decreases |empty|
  {
    if empty == [] {
      assert states + empty == states;
    } else {
      var n := |empty| - 1;
      assert (states + empty)[..|states + empty| - 1] == states + empty[..n];
      assert (states + empty)[|states + empty| - 1] == empty[n];
      assert forall i :: 0 <= i < n ==> empty[..n][i] == empty[i];
      EmptyPositionsSkipped(c, states, empty[..n]);
    }
  }

  // ---------------------------------------------------------------------------
  // Warnings over several runs.

  function Repeat(d: Dut, k: nat): (r: seq<Dut>)
    ensures |r| == k && forall i :: 0 <= i < k ==> r[i] == d
  {
    seq(k, i => d)
  }

  /** Each further failure with the same failed steps adds one to the count;
      the first one of a streak starts it at 0. */
  lemma {:induction false} RepeatedFails(c: Counters, d: Dut, k: nat)
    requires !DutPassed(d) && k >= 1
    ensures CountersAfter(c, Repeat(d, k)) ==
      Counters(0, if c.history == FailedSteps(d.failedSteps) then c.failReasonCount + k else k - 1,
               FailedSteps(d.failedSteps))
    decreases k
  {
    assert Repeat(d, k)[..k - 1] == Repeat(d, k - 1);
    if k > 1 {
      RepeatedFails(c, d, k - 1);
    }
  }

  /** From the first run on, the warning is first sent with the sixth
      consecutive failure on the same steps. */
  lemma {:induction false} SixthIdenticalFailWarns(d: Dut, k: nat)
    requires !DutPassed(d) && k >= 1
    ensures WarningDue(CountersAfter(InitialCounters, Repeat(d, k))) <==> k >= 6
  {
    RepeatedFails(InitialCounters, d, k);
  }

  /** Passes after a warning keep it going until the fifth pass, since the
      failure count is only reset by a different failure. */
  lemma {:induction false} PassesAfterWarning(c: Counters, d: Dut, j: nat)
    requires DutPassed(d)
    ensures CountersAfter(c, Repeat(d, j)) == c.(passCount := c.passCount + j)
    ensures WarningDue(CountersAfter(c, Repeat(d, j))) <==> c.failReasonCount > 4 && c.passCount + j < 5
    decreases j
  {
    if j > 0 {
      assert Repeat(d, j)[..j - 1] == Repeat(d, j - 1);
      PassesAfterWarning(c, d, j - 1);
    }
  }

  // ---------------------------------------------------------------------------
  // The loop over the position objects.

  /** The test-status update for one position. */
  method MarkPosition(position: TestPosition)
    modifies position
    ensures position.State() == Marked(old(position.State()))
  {
    if position.dut.Some? {
      if DutPassed(position.dut.value) {
        position.testStatus := Some("pass");
      } else {
        position.testStatus := Some("fail");
      }
    }
  }

  lemma {:induction false} MarkedUpToNext(states: seq<(string, PositionState)>, i: nat)
    requires i < |states|
    ensures MarkedUpTo(states, i + 1) == MarkedUpTo(states, i)[i := (states[i].0, Marked(states[i].1))]
  {
  }

  /** What the `i`-th position adds to the counters and the messages. */
  lemma {:induction false} TallyNext(c: Counters, states: seq<(string, PositionState)>, i: nat)
    requires i < |states|
    ensures var before := DutsOf(states[..i]);
            var after := DutsOf(states[..i + 1]);
            if states[i].1.dut.Some? then
              CountersAfter(c, after) == Tally(CountersAfter(c, before), states[i].1.dut.value) &&
              VerdictMessages(after) == VerdictMessages(before) + [VerdictMessage(states[i].1.dut.value)]
            else
              CountersAfter(c, after) == CountersAfter(c, before) &&
              VerdictMessages(after) == VerdictMessages(before)
  {
    assert states[..i + 1][..i] == states[..i];
    var before := DutsOf(states[..i]);
    if states[i].1.dut.Some? {
      assert (before + [states[i].1.dut.value])[..|before|] == before;
    } else {
      assert DutsOf(states[..i + 1]) == before + [] == before;
    }
  }

  /** Marks the `i`-th position; the other positions are untouched. */
  method MarkAt(ps: seq<(string, TestPosition)>, i: nat)
    requires i < |ps| && DistinctObjects(ps)
    modifies ps[i].1
    ensures Progress.States(ps) == old(Progress.States(ps))[i := (ps[i].0, Marked(old(ps[i].1.State())))]
  {
    ghost var before := Progress.States(ps);
    var position := ps[i].1;
    MarkPosition(position);
    forall j | 0 <= j < |ps|
      ensures Progress.States(ps)[j] == before[i := (ps[i].0, position.State())][j]
    {
      if j != i {
        assert ps[j].1 != position;
      }
    }
  }

  /** The loop over `test_positions.items()` after the cases, followed by the
      warning check; `send_message` appends to the returned messages. */
  method Finalize(ps: seq<(string, TestPosition)>, c: Counters) returns (c': Counters, sent: seq<string>)
    requires DistinctObjects(ps)
    modifies Objects(ps)
    ensures c' == Finalized(c, old(Progress.States(ps))).counters
    ensures sent == Finalized(c, old(Progress.States(ps))).messages
    ensures Progress.States(ps) == Finalized(c, old(Progress.States(ps))).states
  {
    ghost var start := Progress.States(ps);
    c', sent := c, [];
    for i := 0 to |ps|
      invariant c' == CountersAfter(c, DutsOf(start[..i]))
      invariant sent == VerdictMessages(DutsOf(start[..i]))
      invariant Progress.States(ps) == MarkedUpTo(start, i)
    {
      assert Progress.States(ps)[i] == start[i];
      var dut := ps[i].1.dut;
      MarkAt(ps, i);
      MarkedUpToNext(start, i);
      TallyNext(c, start, i);
      if dut.Some? {
        var d := dut.value;
        sent := sent + [VerdictMessage(d)];
        c' := Tally(c', d);
      }
    }
    assert start[..|ps|] == start;
    if WarningDue(c') {
      sent := sent + [WarningMessage(c')];
    }
  }

  // ---------------------------------------------------------------------------
  // The 'finalize' progress report.

  /** `dut.pass_fail_result` after the loop (runner.py:314): `dut` is still
      bound to the last position's DUT, so the run's overall result is that
      DUT's verdict, and a last position without a DUT raises
      `AttributeError`. */
  function OverallResult(states: seq<(string, PositionState)>): (r: Result<Value, PyError>)
    requires states != []
    ensures r.Ok? <==> states[|states| - 1].1.dut.Some?
    ensures r.Ok? ==> (r.value == VBool(true) || r.value == VBool(false) || r.value == VStr("testing"))
  {
    var last := states[|states| - 1].1;
    if last.dut.None? then Err(AttributeError("pass_fail_result"))
    else Ok(last.dut.value.passFailResult.ToValue())
  }

  /** The overall result does not depend on the positions before the last:
      a failing DUT elsewhere does not make the result false. */
  lemma {:induction false} OverallResultIsLastPosition(a: seq<(string, PositionState)>, b: seq<(string, PositionState)>,
                                                       last: (string, PositionState))
    ensures OverallResult(a + [last]) == OverallResult(b + [last])
    ensures last.1.dut.Some? ==>
      (Truthy(OverallResult(a + [last]).value) <==> DutPassed(last.1.dut.value))
  {
    assert (a + [last])[|a + [last]| - 1] == last;
    assert (b + [last])[|b + [last]| - 1] == last;
  }

  /** The 'finalize' message for the marked positions. */
  function FinalizeMessage(states: seq<(string, PositionState)>, overall: Value, sequenceName: Value,
                           entries: map<string, Value>): Value
    requires DefaultKeys <= entries.Keys
  {
    VDict(RunnerProgress.RunnerSnapshot(VStr("finalize"), VDict(Progress.DutsView(states)), sequenceName,
                                        entries["get_sn_from_ui"], entries["test_sequences"], overall))
  }

  /** The end of a run (runner.py:284-316): the loop over the positions and
      the warning, then `report_progress('finalize', ...)` with the overall
      result of line 314. When that line raises, no report is sent and the
      error is returned. */
  method EndRun(ps: seq<(string, TestPosition)>, c: Counters, control: TestControl, queue: Queue,
                sequenceName: Value) returns (c': Counters, sent: seq<string>, error: Option<PyError>)
    requires ps != [] && DistinctObjects(ps) && control.Valid()
    modifies Objects(ps), control, queue
    ensures var fin := Finalized(c, old(Progress.States(ps)));
            c' == fin.counters && sent == fin.messages && Progress.States(ps) == fin.states
    ensures control.Valid() && control.run == old(control.run)
    ensures var fin := Finalized(c, old(Progress.States(ps)));
            match OverallResult(fin.states)
            case Err(e) =>
              error == Some(e) && control.entries == old(control.entries) && queue.items == old(queue.items)
            case Ok(overall) =>
              error.None? &&
              control.entries == old(control.entries)["progress" :=
                FinalizeMessage(fin.states, overall, sequenceName, old(control.entries))] &&
              queue.items == old(queue.items) + [FinalizeMessage(fin.states, overall, sequenceName, old(control.entries))]
  {
    c', sent := Finalize(ps, c);
    var overall := OverallResult(Progress.States(ps));
    if overall.Err? {
      error := Some(overall.error);
      return;
    }
    error := None;
    RunnerProgress.ReportProgress(control, queue, VStr("finalize"), Some(ps), overall.value, sequenceName);
  }
}
