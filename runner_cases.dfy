/** How the runner walks the test cases over the test positions
    (`run_test_runner`, test_runner/runner.py, the loop "Run all test cases"):
    the executed case list, the case-name lookup with its per-position
    instance cache, and the step/status bookkeeping of each position. Pre tests,
    tests and post tests run one after another; whether a pre test or a test
    raises is a parameter. */
module RunnerCases {
  import opened PyValue
  import opened Positions
  import Progress

  // ---------------------------------------------------------------------------
  // The executed case list.

  /** `[t for t in test_definitions.TESTS if t not in test_definitions.SKIP]` */
  function ExecutedCases(tests: seq<string>, skip: seq<string>): (r: seq<string>)
    ensures |r| <= |tests|
    decreases |tests|
  {
    if tests == [] then []
    else (if tests[0] in skip then [] else [tests[0]]) + ExecutedCases(tests[1..], skip)
  }

  /** A case runs iff it is listed in TESTS and not in SKIP. */
  lemma {:induction false} ExecutedCasesMembers(tests: seq<string>, skip: seq<string>, t: string)
    ensures t in ExecutedCases(tests, skip) <==> t in tests && t !in skip
    decreases |tests|
  {
    if tests != [] {
      ExecutedCasesMembers(tests[1..], skip, t);
      assert tests == [tests[0]] + tests[1..];
    }
  }

  /** Filtering keeps the order of TESTS: it distributes over concatenation. */
  lemma {:induction false} ExecutedCasesConcat(a: seq<string>, b: seq<string>, skip: seq<string>)
    ensures ExecutedCases(a + b, skip) == ExecutedCases(a, skip) + ExecutedCases(b, skip)
    decreases |a|
  {
    if a == [] {
      assert a + b == b;
    } else {
      assert (a + b)[0] == a[0] && (a + b)[1..] == a[1..] + b;
      ExecutedCasesConcat(a[1..], b, skip);
      var head: seq<string> := if a[0] in skip then [] else [a[0]];
      calc {
        ExecutedCases(a + b, skip);
        head + ExecutedCases(a[1..] + b, skip);
        head + (ExecutedCases(a[1..], skip) + ExecutedCases(b, skip));
        (head + ExecutedCases(a[1..], skip)) + ExecutedCases(b, skip);
      }
    }
  }

  /** The example sequence's TESTS and SKIP
      (test_definition_template/sequences/example_sequence/test_definition.py). */
  lemma {:induction false} ExampleSequenceCases()
    ensures ExecutedCases(["Second_pre", "First", "Second", "Third", "Fourth", "PoolTestCase"], ["Third", "Fourth"])
         == ["Second_pre", "First", "Second", "PoolTestCase"]
  {
    var skip := ["Third", "Fourth"];
    assert "Second_pre" !in skip && "First"[0] != "Third"[0] && "Second" !in skip && "PoolTestCase" !in skip;
  }

  // ---------------------------------------------------------------------------
  // Case names and the instance cache.

  /** `test_case_name.replace('_pre', '').replace('_pre', '')` */
  function LookupName(entry: string): (name: string)
    ensures |name| <= |entry|
  {
    RemoveAll(RemoveAll(entry, "_pre"), "_pre")
  }

  lemma {:induction false} RemoveAllAbsent(s: string, p: string)
    requires p != "" && !Contains(s, p)
    ensures RemoveAll(s, p) == s
    decreases |s|
  {
    if s != [] {
      RemoveAllAbsent(s[1..], p);
      assert s == [s[0]] + s[1..];
    }
  }

  /** A string without the pattern's first character does not contain it. */
  lemma {:induction false} NoFirstChar(s: string, p: string)
    requires p != "" && forall i :: 0 <= i < |s| ==> s[i] != p[0]
    ensures !Contains(s, p) && RemoveAll(s, p) == s
    decreases |s|
  {
    if s != [] {
      NoFirstChar(s[1..], p);
      assert s == [s[0]] + s[1..];
    }
  }

  /** The pattern put after such a string is removed again. */
  lemma {:induction false} RemoveAllSuffix(s: string, p: string)
    requires p != "" && forall i :: 0 <= i < |s| ==> s[i] != p[0]
    ensures Contains(s + p, p) && RemoveAll(s + p, p) == s
    decreases |s|
  {
    if s == [] {
      assert s + p == p && p[..|p|] == p && p[|p|..] == [];
    } else {
      assert (s + p)[1..] == s[1..] + p && (s + p)[0] == s[0];
      RemoveAllSuffix(s[1..], p);
      assert s == [s[0]] + s[1..];
    }
  }

  /** A name without '_pre' is looked up as it is. */
  lemma {:induction false} PlainNameKept(entry: string)
    requires !Contains(entry, "_pre")
    ensures LookupName(entry) == entry
  {
    RemoveAllAbsent(entry, "_pre");
    RemoveAllAbsent(entry, "_pre");
  }

  /** A pre-test entry such as 'Second_pre' names the case before its
      suffix. */
  lemma {:induction false} PreEntryName(name: string)
    requires forall i :: 0 <= i < |name| ==> name[i] != '_'
    ensures LookupName(name + "_pre") == name
  {
    RemoveAllSuffix(name, "_pre");
    NoFirstChar(name, "_pre");
  }

  /** Which of a case's steps raised. */
  datatype Phase = PreTest | MainTest

  /** The case classes the runner can find, and how their steps behave:
      `raises(case, position, phase)` says whether that step of the case
      raises an exception when run for that position. */
  datatype Library = Library(
    sequenceCases: set<string>,
    poolCases: set<string>,
    raises: (string, string, Phase) -> bool)

  /** `new_test_instance(the_case, the_position_instance)`: the sequence module
      is searched first, then the pool; a case found in neither is
      `TestCaseNotFound` (None here). */
  function NewInstance(name: string, dut: Option<Duts.Dut>, lib: Library): (r: Option<Instance>)
    ensures r.Some? <==> name in lib.sequenceCases || name in lib.poolCases
    ensures r.Some? ==> r.value.caseName == name && r.value.dut == dut
    ensures r.Some? ==> (r.value.origin == FromSequence <==> name in lib.sequenceCases)
  {
    if name in lib.sequenceCases then Some(Instance(name, FromSequence, dut))
    else if name in lib.poolCases then Some(Instance(name, FromPool, dut))
    else None
  }

  // ---------------------------------------------------------------------------
  // One case on one position.

  /** runner.py:239 as written tests the name after '_pre' was removed, so a
      '_pre' entry of TESTS is dispatched as an ordinary case. */
  predicate PreDispatchAsWritten(entry: string) {
    Contains(LookupName(entry), "_pre")
  }

  /** A pre-test entry such as the example's 'Second_pre' never starts its
      pre task as written. */
  lemma {:induction false} PreEntryMissedAsWritten(name: string)
    requires forall i :: 0 <= i < |name| ==> name[i] != '_'
    ensures Contains(name + "_pre", "_pre") && !PreDispatchAsWritten(name + "_pre")
  {
    RemoveAllSuffix(name, "_pre");
    NoFirstChar(name, "_pre");
  }

  /** The dispatch the sequence definitions rely on: an entry containing
      '_pre' starts the case's pre task. */
  predicate PreDispatch(entry: string) {
    Contains(entry, "_pre")
  }

  /** The `else` branch after an error-free case: the position is idle again. */
  function Idle(s: PositionState): PositionState {
    s.(status := Some("idle"), step := None)
  }

  /** The result of one case on one position: the position's new fields, the
      positions whose pre task was started per case name, and the case name
      that could not be found, which ends the run. */
  datatype Step = Step(state: PositionState, pre: map<string, set<string>>, missing: Option<string>)

  function PreStarted(pre: map<string, set<string>>, name: string): set<string> {
    if name in pre then pre[name] else {}
  }

  /** Whether the pre-test phase raises: a started pre task is joined (its
      exception stays in its thread), a case with pre tasks but none for this
      position raises `KeyError`, and otherwise the pre test runs now. */
  predicate PreRaises(pre: map<string, set<string>>, name: string, position: string, lib: Library) {
    if name in pre then position !in pre[name] else lib.raises(name, position, PreTest)
  }

  /** The body of the inner loop for one position and one entry of the case
      list. A raised exception leaves the position as it was when the case
      raised (see the findings about runner.py:275). */
  function StepPosition(s: PositionState, position: string, entry: string,
                        pre: map<string, set<string>>, lib: Library): (r: Step)
    ensures r.state.dut == s.dut && r.state.stopTesting == s.stopTesting
    ensures s.dut.None? || s.stopTesting ==> r == Step(s, pre, None)
    ensures r.missing.Some? ==>
      r.missing.value == LookupName(entry) && LookupName(entry) !in s.instances &&
      LookupName(entry) !in lib.sequenceCases && LookupName(entry) !in lib.poolCases
  {
    if s.dut.None? || s.stopTesting then Step(s, pre, None)
    else
      var name := LookupName(entry);
      var s1 := s.(step := Some(entry), status := Some("testing"));
      var created := NewInstance(name, s1.dut, lib);
      if name !in s1.instances && created.None? then Step(s1, pre, Some(name))
      else
        var s2 := if name in s1.instances then s1 else s1.(instances := s1.instances[name := created.value]);
        if PreDispatch(entry) then
          Step(Idle(s2), pre[name := PreStarted(pre, name) + {position}], None)
        else if PreRaises(pre, name, position, lib) then
          Step(s2, pre, None)
        else
          var s3 := s2.(testStatus := Some("Testing"));
          if lib.raises(name, position, MainTest) then Step(s3, pre, None)
          else Step(Idle(s3.(testStatus := Some("Idle"))), pre, None)
  }

  /** The body of the inner loop as written, for a position reached while the
      loop variable holds `shown`. Three things differ from `StepPosition`:
      the position shows `shown`, which after the first position holding a DUT
      is the name line 202 already stripped (see `InnerAsWritten`); the '_pre'
      test of line 239 looks at the stripped name; and a raised exception ends
      the run, because `result_handler(error=...)` at line 275 omits the
      `limits` argument that both TestCase base classes require, so the handler
      raises `TypeError` inside the `except` clause, and looking up
      `exceptions.IrisError` at line 328 to match it fails with
      `AttributeError`. */
  function StepPositionAsWritten(s: PositionState, position: string, shown: string,
                                 pre: map<string, set<string>>, lib: Library): (r: Result<Step, PyError>)
    ensures s.dut.None? || s.stopTesting ==> r == Ok(Step(s, pre, None))
    ensures r.Ok? && s.dut.Some? && !s.stopTesting ==>
      r.value.state.dut == s.dut && r.value.state.stopTesting == s.stopTesting &&
      (r.value.state.step == None || r.value.state.step == Some(shown))
    ensures r.Err? <==>
      s.dut.Some? && !s.stopTesting &&
      (LookupName(shown) in s.instances || NewInstance(LookupName(shown), s.dut, lib).Some?) &&
      !Contains(LookupName(shown), "_pre") &&
      (PreRaises(pre, LookupName(shown), position, lib) || lib.raises(LookupName(shown), position, MainTest))
  {
    if s.dut.None? || s.stopTesting then Ok(Step(s, pre, None))
    else
      var name := LookupName(shown);
      var s1 := s.(step := Some(shown), status := Some("testing"));
      var created := NewInstance(name, s1.dut, lib);
      if name !in s1.instances && created.None? then Ok(Step(s1, pre, Some(name)))
      else
        var s2 := if name in s1.instances then s1 else s1.(instances := s1.instances[name := created.value]);
        if Contains(name, "_pre") then
          Ok(Step(Idle(s2), pre[name := PreStarted(pre, name) + {position}], None))
        else if PreRaises(pre, name, position, lib) || lib.raises(name, position, MainTest) then
          Err(AttributeError("IrisError"))
        else
          Ok(Step(Idle(s2.(testStatus := Some("Idle"))), pre, None))
  }

  /** For a name without '_pre' whose case raises nothing, the body as written
      and the corrected body agree. */
  lemma {:induction false} StepAsWrittenAgrees(s: PositionState, position: string, entry: string,
                                               pre: map<string, set<string>>, lib: Library)
    requires !Contains(entry, "_pre")
    requires !PreRaises(pre, entry, position, lib) && !lib.raises(entry, position, MainTest)
    ensures StepPositionAsWritten(s, position, entry, pre, lib) == Ok(StepPosition(s, position, entry, pre, lib))
  {
    PlainNameKept(entry);
  }

  /** As written, a case whose pre test or test raises ends the run on the
      first position it raises for. */
  lemma {:induction false} RaisingCaseEndsRunAsWritten(s: PositionState, position: string, entry: string,
                                                       pre: map<string, set<string>>, lib: Library)
    requires s.dut.Some? && !s.stopTesting && !Contains(entry, "_pre")
    requires entry in s.instances || entry in lib.sequenceCases || entry in lib.poolCases
    requires PreRaises(pre, entry, position, lib) || lib.raises(entry, position, MainTest)
    ensures StepPositionAsWritten(s, position, entry, pre, lib).Err?
    ensures StepPosition(s, position, entry, pre, lib).missing.None?
  {
    PlainNameKept(entry);
  }

  /** A case that is found and raises nothing leaves the position idle with
      test status 'Idle' (or, for a pre entry, with its test status untouched);
      the instance is cached under the looked-up name. */
  lemma {:induction false} StepCompleted(s: PositionState, position: string, entry: string,
                      pre: map<string, set<string>>, lib: Library)
    requires s.dut.Some? && !s.stopTesting
    requires LookupName(entry) in s.instances || LookupName(entry) in lib.sequenceCases || LookupName(entry) in lib.poolCases
    requires !PreDispatch(entry) && !PreRaises(pre, LookupName(entry), position, lib)
    requires !lib.raises(LookupName(entry), position, MainTest)
    ensures StepPosition(s, position, entry, pre, lib) ==
      Step(s.(step := None, status := Some("idle"), testStatus := Some("Idle"),
              instances := if LookupName(entry) in s.instances then s.instances
                           else s.instances[LookupName(entry) := NewInstance(LookupName(entry), s.dut, lib).value]),
           pre, None)
  {
  }

  /** A pre entry records the position's pre task under the looked-up name and
      runs no test: the test status is untouched. */
  lemma {:induction false} PreEntryStartsTask(s: PositionState, position: string, entry: string,
                           pre: map<string, set<string>>, lib: Library)
    requires s.dut.Some? && !s.stopTesting && PreDispatch(entry)
    requires LookupName(entry) in lib.sequenceCases || LookupName(entry) in lib.poolCases
    ensures StepPosition(s, position, entry, pre, lib).missing.None?
    ensures StepPosition(s, position, entry, pre, lib).state.testStatus == s.testStatus
    ensures StepPosition(s, position, entry, pre, lib).pre ==
      pre[LookupName(entry) := PreStarted(pre, LookupName(entry)) + {position}]
  {
  }

  // ---------------------------------------------------------------------------
  // The two loops.

  /** The positions' fields, the pre tasks started and the name that ended the
      run, if any. */
  datatype Sweep = Sweep(states: seq<(string, PositionState)>, pre: map<string, set<string>>, missing: Option<string>)

  /** The inner loop over the first `n` positions for one entry. */
  function Inner(states: seq<(string, PositionState)>, entry: string, pre: map<string, set<string>>,
                 lib: Library, n: nat): (r: Sweep)
    requires n <= |states|
    ensures |r.states| == |states|
    decreases n
  {
    if n == 0 then Sweep(states, pre, None)
    else
      var prev := Inner(states, entry, pre, lib, n - 1);
      if prev.missing.Some? then prev
      else
        var st := StepPosition(prev.states[n - 1].1, prev.states[n - 1].0, entry, prev.pre, lib);
        Sweep(prev.states[n - 1 := (prev.states[n - 1].0, st.state)], st.pre, st.missing)
  }

  /** The loop never renames a position. */
  lemma {:induction false} InnerNames(states: seq<(string, PositionState)>, entry: string, pre: map<string, set<string>>,
                                      lib: Library, n: nat, i: nat)
    requires n <= |states| && i < |states|
    ensures Inner(states, entry, pre, lib, n).states[i].0 == states[i].0
    decreases n
  {
    if n > 0 {
      InnerNames(states, entry, pre, lib, n - 1, i);
    }
  }

  /** A busy position shows the entry; an idle one shows no step. */
  predicate ShowsEntry(s: PositionState, entry: string) {
    s.step == (if s.status == Some("idle") then None else Some(entry))
  }

  /** While a position is busy with a case it shows the entry of the case
      list; once the case is done the position is idle and shows no step. */
  lemma {:induction false} StepShowsEntry(s: PositionState, position: string, entry: string,
                                          pre: map<string, set<string>>, lib: Library)
    requires s.dut.Some? && !s.stopTesting
    ensures ShowsEntry(StepPosition(s, position, entry, pre, lib).state, entry)
  {
  }

  /** Over the loop, every position is either untouched or shows the entry
      (or, idle, no step). */
  lemma {:induction false} InnerShowsEntry(states: seq<(string, PositionState)>, entry: string, pre: map<string, set<string>>,
                                           lib: Library, n: nat, i: nat)
    requires n <= |states| && i < |states|
    ensures var t := Inner(states, entry, pre, lib, n).states[i];
            t == states[i] || ShowsEntry(t.1, entry)
    decreases n
  {
    if n > 0 {
      InnerShowsEntry(states, entry, pre, lib, n - 1, i);
      var prev := Inner(states, entry, pre, lib, n - 1);
      var r := Inner(states, entry, pre, lib, n);
      if prev.missing.Some? {
        assert r == prev;
      } else {
        var t := prev.states[n - 1];
        var st := StepPosition(t.1, t.0, entry, prev.pre, lib);
        assert r.states == prev.states[n - 1 := (t.0, st.state)];
        if i == n - 1 {
          if t.1.dut.Some? && !t.1.stopTesting {
            StepShowsEntry(t.1, t.0, entry, prev.pre, lib);
          } else {
            assert st.state == t.1;
          }
        } else {
          assert r.states[i] == prev.states[i];
        }
      }
    }
  }

  /** The inner loop as written over the first `n` positions for one entry:
      line 202 reassigns the loop variable, so every position holding a DUT
      hands the stripped name on to the next one. The result is the sweep and
      the name the loop variable holds afterwards. */
  function InnerAsWritten(states: seq<(string, PositionState)>, entry: string, pre: map<string, set<string>>,
                          lib: Library, n: nat): (r: Result<(Sweep, string), PyError>)
    requires n <= |states|
    ensures r.Ok? ==> |r.value.0.states| == |states|
    decreases n
  {
    if n == 0 then Ok((Sweep(states, pre, None), entry))
    else
      var prev := InnerAsWritten(states, entry, pre, lib, n - 1);
      if prev.Err? || prev.value.0.missing.Some? then prev
      else
        var sw := prev.value.0;
        var shown := prev.value.1;
        var s := sw.states[n - 1].1;
        match StepPositionAsWritten(s, sw.states[n - 1].0, shown, sw.pre, lib)
        case Err(e) => Err(e)
        case Ok(st) =>
          var next := if s.dut.None? || s.stopTesting then shown else LookupName(shown);
          Ok((Sweep(sw.states[n - 1 := (sw.states[n - 1].0, st.state)], st.pre, st.missing), next))
  }

  /** For an entry without '_pre' whose case raises nowhere, the loop as
      written and the corrected loop agree, and the loop variable keeps the
      entry. */
  lemma {:induction false} InnerAsWrittenAgrees(states: seq<(string, PositionState)>, entry: string,
                                                pre: map<string, set<string>>, lib: Library, n: nat)
    requires n <= |states| && !Contains(entry, "_pre") && entry !in pre
    requires forall p :: !lib.raises(entry, p, PreTest) && !lib.raises(entry, p, MainTest)
    ensures InnerAsWritten(states, entry, pre, lib, n) == Ok((Inner(states, entry, pre, lib, n), entry))
    ensures Inner(states, entry, pre, lib, n).pre == pre
    decreases n
  {
    if n > 0 {
      InnerAsWrittenAgrees(states, entry, pre, lib, n - 1);
      var prev := Inner(states, entry, pre, lib, n - 1);
      var w := InnerAsWritten(states, entry, pre, lib, n - 1);
      assert w == Ok((prev, entry));
      if prev.missing.None? {
        var t := prev.states[n - 1];
        PlainNameKept(entry);
        var st := StepPosition(t.1, t.0, entry, prev.pre, lib);
        StepAsWrittenAgrees(t.1, t.0, entry, prev.pre, lib);
        assert StepPositionAsWritten(t.1, t.0, entry, prev.pre, lib) == Ok(st);
        assert st.pre == prev.pre by {
          assert !PreDispatch(entry);
        }
        var next := Sweep(prev.states[n - 1 := (t.0, st.state)], st.pre, st.missing);
        assert Inner(states, entry, pre, lib, n) == next;
        assert InnerAsWritten(states, entry, pre, lib, n) == Ok((next, entry));
      } else {
        assert Inner(states, entry, pre, lib, n) == prev;
        assert InnerAsWritten(states, entry, pre, lib, n) == w;
      }
    }
  }

  /** As written, the second position of a run of a pre entry such as
      'Second_pre' shows 'Second': with the case cached on the first
      position only and missing from the sequence and the pool, the run ends
      on the second position with the stripped name shown, where the
      corrected loop shows the entry. */
  lemma {:induction false} OverwrittenNameAsWritten(states: seq<(string, PositionState)>, name: string,
                                                    pre: map<string, set<string>>, lib: Library)
    requires |states| >= 2 && forall i :: 0 <= i < |name| ==> name[i] != '_'
    requires states[0].1.dut.Some? && !states[0].1.stopTesting && name in states[0].1.instances
    requires !PreRaises(pre, name, states[0].0, lib) && !lib.raises(name, states[0].0, MainTest)
    requires states[1].1.dut.Some? && !states[1].1.stopTesting && name !in states[1].1.instances
    requires name !in lib.sequenceCases && name !in lib.poolCases
    ensures InnerAsWritten(states, name + "_pre", pre, lib, 2).Ok?
    ensures InnerAsWritten(states, name + "_pre", pre, lib, 2).value.0.missing == Some(name)
    ensures InnerAsWritten(states, name + "_pre", pre, lib, 2).value.0.states[1].1.step == Some(name)
    ensures Inner(states, name + "_pre", pre, lib, 2).missing == Some(name)
    ensures Inner(states, name + "_pre", pre, lib, 2).states[1].1.step == Some(name + "_pre")
  {
    PreEntryName(name);
    NoFirstChar(name, "_pre");
    RemoveAllAbsent(name, "_pre");
    assert LookupName(name) == name;
    var w1 := InnerAsWritten(states, name + "_pre", pre, lib, 1);
    assert w1 == Ok((Sweep(states[0 := (states[0].0, Idle(states[0].1.(step := Some(name + "_pre"), status := Some("testing"), testStatus := Some("Idle"))))], pre, None), name));
    var c1 := Inner(states, name + "_pre", pre, lib, 1);
    assert c1.missing.None? && c1.states[1] == states[1];
  }

  /** The outer loop over the first `m` entries of the case list. */
  function Outer(states: seq<(string, PositionState)>, entries: seq<string>, lib: Library, m: nat): (r: Sweep)
    requires m <= |entries|
    ensures |r.states| == |states|
    decreases m
  {
    if m == 0 then Sweep(states, map[], None)
    else
      var prev := Outer(states, entries, lib, m - 1);
      if prev.missing.Some? then prev
      else Inner(prev.states, entries[m - 1], prev.pre, lib, |states|)
  }

  /** One more entry of the case list is one more inner loop. */
  lemma {:induction false} OuterStep(states: seq<(string, PositionState)>, entries: seq<string>, lib: Library, k: nat,
                  states': seq<(string, PositionState)>, pre': map<string, set<string>>, missing': Option<string>)
    requires k < |entries| && Outer(states, entries, lib, k).missing.None?
    requires Sweep(states', pre', missing') ==
             Inner(Outer(states, entries, lib, k).states, entries[k], Outer(states, entries, lib, k).pre, lib, |states|)
    ensures Sweep(states', pre', missing') == Outer(states, entries, lib, k + 1)
  {
  }

  /** One more position is one more case body. */
  lemma {:induction false} InnerStep(states: seq<(string, PositionState)>, entry: string, pre: map<string, set<string>>,
                                     lib: Library, k: nat, st: Step)
    requires k < |states| && Inner(states, entry, pre, lib, k).missing.None?
    requires st == StepPosition(Inner(states, entry, pre, lib, k).states[k].1, states[k].0, entry,
                                Inner(states, entry, pre, lib, k).pre, lib)
    ensures Inner(states, entry, pre, lib, k + 1) ==
            Sweep(Inner(states, entry, pre, lib, k).states[k := (states[k].0, st.state)], st.pre, st.missing)
  {
    InnerNames(states, entry, pre, lib, k, k);
  }

  /** The case body for one position, on the position object. */
  method RunOnPosition(position: TestPosition, positionName: string, entry: string,
                       pre: map<string, set<string>>, lib: Library)
    returns (pre': map<string, set<string>>, missing: Option<string>)
    modifies position
    ensures position.State() == StepPosition(old(position.State()), positionName, entry, pre, lib).state
    ensures pre' == StepPosition(old(position.State()), positionName, entry, pre, lib).pre
    ensures missing == StepPosition(old(position.State()), positionName, entry, pre, lib).missing
  {
    pre', missing := pre, None;
    if position.dut.None? || position.stopTesting {
      return;
    }
    position.step := Some(entry);
    position.status := Some("testing");
    var name := LookupName(entry);
    if name !in position.testCaseInstances {
      var created := NewInstance(name, position.dut, lib);
      if created.None? {
        missing := Some(name);
        return;
      }
      position.testCaseInstances := position.testCaseInstances[name := created.value];
    }
    if PreDispatch(entry) {
      pre' := pre[name := PreStarted(pre, name) + {positionName}];
    } else {
      if PreRaises(pre, name, positionName, lib) {
        return;
      }
      position.testStatus := Some("Testing");
      if lib.raises(name, positionName, MainTest) {
        return;
      }
      position.testStatus := Some("Idle");
    }
    position.status := Some("idle");
    position.step := None;
  }

  /** The objects of the positions; each position is its own object. */
  function Objects(ps: seq<(string, TestPosition)>): set<TestPosition> {
    set i | 0 <= i < |ps| :: ps[i].1
  }

  predicate DistinctObjects(ps: seq<(string, TestPosition)>) {
    forall i, j :: 0 <= i < j < |ps| ==> ps[i].1 != ps[j].1
  }

  /** The case body on the `i`-th position object; the other positions are
      untouched. */
  method RunAt(ps: seq<(string, TestPosition)>, i: nat, entry: string, pre: map<string, set<string>>, lib: Library)
    returns (pre': map<string, set<string>>, missing: Option<string>)
    requires i < |ps| && DistinctObjects(ps)
    modifies ps[i].1
    ensures var st := StepPosition(old(ps[i].1.State()), ps[i].0, entry, pre, lib);
            Progress.States(ps) == old(Progress.States(ps))[i := (ps[i].0, st.state)] &&
            pre' == st.pre && missing == st.missing
  {
    ghost var before := Progress.States(ps);
    var position := ps[i].1;
    pre', missing := RunOnPosition(position, ps[i].0, entry, pre, lib);
    forall j | 0 <= j < |ps|
      ensures Progress.States(ps)[j] == before[i := (ps[i].0, position.State())][j]
    {
      if j != i {
        assert ps[j].1 != position;
      }
    }
  }

  /** One pass of the inner loop, over `test_positions.items()`. */
  method RunEntry(ps: seq<(string, TestPosition)>, entry: string, pre: map<string, set<string>>, lib: Library)
    returns (pre': map<string, set<string>>, missing: Option<string>)
    requires DistinctObjects(ps)
    modifies Objects(ps)
    ensures Progress.States(ps) == Inner(old(Progress.States(ps)), entry, pre, lib, |ps|).states
    ensures pre' == Inner(old(Progress.States(ps)), entry, pre, lib, |ps|).pre
    ensures missing == Inner(old(Progress.States(ps)), entry, pre, lib, |ps|).missing
  {
    ghost var start := Progress.States(ps);
    pre', missing := pre, None;
    var i := 0;
    while i < |ps|
      invariant 0 <= i <= |ps|
      invariant missing.None?
      invariant Progress.States(ps) == Inner(start, entry, pre, lib, i).states
      invariant pre' == Inner(start, entry, pre, lib, i).pre
      invariant Inner(start, entry, pre, lib, i).missing.None?
    {
      ghost var before := Progress.States(ps);
      ghost var st := StepPosition(before[i].1, ps[i].0, entry, pre', lib);
      InnerStep(start, entry, pre, lib, i, st);
      pre', missing := RunAt(ps, i, entry, pre', lib);
      i := i + 1;
      if missing.Some? {
        InnerStops(start, entry, pre, lib, i, |ps|);
        return;
      }
    }
  }

  /** Once a case name is missing, the rest of the inner loop is skipped. */
  lemma {:induction false} InnerStops(states: seq<(string, PositionState)>, entry: string, pre: map<string, set<string>>,
                                      lib: Library, n: nat, n': nat)
    requires n <= n' <= |states|
    requires Inner(states, entry, pre, lib, n).missing.Some?
    ensures Inner(states, entry, pre, lib, n') == Inner(states, entry, pre, lib, n)
    decreases n' - n
  {
    if n' > n {
      InnerStops(states, entry, pre, lib, n, n' - 1);
      var prev := Inner(states, entry, pre, lib, n' - 1);
      assert prev.missing.Some?;
      assert Inner(states, entry, pre, lib, n') == prev;
    }
  }

  /** Once a case name is missing, the rest of the case list is skipped. */
  lemma {:induction false} OuterStops(states: seq<(string, PositionState)>, entries: seq<string>, lib: Library, m: nat, m': nat)
    requires m <= m' <= |entries|
    requires Outer(states, entries, lib, m).missing.Some?
    ensures Outer(states, entries, lib, m') == Outer(states, entries, lib, m)
    decreases m' - m
  {
    if m' > m {
      OuterStops(states, entries, lib, m, m' - 1);
      var prev := Outer(states, entries, lib, m' - 1);
      assert prev.missing.Some?;
      assert Outer(states, entries, lib, m') == prev;
    }
  }

  /** The loop "Run all test cases": every entry of the case list over every
      position, ending early when a case cannot be found. */
  method RunCases(ps: seq<(string, TestPosition)>, entries: seq<string>, lib: Library)
    returns (missing: Option<string>)
    requires DistinctObjects(ps)
    modifies Objects(ps)
    ensures Progress.States(ps) == Outer(old(Progress.States(ps)), entries, lib, |entries|).states
    ensures missing == Outer(old(Progress.States(ps)), entries, lib, |entries|).missing
  {
    ghost var start := Progress.States(ps);
    var pre: map<string, set<string>> := map[];
    missing := None;
    var k := 0;
    assert start == old(Progress.States(ps));
    while k < |entries| && missing.None?
      invariant 0 <= k <= |entries|
      invariant Progress.States(ps) == Outer(start, entries, lib, k).states
      invariant pre == Outer(start, entries, lib, k).pre
      invariant missing == Outer(start, entries, lib, k).missing
    {
      pre, missing := RunEntry(ps, entries[k], pre, lib);
      OuterStep(start, entries, lib, k, Progress.States(ps), pre, missing);
      k := k + 1;
    }
    if missing.Some? {
      OuterStops(start, entries, lib, k, |entries|);
    }
    assert Progress.States(ps) == Outer(start, entries, lib, |entries|).states;
    assert missing == Outer(start, entries, lib, |entries|).missing;
  }

  // ---------------------------------------------------------------------------
  // What a whole run does to each position.

  /** The names the entries are looked up under. */
  function LookupNames(entries: seq<string>): set<string> {
    set e | e in entries :: LookupName(e)
  }

  /** From `a` to `b` the cache only grew, each new instance was created for
      one of `names` with the position's DUT, and the DUT stayed. */
  predicate Cached(a: PositionState, b: PositionState, names: set<string>, lib: Library) {
    b.dut == a.dut && b.stopTesting == a.stopTesting &&
    (forall k :: k in a.instances ==> k in b.instances && b.instances[k] == a.instances[k]) &&
    (forall k :: k in b.instances && k !in a.instances ==>
       k in names && NewInstance(k, a.dut, lib) == Some(b.instances[k]))
  }

  /** One case on one position caches at most the instance of that case. */
  lemma {:induction false} StepCached(s: PositionState, position: string, entry: string, pre: map<string, set<string>>, lib: Library)
    ensures Cached(s, StepPosition(s, position, entry, pre, lib).state, {LookupName(entry)}, lib)
  {
  }

  lemma {:induction false} CachedTrans(a: PositionState, b: PositionState, c: PositionState, names: set<string>, names': set<string>, lib: Library)
    requires Cached(a, b, names, lib) && Cached(b, c, names', lib)
    ensures Cached(a, c, names + names', lib)
  {
  }

  lemma {:induction false} InnerCached(states: seq<(string, PositionState)>, entry: string, pre: map<string, set<string>>,
                                       lib: Library, n: nat, i: nat)
    requires n <= |states| && i < |states|
    ensures Cached(states[i].1, Inner(states, entry, pre, lib, n).states[i].1, {LookupName(entry)}, lib)
    decreases n
  {
    if n > 0 {
      InnerCached(states, entry, pre, lib, n - 1, i);
      var prev := Inner(states, entry, pre, lib, n - 1);
      if prev.missing.None? && i == n - 1 {
        var st := StepPosition(prev.states[i].1, prev.states[i].0, entry, prev.pre, lib);
        StepCached(prev.states[i].1, prev.states[i].0, entry, prev.pre, lib);
        CachedTrans(states[i].1, prev.states[i].1, st.state, {LookupName(entry)}, {LookupName(entry)}, lib);
      }
    }
  }

  /** Over a whole run, a position's cache only grows: an instance is created
      at most once per case name, for a name on the case list, with the
      position's DUT, and is reused afterwards. */
  lemma {:induction false} RunCachesInstances(states: seq<(string, PositionState)>, entries: seq<string>, lib: Library, m: nat, i: nat)
    requires m <= |entries| && i < |states|
    ensures Cached(states[i].1, Outer(states, entries, lib, m).states[i].1, LookupNames(entries[..m]), lib)
    decreases m
  {
    if m > 0 {
      RunCachesInstances(states, entries, lib, m - 1, i);
      var prev := Outer(states, entries, lib, m - 1);
      assert LookupNames(entries[..m]) == LookupNames(entries[..m - 1]) + {LookupName(entries[m - 1])} by {
        assert entries[..m] == entries[..m - 1] + [entries[m - 1]];
      }
      if prev.missing.None? {
        InnerCached(prev.states, entries[m - 1], prev.pre, lib, |states|, i);
        CachedTrans(states[i].1, prev.states[i].1, Outer(states, entries, lib, m).states[i].1,
                    LookupNames(entries[..m - 1]), {LookupName(entries[m - 1])}, lib);
      }
    }
  }

  lemma {:induction false} InnerSkipped(states: seq<(string, PositionState)>, entry: string, pre: map<string, set<string>>,
                                        lib: Library, n: nat, i: nat)
    requires n <= |states| && i < |states|
    requires states[i].1.dut.None? || states[i].1.stopTesting
    ensures Inner(states, entry, pre, lib, n).states[i] == states[i]
    decreases n
  {
    if n > 0 {
      InnerSkipped(states, entry, pre, lib, n - 1, i);
      var prev := Inner(states, entry, pre, lib, n - 1);
      if prev.missing.None? {
        var t := prev.states[n - 1];
        var st := StepPosition(t.1, t.0, entry, prev.pre, lib);
        assert Inner(states, entry, pre, lib, n).states == prev.states[n - 1 := (t.0, st.state)];
        if i == n - 1 {
          assert st.state == t.1;
        }
      }
    }
  }

  /** A position without a DUT, or one told to stop testing, runs no case:
      the whole run leaves its fields as they were. */
  lemma {:induction false} RunSkipsPosition(states: seq<(string, PositionState)>, entries: seq<string>, lib: Library, m: nat, i: nat)
    requires m <= |entries| && i < |states|
    requires states[i].1.dut.None? || states[i].1.stopTesting
    ensures Outer(states, entries, lib, m).states[i] == states[i]
    decreases m
  {
    if m > 0 {
      RunSkipsPosition(states, entries, lib, m - 1, i);
      var prev := Outer(states, entries, lib, m - 1);
      if prev.missing.None? {
        InnerSkipped(prev.states, entries[m - 1], prev.pre, lib, |states|, i);
      }
    }
  }

  lemma {:induction false} InnerMissing(states: seq<(string, PositionState)>, entry: string, pre: map<string, set<string>>,
                                        lib: Library, n: nat)
    requires n <= |states|
    ensures Inner(states, entry, pre, lib, n).missing.Some? ==>
      Inner(states, entry, pre, lib, n).missing.value == LookupName(entry) &&
      LookupName(entry) !in lib.sequenceCases && LookupName(entry) !in lib.poolCases
    decreases n
  {
    if n > 0 {
      InnerMissing(states, entry, pre, lib, n - 1);
    }
  }

  /** The run ends early only for a case name found neither in the sequence
      nor in the pool; an exception raised by a case never ends it. */
  lemma {:induction false} RunStopsOnlyOnMissingCase(states: seq<(string, PositionState)>, entries: seq<string>, lib: Library, m: nat)
    requires m <= |entries|
    ensures Outer(states, entries, lib, m).missing.Some? ==>
      Outer(states, entries, lib, m).missing.value in LookupNames(entries[..m]) &&
      Outer(states, entries, lib, m).missing.value !in lib.sequenceCases &&
      Outer(states, entries, lib, m).missing.value !in lib.poolCases
    decreases m
  {
    if m > 0 {
      RunStopsOnlyOnMissingCase(states, entries, lib, m - 1);
      var prev := Outer(states, entries, lib, m - 1);
      assert entries[..m] == entries[..m - 1] + [entries[m - 1]];
      assert entries[..m - 1] <= entries[..m];
      if prev.missing.None? {
        InnerMissing(prev.states, entries[m - 1], prev.pre, lib, |states|);
        assert entries[m - 1] in entries[..m];
      } else {
        var e :| e in entries[..m - 1] && LookupName(e) == prev.missing.value;
        assert e in entries[..m];
      }
    }
  }
}
