/** How the runner collects DUT serial numbers typed in the UI
    (`get_sn_from_ui`, test_runner/runner.py): messages are taken off the queue
    one at a time until every test position holds a truthy serial number. */
module SerialInput {
  import opened PyValue

  /** A message from the serial-number queue: text that `json.loads` rejects,
      or the value it decodes to. */
  datatype Message = Malformed | Json(value: Value)

  /** How the wait ends: every serial received, an exception the `except`
      clause does not catch, or the queue running dry (the real queue blocks). */
  datatype SnOutcome =
    | Received(serials: seq<(string, Value)>, sequenceName: Value, consumed: nat)
    | Crashed(error: PyError, consumed: nat)
    | Waiting(serials: seq<(string, Value)>, sequenceName: Value)

  /** The serial of each position, before any message: `{name: {'sn': None}}`,
      with the inner one-key dict flattened to its value. */
  function InitialSerials(positions: seq<string>): (r: seq<(string, Value)>)
    ensures DistinctKeys(r)
    ensures forall p :: p in KeySet(r) <==> p in positions
    decreases |positions|
  {
    if positions == [] then []
    else
      var init := positions[..|positions| - 1];
      assert positions == init + [positions[|positions| - 1]];
      Put(InitialSerials(init), positions[|positions| - 1], VNone)
  }

  /** Before any message no position has a serial. */
  lemma {:induction false} InitialSerialsNone(positions: seq<string>, p: string)
    requires p in positions
    ensures Get(InitialSerials(positions), p) == Some(VNone)
    decreases |positions|
  {
    var init := positions[..|positions| - 1];
    var last := positions[|positions| - 1];
    assert positions == init + [last];
    PutGet(InitialSerials(init), last, VNone, p);
    if p != last {
      InitialSerialsNone(init, p);
    }
  }

  /** The loop `for dut in msg: if dut in duts_sn: duts_sn[dut]['sn'] = msg[dut]`
      over the first items of a decoded dict `msg`. */
  function Assigned(sn: seq<(string, Value)>, items: seq<(Value, Value)>, msg: seq<(Value, Value)>): (r: seq<(string, Value)>)
    ensures KeySet(r) == KeySet(sn) && Keys(r) == Keys(sn)
    ensures DistinctKeys(sn) ==> DistinctKeys(r)
    decreases |items|
  {
    if items == [] then sn
    else
      var prev := Assigned(sn, items[..|items| - 1], msg);
      var k := items[|items| - 1].0;
      if k.VStr? && k.s in KeySet(prev) then
        // `msg[dut]`: `dut` is a key of `msg`, so the lookup finds it
        match Get(msg, k)
        case Some(v) => PutKeys(prev, k.s, v); Put(prev, k.s, v)
        case None => prev
      else prev
  }

  /** After the loop, a position named by a key of the message holds the
      message's value for it, and every other position keeps its serial. */
  lemma {:induction false} AssignedGet(sn: seq<(string, Value)>, items: seq<(Value, Value)>, msg: seq<(Value, Value)>, p: string)
    requires forall i :: 0 <= i < |items| ==> items[i].0 in KeySet(msg)
    ensures Get(Assigned(sn, items, msg), p) ==
      if p in KeySet(sn) && VStr(p) in KeySet(items) then Get(msg, VStr(p)) else Get(sn, p)
    decreases |items|
  {
    if items != [] {
      var init := items[..|items| - 1];
      var k := items[|items| - 1].0;
      assert items == init + [items[|items| - 1]];
      KeySetIndex(items, VStr(p));
      KeySetIndex(init, VStr(p));
      AssignedGet(sn, init, msg, p);
      var prev := Assigned(sn, init, msg);
      if k.VStr? && k.s in KeySet(prev) {
        assert Get(msg, k).Some?;
        PutGet(prev, k.s, Get(msg, k).value, p);
      }
    }
  }

  /** The message loop's inner `for` as a loop over the dict's items. */
  method AssignSerials(sn: seq<(string, Value)>, msg: seq<(Value, Value)>) returns (r: seq<(string, Value)>)
    ensures r == Assigned(sn, msg, msg)
  {
    r := sn;
    for i := 0 to |msg|
      invariant r == Assigned(sn, msg[..i], msg)
    {
      assert msg[..i + 1][..i] == msg[..i];
      var k := msg[i].0;
      if k.VStr? && k.s in KeySet(r) {
        match Get(msg, k)
        case Some(v) => r := Put(r, k.s, v);
        case None =>
      }
    }
    assert msg[..|msg|] == msg;
  }

  /** A decoded list makes the loop raise `TypeError` (not caught): an item
      that cannot be hashed, an item naming a position (`msg[dut]` with a str
      index), or a 'sequence' item (`msg['sequence']`). */
  predicate ListRaises(sn: seq<(string, Value)>, items: seq<Value>) {
    (exists i :: 0 <= i < |items| && (items[i].VList? || items[i].VDict?)) ||
    (exists i :: 0 <= i < |items| && items[i].VStr? && items[i].s in KeySet(sn)) ||
    VStr("sequence") in items
  }

  /** A decoded str is iterated by character; a one-character position name
      or the substring 'sequence' leads to a str index and a `TypeError`. */
  predicate StrRaises(sn: seq<(string, Value)>, s: string) {
    (exists i :: 0 <= i < |s| && [s[i]] in KeySet(sn)) || Contains(s, "sequence")
  }

  /** One pass through the body of the `while True` loop, up to the check. */
  function ApplyMessage(sn: seq<(string, Value)>, name: Value, m: Message): (r: Result<(seq<(string, Value)>, Value), PyError>)
    ensures r.Ok? ==> Keys(r.value.0) == Keys(sn) && KeySet(r.value.0) == KeySet(sn)
    ensures r.Ok? && DistinctKeys(sn) ==> DistinctKeys(r.value.0)
    ensures !(m.Json? && m.value.VDict?) && r.Ok? ==> r.value == (sn, name)
    ensures r.Err? ==> r.error.TypeError?
  {
    match m
    case Malformed => Ok((sn, name))
    case Json(v) =>
      match v
      case VDict(entries) =>
        var name' := match Get(entries, VStr("sequence")) case Some(x) => x case None => name;
        Ok((Assigned(sn, entries, entries), name'))
      case VList(items) =>
        if ListRaises(sn, items) then Err(TypeError("list indices must be integers")) else Ok((sn, name))
      case VStr(s) =>
        if StrRaises(sn, s) then Err(TypeError("string indices must be integers")) else Ok((sn, name))
      case _ => Err(TypeError("object is not iterable"))
  }

  /** A decoded dict never raises; the positions it names take its values, the
      others keep theirs, and its 'sequence' entry, if any, becomes the
      sequence name. */
  lemma {:induction false} DictMessage(sn: seq<(string, Value)>, name: Value, entries: seq<(Value, Value)>, p: string)
    ensures ApplyMessage(sn, name, Json(VDict(entries))).Ok?
    ensures Get(ApplyMessage(sn, name, Json(VDict(entries))).value.0, p) ==
      if p in KeySet(sn) && VStr(p) in KeySet(entries) then Get(entries, VStr(p)) else Get(sn, p)
    ensures ApplyMessage(sn, name, Json(VDict(entries))).value.1 ==
      if VStr("sequence") in KeySet(entries) then Get(entries, VStr("sequence")).value else name
  {
    forall i | 0 <= i < |entries| ensures entries[i].0 in KeySet(entries) {
      KeySetIndex(entries, entries[i].0);
    }
    AssignedGet(sn, entries, entries, p);
  }

  /** The `for ... else` check: every position holds a truthy serial. */
  predicate AllReceived(sn: seq<(string, Value)>) {
    forall i :: 0 <= i < |sn| ==> Truthy(sn[i].1)
  }

  method CheckAllReceived(sn: seq<(string, Value)>) returns (all: bool)
    ensures all <==> AllReceived(sn)
  {
    for i := 0 to |sn|
      invariant forall j :: 0 <= j < i ==> Truthy(sn[j].1)
    {
      if !Truthy(sn[i].1) {
        return false;
      }
    }
    return true;
  }

  /** The messages taken off the queue from the given state on; `consumed`
      counts the messages taken so far. */
  function Collect(sn: seq<(string, Value)>, name: Value, msgs: seq<Message>, consumed: nat): SnOutcome
    decreases |msgs|
  {
    if msgs == [] then Waiting(sn, name)
    else
      match ApplyMessage(sn, name, msgs[0])
      case Err(e) => Crashed(e, consumed + 1)
      case Ok((sn', name')) =>
        if AllReceived(sn') then Received(sn', name', consumed + 1)
        else Collect(sn', name', msgs[1..], consumed + 1)
  }

  /** `get_sn_from_ui(dut_sn_queue)`, with the queue's future contents given
      as a sequence of messages. */
  method GetSnFromUi(positions: seq<string>, queue: seq<Message>) returns (r: SnOutcome)
    ensures r == Collect(InitialSerials(positions), VNone, queue, 0)
  {
    var sn := InitialSerials(positions);
    var name := VNone;
    var i := 0;
    while i < |queue|
      invariant 0 <= i <= |queue|
      invariant Collect(InitialSerials(positions), VNone, queue, 0) == Collect(sn, name, queue[i..], i)
    {
      var m := queue[i];
      assert queue[i..][0] == m && queue[i..][1..] == queue[i + 1..];
      ghost var step := ApplyMessage(sn, name, m);
      assert Collect(sn, name, queue[i..], i) ==
        match step
        case Err(e) => Crashed(e, i + 1)
        case Ok((sn', name')) =>
          if AllReceived(sn') then Received(sn', name', i + 1) else Collect(sn', name', queue[i + 1..], i + 1);
      i := i + 1;
      if m.Json? && m.value.VDict? {
        var entries := m.value.entries;
        sn := AssignSerials(sn, entries);
        match Get(entries, VStr("sequence"))
        case Some(x) => name := x;
        case None =>
        assert step == Ok((sn, name));
      } else {
        var applied := ApplyMessage(sn, name, m);
        if applied.Err? {
          return Crashed(applied.error, i);
        }
      }
      var all := CheckAllReceived(sn);
      if all {
        return Received(sn, name, i);
      }
    }
    r := Waiting(sn, name);
  }

  /** The serials keep exactly the keys they started with: a message never
      adds a position, whatever keys it carries. */
  lemma {:induction false} CollectKeys(sn: seq<(string, Value)>, name: Value, msgs: seq<Message>, consumed: nat)
    requires DistinctKeys(sn)
    ensures Collect(sn, name, msgs, consumed).Received? ==>
      DistinctKeys(Collect(sn, name, msgs, consumed).serials) && KeySet(Collect(sn, name, msgs, consumed).serials) == KeySet(sn)
    ensures Collect(sn, name, msgs, consumed).Waiting? ==>
      DistinctKeys(Collect(sn, name, msgs, consumed).serials) && KeySet(Collect(sn, name, msgs, consumed).serials) == KeySet(sn)
    decreases |msgs|
  {
    if msgs != [] {
      var a := ApplyMessage(sn, name, msgs[0]);
      if a.Ok? && !AllReceived(a.value.0) {
        CollectKeys(a.value.0, a.value.1, msgs[1..], consumed + 1);
      }
    }
  }

  /** The wait ends with success only once every serial is truthy, and only
      after at least one message. */
  lemma {:induction false} CollectReceived(sn: seq<(string, Value)>, name: Value, msgs: seq<Message>, consumed: nat)
    ensures Collect(sn, name, msgs, consumed).Received? ==>
      AllReceived(Collect(sn, name, msgs, consumed).serials) &&
      consumed < Collect(sn, name, msgs, consumed).consumed <= consumed + |msgs|
    ensures Collect(sn, name, msgs, consumed).Crashed? ==>
      consumed < Collect(sn, name, msgs, consumed).consumed <= consumed + |msgs|
    decreases |msgs|
  {
    if msgs != [] {
      var a := ApplyMessage(sn, name, msgs[0]);
      if a.Ok? && !AllReceived(a.value.0) {
        CollectReceived(a.value.0, a.value.1, msgs[1..], consumed + 1);
      }
    }
  }

  /** A message that fails JSON decoding is consumed and changes nothing. */
  lemma {:induction false} MalformedSkipped(sn: seq<(string, Value)>, name: Value, rest: seq<Message>, consumed: nat)
    requires !AllReceived(sn)
    ensures Collect(sn, name, [Malformed] + rest, consumed) == Collect(sn, name, rest, consumed + 1)
  {
    assert ([Malformed] + rest)[1..] == rest;
  }

  /** The sequence name a message leaves behind: a dict's 'sequence' entry,
      otherwise the name it found. */
  function NameAfter(name: Value, m: Message): Value {
    if m.Json? && m.value.VDict? && VStr("sequence") in KeySet(m.value.entries)
    then Get(m.value.entries, VStr("sequence")).value
    else name
  }

  /** The sequence name after the given messages, taken in order. */
  function SequenceAfter(name: Value, msgs: seq<Message>): Value
    decreases |msgs|
  {
    if msgs == [] then name else SequenceAfter(NameAfter(name, msgs[0]), msgs[1..])
  }

  /** The last message carrying a 'sequence' entry decides the name. */
  lemma {:induction false} SequenceLastWins(name: Value, msgs: seq<Message>, m: Message)
    ensures SequenceAfter(name, msgs + [m]) == NameAfter(SequenceAfter(name, msgs), m)
    decreases |msgs|
  {
    if msgs == [] {
      assert ([] + [m])[1..] == [];
    } else {
      assert (msgs + [m])[0] == msgs[0] && (msgs + [m])[1..] == msgs[1..] + [m];
      SequenceLastWins(NameAfter(name, msgs[0]), msgs[1..], m);
    }
  }

  /** Without a message carrying 'sequence' the name stays as it was (None
      at the start of the wait). */
  lemma {:induction false} SequenceUnset(name: Value, msgs: seq<Message>)
    requires forall i :: 0 <= i < |msgs| ==> NameAfter(name, msgs[i]) == name
    ensures SequenceAfter(name, msgs) == name
    decreases |msgs|
  {
    if msgs != [] {
      assert forall i :: 0 <= i < |msgs[1..]| ==> msgs[1..][i] == msgs[i + 1];
      SequenceUnset(name, msgs[1..]);
    }
  }

  /** The name returned with the serials is the name after exactly the
      messages consumed. */
  lemma {:induction false} CollectSequence(sn: seq<(string, Value)>, name: Value, msgs: seq<Message>, consumed: nat)
    ensures Collect(sn, name, msgs, consumed).Received? ==>
      consumed < Collect(sn, name, msgs, consumed).consumed <= consumed + |msgs| &&
      Collect(sn, name, msgs, consumed).sequenceName ==
        SequenceAfter(name, msgs[..Collect(sn, name, msgs, consumed).consumed - consumed])
    decreases |msgs|
  {
    if msgs != [] {
      var a := ApplyMessage(sn, name, msgs[0]);
      if a.Ok? {
        assert a.value.1 == NameAfter(name, msgs[0]);
        var out := Collect(sn, name, msgs, consumed);
        if AllReceived(a.value.0) {
          assert msgs[..1][1..] == [];
        } else {
          CollectSequence(a.value.0, a.value.1, msgs[1..], consumed + 1);
          if out.Received? {
            var k := out.consumed - consumed;
            assert msgs[..k][0] == msgs[0] && msgs[..k][1..] == msgs[1..][..k - 1];
          }
        }
      }
    }
  }

  /** When the wait succeeds, each configured position has exactly one entry
      and its serial is truthy. */
  lemma {:induction false} EverySerialReceived(positions: seq<string>, queue: seq<Message>, p: string)
    requires Collect(InitialSerials(positions), VNone, queue, 0).Received?
    requires p in positions
    ensures Get(Collect(InitialSerials(positions), VNone, queue, 0).serials, p).Some?
    ensures Truthy(Get(Collect(InitialSerials(positions), VNone, queue, 0).serials, p).value)
  {
    var out := Collect(InitialSerials(positions), VNone, queue, 0);
    CollectKeys(InitialSerials(positions), VNone, queue, 0);
    CollectReceived(InitialSerials(positions), VNone, queue, 0);
    KeySetIndex(out.serials, p);
    var i :| 0 <= i < |out.serials| && out.serials[i].0 == p;
    GetIndex(out.serials, i);
  }
}
