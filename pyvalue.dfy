/** Python data as the runner, the listener, the report writer and the database
    helpers see it: JSON-like values whose dictionaries keep insertion order,
    the exceptions that escape the modelled code, and the few `str` methods the
    code relies on. */
module PyValue {

  datatype Option<+T> = None | Some(value: T)

  /** Success or the Python exception that ends the modelled call. */
  datatype Result<+T, +E> = Ok(value: T) | Err(error: E) {
    predicate IsFailure() { Err? }
    function PropagateFailure<U>(): Result<U, E> requires Err? { Err(error) }
    function Extract(): T requires Ok? { value }
  }

  /** A value as `json.loads` produces it or as the code builds it. A dictionary
      is the list of its items in insertion order, as a Python dict iterates. */
  datatype Value =
    | VNone
    | VBool(b: bool)
    | VInt(i: int)
    | VStr(s: string)
    | VList(items: seq<Value>)
    | VDict(entries: seq<(Value, Value)>)

  /** The exceptions the modelled code lets escape. */
  datatype PyError =
    | KeyError(key: Value)
    | IndexError
    | TypeError(reason: string)
    | AttributeError(name: string)
    | ValueError(reason: string)
    | OverflowError(reason: string)

  /** Python truthiness (`if v:`). */
  predicate Truthy(v: Value) {
    match v
    case VNone => false
    case VBool(b) => b
    case VInt(i) => i != 0
    case VStr(s) => s != ""
    case VList(items) => items != []
    case VDict(entries) => entries != []
  }

  // ---------------------------------------------------------------------------
  // Insertion-ordered dictionaries: a sequence of (key, value) pairs.

  function KeySet<K(==), V>(d: seq<(K, V)>): set<K> {
    if d == [] then {} else {d[0].0} + KeySet(d[1..])
  }

  function Keys<K, V>(d: seq<(K, V)>): (ks: seq<K>)
    ensures |ks| == |d|
    ensures forall i :: 0 <= i < |d| ==> ks[i] == d[i].0
  {
    seq(|d|, i requires 0 <= i < |d| => d[i].0)
  }

  /** No key occurs twice, as in every Python dict. */
  predicate DistinctKeys<K(==), V>(d: seq<(K, V)>) {
    d == [] || (d[0].0 !in KeySet(d[1..]) && DistinctKeys(d[1..]))
  }

  lemma {:induction false} KeySetIndex<K, V>(d: seq<(K, V)>, k: K)
    ensures k in KeySet(d) <==> exists i :: 0 <= i < |d| && d[i].0 == k
  {
    if d != [] {
      KeySetIndex(d[1..], k);
      if k in KeySet(d[1..]) {
        var i :| 0 <= i < |d[1..]| && d[1..][i].0 == k;
        assert d[i + 1].0 == k;
      }
      if exists i :: 0 <= i < |d| && d[i].0 == k {
        var i :| 0 <= i < |d| && d[i].0 == k;
        if i > 0 {
          assert d[1..][i - 1].0 == k;
        }
      }
    }
  }

  /** Distinct keys, stated position by position. */
  lemma {:induction false} DistinctKeysIndex<K, V>(d: seq<(K, V)>)
    ensures DistinctKeys(d) <==> forall i, j :: 0 <= i < j < |d| ==> d[i].0 != d[j].0
  {
    if d != [] {
      DistinctKeysIndex(d[1..]);
      KeySetIndex(d[1..], d[0].0);
      if forall i, j :: 0 <= i < j < |d| ==> d[i].0 != d[j].0 {
        forall i, j | 0 <= i < j < |d[1..]| ensures d[1..][i].0 != d[1..][j].0 {
          assert d[i + 1].0 != d[j + 1].0;
        }
        forall i | 0 <= i < |d[1..]| ensures d[1..][i].0 != d[0].0 {
          assert d[0].0 != d[i + 1].0;
        }
      }
      if DistinctKeys(d) {
        forall i, j | 0 <= i < j < |d| ensures d[i].0 != d[j].0 {
          if i == 0 {
            assert d[1..][j - 1].0 == d[j].0;
          } else {
            assert d[1..][i - 1].0 != d[1..][j - 1].0;
          }
        }
      }
    }
  }

  /** Two items of a dict have different keys. */
  lemma {:induction false} DistinctPair<K, V>(d: seq<(K, V)>, i: nat, j: nat)
    requires DistinctKeys(d) && i < j < |d|
    ensures d[i].0 != d[j].0
  {
    DistinctKeysIndex(d);
  }

  /** In a dict, the value under the key of item `i` is that item's value. */
  lemma {:induction false} GetIndex<K, V>(d: seq<(K, V)>, i: nat)
    requires DistinctKeys(d) && i < |d|
    ensures Get(d, d[i].0) == Some(d[i].1)
  {
    if i > 0 {
      GetIndex(d[1..], i - 1);
      KeySetIndex(d[1..], d[0].0);
      assert d[1..][i - 1] == d[i];
    }
  }

  /** `d[k]` / `d.get(k)`: the value stored under `k`, if any. */
  function Get<K(==), V>(d: seq<(K, V)>, k: K): (r: Option<V>)
    ensures r.Some? <==> k in KeySet(d)
  {
    if d == [] then None
    else if d[0].0 == k then Some(d[0].1)
    else Get(d[1..], k)
  }

  /** `d[k] = v`: an existing key keeps its place, a new key goes last. */
  function Put<K(==), V>(d: seq<(K, V)>, k: K, v: V): (r: seq<(K, V)>)
    ensures KeySet(r) == KeySet(d) + {k}
    ensures k !in KeySet(d) ==> r == d + [(k, v)]
    ensures DistinctKeys(d) ==> DistinctKeys(r)
  {
    if d == [] then [(k, v)]
    else if d[0].0 == k then [(k, v)] + d[1..]
    else [d[0]] + Put(d[1..], k, v)
  }

  /** Storing under a key that is already there keeps the order of the keys. */
  lemma {:induction false} PutKeys<K, V>(d: seq<(K, V)>, k: K, v: V)
    requires k in KeySet(d)
    ensures Keys(Put(d, k, v)) == Keys(d)
  {
    if d[0].0 != k {
      PutKeys(d[1..], k, v);
      assert Put(d, k, v) == [d[0]] + Put(d[1..], k, v);
      assert Keys(Put(d, k, v)) == [d[0].0] + Keys(Put(d[1..], k, v));
      assert Keys(d) == [d[0].0] + Keys(d[1..]);
    }
  }

  /** `d.update(items)`: the items are stored one after another. */
  function Update<K(==), V>(d: seq<(K, V)>, items: seq<(K, V)>): (r: seq<(K, V)>)
    ensures KeySet(r) == KeySet(d) + KeySet(items)
    ensures DistinctKeys(d) ==> DistinctKeys(r)
    decreases |items|
  {
    if items == [] then d
    else Update(Put(d, items[0].0, items[0].1), items[1..])
  }

  /** `d.update({k: v})` for a new key adds the item last. */
  lemma {:induction false} UpdateNewKey<K, V>(d: seq<(K, V)>, k: K, v: V)
    requires k !in KeySet(d)
    ensures Update(d, [(k, v)]) == d + [(k, v)]
  {
    assert [(k, v)][1..] == [];
  }

  lemma {:induction false} PutGet<K, V>(d: seq<(K, V)>, k: K, v: V, k': K)
    ensures Get(Put(d, k, v), k') == if k' == k then Some(v) else Get(d, k')
  {
    if d != [] && d[0].0 != k {
      PutGet(d[1..], k, v, k');
    }
  }

  /** Looking up in a dict with one more item put last. */
  lemma {:induction false} GetSnoc<K, V>(d: seq<(K, V)>, k': K, v: V, k: K)
    ensures Get(d + [(k', v)], k) == if k in KeySet(d) then Get(d, k) else if k == k' then Some(v) else None
  {
    if d != [] {
      assert (d + [(k', v)])[0] == d[0] && (d + [(k', v)])[1..] == d[1..] + [(k', v)];
      GetSnoc(d[1..], k', v, k);
    }
  }

  /** A prefix of a dict is a dict. */
  lemma {:induction false} DistinctKeysPrefix<K, V>(d: seq<(K, V)>, n: nat)
    requires DistinctKeys(d) && n <= |d|
    ensures DistinctKeys(d[..n])
  {
    DistinctKeysIndex(d);
    DistinctKeysIndex(d[..n]);
  }

  /** After `d.update(items)`, with the items taken from a dict, every item's
      key holds the item's value and every other key keeps its value. */
  lemma {:induction false} UpdateGet<K, V>(d: seq<(K, V)>, items: seq<(K, V)>, k: K)
    requires DistinctKeys(items)
    ensures Get(Update(d, items), k) == if k in KeySet(items) then Get(items, k) else Get(d, k)
    decreases |items|
  {
    if items != [] {
      UpdateGet(Put(d, items[0].0, items[0].1), items[1..], k);
      PutGet(d, items[0].0, items[0].1, k);
    }
  }

  // ---------------------------------------------------------------------------
  // Subscripts and dict methods on arbitrary values.

  /** `c[k]` for a dict, a list or a str; anything else is not subscriptable. */
  function Subscript(c: Value, k: Value): (r: Result<Value, PyError>)
    ensures c.VDict? ==> (r.Ok? <==> k in KeySet(c.entries))
    ensures !(c.VDict? || c.VList? || c.VStr?) ==> r.Err? && r.error.TypeError?
  {
    match c
    case VDict(entries) =>
      (match Get(entries, k)
       case Some(v) => Ok(v)
       case None => Err(KeyError(k)))
    case VList(items) =>
      if !k.VInt? then Err(TypeError("list indices must be integers"))
      else if -|items| <= k.i < 0 then Ok(items[k.i + |items|])
      else if 0 <= k.i < |items| then Ok(items[k.i])
      else Err(IndexError)
    case VStr(s) =>
      if !k.VInt? then Err(TypeError("string indices must be integers"))
      else if -|s| <= k.i < 0 then Ok(VStr([s[k.i + |s|]]))
      else if 0 <= k.i < |s| then Ok(VStr([s[k.i]]))
      else Err(IndexError)
    case _ => Err(TypeError("object is not subscriptable"))
  }

  /** `v.items()`: only a dict has it. */
  function Items(v: Value): (r: Result<seq<(Value, Value)>, PyError>)
    ensures r.Ok? <==> v.VDict?
  {
    if v.VDict? then Ok(v.entries) else Err(AttributeError("items"))
  }

  /** `v.get(k, default)`: only a dict has it. */
  function DictGet(v: Value, k: Value, default: Value): (r: Result<Value, PyError>)
    ensures r.Ok? <==> v.VDict?
    ensures v.VDict? && k !in KeySet(v.entries) ==> r == Ok(default)
  {
    if !v.VDict? then Err(AttributeError("get"))
    else match Get(v.entries, k)
      case Some(x) => Ok(x)
      case None => Ok(default)
  }

  // ---------------------------------------------------------------------------
  // The `str` methods the code relies on.

  predicate StartsWith(s: string, prefix: string) {
    |prefix| <= |s| && s[..|prefix|] == prefix
  }

  predicate EndsWith(s: string, suffix: string) {
    |suffix| <= |s| && s[|s| - |suffix|..] == suffix
  }

  /** `p in s` for strings. */
  predicate Contains(s: string, p: string)
    decreases |s|
  {
    StartsWith(s, p) || (s != [] && Contains(s[1..], p))
  }

  /** `s.replace(p, '')`: occurrences are removed left to right without overlap. */
  function RemoveAll(s: string, p: string): (r: string)
    requires p != ""
    ensures |r| <= |s|
    decreases |s|
  {
    if StartsWith(s, p) then RemoveAll(s[|p|..], p)
    else if s == [] then []
    else [s[0]] + RemoveAll(s[1..], p)
  }

  /** `sep.join(parts)`. */
  function Join(sep: string, parts: seq<string>): string {
    if parts == [] then ""
    else if |parts| == 1 then parts[0]
    else parts[0] + sep + Join(sep, parts[1..])
  }

  function DigitChar(d: nat): char
    requires d < 10
  {
    "0123456789"[d]
  }

  function NatToString(n: nat): (r: string)
    ensures r != ""
  {
    if n < 10 then [DigitChar(n)] else NatToString(n / 10) + [DigitChar(n % 10)]
  }

  /** `str(i)` for an int. */
  function IntToString(i: int): string {
    if i < 0 then "-" + NatToString(-i) else NatToString(i)
  }
}
