/** The base class of test cases (test_runner/test_case.py): measurements are
    recorded by name, and `result_handler` turns them into a result table by
    applying each measurement's limit. */
module TestCases {
  import opened PyValue

  /** A limit: what `inspect.getsource` gives for it (its text, or the
      exception it raises, e.g. for a builtin), and the callable applied to
      the measurement, which may raise or return something other than a bool. */
  datatype Limit = Limit(source: Result<string, PyError>, check: Value -> Result<Value, PyError>)

  /** One entry of the result table: {"limit": ..., "measurement": ..., "result": ...}. */
  datatype Row = Row(limit: Option<string>, measurement: Value, result: Value)

  /** The row `result_handler` writes for a measurement checked against its
      limit: the dict display evaluates the source text first, then the
      verdict, and the first exception is raised. */
  function LimitRow(lim: Limit, measurement: Value): (r: Result<Row, PyError>)
    ensures r.Ok? <==> lim.source.Ok? && lim.check(measurement).Ok?
    ensures r.Ok? ==> r.value == Row(Some(lim.source.value), measurement, lim.check(measurement).value)
    ensures lim.source.Err? ==> r == Err(lim.source.error)
    ensures lim.source.Ok? && lim.check(measurement).Err? ==> r == Err(lim.check(measurement).error)
  {
    match lim.source
    case Err(e) => Err(e)
    case Ok(text) =>
      match lim.check(measurement)
      case Err(e) => Err(e)
      case Ok(v) => Ok(Row(Some(text), measurement, v))
  }

  /** A measurement whose row can be written: it has a limit, and neither
      `inspect.getsource` nor the limit raises. */
  predicate RowOk(limits: map<string, Limit>, entry: (string, Value)) {
    entry.0 in limits && LimitRow(limits[entry.0], entry.1).Ok?
  }

  /** The exception raised for a measurement whose row cannot be written:
      `KeyError` for a missing limit, otherwise the limit's own. */
  function RowError(limits: map<string, Limit>, entry: (string, Value)): PyError
    requires !RowOk(limits, entry)
  {
    if entry.0 !in limits then KeyError(VStr(entry.0)) else LimitRow(limits[entry.0], entry.1).error
  }

  /** `if error:` for the optional error text. */
  predicate TruthyError(error: Option<string>) {
    error.Some? && error.value != ""
  }

  /** Applies `limits[name]` to every recorded measurement, in recording order.
      The first measurement whose row cannot be written raises: `KeyError` for
      a name without a limit, as `limits[result[0]]` does, or the exception of
      `inspect.getsource` or of the limit. */
  method ApplyLimits(results: seq<(string, Value)>, limits: map<string, Limit>)
    returns (r: Result<seq<(string, Row)>, PyError>)
    requires DistinctKeys(results)
    ensures r.Ok? <==> forall i :: 0 <= i < |results| ==> RowOk(limits, results[i])
    ensures r.Ok? ==> |r.value| == |results| && Keys(r.value) == Keys(results)
    ensures r.Ok? ==> forall i :: 0 <= i < |results| ==>
              Ok(r.value[i].1) == LimitRow(limits[results[i].0], results[i].1)
    ensures r.Err? ==>
              (exists i :: 0 <= i < |results| && !RowOk(limits, results[i]) &&
                 r.error == RowError(limits, results[i]) &&
                 forall j :: 0 <= j < i ==> RowOk(limits, results[j]))
  {
    var table: seq<(string, Row)> := [];
    for i := 0 to |results|
      invariant |table| == i
      invariant forall j :: 0 <= j < i ==> RowOk(limits, results[j])
      invariant forall j :: 0 <= j < i ==>
                  table[j].0 == results[j].0 && Ok(table[j].1) == LimitRow(limits[results[j].0], results[j].1)
    {
      var (name, measurement) := results[i];
      if name !in limits {
        return Err(KeyError(VStr(name)));
      }
      var row := LimitRow(limits[name], measurement);
      if row.Err? {
        return Err(row.error);
      }
      KeySetIndex(table, name);
      DistinctKeysIndex(results);
      table := Put(table, name, row.value);
    }
    r := Ok(table);
  }

  class TestCase {
    var results: seq<(string, Value)>

    ghost predicate Valid()
      reads this
    {
      DistinctKeys(results)
    }

    constructor ()
      ensures Valid() && results == []
    {
      results := [];
    }

    /** `new_result(name, result)`: stores or overwrites one measurement. */
    method NewResult(name: string, measurement: Value)
      requires Valid()
      modifies this
      ensures Valid()
      ensures results == Put(old(results), name, measurement)
      ensures Get(results, name) == Some(measurement)
      ensures forall k :: k != name ==> Get(results, k) == Get(old(results), k)
    {
      results := Put(results, name, measurement);
      forall k ensures Get(results, k) == if k == name then Some(measurement) else Get(old(results), k) {
        PutGet(old(results), name, measurement, k);
      }
    }

    /** `result_handler(limits, error=None)`: an error wins over everything;
        otherwise a non-empty limits dict is applied to every measurement, and
        an empty one yields a single 'Success' row. */
    method ResultHandler(limits: map<string, Limit>, error: Option<string>)
      returns (r: Result<seq<(string, Row)>, PyError>)
      requires Valid()
      ensures TruthyError(error) ==>
                r == Ok([("Error", Row(None, VStr(error.value), VBool(false)))])
      ensures !TruthyError(error) && limits == map[] ==>
                r == Ok([("Success", Row(None, VNone, VBool(true)))])
      ensures !TruthyError(error) && limits != map[] ==>
                (r.Ok? <==> forall i :: 0 <= i < |results| ==> RowOk(limits, results[i]))
      ensures !TruthyError(error) && limits != map[] && r.Ok? ==>
                (Keys(r.value) == Keys(results) &&
                 forall i :: 0 <= i < |results| ==>
                   Ok(r.value[i].1) == LimitRow(limits[results[i].0], results[i].1))
      ensures !TruthyError(error) && limits != map[] && r.Err? ==>
                exists i :: 0 <= i < |results| && !RowOk(limits, results[i]) && r.error == RowError(limits, results[i])
    {
      if TruthyError(error) {
        r := Ok([("Error", Row(None, VStr(error.value), VBool(false)))]);
      } else if limits != map[] {
        r := ApplyLimits(results, limits);
      } else {
        r := Ok([("Success", Row(None, VNone, VBool(true)))]);
      }
    }
  }
}
