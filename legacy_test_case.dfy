/** The older test-case base class at the repository root (test_case.py): the
    same result recording, and a `result_handler` that always applies the
    limits and knows no error or success row. */
module LegacyTestCases {
  import opened PyValue
  import opened TestCases

  class TestCase {
    var results: seq<(string, Value)>

    ghost predicate Valid()
      reads this
    {
      DistinctKeys(results)
    }

    constructor ()
      ensures Valid() && results == []
    {
      results := [];
    }

    /** `new_result(name, result)`: stores or overwrites one measurement. */
    method NewResult(name: string, measurement: Value)
      requires Valid()
      modifies this
      ensures Valid()
      ensures results == Put(old(results), name, measurement)
      ensures Get(results, name) == Some(measurement)
      ensures forall k :: k != name ==> Get(results, k) == Get(old(results), k)
    {
      results := Put(results, name, measurement);
      forall k ensures Get(results, k) == if k == name then Some(measurement) else Get(old(results), k) {
        PutGet(old(results), name, measurement, k);
      }
    }

    /** `result_handler(limits)`: one row per recorded measurement, the limit
        applied to it; no measurements give an empty table. */
    method ResultHandler(limits: map<string, Limit>)
      returns (r: Result<seq<(string, Row)>, PyError>)
      requires Valid()
      ensures results == [] ==> r == Ok([])
      ensures r.Ok? <==> forall i :: 0 <= i < |results| ==> RowOk(limits, results[i])
      ensures r.Ok? ==>
                (Keys(r.value) == Keys(results) &&
                 forall i :: 0 <= i < |results| ==>
                   Ok(r.value[i].1) == LimitRow(limits[results[i].0], results[i].1))
      ensures r.Err? ==>
                exists i :: 0 <= i < |results| && !RowOk(limits, results[i]) && r.error == RowError(limits, results[i])
    {
      r := ApplyLimits(results, limits);
    }
  }
}
