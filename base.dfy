/** Value types shared by every module of the model: nullable values,
    partial-update fields and the HTTP answers of the route handlers. */
module Base {

  /** A UUID column or path parameter. Identifiers come from `uuid4`, which
      is outside the model, so any natural number may be one. */
  type Uuid = nat

  /** A nullable column, form field or JSON value (`None` is SQL NULL or JSON null). */
  datatype Option<T> = None | Some(value: T)

  /** One field of a partial-update body after `dict(exclude_unset=True)`:
      left out of the request (`Unset`), or supplied (`Set`), possibly as null. */
  datatype Opt<T> = Unset | Set(value: T)

  /** What a route handler answers: a success status with its body, or an
      error status with its `detail`. */
  datatype Response<T> = Ok(status: int, value: T) | Err(status: int, detail: string)

  /** The outcome of a guard that either lets a request through or stops it. */
  datatype Check = Pass | Fail(status: int, detail: string)

  const StatusOk := 200
  const StatusCreated := 201
  const StatusNoContent := 204
  const StatusBadRequest := 400
  const StatusForbidden := 403
  const StatusNotFound := 404
  const StatusConflict := 409
  const StatusUnprocessable := 422
  const StatusInternalError := 500

  /** Detail of a 500 answer caused by the database refusing a commit; it
      stands for the driver's message, which the model does not reproduce. */
  const DatabaseError := "database error"

  /** No two positions of `s` hold the same value. */
  predicate Distinct<T(==)>(s: seq<T>) {
    forall i, j :: 0 <= i < j < |s| ==> s[i] != s[j]
  }

  /** The set of values a list holds (Python's `set(s)`, or SQL's `IN (s)`). */
  function Elements<T>(s: seq<T>): set<T> {
    set x | x in s
  }

  /** Collapsing a list to a set never grows it, and keeps its size exactly
      when the list has no repeated value. */
  lemma {:induction false} ElementsCardinality<T>(s: seq<T>)
    ensures |Elements(s)| <= |s|
    ensures |Elements(s)| == |s| <==> Distinct(s)
  {
    if s == [] {
      assert Elements(s) == {};
    } else {
      var init, last := s[..|s| - 1], s[|s| - 1];
      ElementsCardinality(init);
      assert s == init + [last];
      assert Elements(s) == Elements(init) + {last};
      if last in init {
        assert Elements(s) == Elements(init);
        var k :| 0 <= k < |init| && init[k] == last;
        assert s[k] == s[|s| - 1];
        assert !Distinct(s);
      } else {
        assert |Elements(s)| == |Elements(init)| + 1;
        if Distinct(init) {
          forall i, j | 0 <= i < j < |s| ensures s[i] != s[j] {
            if j == |s| - 1 {
              assert s[i] == init[i];
            } else {
              assert s[i] == init[i] && s[j] == init[j];
            }
          }
        } else {
          var i, j :| 0 <= i < j < |init| && init[i] == init[j];
          assert s[i] == s[j];
        }
      }
    }
  }

  /** Counting the distinct listed values found in a table detects both a
      missing value and a repeated one: the count equals the length of the
      list exactly when the list has no repeats and every value is in the table. */
  lemma AllFoundExactly<T>(ids: seq<T>, table: set<T>)
    ensures |Elements(ids) * table| == |ids| <==>
            (Distinct(ids) && forall i :: 0 <= i < |ids| ==> ids[i] in table)
  {
    var s := Elements(ids);
    ElementsCardinality(ids);
    assert s == (s * table) + (s - table);
    assert |s| == |s * table| + |s - table|;
    if |s * table| == |ids| {
      assert |s| == |ids|;
      assert |s - table| == 0;
      forall i | 0 <= i < |ids| ensures ids[i] in table {
        assert ids[i] in s;
      }
    }
    if Distinct(ids) && forall i :: 0 <= i < |ids| ==> ids[i] in table {
      assert s <= table;
      assert s * table == s;
    }
  }
}
