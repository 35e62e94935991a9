/**
 * The two query shapes the account code runs against a table: SQLAlchemy's
 * `query.filter_by(...).one_or_none()` and `query.filter_by(...).first()`.
 * A table is a sequence of rows in storage order and a filter is a predicate
 * on one row.
 */
module Queries {
  import opened Results

  /** What `one_or_none()` sees: no row, exactly one row, or several (MultipleResultsFound). */
  datatype Match = NoRow | OneRow(index: nat) | ManyRows

  /** `one_or_none()`. */
  function OneOrNone<T>(rows: seq<T>, p: T -> bool): (m: Match)
    ensures m.NoRow? <==> forall i :: 0 <= i < |rows| ==> !p(rows[i])
    ensures m.OneRow? ==> m.index < |rows| && p(rows[m.index])
    ensures m.OneRow? ==> forall j :: 0 <= j < |rows| && j != m.index ==> !p(rows[j])
    ensures m.ManyRows? <==> exists i, j :: 0 <= i < j < |rows| && p(rows[i]) && p(rows[j])
  {
    if rows == [] then NoRow
    else
      var rest := OneOrNone(rows[1..], p);
      if !p(rows[0]) then
        match rest
        case NoRow => NoRow
        case OneRow(i) =>
          assert forall j :: 1 <= j < |rows| && j != i + 1 ==> rows[j] == rows[1..][j - 1];
          OneRow(i + 1)
        case ManyRows =>
          var i, j :| 0 <= i < j < |rows[1..]| && p(rows[1..][i]) && p(rows[1..][j]);
          assert p(rows[i + 1]) && p(rows[j + 1]);
          ManyRows
      else
        match rest
        case NoRow =>
          assert forall j :: 1 <= j < |rows| ==> rows[j] == rows[1..][j - 1];
          OneRow(0)
        case OneRow(i) =>
          assert p(rows[i + 1]);
          ManyRows
        case ManyRows =>
          var i, j :| 0 <= i < j < |rows[1..]| && p(rows[1..][i]) && p(rows[1..][j]);
          assert p(rows[i + 1]);
          ManyRows
  }

  /** `first()`: the first row in storage order that passes the filter. */
  function First<T>(rows: seq<T>, p: T -> bool): (r: Option<nat>)
    ensures r.None? <==> forall i :: 0 <= i < |rows| ==> !p(rows[i])
    ensures r.Some? ==> r.value < |rows| && p(rows[r.value])
    ensures r.Some? ==> forall j :: 0 <= j < r.value ==> !p(rows[j])
  {
    if rows == [] then None
    else if p(rows[0]) then Some(0)
    else
      match First(rows[1..], p)
      case None =>
        assert forall j :: 1 <= j < |rows| ==> rows[j] == rows[1..][j - 1];
        None
      case Some(i) =>
        assert forall j :: 1 <= j < i + 1 ==> rows[j] == rows[1..][j - 1];
        Some(i + 1)
  }

  /** When the filter selects exactly one row, `first()` and `one_or_none()` agree. */
  lemma FirstAgreesWithOneOrNone<T>(rows: seq<T>, p: T -> bool)
    ensures OneOrNone(rows, p).NoRow? <==> First(rows, p).None?
    ensures OneOrNone(rows, p).OneRow? ==> First(rows, p) == Some(OneOrNone(rows, p).index)
  {
    var m, f := OneOrNone(rows, p), First(rows, p);
    if m.OneRow? {
      assert f.Some?;
      assert f.value == m.index;
    }
  }
}
