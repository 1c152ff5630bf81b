/** The two things the services rely on from the ORM: `Where(..).First(..)` over a
    table kept in primary-key order, and the errors a query can report. */
module Gorm {
  import opened Wrappers

  /** `RecordNotFound` is gorm's `ErrRecordNotFound`; `ConnectionError` stands for
      every other driver or database failure. */
  datatype DbError = RecordNotFound | ConnectionError

  /** Position of the row `Where(p).First(..)` returns: the first row satisfying `p`. */
  function First<T>(rows: seq<T>, p: T -> bool): (r: Option<nat>)
    ensures r.Some? ==> r.value < |rows| && p(rows[r.value])
    ensures r.Some? ==> forall j :: 0 <= j < r.value ==> !p(rows[j])
    ensures r.None? <==> forall j :: 0 <= j < |rows| ==> !p(rows[j])
  {
    if |rows| == 0 then None
    else if p(rows[0]) then Some(0)
    else match First(rows[1..], p)
      case None => None
      case Some(i) => Some(i + 1)
  }
}
