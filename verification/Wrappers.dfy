/** The optional values and error returns used by every other module, and a lookup in a table. */
module Wrappers {

  datatype Option<+T> = None | Some(value: T)

  datatype Result<+T, +E> = Ok(value: T) | Err(error: E)

  // The first row of a table that has the property.
  function FindFirst<T>(rows: seq<T>, has: T -> bool): (r: Option<T>)
    ensures r.Some? ==> r.value in rows && has(r.value)
    ensures r.None? ==> forall i :: 0 <= i < |rows| ==> !has(rows[i])
  {
    if rows == [] then None
    else
      var earlier := FindFirst(rows[..|rows| - 1], has);
      if earlier.Some? then earlier
      else if has(rows[|rows| - 1]) then Some(rows[|rows| - 1])
      else None
  }

  // Rows added later do not change what is found.
  lemma {:induction false} FoundStays<T>(a: seq<T>, b: seq<T>, has: T -> bool)
    requires a <= b && FindFirst(a, has).Some?
    ensures FindFirst(b, has) == FindFirst(a, has)
    decreases |b|
  {
    if a != b {
      FoundStays(a, b[..|b| - 1], has);
    }
  }
}
