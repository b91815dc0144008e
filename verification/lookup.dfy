/**
 * The first-match lookup the stores use: `findOne` and `findOneAndUpdate` with an equality
 * filter on one field address the first matching document in natural order.
 */
module Lookup {
  import opened Wrappers

  /** The index of the first element whose `field` equals `key`, or None when no element has it. */
  function FirstWith<T>(xs: seq<T>, field: T -> string, key: string): (r: Option<nat>)
    ensures r.Some? ==> r.value < |xs| && field(xs[r.value]) == key
                        && forall j :: 0 <= j < r.value ==> field(xs[j]) != key
    ensures r.None? ==> forall j :: 0 <= j < |xs| ==> field(xs[j]) != key
  {
    if |xs| == 0 then None
    else if field(xs[0]) == key then Some(0)
    else match FirstWith(xs[1..], field, key)
      case None => None
      case Some(k) => Some(k + 1)
  }
}
