/**
 * Python truthiness of the optional values a lead dictionary holds.
 * `d.get(k)` is `None` when the key is missing or holds None; a string is
 * truthy when it is not empty, a number when it is not zero.
 */
module Values {
  import opened Wrappers

  predicate TruthyText(o: Option<string>) {
    o.Some? && o.value != ""
  }

  predicate TruthyInt(o: Option<int>) {
    o.Some? && o.value != 0
  }

  predicate TruthyReal(o: Option<real>) {
    o.Some? && o.value != 0.0
  }

  /** Python's `a or b` on optional strings: the first operand when truthy, else the second. */
  function OrText(a: Option<string>, b: Option<string>): (r: Option<string>)
    ensures TruthyText(r) <==> TruthyText(a) || TruthyText(b)
    ensures TruthyText(a) ==> r == a
    ensures !TruthyText(a) ==> r == b
  {
    if TruthyText(a) then a else b
  }

  /** Python's `a or b` on optional integers. */
  function OrInt(a: Option<int>, b: Option<int>): (r: Option<int>)
    ensures TruthyInt(r) <==> TruthyInt(a) || TruthyInt(b)
    ensures TruthyInt(a) ==> r == a
    ensures !TruthyInt(a) ==> r == b
  {
    if TruthyInt(a) then a else b
  }
}
