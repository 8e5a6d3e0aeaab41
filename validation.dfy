/** `verify_location_data`: the check the front end runs before saving a
    location. Only the required fields are checked: the name must be present,
    and x and y must be present and be integer strings. */
module Validation {
  import opened Wrappers
  import Numerals

  function VerifyLocationData(name: Option<string>, x: Option<string>, y: Option<string>): (ok: bool)
    ensures ok <==> name.Some? && x.Some? && y.Some? && Numerals.IsIntString(x.value) && Numerals.IsIntString(y.value)
  {
    if name.None? || x.None? || y.None? then false
    else Numerals.ParseInt(x.value).Some? && Numerals.ParseInt(y.value).Some?
  }

  /** Every integer pair written out in decimal passes verification, and
      then converts back to exactly that pair. */
  lemma VerifyAcceptsPrintedIntegers(name: string, a: int, b: int)
    ensures VerifyLocationData(Some(name), Some(Numerals.IntToString(a)), Some(Numerals.IntToString(b)))
    ensures Numerals.ParseInt(Numerals.IntToString(a)) == Some(a)
    ensures Numerals.ParseInt(Numerals.IntToString(b)) == Some(b)
  {
    Numerals.ParseIntToString(a);
    Numerals.ParseIntToString(b);
  }
}
