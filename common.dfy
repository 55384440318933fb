/** Small value types shared by the rest of the model: Python's `None`-or-value
    results, exceptions as a `Result`, Python truthiness of optional strings and
    the decimal rendering `str()` gives to a numeric id. */
module Common {

  datatype Option<+T> = None | Some(value: T)

  datatype Result<+R, +E> = Success(value: R) | Failure(error: E)

  /** Python truthiness of a value that is either `None` or a string:
      both `None` and `""` are falsy. */
  predicate Truthy(o: Option<string>)
  {
    o.Some? && o.value != ""
  }

  function Digit(d: nat): (c: char)
    requires d < 10
    ensures '0' <= c <= '9'
  {
    "0123456789"[d]
  }

  /** `str(n)` for a non-negative integer: its decimal digits, most significant first. */
  function IdKey(n: nat): (s: string)
    ensures |s| > 0
    ensures forall i :: 0 <= i < |s| ==> '0' <= s[i] <= '9'
    ensures |s| == 1 <==> n < 10
  {
    if n < 10 then [Digit(n)] else IdKey(n / 10) + [Digit(n % 10)]
  }

  /** The number a string of decimal digits denotes, most significant first. */
  function DigitsValue(s: string): nat
    requires forall i :: 0 <= i < |s| ==> '0' <= s[i] <= '9'
  {
    if |s| == 0 then 0 else 10 * DigitsValue(s[..|s| - 1]) + (s[|s| - 1] as int - '0' as int)
  }

  /** The digits of `str(n)` denote `n`. */
  lemma {:induction false} IdKeyValue(n: nat)
    ensures DigitsValue(IdKey(n)) == n
  {
    if n >= 10 {
      IdKeyValue(n / 10);
      var s := IdKey(n);
      assert s[..|s| - 1] == IdKey(n / 10);
    }
  }

  /** Distinct subject ids get distinct cache keys. */
  lemma IdKeyInjective(m: nat, n: nat)
    ensures IdKey(m) == IdKey(n) ==> m == n
  {
    IdKeyValue(m);
    IdKeyValue(n);
  }
}
