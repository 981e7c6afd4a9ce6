/** Small value types and string helpers shared by every module of the model. */
module Common {

  /** A value that may be absent (`undefined` / `null` in the original code). */
  datatype Option<+T> = None | Some(value: T)

  /** The result of a step that either yields a value or fails with an error message. */
  datatype Outcome<+T> = Success(value: T) | Failure(error: string)

  /**
   * A field read from a JSON request body or a form: absent, a string, or a
   * value of some other JSON type (number, boolean, object, null). For the
   * last kind only its JavaScript truthiness matters to the handlers.
   */
  datatype JsonField = Missing | Text(s: string) | OtherValue(truthy: bool)

  /** JavaScript truthiness of a request field. */
  predicate Truthy(f: JsonField)
  {
    match f
    case Missing => false
    case Text(s) => s != ""
    case OtherValue(t) => t
  }

  /** JavaScript truthiness of an optional string. */
  predicate Present(o: Option<string>)
  {
    o.Some? && o.value != ""
  }

  /** `s.startsWith(prefix)` */
  predicate StartsWith(s: string, prefix: string)
  {
    |prefix| <= |s| && s[..|prefix|] == prefix
  }

  lemma StartsWithExtend(s: string, prefix: string, suffix: string)
    requires StartsWith(s, prefix)
    ensures StartsWith(s + suffix, prefix)
  {
    assert (s + suffix)[..|prefix|] == s[..|prefix|];
  }

  lemma StartsWithConcat(prefix: string, rest: string)
    ensures StartsWith(prefix + rest, prefix)
  {
    assert (prefix + rest)[..|prefix|] == prefix;
  }

  predicate IsDigit(c: char)
  {
    '0' <= c <= '9'
  }

  function DigitChar(d: nat): (c: char)
    requires d < 10
    ensures IsDigit(c)
  {
    ['0', '1', '2', '3', '4', '5', '6', '7', '8', '9'][d]
  }

  /** Decimal rendering of a natural number, as `String(n)` gives it. */
  function NatToString(n: nat): (r: string)
    ensures |r| >= 1
    ensures forall i :: 0 <= i < |r| ==> IsDigit(r[i])
    ensures r[0] == '0' ==> n == 0
    decreases n
  {
    if n < 10 then [DigitChar(n)]
    else NatToString(n / 10) + [DigitChar(n % 10)]
  }

  /** Decimal rendering of an integer with a leading `-` when negative. */
  function IntToString(i: int): (r: string)
    ensures |r| >= 1
    ensures i < 0 <==> r[0] == '-'
  {
    if i < 0 then "-" + NatToString(-i) else NatToString(i)
  }
}
