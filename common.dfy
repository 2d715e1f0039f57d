/** Option and Result, and the nullable strings that MVC model binding hands to the
    controllers (a form field that is absent arrives as null). */
module Common {

  datatype Option<+T> = None | Some(value: T)

  datatype Result<+T, +E> = Success(value: T) | Failure(error: E) {
    predicate IsFailure() { Failure? }
    function PropagateFailure<U>(): Result<U, E>
      requires Failure?
    {
      Failure(error)
    }
    function Extract(): T
      requires Success?
    {
      value
    }
  }

  /** A .NET `string`, which may be null. */
  type NString = Option<string>

  /** `string.IsNullOrEmpty(s)` */
  predicate IsNullOrEmpty(s: NString) {
    s == None || s == Some("")
  }

  /** The characters of a string, null reading as empty, which is what `+` on strings does. */
  function Chars(s: NString): string {
    match s
    case None => ""
    case Some(t) => t
  }

  /** `a + b` on .NET strings: a null operand contributes nothing. */
  function Concat(a: NString, b: NString): string {
    Chars(a) + Chars(b)
  }

  /** `if (string.IsNullOrEmpty(x)) x = fallback;` */
  function DefaultIfNullOrEmpty(x: NString, fallback: NString): (r: NString)
    ensures IsNullOrEmpty(x) ==> r == fallback
    ensures !IsNullOrEmpty(x) ==> r == x
  {
    if IsNullOrEmpty(x) then fallback else x
  }

  /** `if (string.IsNullOrEmpty(s)) s = string.Empty;`: the string, never null. */
  function EmptyIfNullOrEmpty(s: NString): (r: string)
    ensures IsNullOrEmpty(s) <==> r == ""
    ensures !IsNullOrEmpty(s) ==> s == Some(r)
  {
    if IsNullOrEmpty(s) then "" else s.value
  }

  predicate StartsWith(s: string, prefix: string) {
    |prefix| <= |s| && s[..|prefix|] == prefix
  }
}
