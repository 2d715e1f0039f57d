/** The string operations of the .NET base library that the controllers call:
    `string.Trim`, `string.ToLower`, `Convert.ToInt32(string)` and `Path.GetExtension`. */
module ClrText {
  import opened Common
  import opened Clr

  /** `char.IsWhiteSpace`: the Unicode White_Space characters. */
  predicate IsWhiteSpace(c: char) {
    ('\U{0009}' <= c <= '\U{000D}') || c == ' ' || c == '\U{0085}' || c == '\U{00A0}'
    || c == '\U{1680}' || ('\U{2000}' <= c <= '\U{200A}') || c == '\U{2028}'
    || c == '\U{2029}' || c == '\U{202F}' || c == '\U{205F}' || c == '\U{3000}'
  }

  /** The white space that `NumberStyles.Integer` lets surround a number. */
  predicate IsNumberWhite(c: char) {
    ('\U{0009}' <= c <= '\U{000D}') || c == ' '
  }

  predicate AllSatisfy(s: string, p: char -> bool) {
    forall k :: 0 <= k < |s| ==> p(s[k])
  }

  /** Drops the leading characters that satisfy `p`. */
  function TrimStartBy(s: string, p: char -> bool): string {
    if s != [] && p(s[0]) then TrimStartBy(s[1..], p) else s
  }

  /** Drops the trailing characters that satisfy `p`. */
  function TrimEndBy(s: string, p: char -> bool): string {
    if s != [] && p(s[|s| - 1]) then TrimEndBy(s[..|s| - 1], p) else s
  }

  /** What `TrimStartBy` keeps is a suffix, what it drops all satisfies `p`, and it stops at the
      first character that does not. */
  lemma {:induction false} TrimStartBySpec(s: string, p: char -> bool)
    ensures var r := TrimStartBy(s, p);
      && |r| <= |s| && r == s[|s| - |r|..]
      && AllSatisfy(s[..|s| - |r|], p)
      && (r == [] || !p(r[0]))
  {
    if s != [] && p(s[0]) {
      TrimStartBySpec(s[1..], p);
      var r := TrimStartBy(s[1..], p);
      assert s[1..][..|s[1..]| - |r|] == s[1..|s| - |r|];
    }
  }

  /** What `TrimEndBy` keeps is a prefix, what it drops all satisfies `p`, and it stops at the
      last character that does not. */
  lemma {:induction false} TrimEndBySpec(s: string, p: char -> bool)
    ensures var r := TrimEndBy(s, p);
      && |r| <= |s| && r == s[..|r|]
      && AllSatisfy(s[|r|..], p)
      && (r == [] || !p(r[|r| - 1]))
  {
    if s != [] && p(s[|s| - 1]) {
      TrimEndBySpec(s[..|s| - 1], p);
      var r := TrimEndBy(s[..|s| - 1], p);
      assert s[..|s| - 1][|r|..] == s[|r|..|s| - 1];
      assert s[|r|..] == s[|r|..|s| - 1] + [s[|s| - 1]];
    }
  }

  /** `string.Trim()` */
  function Trim(s: string): string {
    TrimEndBy(TrimStartBy(s, IsWhiteSpace), IsWhiteSpace)
  }

  function LowerChar(c: char): char {
    if 'A' <= c <= 'Z' then (c as int + 32) as char else c
  }

  /** `string.ToLower()`, letter by letter, for the Latin capitals. */
  function ToLower(s: string): string {
    if s == [] then [] else [LowerChar(s[0])] + ToLower(s[1..])
  }

  /** `ToLower` maps every character on its own. */
  lemma {:induction false} ToLowerSpec(s: string)
    ensures |ToLower(s)| == |s|
    ensures forall k :: 0 <= k < |s| ==> ToLower(s)[k] == LowerChar(s[k])
  {
    if s != [] {
      ToLowerSpec(s[1..]);
      assert forall k :: 1 <= k < |s| ==> ToLower(s)[k] == ToLower(s[1..])[k - 1];
    }
  }

  lemma {:induction false} ToLowerAppend(a: string, b: string)
    ensures ToLower(a + b) == ToLower(a) + ToLower(b)
  {
    var l, la, lb := ToLower(a + b), ToLower(a), ToLower(b);
    ToLowerSpec(a + b);
    ToLowerSpec(a);
    ToLowerSpec(b);
    assert |l| == |la + lb|;
    forall k | 0 <= k < |l| ensures l[k] == (la + lb)[k] {
      if k < |a| { assert (a + b)[k] == a[k]; } else { assert (a + b)[k] == b[k - |a|]; }
    }
  }

  /** The test `!string.IsNullOrEmpty(type) && type.ToLower().Trim() == "csv"`. */
  predicate IsCsvType(t: NString) {
    !IsNullOrEmpty(t) && Trim(ToLower(t.value)) == "csv"
  }

  /** A type is accepted exactly when it is "csv", in any mix of letter case, with any white
      space around it. This lemma and the next give both directions. */
  lemma CsvTypeHasCsvCore(s: string)
    requires IsCsvType(Some(s))
    ensures exists i, j :: 0 <= i <= j <= |s| && AllSatisfy(s[..i], IsWhiteSpace)
                           && AllSatisfy(s[j..], IsWhiteSpace) && ToLower(s[i..j]) == "csv"
  {
    var l := ToLower(s);
    ToLowerSpec(s);
    var a := TrimStartBy(l, IsWhiteSpace);
    TrimStartBySpec(l, IsWhiteSpace);
    var i := |l| - |a|;
    var b := TrimEndBy(a, IsWhiteSpace);
    TrimEndBySpec(a, IsWhiteSpace);
    var j := i + |b|;
    assert l[i..] == a && a[..|b|] == b;
    assert l[i..j] == b by { assert l[i..j] == l[i..][..|b|]; }
    forall k | 0 <= k < i ensures IsWhiteSpace(s[..i][k]) {
      assert IsWhiteSpace(l[..i][k]);
    }
    forall k | 0 <= k < |s| - j ensures IsWhiteSpace(s[j..][k]) {
      assert a[|b|..][k] == l[j..][k];
      assert IsWhiteSpace(a[|b|..][k]);
    }
    ToLowerSpec(s[i..j]);
    assert ToLower(s[i..j]) == l[i..j];
  }

  lemma {:induction false} TrimStartOverWhite(p: string, rest: string)
    requires AllSatisfy(p, IsWhiteSpace)
    requires rest != [] && !IsWhiteSpace(rest[0])
    ensures TrimStartBy(p + rest, IsWhiteSpace) == rest
  {
    if p != [] {
      assert (p + rest)[1..] == p[1..] + rest;
      TrimStartOverWhite(p[1..], rest);
    } else {
      assert p + rest == rest;
    }
  }

  lemma {:induction false} TrimEndOverWhite(rest: string, q: string)
    requires AllSatisfy(q, IsWhiteSpace)
    requires rest != [] && !IsWhiteSpace(rest[|rest| - 1])
    ensures TrimEndBy(rest + q, IsWhiteSpace) == rest
  {
    if q != [] {
      assert (rest + q)[..|rest + q| - 1] == rest + q[..|q| - 1];
      TrimEndOverWhite(rest, q[..|q| - 1]);
    } else {
      assert rest + q == rest;
    }
  }

  lemma LowerKeepsWhite(s: string)
    requires AllSatisfy(s, IsWhiteSpace)
    ensures AllSatisfy(ToLower(s), IsWhiteSpace)
  {
    ToLowerSpec(s);
  }

  lemma AppendAssoc(a: string, b: string, c: string)
    ensures (a + b) + c == a + (b + c)
  {
  }

  lemma LowerOfPadded(p: string, core: string, q: string)
    requires ToLower(core) == "csv"
    ensures ToLower(p + core + q) == ToLower(p) + ("csv" + ToLower(q))
  {
    ToLowerAppend(p + core, q);
    ToLowerAppend(p, core);
    AppendAssoc(ToLower(p), "csv", ToLower(q));
  }

  lemma TrimPaddedCsv(lp: string, lq: string)
    requires AllSatisfy(lp, IsWhiteSpace) && AllSatisfy(lq, IsWhiteSpace)
    ensures Trim(lp + ("csv" + lq)) == "csv"
  {
    TrimStartOverWhite(lp, "csv" + lq);
    TrimEndOverWhite("csv", lq);
  }

  lemma CsvCoreIsCsvType(p: string, core: string, q: string)
    requires AllSatisfy(p, IsWhiteSpace) && AllSatisfy(q, IsWhiteSpace)
    requires ToLower(core) == "csv"
    ensures IsCsvType(Some(p + core + q))
  {
    LowerOfPadded(p, core, q);
    LowerKeepsWhite(p);
    LowerKeepsWhite(q);
    TrimPaddedCsv(ToLower(p), ToLower(q));
    assert |ToLower(core)| == 3;
  }

  // ---- Convert.ToInt32(string) ----------------------------------------------------------

  predicate IsDigit(c: char) { '0' <= c <= '9' }

  /** The value of a run of decimal digits. */
  function DigitsValue(ds: string): nat
    requires AllSatisfy(ds, IsDigit)
  {
    if ds == [] then 0
    else DigitsValue(ds[..|ds| - 1]) * 10 + (ds[|ds| - 1] as int - '0' as int)
  }

  const Int32Min := -0x8000_0000
  const Int32Max := 0x7FFF_FFFF

  /** `Convert.ToInt32(s)` for a non-null `s`: `Int32.Parse` with `NumberStyles.Integer`,
      i.e. optional surrounding white space, an optional sign and at least one digit. */
  function ToInt32(s: string): (r: Result<int, Exn>)
    ensures r.Success? ==> Int32Min <= r.value <= Int32Max
    ensures r.Failure? ==> r.error in {FormatError(Int32FormatMessage), Overflow}
  {
    var t := TrimEndBy(TrimStartBy(s, IsNumberWhite), IsNumberWhite);
    var negative := t != [] && t[0] == '-';
    var body := if t != [] && (t[0] == '-' || t[0] == '+') then t[1..] else t;
    if body == [] || !AllSatisfy(body, IsDigit) then Failure(FormatError(Int32FormatMessage))
    else
      var magnitude: int := DigitsValue(body);
      var v := if negative then -magnitude else magnitude;
      if v < Int32Min || v > Int32Max then Failure(Overflow) else Success(v)
  }

  function DigitChar(d: nat): char
    requires d < 10
  {
    ('0' as int + d) as char
  }

  /** `n.ToString()` for a non-negative integer: its shortest decimal digits. */
  function NatText(n: nat): (r: string)
    ensures r != [] && AllSatisfy(r, IsDigit)
  {
    if n < 10 then [DigitChar(n)] else NatText(n / 10) + [DigitChar(n % 10)]
  }

  /** `n.ToString()` for an `int`. */
  function IntText(n: int): string {
    if n < 0 then "-" + NatText(-n) else NatText(n)
  }

  lemma {:induction false} NatTextValue(n: nat)
    ensures DigitsValue(NatText(n)) == n
  {
    if n >= 10 {
      NatTextValue(n / 10);
      var t := NatText(n);
      assert t[..|t| - 1] == NatText(n / 10);
    }
  }

  /** Formatting an Int32 and converting it back gives the same number. */
  lemma ToInt32OfIntText(n: int)
    requires Int32Min <= n <= Int32Max
    ensures ToInt32(IntText(n)) == Success(n)
  {
    var s := IntText(n);
    var m: nat := if n < 0 then -n else n;
    NatTextValue(m);
    var ds := NatText(m);
    assert s == (if n < 0 then "-" else "") + ds;
    assert !IsNumberWhite(s[0]) && !IsNumberWhite(s[|s| - 1]);
    assert TrimStartBy(s, IsNumberWhite) == s;
    assert TrimEndBy(s, IsNumberWhite) == s;
    if n < 0 { assert s[1..] == ds; }
  }

  // ---- Path.GetExtension(string) --------------------------------------------------------

  /** The directory separator of .NET on Linux, where the web apps run: only '/' ends the scan. */
  predicate IsDirectorySeparator(c: char) {
    c == '/'
  }

  predicate NoDotNorSeparator(s: string, from: int) {
    forall k :: 0 <= from <= k < |s| ==> s[k] != '.' && !IsDirectorySeparator(s[k])
  }

  /** The scan of `Path.GetExtension` from position `i - 1` down to 0. */
  function ExtensionFrom(path: string, i: nat): (r: string)
    requires i <= |path|
    requires NoDotNorSeparator(path, i)
    ensures r == [] || (2 <= |r| <= |path| && r[0] == '.' && r == path[|path| - |r|..]
                        && NoDotNorSeparator(path, |path| - |r| + 1))
    ensures forall j :: (0 <= j < i && j < |path| - 1 && path[j] == '.'
                         && NoDotNorSeparator(path, j + 1)) ==> r == path[j..]
    decreases i
  {
    if i == 0 then ""
    else if path[i - 1] == '.' then (if i != |path| then path[i - 1..] else "")
    else if IsDirectorySeparator(path[i - 1]) then ""
    else ExtensionFrom(path, i - 1)
  }

  /** `Path.GetExtension(path)` for a non-null path: the last '.' of the last path segment
      and what follows it, or "" when there is none or it ends the path. */
  function GetExtension(path: string): string {
    ExtensionFrom(path, |path|)
  }
}
