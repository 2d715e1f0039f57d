/** `System.Guid`, seen through its text form. A Guid is the 32 hexadecimal digits that
    `ToString()` prints, in the order it prints them (the byte layout behind them is not
    part of this model). */
module ClrGuid {
  import opened Common

  predicate IsNibbles(s: seq<int>) {
    |s| == 32 && forall i :: 0 <= i < |s| ==> 0 <= s[i] < 16
  }

  type Guid = s: seq<int> | IsNibbles(s) witness seq(32, i => 0)

  /** `Guid.Empty`, the value of a Guid field nobody assigned. */
  const Empty: Guid := [0, 0, 0, 0, 0, 0, 0, 0, 0, 0, 0, 0, 0, 0, 0, 0,
                        0, 0, 0, 0, 0, 0, 0, 0, 0, 0, 0, 0, 0, 0, 0, 0]

  const HexDigits := "0123456789abcdef"

  function HexChar(d: int): char
    requires 0 <= d < 16
  {
    HexDigits[d]
  }

  predicate IsLowerHex(c: char) {
    ('0' <= c <= '9') || ('a' <= c <= 'f')
  }

  function HexValue(c: char): (d: int)
    requires IsLowerHex(c)
    ensures 0 <= d < 16
  {
    if c <= '9' then c as int - '0' as int else c as int - 'a' as int + 10
  }

  /** The positions of the four hyphens of the "D" format, 8-4-4-4-12. */
  predicate IsHyphenPosition(k: int) {
    k == 8 || k == 13 || k == 18 || k == 23
  }

  /** Which digit of the Guid the text shows at position `k`. */
  function DigitAt(k: int): int
    requires 0 <= k < 36 && !IsHyphenPosition(k)
  {
    if k < 8 then k else if k < 13 then k - 1 else if k < 18 then k - 2
    else if k < 23 then k - 3 else k - 4
  }

  /** Where the text shows digit `i` of the Guid. */
  function PositionOf(i: int): int
    requires 0 <= i < 32
  {
    if i < 8 then i else if i < 12 then i + 1 else if i < 16 then i + 2
    else if i < 20 then i + 3 else i + 4
  }

  /** `Guid.ToString()`: the "D" format, lower-case hexadecimal in groups of 8-4-4-4-12. */
  function Format(g: Guid): (s: string)
    ensures |s| == 36
  {
    seq(36, k requires 0 <= k < 36 => if IsHyphenPosition(k) then '-' else HexChar(g[DigitAt(k)]))
  }

  /** The text of a Guid as `ToString()` prints it. */
  predicate IsCanonical(s: string) {
    |s| == 36 && forall k :: 0 <= k < 36 ==> if IsHyphenPosition(k) then s[k] == '-' else IsLowerHex(s[k])
  }

  /** Reads back the text `Format` prints; the inverse that shows no two Guids share a text. */
  function ReadCanonical(s: string): (r: Option<Guid>)
    ensures r.Some? <==> IsCanonical(s)
  {
    if IsCanonical(s) then
      Some(seq(32, i requires 0 <= i < 32 => HexValue(s[PositionOf(i)])))
    else None
  }

  /** What is sent as a job id is always well-formed. */
  lemma FormatIsCanonical(g: Guid)
    ensures IsCanonical(Format(g))
  {
    var s := Format(g);
    forall k | 0 <= k < 36
      ensures if IsHyphenPosition(k) then s[k] == '-' else IsLowerHex(s[k])
    {
      if !IsHyphenPosition(k) {
        var d := g[DigitAt(k)];
        assert s[k] == HexDigits[d];
      }
    }
  }

  lemma HexRoundTrip(d: int)
    requires 0 <= d < 16
    ensures IsLowerHex(HexChar(d)) && HexValue(HexChar(d)) == d
  {
  }

  /** Reading back what `Format` prints gives the same Guid. */
  lemma ReadFormat(g: Guid)
    ensures ReadCanonical(Format(g)) == Some(g)
  {
    FormatIsCanonical(g);
    var s := Format(g);
    var r := ReadCanonical(s).value;
    forall i | 0 <= i < 32 ensures r[i] == g[i] {
      var k := PositionOf(i);
      assert !IsHyphenPosition(k) && DigitAt(k) == i;
      assert s[k] == HexChar(g[i]);
      HexRoundTrip(g[i]);
    }
    assert |r| == |g|;
    assert r == g;
  }

  /** Two Guids print the same only if they are the same. */
  lemma FormatInjective(g: Guid, h: Guid)
    ensures Format(g) == Format(h) ==> g == h
  {
    ReadFormat(g);
    ReadFormat(h);
  }

  lemma HexCharOfValue(c: char)
    requires IsLowerHex(c)
    ensures HexChar(HexValue(c)) == c
  {
  }

  /** Printing what was read from a canonical text gives that text back: the canonical texts
      are exactly the printed ones. */
  lemma FormatRead(s: string)
    requires IsCanonical(s)
    ensures Format(ReadCanonical(s).value) == s
  {
    var g := ReadCanonical(s).value;
    var t := Format(g);
    forall k | 0 <= k < 36 ensures t[k] == s[k] {
      if !IsHyphenPosition(k) {
        var i := DigitAt(k);
        assert PositionOf(i) == k;
        assert g[i] == HexValue(s[k]);
        HexCharOfValue(s[k]);
      }
    }
  }
}
