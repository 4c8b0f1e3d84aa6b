/** The few string operations the metadata file needs: Python's `str()` of an
    integer, `int()` of a plain signed decimal, `str.strip()`, `str.lower()`
    on ASCII, and `str.split('=', 1)`. */
module Text {
  import opened Common

  predicate IsDigit(c: char)
  {
    '0' <= c <= '9'
  }

  predicate AllDigits(s: string)
  {
    forall i | 0 <= i < |s| :: IsDigit(s[i])
  }

  function DigitChar(d: nat): (c: char)
    requires d < 10
    ensures IsDigit(c)
  {
    ('0' as int + d) as char
  }

  /** The decimal digits of `n`, most significant first, without leading zeros. */
  function NatDigits(n: nat): (s: string)
    ensures |s| >= 1 && AllDigits(s)
    ensures n > 0 ==> s[0] != '0'
    decreases n
  {
    if n < 10 then [DigitChar(n)]
    else
      var p := NatDigits(n / 10);
      p + [DigitChar(n % 10)]
  }

  /** Python's `str(n)` (and `f'{n}'`) for an integer `n`. */
  function IntToString(n: int): string
  {
    if n < 0 then "-" + NatDigits(-n) else NatDigits(n)
  }

  function DigitsValue(s: string): nat
    requires AllDigits(s)
  {
    if s == [] then 0
    else DigitsValue(s[..|s| - 1]) * 10 + (s[|s| - 1] as int - '0' as int)
  }

  /** Python's `int(s)` on a plain signed decimal: an optional `+` or `-`
      followed by at least one digit; anything else raises `ValueError`. */
  function ParseInt(s: string): Option<int>
  {
    if |s| > 0 && (s[0] == '-' || s[0] == '+') then
      if |s| > 1 && AllDigits(s[1..]) then
        Some(if s[0] == '-' then -(DigitsValue(s[1..]) as int) else DigitsValue(s[1..]) as int)
      else None
    else if |s| > 0 && AllDigits(s) then Some(DigitsValue(s))
    else None
  }

  lemma {:induction false} NatDigitsValue(n: nat)
    ensures DigitsValue(NatDigits(n)) == n
    decreases n
  {
    if n >= 10 {
      var p := NatDigits(n / 10);
      NatDigitsValue(n / 10);
      var s := p + [DigitChar(n % 10)];
      assert s[..|s| - 1] == p;
    }
  }

  /** Reading back what `str()` wrote gives the same integer. */
  lemma IntRoundTrip(n: int)
    ensures ParseInt(IntToString(n)) == Some(n)
  {
    if n < 0 {
      var s := "-" + NatDigits(-n);
      assert s[1..] == NatDigits(-n);
      NatDigitsValue(-n);
    } else {
      NatDigitsValue(n);
    }
  }

  /** Python's `str.isspace()` on ASCII characters. */
  predicate IsSpace(c: char)
  {
    ('\t' <= c <= '\r') || (28 <= c as int <= 32)
  }

  function TrimLeft(s: string): (r: string)
    ensures |r| <= |s|
  {
    if s != [] && IsSpace(s[0]) then TrimLeft(s[1..]) else s
  }

  function TrimRight(s: string): (r: string)
    ensures |r| <= |s|
  {
    if s != [] && IsSpace(s[|s| - 1]) then TrimRight(s[..|s| - 1]) else s
  }

  /** Python's `str.strip()` for ASCII whitespace. */
  function Strip(s: string): string
  {
    TrimRight(TrimLeft(s))
  }

  /** Python's `str.lower()` on ASCII letters. */
  function Lower(s: string): (r: string)
    ensures |r| == |s|
  {
    if s == [] then []
    else [if 'A' <= s[0] <= 'Z' then (s[0] as int + 32) as char else s[0]] + Lower(s[1..])
  }

  /** The index of the first `c` in `s`, if any. */
  function Find(s: string, c: char): (r: Option<nat>)
    ensures r.Some? ==> r.value < |s| && s[r.value] == c
                        && forall i | 0 <= i < r.value :: s[i] != c
    ensures r.None? ==> forall i | 0 <= i < |s| :: s[i] != c
  {
    if s == [] then None
    else if s[0] == c then Some(0)
    else match Find(s[1..], c)
      case None => None
      case Some(i) => Some(i + 1)
  }

  /** `line.split('=', 1)` when `'=' in line`: the text before the first
      `=` and the text after it. */
  function SplitAtEquals(line: string): (r: Option<(string, string)>)
    ensures r.None? <==> '=' !in line
    ensures r.Some? ==> line == r.value.0 + "=" + r.value.1 && '=' !in r.value.0
  {
    match Find(line, '=')
    case None => None
    case Some(i) =>
      assert line == line[..i] + "=" + line[i + 1..];
      Some((line[..i], line[i + 1..]))
  }

  lemma StripUnchanged(s: string)
    requires s != [] && !IsSpace(s[0]) && !IsSpace(s[|s| - 1])
    ensures Strip(s) == s
  {
  }

  /** A line `key=value` whose key holds no `=` and whose ends are not
      whitespace splits back into its key and value. */
  lemma KeyValueSplit(key: string, value: string)
    requires key != [] && '=' !in key && !IsSpace(key[0])
    requires value != [] && !IsSpace(value[|value| - 1])
    ensures SplitAtEquals(Strip(key + "=" + value)) == Some((key, value))
  {
    var line := key + "=" + value;
    StripUnchanged(line);
    var r := SplitAtEquals(line);
    assert line[|key|] == '=';
    assert r.Some?;
    assert |r.value.0| == |key|;
    assert r.value.0 == line[..|key|] == key;
    assert r.value.1 == line[|key| + 1..] == value;
  }

  /** `str(n)` never reads as a boolean: it has no letters. */
  lemma IntStringNotBool(n: int)
    ensures Lower(IntToString(n)) != "true" && Lower(IntToString(n)) != "false"
  {
    var s := IntToString(n);
    assert s[0] == '-' || IsDigit(s[0]);
    assert Lower(s)[0] == s[0];
  }

  lemma BoolStrings()
    ensures Lower("True") == "true" && Lower("False") == "false"
  {
  }
}
