/** The few Python string built-ins the capture script relies on, written out:
    `str.isspace`, `strip`/`lstrip`/`rstrip`, slicing `s[:n]` and `s[n:]`,
    `startswith`, `split` on one separator, `join`, and `str(int)`. */
module Text {

  /** Python's `str.isspace()` for a single character: the ASCII controls
      tab through carriage return, the four information separators, space,
      NEXT LINE, NO-BREAK SPACE and the Unicode space separators. */
  predicate IsSpace(c: char) {
    var n := c as int;
    (9 <= n <= 13) || (28 <= n <= 32) || n == 0x85 || n == 0xA0 || n == 0x1680
    || (0x2000 <= n <= 0x200A) || n == 0x2028 || n == 0x2029 || n == 0x202F
    || n == 0x205F || n == 0x3000
  }

  /** `s.lstrip()`: the longest suffix of `s` that does not start with whitespace. */
  function TrimStart(s: string): (r: string)
    ensures |r| <= |s| && r == s[|s| - |r|..]
    ensures r == [] || !IsSpace(r[0])
    ensures forall i :: 0 <= i < |s| - |r| ==> IsSpace(s[i])
    decreases |s|
  {
    if s != [] && IsSpace(s[0]) then TrimStart(s[1..]) else s
  }

  /** `s.rstrip()`: the longest prefix of `s` that does not end with whitespace. */
  function TrimEnd(s: string): (r: string)
    ensures |r| <= |s| && r == s[..|r|]
    ensures r == [] || !IsSpace(r[|r| - 1])
    ensures forall i :: |r| <= i < |s| ==> IsSpace(s[i])
    decreases |s|
  {
    if s != [] && IsSpace(s[|s| - 1]) then TrimEnd(s[..|s| - 1]) else s
  }

  /** `s.strip()` with no argument: whitespace removed at both ends. */
  function Strip(s: string): (r: string)
    ensures r == [] || (!IsSpace(r[0]) && !IsSpace(r[|r| - 1]))
    ensures r == [] <==> forall i :: 0 <= i < |s| ==> IsSpace(s[i])
  {
    var t := TrimStart(s);
    assert t == [] ==> forall i :: 0 <= i < |s| ==> IsSpace(s[i]);
    TrimEnd(t)
  }

  /** What `strip` keeps is exactly the middle of `s`: `lstrip` keeps a
      suffix of `s` after whitespace only, and `strip` keeps a prefix of
      that with whitespace only after it. With the ends `Strip`
      guarantees, this fixes the result. */
  lemma StripIsSlice(s: string)
    ensures TrimStart(s) == s[|s| - |TrimStart(s)|..]
    ensures |Strip(s)| <= |TrimStart(s)| && Strip(s) == TrimStart(s)[..|Strip(s)|]
    ensures forall i :: 0 <= i < |s| - |TrimStart(s)| ==> IsSpace(s[i])
    ensures forall i :: |s| - |TrimStart(s)| + |Strip(s)| <= i < |s| ==> IsSpace(s[i])
  {
    TrimEndRest(TrimStart(s), s, |s| - |TrimStart(s)|);
  }

  /** What `rstrip` drops from a suffix of `s` is whitespace of `s`. */
  lemma TrimEndRest(t: string, s: string, a: nat)
    requires a <= |s| && t == s[a..]
    ensures forall i :: a + |TrimEnd(t)| <= i < |s| ==> IsSpace(s[i])
  {
    forall i | a + |TrimEnd(t)| <= i < |s|
      ensures IsSpace(s[i])
    {
      assert s[i] == t[i - a];
    }
  }

  /** `s.lstrip(chars)` for an explicit set of characters. */
  function TrimStartIn(s: string, chars: set<char>): (r: string)
    ensures |r| <= |s| && r == s[|s| - |r|..]
    ensures r == [] || r[0] !in chars
    ensures forall i :: 0 <= i < |s| - |r| ==> s[i] in chars
    decreases |s|
  {
    if s != [] && s[0] in chars then TrimStartIn(s[1..], chars) else s
  }

  /** `s.rstrip(chars)` for an explicit set of characters. */
  function TrimEndIn(s: string, chars: set<char>): (r: string)
    ensures |r| <= |s| && r == s[..|r|]
    ensures r == [] || r[|r| - 1] !in chars
    ensures forall i :: |r| <= i < |s| ==> s[i] in chars
    decreases |s|
  {
    if s != [] && s[|s| - 1] in chars then TrimEndIn(s[..|s| - 1], chars) else s
  }

  /** `s.strip(chars)` for an explicit set of characters. */
  function StripIn(s: string, chars: set<char>): (r: string)
    ensures r == [] || (r[0] !in chars && r[|r| - 1] !in chars)
  {
    TrimEndIn(TrimStartIn(s, chars), chars)
  }

  /** Python's `s[:n]`. */
  function Take(s: string, n: nat): (r: string)
    ensures |r| == if |s| <= n then |s| else n
    ensures r == s[..|r|]
  {
    if |s| <= n then s else s[..n]
  }

  /** Python's `s[n:]`. */
  function Drop(s: string, n: nat): (r: string)
    ensures Take(s, n) + r == s
  {
    if |s| <= n then [] else s[n..]
  }

  predicate StartsWith(s: string, prefix: string) {
    |prefix| <= |s| && s[..|prefix|] == prefix
  }

  predicate EndsWith(s: string, suffix: string) {
    |suffix| <= |s| && s[|s| - |suffix|..] == suffix
  }

  /** `sep.join(parts)`. */
  function Join(parts: seq<string>, sep: string): string
    decreases |parts|
  {
    if |parts| == 0 then ""
    else if |parts| == 1 then parts[0]
    else parts[0] + sep + Join(parts[1..], sep)
  }

  /** `"".join(parts)`. */
  function Concat(parts: seq<string>): string
    decreases |parts|
  {
    if parts == [] then "" else parts[0] + Concat(parts[1..])
  }

  /** `s.split(sep)` for a one-character separator: never empty, no piece
      holds the separator, and joining the pieces back gives `s`. */
  function Split(s: string, sep: char): (r: seq<string>)
    ensures |r| >= 1
    ensures forall k :: 0 <= k < |r| ==> sep !in r[k]
    ensures Join(r, [sep]) == s
    decreases |s|
  {
    if s == [] then [""]
    else if s[0] == sep then
      var t := Split(s[1..], sep);
      assert ([""] + t)[1..] == t;
      [""] + t
    else
      var t := Split(s[1..], sep);
      var r := [[s[0]] + t[0]] + t[1..];
      assert r[1..] == t[1..];
      assert |t| > 1 ==> Join(t, [sep]) == t[0] + [sep] + Join(t[1..], [sep]);
      r
  }

  function DigitChar(d: nat): (c: char)
    requires d < 10
    ensures '0' <= c <= '9' && c as int - '0' as int == d
  {
    ('0' as int + d) as char
  }

  /** Decimal digits of a natural number, most significant first. */
  function NatDecimal(n: nat): (r: string)
    ensures |r| >= 1 && (n >= 10 ==> |r| >= 2)
    ensures forall i :: 0 <= i < |r| ==> '0' <= r[i] <= '9'
  {
    if n < 10 then [DigitChar(n)] else NatDecimal(n / 10) + [DigitChar(n % 10)]
  }

  /** Python's `str(n)` for an integer. */
  function Decimal(n: int): string {
    if n < 0 then "-" + NatDecimal(-n) else NatDecimal(n)
  }

  lemma {:induction false} NatDecimalInjective(a: nat, b: nat)
    requires NatDecimal(a) == NatDecimal(b)
    ensures a == b
  {
    if a >= 10 && b >= 10 {
      var sa, sb := NatDecimal(a), NatDecimal(b);
      assert sa[..|sa| - 1] == NatDecimal(a / 10);
      assert sb[..|sb| - 1] == NatDecimal(b / 10);
      NatDecimalInjective(a / 10, b / 10);
      assert sa[|sa| - 1] == DigitChar(a % 10);
      assert sb[|sb| - 1] == DigitChar(b % 10);
    }
  }

  /** A printed integer starts with a minus sign exactly when it is negative. */
  lemma DecimalSign(n: int)
    ensures |Decimal(n)| >= 1 && (Decimal(n)[0] == '-' <==> n < 0)
  {
  }

  /** Two integers print the same only if they are equal. */
  lemma DecimalInjective(a: int, b: int)
    requires Decimal(a) == Decimal(b)
    ensures a == b
  {
    if a < 0 && b < 0 {
      assert NatDecimal(-a) == Decimal(a)[1..];
      assert NatDecimal(-b) == Decimal(b)[1..];
      NatDecimalInjective(-a, -b);
    } else if a >= 0 && b >= 0 {
      NatDecimalInjective(a, b);
    } else {
      DecimalSign(a);
      DecimalSign(b);
      assert false;
    }
  }

  /** Appending whitespace does not change what `strip()` returns. */
  lemma StripAppendSpace(s: string, c: char)
    requires IsSpace(c)
    ensures Strip(s + [c]) == Strip(s)
  {
    var t := TrimStart(s);
    if t == [] {
      assert TrimStart(s + [c]) == [] by { TrimStartAllSpace(s + [c]); }
    } else {
      TrimStartAppend(s, [c]);
      assert (t + [c])[..|t|] == t;
    }
  }

  lemma {:induction false} TrimStartAllSpace(s: string)
    requires forall i :: 0 <= i < |s| ==> IsSpace(s[i])
    ensures TrimStart(s) == []
    decreases |s|
  {
    if s != [] { TrimStartAllSpace(s[1..]); }
  }

  lemma {:induction false} TrimStartAppend(s: string, u: string)
    requires TrimStart(s) != []
    ensures TrimStart(s + u) == TrimStart(s) + u
    decreases |s|
  {
    var su := s + u;
    assert su[0] == s[0];
    if IsSpace(s[0]) {
      assert su[1..] == s[1..] + u;
      assert TrimStart(s) == TrimStart(s[1..]);
      TrimStartAppend(s[1..], u);
      assert TrimStart(su) == TrimStart(su[1..]);
    } else {
      assert TrimStart(s) == s;
      assert TrimStart(su) == su;
    }
  }
}
