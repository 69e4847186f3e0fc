/**
 * The string primitives the actions use: `split`, `join`, ASCII `toUpperCase`,
 * the decimal `toString` of a positive count and `padStart`.
 */
module Text {

  /** `s.split(sep)` for a one-character separator: never empty, and no piece holds the separator. */
  function Split(s: string, sep: char): (parts: seq<string>)
    ensures |parts| >= 1
    ensures forall i | 0 <= i < |parts| :: sep !in parts[i]
    decreases |s|
  {
    if s == [] then [""]
    else
      var rest := Split(s[1..], sep);
      if s[0] == sep then [""] + rest
      else [[s[0]] + rest[0]] + rest[1..]
  }

  /** `parts.join(sep)`: the first piece comes first, then a separator when more pieces follow. */
  function Join(parts: seq<string>, sep: char): (r: string)
    ensures parts == [] ==> r == ""
    ensures parts != [] ==> |r| >= |parts[0]| && r[..|parts[0]|] == parts[0]
    ensures |parts| > 1 ==> |r| > |parts[0]| && r[|parts[0]|] == sep
    decreases |parts|
  {
    if parts == [] then ""
    else if |parts| == 1 then parts[0]
    else parts[0] + [sep] + Join(parts[1..], sep)
  }

  /** Splitting loses nothing: joining the pieces gives the string back. */
  lemma {:induction false} JoinSplit(s: string, sep: char)
    ensures Join(Split(s, sep), sep) == s
    decreases |s|
  {
    if s != [] {
      var rest := Split(s[1..], sep);
      JoinSplit(s[1..], sep);
      if s[0] == sep {
        assert Split(s, sep)[1..] == rest;
      } else if |rest| == 1 {
        assert Join(Split(s, sep), sep) == [s[0]] + rest[0];
      } else {
        var parts := Split(s, sep);
        assert parts[1..] == rest[1..];
        assert Join(rest, sep) == rest[0] + [sep] + Join(rest[1..], sep);
        assert Join(parts, sep) == ([s[0]] + rest[0]) + [sep] + Join(rest[1..], sep);
      }
    }
  }

  /** A separator-free prefix glues onto the first piece of what follows it. */
  lemma {:induction false} SplitFreePrefix(w: string, t: string, sep: char)
    requires sep !in w
    ensures Split(w + t, sep) == [w + Split(t, sep)[0]] + Split(t, sep)[1..]
    decreases |w|
  {
    if w != [] {
      SplitFreePrefix(w[1..], t, sep);
      var st := Split(t, sep);
      var rest := Split(w[1..] + t, sep);
      assert rest[0] == w[1..] + st[0] && rest[1..] == st[1..];
      assert (w + t)[0] == w[0] != sep;
      assert (w + t)[1..] == w[1..] + t;
      assert Split(w + t, sep) == [[w[0]] + rest[0]] + rest[1..];
      assert [w[0]] + (w[1..] + st[0]) == w + st[0];
    } else {
      assert w + t == t;
      assert w + Split(t, sep)[0] == Split(t, sep)[0];
      assert Split(t, sep) == [Split(t, sep)[0]] + Split(t, sep)[1..];
    }
  }

  /** A piece that ends at a separator: `Split(w + [sep] + t) == [w] + Split(t)`. */
  lemma SplitAtSeparator(w: string, t: string, sep: char)
    requires sep !in w
    ensures Split(w + [sep] + t, sep) == [w] + Split(t, sep)
  {
    SplitFreePrefix(w, [sep] + t, sep);
    assert w + [sep] + t == w + ([sep] + t);
    assert ([sep] + t)[0] == sep && ([sep] + t)[1..] == t;
    var s' := Split([sep] + t, sep);
    assert s' == [""] + Split(t, sep);
    assert s'[0] == "" && s'[1..] == Split(t, sep);
    assert w + s'[0] == w;
  }

  /** ASCII `toUpperCase` of one character. */
  function Upper(c: char): (u: char)
    ensures 'a' <= c <= 'z' ==> 'A' <= u <= 'Z' && u as int - c as int == 'A' as int - 'a' as int
    ensures !('a' <= c <= 'z') ==> u == c
  {
    if 'a' <= c <= 'z' then (c as int - 'a' as int + 'A' as int) as char else c
  }

  /** ASCII `toUpperCase` of a string, character by character. */
  function UpperString(s: string): (u: string)
    ensures |u| == |s|
    ensures forall i | 0 <= i < |s| :: u[i] == Upper(s[i])
  {
    if s == [] then [] else [Upper(s[0])] + UpperString(s[1..])
  }

  /** The decimal digit character of `d`. */
  function Digit(d: nat): (c: char)
    requires d < 10
    ensures '0' <= c <= '9' && c as int - '0' as int == d
  {
    ('0' as int + d) as char
  }

  predicate IsDigits(s: string) {
    forall i | 0 <= i < |s| :: '0' <= s[i] <= '9'
  }

  /** `n.toString()` for a non-negative integer: digits only, with no leading zero. */
  function DecimalString(n: nat): (r: string)
    ensures |r| >= 1 && IsDigits(r)
    ensures |r| > 1 ==> r[0] != '0'
    decreases n
  {
    if n < 10 then [Digit(n)] else DecimalString(n / 10) + [Digit(n % 10)]
  }

  /** The number a digit string denotes, read left to right; leading zeros add nothing. */
  function DecimalValue(s: string): nat
    requires IsDigits(s)
  {
    if s == [] then 0
    else DecimalValue(s[..|s| - 1]) * 10 + (s[|s| - 1] as int - '0' as int)
  }

  /** Reading back a rendered count gives the count. */
  lemma {:induction false} DecimalRoundTrip(n: nat)
    ensures DecimalValue(DecimalString(n)) == n
    decreases n
  {
    if n >= 10 {
      DecimalRoundTrip(n / 10);
      var s := DecimalString(n);
      assert s[..|s| - 1] == DecimalString(n / 10);
    }
  }

  /** Distinct counts render as distinct strings. */
  lemma DecimalInjective(n: nat, m: nat)
    ensures DecimalString(n) == DecimalString(m) <==> n == m
  {
    DecimalRoundTrip(n);
    DecimalRoundTrip(m);
  }

  function Pow10(k: nat): (p: nat)
    ensures p >= 1
  {
    if k == 0 then 1 else 10 * Pow10(k - 1)
  }

  /** A count renders in at most `k` digits exactly when it is below `10^k`. */
  lemma {:induction false} DecimalWidth(n: nat, k: nat)
    requires k >= 1
    ensures |DecimalString(n)| <= k <==> n < Pow10(k)
    decreases n
  {
    if n >= 10 && k >= 2 {
      DecimalWidth(n / 10, k - 1);
      assert n / 10 < Pow10(k - 1) <==> n < 10 * Pow10(k - 1);
    } else if k >= 2 {
      assert Pow10(k) == 10 * Pow10(k - 1);
    }
  }

  /** `s.padStart(width, fill)` for a one-character fill. */
  function PadStart(s: string, width: nat, fill: char): (r: string)
    ensures |r| == if |s| >= width then |s| else width
    ensures r[|r| - |s|..] == s
    ensures forall i | 0 <= i < |r| - |s| :: r[i] == fill
  {
    if |s| >= width then s else seq(width - |s|, _ => fill) + s
  }

  /** A zero in front does not change a digit string's value. */
  lemma {:induction false} LeadingZero(s: string)
    requires IsDigits(s)
    ensures DecimalValue("0" + s) == DecimalValue(s)
    decreases |s|
  {
    if s != [] {
      var t := "0" + s;
      assert t[..|t| - 1] == "0" + s[..|s| - 1];
      LeadingZero(s[..|s| - 1]);
    }
  }

  /** Any run of zeros in front does not change a digit string's value. */
  lemma {:induction false} LeadingZeros(z: string, s: string)
    requires IsDigits(s)
    requires forall i | 0 <= i < |z| :: z[i] == '0'
    ensures IsDigits(z + s) && DecimalValue(z + s) == DecimalValue(s)
    decreases |z|
  {
    if z != [] {
      LeadingZeros(z[1..], s);
      assert z == "0" + z[1..];
      assert z + s == "0" + (z[1..] + s);
      LeadingZero(z[1..] + s);
    } else {
      assert z + s == s;
    }
  }

  /**
   * The record codes `CON001`, `INV012`, ...: a prefix and the count padded
   * with zeros to three digits.
   */
  function SequenceCode(prefix: string, n: nat): (code: string)
    ensures |code| >= |prefix| + 3 && code[..|prefix|] == prefix
  {
    prefix + PadStart(DecimalString(n), 3, '0')
  }

  /** The digits after the prefix read back as the count, so a code determines its count. */
  lemma SequenceCodeNumber(prefix: string, n: nat)
    ensures var digits := SequenceCode(prefix, n)[|prefix|..];
      IsDigits(digits) && DecimalValue(digits) == n
  {
    var d := DecimalString(n);
    var p := PadStart(d, 3, '0');
    assert SequenceCode(prefix, n)[|prefix|..] == p;
    var z := p[..|p| - |d|];
    assert p == z + d;
    LeadingZeros(z, d);
    DecimalRoundTrip(n);
  }

  /** Two codes with one prefix are equal exactly when their counts are. */
  lemma SequenceCodeInjective(prefix: string, n: nat, m: nat)
    ensures SequenceCode(prefix, n) == SequenceCode(prefix, m) <==> n == m
  {
    SequenceCodeNumber(prefix, n);
    SequenceCodeNumber(prefix, m);
  }

  /** Counts 1 to 999 give codes of exactly three digits; from 1000 on the code grows. */
  lemma SequenceCodeLength(prefix: string, n: nat)
    ensures n < 1000 <==> |SequenceCode(prefix, n)| == |prefix| + 3
  {
    DecimalWidth(n, 3);
  }
}
