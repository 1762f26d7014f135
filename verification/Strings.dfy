/** Decimal numerals and separators in strings. */
module Strings {

  predicate IsDigit(c: char) { '0' <= c <= '9' }

  predicate AllDigits(s: string) { forall i :: 0 <= i < |s| ==> IsDigit(s[i]) }

  function DigitValue(c: char): nat {
    if IsDigit(c) then c as int - '0' as int else 0
  }

  function Digits(n: nat): (s: string)
    ensures s != ""
  {
    if n < 10 then ["0123456789"[n]] else Digits(n / 10) + ["0123456789"[n % 10]]
  }

  /** The number that digits write. */
  function Value(s: string): nat {
    if s == "" then 0 else 10 * Value(s[..|s|-1]) + DigitValue(s[|s|-1])
  }

  /** `padStart(width, '0')`. */
  function Pad(s: string, width: nat): (r: string)
    ensures |r| == if |s| < width then width else |s|
    decreases width - |s|
  {
    if |s| < width then Pad("0" + s, width) else s
  }

  lemma {:induction false} DigitsAreDigits(n: nat)
    ensures AllDigits(Digits(n))
  {
    if n >= 10 { DigitsAreDigits(n / 10); }
  }

  lemma {:induction false} PadDigits(s: string, width: nat)
    requires AllDigits(s)
    ensures AllDigits(Pad(s, width))
    decreases width - |s|
  {
    if |s| < width { PadDigits("0" + s, width); }
  }

  lemma {:induction false} ValueDigits(n: nat)
    ensures Value(Digits(n)) == n
  {
    if n >= 10 {
      ValueDigits(n / 10);
      assert Digits(n)[..|Digits(n)|-1] == Digits(n / 10);
    }
  }

  lemma {:induction false} ValueZero(s: string)
    ensures Value("0" + s) == Value(s)
  {
    if s != "" {
      ValueZero(s[..|s|-1]);
      assert ("0" + s)[..|s|] == "0" + s[..|s|-1];
    } else {
      assert "0" + s == "0" && "0"[..0] == "";
    }
  }

  lemma {:induction false} ValuePad(s: string, width: nat)
    ensures Value(Pad(s, width)) == Value(s)
    decreases width - |s|
  {
    if |s| < width {
      ValueZero(s);
      ValuePad("0" + s, width);
    }
  }

  lemma DigitsInjective(m: nat, n: nat)
    requires Digits(m) == Digits(n)
    ensures m == n
  {
    ValueDigits(m);
    ValueDigits(n);
  }

  lemma {:induction false} DigitsShort(n: nat)
    ensures n < 100 ==> |Digits(n)| <= 2
  {
  }

  lemma Assoc(a: string, b: string, c: string)
    ensures (a + b) + c == a + (b + c)
  {
  }

  lemma Cut(a: string, b: string)
    ensures (a + b)[..|a|] == a && (a + b)[|a|..] == b
  {
  }

  /** Text before the first separator and text after it are fixed by the whole. */
  lemma SplitAt(sep: char, a: string, b: string, c: string, d: string)
    requires a + [sep] + b == c + [sep] + d && sep !in a && sep !in c
    ensures a == c && b == d
  {
    var s, t := a + [sep] + b, c + [sep] + d;
    assert s[|a|] == sep && t[|c|] == sep;
    forall i | 0 <= i < |a| ensures s[i] != sep { assert s[i] == a[i]; }
    forall i | 0 <= i < |c| ensures t[i] != sep { assert t[i] == c[i]; }
    assert a == s[..|a|] == t[..|c|] == c;
    assert b == s[|a|+1..] == t[|c|+1..] == d;
  }
}
