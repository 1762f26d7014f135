/** The money printer and the parser that reads it back (agents-learning/src/agents/parse.ts). */
module Money {
  import opened Strings

  // ---------------------------------------------------------------- printing

  /** A comma before every pair from the right. */
  function Pairs(s: string): string {
    if |s| <= 2 then s else Pairs(s[..|s|-2]) + "," + s[|s|-2..]
  }

  /** Lakh grouping: the last three digits, then pairs. */
  function Grouped(r: string): string {
    if |r| > 3 then Pairs(r[..|r|-3]) + "," + r[|r|-3..] else r
  }

  function Npr(paisa: nat): string {
    "Rs " + Grouped(Digits(paisa / 100)) + "." + Pad(Digits(paisa % 100), 2)
  }

  // ---------------------------------------------------------------- parsing

  /** What was read at the front of a text: its value in paisa and its length. */
  datatype Match = NotThere | Found(value: nat, length: nat)

  predicate SameLetter(c: char, lower: char, upper: char) { c == lower || c == upper }

  /** How long a currency mark `s` begins with: Rs, NPR or the Devanagari one, in any case, with an optional point. */
  function Mark(s: string): (n: nat)
    ensures n <= |s|
  {
    if |s| >= 2 && SameLetter(s[0], 'r', 'R') && SameLetter(s[1], 's', 'S') then WithPoint(s, 2)
    else if |s| >= 3 && SameLetter(s[0], 'n', 'N') && SameLetter(s[1], 'p', 'P') && SameLetter(s[2], 'r', 'R') then 3
    else if |s| >= 2 && s[0] == '\U{0930}' && s[1] == '\U{0941}' then WithPoint(s, 2)
    else 0
  }

  function WithPoint(s: string, n: nat): (r: nat)
    ensures n <= |s| ==> r <= |s|
  {
    if n < |s| && s[n] == '.' then n + 1 else n
  }

  /** What `\s` matches. */
  predicate IsSpace(c: char) {
    c in " \t\n\r\U{000B}\U{000C}\U{00A0}\U{1680}\U{2028}\U{2029}\U{202F}\U{205F}\U{3000}\U{FEFF}" || '\U{2000}' <= c <= '\U{200A}'
  }

  predicate IsAmountChar(c: char) { IsDigit(c) || c == ',' }

  /** How many characters from the front satisfy the class. */
  function Span(p: char -> bool, s: string): (n: nat)
    ensures n <= |s| && (forall i :: 0 <= i < n ==> p(s[i])) && (n < |s| ==> !p(s[n]))
  {
    if s == "" || !p(s[0]) then 0
    else
      var n := 1 + Span(p, s[1..]);
      assert forall i :: 0 < i < n ==> s[i] == s[1..][i-1];
      n
  }

  predicate AmountText(s: string) { forall i :: 0 <= i < |s| ==> IsAmountChar(s[i]) }

  /** How long a point with one or two digits is, if that is what follows. */
  function Fraction(s: string): (n: nat)
    ensures n <= |s| && (n == 0 || 2 <= n <= 3)
  {
    if |s| >= 2 && s[0] == '.' && IsDigit(s[1]) then (if |s| >= 3 && IsDigit(s[2]) then 3 else 2) else 0
  }

  function FractionDigits(s: string): string {
    if Fraction(s) == 0 then "" else s[1..Fraction(s)]
  }

  function Kept(c: char): string { if c == ',' then "" else [c] }

  function NoCommas(s: string): string {
    if s == "" then "" else NoCommas(s[..|s|-1]) + Kept(s[|s|-1])
  }

  /** `padEnd(2, '0')` of at most two digits. */
  function PadEnd(f: string): string {
    if f == "" then "00" else if |f| == 1 then f + "0" else f
  }

  /** Digits and commas, and perhaps a fraction: the value in paisa and the length. */
  function Number(s: string): (r: Match)
    ensures r.Found? ==> 0 < r.length <= |s|
  {
    var whole := Span(IsAmountChar, s);
    if whole == 0 then NotThere
    else Found(100 * Value(NoCommas(s[..whole])) + Value(PadEnd(FractionDigits(s[whole..]))), whole + Fraction(s[whole..]))
  }

  /** A marked amount at the very front: its value in paisa and its length. */
  function AmountAt(s: string): (r: Match)
    ensures r.Found? ==> 0 < r.length <= |s|
  {
    var mark := Mark(s);
    if mark == 0 then NotThere
    else
      var start := mark + Span(IsSpace, s[mark..]);
      match Number(s[start..])
      case NotThere => NotThere
      case Found(value, length) => Found(value, start + length)
  }

  /** Every marked amount, from left to right, none overlapping. */
  function Amounts(s: string): seq<nat>
    decreases |s|
  {
    if s == "" then []
    else
      match AmountAt(s)
      case Found(value, length) => [value] + Amounts(s[length..])
      case NotThere => Amounts(s[1..])
  }

  lemma AmountsStep(s: string)
    ensures s == "" ==> Amounts(s) == []
    ensures s != "" && AmountAt(s).Found? ==> Amounts(s) == [AmountAt(s).value] + Amounts(s[AmountAt(s).length..])
    ensures s != "" && AmountAt(s).NotThere? ==> Amounts(s) == Amounts(s[1..])
  {
    hide AmountAt;
  }

  method AmountsIn(text: string) returns (out: seq<nat>)
    ensures out == Amounts(text)
  {
    hide Amounts, AmountAt;
    out := [];
    var i := 0;
    assert text[0..] == text;
    while i < |text|
      invariant 0 <= i <= |text| && out + Amounts(text[i..]) == Amounts(text)
    {
      var m := AmountAt(text[i..]);
      AmountsStep(text[i..]);
      if m.Found? {
        assert text[i..][m.length..] == text[i + m.length..];
        assert out + ([m.value] + Amounts(text[i + m.length..])) == (out + [m.value]) + Amounts(text[i + m.length..]);
        out := out + [m.value];
        i := i + m.length;
      } else {
        assert text[i..][1..] == text[i + 1..];
        i := i + 1;
      }
    }
    AmountsStep("");
    assert text[i..] == "";
    assert out + [] == out;
  }

  // ---------------------------------------------------------------- the round trip

  lemma NoCommasSnoc(s: string, c: char)
    ensures NoCommas(s + [c]) == NoCommas(s) + Kept(c)
  {
    assert (s + [c])[..|s|] == s;
  }

  lemma BehindNext(a: string, b: string, c: char)
    requires NoCommas(a + b) == NoCommas(a) + b && IsDigit(c)
    ensures NoCommas(a + (b + [c])) == NoCommas(a) + (b + [c])
  {
    NoCommasSnoc(a + b, c);
    var n := NoCommas(a);
    hide NoCommas;
    Assoc(a, b, [c]);
    Assoc(n, b, [c]);
  }

  /** Digits behind a text stay where they are. */
  lemma {:induction false} NoCommasBehind(a: string, b: string)
    requires AllDigits(b)
    ensures NoCommas(a + b) == NoCommas(a) + b
    decreases |b|
  {
    if b == "" { assert a + b == a && NoCommas(a) + b == NoCommas(a); }
    else {
      var c, before := b[|b|-1], b[..|b|-1];
      assert b == before + [c];
      NoCommasBehind(a, before);
      BehindNext(a, before, c);
    }
  }

  lemma NoCommasDigits(s: string)
    requires AllDigits(s)
    ensures NoCommas(s) == s
  {
    NoCommasBehind("", s);
    assert "" + s == s && NoCommas("") == "";
  }

  lemma CommaJoin(a: string, b: string)
    requires AmountText(a) && AllDigits(b)
    ensures AmountText(a + "," + b) && NoCommas(a + "," + b) == NoCommas(a) + b
  {
    NoCommasBehind(a + ",", b);
    NoCommasSnoc(a, ',');
    assert a + "," == a + [','];
    assert NoCommas(a) + "" == NoCommas(a);
  }

  lemma {:induction false} PairsKeep(s: string)
    requires AllDigits(s)
    ensures AmountText(Pairs(s)) && NoCommas(Pairs(s)) == s
  {
    hide NoCommas;
    if |s| <= 2 { NoCommasDigits(s); }
    else {
      var a, b := s[..|s|-2], s[|s|-2..];
      PairsKeep(a);
      CommaJoin(Pairs(a), b);
      assert s == a + b;
    }
  }

  /** Grouping only puts commas in. */
  lemma GroupedKeeps(r: string)
    requires AllDigits(r) && r != ""
    ensures AmountText(Grouped(r)) && NoCommas(Grouped(r)) == r
    ensures |Grouped(r)| > 0 && IsDigit(Grouped(r)[0])
  {
    hide NoCommas, Pairs;
    if |r| > 3 {
      var a, b := r[..|r|-3], r[|r|-3..];
      PairsKeep(a);
      CommaJoin(Pairs(a), b);
      assert r == a + b;
      PairsFirst(a);
    } else {
      NoCommasDigits(r);
    }
  }

  lemma {:induction false} PairsFirst(s: string)
    requires AllDigits(s) && s != ""
    ensures |Pairs(s)| > 0 && Pairs(s)[0] == s[0]
  {
    if |s| > 2 { PairsFirst(s[..|s|-2]); }
  }

  lemma {:induction false} SpanExact(p: char -> bool, a: string, b: string)
    requires forall i :: 0 <= i < |a| ==> p(a[i])
    requires b != "" ==> !p(b[0])
    ensures Span(p, a + b) == |a|
  {
    var s := a + b;
    assert forall i :: 0 <= i < |a| ==> s[i] == a[i];
    if b != "" { assert s[|a|] == b[0]; }
  }

  lemma TwoDigits(n: nat)
    requires n < 100
    ensures |Pad(Digits(n), 2)| == 2 && Value(Pad(Digits(n), 2)) == n && AllDigits(Pad(Digits(n), 2))
  {
    DigitsAreDigits(n);
    PadDigits(Digits(n), 2);
    DigitsShort(n);
    ValuePad(Digits(n), 2);
    ValueDigits(n);
  }

  lemma FractionReads(f: string, rest: string)
    requires AllDigits(f) && |f| == 2
    ensures Fraction("." + (f + rest)) == 3 && FractionDigits("." + (f + rest)) == f
  {
    var tail := "." + (f + rest);
    assert tail[0] == '.' && tail[1] == f[0] && tail[2] == f[1];
    assert tail[1..3] == f;
  }

  lemma NumberParts(s: string, g: string, tail: string, f: string)
    requires |g| <= |s| && g != "" && s[..|g|] == g && s[|g|..] == tail && Span(IsAmountChar, s) == |g|
    requires Fraction(tail) == 3 && FractionDigits(tail) == f && |f| == 2
    ensures Number(s) == Found(100 * Value(NoCommas(g)) + Value(f), |g| + 3)
  {
    hide Value, NoCommas, Span, Fraction, FractionDigits;
  }

  lemma NumberBefore(g: string, tail: string, f: string)
    requires AmountText(g) && g != "" && |f| == 2
    requires tail != "" && tail[0] == '.' && Fraction(tail) == 3 && FractionDigits(tail) == f
    ensures Number(g + tail) == Found(100 * Value(NoCommas(g)) + Value(f), |g| + 3)
  {
    hide Number, Value, NoCommas, Span, Fraction, FractionDigits;
    SpanExact(IsAmountChar, g, tail);
    Cut(g, tail);
    NumberParts(g + tail, g, tail, f);
  }

  lemma NumberReads(g: string, f: string, rest: string)
    requires AmountText(g) && g != "" && AllDigits(f) && |f| == 2
    ensures Number(g + ("." + (f + rest))) == Found(100 * Value(NoCommas(g)) + Value(f), |g| + 3)
  {
    hide Number, Value, NoCommas, Span, Fraction, FractionDigits;
    FractionReads(f, rest);
    NumberBefore(g, "." + (f + rest), f);
  }

  lemma MarkReads(number: string)
    requires number != "" && IsDigit(number[0])
    ensures var s := "Rs" + (" " + number); Mark(s) == 2 && Span(IsSpace, s[2..]) == 1 && s[3..] == number
  {
    Cut("Rs", " " + number);
    Cut(" ", number);
    SpanExact(IsSpace, " ", number);
    hide Span;
    var s := "Rs" + (" " + number);
    assert s[3..] == s[2..][1..];
  }

  /** A marked amount with a fraction of two digits is read, and then the text behind it. */
  lemma MarkedReads(g: string, f: string, rest: string)
    requires AmountText(g) && g != "" && IsDigit(g[0]) && AllDigits(f) && |f| == 2
    ensures Amounts("Rs " + g + "." + f + rest) == [100 * Value(NoCommas(g)) + Value(f)] + Amounts(rest)
  {
    hide Amounts, AmountAt, Number, Mark, Span, Value, NoCommas;
    var tail := "." + (f + rest);
    PrintedAs(g, f, rest);
    Front(g, tail);
    NumberReads(g, f, rest);
    MarkReads(g + tail);
    AmountReads(g, f, rest, 100 * Value(NoCommas(g)) + Value(f));
    AmountsStep("Rs" + (" " + (g + tail)));
  }

  /** What was printed is read back, whatever text follows it. */
  lemma ReadsBack(paisa: nat, rest: string)
    ensures Amounts(Npr(paisa) + rest) == [paisa] + Amounts(rest)
  {
    hide Grouped, Digits, Pad, Amounts, Value, NoCommas;
    var g, f := Grouped(Digits(paisa / 100)), Pad(Digits(paisa % 100), 2);
    DigitsAreDigits(paisa / 100);
    GroupedKeeps(Digits(paisa / 100));
    TwoDigits(paisa % 100);
    ValueDigits(paisa / 100);
    MarkedReads(g, f, rest);
  }

  lemma Front(a: string, b: string)
    requires a != ""
    ensures a + b != "" && (a + b)[0] == a[0]
  {
  }

  lemma PrintedAs(g: string, f: string, rest: string)
    ensures "Rs " + g + "." + f + rest == "Rs" + (" " + (g + ("." + (f + rest))))
  {
    Assoc("Rs " + g + ".", f, rest);
    Assoc("Rs " + g, ".", f + rest);
    Assoc("Rs ", g, "." + (f + rest));
    assert "Rs " == "Rs" + " ";
    Assoc("Rs", " ", g + ("." + (f + rest)));
  }

  lemma AmountReads(g: string, f: string, rest: string, paisa: nat)
    requires |f| == 2 && Number(g + ("." + (f + rest))) == Found(paisa, |g| + 3)
    requires var s := "Rs" + (" " + (g + ("." + (f + rest)))); Mark(s) == 2 && Span(IsSpace, s[2..]) == 1 && s[3..] == g + ("." + (f + rest))
    ensures var s := "Rs" + (" " + (g + ("." + (f + rest)))); AmountAt(s) == Found(paisa, |g| + 6) && s[|g|+6..] == rest
  {
    var tail := g + ("." + (f + rest));
    var s := "Rs" + (" " + tail);
    Cut(g, "." + (f + rest));
    Cut(".", f + rest);
    Cut(f, rest);
    hide Number, Span;
    assert s[|g|+6..] == tail[|g|+3..] == tail[|g|..][3..] == (f + rest)[2..] == rest;
  }

  /** A printed amount alone reads back as itself; so no two amounts print the same. */
  lemma RoundTrip(paisa: nat)
    ensures Amounts(Npr(paisa)) == [paisa]
  {
    ReadsBack(paisa, "");
    assert Npr(paisa) + "" == Npr(paisa);
  }

  lemma NprInjective(p: nat, q: nat)
    requires Npr(p) == Npr(q)
    ensures p == q
  {
    hide Npr;
    RoundTrip(p);
    RoundTrip(q);
  }
}
