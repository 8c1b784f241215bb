/** Number formatting and parsing (lib/libh/src/stdio/vprintf.c): digits are written backwards
    into a buffer, and read back from the right. */
module Numbers {
  const WORD := 0x1_0000_0000

  // ----- Digits -----

  function Pow(b: nat, k: nat): nat {
    if k == 0 then 1 else b * Pow(b, k - 1)
  }

  /** The character for a digit, in upper or lower case. */
  function Glyph(d: nat, lower: bool): char
    requires d < 16
  {
    if d < 10 then '0' + d as char else (if lower then 'a' else 'A') + (d - 10) as char
  }

  function DigitOf(c: char): nat {
    if '0' <= c <= '9' then (c - '0') as nat
    else if 'A' <= c <= 'F' then (c - 'A') as nat + 10
    else if 'a' <= c <= 'f' then (c - 'a') as nat + 10
    else 0
  }

  predicate IsDigit(c: char) {
    '0' <= c <= '9'
  }

  lemma GlyphRoundTrip(d: nat, lower: bool)
    requires d < 16
    ensures DigitOf(Glyph(d, lower)) == d && (d < 10 <==> IsDigit(Glyph(d, lower)))
  {}

  /** The number that a text stands for, most significant digit first. */
  function Value(text: string, b: nat): nat {
    if text == [] then 0 else Value(text[..|text| - 1], b) * b + DigitOf(text[|text| - 1])
  }

  lemma {:induction false} ValuePrepend(c: char, text: string, b: nat)
    ensures Value([c] + text, b) == DigitOf(c) * Pow(b, |text|) + Value(text, b)
  {
    hide DigitOf;
    if text == [] {
      assert ([c] + text)[..0] == [];
    } else {
      var n := |text| - 1;
      assert ([c] + text)[..n + 1] == [c] + text[..n];
      ValuePrepend(c, text[..n], b);
      Distribute(DigitOf(c), Pow(b, n), Value(text[..n], b), b);
    }
  }

  lemma Distribute(d: nat, p: nat, v: nat, b: nat)
    ensures (d * p + v) * b == d * (b * p) + v * b
  {
    assert (d * p) * b == d * (p * b);
  }

  lemma Product(a: nat, b: nat, p: nat, q: nat)
    requires a <= b && p <= q
    ensures a * p <= b * q
  {
    assert b * q == a * p + a * (q - p) + (b - a) * q;
  }

  lemma {:induction false} PowMonotone(a: nat, b: nat, k: nat)
    requires a <= b
    ensures Pow(a, k) <= Pow(b, k)
  {
    if k > 0 {
      PowMonotone(a, b, k - 1);
      Product(a, b, Pow(a, k - 1), Pow(b, k - 1));
    }
  }

  /** A 32-bit number has at most eleven digits in base eight or more. */
  lemma ElevenDigits(b: nat)
    requires b >= 8
    ensures Pow(b, 11) >= WORD
  {
    PowMonotone(8, b, 11);
    assert Pow(8, 1) == 8 && Pow(8, 2) == 64 && Pow(8, 3) == 512 && Pow(8, 4) == 4096;
    assert Pow(8, 5) == 8 * 4096 && Pow(8, 6) == 64 * 4096 && Pow(8, 7) == 512 * 4096 && Pow(8, 8) == 0x100_0000;
    assert Pow(8, 9) == 8 * 0x100_0000 && Pow(8, 10) == 64 * 0x100_0000 && Pow(8, 11) == 512 * 0x100_0000;
  }

  // ----- Formatting -----

  /** The text of a number: its digits, without a leading zero unless it is zero itself. */
  ghost predicate Formatted(u: nat, b: nat, lower: bool, text: string)
    requires 0 < b <= 16
  {
    && Value(text, b) == u && text != []
    && (forall i :: 0 <= i < |text| ==> exists d :: 0 <= d < b && text[i] == Glyph(d, lower))
    && (text[0] == '0' ==> text == ['0'])
  }

  function Quotient(u: nat, b: nat): nat
    requires b > 0
  {
    u / b
  }

  function Remainder(u: nat, b: nat): nat
    requires b > 0
  {
    u % b
  }

  /** `u` followed by `k` zeros. */
  function Shifted(u: nat, b: nat, k: nat): nat {
    u * Pow(b, k)
  }

  lemma DivideStep(u: nat, b: nat)
    requires b >= 2
    ensures u == Quotient(u, b) * b + Remainder(u, b) && Remainder(u, b) < b
    ensures u > 0 ==> Quotient(u, b) < u && (Quotient(u, b) == 0 ==> Remainder(u, b) == u)
  {
    var q, m := u / b, u % b;
    assert u == b * q + m && 0 <= m < b;
    Product(2, b, q, q);
    hide Quotient, Remainder;
    QuotientIs(u, b, q, m);
    Commute(b, q);
  }

  lemma QuotientIs(u: nat, b: nat, q: nat, m: nat)
    requires b > 0 && q == u / b && m == u % b
    ensures Quotient(u, b) == q && Remainder(u, b) == m
  {}

  lemma Commute(a: nat, b: nat)
    ensures a * b == b * a
  {}

  lemma Refold(u: nat, q: nat, r: nat, b: nat, p: nat)
    requires u == q * b + r
    ensures q * (b * p) + r * p == u * p
  {
    Distribute(q, b, r, p);
    assert p * b == b * p;
  }

  /** One more digit, taken from the right of what is left. */
  lemma DigitStep(u: nat, b: nat, lower: bool, ds: string)
    requires 2 <= b <= 16
    ensures Remainder(u, b) < b
    ensures
      var c := Glyph(Remainder(u, b), lower);
      Shifted(Quotient(u, b), b, |ds| + 1) + Value([c] + ds, b) == Shifted(u, b, |ds|) + Value(ds, b)
  {
    hide Quotient, Remainder, Value, Glyph, DigitOf;
    DivideStep(u, b);
    GlyphRoundTrip(Remainder(u, b), lower);
    ValuePrepend(Glyph(Remainder(u, b), lower), ds, b);
    Refold(u, Quotient(u, b), Remainder(u, b), b, Pow(b, |ds|));
  }

  /** Write a number backwards from `end`, and a single zero if there is nothing to write. */
  method Format(u: nat, b: nat, lower: bool, buf: array<char>, end: nat) returns (s: nat)
    requires u < WORD && 8 <= b <= 16 && 11 <= end <= buf.Length
    modifies buf
    ensures end - 11 <= s < end && Formatted(u, b, lower, buf[s..end])
    ensures buf[..s] == old(buf[..s]) && buf[end..] == old(buf[end..])
  {
    hide Value, Shifted, Quotient, Remainder, Glyph;
    s := end;
    var rest := u;
    NoDigits(u, b);
    assert buf[s..end] == [];
    while rest != 0
      invariant end - 11 <= s <= end
      invariant Shifted(rest, b, end - s) + Value(buf[s..end], b) == u
      invariant forall i :: s <= i < end ==> exists d :: 0 <= d < b && buf[i] == Glyph(d, lower)
      invariant s < end && rest == 0 ==> buf[s] != '0'
      invariant s == end ==> rest == u
      invariant buf[..s] == old(buf[..s]) && buf[end..] == old(buf[end..])
      decreases rest
    {
      RoomForDigit(rest, b, end - s);
      ghost var ds := buf[s..end];
      DigitStep(rest, b, lower, ds);
      DivideStep(rest, b);
      ZeroGlyph(Remainder(rest, b), lower);
      s := s - 1;
      buf[s] := Glyph(Remainder(rest, b), lower);
      assert buf[s..end] == [Glyph(Remainder(rest, b), lower)] + ds;
      rest := Quotient(rest, b);
    }
    if s == end {
      s := s - 1;
      buf[s] := '0';
      assert buf[s..end] == ['0'];
      ZeroGlyph(0, lower);
      OneZero(b);
    }
    NothingLeft(b, end - s);
  }

  lemma ZeroGlyph(d: nat, lower: bool)
    requires d < 16
    ensures Glyph(d, lower) == '0' <==> d == 0
  {}

  lemma NothingLeft(b: nat, k: nat)
    ensures Shifted(0, b, k) == 0
  {}

  lemma NoDigits(u: nat, b: nat)
    ensures Shifted(u, b, 0) + Value([], b) == u
  {}

  lemma OneZero(b: nat)
    ensures Value(['0'], b) == 0
  {
    assert ['0'][..0] == [];
  }

  /** A 32-bit number never needs a twelfth digit. */
  lemma RoomForDigit(rest: nat, b: nat, k: nat)
    requires rest > 0 && b >= 8 && Shifted(rest, b, k) < WORD && k <= 11
    ensures k < 11
  {
    ElevenDigits(b);
    Product(1, rest, Pow(b, k), Pow(b, k));
  }

  // ----- Signs and prefixes -----

  const END := 31

  /** The conversions that print a number. */
  predicate Numeric(c: char) {
    c in {'d', 'i', 'u', 'x', 'X', 'p', 'o'}
  }

  function Base(c: char): (b: nat)
    ensures 8 <= b <= 16
  {
    if c in {'x', 'X', 'p'} then 16 else if c == 'o' then 8 else 10
  }

  /** A 32-bit word as a signed number. */
  function Signed(popped: nat): int {
    if popped < WORD / 2 then popped else popped - WORD
  }

  function Magnitude(c: char, popped: nat): nat {
    if c in {'d', 'i'} && Signed(popped) < 0 then -Signed(popped) else popped
  }

  function Prefix(c: char, alt: bool, popped: nat): string {
    if c in {'d', 'i'} && Signed(popped) < 0 then "-"
    else if c == 'p' || (c in {'x', 'X'} && alt) then "0x"
    else if c == 'o' && alt then "O"
    else ""
  }

  /** The text of one conversion: sign or prefix, then the digits. */
  ghost predicate Converted(c: char, alt: bool, popped: nat, text: string) {
    && Prefix(c, alt, popped) <= text
    && Formatted(Magnitude(c, popped), Base(c), c != 'X', text[|Prefix(c, alt, popped)|..])
  }

  /** The sixteen digits in both cases. */
  lemma DigitsMean(d: nat)
    requires d < 16
    ensures DigitOf("0123456789abcdef"[d]) == d && DigitOf("0123456789ABCDEF"[d]) == d
    ensures Glyph(d, true) == "0123456789abcdef"[d] && Glyph(d, false) == "0123456789ABCDEF"[d]
  {}

  /** The shortest row of characters out of `digits` that stands for `u`. */
  ghost predicate Reads(text: string, digits: string, u: nat) {
    && text != [] && (forall i :: 0 <= i < |text| ==> text[i] in digits)
    && Value(text, |digits|) == u && (text[0] == '0' ==> text == "0")
  }

  /** What each conversion prints: a sign or a mark in front, and the number in its own base. */
  ghost predicate Printed(c: char, alt: bool, popped: nat, text: string) {
    && (c == 'u' ==> Reads(text, "0123456789", popped))
    && (c in {'d', 'i'} && popped < 0x8000_0000 ==> Reads(text, "0123456789", popped))
    && (c in {'d', 'i'} && 0x8000_0000 <= popped < 0x1_0000_0000 ==>
          "-" <= text && Reads(text[1..], "0123456789", 0x1_0000_0000 - popped))
    && (c == 'x' ==> if alt then "0x" <= text && Reads(text[2..], "0123456789abcdef", popped)
                     else Reads(text, "0123456789abcdef", popped))
    && (c == 'X' ==> if alt then "0x" <= text && Reads(text[2..], "0123456789ABCDEF", popped)
                     else Reads(text, "0123456789ABCDEF", popped))
    && (c == 'p' ==> "0x" <= text && Reads(text[2..], "0123456789abcdef", popped))
    && (c == 'o' ==> if alt then "O" <= text && Reads(text[1..], "01234567", popped)
                     else Reads(text, "01234567", popped))
  }

  lemma FormattedReads(u: nat, b: nat, lower: bool, text: string)
    requires b in {8, 10, 16} && Formatted(u, b, lower, text)
    ensures Reads(text, if b == 8 then "01234567" else if b == 10 then "0123456789"
                        else if lower then "0123456789abcdef" else "0123456789ABCDEF", u)
  {
    hide Value, Glyph;
    var digits := if b == 8 then "01234567" else if b == 10 then "0123456789"
                  else if lower then "0123456789abcdef" else "0123456789ABCDEF";
    forall i | 0 <= i < |text| ensures text[i] in digits {
      var d :| 0 <= d < b && text[i] == Glyph(d, lower);
      DigitsMean(d);
      assert digits[d] == text[i];
    }
  }

  lemma ConvertedIsPrinted(c: char, alt: bool, popped: nat, text: string)
    requires Numeric(c) && popped < WORD && Converted(c, alt, popped, text)
    ensures Printed(c, alt, popped, text)
  {
    hide Formatted, Reads;
    FormattedReads(Magnitude(c, popped), Base(c), c != 'X', text[|Prefix(c, alt, popped)|..]);
    assert text[0..] == text;
  }

  /** Digits, sign and prefix of every 32-bit number fit into the buffer, in front of its closing zero. */
  method Convert(c: char, alt: bool, popped: nat, buf: array<char>) returns (s: nat)
    requires Numeric(c) && popped < WORD && buf.Length == 32
    modifies buf
    ensures END - 13 <= s < END && Converted(c, alt, popped, buf[s..END]) && Printed(c, alt, popped, buf[s..END])
    ensures buf[..s] == old(buf[..s]) && buf[END] == old(buf[END])
  {
    hide Formatted, Converted, Base, Prefix, Printed;
    s := Format(Magnitude(c, popped), Base(c), c != 'X', buf, END);
    ghost var digits := buf[s..END];
    s := PutPrefix(buf, s, c, alt, popped);
    PrefixFirst(c, alt, popped, buf[s..END], digits);
    ConvertedIsPrinted(c, alt, popped, buf[s..END]);
  }

  /** Sign or prefix in front of the digits. */
  method PutPrefix(buf: array<char>, s: nat, c: char, alt: bool, popped: nat) returns (t: nat)
    requires 2 <= s <= END < buf.Length
    modifies buf
    ensures s - 2 <= t <= s && buf[t..END] == Prefix(c, alt, popped) + old(buf[s..END])
    ensures buf[..t] == old(buf[..t]) && buf[END] == old(buf[END])
  {
    t := s;
    if c in {'d', 'i'} && Signed(popped) < 0 {
      t := PutFront(buf, s, '-');
      assert ['-'] == "-";
    } else if c == 'p' || (c in {'x', 'X'} && alt) {
      t := PutTwo(buf, s, '0', 'x');
      assert ['0', 'x'] == "0x";
    } else if c == 'o' && alt {
      t := PutFront(buf, s, 'O');
      assert ['O'] == "O";
    }
  }

  method PutTwo(buf: array<char>, s: nat, c: char, d: char) returns (t: nat)
    requires 2 <= s <= END < buf.Length
    modifies buf
    ensures t == s - 2 && buf[t..END] == [c, d] + old(buf[s..END])
    ensures buf[..t] == old(buf[..t]) && buf[END] == old(buf[END])
  {
    t := PutFront(buf, s, d);
    t := PutFront(buf, t, c);
  }

  /** One more character in front. */
  method PutFront(buf: array<char>, s: nat, c: char) returns (t: nat)
    requires 0 < s <= END < buf.Length
    modifies buf
    ensures t == s - 1 && buf[t..END] == [c] + old(buf[s..END])
    ensures buf[..t] == old(buf[..t]) && buf[END] == old(buf[END])
  {
    t := s - 1;
    buf[t] := c;
  }

  lemma PrefixFirst(c: char, alt: bool, popped: nat, text: string, digits: string)
    requires text == Prefix(c, alt, popped) + digits && Formatted(Magnitude(c, popped), Base(c), c != 'X', digits)
    ensures Converted(c, alt, popped, text)
  {
    assert text[|Prefix(c, alt, popped)|..] == digits;
  }

  /** What a signed decimal text stands for. */
  function SignedValue(text: string): int {
    if text != [] && text[0] == '-' then 0 - Value(text[1..], 10) else Value(text, 10)
  }

  /** A signed conversion reads back as the signed number, the smallest one included. */
  lemma SignedReadsBack(c: char, alt: bool, popped: nat, text: string)
    requires c in {'d', 'i'} && popped < WORD && Converted(c, alt, popped, text)
    ensures SignedValue(text) == Signed(popped)
  {
    hide Value;
    if Signed(popped) >= 0 {
      assert text[0..] == text;
      var d :| 0 <= d < 10 && text[0] == Glyph(d, true);
      GlyphRoundTrip(d, true);
    }
  }

  // ----- Parsing -----

  /** How many digits stand at the front of a text. */
  function DigitRun(text: string): (n: nat)
    ensures n <= |text| && (forall i :: 0 <= i < n ==> IsDigit(text[i])) && (n < |text| ==> !IsDigit(text[n]))
  {
    if text == [] || !IsDigit(text[0]) then 0 else 1 + DigitRun(text[1..])
  }

  lemma RunIs(text: string, n: nat)
    requires n <= |text| && (forall i :: 0 <= i < n ==> IsDigit(text[i])) && (n < |text| ==> !IsDigit(text[n]))
    ensures DigitRun(text) == n
  {}

  lemma Wrapped(x: nat, k: nat)
    ensures (x + WORD * k) % WORD == x % WORD
  {}

  /** Adding a scaled digit modulo 2^32 is adding it and reducing afterwards. */
  lemma WrappedSum(v: nat, d: nat, p: nat)
    ensures (v % WORD + d * (p % WORD)) % WORD == (v + d * p) % WORD
  {
    var a, n, b, i := v / WORD, v % WORD, p / WORD, p % WORD;
    WordParts(v);
    WordParts(p);
    Expand(a, n, b, i, d);
    Wrapped(n + d * i, a + d * b);
  }

  lemma WordParts(v: nat)
    ensures v == WORD * (v / WORD) + v % WORD
  {}

  lemma Expand(a: nat, n: nat, b: nat, i: nat, d: nat)
    ensures WORD * a + n + d * (WORD * b + i) == n + d * i + WORD * (a + d * b)
  {
    assert d * (WORD * b) == WORD * (d * b);
  }

  lemma WrappedProduct(p: nat)
    ensures (p % WORD * 10) % WORD == (10 * p) % WORD
  {
    WordParts(p);
    Wrapped(p % WORD * 10, 10 * (p / WORD));
  }

  /** Skip the digits, then add them up from the right, in 32-bit arithmetic. */
  method GetN(text: string) returns (rest: nat, n: nat)
    ensures rest == DigitRun(text) && n == Value(text[..rest], 10) % WORD
  {
    hide Value, Pow, DigitOf;
    rest := 0;
    while rest < |text| && IsDigit(text[rest])
      invariant rest <= |text| && forall i :: 0 <= i < rest ==> IsDigit(text[i])
    {
      rest := rest + 1;
    }
    RunIs(text, rest);
    var curr, i := rest, 1;
    n := 0;
    Nothing();
    assert text[curr..rest] == [];
    while curr != 0
      invariant 0 <= curr <= rest
      invariant n == Value(text[curr..rest], 10) % WORD && i == Pow(10, rest - curr) % WORD
    {
      curr := curr - 1;
      ghost var tail := text[curr + 1..rest];
      assert text[curr..rest] == [text[curr]] + tail;
      ValuePrepend(text[curr], tail, 10);
      WrappedSum(Value(tail, 10), DigitOf(text[curr]), Pow(10, |tail|));
      WrappedProduct(Pow(10, |tail|));
      NextPower(|tail|);
      n := (n + DigitOf(text[curr]) * i) % WORD;
      i := i * 10 % WORD;
    }
    assert text[0..rest] == text[..rest];
  }

  lemma NextPower(k: nat)
    ensures Pow(10, k + 1) == 10 * Pow(10, k)
  {}

  lemma Nothing()
    ensures Value([], 10) == 0 && Pow(10, 0) == 1
  {}

  /** Parsing what was formatted in decimal, whatever follows it, gives the number back. */
  lemma RoundTrip(u: nat, lower: bool, text: string, tail: string)
    requires u < WORD && Formatted(u, 10, lower, text) && (tail == [] || !IsDigit(tail[0]))
    ensures DigitRun(text + tail) == |text| && Value((text + tail)[..|text|], 10) % WORD == u
  {
    hide Value, Glyph;
    forall i | 0 <= i < |text| ensures IsDigit((text + tail)[i]) {
      var d :| 0 <= d < 10 && text[i] == Glyph(d, lower);
      GlyphRoundTrip(d, lower);
    }
    RunIs(text + tail, |text|);
    assert (text + tail)[..|text|] == text;
  }
}
