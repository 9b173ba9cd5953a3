/** Reading a duration: [[hh:]mm:]ss[.fraction], in units of 100 ns
    (core/CommandLine.cpp). */
module CommandLine {
  import opened Decimal
  import opened Options

  const UNITS_PER_SECOND := 10000000
  const MAX_FIELD_DIGITS := 9
  const MAX_INT64 := 0x7FFF_FFFF_FFFF_FFFF

  predicate IsField(s: string) { IsDecimal(s) && |s| <= MAX_FIELD_DIGITS }

  predicate AllFields(s: seq<string>) { forall i :: 0 <= i < |s| ==> IsField(s[i]) }

  predicate AllDigits(s: string) { forall i :: 0 <= i < |s| ==> IsDigit(s[i]) }

  /** The parts between the colons. */
  function Fields(text: string): (r: seq<string>)
    ensures r != []
    decreases |text|
  {
    var colon := FirstOf(text, ':', 0);
    if colon == |text| then [text] else [text[..colon]] + Fields(text[colon + 1..])
  }

  /** Fields in base 60. */
  function Seconds(fields: seq<string>): nat
    requires AllFields(fields)
  {
    if fields == [] then 0
    else Seconds(fields[..|fields| - 1]) * 60 + Number(fields[|fields| - 1])
  }

  /** The first seven digits after the dot, filled up with zeros. */
  function Fraction(digits: string): nat
    requires AllDigits(digits)
  {
    Number((digits + "0000000")[..7])
  }

  /** What the text before the dot, and the text after it, mean. */
  function Meaning(whole: string, digits: string): Option<nat> {
    var fields := Fields(whole);
    if AllDigits(digits) && |fields| <= 3 && AllFields(fields)
    then Some(Seconds(fields) * UNITS_PER_SECOND + Fraction(digits))
    else None
  }

  function Duration(text: string): Option<nat> {
    var dot := FirstOf(text, '.', 0);
    Meaning(text[..dot], if dot < |text| then text[dot + 1..] else "")
  }

  function Joined(fields: seq<string>): string
    requires fields != []
  {
    if |fields| == 1 then fields[0] else fields[0] + ":" + Joined(fields[1..])
  }

  predicate Uncut(fields: seq<string>) { forall f <- fields :: ':' !in f }

  /** The fields are the text, cut at its colons and nowhere else. */
  lemma {:induction false} FieldsJoin(text: string)
    ensures Joined(Fields(text)) == text
    ensures Uncut(Fields(text))
    decreases |text|
  {
    var colon := FirstOf(text, ':', 0);
    assert ':' !in text[..colon];
    if colon == |text| {
      assert text[..colon] == text;
    } else {
      FieldsJoin(text[colon + 1..]);
      JoinedMore(text[..colon], Fields(text[colon + 1..]));
      assert text == text[..colon] + ":" + text[colon + 1..];
    }
  }

  lemma {:induction false} JoinedMore(first: string, more: seq<string>)
    requires more != [] && ':' !in first && Uncut(more)
    ensures Joined([first] + more) == first + ":" + Joined(more) && Uncut([first] + more)
  {
    assert ([first] + more)[1..] == more;
  }

  // ---- Parsing ----

  method ParseField(text: string) returns (r: Option<nat>)
    ensures r == if IsField(text) then Some(Number(text)) else None
  {
    if text == "" || |text| > MAX_FIELD_DIGITS {
      return None;
    }
    var value := 0;
    for i := 0 to |text|
      invariant AllDigits(text[..i]) && value == Number(text[..i])
    {
      if !IsDigit(text[i]) {
        return None;
      }
      assert text[..i + 1][..i] == text[..i];
      value := value * 10 + DigitValue(text[i]);
    }
    assert text[..|text|] == text;
    r := Some(value);
  }

  /** A digit added to k digits weighs 10^(6-k), and nothing from the eighth on. */
  lemma {:induction false} FractionStep(digits: string, c: char)
    requires AllDigits(digits) && IsDigit(c)
    ensures Fraction(digits + [c])
         == Fraction(digits) + if |digits| < 7 then Pow10(6 - |digits|) * DigitValue(c) else 0
  {
    var k := |digits|;
    if k >= 7 {
      assert (digits + [c] + "0000000")[..7] == (digits + "0000000")[..7];
    } else {
      Filled(digits);
      Filled(digits + [c]);
      assert (digits + [c])[..k] == digits;
      Distribute(Number(digits), DigitValue(c), Pow10(6 - k));
    }
  }

  lemma {:induction false} Filled(digits: string)
    requires AllDigits(digits) && |digits| <= 7
    ensures Fraction(digits) == Number(digits) * Pow10(7 - |digits|)
  {
    var k := |digits|;
    TrailingZeros(digits, 7 - k);
    assert (digits + "0000000")[..7] == digits + Zeros(7 - k);
  }

  lemma Distribute(a: nat, d: nat, p: nat)
    ensures (10 * a + d) * p == a * (10 * p) + p * d
  {
  }

  function Zeros(n: nat): (s: string)
    ensures |s| == n && forall i :: 0 <= i < n ==> s[i] == '0'
  {
    if n == 0 then "" else Zeros(n - 1) + "0"
  }

  lemma {:induction false} TrailingZeros(s: string, n: nat)
    requires AllDigits(s)
    ensures Number(s + Zeros(n)) == Number(s) * Pow10(n)
  {
    if n == 0 {
      assert s + Zeros(0) == s;
    } else {
      TrailingZeros(s, n - 1);
      var t := s + Zeros(n);
      assert t[..|t| - 1] == s + Zeros(n - 1);
    }
  }

  method ParseFraction(digits: string) returns (r: Option<nat>)
    ensures r == if AllDigits(digits) then Some(Fraction(digits)) else None
  {
    var fraction := 0;
    var weight := UNITS_PER_SECOND / 10;
    assert Pow10(3) == 1000 && Pow10(6) == 1000000;
    TrailingZeros("", 7);
    assert ("" + "0000000")[..7] == "" + Zeros(7);
    for i := 0 to |digits|
      invariant AllDigits(digits[..i]) && fraction == Fraction(digits[..i])
      invariant weight == if i < 7 then Pow10(6 - i) else 0
    {
      if !IsDigit(digits[i]) {
        return None;
      }
      FractionStep(digits[..i], digits[i]);
      assert digits[..i + 1] == digits[..i] + [digits[i]];
      fraction := fraction + weight * DigitValue(digits[i]);
      weight := weight / 10;
    }
    assert digits[..|digits|] == digits;
    r := Some(fraction);
  }

  lemma {:induction false} Shifted<T>(a: seq<T>, x: T, b: seq<T>)
    ensures a + ([x] + b) == (a + [x]) + b
  {
  }

  /** Reading one more field. */
  lemma {:induction false} NextField(read: seq<string>, text: string, all: seq<string>)
    requires read + Fields(text) == all
    ensures var colon := FirstOf(text, ':', 0);
            var now := read + [text[..colon]];
            && |all| >= |now| && (!IsField(text[..colon]) ==> !AllFields(all))
            && (if colon == |text| then now == all else now + Fields(text[colon + 1..]) == all)
            && (AllFields(read) && IsField(text[..colon]) ==>
                  AllFields(now) && Seconds(now) == Seconds(read) * 60 + Number(text[..colon]))
  {
    var colon := FirstOf(text, ':', 0);
    var now := read + [text[..colon]];
    assert text[..|text|] == text;
    assert now[..|read|] == read && all[|read|] == text[..colon];
    if colon < |text| {
      Shifted(read, text[..colon], Fields(text[colon + 1..]));
    }
  }

  method ParseFields(whole: string) returns (r: Option<nat>)
    ensures var fields := Fields(whole);
            r == if |fields| <= 3 && AllFields(fields) then Some(Seconds(fields)) else None
  {
    var text, seconds, fields := whole, 0, 0;
    ghost var read: seq<string> := [];
    assert read + Fields(text) == Fields(whole);
    while true
      invariant read + Fields(text) == Fields(whole)
      invariant fields == |read| <= 3 && AllFields(read) && seconds == Seconds(read)
      decreases |text|
    {
      var colon := FirstOf(text, ':', 0);
      var field := ParseField(text[..colon]);
      NextField(read, text, Fields(whole));
      if field.None? {
        return None;
      }
      fields := fields + 1;
      if fields > 3 {
        return None;
      }
      read := read + [text[..colon]];
      seconds := seconds * 60 + field.value;
      if colon == |text| {
        break;
      }
      text := text[colon + 1..];
    }
    r := Some(seconds);
  }

  method ParseDuration(text: string) returns (r: Option<nat>)
    ensures r == Duration(text)
  {
    var dot := FirstOf(text, '.', 0);
    r := ParseParts(text[..dot], if dot < |text| then text[dot + 1..] else "");
  }

  /** The fraction is parsed first. */
  method ParseParts(whole: string, digits: string) returns (r: Option<nat>)
    ensures r == Meaning(whole, digits)
  {
    var fraction := ParseFraction(digits);
    if fraction.None? {
      return None;
    }
    var seconds := ParseFields(whole);
    if seconds.None? {
      return None;
    }
    r := Some(seconds.value * UNITS_PER_SECOND + fraction.value);
  }

  // ---- Printing and reading back ----

  function Printed(h: nat, m: nat, s: nat, fraction: nat): string {
    Dotted(PrintedTime(h, m, s), Padded(fraction, 7))
  }

  function Dotted(whole: string, digits: string): string { whole + "." + digits }

  function PrintedTime(h: nat, m: nat, s: nat): string {
    Padded(h, 1) + ":" + (Padded(m, 2) + ":" + Padded(s, 2))
  }

  lemma {:induction false} FieldThenRest(field: string, rest: string)
    requires AllDigits(field)
    ensures Fields(field + ":" + rest) == [field] + Fields(rest)
  {
    var text := field + ":" + rest;
    var colon := FirstOf(text, ':', 0);
    assert forall k :: 0 <= k < |field| ==> text[k] == field[k];
    assert text[|field|] == ':';
    assert colon == |field|;
    assert text[..colon] == field && text[colon + 1..] == rest;
  }

  lemma {:induction false} FieldAlone(field: string)
    requires AllDigits(field)
    ensures Fields(field) == [field]
  {
  }

  /** Every time of day and fraction below a second is read back as printed, the
      hours up to nine digits. */
  lemma {:induction false} PrintedIsRead(h: nat, m: nat, s: nat, fraction: nat)
    requires h < 1000000000 && m < 60 && s < 60 && fraction < UNITS_PER_SECOND
    ensures Duration(Printed(h, m, s, fraction)).Some?
    ensures Duration(Printed(h, m, s, fraction)).value == ((h * 60 + m) * 60 + s) * UNITS_PER_SECOND + fraction
  {
    PrintedWhole(h, m, s);
    PrintedFraction(fraction);
    assert Printed(h, m, s, fraction) == Dotted(PrintedTime(h, m, s), Padded(fraction, 7));
    var seconds := (h * 60 + m) * 60 + s;
    ReadTogether(PrintedTime(h, m, s), Padded(fraction, 7), seconds, fraction);
  }

  lemma {:induction false} ReadTogether(whole: string, digits: string, seconds: nat, fraction: nat)
    requires '.' !in whole && AllFields(Fields(whole)) && |Fields(whole)| <= 3 && AllDigits(digits)
    requires seconds == Seconds(Fields(whole)) && fraction == Fraction(digits)
    ensures Duration(Dotted(whole, digits)) == Some(seconds * UNITS_PER_SECOND + fraction)
  {
    WholeAndFraction(whole, digits);
  }

  lemma {:induction false} PrintedWhole(h: nat, m: nat, s: nat)
    requires h < 1000000000 && m < 60 && s < 60
    ensures var whole := PrintedTime(h, m, s);
            && '.' !in whole && |Fields(whole)| == 3 && AllFields(Fields(whole))
            && Seconds(Fields(whole)) == (h * 60 + m) * 60 + s
  {
    PrintedFields(h, 1);
    PrintedFields(m, 2);
    PrintedFields(s, 2);
    ThreeFields(Padded(h, 1), Padded(m, 2), Padded(s, 2));
  }

  lemma {:induction false} ThreeFields(a: string, b: string, c: string)
    requires IsField(a) && IsField(b) && IsField(c)
    ensures var whole := a + ":" + (b + ":" + c);
            '.' !in whole && Fields(whole) == [a, b, c] && AllFields(Fields(whole))
    ensures Seconds([a, b, c]) == (Number(a) * 60 + Number(b)) * 60 + Number(c)
  {
    NoDot(a, b, c);
    FieldThenRest(a, b + ":" + c);
    FieldThenRest(b, c);
    FieldAlone(c);
    SecondsOfThree(a, b, c);
  }

  lemma {:induction false} NoDot(a: string, b: string, c: string)
    requires AllDigits(a) && AllDigits(b) && AllDigits(c)
    ensures '.' !in a + ":" + (b + ":" + c)
  {
  }

  lemma {:induction false} PrintedFields(n: nat, width: nat)
    requires n < 1000000000 && 1 <= width <= 9
    ensures IsField(Padded(n, width)) && Number(Padded(n, width)) == n
  {
    PaddedNumber(n, width);
    PaddedLength(n, width, 9);
    assert Pow10(3) == 1000 && Pow10(6) == 1000000;
  }

  lemma {:induction false} PrintedFraction(fraction: nat)
    requires fraction < UNITS_PER_SECOND
    ensures AllDigits(Padded(fraction, 7)) && Fraction(Padded(fraction, 7)) == fraction
  {
    var digits := Padded(fraction, 7);
    PaddedNumber(fraction, 7);
    PaddedLength(fraction, 7, 7);
    assert Pow10(3) == 1000 && Pow10(6) == 1000000;
    assert (digits + "0000000")[..7] == digits;
  }

  lemma {:induction false} SecondsOfThree(a: string, b: string, c: string)
    requires IsField(a) && IsField(b) && IsField(c)
    ensures Seconds([a, b, c]) == (Number(a) * 60 + Number(b)) * 60 + Number(c)
  {
    SecondsStep([], a);
    SecondsStep([a], b);
    SecondsStep([a, b], c);
    assert [] + [a] == [a] && [a] + [b] == [a, b] && [a, b] + [c] == [a, b, c];
  }

  lemma {:induction false} SecondsStep(read: seq<string>, field: string)
    requires AllFields(read) && IsField(field)
    ensures Seconds(read + [field]) == Seconds(read) * 60 + Number(field)
  {
    assert (read + [field])[..|read|] == read;
  }

  lemma {:induction false} WholeAndFraction(whole: string, digits: string)
    requires '.' !in whole
    ensures Duration(Dotted(whole, digits)) == Meaning(whole, digits)
  {
    var text := Dotted(whole, digits);
    var dot := FirstOf(text, '.', 0);
    assert text[|whole|] == '.';
    assert forall k :: 0 <= k < |whole| ==> text[k] == whole[k];
    assert dot == |whole|;
    var after := if dot < |text| then text[dot + 1..] else "";
    assert after == digits;
    assert text[..dot] == whole;
    assert Duration(text) == Meaning(text[..dot], after);
  }

  lemma {:induction false} WithoutDot(whole: string)
    requires '.' !in whole && AllFields(Fields(whole)) && |Fields(whole)| <= 3
    ensures Duration(whole) == Some(Seconds(Fields(whole)) * UNITS_PER_SECOND)
  {
    assert whole[..|whole|] == whole;
    assert FirstOf(whole, '.', 0) == |whole|;
    Filled("");
    assert Number("") == 0;
    assert Duration(whole) == Meaning(whole, "");
  }

  /** Without a fraction: seconds alone, with minutes, and with hours. */
  lemma {:induction false} SecondsAreRead(s: nat)
    requires s < 1000000000
    ensures Duration(Padded(s, 1)) == Some(s * UNITS_PER_SECOND)
  {
    PrintedFields(s, 1);
    OneFieldRead(Padded(s, 1));
  }

  lemma {:induction false} MinutesAreRead(m: nat, s: nat)
    requires m < 1000000000 && s < 1000000000
    ensures var d := Duration(Padded(m, 1) + ":" + Padded(s, 2)); d.Some? && d.value == (m * 60 + s) * UNITS_PER_SECOND
  {
    PrintedFields(m, 1);
    PrintedFields(s, 2);
    TwoFieldsRead(Padded(m, 1), Padded(s, 2));
  }

  lemma {:induction false} HoursAreRead(h: nat, m: nat, s: nat)
    requires h < 1000000000 && m < 1000000000 && s < 1000000000
    ensures var d := Duration(PrintedTime(h, m, s)); d.Some? && d.value == ((h * 60 + m) * 60 + s) * UNITS_PER_SECOND
  {
    PrintedFields(h, 1);
    PrintedFields(m, 2);
    PrintedFields(s, 2);
    ThreeFieldsRead(Padded(h, 1), Padded(m, 2), Padded(s, 2));
  }

  lemma {:induction false} OneFieldRead(a: string)
    requires IsField(a)
    ensures Duration(a) == Some(Number(a) * UNITS_PER_SECOND)
  {
    FieldAlone(a);
    SecondsStep([], a);
    assert [] + [a] == [a];
    WithoutDot(a);
  }

  lemma {:induction false} TwoFieldsRead(a: string, b: string)
    requires IsField(a) && IsField(b)
    ensures var d := Duration(a + ":" + b); d.Some? && d.value == (Number(a) * 60 + Number(b)) * UNITS_PER_SECOND
  {
    FieldThenRest(a, b);
    FieldAlone(b);
    SecondsStep([], a);
    SecondsStep([a], b);
    assert [] + [a] == [a] && [a] + [b] == [a, b];
    WithoutDot(a + ":" + b);
  }

  lemma {:induction false} ThreeFieldsRead(a: string, b: string, c: string)
    requires IsField(a) && IsField(b) && IsField(c)
    ensures var d := Duration(a + ":" + (b + ":" + c));
            d.Some? && d.value == ((Number(a) * 60 + Number(b)) * 60 + Number(c)) * UNITS_PER_SECOND
  {
    ThreeFields(a, b, c);
    WithoutDot(a + ":" + (b + ":" + c));
  }

  // ---- Fitting 64 bits ----

  lemma {:induction false} FractionBelowSecond(digits: string)
    requires AllDigits(digits)
    ensures Fraction(digits) < UNITS_PER_SECOND
  {
    NumberBound((digits + "0000000")[..7]);
    assert Pow10(3) == 1000 && Pow10(6) == 1000000;
  }

  /** The value fits exactly up to 922337203685 seconds and 4775807 units. */
  lemma {:induction false} FitsExactly(whole: string, digits: string)
    requires Meaning(whole, digits).Some?
    ensures var seconds := Seconds(Fields(whole));
            Meaning(whole, digits).value <= MAX_INT64
            <==> seconds < 922337203685 || (seconds == 922337203685 && Fraction(digits) <= 4775807)
  {
    FractionBelowSecond(digits);
  }

  /** Eight digits of hours are safe, whatever the other fields. */
  lemma {:induction false} ShortHoursFit(whole: string, digits: string)
    requires var fields := Fields(whole); |fields| == 3 ==> |fields[0]| <= 8
    ensures Meaning(whole, digits).Some? ==> Meaning(whole, digits).value <= MAX_INT64
  {
    var fields := Fields(whole);
    if Meaning(whole, digits).Some? {
      FractionBelowSecond(digits);
      SecondsBound(fields);
    }
  }

  lemma {:induction false} SecondsBound(fields: seq<string>)
    requires AllFields(fields) && |fields| <= 3 && (|fields| == 3 ==> |fields[0]| <= 8)
    ensures Seconds(fields) <= 922337203684
  {
    assert Pow10(3) == 1000 && Pow10(6) == 1000000;
    var n := |fields|;
    if n == 3 {
      NumberBound(fields[0]);
      Pow10Grows(|fields[0]|, 8);
      NumberBound(fields[1]);
      Pow10Grows(|fields[1]|, 9);
      NumberBound(fields[2]);
      Pow10Grows(|fields[2]|, 9);
      assert fields == [fields[0], fields[1], fields[2]];
      SecondsOfThree(fields[0], fields[1], fields[2]);
    } else if n == 2 {
      NumberBound(fields[0]);
      Pow10Grows(|fields[0]|, 9);
      NumberBound(fields[1]);
      Pow10Grows(|fields[1]|, 9);
      SecondsStep([], fields[0]);
      SecondsStep([fields[0]], fields[1]);
      assert [] + [fields[0]] == [fields[0]] && [fields[0]] + [fields[1]] == fields;
    } else if n == 1 {
      NumberBound(fields[0]);
      Pow10Grows(|fields[0]|, 9);
      assert fields[..0] == [];
    }
  }

  /** Nine digits are not: the source's 64-bit sum would overflow. */
  lemma {:induction false} LongHoursOverflow()
    ensures Duration(Printed(999999999, 0, 0, 0)).Some?
    ensures Duration(Printed(999999999, 0, 0, 0)).value > MAX_INT64
  {
    PrintedIsRead(999999999, 0, 0, 0);
  }
}
