/** Choosing the next free capture file name (core/CaptureNaming.cpp). */
module CaptureNaming {
  import opened Decimal

  const EXTENSION := ".avi"
  const MAX_DIGITS := 9

  // ---- Names ----

  /** ASCII case folding, the one _wcsnicmp does in the "C" locale. */
  function Fold(c: char): char { if 'A' <= c <= 'Z' then c - 'A' + 'a' else c }

  predicate EqualsNoCase(a: string, b: string) {
    |a| == |b| && forall i :: 0 <= i < |a| ==> Fold(a[i]) == Fold(b[i])
  }

  predicate IsSeparator(c: char) { c == '\\' || c == '/' || c == ':' }

  /** The part after the last separator. */
  function FileNamePart(path: string): string {
    if path == "" then ""
    else if IsSeparator(path[|path| - 1]) then ""
    else FileNamePart(path[..|path| - 1]) + [path[|path| - 1]]
  }

  /** The digits of "name.digits.avi"; empty if the name has another form, or
      more than nine digits. */
  function Digits(name: string, candidate: string): (d: string)
    ensures d == "" || (IsDecimal(d) && |d| <= MAX_DIGITS)
  {
    var n, x := |name|, |EXTENSION|;
    if |candidate| <= n + 1 + x then ""
    else if !EqualsNoCase(candidate[..n], name) || candidate[n] != '.' then ""
    else if !EqualsNoCase(candidate[|candidate| - x..], EXTENSION) then ""
    else
      var digits := candidate[n + 1..|candidate| - x];
      if IsDecimal(digits) && |digits| <= MAX_DIGITS then digits else ""
  }

  /** The loop's variables. */
  datatype Scan = Scan(width: nat, highest: int, plainExists: bool)

  function ScanStep(name: string, s: Scan, existing: string): Scan {
    if EqualsNoCase(existing, name + EXTENSION) then s.(plainExists := true)
    else
      var digits := Digits(name, existing);
      if digits == "" || |digits| < s.width then s
      else if |digits| > s.width then s.(width := |digits|, highest := Number(digits))
      else s.(highest := if Number(digits) > s.highest then Number(digits) else s.highest)
  }

  function ScanAll(name: string, ndigits: int, names: seq<string>): (s: Scan)
    ensures s.highest >= -1
  {
    if names == [] then Scan(if ndigits > 0 then ndigits else 0, -1, false)
    else ScanStep(name, ScanAll(name, ndigits, names[..|names| - 1]), names[|names| - 1])
  }

  function Suffix(s: Scan): string
    requires s.highest >= -1
  {
    if s.width == 0 then (if s.plainExists then ".0" else "") + EXTENSION
    else "." + Padded(s.highest + 1, s.width) + EXTENSION
  }

  function NextName(stem: string, ndigits: int, names: seq<string>): string {
    stem + Suffix(ScanAll(FileNamePart(stem), ndigits, names))
  }

  lemma {:induction false} ScanOne(name: string, ndigits: int, names: seq<string>, i: nat)
    requires i < |names|
    ensures ScanAll(name, ndigits, names[..i + 1]) == ScanStep(name, ScanAll(name, ndigits, names[..i]), names[i])
  {
    assert names[..i + 1][..i] == names[..i];
  }

  /** NextCaptureFilename, the loop over the existing names. */
  method NextCaptureFilename(stem: string, ndigits: int, existingNames: seq<string>) returns (r: string)
    ensures r == NextName(stem, ndigits, existingNames)
  {
    var name := FileNamePart(stem);
    var plainName := name + EXTENSION;
    var width: nat := if ndigits > 0 then ndigits else 0;
    var highest: int := -1;
    var plainExists := false;
    for i := 0 to |existingNames|
      invariant highest >= -1
      invariant Scan(width, highest, plainExists) == ScanAll(name, ndigits, existingNames[..i])
    {
      var existing := existingNames[i];
      ScanOne(name, ndigits, existingNames, i);
      if EqualsNoCase(existing, plainName) {
        plainExists := true;
        continue;
      }
      var digits := Digits(name, existing);
      if digits == "" || |digits| < width {
        continue;
      }
      var number := Number(digits);
      if |digits| > width {
        width := |digits|;
        highest := number;
      } else {
        highest := if number > highest then number else highest;
      }
    }
    assert existingNames[..|existingNames|] == existingNames;
    if width == 0 {
      return stem + ((if plainExists then ".0" else "") + EXTENSION);
    }
    r := stem + ("." + Padded(highest + 1, width) + EXTENSION);
  }

  // ---- What the scan finds, whatever the order ----

  /** The widest numbering present, or the wanted one if that is wider; the
      highest number of that width; and whether the plain name exists. */
  ghost predicate Summarizes(name: string, ndigits: int, names: seq<string>, s: Scan) {
    && s.width >= ndigits
    && (forall e <- names :: |NumberOf(name, e)| <= s.width)
    && (s.width == 0 || s.width == ndigits || exists e <- names :: |NumberOf(name, e)| == s.width)
    && (forall e <- names :: |NumberOf(name, e)| == s.width > 0 ==> Number(NumberOf(name, e)) <= s.highest)
    && (s.highest == -1 || exists e <- names :: |NumberOf(name, e)| == s.width > 0 && Number(NumberOf(name, e)) == s.highest)
    && s.highest >= -1
    && (s.plainExists <==> exists e <- names :: EqualsNoCase(e, name + EXTENSION))
  }

  /** The digits that count: the plain name has none. */
  function NumberOf(name: string, e: string): (d: string)
    ensures d == "" || (IsDecimal(d) && |d| <= MAX_DIGITS)
  {
    if EqualsNoCase(e, name + EXTENSION) then "" else Digits(name, e)
  }

  lemma {:induction false} ScanSummarizes(name: string, ndigits: int, names: seq<string>)
    ensures Summarizes(name, ndigits, names, ScanAll(name, ndigits, names))
  {
    if names != [] {
      var rest, e := names[..|names| - 1], names[|names| - 1];
      ScanSummarizes(name, ndigits, rest);
      assert names == rest + [e];
      StepSummarizes(name, ndigits, rest, e, ScanAll(name, ndigits, rest));
    }
  }

  lemma {:induction false} StepSummarizes(name: string, ndigits: int, rest: seq<string>, e: string, s: Scan)
    requires Summarizes(name, ndigits, rest, s)
    ensures Summarizes(name, ndigits, rest + [e], ScanStep(name, s, e))
  {
    var d := NumberOf(name, e);
    var t := ScanStep(name, s, e);
    MembersSnoc(rest, e);
    assert t == Counted(s, d, EqualsNoCase(e, name + EXTENSION));
    StepBounds(name, ndigits, rest, e, s, t);
    StepWitnesses(name, ndigits, rest, e, s, t);
  }

  /** ScanStep, on the digits that count. */
  function Counted(s: Scan, d: string, plain: bool): Scan
    requires forall i :: 0 <= i < |d| ==> IsDigit(d[i])
  {
    if plain then s.(plainExists := true)
    else if d == "" || |d| < s.width then s
    else if |d| > s.width then s.(width := |d|, highest := Number(d))
    else s.(highest := if Number(d) > s.highest then Number(d) else s.highest)
  }

  lemma {:induction false} MembersSnoc(rest: seq<string>, e: string)
    ensures forall f :: f in rest + [e] <==> f in rest || f == e
  {
  }

  lemma {:induction false} StepBounds(name: string, ndigits: int, rest: seq<string>, e: string, s: Scan, t: Scan)
    requires Summarizes(name, ndigits, rest, s)
    requires t == Counted(s, NumberOf(name, e), EqualsNoCase(e, name + EXTENSION))
    ensures t.width >= ndigits && t.highest >= -1
    ensures forall f <- rest + [e] :: |NumberOf(name, f)| <= t.width
    ensures forall f <- rest + [e] :: |NumberOf(name, f)| == t.width > 0 ==> Number(NumberOf(name, f)) <= t.highest
  {
    forall f <- rest + [e]
      ensures |NumberOf(name, f)| <= t.width && (|NumberOf(name, f)| == t.width > 0 ==> Number(NumberOf(name, f)) <= t.highest)
    {
      assert f in rest || f == e;
    }
  }

  lemma {:induction false} StepWitnesses(name: string, ndigits: int, rest: seq<string>, e: string, s: Scan, t: Scan)
    requires Summarizes(name, ndigits, rest, s)
    requires t == Counted(s, NumberOf(name, e), EqualsNoCase(e, name + EXTENSION))
    ensures t.width == 0 || t.width == ndigits || exists f <- rest + [e] :: |NumberOf(name, f)| == t.width
    ensures t.highest == -1
         || exists f <- rest + [e] :: |NumberOf(name, f)| == t.width > 0 && Number(NumberOf(name, f)) == t.highest
    ensures t.plainExists <==> exists f <- rest + [e] :: EqualsNoCase(f, name + EXTENSION)
  {
    var names := rest + [e];
    assert e in names by { assert names[|rest|] == e; }
    assert forall f <- rest :: f in names;
    if t == s {
    } else if t.plainExists && !s.plainExists {
      assert EqualsNoCase(e, name + EXTENSION);
    } else {
      assert |NumberOf(name, e)| == t.width > 0;
    }
    assert forall f <- names :: f in rest || f == e;
  }

  /** The summary depends on which names there are, not on their order. */
  lemma {:induction false} SummaryUnique(name: string, ndigits: int, names1: seq<string>, names2: seq<string>, s1: Scan, s2: Scan)
    requires forall e :: e in names1 <==> e in names2
    requires Summarizes(name, ndigits, names1, s1) && Summarizes(name, ndigits, names2, s2)
    ensures s1 == s2
  {
  }

  /** The order of the existing names, and repetitions, do not matter. */
  lemma {:induction false} OrderDoesNotMatter(stem: string, ndigits: int, names1: seq<string>, names2: seq<string>)
    requires forall e :: e in names1 <==> e in names2
    ensures NextName(stem, ndigits, names1) == NextName(stem, ndigits, names2)
  {
    var name := FileNamePart(stem);
    ScanSummarizes(name, ndigits, names1);
    ScanSummarizes(name, ndigits, names2);
    SummaryUnique(name, ndigits, names1, names2, ScanAll(name, ndigits, names1), ScanAll(name, ndigits, names2));
  }

  // ---- The name is free ----

  predicate NoSeparator(s: string) { forall i :: 0 <= i < |s| ==> !IsSeparator(s[i]) }

  lemma {:induction false} PartOfExtended(path: string, s: string)
    requires NoSeparator(s)
    ensures FileNamePart(path + s) == FileNamePart(path) + s
  {
    if s == "" {
      assert path + s == path;
    } else {
      var t := s[..|s| - 1];
      assert (path + s)[..|path + s| - 1] == path + t;
      PartOfExtended(path, t);
      assert FileNamePart(path) + t + [s[|s| - 1]] == FileNamePart(path) + s by {
        assert t + [s[|s| - 1]] == s;
      }
    }
  }

  lemma {:induction false} SuffixHasNoSeparator(s: Scan)
    requires s.highest >= -1
    ensures NoSeparator(Suffix(s))
  {
  }

  /** The name in its directory that a call chooses. */
  function NextPart(stem: string, ndigits: int, names: seq<string>): string {
    FileNamePart(stem) + Suffix(ScanAll(FileNamePart(stem), ndigits, names))
  }

  lemma {:induction false} NextPartIsPart(stem: string, ndigits: int, names: seq<string>)
    ensures FileNamePart(NextName(stem, ndigits, names)) == NextPart(stem, ndigits, names)
  {
    var s := ScanAll(FileNamePart(stem), ndigits, names);
    SuffixHasNoSeparator(s);
    PartOfExtended(stem, Suffix(s));
  }

  function Numbered(name: string, digits: string): string { name + "." + digits + EXTENSION }

  /** A name that equals "name.digits.avi" up to case is recognized, with exactly
      those digits. */
  lemma {:induction false} NumberedIsRecognized(name: string, e: string, digits: string)
    requires IsDecimal(digits) && |digits| <= MAX_DIGITS
    requires EqualsNoCase(e, Numbered(name, digits))
    ensures NumberOf(name, e) == digits
  {
    var n, x, f := |name|, |EXTENSION|, Numbered(name, digits);
    assert |f| == n + 1 + |digits| + x;
    assert f[..n] == name && f[n] == '.' && f[n + 1..|f| - x] == digits && f[|f| - x..] == EXTENSION;
    EqualSlices(e, f, 0, n);
    EqualSlices(e, f, n + 1, |f| - x);
    EqualSlices(e, f, |f| - x, |f|);
    assert e[0..n] == e[..n] && f[0..n] == f[..n];
    assert e[|e| - x..|e|] == e[|e| - x..] && f[|f| - x..|f|] == f[|f| - x..];
    assert Fold(e[n]) == Fold(f[n]);
    EqualDigits(e[n + 1..|e| - x], digits);
  }

  /** And nothing else is. */
  lemma {:induction false} RecognizedIsNumbered(name: string, e: string)
    requires NumberOf(name, e) != ""
    ensures EqualsNoCase(e, Numbered(name, NumberOf(name, e)))
  {
    var n, x, d := |name|, |EXTENSION|, NumberOf(name, e);
    var f := Numbered(name, d);
    assert |e| == |f| && d == e[n + 1..|e| - x];
    forall i | 0 <= i < |e|
      ensures Fold(e[i]) == Fold(f[i])
    {
      if i < n {
        assert e[..n][i] == e[i] && f[i] == name[i];
      } else if n < i < |e| - x {
        assert d[i - n - 1] == e[i] && f[i] == d[i - n - 1];
      } else if i >= |e| - x {
        assert e[|e| - x..][i - (|e| - x)] == e[i] && f[i] == EXTENSION[i - (|e| - x)];
      }
    }
  }

  lemma {:induction false} EqualSlices(a: string, b: string, i: nat, j: nat)
    requires EqualsNoCase(a, b) && i <= j <= |a|
    ensures EqualsNoCase(a[i..j], b[i..j])
  {
    forall k | 0 <= k < j - i
      ensures Fold(a[i..j][k]) == Fold(b[i..j][k])
    {
      assert Fold(a[i + k]) == Fold(b[i + k]);
    }
  }

  /** Digits have no case. */
  lemma {:induction false} EqualDigits(d: string, digits: string)
    requires IsDecimal(digits) && EqualsNoCase(d, digits)
    ensures d == digits
  {
    forall i | 0 <= i < |digits|
      ensures d[i] == digits[i]
    {
      assert Fold(d[i]) == Fold(digits[i]);
    }
  }

  ghost predicate Taken(name: string, names: seq<string>) { exists e <- names :: EqualsNoCase(e, name) }

  /** When the only number past nine digits is next, and its name is taken. */
  ghost predicate Exhausted(name: string, names: seq<string>) {
    && (exists e <- names :: NumberOf(name, e) == "999999999")
    && Taken(Numbered(name, "1000000000"), names)
  }

  lemma {:induction false} Pow10OfNine()
    ensures Pow10(9) == 1000000000
  {
    assert Pow10(3) == 1000;
    assert Pow10(6) == 1000000;
  }

  /** The highest number fits its width. */
  lemma {:induction false} HighestFits(name: string, ndigits: int, names: seq<string>, s: Scan)
    requires Summarizes(name, ndigits, names, s) && ndigits <= MAX_DIGITS && s.width > 0
    ensures s.width <= MAX_DIGITS && s.highest + 1 <= Pow10(s.width) <= 1000000000
    ensures s.highest == 999999999 ==> s.width == MAX_DIGITS
  {
    if s.highest >= 0 {
      var e :| e in names && |NumberOf(name, e)| == s.width && Number(NumberOf(name, e)) == s.highest;
      NumberBound(NumberOf(name, e));
    }
    Pow10OfNine();
    Pow10Grows(s.width, MAX_DIGITS);
  }

  /** The digits chosen next, when numbering has begun. */
  lemma {:induction false} NextDigits(name: string, ndigits: int, names: seq<string>, s: Scan)
    requires Summarizes(name, ndigits, names, s) && ndigits <= MAX_DIGITS && s.width > 0
    ensures var d := Padded(s.highest + 1, s.width);
            && IsDecimal(d) && Number(d) == s.highest + 1
            && (|d| > MAX_DIGITS <==> s.highest == 999999999)
            && (s.highest == 999999999 ==> d == "1000000000")
  {
    HighestFits(name, ndigits, names, s);
    PaddedNumber(s.highest + 1, s.width);
    PaddedLength(s.highest + 1, s.width, MAX_DIGITS);
    Pow10OfNine();
    PaddedBillion();
  }

  lemma {:induction false} PaddedBillion()
    ensures Padded(1000000000, 9) == "1000000000"
  {
    assert Padded(1, 0) == "1";
    assert Padded(1000, 3) == "1000" by { assert Padded(10, 1) == "10"; assert Padded(100, 2) == "100"; }
    assert Padded(1000000, 6) == "1000000" by { assert Padded(10000, 4) == "10000"; assert Padded(100000, 5) == "100000"; }
    assert Padded(10000000, 7) == "10000000";
    assert Padded(100000000, 8) == "100000000";
  }

  lemma {:induction false} NinesNumber(d: string)
    requires IsDecimal(d) && |d| <= MAX_DIGITS
    ensures Number(d) == 999999999 <==> d == "999999999"
  {
    NineDigits(d, |d|);
    NumberBound(d);
    Pow10OfNine();
    Pow10Grows(|d|, MAX_DIGITS);
    if |d| == 9 && Number(d) == 999999999 {
      assert forall i :: 0 <= i < |d| ==> d[i] == "999999999"[i];
    }
  }

  /** The largest number with k digits is all nines. */
  lemma {:induction false} NineDigits(d: string, k: nat)
    requires (forall i :: 0 <= i < |d| ==> IsDigit(d[i])) && |d| == k
    ensures Number(d) == Pow10(k) - 1 <==> forall i :: 0 <= i < |d| ==> d[i] == '9'
  {
    if k > 0 {
      var rest := d[..k - 1];
      NineDigits(rest, k - 1);
      NumberBound(rest);
      assert DigitValue(d[k - 1]) == 9 <==> d[k - 1] == '9';
    }
  }

  /** With at most nine digits, the chosen name is taken exactly when numbering is
      exhausted: number 999999999 exists, and so does the ten-digit name after it. */
  lemma {:induction false} TakenOnlyWhenExhausted(stem: string, ndigits: int, names: seq<string>)
    requires ndigits <= MAX_DIGITS
    ensures var name := FileNamePart(stem);
            Taken(NextPart(stem, ndigits, names), names) <==> Exhausted(name, names)
  {
    var name := FileNamePart(stem);
    var s := ScanAll(name, ndigits, names);
    ScanSummarizes(name, ndigits, names);
    if s.width == 0 {
      ZeroWidthIsFree(name, ndigits, names, s);
    } else {
      NextDigits(name, ndigits, names, s);
      var d := Padded(s.highest + 1, s.width);
      NumberedSuffix(name, d);
      if s.highest == 999999999 {
        HighestIsNines(name, ndigits, names, s);
      } else {
        NumberIsFree(name, names, s, d, ndigits);
        NinesAreHighest(name, ndigits, names, s);
      }
    }
  }

  lemma {:induction false} NumberedSuffix(name: string, d: string)
    ensures name + ("." + d + EXTENSION) == Numbered(name, d)
  {
  }

  /** Before numbering begins there are no numbers, and the plain name is chosen
      only if it is free. */
  lemma {:induction false} ZeroWidthIsFree(name: string, ndigits: int, names: seq<string>, s: Scan)
    requires Summarizes(name, ndigits, names, s) && s.width == 0
    ensures !Taken(name + Suffix(s), names) && !Exhausted(name, names)
  {
    if s.plainExists {
      NumberedSuffix(name, "0");
      assert name + Suffix(s) == Numbered(name, "0");
      forall e <- names
        ensures !EqualsNoCase(e, Numbered(name, "0"))
      {
        if EqualsNoCase(e, Numbered(name, "0")) { NumberedIsRecognized(name, e, "0"); }
      }
    }
  }

  lemma {:induction false} NumberIsFree(name: string, names: seq<string>, s: Scan, d: string, ndigits: int)
    requires Summarizes(name, ndigits, names, s) && s.width > 0
    requires IsDecimal(d) && s.width <= |d| <= MAX_DIGITS && Number(d) == s.highest + 1
    ensures !Taken(Numbered(name, d), names)
  {
    forall e <- names
      ensures !EqualsNoCase(e, Numbered(name, d))
    {
      if EqualsNoCase(e, Numbered(name, d)) { NumberedIsRecognized(name, e, d); }
    }
  }

  lemma {:induction false} HighestIsNines(name: string, ndigits: int, names: seq<string>, s: Scan)
    requires Summarizes(name, ndigits, names, s) && s.width > 0 && s.highest == 999999999
    ensures exists e <- names :: NumberOf(name, e) == "999999999"
  {
    var e :| e in names && |NumberOf(name, e)| == s.width && Number(NumberOf(name, e)) == s.highest;
    NinesNumber(NumberOf(name, e));
  }

  lemma {:induction false} NinesAreHighest(name: string, ndigits: int, names: seq<string>, s: Scan)
    requires Summarizes(name, ndigits, names, s) && ndigits <= MAX_DIGITS && s.width > 0 && s.highest != 999999999
    ensures !Exhausted(name, names)
  {
    HighestFits(name, ndigits, names, s);
    forall e <- names
      ensures NumberOf(name, e) != "999999999"
    {
      if NumberOf(name, e) == "999999999" { NinesNumber(NumberOf(name, e)); }
    }
  }

  // ---- Which name it is ----

  /** In an empty directory: the plain name, or number zero of the width asked for. */
  lemma {:induction false} FirstName(stem: string, ndigits: int)
    ensures NextName(stem, ndigits, [])
         == stem + if ndigits > 0 then "." + Padded(0, ndigits) + EXTENSION else EXTENSION
    ensures ndigits > 0 ==> |Padded(0, ndigits)| == ndigits
  {
    assert stem + ("" + EXTENSION) == stem + EXTENSION;
    if ndigits > 0 { ZeroWidth(ndigits); }
  }

  lemma {:induction false} ZeroWidth(width: nat)
    ensures |Padded(0, width)| == width
  {
    if width > 0 { ZeroWidth(width - 1); }
  }

  /** While nothing is numbered and no digits are asked for, the plain name is chosen
      exactly if it is free, and ".0" otherwise. */
  lemma {:induction false} PlainName(stem: string, ndigits: int, names: seq<string>)
    requires ndigits <= 0 && forall e <- names :: NumberOf(FileNamePart(stem), e) == ""
    ensures NextName(stem, ndigits, names)
         == stem + if Taken(FileNamePart(stem) + EXTENSION, names) then ".0" + EXTENSION else EXTENSION
  {
    ScanSummarizes(FileNamePart(stem), ndigits, names);
    assert stem + ("" + EXTENSION) == stem + EXTENSION;
  }

  /** A numbering is continued: among names with numbers of width w, the highest n, and
      none wider, the next name has number n + 1, in width w unless it needs one more
      digit. */
  lemma {:induction false} NumberingContinues(stem: string, ndigits: int, names: seq<string>, e: string, d: string)
    requires e in names && d == NumberOf(FileNamePart(stem), e) != "" && |d| >= ndigits
    requires Highest(FileNamePart(stem), names, d)
    ensures NextName(stem, ndigits, names) == stem + ("." + Successor(d) + EXTENSION)
    ensures Number(Successor(d)) == Number(d) + 1
    ensures |Successor(d)| == if Number(d) + 1 == Pow10(|d|) then |d| + 1 else |d|
  {
    ScanFinds(FileNamePart(stem), ndigits, names, e, d);
    SuffixOf(ScanAll(FileNamePart(stem), ndigits, names), d);
    SuccessorOf(d);
  }

  lemma {:induction false} SuffixOf(s: Scan, d: string)
    requires IsDecimal(d) && s.width == |d| && s.highest == Number(d)
    ensures Suffix(s) == "." + Successor(d) + EXTENSION
  {
  }

  lemma {:induction false} ScanFinds(name: string, ndigits: int, names: seq<string>, e: string, d: string)
    requires e in names && d == NumberOf(name, e) != "" && |d| >= ndigits && Highest(name, names, d)
    ensures var s := ScanAll(name, ndigits, names); s.width == |d| && s.highest == Number(d)
  {
    ScanSummarizes(name, ndigits, names);
    HighestIs(name, ndigits, names, ScanAll(name, ndigits, names), e, d);
  }

  /** No name has a wider number, and none of that width a higher one. */
  ghost predicate Highest(name: string, names: seq<string>, d: string)
    requires forall i :: 0 <= i < |d| ==> IsDigit(d[i])
  {
    forall f <- names :: var g := NumberOf(name, f); |g| < |d| || (|g| == |d| && Number(g) <= Number(d))
  }

  function Successor(d: string): (next: string)
    requires forall i :: 0 <= i < |d| ==> IsDigit(d[i])
    ensures forall i :: 0 <= i < |next| ==> IsDigit(next[i])
  {
    Padded(Number(d) + 1, |d|)
  }

  lemma {:induction false} SuccessorOf(d: string)
    requires forall i :: 0 <= i < |d| ==> IsDigit(d[i])
    ensures Number(Successor(d)) == Number(d) + 1
    ensures |Successor(d)| == if Number(d) + 1 == Pow10(|d|) then |d| + 1 else |d|
  {
    NumberBound(d);
    PaddedNumber(Number(d) + 1, |d|);
    PaddedLength(Number(d) + 1, |d|, |d|);
    PaddedLength(Number(d) + 1, |d|, |d| + 1);
  }

  lemma {:induction false} HighestIs(name: string, ndigits: int, names: seq<string>, s: Scan, e: string, d: string)
    requires Summarizes(name, ndigits, names, s)
    requires e in names && d == NumberOf(name, e) != "" && |d| >= ndigits && Highest(name, names, d)
    ensures s.width == |d| && s.highest == Number(d) && s.highest >= 0
  {
  }

  /** And a numbering is begun at zero when wider digits are asked for than exist. */
  lemma {:induction false} NumberingBegins(stem: string, ndigits: int, names: seq<string>)
    requires ndigits > 0 && forall e <- names :: |NumberOf(FileNamePart(stem), e)| < ndigits
    ensures NextName(stem, ndigits, names) == stem + ("." + Padded(0, ndigits) + EXTENSION)
  {
    ScanSummarizes(FileNamePart(stem), ndigits, names);
  }

  // ---- Feeding the results back ----

  /** n names chosen one after the other, each in view of the ones before. */
  function Feed(stem: string, ndigits: int, names: seq<string>, n: nat): (r: seq<string>)
    ensures |r| == n
  {
    if n == 0 then []
    else
      var before := Feed(stem, ndigits, names, n - 1);
      before + [NextPart(stem, ndigits, names + before)]
  }

  /** No numbered name goes beyond a bound. */
  ghost predicate NumbersUpTo(name: string, names: seq<string>, bound: int) {
    forall e <- names :: NumberOf(name, e) != "" ==> Number(NumberOf(name, e)) <= bound
  }

  lemma {:induction false} NextRaisesByOne(stem: string, ndigits: int, names: seq<string>, bound: int)
    requires ndigits <= MAX_DIGITS && NumbersUpTo(FileNamePart(stem), names, bound) && -1 <= bound < 999999999
    ensures var name, next := FileNamePart(stem), NextPart(stem, ndigits, names);
            !Taken(next, names) && NumbersUpTo(name, names + [next], bound + 1)
  {
    var name, next := FileNamePart(stem), NextPart(stem, ndigits, names);
    NoNines(name, names, bound);
    TakenOnlyWhenExhausted(stem, ndigits, names);
    NextNumber(stem, ndigits, names, bound);
    assert (names + [next])[|names|] == next;
    forall e <- names + [next]
      ensures NumberOf(name, e) != "" ==> Number(NumberOf(name, e)) <= bound + 1
    {
      assert e in names || e == next;
    }
  }

  lemma {:induction false} NoNines(name: string, names: seq<string>, bound: int)
    requires NumbersUpTo(name, names, bound) && bound < 999999999
    ensures forall e <- names :: NumberOf(name, e) != "999999999"
  {
    forall e <- names
      ensures NumberOf(name, e) != "999999999"
    {
      if NumberOf(name, e) == "999999999" { NinesNumber(NumberOf(name, e)); }
    }
  }

  lemma {:induction false} SelfEqual(a: string)
    ensures EqualsNoCase(a, a)
  {
  }

  lemma {:induction false} NextNumber(stem: string, ndigits: int, names: seq<string>, bound: int)
    requires ndigits <= MAX_DIGITS && NumbersUpTo(FileNamePart(stem), names, bound) && -1 <= bound < 999999999
    ensures var name, next := FileNamePart(stem), NextPart(stem, ndigits, names);
            NumberOf(name, next) != "" ==> Number(NumberOf(name, next)) <= bound + 1
  {
    var name, next := FileNamePart(stem), NextPart(stem, ndigits, names);
    var s := ScanAll(name, ndigits, names);
    ScanSummarizes(name, ndigits, names);
    HighestBelow(name, ndigits, names, s, bound);
    if s.width > 0 { NextDigits(name, ndigits, names, s); }
    NumberOfNext(name, s);
  }

  lemma {:induction false} HighestBelow(name: string, ndigits: int, names: seq<string>, s: Scan, bound: int)
    requires Summarizes(name, ndigits, names, s) && NumbersUpTo(name, names, bound) && bound >= -1
    ensures -1 <= s.highest <= bound
  {
  }

  lemma {:induction false} NumberOfNext(name: string, s: Scan)
    requires s.highest >= -1
    requires s.width > 0 ==> var d := Padded(s.highest + 1, s.width); |d| <= MAX_DIGITS && Number(d) == s.highest + 1
    ensures var d := NumberOf(name, name + Suffix(s));
            d != "" ==> Number(d) == if s.width > 0 then s.highest + 1 else 0
  {
    if s.width > 0 {
      var d := Padded(s.highest + 1, s.width);
      NumberedSuffix(name, d);
      HasNumber(name, name + Suffix(s), d);
    } else if s.plainExists {
      NumberedSuffix(name, "0");
      HasNumber(name, name + Suffix(s), "0");
      ZeroNumber();
    } else {
      HasNoNumber(name);
    }
  }

  lemma {:induction false} ZeroNumber()
    ensures Number("0") == 0
  {
    assert "0"[..0] == "";
  }

  lemma {:induction false} HasNumber(name: string, e: string, d: string)
    requires IsDecimal(d) && |d| <= MAX_DIGITS && e == Numbered(name, d)
    ensures NumberOf(name, e) == d
  {
    SelfEqual(e);
    NumberedIsRecognized(name, e, d);
  }

  lemma {:induction false} HasNoNumber(name: string)
    ensures NumberOf(name, name + EXTENSION) == ""
  {
    SelfEqual(name + EXTENSION);
  }

  /** Every name of a feed is free when it is chosen: it matches none of the
      existing names and none chosen before, up to case. */
  lemma {:induction false} FeedIsFree(stem: string, ndigits: int, names: seq<string>, bound: int, n: nat)
    requires ndigits <= MAX_DIGITS && NumbersUpTo(FileNamePart(stem), names, bound)
    requires -1 <= bound && bound + n <= 999999999
    ensures NumbersUpTo(FileNamePart(stem), names + Feed(stem, ndigits, names, n), bound + n)
    ensures forall i :: 0 <= i < n ==>
              !Taken(Feed(stem, ndigits, names, n)[i], names + Feed(stem, ndigits, names, n)[..i])
  {
    var feed := Feed(stem, ndigits, names, n);
    if n == 0 {
      assert names + feed == names;
    } else {
      var before := Feed(stem, ndigits, names, n - 1);
      FeedIsFree(stem, ndigits, names, bound, n - 1);
      NextRaisesByOne(stem, ndigits, names + before, bound + n - 1);
      assert names + feed == names + before + [NextPart(stem, ndigits, names + before)];
      assert forall i :: 0 <= i < n ==> feed[..i] == before[..i];
      assert before[..n - 1] == before;
    }
  }

  /** So the names of a feed are pairwise distinct, up to case. */
  lemma {:induction false} FeedIsDistinct(stem: string, ndigits: int, names: seq<string>, bound: int, n: nat, i: nat, j: nat)
    requires ndigits <= MAX_DIGITS && NumbersUpTo(FileNamePart(stem), names, bound)
    requires -1 <= bound && bound + n <= 999999999 && i < j < n
    ensures !EqualsNoCase(Feed(stem, ndigits, names, n)[i], Feed(stem, ndigits, names, n)[j])
  {
    FeedIsFree(stem, ndigits, names, bound, n);
    var feed := Feed(stem, ndigits, names, n);
    var earlier := names + feed[..j];
    assert earlier[|names| + i] == feed[i];
    assert !Taken(feed[j], earlier);
  }

  /** Asking for more than nine digits defeats the scan: the name chosen is always
      number zero, whatever exists, and is free exactly if nobody has taken it. */
  lemma {:induction false} TooManyDigits(stem: string, ndigits: int, names: seq<string>)
    requires ndigits > MAX_DIGITS
    ensures NextPart(stem, ndigits, names) == Numbered(FileNamePart(stem), Padded(0, ndigits))
    ensures Taken(NextPart(stem, ndigits, names), names) <==> Taken(Numbered(FileNamePart(stem), Padded(0, ndigits)), names)
  {
    var name := FileNamePart(stem);
    ScanSummarizes(name, ndigits, names);
    NumberedSuffix(name, Padded(0, ndigits));
  }

  /** Two files that exhaust the numbering of any stem. */
  lemma {:induction false} TwoFilesExhaust(stem: string, ndigits: int) returns (names: seq<string>)
    requires ndigits <= MAX_DIGITS
    ensures names == [Numbered(FileNamePart(stem), "999999999"), Numbered(FileNamePart(stem), "1000000000")]
    ensures Taken(NextPart(stem, ndigits, names), names)
  {
    var name := FileNamePart(stem);
    names := [Numbered(name, "999999999"), Numbered(name, "1000000000")];
    HasNumber(name, names[0], "999999999");
    SelfEqual(names[1]);
    assert names[0] in names && names[1] in names;
    TakenOnlyWhenExhausted(stem, ndigits, names);
  }

  /** And one file that a request for more than nine digits runs into. */
  lemma {:induction false} OneFileIsTaken(stem: string, ndigits: int) returns (names: seq<string>)
    requires ndigits > MAX_DIGITS
    ensures names == [Numbered(FileNamePart(stem), Padded(0, ndigits))]
    ensures NextPart(stem, ndigits, names) == names[0]
  {
    names := [Numbered(FileNamePart(stem), Padded(0, ndigits))];
    TooManyDigits(stem, ndigits, names);
  }

  // ---- Stems and bases ----

  function CaptureStem(base: string, date: string): string {
    if date == "" then base else base + "." + date
  }

  /** Where the last component begins. */
  function NameStart(path: string): (i: nat)
    ensures i <= |path|
    ensures i > 0 ==> IsSeparator(path[i - 1])
    ensures forall k :: i <= k < |path| ==> !IsSeparator(path[k])
  {
    if path == "" then 0
    else if IsSeparator(path[|path| - 1]) then |path|
    else NameStart(path[..|path| - 1])
  }

  function CaptureBaseFromFilename(file: string): string {
    file[..FirstOf(file, '.', NameStart(file))]
  }

  /** The last component is what follows its start. */
  lemma {:induction false} PartFromStart(path: string)
    ensures FileNamePart(path) == path[NameStart(path)..]
  {
    if path != "" && !IsSeparator(path[|path| - 1]) { PartFromStart(path[..|path| - 1]); }
  }

  /** What a stem with a suffix adds to the base. */
  function Tail(date: string, suffix: string): string {
    if date == "" then suffix else "." + date + suffix
  }

  lemma {:induction false} StemTail(base: string, date: string, suffix: string)
    requires suffix != "" && suffix[0] == '.' && NoSeparator(suffix)
    ensures CaptureStem(base, date) + suffix == base + Tail(date, suffix)
    ensures Tail(date, suffix)[0] == '.'
    ensures NoSeparator(Tail(date, suffix)) <==> NoSeparator(date)
  {
    var tail := Tail(date, suffix);
    if date != "" {
      assert forall k :: 0 <= k < |date| ==> tail[k + 1] == date[k];
    }
  }

  /** The base of a chosen name is the base it was made from exactly when the base
      has no dot in its last component and the date has no separator. */
  lemma {:induction false} BaseIsRecovered(base: string, date: string, ndigits: int, names: seq<string>)
    ensures CaptureBaseFromFilename(NextName(CaptureStem(base, date), ndigits, names)) == base
            <==> '.' !in FileNamePart(base) && NoSeparator(date)
  {
    var s := ScanAll(FileNamePart(CaptureStem(base, date)), ndigits, names);
    SuffixHasNoSeparator(s);
    RecoveredFromStem(base, date, Suffix(s));
  }

  lemma {:induction false} RecoveredFromStem(base: string, date: string, suffix: string)
    requires suffix != "" && suffix[0] == '.' && NoSeparator(suffix)
    ensures CaptureBaseFromFilename(CaptureStem(base, date) + suffix) == base
            <==> '.' !in FileNamePart(base) && NoSeparator(date)
  {
    StemTail(base, date, suffix);
    RecoveredFrom(base, Tail(date, suffix));
    DotInPart(base);
  }

  lemma {:induction false} DotInPart(base: string)
    ensures '.' in FileNamePart(base) <==> exists k :: NameStart(base) <= k < |base| && base[k] == '.'
  {
    PartFromStart(base);
    var start := NameStart(base);
    assert forall k :: start <= k < |base| ==> base[k] == FileNamePart(base)[k - start];
  }

  lemma {:induction false} RecoveredFrom(base: string, tail: string)
    requires tail != "" && tail[0] == '.'
    ensures CaptureBaseFromFilename(base + tail) == base
            <==> NoSeparator(tail) && forall k :: NameStart(base) <= k < |base| ==> base[k] != '.'
  {
    var file := base + tail;
    if NoSeparator(tail) {
      SameStart(base, tail);
      DotInBase(base, tail);
    } else {
      LaterStart(base, tail);
      assert |CaptureBaseFromFilename(file)| > |base|;
    }
  }

  lemma {:induction false} DotInBase(base: string, tail: string)
    requires tail != "" && tail[0] == '.'
    ensures (base + tail)[..FirstOf(base + tail, '.', NameStart(base))] == base
            <==> forall k :: NameStart(base) <= k < |base| ==> base[k] != '.'
  {
    var file := base + tail;
    assert file[|base|] == '.' && file[..|base|] == base;
    assert forall k :: 0 <= k < |base| ==> file[k] == base[k];
  }

  lemma {:induction false} LaterStart(base: string, tail: string)
    requires !NoSeparator(tail)
    ensures NameStart(base + tail) > |base|
  {
    var k :| 0 <= k < |tail| && IsSeparator(tail[k]);
    assert (base + tail)[|base| + k] == tail[k];
  }

  lemma {:induction false} SameStart(base: string, tail: string)
    requires NoSeparator(tail)
    ensures NameStart(base + tail) == NameStart(base)
  {
    PartOfExtended(base, tail);
    PartFromStart(base);
    PartFromStart(base + tail);
  }
}
