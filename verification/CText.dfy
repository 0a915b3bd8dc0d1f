/** The pieces of C string handling that the text formats rely on. */
module CText {
  import opened Words

  /** `isspace` in the C locale. */
  predicate IsSpace(c: char) {
    c == ' ' || 9 <= c as int <= 13
  }

  predicate IsDigit(c: char) {
    '0' <= c <= '9'
  }

  /** First position at or after `i` that holds no white space. */
  function SkipSpaces(s: string, i: nat): (r: nat)
    requires i <= |s|
    ensures i <= r <= |s|
    ensures r < |s| ==> !IsSpace(s[r])
    ensures forall k :: i <= k < r ==> IsSpace(s[k])
    decreases |s| - i
  {
    if i < |s| && IsSpace(s[i]) then SkipSpaces(s, i + 1) else i
  }

  /** End of the run of non-space characters that starts at `i`. */
  function WordEnd(s: string, i: nat): (r: nat)
    requires i <= |s|
    ensures i <= r <= |s|
    ensures r < |s| ==> IsSpace(s[r])
    ensures forall k :: i <= k < r ==> !IsSpace(s[k])
    decreases |s| - i
  {
    if i < |s| && !IsSpace(s[i]) then WordEnd(s, i + 1) else i
  }

  /** End of the run of digits that starts at `i`. */
  function DigitsEnd(s: string, i: nat): (r: nat)
    requires i <= |s|
    ensures i <= r <= |s|
    ensures r < |s| ==> !IsDigit(s[r])
    ensures forall k :: i <= k < r ==> IsDigit(s[k])
    decreases |s| - i
  {
    if i < |s| && IsDigit(s[i]) then DigitsEnd(s, i + 1) else i
  }

  // ---------- decimal numbers ----------

  /** `%u`, `%llu` and `%zu` in `printf`. */
  function Decimal(n: nat): (s: string)
    ensures |s| > 0
    ensures forall k :: 0 <= k < |s| ==> IsDigit(s[k])
  {
    var last := ['0' + (n % 10) as char];
    if n < 10 then last else Decimal(n / 10) + last
  }

  function Value(s: string): nat
    requires forall k :: 0 <= k < |s| ==> IsDigit(s[k])
  {
    if s == [] then 0
    else
      var last := s[|s| - 1];
      assert IsDigit(last);
      10 * Value(s[..|s| - 1]) + (last as int - '0' as int)
  }

  lemma {:induction false} DecimalReadsBack(n: nat)
    ensures Value(Decimal(n)) == n
  {
    var s := Decimal(n);
    if n < 10 {
      assert s[..|s| - 1] == [];
    } else {
      DecimalReadsBack(n / 10);
      assert s[..|s| - 1] == Decimal(n / 10);
    }
  }

  lemma DecimalGrows(n: nat)
    ensures |Decimal(n)| <= 1 + |Decimal(n / 10)|
    ensures n < 10 ==> |Decimal(n)| == 1
  {
  }

  lemma DecimalGrowsByFive(n: nat)
    ensures |Decimal(n)| <= 5 + |Decimal(n / 100000)|
  {
    var a, b, c, d := n / 10, n / 100, n / 1000, n / 10000;
    DecimalGrows(n);
    DecimalGrows(a);
    DecimalGrows(b);
    DecimalGrows(c);
    DecimalGrows(d);
    assert a / 10 == b && b / 10 == c && c / 10 == d && d / 10 == n / 100000;
  }

  lemma DecimalLength(n: nat)
    requires n < U64
    ensures |Decimal(n)| <= 21
  {
    DecimalGrowsByFive(n);
    DecimalGrowsByFive(n / 100000);
    DecimalGrowsByFive(n / 100000 / 100000);
    DecimalGrowsByFive(n / 100000 / 100000 / 100000);
    assert n / 100000 / 100000 / 100000 / 100000 < 10;
    DecimalGrows(n / 100000 / 100000 / 100000 / 100000);
  }

  /**
   * `strtoul` at position `i`, as the `scanf` conversions use it: white space, an optional sign,
   * digits; saturating at the top of the word. None if there is no digit.
   */
  function ScanUnsigned(s: string, i: nat): (r: Option<int>)
    requires i <= |s|
    ensures r.Some? ==> 0 <= r.value < U64
  {
    var a := SkipSpaces(s, i);
    var signed := a < |s| && (s[a] == '-' || s[a] == '+');
    var d := if signed then a + 1 else a;
    var e := DigitsEnd(s, d);
    if e == d then None
    else
      var v := Value(s[d..e]);
      if v >= U64 then Some(U64 - 1)
      else if signed && s[a] == '-' then Some(Wrap64(0 - v))
      else Some(v)
  }

  /** Scanning from `i` a number whose digits are exactly `s[d..e]`. */
  lemma ScanDigits(s: string, i: nat, d: nat, e: nat)
    requires i <= d < e <= |s|
    requires forall k :: i <= k < d ==> IsSpace(s[k])
    requires forall k :: d <= k < e ==> IsDigit(s[k])
    requires e < |s| ==> !IsDigit(s[e])
    requires Value(s[d..e]) < U64
    ensures ScanUnsigned(s, i) == Some(Value(s[d..e]))
  {
    assert IsDigit(s[d]);
    assert SkipSpaces(s, i) == d;
    assert DigitsEnd(s, d) == e;
  }

  /** A printed number is scanned back from the middle of a text, with or without the space before it. */
  lemma ScanReadsDecimal(before: string, n: nat, after: string, i: nat)
    requires n < U64
    requires after == [] || !IsDigit(after[0])
    requires before != [] && before[|before| - 1] == ' '
    requires |before| - 1 <= i <= |before|
    ensures ScanUnsigned(before + Decimal(n) + after, i) == Some(n)
  {
    var digits := Decimal(n);
    var s, d := before + digits + after, |before|;
    var e := d + |digits|;
    assert s[d..e] == digits;
    DecimalReadsBack(n);
    assert i < d ==> s[i] == ' ';
    ScanDigits(s, i, d, e);
  }

  /** `+` is ignored, `-` negates within the 64-bit word. */
  lemma ScanReadsSigned(n: nat, after: string)
    requires n < U64 && (after == [] || !IsDigit(after[0]))
    ensures ScanUnsigned("+" + Decimal(n) + after, 0) == Some(n)
    ensures ScanUnsigned("-" + Decimal(n) + after, 0) == Some(if n == 0 then 0 else U64 - n)
  {
    SignedDigits("+", n, after);
    SignedDigits("-", n, after);
  }

  lemma SignedDigits(sign: string, n: nat, after: string)
    requires sign == "+" || sign == "-"
    requires after == [] || !IsDigit(after[0])
    ensures var s := sign + Decimal(n) + after;
            && SkipSpaces(s, 0) == 0 && s[0] == sign[0]
            && DigitsEnd(s, 1) == 1 + |Decimal(n)| && Value(s[1..1 + |Decimal(n)|]) == n
  {
    var s, digits := sign + Decimal(n) + after, Decimal(n);
    assert s[1..1 + |digits|] == digits;
    assert forall k :: 1 <= k < 1 + |digits| ==> s[k] == digits[k - 1];
    DecimalReadsBack(n);
  }

  /** Larger numbers are read as the largest 64-bit word. */
  lemma ScanSaturates(n: nat, after: string)
    requires n >= U64 && (after == [] || !IsDigit(after[0]))
    ensures ScanUnsigned(Decimal(n) + after, 0) == Some(U64 - 1)
  {
    var s, digits := Decimal(n) + after, Decimal(n);
    assert s[0..|digits|] == digits && IsDigit(s[0]);
    assert forall k :: 0 <= k < |digits| ==> s[k] == digits[k];
    assert SkipSpaces(s, 0) == 0 && DigitsEnd(s, 0) == |digits|;
    DecimalReadsBack(n);
  }

  // ---------- reading a file line by line ----------

  /** Length of what `fgets` with a buffer of `size` takes from the front of `text`. */
  function FgetsLength(text: string, size: nat): (n: nat)
    requires size > 1
    ensures n <= |text| && n < size
    ensures text != [] ==> n > 0
  {
    var nl := First(text, '\n', 0);
    var whole := if nl < |text| then nl + 1 else |text|;
    if whole < size then whole else size - 1
  }

  lemma FgetsTakesLine(line: string, rest: string, size: nat)
    requires size > 1 && |line| + 1 < size
    requires forall k :: 0 <= k < |line| ==> line[k] != '\n'
    ensures FgetsLength(line + "\n" + rest, size) == |line| + 1
    ensures (line + "\n" + rest)[..|line| + 1] == line + "\n"
    ensures (line + "\n" + rest)[|line| + 1..] == rest
  {
    var text := line + "\n" + rest;
    assert text[|line|] == '\n';
    assert forall k :: 0 <= k < |line| ==> text[k] == line[k];
  }
}
