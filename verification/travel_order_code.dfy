/** The travel-order reference code (the `generateCode` helper of
    actions/travel-order.ts): `TO-DD-MM-YY-XY`, from the day of the month,
    the zero-based month, the year and two random capital letters. The date
    parts and the two random letter indices (each in 0..25) are parameters. */
module TravelOrderCode {
  import opened Wrappers
  import opened JsStrings

  const Prefix: string := "TO-"

  predicate IsUpper(c: char) {
    'A' <= c <= 'Z'
  }

  /** `String.fromCharCode(index + 65)`: the capital letter with that index. */
  function Letter(index: nat): (c: char)
    requires index < 26
    ensures IsUpper(c)
    ensures c as int - 'A' as int == index
  {
    (index + 65) as char
  }

  /** The code's layout around its three two-character fields and two letters. */
  function Layout(dd: string, mm: string, yy: string, l1: char, l2: char): (r: string)
    ensures |r| == 8 + |dd| + |mm| + |yy|
    ensures r[..3] == Prefix && r[|r| - 3] == '-' && r[|r| - 2] == l1 && r[|r| - 1] == l2
  {
    var r := Prefix + dd + "-" + mm + "-" + yy + "-" + [l1, l2];
    assert r == Prefix + (dd + "-" + mm + "-" + yy + "-" + [l1, l2]);
    r
  }

  /** With two-character fields the layout is these 14 characters. */
  lemma LayoutChars(dd: string, mm: string, yy: string, l1: char, l2: char)
    requires |dd| == 2 && |mm| == 2 && |yy| == 2
    ensures Layout(dd, mm, yy, l1, l2)
            == ['T', 'O', '-', dd[0], dd[1], '-', mm[0], mm[1], '-', yy[0], yy[1], '-', l1, l2]
  {
  }

  /** The code for a date and two letter indices. */
  function GenerateCode(day: nat, month0: nat, year: int, r1: nat, r2: nat): (code: string)
    requires r1 < 26 && r2 < 26
    ensures |code| >= 13 && code[..3] == Prefix
    ensures code[|code| - 3] == '-' && IsUpper(code[|code| - 2]) && IsUpper(code[|code| - 1])
  {
    var dd := PadStart(NatToDecimal(day), 2, '0');
    var mm := PadStart(NatToDecimal(month0 + 1), 2, '0');
    var yy := Slice(IntToString(year), -2);
    assert |dd| >= 2 && |mm| >= 2 && |yy| >= 1;
    Layout(dd, mm, yy, Letter(r1), Letter(r2))
  }

  /** The absolute value, whose last two digits the year field shows. */
  function Abs(i: int): nat {
    if i < 0 then -i else i
  }

  /** The two characters a number below 100 is written as, zero-padded. */
  function TwoDigits(n: nat): (s: string)
    requires n < 100
    ensures |s| == 2 && IsDigitChar(s[0]) && IsDigitChar(s[1])
  {
    [Digit(n / 10), Digit(n % 10)]
  }

  lemma LastTwoDigitsArithmetic(a: nat)
    ensures a / 10 % 10 == a % 100 / 10 && a % 10 == a % 100 % 10
  {
    var q, r := a / 100, a % 100;
    var hi, lo := r / 10, r % 10;
    assert a == 10 * (10 * q + hi) + lo;
    assert a / 10 == 10 * q + hi;
    assert a % 10 == lo;
  }

  /** For a real date and a year of two or more digits the code is 14
      characters: the day and the one-based month as two zero-padded digits,
      the last two digits of the year, then the two letters. */
  lemma CodeLayout(day: nat, month0: nat, year: int, r1: nat, r2: nat)
    requires 1 <= day <= 31 && month0 < 12 && Abs(year) >= 10
    requires r1 < 26 && r2 < 26
    ensures GenerateCode(day, month0, year, r1, r2)
            == Layout(TwoDigits(day), TwoDigits(month0 + 1), TwoDigits(Abs(year) % 100), Letter(r1), Letter(r2))
  {
    PadTwoDigits(day);
    PadTwoDigits(month0 + 1);
    LastTwoOfInt(year);
    LastTwoDigitsArithmetic(Abs(year));
  }

  /** The fields a code carries. */
  datatype CodeFields = CodeFields(day: nat, month: nat, year2: nat, letter1: nat, letter2: nat)

  /** Fields a generated code can carry: a day of 1..31, a month of 1..12,
      two year digits and two letter indices. */
  predicate InRange(f: CodeFields) {
    1 <= f.day <= 31 && 1 <= f.month <= 12 && f.year2 < 100 && f.letter1 < 26 && f.letter2 < 26
  }

  function TwoDigitValue(hi: char, lo: char): (n: nat)
    requires IsDigitChar(hi) && IsDigitChar(lo)
    ensures n < 100
  {
    DigitValue(hi) * 10 + DigitValue(lo)
  }

  /** Reads the fields back from a code; anything not of the generated shape is rejected. */
  function ParseCode(s: string): (r: Option<CodeFields>)
    ensures r.Some? ==> InRange(r.value) && |s| == 14 && s[..3] == Prefix
  {
    if && |s| == 14 && s[..3] == Prefix && s[5] == '-' && s[8] == '-' && s[11] == '-'
       && IsDigitChar(s[3]) && IsDigitChar(s[4]) && IsDigitChar(s[6]) && IsDigitChar(s[7])
       && IsDigitChar(s[9]) && IsDigitChar(s[10]) && IsUpper(s[12]) && IsUpper(s[13])
    then
      var f := CodeFields(
        TwoDigitValue(s[3], s[4]), TwoDigitValue(s[6], s[7]), TwoDigitValue(s[9], s[10]),
        s[12] as int - 'A' as int, s[13] as int - 'A' as int);
      if InRange(f) then Some(f) else None
    else None
  }

  lemma DigitRoundTrip(d: nat)
    requires d < 10
    ensures DigitValue(Digit(d)) == d
  {
  }

  /** Two digits read back as the number below 100 they were written from. */
  lemma TwoDigitRoundTrip(n: nat)
    requires n < 100
    ensures TwoDigitValue(TwoDigits(n)[0], TwoDigits(n)[1]) == n
  {
    DigitRoundTrip(n / 10);
    DigitRoundTrip(n % 10);
  }

  /** The parser on a laid-out code reads each field from its own characters. */
  lemma ParseLayout(dd: string, mm: string, yy: string, l1: char, l2: char)
    requires |dd| == 2 && |mm| == 2 && |yy| == 2
    requires IsDigitChar(dd[0]) && IsDigitChar(dd[1]) && IsDigitChar(mm[0]) && IsDigitChar(mm[1])
    requires IsDigitChar(yy[0]) && IsDigitChar(yy[1]) && IsUpper(l1) && IsUpper(l2)
    ensures var f := CodeFields(
              TwoDigitValue(dd[0], dd[1]), TwoDigitValue(mm[0], mm[1]), TwoDigitValue(yy[0], yy[1]),
              l1 as int - 'A' as int, l2 as int - 'A' as int);
            ParseCode(Layout(dd, mm, yy, l1, l2)) == if InRange(f) then Some(f) else None
  {
    LayoutChars(dd, mm, yy, l1, l2);
    var s := Layout(dd, mm, yy, l1, l2);
    assert s[..3] == Prefix;
  }

  /** A code the parser accepts is laid out from its own characters. */
  lemma ParsedIsLayout(s: string)
    requires ParseCode(s).Some?
    ensures s == Layout([s[3], s[4]], [s[6], s[7]], [s[9], s[10]], s[12], s[13])
  {
    LayoutChars([s[3], s[4]], [s[6], s[7]], [s[9], s[10]], s[12], s[13]);
    assert s[..3] == Prefix;
    assert s[0] == 'T' && s[1] == 'O' && s[2] == '-';
  }

  /** In-range fields, laid out, parse back to themselves. */
  lemma ParseLaidOutFields(f: CodeFields)
    requires InRange(f)
    ensures ParseCode(Layout(TwoDigits(f.day), TwoDigits(f.month), TwoDigits(f.year2),
                             Letter(f.letter1), Letter(f.letter2))) == Some(f)
  {
    var dd, mm, yy := TwoDigits(f.day), TwoDigits(f.month), TwoDigits(f.year2);
    var l1, l2 := Letter(f.letter1), Letter(f.letter2);
    ParseLayout(dd, mm, yy, l1, l2);
    TwoDigitRoundTrip(f.day);
    TwoDigitRoundTrip(f.month);
    TwoDigitRoundTrip(f.year2);
    assert f == CodeFields(
      TwoDigitValue(dd[0], dd[1]), TwoDigitValue(mm[0], mm[1]), TwoDigitValue(yy[0], yy[1]),
      l1 as int - 'A' as int, l2 as int - 'A' as int);
  }

  /** A code the parser accepts is the layout of the fields it reads. */
  lemma ParsedIsLaidOutFields(s: string)
    requires ParseCode(s).Some?
    ensures var f := ParseCode(s).value;
            s == Layout(TwoDigits(f.day), TwoDigits(f.month), TwoDigits(f.year2),
                        Letter(f.letter1), Letter(f.letter2))
  {
    var f := ParseCode(s).value;
    ParsedIsLayout(s);
    DigitsReadBack(s[3], s[4]);
    DigitsReadBack(s[6], s[7]);
    DigitsReadBack(s[9], s[10]);
    assert TwoDigits(f.day) == [s[3], s[4]];
    assert TwoDigits(f.month) == [s[6], s[7]];
    assert TwoDigits(f.year2) == [s[9], s[10]];
    assert Letter(f.letter1) as int == s[12] as int;
    assert Letter(f.letter2) as int == s[13] as int;
  }

  /** A generated code parses back to its day, its one-based month, the last
      two digits of its year and its two letters. */
  lemma GenerateThenParse(day: nat, month0: nat, year: int, r1: nat, r2: nat)
    requires 1 <= day <= 31 && month0 < 12 && Abs(year) >= 10
    requires r1 < 26 && r2 < 26
    ensures ParseCode(GenerateCode(day, month0, year, r1, r2))
            == Some(CodeFields(day, month0 + 1, Abs(year) % 100, r1, r2))
  {
    CodeLayout(day, month0, year, r1, r2);
    ParseLaidOutFields(CodeFields(day, month0 + 1, Abs(year) % 100, r1, r2));
  }

  /** Every code the parser accepts is the code generated from its fields,
      for any year of two or more digits ending in the year digits. */
  lemma ParseThenGenerate(s: string, year: int)
    requires ParseCode(s).Some?
    requires Abs(year) >= 10 && Abs(year) % 100 == ParseCode(s).value.year2
    ensures var f := ParseCode(s).value;
            GenerateCode(f.day, f.month - 1, year, f.letter1, f.letter2) == s
  {
    var f := ParseCode(s).value;
    CodeLayout(f.day, f.month - 1, year, f.letter1, f.letter2);
    ParsedIsLaidOutFields(s);
  }

  /** Two digit characters are the zero-padded form of the number they denote. */
  lemma DigitsReadBack(hi: char, lo: char)
    requires IsDigitChar(hi) && IsDigitChar(lo)
    ensures TwoDigits(TwoDigitValue(hi, lo)) == [hi, lo]
  {
    var n := TwoDigitValue(hi, lo);
    assert n / 10 == DigitValue(hi) && n % 10 == DigitValue(lo);
  }

  /** The month field of a real date lies in `01`..`12`. */
  lemma MonthFieldInRange(day: nat, month0: nat, year: int, r1: nat, r2: nat)
    requires 1 <= day <= 31 && month0 < 12 && Abs(year) >= 10
    requires r1 < 26 && r2 < 26
    ensures var code := GenerateCode(day, month0, year, r1, r2);
            && IsDigitChar(code[6]) && IsDigitChar(code[7])
            && 1 <= TwoDigitValue(code[6], code[7]) <= 12
  {
    GenerateThenParse(day, month0, year, r1, r2);
  }

  /** The year field of a one-digit year: its digit, after a minus sign when negative. */
  function ShortYearField(year: int): (s: string)
    requires -9 <= year <= 9
  {
    if year >= 0 then [Digit(year)] else ['-', Digit(-year)]
  }

  lemma ShortYearSlice(year: int)
    requires -9 <= year <= 9
    ensures Slice(IntToString(year), -2) == ShortYearField(year)
  {
    if year >= 0 {
      assert NatToDecimal(year) == [Digit(year)];
    } else {
      assert NatToDecimal(-year) == [Digit(-year)];
      assert IntToString(year) == ['-', Digit(-year)];
    }
  }

  /** The year field sits right after the third dash, whatever its length. */
  lemma LayoutYearField(dd: string, mm: string, yy: string, l1: char, l2: char)
    requires |dd| == 2 && |mm| == 2
    ensures |Layout(dd, mm, yy, l1, l2)| == 14 + |yy| - 2
    ensures Layout(dd, mm, yy, l1, l2)[9..9 + |yy|] == yy
  {
    var r := Layout(dd, mm, yy, l1, l2);
    assert r == (Prefix + dd + "-" + mm + "-") + (yy + "-" + [l1, l2]);
  }

  /** For a one-digit year the code is laid out around the short year field. */
  lemma ShortYearLayout(day: nat, month0: nat, year: int, r1: nat, r2: nat)
    requires 1 <= day <= 31 && month0 < 12 && -9 <= year <= 9
    requires r1 < 26 && r2 < 26
    ensures GenerateCode(day, month0, year, r1, r2)
            == Layout(TwoDigits(day), TwoDigits(month0 + 1), ShortYearField(year), Letter(r1), Letter(r2))
  {
    PadTwoDigits(day);
    PadTwoDigits(month0 + 1);
    ShortYearSlice(year);
  }

  /** A one-digit year leaves a one-character year field and a 13-character
      code; a negative one-digit year leaves its minus sign in the field and a
      14-character code. */
  lemma OneDigitYearField(day: nat, month0: nat, year: int, r1: nat, r2: nat)
    requires 1 <= day <= 31 && month0 < 12 && -9 <= year <= 9
    requires r1 < 26 && r2 < 26
    ensures var code := GenerateCode(day, month0, year, r1, r2);
            && (year >= 0 ==> |code| == 13 && code[9..10] == [Digit(year)])
            && (year < 0 ==> |code| == 14 && code[9..11] == ['-', Digit(-year)])
  {
    ShortYearLayout(day, month0, year, r1, r2);
    LayoutYearField(TwoDigits(day), TwoDigits(month0 + 1), ShortYearField(year), Letter(r1), Letter(r2));
  }

  /** The code for 5 January of the year -7 keeps the minus sign. */
  lemma NegativeOneDigitYearSample()
    ensures GenerateCode(5, 0, -7, 0, 25) == "TO-05-01--7-AZ"
  {
    ShortYearLayout(5, 0, -7, 0, 25);
    var dd, mm, yy := TwoDigits(5), TwoDigits(1), ShortYearField(-7);
    assert dd == "05" && mm == "01" && yy == "-7";
    assert Letter(0) == 'A' && Letter(25) == 'Z';
    NegativeSampleLayout();
  }

  lemma NegativeSampleLayout()
    ensures Layout("05", "01", "-7", 'A', 'Z') == "TO-05-01--7-AZ"
  {
  }
}
