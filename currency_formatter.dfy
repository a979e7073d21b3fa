/** src/lib/currencyFormatter.ts: the Brazilian-real money input. The user types digits, the
    digits are read as a number of cents, and the display is produced by `Intl.NumberFormat`,
    which is a parameter here (`intl`), as is `parseFloat`. */
module CurrencyFormatter {
  import opened Common
  import opened JsText

  /** A JavaScript number as far as these functions distinguish it: NaN or a finite value. */
  datatype Num = NaN | Finite(r: real)

  /** The argument of `formatCurrency`, a number or a string. */
  datatype CurrencyArg = NumberArg(n: Num) | StringArg(s: string)

  /** The triple every input function returns. */
  datatype CurrencyInput = CurrencyInput(formatted: string, numeric: real, rawCents: string)

  const ZeroDisplay: string := "R$ 0,00"
  const ZeroInput: CurrencyInput := CurrencyInput(ZeroDisplay, 0.0, "0")

  /** `formatCurrency(value)`: NaN (also after `parseFloat` of a string) shows as zero; any
      other value is handed to the locale formatter. */
  function FormatCurrency(value: CurrencyArg, parseFloat: string -> Num, intl: real -> string): (r: string)
    ensures value == NumberArg(NaN) ==> r == ZeroDisplay
    ensures value.NumberArg? && value.n.Finite? ==> r == intl(value.n.r)
  {
    var numValue := if value.StringArg? then parseFloat(value.s) else value.n;
    if numValue.NaN? then ZeroDisplay else intl(numValue.r)
  }

  /** `unformatCurrency(value)`: `value.replace(/\D/g, '')`, the ASCII digits of the string. */
  function UnformatCurrency(value: string): (r: string)
    ensures AllDigits(r) && |r| <= |value|
  {
    Filter(value, IsDigit)
  }

  /** Unformatting works character by character: it commutes with concatenation and keeps a
      single character exactly when it is a digit; so it keeps the digits, in order. */
  lemma UnformatCharByChar(a: string, b: string, c: char)
    ensures UnformatCurrency(a + b) == UnformatCurrency(a) + UnformatCurrency(b)
    ensures UnformatCurrency([c]) == if IsDigit(c) then [c] else []
  {
    FilterConcat(a, b, IsDigit);
    assert [c][1..] == [];
  }

  /** A string of digits is left as it is; in particular unformatting is idempotent. */
  lemma UnformatDigits(s: string)
    requires AllDigits(s)
    ensures UnformatCurrency(s) == s
  {
    FilterAll(s, IsDigit);
  }

  lemma UnformatIdempotent(value: string)
    ensures UnformatCurrency(UnformatCurrency(value)) == UnformatCurrency(value)
  {
    UnformatDigits(UnformatCurrency(value));
  }

  /** `parseInt` of a non-empty digit string, stated for any string. */
  lemma ReadCents(text: string)
    ensures text != [] && AllDigits(text) ==> ParseInt(text) == Some(DigitsValue(text))
  {
    if text != [] && AllDigits(text) {
      ParseIntOfDigits(text);
    }
  }

  /** `centsToDecimal(cents)`: `parseInt(cents || '0', 10) / 100`. */
  function CentsToDecimal(cents: string): (r: Num)
    ensures cents == "" ==> r == Finite(0.0)
    ensures cents != "" && AllDigits(cents) ==> r == Finite(DigitsValue(cents) as real / 100.0)
  {
    var text := if cents == "" then "0" else cents;
    ReadCents(text);
    match ParseInt(text)
    case None => NaN
    case Some(n) => Finite(n as real / 100.0)
  }

  /** The empty string is read as zero. */
  lemma CentsOfEmpty()
    ensures CentsToDecimal("") == Finite(0.0)
  {
    ParseIntOfDigits("0");
  }

  /** A digit string is read as its value in cents. */
  lemma CentsOfDigits(s: string)
    requires s != [] && AllDigits(s)
    ensures CentsToDecimal(s) == Finite(DigitsValue(s) as real / 100.0)
  {
    ParseIntOfDigits(s);
  }

  /** `decimalToCents(value)`: `Math.round(value * 100)`, rounding half up. */
  function DecimalToCents(value: real): (r: int)
    ensures -0.5 < r as real - value * 100.0 <= 0.5
  {
    (value * 100.0 + 0.5).Floor
  }

  /** An exact half cent rounds up, toward positive infinity, for negative amounts too. */
  lemma HalfCentRoundsUp(k: int)
    ensures DecimalToCents((k as real + 0.5) / 100.0) == k + 1
  {
    var r := DecimalToCents((k as real + 0.5) / 100.0);
    assert (k as real + 0.5) / 100.0 * 100.0 == k as real + 0.5;
    assert k as real < r as real;
  }

  /** Reading a digit string as cents and converting back gives its value. */
  lemma CentsRoundTrip(s: string)
    requires s != [] && AllDigits(s)
    ensures DecimalToCents(CentsToDecimal(s).r) == DigitsValue(s)
  {
    CentsOfDigits(s);
    var n := DigitsValue(s);
    assert (n as real / 100.0) * 100.0 == n as real;
  }

  /** `value.replace(/^0+/, '')`: the leading zeros removed. */
  function StripLeadingZeros(s: string): (r: string)
    ensures |r| <= |s| && r == s[|s| - |r|..]
    ensures r != [] ==> r[0] != '0'
    ensures forall i :: 0 <= i < |s| - |r| ==> s[i] == '0'
  {
    if s != [] && s[0] == '0' then
      var r := StripLeadingZeros(s[1..]);
      assert forall i :: 1 <= i < |s| - |r| ==> s[i] == s[1..][i - 1];
      r
    else s
  }

  /** Leading zeros do not change the value of a digit string. */
  lemma {:induction false} StripKeepsValue(s: string)
    requires AllDigits(s)
    ensures AllDigits(StripLeadingZeros(s))
    ensures DigitsValue(StripLeadingZeros(s)) == DigitsValue(s)
  {
    if s != [] && s[0] == '0' {
      StripKeepsValue(s[1..]);
      LeadingZero(s);
    }
  }

  /** A leading zero adds nothing to the value. */
  lemma {:induction false} LeadingZero(s: string)
    requires s != [] && AllDigits(s) && s[0] == '0'
    ensures DigitsValue(s) == DigitsValue(s[1..])
  {
    if |s| > 1 {
      var init := s[..|s| - 1];
      LeadingZero(init);
      assert init[1..] == s[1..][..|s| - 2];
    }
  }

  /** `formatCurrencyInput(value)`: no digits, or just "0", give zero; otherwise the digits
      without their leading zeros (or "0") are the cents. */
  function FormatCurrencyInput(value: string, parseFloat: string -> Num, intl: real -> string): (r: CurrencyInput)
    ensures AllDigits(r.rawCents) && r.rawCents != []
    ensures r.numeric * 100.0 == DigitsValue(r.rawCents) as real
  {
    var onlyNumbers := UnformatCurrency(value);
    if onlyNumbers == "" || onlyNumbers == "0" then
      assert DigitsValue("0") == 0;
      ZeroInput
    else
      var stripped := StripLeadingZeros(onlyNumbers);
      StripKeepsValue(onlyNumbers);
      var cleanedNumbers := if stripped == "" then "0" else stripped;
      CentsOfDigits(cleanedNumbers);
      var numericValue := CentsToDecimal(cleanedNumbers);
      CurrencyInput(FormatCurrency(NumberArg(numericValue), parseFloat, intl), numericValue.r, cleanedNumbers)
  }

  /** An input with no digit, or whose only digit is "0", gives the zero triple. */
  lemma FormatInputZero(value: string, parseFloat: string -> Num, intl: real -> string)
    requires UnformatCurrency(value) == "" || UnformatCurrency(value) == "0"
    ensures FormatCurrencyInput(value, parseFloat, intl) == ZeroInput
  {
  }

  /** The cents are the input's digits without leading zeros, or "0" when all are zeros, and
      they are worth as much as the input's digits. */
  lemma FormatInputCents(value: string, parseFloat: string -> Num, intl: real -> string)
    ensures var r := FormatCurrencyInput(value, parseFloat, intl);
      var digits := UnformatCurrency(value);
      && r.rawCents == (if StripLeadingZeros(digits) == "" then "0" else StripLeadingZeros(digits))
      && (r.rawCents[0] == '0' ==> r.rawCents == "0")
      && DigitsValue(r.rawCents) == DigitsValue(digits)
  {
    var digits := UnformatCurrency(value);
    var r := FormatCurrencyInput(value, parseFloat, intl);
    StripKeepsValue(digits);
    assert DigitsValue("0") == 0;
    if digits == "" || digits == "0" {
      assert r == ZeroInput;
      if digits == "0" {
        assert StripLeadingZeros(digits) == StripLeadingZeros(digits[1..]);
      }
    } else {
      var stripped := StripLeadingZeros(digits);
      assert r.rawCents == if stripped == "" then "0" else stripped;
    }
  }

  /** So the cents are the canonical numeral of the amount typed. */
  lemma FormatInputCanonical(value: string, parseFloat: string -> Num, intl: real -> string)
    ensures FormatCurrencyInput(value, parseFloat, intl).rawCents
      == NatToString(DigitsValue(UnformatCurrency(value)))
  {
    FormatInputCents(value, parseFloat, intl);
    CanonicalNumeral(FormatCurrencyInput(value, parseFloat, intl).rawCents);
  }

  /** The display is the zero text in the zero case, and otherwise the locale formatting of
      the amount, even when the digits are all zeros. */
  lemma FormatInputDisplay(value: string, parseFloat: string -> Num, intl: real -> string)
    ensures var digits := UnformatCurrency(value);
      var r := FormatCurrencyInput(value, parseFloat, intl);
      r.formatted == if digits == "" || digits == "0" then ZeroDisplay else intl(r.numeric)
  {
    var digits := UnformatCurrency(value);
    if digits != "" && digits != "0" {
      var stripped := StripLeadingZeros(digits);
      var cleanedNumbers := if stripped == "" then "0" else stripped;
      StripKeepsValue(digits);
      CentsOfDigits(cleanedNumbers);
      var numericValue := CentsToDecimal(cleanedNumbers);
      assert FormatCurrencyInput(value, parseFloat, intl)
        == CurrencyInput(FormatCurrency(NumberArg(numericValue), parseFloat, intl), numericValue.r, cleanedNumbers);
    }
  }

  /** A digit string without leading zeros is the rendering of its value. */
  lemma {:induction false} CanonicalNumeral(s: string)
    requires s != [] && AllDigits(s) && (s[0] == '0' ==> s == "0")
    ensures NatToString(DigitsValue(s)) == s
  {
    var n := DigitsValue(s);
    if |s| == 1 {
      assert DigitChar(DigitValue(s[0])) == s[0];
    } else {
      var init := s[..|s| - 1];
      assert init[0] == s[0] && AllDigits(init);
      CanonicalNumeral(init);
      LeadingNonZero(init);
      assert n / 10 == DigitsValue(init) && n % 10 == DigitValue(s[|s| - 1]);
      assert DigitChar(DigitValue(s[|s| - 1])) == s[|s| - 1];
      assert init + [s[|s| - 1]] == s;
    }
  }

  /** A digit string that starts with a non-zero digit has a positive value. */
  lemma {:induction false} LeadingNonZero(s: string)
    requires s != [] && AllDigits(s) && s[0] != '0'
    ensures DigitsValue(s) > 0
  {
    if |s| > 1 {
      var init := s[..|s| - 1];
      assert init[0] == s[0];
      LeadingNonZero(init);
    }
  }

  /** A value loaded from the database: null or undefined, a string, or a number. */
  datatype DbValue = Missing | Text(s: string) | Number(n: Num)

  /** `initializeCurrencyInput(dbValue)`: missing, empty, NaN and zero give the zero triple;
      any other value keeps its number and shows its cents as `cents.toString()`. */
  function InitializeCurrencyInput(dbValue: DbValue, parseFloat: string -> Num, intl: real -> string): (r: CurrencyInput)
    ensures dbValue == Missing || dbValue == Text("") ==> r == ZeroInput
    ensures dbValue == Number(NaN) || dbValue == Number(Finite(0.0)) ==> r == ZeroInput
  {
    if dbValue.Missing? || dbValue == Text("") then ZeroInput
    else
      var numValue := if dbValue.Text? then parseFloat(dbValue.s) else dbValue.n;
      if numValue.NaN? || numValue.r == 0.0 then ZeroInput
      else
        var cents := DecimalToCents(numValue.r);
        CurrencyInput(FormatCurrency(NumberArg(numValue), parseFloat, intl), numValue.r, IntToString(cents))
  }

  /** A non-zero number keeps its value, and its cents are the rounded hundredfold. */
  lemma InitializeNumber(x: real, parseFloat: string -> Num, intl: real -> string)
    requires x != 0.0
    ensures var r := InitializeCurrencyInput(Number(Finite(x)), parseFloat, intl);
      r == CurrencyInput(intl(x), x, IntToString(DecimalToCents(x)))
  {
  }

  /** A non-empty string goes through `parseFloat`: NaN or zero gives the zero triple, and any
      other number is treated as that number would be. */
  lemma InitializeText(text: string, parseFloat: string -> Num, intl: real -> string)
    requires text != ""
    ensures var r := InitializeCurrencyInput(Text(text), parseFloat, intl);
      && (parseFloat(text).NaN? || parseFloat(text) == Finite(0.0) ==> r == ZeroInput)
      && (parseFloat(text).Finite? && parseFloat(text).r != 0.0 ==>
            r == InitializeCurrencyInput(Number(parseFloat(text)), parseFloat, intl))
  {
  }

  /** A positive whole number of cents loaded from the database comes back from the input
      unchanged: re-reading the initial cents as typed digits gives the same cents and value. */
  lemma InitializeThenType(n: nat, parseFloat: string -> Num, intl: real -> string)
    requires n > 0
    ensures var init := InitializeCurrencyInput(Number(Finite(n as real / 100.0)), parseFloat, intl);
      var typed := FormatCurrencyInput(init.rawCents, parseFloat, intl);
      && init.rawCents == NatToString(n)
      && typed.rawCents == init.rawCents
      && typed.numeric == init.numeric
  {
    var x := n as real / 100.0;
    assert x * 100.0 == n as real;
    assert DecimalToCents(x) == n;
    var s := NatToString(n);
    UnformatDigits(s);
    FormatInputCanonical(s, parseFloat, intl);
    FormatInputCents(s, parseFloat, intl);
  }
}
