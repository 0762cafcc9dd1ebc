/** Option resolution of Intl.NumberFormat: InitializeNumberFormat (section 11.1.2 of
    ECMA-402, 2nd edition) as a function from the already-read options to the internal
    slots or to the first error, in the order the checks are made. */
module NumberFormatOptions {
  import opened Wrappers
  import opened CurrencyDigitsTable

  datatype LocaleMatcher = Lookup | BestFit
  datatype Style = Decimal | Percent | Currency
  datatype CurrencyDisplay = Code | Symbol | Name

  /** The option bag after each property has been read; None stands for undefined.
      resolvedLocale and resolvedNumberingSystem are what locale negotiation returned
      ("" when no locale could be resolved). */
  datatype RawOptions = RawOptions(
    localeMatcher: Option<string>,
    resolvedLocale: string,
    resolvedNumberingSystem: string,
    style: Option<string>,
    currency: Option<string>,
    currencyDisplay: Option<string>,
    minimumIntegerDigits: Option<int>,
    minimumFractionDigits: Option<int>,
    maximumFractionDigits: Option<int>,
    minimumSignificantDigits: Option<int>,
    maximumSignificantDigits: Option<int>,
    useGrouping: Option<bool>)

  /** What initialization reads when it is given no locales and no options. */
  function DefaultOptions(locale: string, numberingSystem: string): RawOptions {
    RawOptions(None, locale, numberingSystem, None, None, None, None, None, None, None, None, None)
  }

  datatype DigitOption =
    | MinimumIntegerDigits | MinimumFractionDigits | MaximumFractionDigits
    | MinimumSignificantDigits | MaximumSignificantDigits

  datatype InitError =
    | InvalidLocaleMatcher | InvalidLocale | InvalidStyle | MalformedCurrency
    | MissingCurrency | InvalidCurrencyDisplay | DigitsOutOfRange(option: DigitOption)

  datatype ErrorType = RangeError | TypeError

  /** The JavaScript error each failure is thrown as. */
  function ErrorTypeOf(e: InitError): (t: ErrorType)
    ensures t == TypeError <==> e == InvalidLocale || e == MissingCurrency
  {
    match e
    case InvalidLocale => TypeError
    case MissingCurrency => TypeError
    case _ => RangeError
  }

  datatype CurrencySlots = CurrencySlots(code: string, display: CurrencyDisplay)
  datatype SignificantDigits = SignificantDigits(minimum: nat, maximum: nat)

  /** The internal slots of an initialized NumberFormat. */
  datatype ResolvedConfig = ResolvedConfig(
    locale: string,
    numberingSystem: string,
    style: Style,
    currency: Option<CurrencySlots>,
    minimumIntegerDigits: nat,
    minimumFractionDigits: nat,
    maximumFractionDigits: nat,
    significantDigits: Option<SignificantDigits>,
    useGrouping: bool)

  /** The invariant of the slots: currency data exactly for currency style, every digit
      count within its range and each pair ordered. */
  predicate WellFormed(c: ResolvedConfig) {
    && c.locale != ""
    && (c.currency.Some? <==> c.style == Currency)
    && (c.currency.Some? ==> IsUpperCode(c.currency.value.code))
    && 1 <= c.minimumIntegerDigits <= 21
    && c.minimumFractionDigits <= c.maximumFractionDigits <= 20
    && (c.significantDigits.Some? ==>
          1 <= c.significantDigits.value.minimum <= c.significantDigits.value.maximum <= 21)
  }

  function Max(a: nat, b: nat): nat {
    if a < b then b else a
  }

  function ParseLocaleMatcher(name: string): Option<LocaleMatcher> {
    if name == "lookup" then Some(Lookup)
    else if name == "best fit" then Some(BestFit)
    else None
  }

  function ParseStyle(name: string): Option<Style> {
    if name == "decimal" then Some(Decimal)
    else if name == "percent" then Some(Percent)
    else if name == "currency" then Some(Currency)
    else None
  }

  function ParseCurrencyDisplay(name: string): Option<CurrencyDisplay> {
    if name == "code" then Some(Code)
    else if name == "symbol" then Some(Symbol)
    else if name == "name" then Some(Name)
    else None
  }

  /** styleString: the name resolvedOptions reports; parsing it gives the style back. */
  function StyleString(style: Style): (name: string)
    ensures ParseStyle(name) == Some(style)
  {
    match style
    case Decimal => "decimal"
    case Percent => "percent"
    case Currency => "currency"
  }

  /** currencyDisplayString, likewise the inverse of parsing. */
  function CurrencyDisplayString(display: CurrencyDisplay): (name: string)
    ensures ParseCurrencyDisplay(name) == Some(display)
  {
    match display
    case Code => "code"
    case Symbol => "symbol"
    case Name => "name"
  }

  /** Every accepted name is the printed form of what it parses to. */
  lemma NamesRoundTrip(name: string)
    ensures ParseStyle(name).Some? ==> StyleString(ParseStyle(name).value) == name
    ensures ParseCurrencyDisplay(name).Some? ==> CurrencyDisplayString(ParseCurrencyDisplay(name).value) == name
  {
  }

  /** A string option restricted to the names `parse` accepts: undefined gives the
      fallback, an unknown name is a RangeError. */
  function GetEnumOption<T>(value: Option<string>, parse: string -> Option<T>, fallback: T, err: InitError): (r: Result<T, InitError>)
    ensures value.None? ==> r == Success(fallback)
    ensures value.Some? ==> (r.Success? <==> parse(value.value).Some?)
    ensures value.Some? && r.Success? ==> Some(r.value) == parse(value.value)
    ensures r.Failure? ==> r.error == err
  {
    match value
    case None => Success(fallback)
    case Some(name) =>
      match parse(name)
      case Some(t) => Success(t)
      case None => Failure(err)
  }

  /** A number option: undefined gives the fallback, a value outside [minimum, maximum]
      is a RangeError naming the option. */
  function GetNumberOption(value: Option<int>, minimum: nat, maximum: nat, fallback: nat, option: DigitOption): (r: Result<nat, InitError>)
    ensures r.Failure? <==> value.Some? && !(minimum <= value.value <= maximum)
    ensures r.Failure? ==> r.error == DigitsOutOfRange(option)
    ensures r.Success? ==> r.value == value.GetOr(fallback)
    ensures r.Success? && value.Some? ==> minimum <= r.value <= maximum
  {
    match value
    case None => Success(fallback)
    case Some(v) => if minimum <= v <= maximum then Success(v) else Failure(DigitsOutOfRange(option))
  }

  predicate IsAsciiAlpha(c: char) {
    'A' <= c <= 'Z' || 'a' <= c <= 'z'
  }

  /** A supplied currency must be exactly three ASCII letters. */
  predicate IsWellFormedCurrencyCode(code: string) {
    |code| == 3 && forall i :: 0 <= i < |code| ==> IsAsciiAlpha(code[i])
  }

  function AsciiUpper(c: char): char {
    if 'a' <= c <= 'z' then (c as int - 32) as char else c
  }

  /** convertToASCIIUppercase: lower-case ASCII letters are upper-cased, all else is kept. */
  function ToAsciiUpper(s: string): (u: string)
    ensures |u| == |s|
    ensures forall i :: 0 <= i < |s| ==> u[i] == AsciiUpper(s[i])
  {
    seq(|s|, i requires 0 <= i < |s| => AsciiUpper(s[i]))
  }

  /** A well-formed code normalises to an upper-case code; normalising is idempotent and
      keeps an upper-case code as it is. */
  lemma UpperCaseNormalisation(code: string)
    ensures IsWellFormedCurrencyCode(code) ==> IsUpperCode(ToAsciiUpper(code))
    ensures ToAsciiUpper(ToAsciiUpper(code)) == ToAsciiUpper(code)
    ensures IsUpperCode(code) ==> ToAsciiUpper(code) == code
  {
  }

  /** The significant-digit pair: resolved only when either value was supplied. */
  function ResolveSignificantDigits(minimum: Option<int>, maximum: Option<int>): (r: Result<Option<SignificantDigits>, InitError>)
    ensures r.Success? ==> (r.value.Some? <==> minimum.Some? || maximum.Some?)
    ensures r.Success? && r.value.Some? ==>
      && r.value.value.minimum == minimum.GetOr(1)
      && r.value.value.maximum == maximum.GetOr(21)
      && 1 <= r.value.value.minimum <= r.value.value.maximum <= 21
    ensures r.Failure? <==>
      || (minimum.Some? && !(1 <= minimum.value <= 21))
      || (maximum.Some? && (minimum.None? || 1 <= minimum.value <= 21) && !(minimum.GetOr(1) <= maximum.value <= 21))
  {
    if minimum.None? && maximum.None? then Success(None)
    else
      var lo :- GetNumberOption(minimum, 1, 21, 1, MinimumSignificantDigits);
      var hi :- GetNumberOption(maximum, lo, 21, 21, MaximumSignificantDigits);
      Success(Some(SignificantDigits(lo, hi)))
  }

  /** The minor-unit count that seeds the fraction-digit defaults in currency style. */
  function CurrencyDigitsFor(style: Style, currency: Option<string>): nat {
    if style == Currency && currency.Some? then CurrencyDigits(ToAsciiUpper(currency.value)) else 0
  }

  function MaximumFractionDigitsDefault(style: Style, minimumFractionDigits: nat, currencyDigits: nat): nat {
    match style
    case Currency => Max(minimumFractionDigits, currencyDigits)
    case Percent => minimumFractionDigits
    case Decimal => Max(minimumFractionDigits, 3)
  }

  predicate Rejects<T>(value: Option<string>, parse: string -> Option<T>) {
    value.Some? && parse(value.value).None?
  }

  /** The style option once it has been accepted. */
  function ParsedStyle(raw: RawOptions): Style {
    if raw.style.Some? && ParseStyle(raw.style.value).Some? then ParseStyle(raw.style.value).value else Decimal
  }

  /** The currencyDisplay option once it has been accepted. */
  function ParsedCurrencyDisplay(raw: RawOptions): CurrencyDisplay {
    if raw.currencyDisplay.Some? && ParseCurrencyDisplay(raw.currencyDisplay.value).Some? then
      ParseCurrencyDisplay(raw.currencyDisplay.value).value
    else Symbol
  }

  /** InitializeNumberFormat: the resolved slots, or the first failing check. */
  function Resolve(raw: RawOptions): (r: Result<ResolvedConfig, InitError>)
    ensures r.Success? ==> WellFormed(r.value)
    ensures r.Success? ==>
      && r.value.locale == raw.resolvedLocale
      && r.value.numberingSystem == raw.resolvedNumberingSystem
      && Some(r.value.style) == (if raw.style.None? then Some(Decimal) else ParseStyle(raw.style.value))
      && r.value.minimumIntegerDigits == raw.minimumIntegerDigits.GetOr(1)
      && r.value.useGrouping == raw.useGrouping.GetOr(true)
    // an accepted currency is stored upper-cased, with its display (symbol by default)
    ensures r.Success? && r.value.style == Currency ==>
      && raw.currency.Some?
      && r.value.currency.value.code == ToAsciiUpper(raw.currency.value)
      && Some(r.value.currency.value.display) ==
           (if raw.currencyDisplay.None? then Some(Symbol) else ParseCurrencyDisplay(raw.currencyDisplay.value))
    // fraction-digit defaults
    ensures r.Success? ==>
      var digits := CurrencyDigitsFor(r.value.style, raw.currency);
      && r.value.minimumFractionDigits == raw.minimumFractionDigits.GetOr(if r.value.style == Currency then digits else 0)
      && r.value.maximumFractionDigits == raw.maximumFractionDigits.GetOr(
           MaximumFractionDigitsDefault(r.value.style, r.value.minimumFractionDigits, digits))
    // the significant-digit pair exists exactly when either value was supplied
    ensures r.Success? ==>
      && (r.value.significantDigits.Some? <==> raw.minimumSignificantDigits.Some? || raw.maximumSignificantDigits.Some?)
      && (r.value.significantDigits.Some? ==>
            && r.value.significantDigits.value.minimum == raw.minimumSignificantDigits.GetOr(1)
            && r.value.significantDigits.value.maximum == raw.maximumSignificantDigits.GetOr(21))
  {
    if Rejects(raw.localeMatcher, ParseLocaleMatcher) then Failure(InvalidLocaleMatcher)
    else if raw.resolvedLocale == "" then Failure(InvalidLocale)
    else if Rejects(raw.style, ParseStyle) then Failure(InvalidStyle)
    else ResolveCurrency(raw, ParsedStyle(raw))
  }

  /** The currency slots an accepted currency option yields: the code upper-cased, with
      its display, in currency style only. */
  function CurrencySlotsOf(raw: RawOptions, style: Style): Option<CurrencySlots> {
    if style == Currency && raw.currency.Some? then
      Some(CurrencySlots(ToAsciiUpper(raw.currency.value), ParsedCurrencyDisplay(raw)))
    else None
  }

  /** How the slots follow from the options, once the style, the currency slots and the
      currency's minor units are known. */
  predicate SlotsFrom(raw: RawOptions, style: Style, currency: Option<CurrencySlots>, currencyDigits: nat, c: ResolvedConfig) {
    && c.locale == raw.resolvedLocale
    && c.numberingSystem == raw.resolvedNumberingSystem
    && c.style == style
    && c.currency == currency
    && c.minimumIntegerDigits == raw.minimumIntegerDigits.GetOr(1)
    && c.minimumFractionDigits == raw.minimumFractionDigits.GetOr(if style == Currency then currencyDigits else 0)
    && c.maximumFractionDigits == raw.maximumFractionDigits.GetOr(
         MaximumFractionDigitsDefault(style, c.minimumFractionDigits, currencyDigits))
    && (c.significantDigits.Some? <==> raw.minimumSignificantDigits.Some? || raw.maximumSignificantDigits.Some?)
    && (c.significantDigits.Some? ==>
          && c.significantDigits.value.minimum == raw.minimumSignificantDigits.GetOr(1)
          && c.significantDigits.value.maximum == raw.maximumSignificantDigits.GetOr(21))
    && c.useGrouping == raw.useGrouping.GetOr(true)
  }

  /** The currency checks and the currencyDisplay option, once the style is known. */
  function ResolveCurrency(raw: RawOptions, style: Style): (r: Result<ResolvedConfig, InitError>)
    requires raw.resolvedLocale != ""
    ensures r.Success? ==> WellFormed(r.value) && !Rejects(raw.currencyDisplay, ParseCurrencyDisplay)
    ensures r.Success? ==> style == Currency ==> raw.currency.Some?
    ensures r.Success? ==> SlotsFrom(raw, style, CurrencySlotsOf(raw, style), CurrencyDigitsFor(style, raw.currency), r.value)
  {
    if raw.currency.Some? && !IsWellFormedCurrencyCode(raw.currency.value) then Failure(MalformedCurrency)
    else if style == Currency && raw.currency.None? then Failure(MissingCurrency)
    else if Rejects(raw.currencyDisplay, ParseCurrencyDisplay) then Failure(InvalidCurrencyDisplay)
    else
      assert style == Currency ==> IsUpperCode(ToAsciiUpper(raw.currency.value)) by {
        if style == Currency { UpperCaseNormalisation(raw.currency.value); }
      }
      var currencyDigits := CurrencyDigitsFor(style, raw.currency);
      assert currencyDigits <= 4 by {
        if style == Currency { CurrencyDigitsCases(ToAsciiUpper(raw.currency.value)); }
      }
      ResolveDigits(raw, style, CurrencySlotsOf(raw, style), currencyDigits)
  }

  /** The digit options and useGrouping, once style and currency are settled. */
  function ResolveDigits(raw: RawOptions, style: Style, currency: Option<CurrencySlots>, currencyDigits: nat): (r: Result<ResolvedConfig, InitError>)
    requires raw.resolvedLocale != "" && currencyDigits <= 20
    requires (currency.Some? <==> style == Currency) && (currency.Some? ==> IsUpperCode(currency.value.code))
    ensures r.Success? ==> WellFormed(r.value) && SlotsFrom(raw, style, currency, currencyDigits, r.value)
  {
    var minimumIntegerDigits :- GetNumberOption(raw.minimumIntegerDigits, 1, 21, 1, MinimumIntegerDigits);
    var minimumFractionDigits :- GetNumberOption(raw.minimumFractionDigits, 0, 20,
      if style == Currency then currencyDigits else 0, MinimumFractionDigits);
    var maximumFractionDigits :- GetNumberOption(raw.maximumFractionDigits, minimumFractionDigits, 20,
      MaximumFractionDigitsDefault(style, minimumFractionDigits, currencyDigits), MaximumFractionDigits);
    ResolveTail(raw, style, currency, minimumIntegerDigits, minimumFractionDigits, maximumFractionDigits)
  }

  /** The significant-digit pair and useGrouping, the last options read. */
  function ResolveTail(raw: RawOptions, style: Style, currency: Option<CurrencySlots>,
                       minimumIntegerDigits: nat, minimumFractionDigits: nat, maximumFractionDigits: nat): (r: Result<ResolvedConfig, InitError>)
    ensures r.Success? ==>
      && (r.value.significantDigits.Some? <==> raw.minimumSignificantDigits.Some? || raw.maximumSignificantDigits.Some?)
      && (r.value.significantDigits.Some? ==>
            && r.value.significantDigits.value.minimum == raw.minimumSignificantDigits.GetOr(1)
            && r.value.significantDigits.value.maximum == raw.maximumSignificantDigits.GetOr(21)
            && 1 <= r.value.significantDigits.value.minimum <= r.value.significantDigits.value.maximum <= 21)
  {
    var significantDigits :- ResolveSignificantDigits(raw.minimumSignificantDigits, raw.maximumSignificantDigits);
    Success(ResolvedConfig(
      raw.resolvedLocale, raw.resolvedNumberingSystem, style, currency,
      minimumIntegerDigits, minimumFractionDigits, maximumFractionDigits,
      significantDigits, raw.useGrouping.GetOr(true)))
  }

  /** An optional value is absent or within [minimum, maximum]. */
  predicate InRange(value: Option<int>, minimum: int, maximum: int) {
    value.None? || minimum <= value.value <= maximum
  }

  /** The default of minimumFractionDigits: the currency's minor units in currency style, else 0. */
  function MinimumFractionDefault(style: Style, currencyDigits: nat): nat {
    if style == Currency then currencyDigits else 0
  }

  /** The range check of one digit option, given that the checks before it passed; the
      upper bounds' lower ends are the resolved minimums. */
  predicate DigitCheckPasses(raw: RawOptions, style: Style, currencyDigits: nat, o: DigitOption) {
    match o
    case MinimumIntegerDigits => InRange(raw.minimumIntegerDigits, 1, 21)
    case MinimumFractionDigits => InRange(raw.minimumFractionDigits, 0, 20)
    case MaximumFractionDigits =>
      InRange(raw.maximumFractionDigits, raw.minimumFractionDigits.GetOr(MinimumFractionDefault(style, currencyDigits)), 20)
    case MinimumSignificantDigits => InRange(raw.minimumSignificantDigits, 1, 21)
    case MaximumSignificantDigits => InRange(raw.maximumSignificantDigits, raw.minimumSignificantDigits.GetOr(1), 21)
  }

  /** The digit check for `o` is the first of the five, in reading order, to fail. */
  predicate DigitCheckFailsFirst(raw: RawOptions, style: Style, currencyDigits: nat, o: DigitOption) {
    var passes := (d: DigitOption) => DigitCheckPasses(raw, style, currencyDigits, d);
    match o
    case MinimumIntegerDigits => !passes(MinimumIntegerDigits)
    case MinimumFractionDigits => passes(MinimumIntegerDigits) && !passes(MinimumFractionDigits)
    case MaximumFractionDigits =>
      passes(MinimumIntegerDigits) && passes(MinimumFractionDigits) && !passes(MaximumFractionDigits)
    case MinimumSignificantDigits =>
      passes(MinimumIntegerDigits) && passes(MinimumFractionDigits) && passes(MaximumFractionDigits)
      && !passes(MinimumSignificantDigits)
    case MaximumSignificantDigits =>
      passes(MinimumIntegerDigits) && passes(MinimumFractionDigits) && passes(MaximumFractionDigits)
      && passes(MinimumSignificantDigits) && !passes(MaximumSignificantDigits)
  }

  /** All five digit checks pass. */
  predicate DigitChecksPass(raw: RawOptions, style: Style, currencyDigits: nat) {
    && DigitCheckPasses(raw, style, currencyDigits, MinimumIntegerDigits)
    && DigitCheckPasses(raw, style, currencyDigits, MinimumFractionDigits)
    && DigitCheckPasses(raw, style, currencyDigits, MaximumFractionDigits)
    && DigitCheckPasses(raw, style, currencyDigits, MinimumSignificantDigits)
    && DigitCheckPasses(raw, style, currencyDigits, MaximumSignificantDigits)
  }

  /** The first digit check, in reading order, whose value is out of range. */
  function FirstFailingDigitCheck(raw: RawOptions, style: Style, currencyDigits: nat): Option<DigitOption> {
    var passes := (d: DigitOption) => DigitCheckPasses(raw, style, currencyDigits, d);
    if !passes(MinimumIntegerDigits) then Some(MinimumIntegerDigits)
    else if !passes(MinimumFractionDigits) then Some(MinimumFractionDigits)
    else if !passes(MaximumFractionDigits) then Some(MaximumFractionDigits)
    else if !passes(MinimumSignificantDigits) then Some(MinimumSignificantDigits)
    else if !passes(MaximumSignificantDigits) then Some(MaximumSignificantDigits)
    else None
  }

  /** The first failing check is the one whose own check fails while every earlier one
      passes, and there is none exactly when all five pass. */
  lemma FirstFailingDigitCheckIsFirst(raw: RawOptions, style: Style, currencyDigits: nat)
    ensures FirstFailingDigitCheck(raw, style, currencyDigits).None? <==> DigitChecksPass(raw, style, currencyDigits)
    ensures forall o :: FirstFailingDigitCheck(raw, style, currencyDigits) == Some(o) <==>
      DigitCheckFailsFirst(raw, style, currencyDigits, o)
  {
    forall o ensures FirstFailingDigitCheck(raw, style, currencyDigits) == Some(o) <==>
      DigitCheckFailsFirst(raw, style, currencyDigits, o)
    {
      match o
      case MinimumIntegerDigits =>
      case MinimumFractionDigits =>
      case MaximumFractionDigits =>
      case MinimumSignificantDigits =>
      case MaximumSignificantDigits =>
    }
  }

  /** The significant-digit checks: the minimum first, then the maximum against the
      resolved minimum. */
  lemma SignificantCheckOrder(minimum: Option<int>, maximum: Option<int>)
    ensures var r := ResolveSignificantDigits(minimum, maximum);
      && (!InRange(minimum, 1, 21) ==> r == Failure(DigitsOutOfRange(MinimumSignificantDigits)))
      && (InRange(minimum, 1, 21) && !InRange(maximum, minimum.GetOr(1), 21) ==>
            r == Failure(DigitsOutOfRange(MaximumSignificantDigits)))
      && (InRange(minimum, 1, 21) && InRange(maximum, minimum.GetOr(1), 21) ==> r.Success?)
  {
  }

  /** The digit checks run in reading order: the error reported is the first failing
      check, and the digits resolve exactly when none fails. */
  lemma DigitCheckOrder(raw: RawOptions, style: Style, currency: Option<CurrencySlots>, currencyDigits: nat)
    requires raw.resolvedLocale != "" && currencyDigits <= 20
    requires (currency.Some? <==> style == Currency) && (currency.Some? ==> IsUpperCode(currency.value.code))
    ensures var r := ResolveDigits(raw, style, currency, currencyDigits);
      var first := FirstFailingDigitCheck(raw, style, currencyDigits);
      && (first.None? ==> r.Success?)
      && (first.Some? ==> r == Failure(DigitsOutOfRange(first.value)))
  {
    var minimumInteger := GetNumberOption(raw.minimumIntegerDigits, 1, 21, 1, MinimumIntegerDigits);
    var minimumFraction := GetNumberOption(raw.minimumFractionDigits, 0, 20,
      MinimumFractionDefault(style, currencyDigits), MinimumFractionDigits);
    if minimumInteger.Success? && minimumFraction.Success? {
      var maximumFraction := GetNumberOption(raw.maximumFractionDigits, minimumFraction.value, 20,
        MaximumFractionDigitsDefault(style, minimumFraction.value, currencyDigits), MaximumFractionDigits);
      if maximumFraction.Success? {
        assert ResolveDigits(raw, style, currency, currencyDigits)
          == ResolveTail(raw, style, currency, minimumInteger.value, minimumFraction.value, maximumFraction.value);
        SignificantCheckOrder(raw.minimumSignificantDigits, raw.maximumSignificantDigits);
      }
    }
  }

  /** A digit error names an option that was given a value: the defaults are always in range. */
  lemma FailingDigitCheckWasSupplied(raw: RawOptions, style: Style, currencyDigits: nat, o: DigitOption)
    requires DigitCheckFailsFirst(raw, style, currencyDigits, o)
    ensures SuppliedDigitOption(raw, o)
  {
  }

  /** Whether the digit option was given a value. */
  predicate SuppliedDigitOption(raw: RawOptions, o: DigitOption) {
    match o
    case MinimumIntegerDigits => raw.minimumIntegerDigits.Some?
    case MinimumFractionDigits => raw.minimumFractionDigits.Some?
    case MaximumFractionDigits => raw.maximumFractionDigits.Some?
    case MinimumSignificantDigits => raw.minimumSignificantDigits.Some?
    case MaximumSignificantDigits => raw.maximumSignificantDigits.Some?
  }

  /** The locale-matcher, locale and style checks pass. */
  predicate HeadChecksPass(raw: RawOptions) {
    !Rejects(raw.localeMatcher, ParseLocaleMatcher) && raw.resolvedLocale != "" && !Rejects(raw.style, ParseStyle)
  }

  /** The malformed-currency, missing-currency and currencyDisplay checks pass. */
  predicate CurrencyChecksPass(raw: RawOptions, style: Style) {
    && (raw.currency.Some? ==> IsWellFormedCurrencyCode(raw.currency.value))
    && (style == Currency ==> raw.currency.Some?)
    && !Rejects(raw.currencyDisplay, ParseCurrencyDisplay)
  }

  /** Once the style is accepted, the currency checks come in order, then the digit checks. */
  lemma CurrencyErrorOrder(raw: RawOptions, style: Style)
    requires raw.resolvedLocale != ""
    ensures var r := ResolveCurrency(raw, style);
      var digits := CurrencyDigitsFor(style, raw.currency);
      && (r == Failure(MalformedCurrency) <==> raw.currency.Some? && !IsWellFormedCurrencyCode(raw.currency.value))
      && (r == Failure(MissingCurrency) <==> style == Currency && raw.currency.None?)
      && (r == Failure(InvalidCurrencyDisplay) <==>
            && (raw.currency.Some? ==> IsWellFormedCurrencyCode(raw.currency.value))
            && (style == Currency ==> raw.currency.Some?)
            && Rejects(raw.currencyDisplay, ParseCurrencyDisplay))
      && (CurrencyChecksPass(raw, style) ==>
            var first := FirstFailingDigitCheck(raw, style, digits);
            && (first.None? ==> r.Success?)
            && (first.Some? ==> r == Failure(DigitsOutOfRange(first.value))))
      && (!CurrencyChecksPass(raw, style) ==> r.Failure? && !r.error.DigitsOutOfRange?)
  {
    if raw.currency.Some? && !IsWellFormedCurrencyCode(raw.currency.value) {
    } else if style == Currency && raw.currency.None? {
    } else if Rejects(raw.currencyDisplay, ParseCurrencyDisplay) {
    } else {
      var currencyDigits := CurrencyDigitsFor(style, raw.currency);
      if style == Currency {
        UpperCaseNormalisation(raw.currency.value);
        CurrencyDigitsCases(ToAsciiUpper(raw.currency.value));
      }
      DigitCheckOrder(raw, style, CurrencySlotsOf(raw, style), currencyDigits);
    }
  }

  /** The eleven checks run in a fixed order and the first failing one is the error: each
      error is reported exactly when every earlier check passed and its own failed, and the
      options resolve exactly when all of them pass. */
  lemma ResolveErrorOrder(raw: RawOptions)
    ensures Resolve(raw) == Failure(InvalidLocaleMatcher) <==> Rejects(raw.localeMatcher, ParseLocaleMatcher)
    ensures Resolve(raw) == Failure(InvalidLocale) <==>
      !Rejects(raw.localeMatcher, ParseLocaleMatcher) && raw.resolvedLocale == ""
    ensures Resolve(raw) == Failure(InvalidStyle) <==>
      !Rejects(raw.localeMatcher, ParseLocaleMatcher) && raw.resolvedLocale != "" && Rejects(raw.style, ParseStyle)
    ensures Resolve(raw) == Failure(MalformedCurrency) <==>
      && HeadChecksPass(raw)
      && raw.currency.Some? && !IsWellFormedCurrencyCode(raw.currency.value)
    ensures Resolve(raw) == Failure(MissingCurrency) <==>
      && !Rejects(raw.localeMatcher, ParseLocaleMatcher) && raw.resolvedLocale != ""
      && raw.style == Some("currency") && raw.currency.None?
    ensures Resolve(raw) == Failure(InvalidCurrencyDisplay) <==>
      && HeadChecksPass(raw)
      && (raw.currency.Some? ==> IsWellFormedCurrencyCode(raw.currency.value))
      && (raw.style == Some("currency") ==> raw.currency.Some?)
      && Rejects(raw.currencyDisplay, ParseCurrencyDisplay)
    ensures forall o :: Resolve(raw) == Failure(DigitsOutOfRange(o)) <==>
      && HeadChecksPass(raw) && CurrencyChecksPass(raw, ParsedStyle(raw))
      && FirstFailingDigitCheck(raw, ParsedStyle(raw), CurrencyDigitsFor(ParsedStyle(raw), raw.currency)) == Some(o)
    ensures Resolve(raw).Success? <==>
      && HeadChecksPass(raw) && CurrencyChecksPass(raw, ParsedStyle(raw))
      && FirstFailingDigitCheck(raw, ParsedStyle(raw), CurrencyDigitsFor(ParsedStyle(raw), raw.currency)).None?
  {
    if HeadChecksPass(raw) {
      CurrencyErrorOrder(raw, ParsedStyle(raw));
      assert ParsedStyle(raw) == Currency <==> raw.style == Some("currency");
    }
  }

  /** With every earlier check passing, a digit error is reported exactly when that digit
      check fails and the ones before it pass, and the options resolve exactly when all
      five digit checks pass. */
  lemma DigitErrorOrder(raw: RawOptions)
    requires HeadChecksPass(raw) && CurrencyChecksPass(raw, ParsedStyle(raw))
    ensures var digits := CurrencyDigitsFor(ParsedStyle(raw), raw.currency);
      && (forall o :: Resolve(raw) == Failure(DigitsOutOfRange(o)) <==> DigitCheckFailsFirst(raw, ParsedStyle(raw), digits, o))
      && (Resolve(raw).Success? <==> DigitChecksPass(raw, ParsedStyle(raw), digits))
  {
    ResolveErrorOrder(raw);
    FirstFailingDigitCheckIsFirst(raw, ParsedStyle(raw), CurrencyDigitsFor(ParsedStyle(raw), raw.currency));
  }

  /** A digit error names an option that was given a value. */
  lemma DigitErrorNamesSuppliedOption(raw: RawOptions, o: DigitOption)
    requires Resolve(raw) == Failure(DigitsOutOfRange(o))
    ensures SuppliedDigitOption(raw, o)
  {
    ResolveErrorOrder(raw);
    FirstFailingDigitCheckIsFirst(raw, ParsedStyle(raw), CurrencyDigitsFor(ParsedStyle(raw), raw.currency));
    FailingDigitCheckWasSupplied(raw, ParsedStyle(raw), CurrencyDigitsFor(ParsedStyle(raw), raw.currency), o);
  }

  /** With nothing supplied: decimal style, one integer digit, zero to three fraction
      digits, no significant-digit pair, grouping on. */
  lemma DefaultResolution(locale: string, numberingSystem: string)
    requires locale != ""
    ensures Resolve(DefaultOptions(locale, numberingSystem)) == Success(ResolvedConfig(
      locale, numberingSystem, Decimal, None, 1, 0, 3, None, true))
  {
  }
}
