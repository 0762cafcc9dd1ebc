/** The formatting engine as this core sees it: the configuration it is opened with,
    the double values it is given, and the one-retry discipline around its calls. The
    engine's own digit shaping is a black box: each call is a function parameter. */
module NumberFormatEngine {
  import opened Wrappers
  import opened NumberFormatOptions

  type Magnitude = r: real | r >= 0.0

  /** The classes of an IEEE double that the core distinguishes; a finite value keeps its
      sign bit apart from its magnitude, so negative zero is Finite(true, 0.0). */
  datatype Double = NaN | Infinity(negative: bool) | Finite(negative: bool, magnitude: Magnitude)

  /** `value < 0`: false for NaN and for negative zero. */
  predicate IsNegative(v: Double) {
    match v
    case NaN => false
    case Infinity(negative) => negative
    case Finite(negative, magnitude) => negative && magnitude > 0.0
  }

  /** `!value`: true for both zeros and for nothing else. */
  predicate IsZero(v: Double) {
    v.Finite? && v.magnitude == 0.0
  }

  const PositiveZero: Double := Finite(false, 0.0)

  /** Negative zero is mapped to positive zero before formatting; every other value is
      passed on unchanged. */
  function NormalizeZero(v: Double): (r: Double)
    ensures r.Finite? && r.magnitude == 0.0 ==> !r.negative
    ensures !IsZero(v) ==> r == v
    ensures IsZero(r) <==> IsZero(v)
    ensures !IsNegative(r) <== !IsNegative(v)
  {
    if IsZero(v) then PositiveZero else v
  }

  /** The engine's style: decimal, percent, or currency shown as ISO code, symbol or
      plural name. */
  datatype EngineStyle = UnumDecimal | UnumPercent | UnumCurrencyIso | UnumCurrency | UnumCurrencyPlural

  /** Digit attributes: either the integer/fraction bounds or significant-digit mode. */
  datatype DigitAttributes =
    | IntegerFractionDigits(minimumInteger: nat, minimumFraction: nat, maximumFraction: nat)
    | SignificantDigitsUsed(minimumSignificant: nat, maximumSignificant: nat)

  datatype RoundingMode = RoundHalfUp

  /** What the engine is opened with and which attributes are set on it. */
  datatype EngineConfig = EngineConfig(
    locale: string,
    style: EngineStyle,
    currencyCode: Option<string>,
    digits: DigitAttributes,
    grouping: bool,
    rounding: RoundingMode)

  function EngineStyleOf(style: Style, currency: Option<CurrencySlots>): EngineStyle
    requires style == Currency ==> currency.Some?
  {
    match style
    case Decimal => UnumDecimal
    case Percent => UnumPercent
    case Currency =>
      match currency.value.display
      case Code => UnumCurrencyIso
      case Symbol => UnumCurrency
      case Name => UnumCurrencyPlural
  }

  /** Reading the slots back from an engine style: its inverse. */
  function StyleOfEngine(style: EngineStyle): (Style, Option<CurrencyDisplay>) {
    match style
    case UnumDecimal => (Decimal, None)
    case UnumPercent => (Percent, None)
    case UnumCurrencyIso => (Currency, Some(Code))
    case UnumCurrency => (Currency, Some(Symbol))
    case UnumCurrencyPlural => (Currency, Some(Name))
  }

  /** Currency style comes with a currency code and display. */
  predicate HasCurrencyData(c: ResolvedConfig) {
    c.style == Currency ==> c.currency.Some?
  }

  /** The engine configuration that createNumberFormat derives from the slots. */
  function EngineConfigOf(c: ResolvedConfig): (e: EngineConfig)
    requires HasCurrencyData(c)
    // the style and currency display can be read back from the engine style
    ensures StyleOfEngine(e.style).0 == c.style
    ensures StyleOfEngine(e.style).1 == if c.style == Currency then Some(c.currency.value.display) else None
    ensures e.currencyCode == if c.style == Currency then Some(c.currency.value.code) else None
    // significant digits, when present, replace the integer/fraction bounds
    ensures e.digits.SignificantDigitsUsed? <==> c.significantDigits.Some?
    ensures e.digits.SignificantDigitsUsed? ==>
      e.digits.minimumSignificant == c.significantDigits.value.minimum &&
      e.digits.maximumSignificant == c.significantDigits.value.maximum
    ensures e.digits.IntegerFractionDigits? ==>
      e.digits == IntegerFractionDigits(c.minimumIntegerDigits, c.minimumFractionDigits, c.maximumFractionDigits)
    ensures e.locale == c.locale && e.grouping == c.useGrouping && e.rounding == RoundHalfUp
  {
    EngineConfig(
      c.locale,
      EngineStyleOf(c.style, c.currency),
      if c.style == Currency then Some(c.currency.value.code) else None,
      match c.significantDigits
      case None => IntegerFractionDigits(c.minimumIntegerDigits, c.minimumFractionDigits, c.maximumFractionDigits)
      case Some(sd) => SignificantDigitsUsed(sd.minimum, sd.maximum),
      c.useGrouping,
      RoundHalfUp)
  }

  /** Two well-formed configurations that open the same engine agree on every slot the
      engine sees (the locale, style, currency, grouping and the authoritative digits). */
  lemma EngineConfigDeterminesSlots(c: ResolvedConfig, d: ResolvedConfig)
    requires WellFormed(c) && WellFormed(d) && EngineConfigOf(c) == EngineConfigOf(d)
    ensures c.locale == d.locale && c.style == d.style && c.currency == d.currency
    ensures c.useGrouping == d.useGrouping && c.significantDigits == d.significantDigits
    ensures c.significantDigits.None? ==>
      c.minimumIntegerDigits == d.minimumIntegerDigits &&
      c.minimumFractionDigits == d.minimumFractionDigits &&
      c.maximumFractionDigits == d.maximumFractionDigits
  {
    assert StyleOfEngine(EngineConfigOf(c).style) == StyleOfEngine(EngineConfigOf(d).style);
    if c.style == Currency {
      assert c.currency.value.display == d.currency.value.display;
      assert c.currency.value.code == d.currency.value.code;
    }
    if c.significantDigits.Some? {
      assert c.significantDigits.value == d.significantDigits.value;
    }
  }

  /** One engine call into a buffer of the given capacity: the output, a buffer-overflow
      status carrying the length needed, or any other failure. */
  datatype EngineOutcome<T> = Formatted(output: T) | BufferOverflow(needed: nat) | EngineFailure

  const InitialCapacity: nat := 32

  /** A call with the initial 32-unit buffer, then on overflow exactly one more call with
      a buffer of the reported size; any failure after that is final. */
  function WithOneRetry<T>(call: nat -> EngineOutcome<T>): (r: Option<T>)
    ensures call(InitialCapacity).Formatted? ==> r == Some(call(InitialCapacity).output)
    ensures call(InitialCapacity).EngineFailure? ==> r.None?
    ensures call(InitialCapacity).BufferOverflow? ==>
      var retry := call(call(InitialCapacity).needed);
      r == if retry.Formatted? then Some(retry.output) else None
  {
    match call(InitialCapacity)
    case Formatted(out) => Some(out)
    case EngineFailure => None
    case BufferOverflow(needed) =>
      match call(needed)
      case Formatted(out) => Some(out)
      case _ => None
  }

  /** unum_formatDouble: the text for a value, given the engine and the buffer capacity. */
  type FormatDouble = (EngineConfig, Double, nat) -> EngineOutcome<string>

  /** One engine call for a fixed engine and value, as a function of the capacity. */
  function FormatCall(format: FormatDouble, engine: EngineConfig, v: Double): nat -> EngineOutcome<string> {
    (n: nat) => format(engine, v, n)
  }

  /** FormatNumber once the engine exists: the value with negative zero mapped to positive
      zero, formatted with one retry. */
  function FormatNumberWith(format: FormatDouble, engine: EngineConfig, v: Double): (r: Option<string>)
    ensures !IsZero(v) ==> r == WithOneRetry(FormatCall(format, engine, v))
    ensures IsZero(v) ==> r == WithOneRetry(FormatCall(format, engine, PositiveZero))
  {
    WithOneRetry(FormatCall(format, engine, NormalizeZero(v)))
  }
}
