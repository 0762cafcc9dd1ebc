/** The Intl.NumberFormat object: its internal slots, filled in place by initialization,
    the lazily opened engine, and the entry points format, formatToParts and
    resolvedOptions. */
module NumberFormatObject {
  import opened Wrappers
  import opened CurrencyDigitsTable
  import opened NumberFormatOptions
  import opened NumberFormatEngine
  import opened NumberFormatParts
  import opened NumberFormatPartsProperties
  import opened NumberFormatResolvedOptions

  /** How many of initialization's checks an outcome got past; 9 is all of them. */
  function ChecksPassed(error: Option<InitError>): (n: nat)
    ensures n == 9 <==> error.None?
  {
    match error
    case None => 9
    case Some(InvalidLocaleMatcher) => 0
    case Some(InvalidLocale) => 1
    case Some(InvalidStyle) => 2
    case Some(MalformedCurrency) => 3
    case Some(MissingCurrency) => 3
    case Some(InvalidCurrencyDisplay) => 4
    case Some(DigitsOutOfRange(MinimumIntegerDigits)) => 5
    case Some(DigitsOutOfRange(MinimumFractionDigits)) => 6
    case Some(DigitsOutOfRange(MaximumFractionDigits)) => 7
    case Some(DigitsOutOfRange(_)) => 8
  }

  /** A repeated initialization that supplies no significant digits leaves the earlier
      pair in place, since only a supplied pair is written. */
  function KeepEarlierPair(c: ResolvedConfig, minimum: nat, maximum: nat): ResolvedConfig {
    if c.significantDigits.None? && minimum > 0 then c.(significantDigits := Some(SignificantDigits(minimum, maximum)))
    else c
  }

  lemma KeptPairWellFormed(c: ResolvedConfig, minimum: nat, maximum: nat)
    requires WellFormed(c) && (minimum > 0 ==> 1 <= minimum <= maximum <= 21)
    ensures WellFormed(KeepEarlierPair(c, minimum, maximum))
    ensures minimum == 0 ==> KeepEarlierPair(c, minimum, maximum) == c
  {
  }

  /** The slots when nothing is supplied and the default locale is the given one. */
  function DefaultConfig(locale: string, numberingSystem: string): ResolvedConfig {
    ResolvedConfig(locale, numberingSystem, Decimal, None, 1, 0, 3, None, true)
  }

  datatype FormatError = FormatFailed | NotInitialized | FieldIteratorFailed | PartsFormatFailed | OutOfMemory

  datatype Thrown = ThrownError | ThrownTypeError | ThrownOutOfMemoryError

  /** format throws a plain Error; formatToParts throws TypeErrors, or an out-of-memory
      error when the result array cannot be allocated. */
  function ThrownAs(e: FormatError): (t: Thrown)
    ensures t == ThrownError <==> e == FormatFailed
    ensures t == ThrownOutOfMemoryError <==> e == OutOfMemory
  {
    match e
    case FormatFailed => ThrownError
    case OutOfMemory => ThrownOutOfMemoryError
    case _ => ThrownTypeError
  }

  /** unum_formatDoubleForFields: the text and the iterator's field positions. */
  type FormatForFields = (EngineConfig, Double, nat) -> EngineOutcome<(string, seq<Position>)>

  function FieldsCall(format: FormatForFields, engine: EngineConfig, v: Double): nat -> EngineOutcome<(string, seq<Position>)> {
    (n: nat) => format(engine, v, n)
  }

  /** formatToParts once the engine exists: the value is formatted as given (negative zero
      is not mapped), with one retry, and the text is cut into parts that spell it out. */
  function FormatToPartsWith(format: FormatForFields, engine: EngineConfig, v: Double,
                             iteratorOpened: bool, arrayAllocated: bool): (r: Result<seq<Part>, FormatError>)
    ensures r == Failure(FieldIteratorFailed) <==> !iteratorOpened
    ensures r == Failure(PartsFormatFailed) <==> iteratorOpened && WithOneRetry(FieldsCall(format, engine, v)).None?
    ensures r == Failure(OutOfMemory) <==>
      iteratorOpened && WithOneRetry(FieldsCall(format, engine, v)).Some? && !arrayAllocated
    ensures r.Success? ==>
      && WithOneRetry(FieldsCall(format, engine, v)).Some?
      && Text(r.value) == WithOneRetry(FieldsCall(format, engine, v)).value.0
  {
    if !iteratorOpened then Failure(FieldIteratorFailed)
    else
      match WithOneRetry(FieldsCall(format, engine, v))
      case None => Failure(PartsFormatFailed)
      case Some(out) =>
        if !arrayAllocated then Failure(OutOfMemory)
        else
          PartitionSpellsText(out.0, FieldsOf(out.1), v);
          Success(Partition(out.0, FieldsOf(out.1), v))
  }

  class NumberFormat {
    var locale: string
    var numberingSystem: string
    var style: Style
    var currency: string
    var currencyDisplay: CurrencyDisplay
    var minimumIntegerDigits: nat
    var minimumFractionDigits: nat
    var maximumFractionDigits: nat
    /** 0 means that no significant-digit pair was resolved. */
    var minimumSignificantDigits: nat
    var maximumSignificantDigits: nat
    var useGrouping: bool
    var initialized: bool
    /** The engine, opened on first use. */
    var engine: Option<EngineConfig>

    /** The currency slots, which only currency style has. */
    function CurrencyData(): Option<CurrencySlots>
      reads this
    {
      if style == Currency then Some(CurrencySlots(currency, currencyDisplay)) else None
    }

    /** The slots as a configuration value. */
    function Config(): (c: ResolvedConfig)
      reads this
      ensures HasCurrencyData(c)
    {
      ResolvedConfig(
        locale, numberingSystem, style, CurrencyData(),
        minimumIntegerDigits, minimumFractionDigits, maximumFractionDigits,
        if minimumSignificantDigits > 0 then Some(SignificantDigits(minimumSignificantDigits, maximumSignificantDigits)) else None,
        useGrouping)
    }

    predicate SignificantInRange()
      reads this
    {
      minimumSignificantDigits > 0 ==> 1 <= minimumSignificantDigits <= maximumSignificantDigits <= 21
    }

    /** A resolved pair lies in its range, and an uninitialized object has none. */
    predicate PairInvariant()
      reads this
    {
      SignificantInRange() && (!initialized ==> minimumSignificantDigits == 0)
    }

    /** A resolved pair lies in its range; an uninitialized object has none; an initialized
        object has well-formed slots. */
    predicate Valid()
      reads this
    {
      && PairInvariant()
      && (initialized ==> WellFormed(Config()))
    }

    /** The state after "initialize with no locales and no options unless already
        initialized"; with no default locale the check fails after writing the empty locale. */
    predicate LazilyInitialized(wasInitialized: bool, before: ResolvedConfig, defaultLocale: string, defaultNumberingSystem: string)
      reads this
    {
      if wasInitialized then initialized && Config() == before
      else if defaultLocale == "" then !initialized && Config() == before.(locale := "")
      else initialized && Config() == DefaultConfig(defaultLocale, defaultNumberingSystem)
    }

    constructor ()
      ensures !initialized && engine.None? && Valid()
      ensures Config() == ResolvedConfig("", "", Decimal, None, 1, 0, 3, None, true)
    {
      locale := "";
      numberingSystem := "";
      style := Decimal;
      currency := "";
      currencyDisplay := Symbol;
      minimumIntegerDigits := 1;
      minimumFractionDigits := 0;
      maximumFractionDigits := 3;
      minimumSignificantDigits := 0;
      maximumSignificantDigits := 0;
      useGrouping := true;
      initialized := false;
      engine := None;
    }

    /** InitializeNumberFormat: each slot is written as soon as its check has passed, so a
        failing check leaves the earlier slots written and the object uninitialized. */
    method Initialize(raw: RawOptions) returns (error: Option<InitError>)
      requires PairInvariant()
      modifies this
      ensures error.None? <==> Resolve(raw).Success?
      ensures error.Some? ==> Resolve(raw) == Failure(error.value)
      ensures initialized == (error.None? || old(initialized))
      ensures error.None? ==>
        Config() == KeepEarlierPair(Resolve(raw).value, old(minimumSignificantDigits), old(maximumSignificantDigits))
      ensures error.None? && !old(initialized) ==> Config() == Resolve(raw).value
      ensures error.None? || !old(initialized) ==> Valid()
      ensures locale == if ChecksPassed(error) >= 1 then raw.resolvedLocale else old(locale)
      ensures numberingSystem == if ChecksPassed(error) >= 2 then raw.resolvedNumberingSystem else old(numberingSystem)
      ensures style == if ChecksPassed(error) >= 3 then ParsedStyle(raw) else old(style)
      ensures currency ==
        if ChecksPassed(error) >= 4 && style == Currency && raw.currency.Some? then ToAsciiUpper(raw.currency.value)
        else old(currency)
      ensures currencyDisplay ==
        if ChecksPassed(error) >= 5 && style == Currency then ParsedCurrencyDisplay(raw) else old(currencyDisplay)
      ensures minimumIntegerDigits ==
        if ChecksPassed(error) >= 6 then raw.minimumIntegerDigits.GetOr(1) else old(minimumIntegerDigits)
      ensures minimumFractionDigits ==
        if ChecksPassed(error) >= 7 then
          raw.minimumFractionDigits.GetOr(if style == Currency then CurrencyDigitsFor(style, raw.currency) else 0)
        else old(minimumFractionDigits)
      ensures maximumFractionDigits ==
        if ChecksPassed(error) >= 8 then
          raw.maximumFractionDigits.GetOr(
            MaximumFractionDigitsDefault(style, minimumFractionDigits, CurrencyDigitsFor(style, raw.currency)))
        else old(maximumFractionDigits)
      ensures error.Some? ==>
        && minimumSignificantDigits == old(minimumSignificantDigits)
        && maximumSignificantDigits == old(maximumSignificantDigits)
        && useGrouping == old(useGrouping)
      ensures engine == old(engine)
    {
      var matcher := GetEnumOption(raw.localeMatcher, ParseLocaleMatcher, BestFit, InvalidLocaleMatcher);
      if matcher.Failure? {
        return Some(InvalidLocaleMatcher);
      }
      locale := raw.resolvedLocale;
      if locale == "" {
        return Some(InvalidLocale);
      }
      numberingSystem := raw.resolvedNumberingSystem;
      var styleOption := GetEnumOption(raw.style, ParseStyle, Decimal, InvalidStyle);
      if styleOption.Failure? {
        return Some(InvalidStyle);
      }
      style := styleOption.value;
      assert style == ParsedStyle(raw);
      assert Resolve(raw) == ResolveCurrency(raw, style);
      error := InitializeCurrency(raw);
      if error.None? {
        KeptPairWellFormed(Resolve(raw).value, old(minimumSignificantDigits), old(maximumSignificantDigits));
        assert WellFormed(Config());
      } else {
        assert SignificantInRange();
      }
    }

    /** The currency and currencyDisplay options, the middle part of InitializeNumberFormat. */
    method InitializeCurrency(raw: RawOptions) returns (error: Option<InitError>)
      requires SignificantInRange() && locale == raw.resolvedLocale && locale != ""
      requires numberingSystem == raw.resolvedNumberingSystem
      modifies this
      ensures locale == old(locale) && numberingSystem == old(numberingSystem) && style == old(style)
      ensures error.None? <==> ResolveCurrency(raw, style).Success?
      ensures error.Some? ==> ResolveCurrency(raw, style) == Failure(error.value)
      ensures error.Some? ==> 3 <= ChecksPassed(error) < 9
      ensures initialized == (error.None? || old(initialized))
      ensures error.None? ==>
        Config() == KeepEarlierPair(ResolveCurrency(raw, style).value,
                                    old(minimumSignificantDigits), old(maximumSignificantDigits))
      ensures currency ==
        if ChecksPassed(error) >= 4 && style == Currency && raw.currency.Some? then ToAsciiUpper(raw.currency.value)
        else old(currency)
      ensures currencyDisplay ==
        if ChecksPassed(error) >= 5 && style == Currency then ParsedCurrencyDisplay(raw) else old(currencyDisplay)
      ensures minimumIntegerDigits ==
        if ChecksPassed(error) >= 6 then raw.minimumIntegerDigits.GetOr(1) else old(minimumIntegerDigits)
      ensures minimumFractionDigits ==
        if ChecksPassed(error) >= 7 then
          raw.minimumFractionDigits.GetOr(if style == Currency then CurrencyDigitsFor(style, raw.currency) else 0)
        else old(minimumFractionDigits)
      ensures maximumFractionDigits ==
        if ChecksPassed(error) >= 8 then
          raw.maximumFractionDigits.GetOr(
            MaximumFractionDigitsDefault(style, minimumFractionDigits, CurrencyDigitsFor(style, raw.currency)))
        else old(maximumFractionDigits)
      ensures error.Some? ==>
        && minimumSignificantDigits == old(minimumSignificantDigits)
        && maximumSignificantDigits == old(maximumSignificantDigits)
        && useGrouping == old(useGrouping)
      ensures engine == old(engine)
    {
      if raw.currency.Some? && !IsWellFormedCurrencyCode(raw.currency.value) {
        return Some(MalformedCurrency);
      }
      var currencyDigits: nat := 0;
      if style == Currency {
        if raw.currency.None? {
          return Some(MissingCurrency);
        }
        var code := ToAsciiUpper(raw.currency.value);
        UpperCaseNormalisation(raw.currency.value);
        currency := code;
        currencyDigits := ComputeCurrencyDigits(code);
      }
      var displayOption := GetEnumOption(raw.currencyDisplay, ParseCurrencyDisplay, Symbol, InvalidCurrencyDisplay);
      if displayOption.Failure? {
        return Some(InvalidCurrencyDisplay);
      }
      if style == Currency {
        currencyDisplay := displayOption.value;
      }
      assert displayOption.value == ParsedCurrencyDisplay(raw);
      assert currencyDigits == CurrencyDigitsFor(style, raw.currency);
      assert CurrencyData() == CurrencySlotsOf(raw, style);
      assert ResolveCurrency(raw, style) == ResolveDigits(raw, style, CurrencyData(), currencyDigits);
      error := InitializeDigits(raw, currencyDigits);
    }

    /** The digit options and useGrouping, the second half of InitializeNumberFormat. */
    method InitializeDigits(raw: RawOptions, currencyDigits: nat) returns (error: Option<InitError>)
      requires SignificantInRange() && locale == raw.resolvedLocale && locale != "" && currencyDigits <= 20
      requires numberingSystem == raw.resolvedNumberingSystem
      requires style == Currency ==> IsUpperCode(currency)
      modifies this
      ensures locale == old(locale) && numberingSystem == old(numberingSystem) && style == old(style)
      ensures currency == old(currency) && currencyDisplay == old(currencyDisplay)
      ensures error.None? <==> ResolveDigits(raw, style, CurrencyData(), currencyDigits).Success?
      ensures error.Some? ==> ResolveDigits(raw, style, CurrencyData(), currencyDigits) == Failure(error.value)
      ensures error.Some? ==> 5 <= ChecksPassed(error) < 9
      ensures initialized == (error.None? || old(initialized))
      ensures error.None? ==>
        Config() == KeepEarlierPair(ResolveDigits(raw, style, CurrencyData(), currencyDigits).value,
                                    old(minimumSignificantDigits), old(maximumSignificantDigits))
      ensures minimumIntegerDigits ==
        if ChecksPassed(error) >= 6 then raw.minimumIntegerDigits.GetOr(1) else old(minimumIntegerDigits)
      ensures minimumFractionDigits ==
        if ChecksPassed(error) >= 7 then raw.minimumFractionDigits.GetOr(if style == Currency then currencyDigits else 0)
        else old(minimumFractionDigits)
      ensures maximumFractionDigits ==
        if ChecksPassed(error) >= 8 then
          raw.maximumFractionDigits.GetOr(MaximumFractionDigitsDefault(style, minimumFractionDigits, currencyDigits))
        else old(maximumFractionDigits)
      ensures error.Some? ==>
        && minimumSignificantDigits == old(minimumSignificantDigits)
        && maximumSignificantDigits == old(maximumSignificantDigits)
        && useGrouping == old(useGrouping)
      ensures engine == old(engine)
    {
      ghost var digits := ResolveDigits(raw, style, CurrencyData(), currencyDigits);
      var minimumInteger := GetNumberOption(raw.minimumIntegerDigits, 1, 21, 1, MinimumIntegerDigits);
      if minimumInteger.Failure? {
        return Some(minimumInteger.error);
      }
      minimumIntegerDigits := minimumInteger.value;
      var minimumFractionDefault := if style == Currency then currencyDigits else 0;
      var minimumFraction := GetNumberOption(raw.minimumFractionDigits, 0, 20, minimumFractionDefault, MinimumFractionDigits);
      if minimumFraction.Failure? {
        return Some(minimumFraction.error);
      }
      minimumFractionDigits := minimumFraction.value;
      var maximumFractionDefault := MaximumFractionDigitsDefault(style, minimumFractionDigits, currencyDigits);
      var maximumFraction := GetNumberOption(raw.maximumFractionDigits, minimumFractionDigits, 20, maximumFractionDefault, MaximumFractionDigits);
      if maximumFraction.Failure? {
        return Some(maximumFraction.error);
      }
      maximumFractionDigits := maximumFraction.value;
      assert digits == ResolveTail(raw, style, CurrencyData(), minimumIntegerDigits, minimumFractionDigits, maximumFractionDigits);
      error := InitializeSignificantDigits(raw);
    }

    /** The significant-digit pair and useGrouping, the last part of InitializeNumberFormat;
        the object counts as initialized only once this part has succeeded. */
    method InitializeSignificantDigits(raw: RawOptions) returns (error: Option<InitError>)
      requires SignificantInRange()
      modifies this
      ensures locale == old(locale) && numberingSystem == old(numberingSystem) && style == old(style)
      ensures currency == old(currency) && currencyDisplay == old(currencyDisplay)
      ensures minimumIntegerDigits == old(minimumIntegerDigits)
      ensures minimumFractionDigits == old(minimumFractionDigits)
      ensures maximumFractionDigits == old(maximumFractionDigits)
      ensures error.Some? ==> ChecksPassed(error) == 8
      ensures error.None? <==> ResolveSignificantDigits(raw.minimumSignificantDigits, raw.maximumSignificantDigits).Success?
      ensures error.Some? ==> ResolveSignificantDigits(raw.minimumSignificantDigits, raw.maximumSignificantDigits) == Failure(error.value)
      ensures initialized == (error.None? || old(initialized))
      ensures error.None? ==>
        Config() == KeepEarlierPair(old(Config()).(
          significantDigits := ResolveSignificantDigits(raw.minimumSignificantDigits, raw.maximumSignificantDigits).value,
          useGrouping := raw.useGrouping.GetOr(true)), old(minimumSignificantDigits), old(maximumSignificantDigits))
      ensures error.Some? ==>
        && minimumSignificantDigits == old(minimumSignificantDigits)
        && maximumSignificantDigits == old(maximumSignificantDigits)
        && useGrouping == old(useGrouping)
      ensures engine == old(engine)
    {
      // both significant-digit options are read and checked before either slot is written
      var significant := ResolveSignificantDigits(raw.minimumSignificantDigits, raw.maximumSignificantDigits);
      if significant.Failure? {
        assert significant.error.DigitsOutOfRange?;
        return Some(significant.error);
      }
      if significant.value.Some? {
        minimumSignificantDigits := significant.value.value.minimum;
        maximumSignificantDigits := significant.value.value.maximum;
      }
      useGrouping := raw.useGrouping.GetOr(true);
      initialized := true;
      return None;
    }

    /** The lazy initialization the entry points share: with no locales and no options,
        unless an earlier initialization succeeded. */
    method EnsureInitialized(defaultLocale: string, defaultNumberingSystem: string)
      requires Valid()
      modifies this
      ensures LazilyInitialized(old(initialized), old(Config()), defaultLocale, defaultNumberingSystem)
      ensures Valid() && engine == old(engine)
    {
      if !initialized {
        var raw := DefaultOptions(defaultLocale, defaultNumberingSystem);
        if defaultLocale != "" {
          DefaultResolution(defaultLocale, defaultNumberingSystem);
        }
        var _ := Initialize(raw);
      }
    }

    /** createNumberFormat: initialize if needed, then open the engine for the slots and
        set its attributes; the engine is kept only when opening succeeded and, in currency
        style, the engine accepted the currency code (the one attribute call that reports a
        status). */
    method CreateNumberFormat(defaultLocale: string, defaultNumberingSystem: string,
                              openSucceeds: bool, currencyCodeAccepted: bool)
      requires Valid() && engine.None?
      modifies this
      ensures LazilyInitialized(old(initialized), old(Config()), defaultLocale, defaultNumberingSystem)
      ensures Valid()
      ensures engine == if openSucceeds && (style == Currency ==> currencyCodeAccepted) then Some(EngineConfigOf(Config())) else None
    {
      EnsureInitialized(defaultLocale, defaultNumberingSystem);
      var engineStyle :=
        match style
        case Decimal => UnumDecimal
        case Percent => UnumPercent
        case Currency =>
          match currencyDisplay
          case Code => UnumCurrencyIso
          case Symbol => UnumCurrency
          case Name => UnumCurrencyPlural;
      if !openSucceeds {
        return;
      }
      var currencyCode := if style == Currency then Some(currency) else None;
      var digits :=
        if minimumSignificantDigits == 0 then
          IntegerFractionDigits(minimumIntegerDigits, minimumFractionDigits, maximumFractionDigits)
        else
          SignificantDigitsUsed(minimumSignificantDigits, maximumSignificantDigits);
      if style == Currency && !currencyCodeAccepted {
        return;
      }
      engine := Some(EngineConfig(locale, engineStyle, currencyCode, digits, useGrouping, RoundHalfUp));
    }

    /** formatNumber: open the engine on first use (a plain Error when that fails), map
        negative zero to zero, format into a 32-unit buffer and, on overflow, once more into
        a buffer of the reported size. */
    method FormatNumber(v: Double, format: FormatDouble, defaultLocale: string, defaultNumberingSystem: string,
                        openSucceeds: bool, currencyCodeAccepted: bool) returns (r: Result<string, FormatError>)
      requires Valid()
      modifies this
      ensures old(engine).Some? ==> Config() == old(Config()) && initialized == old(initialized) && engine == old(engine)
      ensures old(engine).None? ==>
        && LazilyInitialized(old(initialized), old(Config()), defaultLocale, defaultNumberingSystem)
        && engine == if openSucceeds && (style == Currency ==> currencyCodeAccepted) then Some(EngineConfigOf(Config())) else None
      ensures Valid()
      ensures r.Failure? ==> r.error == FormatFailed
      ensures engine.None? ==> r.Failure?
      ensures engine.Some? ==>
        && (r.Success? <==> FormatNumberWith(format, engine.value, v).Some?)
        && (r.Success? ==> r.value == FormatNumberWith(format, engine.value, v).value)
    {
      if engine.None? {
        CreateNumberFormat(defaultLocale, defaultNumberingSystem, openSucceeds, currencyCodeAccepted);
        if engine.None? {
          return Failure(FormatFailed);
        }
      }
      var number := if IsZero(v) then PositiveZero else v;
      assert number == NormalizeZero(v);
      var outcome := format(engine.value, number, InitialCapacity);
      if outcome.BufferOverflow? {
        outcome := format(engine.value, number, outcome.needed);
      }
      if !outcome.Formatted? {
        return Failure(FormatFailed);
      }
      r := Success(outcome.output);
    }

    /** resolvedOptions: initialize if needed, then list locale, numberingSystem and style,
        the currency pair in currency style, the three digit counts, the significant-digit
        pair when one was resolved, and useGrouping. */
    method ResolvedOptions(defaultLocale: string, defaultNumberingSystem: string) returns (props: seq<Property>)
      requires Valid()
      modifies this
      ensures LazilyInitialized(old(initialized), old(Config()), defaultLocale, defaultNumberingSystem)
      ensures Valid() && engine == old(engine)
      ensures props == ResolvedOptionsOf(Config())
    {
      EnsureInitialized(defaultLocale, defaultNumberingSystem);
      ghost var c := Config();
      props := [Property("locale", StringValue(locale))];
      props := props + [Property("numberingSystem", StringValue(numberingSystem))];
      props := props + [Property("style", StringValue(StyleString(style)))];
      assert props == HeadProperties(c);
      if style == Currency {
        props := props + [Property("currency", StringValue(currency))];
        props := props + [Property("currencyDisplay", StringValue(CurrencyDisplayString(currencyDisplay)))];
      }
      assert props == HeadProperties(c) + CurrencyProperties(c);
      ghost var front := props;
      props := props + [Property("minimumIntegerDigits", NumberValue(minimumIntegerDigits))];
      props := props + [Property("minimumFractionDigits", NumberValue(minimumFractionDigits))];
      props := props + [Property("maximumFractionDigits", NumberValue(maximumFractionDigits))];
      assert props == front + DigitProperties(c);
      front := props;
      if minimumSignificantDigits > 0 {
        props := props + [Property("minimumSignificantDigits", NumberValue(minimumSignificantDigits))];
        props := props + [Property("maximumSignificantDigits", NumberValue(maximumSignificantDigits))];
      }
      assert props == front + SignificantProperties(c);
      props := props + [Property("useGrouping", BooleanValue(useGrouping))];
    }

    /** formatToParts: open the engine on first use; a TypeError unless the object is
        initialized and has an engine, when the field iterator cannot be opened, or when
        formatting fails after the one retry; an out-of-memory error when the result array
        cannot be allocated. Otherwise the fields are collected from the iterator and the
        text is partitioned. Negative zero is formatted as it is. */
    method FormatToParts(v: Double, format: FormatForFields, defaultLocale: string, defaultNumberingSystem: string,
                         openSucceeds: bool, currencyCodeAccepted: bool, iteratorOpened: bool, arrayAllocated: bool)
      returns (r: Result<seq<Part>, FormatError>)
      requires Valid()
      modifies this
      ensures old(engine).Some? ==> Config() == old(Config()) && initialized == old(initialized) && engine == old(engine)
      ensures old(engine).None? ==>
        && LazilyInitialized(old(initialized), old(Config()), defaultLocale, defaultNumberingSystem)
        && engine == if openSucceeds && (style == Currency ==> currencyCodeAccepted) then Some(EngineConfigOf(Config())) else None
      ensures Valid()
      ensures !initialized || engine.None? ==> r == Failure(NotInitialized)
      ensures initialized && engine.Some? ==> r == FormatToPartsWith(format, engine.value, v, iteratorOpened, arrayAllocated)
    {
      if engine.None? {
        CreateNumberFormat(defaultLocale, defaultNumberingSystem, openSucceeds, currencyCodeAccepted);
      }
      if !initialized || engine.None? {
        return Failure(NotInitialized);
      }
      if !iteratorOpened {
        return Failure(FieldIteratorFailed);
      }
      var outcome := format(engine.value, v, InitialCapacity);
      if outcome.BufferOverflow? {
        outcome := format(engine.value, v, outcome.needed);
      }
      if !outcome.Formatted? {
        return Failure(PartsFormatFailed);
      }
      var text := outcome.output.0;
      var fields := CollectFields(outcome.output.1);
      if !arrayAllocated {
        return Failure(OutOfMemory);
      }
      var parts := PartitionNumberPattern(text, fields, v);
      r := Success(parts);
    }
  }
}
