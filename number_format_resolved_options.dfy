/** resolvedOptions (section 11.3.5 of ECMA-402, 2nd edition): the slots as an ordered list
    of properties, where currency, currencyDisplay and the significant-digit pair appear
    only when their slots are present. */
module NumberFormatResolvedOptions {
  import opened Wrappers
  import opened CurrencyDigitsTable
  import opened NumberFormatOptions

  datatype PropertyValue = StringValue(text: string) | NumberValue(number: nat) | BooleanValue(flag: bool)

  datatype Property = Property(key: string, value: PropertyValue)

  /** The value of the first property with the given key. */
  function Get(props: seq<Property>, key: string): (r: Option<PropertyValue>)
    ensures r.Some? <==> exists i :: 0 <= i < |props| && props[i].key == key
  {
    if |props| == 0 then None
    else if props[0].key == key then Some(props[0].value)
    else Get(props[1..], key)
  }

  function Keys(props: seq<Property>): seq<string> {
    seq(|props|, i requires 0 <= i < |props| => props[i].key)
  }

  function CurrencyProperties(c: ResolvedConfig): seq<Property> {
    match c.currency
    case None => []
    case Some(slots) =>
      [Property("currency", StringValue(slots.code)),
       Property("currencyDisplay", StringValue(CurrencyDisplayString(slots.display)))]
  }

  function SignificantProperties(c: ResolvedConfig): seq<Property> {
    match c.significantDigits
    case None => []
    case Some(sd) =>
      [Property("minimumSignificantDigits", NumberValue(sd.minimum)),
       Property("maximumSignificantDigits", NumberValue(sd.maximum))]
  }

  /** The properties in the order resolvedOptions defines them. */
  function ResolvedOptionsOf(c: ResolvedConfig): (props: seq<Property>)
    ensures Keys(props) ==
      ["locale", "numberingSystem", "style"]
      + (if c.currency.Some? then ["currency", "currencyDisplay"] else [])
      + ["minimumIntegerDigits", "minimumFractionDigits", "maximumFractionDigits"]
      + (if c.significantDigits.Some? then ["minimumSignificantDigits", "maximumSignificantDigits"] else [])
      + ["useGrouping"]
  {
    HeadProperties(c) + CurrencyProperties(c) + DigitProperties(c) + SignificantProperties(c)
    + [Property("useGrouping", BooleanValue(c.useGrouping))]
  }

  /** A lookup in a concatenation looks in the first list, then in the second. */
  lemma {:induction false} GetAppend(a: seq<Property>, b: seq<Property>, key: string)
    ensures Get(a + b, key) == if Get(a, key).Some? then Get(a, key) else Get(b, key)
    decreases |a|
  {
    if |a| > 0 {
      assert (a + b)[1..] == a[1..] + b;
      GetAppend(a[1..], b, key);
    } else {
      assert a + b == b;
    }
  }

  function HeadProperties(c: ResolvedConfig): seq<Property> {
    [Property("locale", StringValue(c.locale)),
     Property("numberingSystem", StringValue(c.numberingSystem)),
     Property("style", StringValue(StyleString(c.style)))]
  }

  function DigitProperties(c: ResolvedConfig): seq<Property> {
    [Property("minimumIntegerDigits", NumberValue(c.minimumIntegerDigits)),
     Property("minimumFractionDigits", NumberValue(c.minimumFractionDigits)),
     Property("maximumFractionDigits", NumberValue(c.maximumFractionDigits))]
  }

  /** A lookup in the resolved options goes through its five groups in order. */
  lemma GetResolved(c: ResolvedConfig, key: string)
    ensures Get(ResolvedOptionsOf(c), key) ==
      if Get(HeadProperties(c), key).Some? then Get(HeadProperties(c), key)
      else if Get(CurrencyProperties(c), key).Some? then Get(CurrencyProperties(c), key)
      else if Get(DigitProperties(c), key).Some? then Get(DigitProperties(c), key)
      else if Get(SignificantProperties(c), key).Some? then Get(SignificantProperties(c), key)
      else Get([Property("useGrouping", BooleanValue(c.useGrouping))], key)
  {
    var a := HeadProperties(c) + CurrencyProperties(c);
    var b := a + DigitProperties(c);
    var d := b + SignificantProperties(c);
    assert ResolvedOptionsOf(c) == d + [Property("useGrouping", BooleanValue(c.useGrouping))];
    GetAppend(HeadProperties(c), CurrencyProperties(c), key);
    GetAppend(a, DigitProperties(c), key);
    GetAppend(b, SignificantProperties(c), key);
    GetAppend(d, [Property("useGrouping", BooleanValue(c.useGrouping))], key);
  }

  /** Lookups in a three-property group. */
  lemma GetThree(props: seq<Property>, key: string)
    requires |props| == 3
    ensures Get(props, key) ==
      if props[0].key == key then Some(props[0].value)
      else if props[1].key == key then Some(props[1].value)
      else if props[2].key == key then Some(props[2].value)
      else None
  {
    var rest := props[1..];
    var last := rest[1..];
    assert last[0] == props[2] && rest[0] == props[1];
    assert Get(last[1..], key) == None;
    assert Get(last, key) == if last[0].key == key then Some(last[0].value) else None;
    assert Get(rest, key) == if rest[0].key == key then Some(rest[0].value) else Get(last, key);
  }

  /** locale, numberingSystem and style always hold their slots. */
  lemma HeadValues(c: ResolvedConfig)
    ensures var props := ResolvedOptionsOf(c);
      && Get(props, "locale") == Some(StringValue(c.locale))
      && Get(props, "numberingSystem") == Some(StringValue(c.numberingSystem))
      && Get(props, "style") == Some(StringValue(StyleString(c.style)))
  {
    GetThree(HeadProperties(c), "locale");
    GetThree(HeadProperties(c), "numberingSystem");
    GetThree(HeadProperties(c), "style");
    GetResolved(c, "locale");
    GetResolved(c, "numberingSystem");
    GetResolved(c, "style");
  }

  /** currency and currencyDisplay are present exactly for currency style. */
  lemma CurrencyValues(c: ResolvedConfig)
    ensures var props := ResolvedOptionsOf(c);
      && (Get(props, "currency").Some? <==> c.currency.Some?)
      && (Get(props, "currencyDisplay").Some? <==> c.currency.Some?)
      && (c.currency.Some? ==>
            && Get(props, "currency") == Some(StringValue(c.currency.value.code))
            && Get(props, "currencyDisplay") == Some(StringValue(CurrencyDisplayString(c.currency.value.display))))
  {
    GetThree(HeadProperties(c), "currency");
    GetThree(HeadProperties(c), "currencyDisplay");
    GetThree(DigitProperties(c), "currency");
    GetThree(DigitProperties(c), "currencyDisplay");
    GetResolved(c, "currency");
    GetResolved(c, "currencyDisplay");
  }

  /** A digit-count key is found in the digit group. */
  lemma DigitLookup(c: ResolvedConfig, key: string)
    requires key == "minimumIntegerDigits" || key == "minimumFractionDigits" || key == "maximumFractionDigits"
    ensures Get(ResolvedOptionsOf(c), key) == Get(DigitProperties(c), key)
  {
    GetThree(HeadProperties(c), key);
    GetResolved(c, key);
  }

  /** The three digit counts are always present. */
  lemma DigitValues(c: ResolvedConfig)
    ensures var props := ResolvedOptionsOf(c);
      && Get(props, "minimumIntegerDigits") == Some(NumberValue(c.minimumIntegerDigits))
      && Get(props, "minimumFractionDigits") == Some(NumberValue(c.minimumFractionDigits))
      && Get(props, "maximumFractionDigits") == Some(NumberValue(c.maximumFractionDigits))
  {
    DigitLookup(c, "minimumIntegerDigits");
    DigitLookup(c, "minimumFractionDigits");
    DigitLookup(c, "maximumFractionDigits");
    GetThree(DigitProperties(c), "minimumIntegerDigits");
    GetThree(DigitProperties(c), "minimumFractionDigits");
    GetThree(DigitProperties(c), "maximumFractionDigits");
  }

  /** A significant-digit key is found in the significant-digit group, if anywhere. */
  lemma SignificantLookup(c: ResolvedConfig, key: string)
    requires key == "minimumSignificantDigits" || key == "maximumSignificantDigits"
    ensures Get(ResolvedOptionsOf(c), key) ==
      if Get(SignificantProperties(c), key).Some? then Get(SignificantProperties(c), key) else None
  {
    GetThree(HeadProperties(c), key);
    GetThree(DigitProperties(c), key);
    GetResolved(c, key);
  }

  /** useGrouping is found in the last property. */
  lemma GroupingLookup(c: ResolvedConfig)
    ensures Get(ResolvedOptionsOf(c), "useGrouping") == Some(BooleanValue(c.useGrouping))
  {
    GetThree(HeadProperties(c), "useGrouping");
    GetThree(DigitProperties(c), "useGrouping");
    GetResolved(c, "useGrouping");
  }

  /** The significant-digit pair is present exactly when its slots are; useGrouping always is. */
  lemma SignificantAndGroupingValues(c: ResolvedConfig)
    ensures var props := ResolvedOptionsOf(c);
      && (Get(props, "minimumSignificantDigits").Some? <==> c.significantDigits.Some?)
      && (Get(props, "maximumSignificantDigits").Some? <==> c.significantDigits.Some?)
      && (c.significantDigits.Some? ==>
            && Get(props, "minimumSignificantDigits") == Some(NumberValue(c.significantDigits.value.minimum))
            && Get(props, "maximumSignificantDigits") == Some(NumberValue(c.significantDigits.value.maximum)))
      && Get(props, "useGrouping") == Some(BooleanValue(c.useGrouping))
  {
    SignificantLookup(c, "minimumSignificantDigits");
    SignificantLookup(c, "maximumSignificantDigits");
    GroupingLookup(c);
  }

  function StringProperty(props: seq<Property>, key: string): Option<string> {
    match Get(props, key)
    case Some(StringValue(s)) => Some(s)
    case _ => None
  }

  function NumberProperty(props: seq<Property>, key: string): Option<int> {
    match Get(props, key)
    case Some(NumberValue(n)) => Some(n)
    case _ => None
  }

  function BooleanProperty(props: seq<Property>, key: string): Option<bool> {
    match Get(props, key)
    case Some(BooleanValue(b)) => Some(b)
    case _ => None
  }

  /** The options a caller gets by passing a resolvedOptions result back to the constructor,
      when locale negotiation returns the reported locale and numbering system. */
  function OptionsFromProperties(props: seq<Property>): RawOptions {
    RawOptions(
      None,
      StringProperty(props, "locale").GetOr(""),
      StringProperty(props, "numberingSystem").GetOr(""),
      StringProperty(props, "style"),
      StringProperty(props, "currency"),
      StringProperty(props, "currencyDisplay"),
      NumberProperty(props, "minimumIntegerDigits"),
      NumberProperty(props, "minimumFractionDigits"),
      NumberProperty(props, "maximumFractionDigits"),
      NumberProperty(props, "minimumSignificantDigits"),
      NumberProperty(props, "maximumSignificantDigits"),
      BooleanProperty(props, "useGrouping"))
  }

  /** Options that spell out every slot of a configuration. */
  function ExplicitOptions(c: ResolvedConfig): RawOptions {
    RawOptions(
      None, c.locale, c.numberingSystem,
      Some(StyleString(c.style)),
      if c.currency.Some? then Some(c.currency.value.code) else None,
      if c.currency.Some? then Some(CurrencyDisplayString(c.currency.value.display)) else None,
      Some(c.minimumIntegerDigits), Some(c.minimumFractionDigits), Some(c.maximumFractionDigits),
      if c.significantDigits.Some? then Some(c.significantDigits.value.minimum) else None,
      if c.significantDigits.Some? then Some(c.significantDigits.value.maximum) else None,
      Some(c.useGrouping))
  }

  /** Spelling out a well-formed configuration resolves to that configuration. */
  lemma ExplicitOptionsResolve(c: ResolvedConfig)
    requires WellFormed(c)
    ensures Resolve(ExplicitOptions(c)) == Success(c)
  {
    if c.currency.Some? {
      var code := c.currency.value.code;
      assert IsWellFormedCurrencyCode(code);
      UpperCaseNormalisation(code);
    }
  }

  /** The reported options resolve back to the very same slots. */
  lemma ResolvedOptionsReapply(c: ResolvedConfig)
    requires WellFormed(c)
    ensures Resolve(OptionsFromProperties(ResolvedOptionsOf(c))) == Success(c)
  {
    HeadValues(c);
    CurrencyValues(c);
    DigitValues(c);
    SignificantAndGroupingValues(c);
    assert OptionsFromProperties(ResolvedOptionsOf(c)) == ExplicitOptions(c);
    ExplicitOptionsResolve(c);
  }
}
