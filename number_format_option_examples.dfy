/** Worked examples of option resolution: concrete option bags and what they resolve to. */
module NumberFormatOptionExamples {
  import opened Wrappers
  import opened CurrencyDigitsTable
  import opened NumberFormatOptions

  function CurrencyOptions(locale: string, code: string): RawOptions {
    DefaultOptions(locale, "latn").(style := Some("currency"), currency := Some(code))
  }

  /** Currency style without fraction-digit options: both bounds are the currency's
      minor unit. */
  lemma CurrencyFractionDefaults(raw: RawOptions)
    requires Resolve(raw).Success? && raw.style == Some("currency")
    requires raw.minimumFractionDigits.None? && raw.maximumFractionDigits.None?
    ensures raw.currency.Some?
    ensures Resolve(raw).value.minimumFractionDigits == CurrencyDigits(ToAsciiUpper(raw.currency.value))
    ensures Resolve(raw).value.maximumFractionDigits == CurrencyDigits(ToAsciiUpper(raw.currency.value))
  {
  }

  /** Every default-only currency bag resolves, whatever the code, when the code is well formed. */
  lemma CurrencyOptionsResolve(locale: string, code: string)
    requires locale != "" && IsWellFormedCurrencyCode(code)
    ensures Resolve(CurrencyOptions(locale, code)).Success?
  {
    ResolveErrorOrder(CurrencyOptions(locale, code));
  }

  /** Currency style with any listed code (JPY, KWD, CLF, ...) and no fraction-digit
      options: both bounds are that code's table value. */
  lemma ListedCurrencyFractionDefaults(locale: string, i: nat)
    requires locale != "" && i < |MinorUnits|
    ensures Resolve(CurrencyOptions(locale, MinorUnits[i].0)).Success?
    ensures Resolve(CurrencyOptions(locale, MinorUnits[i].0)).value.minimumFractionDigits == MinorUnits[i].1
    ensures Resolve(CurrencyOptions(locale, MinorUnits[i].0)).value.maximumFractionDigits == MinorUnits[i].1
  {
    var code := MinorUnits[i].0;
    MinorUnitsSorted();
    UpperCaseNormalisation(code);
    CurrencyOptionsResolve(locale, code);
    CurrencyFractionDefaults(CurrencyOptions(locale, code));
    CurrencyDigitsCases(code);
  }

  /** Currency style with "usd": stored as USD, which the table does not list,
      so two fraction digits by default. */
  lemma DollarFractionDefaults(locale: string)
    requires locale != ""
    ensures Resolve(CurrencyOptions(locale, "usd")).Success?
    ensures Resolve(CurrencyOptions(locale, "usd")).value.currency == Some(CurrencySlots("USD", Symbol))
    ensures Resolve(CurrencyOptions(locale, "usd")).value.minimumFractionDigits == 2
    ensures Resolve(CurrencyOptions(locale, "usd")).value.maximumFractionDigits == 2
  {
    var raw := CurrencyOptions(locale, "usd");
    assert ToAsciiUpper("usd") == "USD";
    CurrencyOptionsResolve(locale, raw.currency.value);
    CurrencyFractionDefaults(raw);
    assert CurrencyDigits("USD") == 2 by {
      UsDollarDigits();
    }
  }

  /** A two-letter currency is rejected as malformed. */
  lemma ShortCurrencyRejected(locale: string)
    requires locale != ""
    ensures Resolve(DefaultOptions(locale, "latn").(currency := Some("us"))) == Failure(MalformedCurrency)
  {
  }

  /** Only maximumSignificantDigits = 4 supplied: the pair resolves to (1, 4). */
  lemma OnlyMaximumSignificantDigits(locale: string)
    requires locale != ""
    ensures Resolve(DefaultOptions(locale, "latn").(maximumSignificantDigits := Some(4))).Success?
    ensures Resolve(DefaultOptions(locale, "latn").(maximumSignificantDigits := Some(4))).value.significantDigits
      == Some(SignificantDigits(1, 4))
  {
  }

  /** Decimal style with minimumFractionDigits = 5 gets maximumFractionDigits = max(5, 3). */
  lemma DecimalMaximumFollowsMinimum(locale: string)
    requires locale != ""
    ensures Resolve(DefaultOptions(locale, "latn").(minimumFractionDigits := Some(5))).Success?
    ensures Resolve(DefaultOptions(locale, "latn").(minimumFractionDigits := Some(5))).value.maximumFractionDigits == 5
  {
  }
}
