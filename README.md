# Intl.NumberFormat, block formatting geometry and the HTML parser's yield counter

This project models three pieces of WebKit and proves properties of the models.

- **Intl.NumberFormat** (JavaScriptCore), after ECMA-402, 2nd edition:
  - the ISO 4217 minor-unit lookup (CurrencyDigits, section 11.1.1);
  - option resolution (InitializeNumberFormat, section 11.1.2), as a pure function `Resolve`
    and as the in-place initialization of the object's slots (`NumberFormat.Initialize`);
  - the engine configuration derived from the slots (createNumberFormat);
  - formatting with the negative-zero mapping and the single buffer retry (FormatNumber,
    section 11.3.4);
  - resolvedOptions (section 11.3.5);
  - formatToParts: the field collection loop and the partition sweep that cuts the
    formatted text into typed parts.
- **Block formatting context geometry** (WebCore layout), after CSS 2.2:
  - the used width and horizontal margins of in-flow non-replaced block boxes
    (section 10.3.3);
  - their auto height (section 10.6.3);
  - the quirks-mode stretch of the document and body boxes to the viewport;
  - the initial containing block;
  - the static position;
  - relative positioning offsets (section 9.4.3).
- **HTMLParserScheduler**: the per-pump-session token counter and clock check that decide
  when the parser yields, and whether it is scheduled for resumption.

Module layout:
- `wrappers.dfy`: Option and Result.
- `currency_digits.dfy` (`CurrencyDigitsTable`): the minor-unit table, its sort key, a
  reference lookup and the binary search.
- `number_format_options.dfy` (`NumberFormatOptions`): the option bag, the slots, their
  invariant `WellFormed`, and `Resolve` with its stages.
- `number_format_engine.dfy` (`NumberFormatEngine`): double classes, the engine
  configuration, the one-retry discipline.
- `number_format_parts.dfy` and `number_format_parts_properties.dfy`: the part type
  names, the sweep and what it guarantees.
- `number_format_resolved_options.dfy`: the ordered property list and the round trip
  back through `Resolve`.
- `number_format.dfy` (`NumberFormatObject`): the `NumberFormat` class whose methods
  update the slots and the lazily created engine in place.
- `number_format_option_examples.dfy` and `number_format_parts_examples.dfy`: worked
  examples ("usd", JPY, a nested grouping separator in "$1,234.50").
- `block_formatting_geometry.dfy` (`BlockFormattingGeometry`).
- `html_parser_scheduler.dfy` (`HTMLParserScheduling`): `PumpSession` and
  `HTMLParserScheduler` classes over the pure step functions.

The engine (ICU), locale negotiation and the option readers are parameters:
- Every engine call is a function value the caller supplies, or a success flag.
- What locale negotiation returned (the locale, "" when none, and the numbering system)
  is part of the option bag.
- Each option arrives already read: `None` for undefined, otherwise the string, the
  integer or the boolean.
- The default locale used by lazy initialization is a parameter.
- Layout lengths are integers in layout units, and `auto` is `None`. What the
  margin-collapsing code, `valueForLength` and the display boxes compute is an input.
- The clock of the parser scheduler is an integer argument `now`.

Where the code and the ECMA-402 text differ, the model follows the code:
- A second initialization of an already initialized object is not rejected. It rewrites
  the slots. When it supplies no significant digits it keeps the earlier pair
  (`KeepEarlierPair`), because only a supplied pair is written.
- createNumberFormat opens the engine even when the lazy initialization failed for want
  of a default locale. formatToParts then throws its "not initialized" TypeError.
- formatToParts formats negative zero as it is. Only format maps it to positive zero.
- An invalid currencyDisplay is rejected in every style, not only in currency style.

## Model

| member | source | states |
|---|---|---|
| CurrencyDigitsTable.SortKeyInjective | Source/JavaScriptCore/runtime/IntlNumberFormat.cpp:104-116 | two upper-case three-letter codes with the same packed key (c0<<16)+(c1<<8)+c2 are the same code |
| CurrencyDigitsTable.MinorUnitsSorted | Source/JavaScriptCore/runtime/IntlNumberFormat.cpp:128-156 | the 26-entry table holds upper-case codes in strictly ascending key order, which the binary search relies on |
| CurrencyDigitsTable.CurrencyDigitsCases | Source/JavaScriptCore/runtime/IntlNumberFormat.cpp:123-160 | a listed code gets its table value, any other code gets 2, and no code gets more than 4 |
| CurrencyDigitsTable.ListedCurrencyDigits | Source/JavaScriptCore/runtime/IntlNumberFormat.cpp:123-160 | a code listed at a table index gets that entry's minor units, since the sorted table lists each code once |
| CurrencyDigitsTable.JapaneseYenDigits | Source/JavaScriptCore/runtime/IntlNumberFormat.cpp:139 | JPY has 0 minor units |
| CurrencyDigitsTable.KuwaitiDinarDigits | Source/JavaScriptCore/runtime/IntlNumberFormat.cpp:142 | KWD has 3 minor units |
| CurrencyDigitsTable.ChileanUnitDigits | Source/JavaScriptCore/runtime/IntlNumberFormat.cpp:132 | CLF has 4 minor units |
| CurrencyDigitsTable.UsDollarDigits | Source/JavaScriptCore/runtime/IntlNumberFormat.cpp:156-159 | USD is not listed and gets the default 2 |
| CurrencyDigitsTable.ComputeCurrencyDigits | Source/JavaScriptCore/runtime/IntlNumberFormat.cpp:123-160 | the binary search over the sorted table returns what the linear reference lookup returns (table value, else 2) |
| NumberFormatOptions.ErrorTypeOf | Source/JavaScriptCore/runtime/IntlNumberFormat.cpp:183-230 | an unresolvable locale and a missing currency are TypeErrors; every other rejected option is a RangeError |
| NumberFormatOptions.StyleString | Source/JavaScriptCore/runtime/IntlNumberFormat.cpp:383-395 | the reported style name parses back to the same style |
| NumberFormatOptions.CurrencyDisplayString | Source/JavaScriptCore/runtime/IntlNumberFormat.cpp:397-409 | the reported display name parses back to the same display |
| NumberFormatOptions.NamesRoundTrip | Source/JavaScriptCore/runtime/IntlNumberFormat.cpp:198-241 | every accepted style or currencyDisplay name is the reported name of what it parses to |
| NumberFormatOptions.GetEnumOption | Source/JavaScriptCore/runtime/IntlNumberFormat.cpp:198-207 | undefined gives the fallback; a supplied name is accepted exactly when it is one of the allowed names, and otherwise fails with the option's error |
| NumberFormatOptions.GetNumberOption | Source/JavaScriptCore/runtime/IntlNumberFormat.cpp:243-263 | undefined gives the fallback; a supplied value fails exactly when it lies outside [minimum, maximum], and otherwise is returned |
| NumberFormatOptions.ToAsciiUpper | Source/JavaScriptCore/runtime/IntlNumberFormat.cpp:225 | same length; each lower-case ASCII letter is upper-cased and every other character is kept |
| NumberFormatOptions.UpperCaseNormalisation | Source/JavaScriptCore/runtime/IntlNumberFormat.cpp:211-227 | a well-formed three-letter code normalises to an upper-case code; normalising is idempotent and keeps upper-case codes |
| NumberFormatOptions.ResolveSignificantDigits | Source/JavaScriptCore/runtime/IntlNumberFormat.cpp:265-278 | the pair exists exactly when either value is supplied, with defaults 1 and 21 and 1 <= min <= max <= 21; it fails exactly when min is outside [1,21] or max is outside [min,21] |
| NumberFormatOptions.Resolve | Source/JavaScriptCore/runtime/IntlNumberFormat.cpp:162-288 | an accepted bag yields well-formed slots: locale and numbering system as negotiated, the style (decimal by default), an upper-cased currency with its display (symbol by default), the fraction-digit defaults (currency digits, or 0; then max(min, currency digits), min, or max(min, 3)), the significant pair, and useGrouping defaulting to true |
| NumberFormatOptions.ResolveCurrency | Source/JavaScriptCore/runtime/IntlNumberFormat.cpp:209-241 | after the malformed-currency, missing-currency and currencyDisplay checks, the slots follow from the bag with the currency's minor units seeding the fraction defaults |
| NumberFormatOptions.ResolveDigits | Source/JavaScriptCore/runtime/IntlNumberFormat.cpp:243-285 | on success, the digit options and the rest resolve to well-formed slots that follow from the bag (when it fails is DigitCheckOrder) |
| NumberFormatOptions.ResolveTail | Source/JavaScriptCore/runtime/IntlNumberFormat.cpp:265-285 | the significant pair is present exactly when supplied, with its defaults and range |
| NumberFormatOptions.ResolveErrorOrder | Source/JavaScriptCore/runtime/IntlNumberFormat.cpp:183-278 | the eleven checks run in order: each error (matcher, locale, style, malformed currency, missing currency, display, and each digit option via FirstFailingDigitCheck) is reported exactly when every earlier check passed and its own failed, and the options resolve exactly when all pass |
| NumberFormatOptions.CurrencyErrorOrder | Source/JavaScriptCore/runtime/IntlNumberFormat.cpp:209-278 | once the style is accepted: a malformed code, then a missing code in currency style, then a bad currencyDisplay, each exactly when the earlier ones passed; after them the first failing digit check is the error, and with none the options resolve |
| NumberFormatOptions.DigitCheckOrder | Source/JavaScriptCore/runtime/IntlNumberFormat.cpp:243-278 | the digit stage fails with the range error of the first out-of-range option in reading order (the fraction maximum checked against the resolved minimum, the significant maximum against the resolved significant minimum), and succeeds when none is out of range |
| NumberFormatOptions.FirstFailingDigitCheckIsFirst | Source/JavaScriptCore/runtime/IntlNumberFormat.cpp:243-278 | the reported digit option is the one whose value is out of range while every earlier digit option is in range; none is reported exactly when all five are in range |
| NumberFormatOptions.SignificantCheckOrder | Source/JavaScriptCore/runtime/IntlNumberFormat.cpp:270-278 | the significant minimum is range-checked first, then the maximum against the resolved minimum; both in range resolves |
| NumberFormatOptions.DigitErrorOrder | Source/JavaScriptCore/runtime/IntlNumberFormat.cpp:243-278 | once the style and currency checks pass, a digit error is reported exactly when that value is out of range and the earlier ones are in range, and the options resolve exactly when all five are in range |
| NumberFormatOptions.FailingDigitCheckWasSupplied | Source/JavaScriptCore/runtime/IntlNumberFormat.cpp:243-278 | a failing digit check names an option that was given a value, since the defaults are in range |
| NumberFormatOptions.DigitErrorNamesSuppliedOption | Source/JavaScriptCore/runtime/IntlNumberFormat.cpp:243-278 | a digit error from initialization names an option that was given a value |
| NumberFormatOptions.DefaultResolution | Source/JavaScriptCore/runtime/IntlNumberFormat.cpp:297-300 | with no options: decimal, 1 integer digit, 0 to 3 fraction digits, no significant pair, grouping on |
| NumberFormatOptionExamples.CurrencyFractionDefaults | Source/JavaScriptCore/runtime/IntlNumberFormat.cpp:247-255 | currency style without fraction options has both fraction bounds equal to the currency's minor units |
| NumberFormatOptionExamples.CurrencyOptionsResolve | Source/JavaScriptCore/runtime/IntlNumberFormat.cpp:209-241 | a currency-style bag with a well-formed code and nothing else resolves |
| NumberFormatOptionExamples.ListedCurrencyFractionDefaults | Source/JavaScriptCore/runtime/IntlNumberFormat.cpp:128-160 | for each listed code, both fraction defaults are its table value |
| NumberFormatOptionExamples.DollarFractionDefaults | Source/JavaScriptCore/runtime/IntlNumberFormat.cpp:225-255 | "usd" is stored as USD with symbol display and two fraction digits |
| NumberFormatOptionExamples.ShortCurrencyRejected | Source/JavaScriptCore/runtime/IntlNumberFormat.cpp:212-215 | a two-letter currency is rejected as malformed |
| NumberFormatOptionExamples.OnlyMaximumSignificantDigits | Source/JavaScriptCore/runtime/IntlNumberFormat.cpp:271-277 | supplying only maximumSignificantDigits = 4 gives the pair (1, 4) |
| NumberFormatOptionExamples.DecimalMaximumFollowsMinimum | Source/JavaScriptCore/runtime/IntlNumberFormat.cpp:253-259 | decimal style with minimumFractionDigits 5 gets maximumFractionDigits 5 |
| NumberFormatEngine.NormalizeZero | Source/JavaScriptCore/runtime/IntlNumberFormat.cpp:365-367 | both zeros become positive zero, every other value is unchanged, and no negative value is introduced |
| NumberFormatEngine.EngineConfigOf | Source/JavaScriptCore/runtime/IntlNumberFormat.cpp:302-346 | the engine style encodes the style and display so both can be read back; the currency code only in currency style; significant-digit attributes exactly when the pair exists, else the integer/fraction bounds; grouping; round half up |
| NumberFormatEngine.EngineConfigDeterminesSlots | Source/JavaScriptCore/runtime/IntlNumberFormat.cpp:302-346 | two well-formed slot sets that open the same engine agree on locale, style, currency, grouping and the authoritative digits |
| NumberFormatEngine.WithOneRetry | Source/JavaScriptCore/runtime/IntlNumberFormat.cpp:369-378 | a first call with 32 units; on overflow exactly one more call with the reported size; any other failure is final |
| NumberFormatEngine.FormatNumberWith | Source/JavaScriptCore/runtime/IntlNumberFormat.cpp:365-378 | a zero of either sign is formatted as positive zero, any other value as given, with one retry |
| NumberFormatParts.FieldKindOf | Source/JavaScriptCore/runtime/IntlNumberFormat.cpp:531-539 | codes 0 to 10 are the engine's known field kinds; every other code is kept as an unknown kind |
| NumberFormatParts.PartTypeString | Source/JavaScriptCore/runtime/IntlNumberFormat.cpp:462-496 | each name is produced exactly for its field: nan/infinity/integer by value class, minusSign iff the value is below 0, the fixed names, and literal for permill, exponent and unknown kinds |
| NumberFormatParts.FieldsOf | Source/JavaScriptCore/runtime/IntlNumberFormat.cpp:528-539 | the fields are the iterator's triples up to the first negative code |
| NumberFormatParts.CollectFields | Source/JavaScriptCore/runtime/IntlNumberFormat.cpp:528-539 | the collection loop yields exactly those fields |
| NumberFormatParts.Narrowest | Source/JavaScriptCore/runtime/IntlNumberFormat.cpp:554-558 | the chosen field is one of the fields and covers the position |
| NumberFormatParts.NextStart | Source/JavaScriptCore/runtime/IntlNumberFormat.cpp:555-560 | the next start never passes the text's end and lies strictly after the cursor |
| NumberFormatParts.SweepEnd | Source/JavaScriptCore/runtime/IntlNumberFormat.cpp:562 | each part ends strictly after the cursor and within the text, so the sweep terminates |
| NumberFormatParts.SegmentsFrom | Source/JavaScriptCore/runtime/IntlNumberFormat.cpp:552-571 | the segments tile the rest of the text in order without gaps or overlaps, and each is one sweep step |
| NumberFormatParts.PartsOf | Source/JavaScriptCore/runtime/IntlNumberFormat.cpp:563-568 | one part per segment, typed by its field (literal when none) and holding its piece of the text |
| NumberFormatParts.PartitionNumberPattern | Source/JavaScriptCore/runtime/IntlNumberFormat.cpp:551-571 | the nested cursor loop produces exactly the partition the sweep defines |
| NumberFormatParts.ScanFields | Source/JavaScriptCore/runtime/IntlNumberFormat.cpp:554-561 | one pass over the fields yields the first narrowest field covering the position and the nearest later field start |
| NumberFormatPartsProperties.TextOfParts | Source/JavaScriptCore/runtime/IntlNumberFormat.cpp:552-571 | the parts of any tiling concatenate to the tiled piece of text |
| NumberFormatPartsProperties.PartitionSpellsText | Source/JavaScriptCore/runtime/IntlNumberFormat.cpp:551-571 | the parts of formatToParts concatenate to the formatted text |
| NumberFormatPartsProperties.NextStartIsNearest | Source/JavaScriptCore/runtime/IntlNumberFormat.cpp:559-560 | the next start is the nearest field start after the cursor, or the end of the text |
| NumberFormatPartsProperties.FirstNarrowestUnique | Source/JavaScriptCore/runtime/IntlNumberFormat.cpp:557 | the first smallest covering field is unique |
| NumberFormatPartsProperties.NarrowestIsFirstNarrowest | Source/JavaScriptCore/runtime/IntlNumberFormat.cpp:556-558 | no choice exactly when no field covers the position; otherwise the smallest covering field, the earliest on a tie |
| NumberFormatPartsProperties.NoFieldStartsInside | Source/JavaScriptCore/runtime/IntlNumberFormat.cpp:559-562 | no field starts strictly inside a part |
| NumberFormatPartsProperties.SegmentLabelsEveryPosition | Source/JavaScriptCore/runtime/IntlNumberFormat.cpp:553-570 | every position of a part has the part's field as its narrowest covering field |
| NumberFormatPartsProperties.PartLabelledAtEveryPosition | Source/JavaScriptCore/runtime/IntlNumberFormat.cpp:563 | a part's type is the type of the narrowest field at every one of its positions |
| NumberFormatPartsProperties.NoAdjacentLiterals | Source/JavaScriptCore/runtime/IntlNumberFormat.cpp:559-562 | with nonempty fields, two literal parts never follow each other |
| NumberFormatPartsProperties.ZeroHasNoMinusSign | Source/JavaScriptCore/runtime/IntlNumberFormat.cpp:482 | formatting either zero never yields a minusSign part |
| NumberFormatPartsProperties.PartTypesAreNames | Source/JavaScriptCore/runtime/IntlNumberFormat.cpp:462-496 | every part type is one of the ECMA-402 part type names |
| NumberFormatPartsExamples.StepAt | Source/JavaScriptCore/runtime/IntlNumberFormat.cpp:553-570 | one sweep step over "$1,234.50" from a given cut |
| NumberFormatPartsExamples.DollarSegments | Source/JavaScriptCore/runtime/IntlNumberFormat.cpp:552-571 | the six segments of "$1,234.50" |
| NumberFormatPartsExamples.DollarAmountParts | Source/JavaScriptCore/runtime/IntlNumberFormat.cpp:551-571 | the integer field is split around the nested grouping separator: currency, integer, group, integer, decimal, fraction |
| NumberFormatResolvedOptions.Get | Source/JavaScriptCore/runtime/IntlNumberFormat.cpp:430-447 | a property lookup finds a value exactly when some property has the key |
| NumberFormatResolvedOptions.ResolvedOptionsOf | Source/JavaScriptCore/runtime/IntlNumberFormat.cpp:430-447 | the keys in order: locale, numberingSystem, style, then currency and currencyDisplay only in currency style, the three digit counts, the significant pair only when present, and useGrouping |
| NumberFormatResolvedOptions.HeadValues | Source/JavaScriptCore/runtime/IntlNumberFormat.cpp:431-433 | locale, numberingSystem and style hold their slots |
| NumberFormatResolvedOptions.CurrencyValues | Source/JavaScriptCore/runtime/IntlNumberFormat.cpp:434-437 | currency and currencyDisplay are present exactly in currency style, with their slots |
| NumberFormatResolvedOptions.DigitValues | Source/JavaScriptCore/runtime/IntlNumberFormat.cpp:438-440 | the three digit counts are always present with their slots |
| NumberFormatResolvedOptions.SignificantAndGroupingValues | Source/JavaScriptCore/runtime/IntlNumberFormat.cpp:441-446 | the significant pair is present exactly when resolved; useGrouping is always present |
| NumberFormatResolvedOptions.ExplicitOptionsResolve | Source/JavaScriptCore/runtime/IntlNumberFormat.cpp:162-288 | spelling out every slot of well-formed slots resolves to those slots |
| NumberFormatResolvedOptions.ResolvedOptionsReapply | Source/JavaScriptCore/runtime/IntlNumberFormat.cpp:411-447 | passing the reported options back to initialization resolves to the very same slots |
| NumberFormatObject.KeptPairWellFormed | Source/JavaScriptCore/runtime/IntlNumberFormat.cpp:271-278 | keeping an earlier in-range pair keeps the slots well formed, and without an earlier pair nothing changes |
| NumberFormatObject.ThrownAs | Source/JavaScriptCore/runtime/IntlNumberFormat.cpp:362-544 | format failures throw a plain Error, an unallocatable result array an out-of-memory error, everything else in formatToParts a TypeError |
| NumberFormatObject.FormatToPartsWith | Source/JavaScriptCore/runtime/IntlNumberFormat.cpp:512-571 | each failure happens exactly under its condition (iterator, formatting after the retry, allocation); on success the parts spell out the text the engine produced |
| NumberFormatObject.NumberFormat.constructor | Source/JavaScriptCore/runtime/IntlNumberFormat.cpp:69-72 | a new object is uninitialized, has no engine and holds the default slots |
| NumberFormatObject.NumberFormat.Initialize | Source/JavaScriptCore/runtime/IntlNumberFormat.cpp:162-288 | fails exactly when Resolve fails, with the same error; on success the slots are Resolve's (keeping an earlier pair when none is supplied); each slot is written exactly when its check was passed; the object becomes initialized only when every check passed |
| NumberFormatObject.NumberFormat.InitializeCurrency | Source/JavaScriptCore/runtime/IntlNumberFormat.cpp:209-241 | the currency part of initialization agrees with ResolveCurrency and writes currency and display only in currency style |
| NumberFormatObject.NumberFormat.InitializeDigits | Source/JavaScriptCore/runtime/IntlNumberFormat.cpp:243-263 | the digit part agrees with ResolveDigits and writes each count after its own check |
| NumberFormatObject.NumberFormat.InitializeSignificantDigits | Source/JavaScriptCore/runtime/IntlNumberFormat.cpp:265-287 | both significant options are checked before either slot is written; the flag is set last |
| NumberFormatObject.NumberFormat.EnsureInitialized | Source/JavaScriptCore/runtime/IntlNumberFormat.cpp:297-300 | an uninitialized object is initialized with no locales and no options; an initialized one is unchanged |
| NumberFormatObject.NumberFormat.CreateNumberFormat | Source/JavaScriptCore/runtime/IntlNumberFormat.cpp:290-351 | after the lazy initialization, the engine is kept exactly when opening succeeded and, in currency style, the currency code was accepted; it is the one the slots determine |
| NumberFormatObject.NumberFormat.FormatNumber | Source/JavaScriptCore/runtime/IntlNumberFormat.cpp:353-381 | an engine is created on first use (a plain Error when that fails); the result is the engine's text for the value with zero normalised, after at most one retry |
| NumberFormatObject.NumberFormat.ResolvedOptions | Source/JavaScriptCore/runtime/IntlNumberFormat.cpp:411-448 | after the lazy initialization the result is the ordered property list of the slots |
| NumberFormatObject.NumberFormat.FormatToParts | Source/JavaScriptCore/runtime/IntlNumberFormat.cpp:498-575 | a TypeError unless initialized with an engine; otherwise the outcome is that of FormatToPartsWith, whose parts spell out the formatted text |
| BlockFormattingGeometry.Stretched | Source/WebCore/layout/blockformatting/BlockFormattingContextGeometry.cpp:115-121 | a stretched size never shrinks, reaches the initial containing block with the margins, and is either unchanged or exactly fills it |
| BlockFormattingGeometry.RootOf | Source/WebCore/layout/blockformatting/BlockFormattingContextGeometry.cpp:49-55 | the top of a containing-block chain has no containing block and comes no later in tree order |
| BlockFormattingGeometry.InitialContainingBlock | Source/WebCore/layout/blockformatting/BlockFormattingContextGeometry.cpp:49-55 | the walk ends at a block without a containing block, the top of the chain from the box's containing block |
| BlockFormattingGeometry.InitialContainingBlockShared | Source/WebCore/layout/blockformatting/BlockFormattingContextGeometry.cpp:49-55 | a box and its containing block have the same initial containing block |
| BlockFormattingGeometry.UsedWidthAndMargin | Source/WebCore/layout/blockformatting/BlockFormattingContextGeometry.cpp:131-223 | a fixed width is kept; an auto width takes the rest with auto margins as 0; over-constrained boxes balance by margin-right (ltr) or margin-left (rtl); one auto margin follows from the equality; two auto margins are equal and share the free space; with overflow, auto margins are 0 |
| BlockFormattingGeometry.ComputeWidthAndMarginAsWritten | Source/WebCore/layout/blockformatting/BlockFormattingContextGeometry.cpp:173-220 | steps #1 to #5 as written agree with UsedWidthAndMargin except that, with an auto width and exactly one auto margin, that margin is left unset |
| BlockFormattingGeometry.ComputeWidthAndMargin | Source/WebCore/layout/blockformatting/BlockFormattingContextGeometry.cpp:173-221 | steps #1 to #5, with rule 4 setting the remaining auto margins to 0, compute exactly UsedWidthAndMargin |
| BlockFormattingGeometry.InFlowNonReplacedWidthAndMargin | Source/WebCore/layout/blockformatting/BlockFormattingContextGeometry.cpp:125-236 | the used margins, and the used width stretched to the initial containing block only when the box stretches to the viewport |
| BlockFormattingGeometry.LastUncollapsedTop | Source/WebCore/layout/blockformatting/BlockFormattingContextGeometry.cpp:97-100 | the last child whose top margin does not collapse with the parent's bottom margin, or none when all of them collapse |
| BlockFormattingGeometry.LastUncollapsedTopUnique | Source/WebCore/layout/blockformatting/BlockFormattingContextGeometry.cpp:97-100 | a non-collapsing child followed only by collapsing ones is that last child |
| BlockFormattingGeometry.ContentHeightOf | Source/WebCore/layout/blockformatting/BlockFormattingContextGeometry.cpp:74-109 | a fixed height is kept; 0 without in-flow children or with an inline formatting context; else the last child's bottom margin edge when it does not collapse, else the bottom border edge of the last child whose top margin does not collapse, else 0 |
| BlockFormattingGeometry.ComputeHeight | Source/WebCore/layout/blockformatting/BlockFormattingContextGeometry.cpp:60-110 | the backward walk over the children computes exactly ContentHeightOf |
| BlockFormattingGeometry.InFlowNonReplacedHeightAndMargin | Source/WebCore/layout/blockformatting/BlockFormattingContextGeometry.cpp:57-124 | the content height, stretched only when the box stretches to the viewport, with the margins passed through |
| BlockFormattingGeometry.StaticTop | Source/WebCore/layout/blockformatting/BlockFormattingContextGeometry.cpp:262-269 | below the previous in-flow sibling's bottom margin, or at the content-box top when there is no sibling |
| BlockFormattingGeometry.StaticPositionAsWritten | Source/WebCore/layout/blockformatting/BlockFormattingContextGeometry.cpp:255-271 | the point is built as (top, left), and it equals the intended point only when the two coordinates happen to coincide |
| BlockFormattingGeometry.StaticPosition | Source/WebCore/layout/blockformatting/BlockFormattingContextGeometry.cpp:255-271 | x is the containing block's content-box left edge; y is StaticTop |
| BlockFormattingGeometry.LeftDelta | Source/WebCore/layout/blockformatting/BlockFormattingContextGeometry.cpp:313-330 | both auto gives 0, only left auto gives minus right, and a set left always wins |
| BlockFormattingGeometry.TopDeltaAsWritten | Source/WebCore/layout/blockformatting/BlockFormattingContextGeometry.cpp:287-300 | both auto gives 0, one auto gives minus the other or top, and both set leaves 0 |
| BlockFormattingGeometry.TopDelta | Source/WebCore/layout/blockformatting/BlockFormattingContextGeometry.cpp:287-300 | both auto gives 0, only top auto gives minus bottom, and a set top always wins (bottom is ignored) |
| BlockFormattingGeometry.TopDeltaAsWrittenDiffers | Source/WebCore/layout/blockformatting/BlockFormattingContextGeometry.cpp:287-300 | the two top deltas differ exactly when top and bottom are both set and top is not 0 |
| BlockFormattingGeometry.InFlowPositionedPosition | Source/WebCore/layout/blockformatting/BlockFormattingContextGeometry.cpp:273-333 | x is the box left plus `left`, or minus `right` when `left` is auto, or unchanged when both are auto; y likewise with `top` winning over `bottom` |
| BlockFormattingGeometry.InFlowPositionedPositionAsWritten | Source/WebCore/layout/blockformatting/BlockFormattingContextGeometry.cpp:273-333 | the position as written moves by TopDeltaAsWritten, and misplaces the box whenever top and bottom are both set and top is not 0 |
| HTMLParserScheduling.CheckForYieldStep | Source/WebCore/html/parser/HTMLParserScheduler.h:91-105 | the count restarts at 1 and the script flag clears; the first look records the clock and does not yield; later looks yield exactly when now - start exceeds the limit |
| HTMLParserScheduling.ShouldYieldStep | Source/WebCore/html/parser/HTMLParserScheduler.h:66-77 | after more than 4096 tokens or a script the clock check runs; otherwise the count goes up by exactly 1, nothing else changes, and there is no yield; a count of at most 4097 stays at most 4097 |
| HTMLParserScheduling.CountsUpToCheck | Source/WebCore/html/parser/HTMLParserScheduler.h:72-87 | from a count p with no script, the next 4097 - p tokens neither yield nor read the clock, and the token after them looks at the clock |
| HTMLParserScheduling.CheckRestartsCount | Source/WebCore/html/parser/HTMLParserScheduler.h:91-94 | after a look at the clock the next look comes exactly 4096 tokens later unless a script intervenes |
| HTMLParserScheduling.FirstCheckStartsClock | Source/WebCore/html/parser/HTMLParserScheduler.h:98-101 | the first look at the clock never yields and records the start time |
| HTMLParserScheduling.PumpSession.constructor | Source/WebCore/html/parser/HTMLParserScheduler.h:50-58 | a new session has the given token count, no start time and no script seen |
| HTMLParserScheduling.FirstTokenStartsClock | Source/WebCore/html/parser/HTMLParserScheduler.h:66-77 | from a count above 4096 and no start time, the first token reads the clock, records it, does not yield and leaves the count at 1 |
| HTMLParserScheduling.HTMLParserScheduler.constructor | Source/WebCore/html/parser/HTMLParserScheduler.h:109-111 | a new scheduler holds the given time limit and is neither suspended nor timing |
| HTMLParserScheduling.HTMLParserScheduler.CheckForYield | Source/WebCore/html/parser/HTMLParserScheduler.h:91-105 | updates the session in place exactly as CheckForYieldStep says |
| HTMLParserScheduling.HTMLParserScheduler.ShouldYieldBeforeToken | Source/WebCore/html/parser/HTMLParserScheduler.h:66-77 | updates the session in place exactly as ShouldYieldStep says and keeps the count at most 4097 |

## Left out

- The ICU engine (unum_open, unum_setAttribute, unum_formatDouble, unum_formatDoubleForFields, ufieldpositer_*) is a foreign library. Engine calls are function parameters or success flags, and the engine is the configuration it was opened with.
- Locale negotiation (canonicalizeLocaleList, resolveLocale, the locale data) is not part of this model. Its results are inputs.
- The bodies of intlStringOption, intlNumberOption and intlBooleanOption are not part of this model. Their checks are modelled: the allowed names in GetEnumOption and the ranges in GetNumberOption. Reading the property, JavaScript ToNumber and flooring of numeric options are not modelled, and a non-boolean useGrouping (the fallback case) is given as undefined.
- Throw scopes, exceptions raised while reading options, and JSObject/JSArray construction are runtime glue. Errors are result values, and the result array is a sequence.
- setBoundFormat, create, destroy and visitChildren are garbage-collector and host glue.
- Floating-point values are a class: NaN, infinity with a sign, or a finite value with a sign bit and a real magnitude.
- IntlNumberFormat.h is not part of this model. The default slot values, the 0 meaning "no significant digits" and the field size end - begin (0 for an empty field) are taken from how the .cpp uses them.
- NumberFormatObject.NumberFormat.Initialize: the source does this in one function. The model splits it into four methods (InitializeCurrency, InitializeDigits, InitializeSignificantDigits) that run in the same order and write the same slots.
- NumberFormatObject.NumberFormat.Initialize: when an already initialized object is initialized again and fails, the contract does not promise the slots are still well formed. Slots written before the failing check may mix with earlier ones.
- LayoutUnit is a saturating fixed-point type. The model uses unbounded integers, so saturation at the type's limits is not modelled.
- HalfTowardZero: the halving at step #5 truncates towards zero like integer division of the raw value.
- valueForLength, the margin-collapsing code (MarginCollapse), the display-box lookup and inlineReplacedWidthAndMargin are not part of this model. Their outputs are integer inputs, and a precomputed width is a fixed width.
- BlockFormattingGeometry.ContentHeightOf: line boxes are not modelled. An inline formatting context gets height 0, as the code currently returns.
- The box tree is a sequence of containing-block links in tree order. The box kinds (container, document box, body box) and the quirks-mode flag are booleans.
- LayoutPoint.h is not part of this model. A point is (x, y) as its constructor takes it.
- The replaced-box width (inFlowReplacedWidthAndMargin) and the other geometry entry points outside in-flow non-replaced boxes are not part of the core modelled here.
- HTMLParserScheduler.cpp and MonotonicTime are not part of this model. Time is integer ticks, and a start time of 0 means "not yet read", as MonotonicTime's zero test does. The parser time limit is an integer.
- The iOS-only WebThreadShouldYield early return is platform code on a different clock.
- The Timer, scheduleForResume, suspend, resume, continueNextChunkTimerFired and shouldYieldBeforeExecutingScript are declared in the header without bodies. The timer's activity is a boolean field.
- PumpSession's nesting-level and active-session bases are RAII bookkeeping with no bearing on the yield decision.
- HTMLParserScheduling.PumpSession.constructor: its body is in HTMLParserScheduler.cpp, which is not part of this model. The initial token count is therefore a parameter (FirstTokenStartsClock covers a count above 4096, which makes the first token read the clock). A start time of "not yet read" and no script seen are assumed from the comment at HTMLParserScheduler.h:96-97 and the zero test at line 98.
- HTMLParserScheduling.HTMLParserScheduler.constructor: its body is in HTMLParserScheduler.cpp, which is not part of this model. The parser time limit is a parameter, and the two timer flags are assumed to start inactive.
- HTMLParserScheduling.HTMLParserScheduler.IsScheduledForResume is a plain definition of the accessor at HTMLParserScheduler.h:81 with no contract. The timer's activity is a boolean field, so the accessor is a disjunction of two flags with nothing further to prove.
- formatToParts treats the engine's field offsets as indices into the formatted text. In the source they index the UTF-16 buffer (IntlNumberFormat.cpp:528-571). The model's string stands for that buffer, one element per UTF-16 code unit, so a character outside the Basic Multilingual Plane counts as two elements.

## Findings

| source | as written | input that shows it | evidently intended | confidence | as-written member | corrected member |
|---|---|---|---|---|---|---|
| Source/WebCore/layout/blockformatting/BlockFormattingContextGeometry.cpp:200-220 | step #4 derives an auto width with the auto margins taken as 0 but never stores that 0; #3 and #5 do not apply, so the margin stays unset and the assertions at lines 219-220 fail | width auto, margin-left auto, margin-right 10 | rule 4 of section 10.3.3 of CSS 2.2: the auto margin becomes 0 | not executed | BlockFormattingGeometry.ComputeWidthAndMarginAsWritten | BlockFormattingGeometry.ComputeWidthAndMargin |
| Source/WebCore/layout/blockformatting/BlockFormattingContextGeometry.cpp:287-300 | with both top and bottom set, no branch assigns topDelta, so it stays 0 | top 10, bottom 5 | section 9.4.3 of CSS 2.2: bottom is ignored and the box moves down by top | not executed | BlockFormattingGeometry.TopDeltaAsWritten | BlockFormattingGeometry.TopDelta |
| Source/WebCore/layout/blockformatting/BlockFormattingContextGeometry.cpp:255-271 | the point is built as { top, left }; since a point takes (x, y), the top lands in x | containing-block content box at left 0, top 20, no previous sibling | the point (left, top), so each box's left edge touches the containing block's left edge | not executed (assumes LayoutPoint's (x, y) constructor order) | BlockFormattingGeometry.StaticPositionAsWritten | BlockFormattingGeometry.StaticPosition |
