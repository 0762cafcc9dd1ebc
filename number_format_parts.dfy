/** formatToParts: the engine reports the formatted text and a list of (possibly nested)
    field spans; a left-to-right sweep cuts the text into parts, each labelled with the
    narrowest field covering it, or "literal" where no field covers it. */
module NumberFormatParts {
  import opened Wrappers
  import opened NumberFormatEngine

  /** The engine's field kinds, with every code outside the known ones kept as Other. */
  datatype FieldKind =
    | IntegerField | FractionField | DecimalSeparatorField | ExponentSymbolField
    | ExponentSignField | ExponentField | GroupingSeparatorField | CurrencyField
    | PercentField | PermillField | SignField | OtherField(code: int)

  /** The numbering of the engine's field enumeration (0 to 10); any other code is Other. */
  function FieldKindOf(code: int): (k: FieldKind)
    ensures k.OtherField? <==> !(0 <= code <= 10)
    ensures k.OtherField? ==> k.code == code
  {
    if code == 0 then IntegerField
    else if code == 1 then FractionField
    else if code == 2 then DecimalSeparatorField
    else if code == 3 then ExponentSymbolField
    else if code == 4 then ExponentSignField
    else if code == 5 then ExponentField
    else if code == 6 then GroupingSeparatorField
    else if code == 7 then CurrencyField
    else if code == 8 then PercentField
    else if code == 9 then PermillField
    else if code == 10 then SignField
    else OtherField(code)
  }

  /** A field span [begin, end) of the formatted text. */
  datatype Field = Field(kind: FieldKind, begin: int, end: int)

  function Size(f: Field): int {
    f.end - f.begin
  }

  predicate Covers(f: Field, at: int) {
    f.begin <= at < f.end
  }

  /** A part of the result: its type name and its piece of the text. */
  datatype Part = Part(partType: string, value: string)

  /** Kinds that cannot be asked for through the options and are reported as literals. */
  predicate IsLiteralKind(kind: FieldKind) {
    kind.PermillField? || kind.ExponentSymbolField? || kind.ExponentSignField? ||
    kind.ExponentField? || kind.OtherField?
  }

  /** The part type name of a field, given the value being formatted. */
  function PartTypeString(kind: FieldKind, v: Double): (t: string)
    ensures t == "minusSign" <==> kind == SignField && IsNegative(v)
    ensures t == "plusSign" <==> kind == SignField && !IsNegative(v)
    ensures t == "nan" <==> kind == IntegerField && v.NaN?
    ensures t == "infinity" <==> kind == IntegerField && v.Infinity?
    ensures t == "integer" <==> kind == IntegerField && v.Finite?
    ensures t == "fraction" <==> kind == FractionField
    ensures t == "decimal" <==> kind == DecimalSeparatorField
    ensures t == "group" <==> kind == GroupingSeparatorField
    ensures t == "currency" <==> kind == CurrencyField
    ensures t == "percentSign" <==> kind == PercentField
    ensures t == "literal" <==> IsLiteralKind(kind)
  {
    match kind
    case IntegerField => if v.NaN? then "nan" else if v.Infinity? then "infinity" else "integer"
    case FractionField => "fraction"
    case DecimalSeparatorField => "decimal"
    case GroupingSeparatorField => "group"
    case CurrencyField => "currency"
    case PercentField => "percentSign"
    case SignField => if IsNegative(v) then "minusSign" else "plusSign"
    case _ => "literal"
  }

  /** The iterator's stream of (field code, begin, end) triples; collection stops at the
      first negative code, which is how the iterator reports that it is exhausted. */
  datatype Position = Position(code: int, begin: int, end: int)

  function FieldsOf(stream: seq<Position>): (fields: seq<Field>)
    ensures |fields| <= |stream|
    ensures forall i :: 0 <= i < |fields| ==>
      stream[i].code >= 0 && fields[i] == Field(FieldKindOf(stream[i].code), stream[i].begin, stream[i].end)
    ensures |fields| < |stream| ==> stream[|fields|].code < 0
  {
    if |stream| == 0 || stream[0].code < 0 then []
    else [Field(FieldKindOf(stream[0].code), stream[0].begin, stream[0].end)] + FieldsOf(stream[1..])
  }

  lemma FieldsOfStep(stream: seq<Position>, i: nat)
    requires i < |stream| && stream[i].code >= 0
    ensures FieldsOf(stream[i..])
         == [Field(FieldKindOf(stream[i].code), stream[i].begin, stream[i].end)] + FieldsOf(stream[i + 1..])
  {
    assert stream[i..][1..] == stream[i + 1..];
  }

  method CollectFields(stream: seq<Position>) returns (fields: seq<Field>)
    ensures fields == FieldsOf(stream)
  {
    fields := [];
    var i := 0;
    while i < |stream| && stream[i].code >= 0
      invariant 0 <= i <= |stream|
      invariant fields + FieldsOf(stream[i..]) == FieldsOf(stream)
      decreases |stream| - i
    {
      var field := Field(FieldKindOf(stream[i].code), stream[i].begin, stream[i].end);
      FieldsOfStep(stream, i);
      assert fields + FieldsOf(stream[i..]) == (fields + [field]) + FieldsOf(stream[i + 1..]);
      fields := fields + [field];
      i := i + 1;
    }
  }

  /** The sweep's choice at `at`: among the fields covering it, the first of the smallest
      ones (a later field replaces the current choice only when strictly smaller). */
  function Narrowest(fields: seq<Field>, at: int): (r: Option<Field>)
    ensures r.Some? ==> Covers(r.value, at) && r.value in fields
  {
    if |fields| == 0 then None
    else
      var best := Narrowest(fields[..|fields| - 1], at);
      var candidate := fields[|fields| - 1];
      if Covers(candidate, at) && (best.None? || Size(candidate) < Size(best.value)) then Some(candidate)
      else best
  }

  /** The nearest field start after `at`, or `limit` when there is none before it. */
  function NextStart(fields: seq<Field>, at: int, limit: int): (r: int)
    ensures r <= limit
    ensures at < limit ==> at < r
  {
    if |fields| == 0 then limit
    else
      var next := NextStart(fields[..|fields| - 1], at, limit);
      var candidate := fields[|fields| - 1];
      if at < candidate.begin && candidate.begin < next then candidate.begin else next
  }

  function Min(a: int, b: int): int {
    if a <= b then a else b
  }

  /** A cut [begin, end) of the text and the field that labels it (None: a literal). */
  datatype Segment = Segment(begin: int, end: int, field: Option<Field>)

  /** Where the part starting at `at` ends: at the end of the field chosen there or at the
      next field start, whichever is first; at the next field start when no field is chosen. */
  function SweepEnd(fields: seq<Field>, at: int, length: int): (r: int)
    ensures at < length ==> at < r <= length
  {
    var field := Narrowest(fields, at);
    var nextStart := NextStart(fields, at, length);
    if field.Some? then Min(field.value.end, nextStart) else nextStart
  }

  /** A segment as one step of the sweep produces it. */
  predicate SweepStep(fields: seq<Field>, length: int, seg: Segment) {
    seg.field == Narrowest(fields, seg.begin) && seg.end == SweepEnd(fields, seg.begin, length)
  }

  /** The segments cover [from, to) in order, without gaps or overlaps. */
  predicate Tiles(segs: seq<Segment>, from: int, to: int) {
    (|segs| == 0 ==> from == to) &&
    (|segs| > 0 ==> segs[0].begin == from && segs[|segs| - 1].end == to) &&
    (forall i :: 0 <= i < |segs| ==> segs[i].begin < segs[i].end) &&
    (forall i :: 0 <= i < |segs| - 1 ==> segs[i].end == segs[i + 1].begin)
  }

  predicate Within(segs: seq<Segment>, from: int, to: int) {
    forall i :: 0 <= i < |segs| ==> from <= segs[i].begin && segs[i].end <= to
  }

  /** The sweep from `at` to the end of a text of the given length. */
  function SegmentsFrom(fields: seq<Field>, length: int, at: int): (segs: seq<Segment>)
    requires at <= length
    ensures Tiles(segs, at, length) && Within(segs, at, length)
    ensures forall i :: 0 <= i < |segs| ==> SweepStep(fields, length, segs[i])
    decreases length - at
  {
    if at == length then []
    else
      var next := SweepEnd(fields, at, length);
      [Segment(at, next, Narrowest(fields, at))] + SegmentsFrom(fields, length, next)
  }

  function PartOf(text: string, seg: Segment, v: Double): Part
    requires 0 <= seg.begin <= seg.end <= |text|
  {
    Part(if seg.field.Some? then PartTypeString(seg.field.value.kind, v) else "literal",
         text[seg.begin..seg.end])
  }

  function PartsOf(text: string, segs: seq<Segment>, v: Double): (parts: seq<Part>)
    requires forall i :: 0 <= i < |segs| ==> 0 <= segs[i].begin <= segs[i].end <= |text|
    ensures |parts| == |segs|
    ensures forall i :: 0 <= i < |segs| ==> parts[i] == PartOf(text, segs[i], v)
  {
    if |segs| == 0 then [] else [PartOf(text, segs[0], v)] + PartsOf(text, segs[1..], v)
  }

  /** PartitionNumberPattern as this core computes it. */
  function Partition(text: string, fields: seq<Field>, v: Double): seq<Part> {
    PartsOf(text, SegmentsFrom(fields, |text|, 0), v)
  }

  /** The concatenated values of a list of parts. */
  function Text(parts: seq<Part>): string {
    if |parts| == 0 then "" else parts[0].value + Text(parts[1..])
  }

  /** The inner loop of the sweep: one pass over all fields picks the narrowest field
      covering `current` and the nearest field start after it. */
  method ScanFields(fields: seq<Field>, current: int, length: int) returns (field: Option<Field>, nextStart: int)
    ensures field == Narrowest(fields, current)
    ensures nextStart == NextStart(fields, current, length)
  {
    field := None;
    nextStart := length;
    for k := 0 to |fields|
      invariant field == Narrowest(fields[..k], current)
      invariant nextStart == NextStart(fields[..k], current, length)
    {
      var candidate := fields[k];
      assert fields[..k + 1][..k] == fields[..k];
      if candidate.begin <= current < candidate.end && (field.None? || Size(candidate) < Size(field.value)) {
        field := Some(candidate);
      }
      if current < candidate.begin < nextStart {
        nextStart := candidate.begin;
      }
    }
    assert fields[..|fields|] == fields;
  }

  /** The sweep of formatToParts: for each position, a pass over all fields picks the
      narrowest covering field and the nearest later field start. */
  method PartitionNumberPattern(text: string, fields: seq<Field>, v: Double) returns (parts: seq<Part>)
    ensures parts == Partition(text, fields, v)
  {
    ghost var segs := SegmentsFrom(fields, |text|, 0);
    ghost var i := 0;
    parts := [];
    var current := 0;
    while current < |text|
      invariant 0 <= current <= |text| && 0 <= i <= |segs|
      invariant current == if i < |segs| then segs[i].begin else |text|
      invariant |parts| == i
      invariant forall j :: 0 <= j < i ==> parts[j] == PartOf(text, segs[j], v)
      decreases |text| - current
    {
      var field, nextStart := ScanFields(fields, current, |text|);
      var next := if field.Some? then Min(field.value.end, nextStart) else nextStart;
      assert next == SweepEnd(fields, current, |text|);
      var partType := if field.Some? then PartTypeString(field.value.kind, v) else "literal";
      assert SweepStep(fields, |text|, segs[i]);
      parts := parts + [Part(partType, text[current..next])];
      current := next;
      i := i + 1;
    }
    assert i == |segs|;
  }
}
