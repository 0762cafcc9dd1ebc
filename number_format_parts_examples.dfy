/** A worked partition: "$1,234.50" with a currency field, an integer field that contains a
    grouping separator, a decimal separator and a fraction field. */
module NumberFormatPartsExamples {
  import opened Wrappers
  import opened NumberFormatEngine
  import opened NumberFormatParts
  import opened NumberFormatPartsProperties

  /** The fields the engine reports for "$1,234.50". */
  predicate IsDollarFields(f: seq<Field>) {
    |f| == 5 &&
    f[0] == Field(CurrencyField, 0, 1) &&
    f[1] == Field(IntegerField, 1, 6) &&
    f[2] == Field(GroupingSeparatorField, 2, 3) &&
    f[3] == Field(DecimalSeparatorField, 6, 7) &&
    f[4] == Field(FractionField, 7, 9)
  }

  /** The sweep's choice at a cut, read off the declarative characterisations. */
  lemma ChoiceAt(f: seq<Field>, p: int, k: int, next: int)
    requires IsDollarFields(f) && IsFirstNarrowest(f, p, k)
    requires p < next <= 9
    requires next < 9 ==> exists j :: 0 <= j < |f| && f[j].begin == next
    requires forall j :: 0 <= j < |f| && p < f[j].begin ==> next <= f[j].begin
    ensures Narrowest(f, p) == Some(f[k]) && NextStart(f, p, 9) == next
  {
    NarrowestIsFirstNarrowest(f, p);
    var m :| IsFirstNarrowest(f, p, m) && f[m] == Narrowest(f, p).value;
    FirstNarrowestUnique(f, p, k, m);
    NextStartIsNearest(f, p, 9);
  }

  /** The sweep's six cuts of "$1,234.50": position, index of the chosen field, the next
      field start and where the part ends. */
  predicate IsDollarCut(p: int, k: int, next: int, end: int) {
    || (p == 0 && k == 0 && next == 1 && end == 1)
    || (p == 1 && k == 1 && next == 2 && end == 2)
    || (p == 2 && k == 2 && next == 6 && end == 3)
    || (p == 3 && k == 1 && next == 6 && end == 6)
    || (p == 6 && k == 3 && next == 7 && end == 7)
    || (p == 7 && k == 4 && next == 9 && end == 9)
  }

  /** At each cut the sweep chooses the listed field and finds the listed next start. */
  lemma ChoiceAtCut(f: seq<Field>, p: int, k: int, next: int, end: int)
    requires IsDollarFields(f) && IsDollarCut(p, k, next, end)
    ensures 0 <= k < |f| && Min(f[k].end, next) == end
    ensures Narrowest(f, p) == Some(f[k]) && NextStart(f, p, 9) == next
  {
    forall j | 0 <= j < |f|
      ensures Covers(f[j], p) ==> Size(f[k]) <= Size(f[j])
      ensures j < k && Covers(f[j], p) ==> Size(f[k]) < Size(f[j])
      ensures p < f[j].begin ==> next <= f[j].begin
    {
      if j == 0 {} else if j == 1 {} else if j == 2 {} else if j == 3 {} else {}
    }
    assert next < 9 ==> f[if next == 1 then 1 else if next == 2 then 2 else if next == 6 then 3 else 4].begin == next;
    ChoiceAt(f, p, k, next);
  }

  /** One step of the sweep: the segment starting at a cut, then the rest. */
  lemma StepAt(f: seq<Field>, p: int, k: int, next: int, end: int)
    requires IsDollarFields(f) && IsDollarCut(p, k, next, end)
    ensures 0 <= k < |f|
    ensures SegmentsFrom(f, 9, p) == [Segment(p, end, Some(f[k]))] + SegmentsFrom(f, 9, end)
  {
    ChoiceAtCut(f, p, k, next, end);
    SegmentsFromStep(f, 9, p);
  }

  /** The last three segments of the sweep over "$1,234.50". */
  lemma DollarSegmentsFromThree(f: seq<Field>)
    requires IsDollarFields(f)
    ensures SegmentsFrom(f, 9, 3) == [Segment(3, 6, Some(f[1])), Segment(6, 7, Some(f[3])), Segment(7, 9, Some(f[4]))]
  {
    assert SegmentsFrom(f, 9, 9) == [];
    StepAt(f, 7, 4, 9, 9);
    StepAt(f, 6, 3, 7, 7);
    StepAt(f, 3, 1, 6, 6);
  }

  /** The segments of the sweep over "$1,234.50". */
  lemma DollarSegments(f: seq<Field>)
    requires IsDollarFields(f)
    ensures SegmentsFrom(f, 9, 0) == [
      Segment(0, 1, Some(f[0])), Segment(1, 2, Some(f[1])), Segment(2, 3, Some(f[2])),
      Segment(3, 6, Some(f[1])), Segment(6, 7, Some(f[3])), Segment(7, 9, Some(f[4]))]
  {
    var tail := [Segment(3, 6, Some(f[1])), Segment(6, 7, Some(f[3])), Segment(7, 9, Some(f[4]))];
    DollarSegmentsFromThree(f);
    StepAt(f, 2, 2, 6, 3);
    var from2 := [Segment(2, 3, Some(f[2]))] + tail;
    assert SegmentsFrom(f, 9, 2) == from2;
    StepAt(f, 1, 1, 2, 2);
    var from1 := [Segment(1, 2, Some(f[1]))] + from2;
    assert SegmentsFrom(f, 9, 1) == from1;
    StepAt(f, 0, 0, 1, 1);
    assert SegmentsFrom(f, 9, 0) == [Segment(0, 1, Some(f[0]))] + from1;
  }

  /** The parts cut from "$1,234.50" along the six segments of its sweep. */
  lemma DollarPartsOfSegments(text: string, f: seq<Field>, v: Double)
    requires text == "$1,234.50" && IsDollarFields(f) && v.Finite?
    ensures PartsOf(text, [
      Segment(0, 1, Some(f[0])), Segment(1, 2, Some(f[1])), Segment(2, 3, Some(f[2])),
      Segment(3, 6, Some(f[1])), Segment(6, 7, Some(f[3])), Segment(7, 9, Some(f[4]))], v) == [
      Part("currency", "$"), Part("integer", "1"), Part("group", ","),
      Part("integer", "234"), Part("decimal", "."), Part("fraction", "50")]
  {
    assert text[0..1] == "$";
    assert text[1..2] == "1";
    assert text[2..3] == ",";
    assert text[3..6] == "234";
    assert text[6..7] == ".";
    assert text[7..9] == "50";
  }

  /** The integer field is split around the nested grouping separator, which wins as the
      narrower field. */
  lemma DollarAmountParts(text: string, f: seq<Field>, v: Double)
    requires text == "$1,234.50" && IsDollarFields(f) && v.Finite?
    ensures Partition(text, f, v) == [
      Part("currency", "$"), Part("integer", "1"), Part("group", ","),
      Part("integer", "234"), Part("decimal", "."), Part("fraction", "50")]
  {
    DollarSegments(f);
    DollarPartsOfSegments(text, f, v);
  }
}
