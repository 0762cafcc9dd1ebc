/** What the formatToParts sweep guarantees: the parts spell out the formatted text, each
    part is labelled by the narrowest field covering every one of its positions, no field
    starts inside a part, and literal parts are never adjacent unless an empty field
    separates them. */
module NumberFormatPartsProperties {
  import opened Wrappers
  import opened NumberFormatEngine
  import opened NumberFormatParts

  /** The segments of a text of the given length, as the sweep cuts it. */
  function Segments(fields: seq<Field>, length: nat): seq<Segment> {
    SegmentsFrom(fields, length, 0)
  }

  /** One step of the sweep, unfolded. */
  lemma SegmentsFromStep(fields: seq<Field>, length: int, at: int)
    requires at < length
    ensures SegmentsFrom(fields, length, at)
         == [Segment(at, SweepEnd(fields, at, length), Narrowest(fields, at))]
            + SegmentsFrom(fields, length, SweepEnd(fields, at, length))
  {
  }

  lemma {:induction false} TilesWithin(segs: seq<Segment>, from: int, to: int)
    requires Tiles(segs, from, to)
    ensures from <= to && Within(segs, from, to)
    decreases |segs|
  {
    if |segs| > 0 {
      TilesWithin(segs[1..], segs[0].end, to);
    }
  }

  lemma TilesTail(segs: seq<Segment>, from: int, to: int)
    requires |segs| > 0 && Tiles(segs, from, to)
    ensures Tiles(segs[1..], segs[0].end, to) && Within(segs[1..], segs[0].end, to)
  {
    assert Tiles(segs[1..], segs[0].end, to);
    TilesWithin(segs[1..], segs[0].end, to);
  }

  lemma TextCons(part: Part, parts: seq<Part>)
    ensures Text([part] + parts) == part.value + Text(parts)
  {
    assert ([part] + parts)[1..] == parts;
  }

  /** Concatenating the values of the parts of a tiling gives back the tiled text. */
  lemma {:induction false} TextOfParts(text: string, segs: seq<Segment>, v: Double, from: int, to: int)
    requires 0 <= from && to <= |text| && Tiles(segs, from, to) && Within(segs, from, to)
    ensures Text(PartsOf(text, segs, v)) == text[from..to]
    decreases |segs|
  {
    if |segs| > 0 {
      var rest := segs[1..];
      TilesTail(segs, from, to);
      TextOfParts(text, rest, v, segs[0].end, to);
      TextCons(PartOf(text, segs[0], v), PartsOf(text, rest, v));
      assert text[from..to] == text[from..segs[0].end] + text[segs[0].end..to];
    }
  }

  /** The parts of formatToParts spell out the formatted text exactly. */
  lemma PartitionSpellsText(text: string, fields: seq<Field>, v: Double)
    ensures Text(Partition(text, fields, v)) == text
  {
    TextOfParts(text, Segments(fields, |text|), v, 0, |text|);
  }

  /** NextStart is the nearest field start after `at`, or the limit. */
  lemma {:induction false} NextStartIsNearest(fields: seq<Field>, at: int, limit: int)
    ensures forall j :: 0 <= j < |fields| && at < fields[j].begin ==> NextStart(fields, at, limit) <= fields[j].begin
    ensures NextStart(fields, at, limit) < limit ==>
      exists j :: 0 <= j < |fields| && at < fields[j].begin && fields[j].begin == NextStart(fields, at, limit)
    decreases |fields|
  {
    if |fields| > 0 {
      var prefix := fields[..|fields| - 1];
      NextStartIsNearest(prefix, at, limit);
      assert forall j :: 0 <= j < |prefix| ==> fields[j] == prefix[j];
    }
  }

  /** k is the first index of a smallest field covering `at`. */
  predicate IsFirstNarrowest(fields: seq<Field>, at: int, k: int) {
    0 <= k < |fields| && Covers(fields[k], at) &&
    (forall j :: 0 <= j < |fields| && Covers(fields[j], at) ==> Size(fields[k]) <= Size(fields[j])) &&
    (forall j :: 0 <= j < k && Covers(fields[j], at) ==> Size(fields[k]) < Size(fields[j]))
  }

  lemma FirstNarrowestUnique(fields: seq<Field>, at: int, k: int, m: int)
    requires IsFirstNarrowest(fields, at, k) && IsFirstNarrowest(fields, at, m)
    ensures k == m
  {
  }

  /** The field the sweep picks: none when no field covers the position, otherwise the
      first of the smallest covering fields. */
  lemma {:induction false} NarrowestIsFirstNarrowest(fields: seq<Field>, at: int)
    ensures Narrowest(fields, at).None? <==> forall j :: 0 <= j < |fields| ==> !Covers(fields[j], at)
    ensures Narrowest(fields, at).Some? ==>
      exists k :: IsFirstNarrowest(fields, at, k) && fields[k] == Narrowest(fields, at).value
    decreases |fields|
  {
    if |fields| > 0 {
      var n := |fields| - 1;
      var prefix := fields[..n];
      NarrowestIsFirstNarrowest(prefix, at);
      assert forall j :: 0 <= j < n ==> fields[j] == prefix[j];
      var best := Narrowest(prefix, at);
      var candidate := fields[n];
      if Covers(candidate, at) && (best.None? || Size(candidate) < Size(best.value)) {
        assert IsFirstNarrowest(fields, at, n) by {
          if best.Some? {
            var k :| IsFirstNarrowest(prefix, at, k) && prefix[k] == best.value;
            assert forall j :: 0 <= j < n && Covers(fields[j], at) ==> Size(fields[k]) <= Size(fields[j]);
          }
        }
      } else if best.Some? {
        var k :| IsFirstNarrowest(prefix, at, k) && prefix[k] == best.value;
        assert IsFirstNarrowest(fields, at, k);
      }
    }
  }

  /** Every field covering a position inside a sweep segment already covers the segment's
      first position: no field starts strictly inside a segment. */
  lemma NoFieldStartsInside(fields: seq<Field>, length: int, seg: Segment, j: int)
    requires SweepStep(fields, length, seg) && 0 <= j < |fields|
    ensures !(seg.begin < fields[j].begin < seg.end)
  {
    NextStartIsNearest(fields, seg.begin, length);
  }

  /** Every position of a sweep segment has the segment's label as its narrowest field. */
  lemma SegmentLabelsEveryPosition(fields: seq<Field>, length: int, seg: Segment, p: int)
    requires SweepStep(fields, length, seg) && seg.begin <= p < seg.end
    ensures Narrowest(fields, p) == seg.field
  {
    var b := seg.begin;
    NextStartIsNearest(fields, b, length);
    NarrowestIsFirstNarrowest(fields, b);
    NarrowestIsFirstNarrowest(fields, p);
    forall j | 0 <= j < |fields| && Covers(fields[j], p)
      ensures Covers(fields[j], b)
    {
      NoFieldStartsInside(fields, length, seg, j);
    }
    if seg.field.Some? {
      var k :| IsFirstNarrowest(fields, b, k) && fields[k] == seg.field.value;
      assert IsFirstNarrowest(fields, p, k);
      var m :| IsFirstNarrowest(fields, p, m) && fields[m] == Narrowest(fields, p).value;
      FirstNarrowestUnique(fields, p, k, m);
    }
  }

  /** The type of each part of the partition is that of the narrowest field covering any of
      its positions, and "literal" where no field covers them. */
  lemma PartLabelledAtEveryPosition(text: string, fields: seq<Field>, v: Double, i: int, p: int)
    requires 0 <= i < |Segments(fields, |text|)|
    requires Segments(fields, |text|)[i].begin <= p < Segments(fields, |text|)[i].end
    ensures 0 <= p < |text|
    ensures Partition(text, fields, v)[i].partType ==
      match Narrowest(fields, p)
      case None => "literal"
      case Some(f) => PartTypeString(f.kind, v)
  {
    SegmentLabelsEveryPosition(fields, |text|, Segments(fields, |text|)[i], p);
  }

  /** When every field is nonempty, two literal parts never follow each other: a literal
      ends only where some field starts, and that field covers the next position. */
  lemma NoAdjacentLiterals(fields: seq<Field>, length: nat, i: int)
    requires forall j :: 0 <= j < |fields| ==> Size(fields[j]) > 0
    requires 0 <= i < |Segments(fields, length)| - 1
    ensures !(Segments(fields, length)[i].field.None? && Segments(fields, length)[i + 1].field.None?)
  {
    var segs := Segments(fields, length);
    var start := segs[i + 1].begin;
    NextStartIsNearest(fields, segs[i].begin, length);
    NarrowestIsFirstNarrowest(fields, start);
    if segs[i].field.None? {
      assert NextStart(fields, segs[i].begin, length) == start < length;
      var j :| 0 <= j < |fields| && segs[i].begin < fields[j].begin && fields[j].begin == start;
      assert Covers(fields[j], start);
    }
  }

  /** Formatting zero (of either sign) never produces a minus sign part. */
  lemma ZeroHasNoMinusSign(text: string, fields: seq<Field>, v: Double)
    requires IsZero(v)
    ensures forall i :: 0 <= i < |Partition(text, fields, v)| ==> Partition(text, fields, v)[i].partType != "minusSign"
  {
  }

  /** The part types of formatToParts are the names of the ECMA-402 part types. */
  predicate IsPartTypeName(t: string) {
    t in {"minusSign", "plusSign", "nan", "infinity", "integer", "fraction", "decimal",
          "group", "currency", "percentSign", "literal"}
  }

  lemma PartTypesAreNames(text: string, fields: seq<Field>, v: Double)
    ensures forall i :: 0 <= i < |Partition(text, fields, v)| ==> IsPartTypeName(Partition(text, fields, v)[i].partType)
  {
    var parts := Partition(text, fields, v);
    forall i | 0 <= i < |parts| ensures IsPartTypeName(parts[i].partType) {
      var seg := Segments(fields, |text|)[i];
      if seg.field.Some? {
        var t := PartTypeString(seg.field.value.kind, v);
        assert t == "literal" || t == "minusSign" || t == "plusSign" || t == "nan" || t == "infinity" ||
               t == "integer" || t == "fraction" || t == "decimal" || t == "group" || t == "currency" ||
               t == "percentSign";
      }
    }
  }
}
