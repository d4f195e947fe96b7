/**
 * The placement and labelling rules of professional_dissertation_diagrams.py:
 * entity and UML class box heights, the class box's compartment split and
 * text rows, display truncation, entity attribute texts, the relationship
 * guard and the multiplicity-label filter.  Boxes are corner-based
 * `(x, y, w, h)`.
 */
module ProfessionalDissertation {
  import opened Geometry
  import opened Wrappers
  import opened Labels
  import opened BoxEdge
  import opened ClassSections

  // ----- entity boxes -------------------------------------------------------

  /** `max(height, 3 + 1.5 * len(attributes))`: a header of 3 and 1.5 per
      attribute, never below the given height. */
  function EntityHeight(given: real, n: nat): (h: real)
    ensures h >= given && h >= 3.0 + 1.5 * (n as real)
    ensures h == given || h == 3.0 + 1.5 * (n as real)
  {
    Max(given, 3.0 + 1.5 * (n as real))
  }

  /** Attribute i of an entity at y is written at
      `y + actual_height - 3 - 1 - 1.5 * i`. */
  function EntityRows(y: real, given: real, n: nat): (r: seq<real>)
    ensures |r| == n
  {
    Rows(y + EntityHeight(given, n) - 4.0, 1.5, n)
  }

  /** Every attribute row lies inside the box, below the 3-high header:
      the height formula leaves room for all of them. */
  lemma EntityRowsInside(y: real, given: real, n: nat)
    ensures forall i :: 0 <= i < n ==>
      y < EntityRows(y, given, n)[i] < y + EntityHeight(given, n) - 3.0
  {
    if n > 0 {
      RowsWithin(y + EntityHeight(given, n) - 4.0, 1.5, n);
    }
  }

  /** One attribute of the schema: name, type, primary-key and foreign-key
      flags. */
  datatype Attribute = Attribute(name: string, kind: string, isPk: bool, isFk: bool)

  /** The marker before an attribute: the key for a primary key, otherwise
      the link for a foreign key, otherwise nothing. */
  function Marker(a: Attribute): (m: string)
    ensures a.isPk ==> m == KeyMark
    ensures !a.isPk && a.isFk ==> m == LinkMark
    ensures !a.isPk && !a.isFk ==> m == ""
  {
    if a.isPk then KeyMark else if a.isFk then LinkMark else ""
  }

  /** `f"{prefix}{attr_name}: {attr_type}"`. */
  function EntityText(a: Attribute): (t: string)
    ensures StartsWith(t, Marker(a)) && EndsWith(t, a.name + ": " + a.kind)
    ensures |t| == |Marker(a)| + |a.name| + 2 + |a.kind|
  {
    Marker(a) + a.name + ": " + a.kind
  }

  /** A primary key that is also a foreign key shows only the key marker. */
  lemma PrimaryKeyWins(name: string, kind: string)
    ensures EntityText(Attribute(name, kind, true, true)) == EntityText(Attribute(name, kind, true, false))
    ensures EntityText(Attribute(name, kind, true, true)) != EntityText(Attribute(name, kind, false, true))
  {
    var t1 := EntityText(Attribute(name, kind, true, true));
    var t2 := EntityText(Attribute(name, kind, false, true));
    assert t1[0] == KeyMark[0] && t2[0] == LinkMark[0];
  }

  /** `entity_schemas.get(entity_name, [])`. */
  function EntityAttributes(schemas: map<string, seq<Attribute>>, name: string): (r: seq<Attribute>)
    ensures name in schemas ==> r == schemas[name]
    ensures name !in schemas ==> r == []
  {
    if name in schemas then schemas[name] else []
  }

  // ----- relationships ------------------------------------------------------

  /** The line between two boxes: from the first box's edge point toward
      the second centre to the second box's edge point toward the first
      centre.  Coinciding centres make the helper divide by zero. */
  function RelationshipLine(from: CornerBox, to: CornerBox): (r: Result<Segment>)
    ensures r.Failure? <==> from.Centre() == to.Centre()
  {
    if from.Centre() == to.Centre() then Failure("division by zero")
    else Success(Segment(EdgePoint(from, to.Centre()), EdgePoint(to, from.Centre())))
  }

  /** Swapping the two boxes reverses the line. */
  lemma RelationshipLineReversed(from: CornerBox, to: CornerBox)
    ensures RelationshipLine(to, from).Failure? == RelationshipLine(from, to).Failure?
    ensures RelationshipLine(from, to).Success? ==>
      RelationshipLine(to, from).value == RelationshipLine(from, to).value.Reversed()
  {
  }

  /** The line starts on the ray from the first box's centre toward the
      second box's centre, at a positive multiple of the offset; by
      RelationshipLineReversed, the same holds for its end. */
  lemma RelationshipLineAlongCentres(from: CornerBox, to: CornerBox)
    requires from.w > 0.0 && from.h > 0.0
    requires from.Centre() != to.Centre()
    ensures var p, c1, c2 := RelationshipLine(from, to).value.start, from.Centre(), to.Centre();
      var t := RayScale(from, c2);
      t > 0.0 && p.x - c1.x == t * (c2.x - c1.x) && p.y - c1.y == t * (c2.y - c1.y)
  {
    EdgePointOnRay(from, to.Centre());
  }

  /** `if from_entity in positions and to_entity in positions`: a
      relationship is drawn only between two placed boxes. */
  function Relationship(positions: map<string, CornerBox>, from: string, to: string): (r: Option<Result<Segment>>)
    ensures r.Some? <==> from in positions && to in positions
  {
    if from in positions && to in positions then Some(RelationshipLine(positions[from], positions[to]))
    else None
  }

  /** A cardinality label sits 2 right of and 2 above its line end. */
  function CardinalityPoint(p: Point): (q: Point)
    ensures q.x - p.x == 2.0 && q.y - p.y == 2.0
  {
    Point(p.x + 2.0, p.y + 2.0)
  }

  /** An ERD relationship labels both of its ends with their cardinalities. */
  function CardinalityLabels(line: Segment, fromCard: string, toCard: string): (r: seq<(Point, string)>)
    ensures |r| == 2 && r[0].1 == fromCard && r[1].1 == toCard
    ensures r[0].0.x > line.start.x && r[0].0.y > line.start.y
    ensures r[1].0.x > line.end.x && r[1].0.y > line.end.y
  {
    [(CardinalityPoint(line.start), fromCard), (CardinalityPoint(line.end), toCard)]
  }

  /** Association names that are descriptive rather than multiplicities. */
  const Descriptive: seq<string> := ["uses", "manages", "processes"]

  /** The multiplicity labels an association adds: one per end, unless
      that end's text is descriptive.  An empty text is not descriptive and
      is still labelled. */
  function MultiplicityLabels(line: Segment, fromMult: string, toMult: string): (r: seq<(Point, string)>)
    ensures |r| == (if fromMult in Descriptive then 0 else 1) + (if toMult in Descriptive then 0 else 1)
    ensures forall l :: l in r ==> l.1 !in Descriptive
    ensures fromMult !in Descriptive ==> r[0] == (CardinalityPoint(line.start), fromMult)
    ensures toMult !in Descriptive ==> r[|r| - 1] == (CardinalityPoint(line.end), toMult)
  {
    (if fromMult !in Descriptive then [(CardinalityPoint(line.start), fromMult)] else []) +
    (if toMult !in Descriptive then [(CardinalityPoint(line.end), toMult)] else [])
  }

  /** Multiplicities keep exactly the cardinality labels whose text is not
      descriptive; `("uses", "")` keeps only the empty label at the end. */
  lemma MultiplicityFiltersCardinality(line: Segment, fromMult: string, toMult: string)
    ensures fromMult !in Descriptive && toMult !in Descriptive ==>
      MultiplicityLabels(line, fromMult, toMult) == CardinalityLabels(line, fromMult, toMult)
    ensures fromMult in Descriptive && toMult in Descriptive ==> MultiplicityLabels(line, fromMult, toMult) == []
    ensures MultiplicityLabels(line, "uses", "") == [(CardinalityPoint(line.end), "")]
  {
    assert "uses" in Descriptive;
    assert "" != Descriptive[0] && "" != Descriptive[1] && "" != Descriptive[2];
  }

  // ----- UML class boxes ----------------------------------------------------

  /** `len(items) * 1.3 + 1.5 if items else 0`. */
  function SectionNeed(n: nat): (h: real)
    ensures n == 0 ==> h == 0.0
    ensures n > 0 ==> h >= 2.8
  {
    if n > 0 then 1.3 * (n as real) + 1.5 else 0.0
  }

  /** `max(height, 3 + attr_height + method_height)`. */
  function ClassHeight(given: real, nA: nat, nM: nat): (h: real)
    ensures h >= given && h >= 3.0 + SectionNeed(nA) + SectionNeed(nM)
    ensures h == given || h == 3.0 + SectionNeed(nA) + SectionNeed(nM)
  {
    Max(given, 3.0 + SectionNeed(nA) + SectionNeed(nM))
  }

  /** The split of the height below the 3-high name into an attribute and
      a method section. */
  function Sections(actual: real, nA: nat, nM: nat): (s: (real, real))
    ensures s.0 + s.1 == actual - 3.0
    ensures nA > 0 && nM > 0 ==> s.0 == 0.4 * (actual - 3.0) && s.1 == 0.6 * (actual - 3.0)
    ensures nA > 0 && nM == 0 ==> s.1 == 0.0
    ensures nA == 0 && nM > 0 ==> s.0 == 0.0
    ensures nA == 0 && nM == 0 ==> s.0 == s.1
  {
    var remaining := actual - 3.0;
    if nA > 0 && nM > 0 then (remaining * 0.4, remaining * 0.6)
    else if nA > 0 then (remaining, 0.0)
    else if nM > 0 then (0.0, remaining)
    else (remaining * 0.5, remaining * 0.5)
  }

  /** The rows of the class box as written: attributes from
      `y + actual - 3 - 0.5` down by 1.3, the methods divider at
      `y + method_section` and the methods from 0.5 below it. */
  function ClassBoxRows(y: real, given: real, nA: nat, nM: nat): (r: ClassRows)
    ensures |r.attrs| == nA && |r.methods| == nM
  {
    var actual := ClassHeight(given, nA, nM);
    RowsFor(y, y + actual - 3.0, Sections(actual, nA, nM).1, 1.3, 0.5, nA, nM)
  }

  /** `attr if len(attr) <= 28 else attr[:25] + "..."`. */
  function DisplayLine(s: string): (r: string)
    ensures |r| <= 28
    ensures |s| <= 28 ==> r == s
    ensures |s| > 28 ==> |r| == 28 && r[..25] == s[..25] && r[25..] == "..."
  {
    Truncate(s, 28, 25)
  }

  /** The fixed 0.4/0.6 split lets attribute rows run past the divider:
      the User class (9 attributes, 4 methods, given height 18) gets height
      22.9 and a divider 11.94 above its bottom, while its last attribute
      is written 9.0 above the bottom, under the divider and between two
      method rows. */
  lemma UserAttributesCrossDivider(y: real)
    ensures var r := ClassBoxRows(y, 18.0, 9, 4);
      r.divider == Some(y + 11.94) && r.attrs[8] == y + 9.0 && r.attrs[8] < r.divider.value &&
      r.methods[1] > r.attrs[8] > r.methods[2]
  {
    assert ClassHeight(18.0, 9, 4) == 22.9;
  }

  /** The evidently intended split: with both sections present each gets
      the share of the remaining height that its rows need of what both
      need. */
  function ProportionalSections(actual: real, nA: nat, nM: nat): (s: (real, real))
    ensures s.0 + s.1 == actual - 3.0
    ensures nA > 0 && nM == 0 ==> s.1 == 0.0
    ensures nA == 0 && nM > 0 ==> s.0 == 0.0
    ensures nA > 0 && nM > 0 ==> s.0 * (SectionNeed(nA) + SectionNeed(nM)) == (actual - 3.0) * SectionNeed(nA)
  {
    if nA > 0 && nM > 0 then ProportionalSplit(actual - 3.0, SectionNeed(nA), SectionNeed(nM))
    else Sections(actual, nA, nM)
  }

  /** The rows of the class box with the proportional split. */
  function CorrectedClassBoxRows(y: real, given: real, nA: nat, nM: nat): (r: ClassRows)
    ensures |r.attrs| == nA && |r.methods| == nM
  {
    var actual := ClassHeight(given, nA, nM);
    RowsFor(y, y + actual - 3.0, ProportionalSections(actual, nA, nM).1, 1.3, 0.5, nA, nM)
  }

  /** With the proportional split every attribute row is above the
      divider, and every method row below it and above the box's bottom,
      whatever the given height. */
  lemma CorrectedRowsSeparated(y: real, given: real, nA: nat, nM: nat)
    requires nA > 0 && nM > 0
    ensures var r := CorrectedClassBoxRows(y, given, nA, nM);
      (forall i :: 0 <= i < nA ==> r.attrs[i] > r.divider.value) &&
      (forall j :: 0 <= j < nM ==> y < r.methods[j] < r.divider.value)
  {
    var actual := ClassHeight(given, nA, nM);
    assert y + actual - 3.0 - y == actual - 3.0;
    ProportionalRowsSeparated(y, y + actual - 3.0, 1.3, 0.5, 1.5, nA, nM);
  }
}
