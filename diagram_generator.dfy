/**
 * diagram_generator.py: entity and class boxes sized from the lengths of
 * their labels, the column rule for ERD lines and the centre rule for
 * class lines, the compartment rows and the four-column component grid.
 */
module DiagramGenerator {
  import opened Geometry
  import opened Wrappers
  import opened Labels
  import opened Connections
  import opened TextRows

  /** The longest length in a list, 0 for an empty list (Python's
      `max([...] + [0])`). */
  function MaxLen(items: seq<string>): (m: nat)
    ensures forall i :: 0 <= i < |items| ==> |items[i]| <= m
    ensures m == 0 || exists i :: 0 <= i < |items| && |items[i]| == m
  {
    if |items| == 0 then 0
    else
      var rest := MaxLen(items[1..]);
      assert forall i :: 1 <= i < |items| ==> items[1..][i - 1] == items[i];
      if |items[0]| >= rest then |items[0]| else rest
  }

  // ----- ERD ----------------------------------------------------------------

  /** `max(len(name), max(len(attr[0]) for attr in attributes)) * 0.12`
      wide and `(len(attributes) + 2) * 0.3` high; the inner `max` fails on
      an empty attribute list. */
  function EntitySize(name: string, attributes: seq<(string, string)>): (r: Result<(real, real)>)
    ensures r.Failure? <==> |attributes| == 0
    ensures r.Success? ==> r.value.1 == 0.3 * ((|attributes| + 2) as real)
    ensures r.Success? ==> r.value.0 >= 0.12 * (|name| as real)
    ensures r.Success? ==> forall i :: 0 <= i < |attributes| ==> r.value.0 >= 0.12 * (|attributes[i].0| as real)
    ensures r.Success? ==>
      (r.value.0 == 0.12 * (|name| as real) ||
       exists i :: 0 <= i < |attributes| && r.value.0 == 0.12 * (|attributes[i].0| as real))
  {
    if |attributes| == 0 then Failure("max() arg is an empty sequence")
    else
      var names := seq(|attributes|, i requires 0 <= i < |attributes| => attributes[i].0);
      var longest := MaxLen(names);
      assert longest > 0 ==> exists i :: 0 <= i < |attributes| && |attributes[i].0| == longest;
      assert longest == 0 ==> |names[0]| == 0;
      var widest := Max(|name| as real, longest as real);
      assert forall i :: 0 <= i < |attributes| ==> |attributes[i].0| as real <= widest by {
        assert forall i :: 0 <= i < |attributes| ==> names[i] == attributes[i].0;
      }
      Success((0.12 * widest, 0.3 * ((|attributes| + 2) as real)))
  }

  /** The attribute rows: from `y + height/2 - 0.7` down by 0.25, each the
      `name (type)` label. */
  function EntityLines(box: CentredBox, attributes: seq<(string, string)>): (r: seq<Placed>)
    ensures |r| == |attributes|
    ensures forall i :: 0 <= i < |r| ==> r[i].text == AttributeLabel(attributes[i].0, attributes[i].1)
    ensures forall i :: 0 <= i < |r| ==> r[i].y == box.cy + box.h / 2.0 - 0.7 - 0.25 * (i as real)
  {
    Placement(box.cy + box.h / 2.0 - 0.7, 0.25,
      seq(|attributes|, i requires 0 <= i < |attributes| => AttributeLabel(attributes[i].0, attributes[i].1)))
  }

  /** With the computed height every attribute row lies under the name line
      (0.4 below the top) and above the bottom edge. */
  lemma EntityLinesInside(cx: real, cy: real, name: string, attributes: seq<(string, string)>)
    requires |attributes| > 0
    ensures var size := EntitySize(name, attributes).value;
      var box := CentredBox(cx, cy, size.0, size.1);
      forall i :: 0 <= i < |attributes| ==>
        cy - size.1 / 2.0 < EntityLines(box, attributes)[i].y < cy + size.1 / 2.0 - 0.4
  {
    var size := EntitySize(name, attributes).value;
    var box := CentredBox(cx, cy, size.0, size.1);
    var n := |attributes|;
    var r := EntityLines(box, attributes);
    forall i | 0 <= i < n
      ensures cy - size.1 / 2.0 < r[i].y < cy + size.1 / 2.0 - 0.4
    {
      assert 0.25 * (i as real) <= 0.25 * ((n - 1) as real);
    }
  }

  /** ERD lines use the column rule; the cardinality label sits 0.15 above
      the midpoint. */
  function ErdLine(boxes: map<string, CentredBox>, rel: Relationship): (r: Option<(Segment, Point)>)
    ensures r.Some? <==> rel.from in boxes && rel.to in boxes
    ensures r.Some? ==> Some(r.value.0) == Link(boxes, rel.from, rel.to, ColumnRule)
    ensures r.Some? ==> r.value.1 == LabelPoint(r.value.0, 0.15)
  {
    match Link(boxes, rel.from, rel.to, ColumnRule)
    case Some(s) => Some((s, LabelPoint(s, 0.15)))
    case None => None
  }

  /** Whenever the centres are in different columns the line is horizontal,
      from the right edge of the left box to the left edge of the right
      box; it is vertical only for boxes in one column. */
  lemma ErdLineHorizontalUnlessSameColumn(boxes: map<string, CentredBox>, rel: Relationship)
    requires rel.from in boxes && rel.to in boxes
    ensures var a, b := boxes[rel.from], boxes[rel.to];
      var s := ErdLine(boxes, rel).value.0;
      (a.cx < b.cx ==> s == Segment(Point(a.cx + a.w / 2.0, a.cy), Point(b.cx - b.w / 2.0, b.cy))) &&
      (a.cx > b.cx ==> s == Segment(Point(a.cx - a.w / 2.0, a.cy), Point(b.cx + b.w / 2.0, b.cy))) &&
      (a.cx == b.cx && a.cy > b.cy ==> s == Segment(Point(a.cx, a.cy - a.h / 2.0), Point(b.cx, b.cy + b.h / 2.0))) &&
      (a.cx == b.cx && a.cy <= b.cy ==> s == Segment(Point(a.cx, a.cy + a.h / 2.0), Point(b.cx, b.cy - b.h / 2.0)))
  {
  }

  // ----- class diagram ------------------------------------------------------

  /** `max(len(name) * 0.1, longest attribute * 0.08, longest method * 0.08)
      + 0.5`, an empty list counting 0. */
  function ClassWidth(name: string, attributes: seq<string>, methods: seq<string>): (w: real)
    ensures w >= 0.5 + 0.1 * (|name| as real)
    ensures forall i :: 0 <= i < |attributes| ==> w >= 0.5 + 0.08 * (|attributes[i]| as real)
    ensures forall i :: 0 <= i < |methods| ==> w >= 0.5 + 0.08 * (|methods[i]| as real)
    ensures w == 0.5 + 0.1 * (|name| as real) ||
      w == 0.5 + 0.08 * (MaxLen(attributes) as real) || w == 0.5 + 0.08 * (MaxLen(methods) as real)
  {
    var a, m := MaxLen(attributes), MaxLen(methods);
    assert forall i :: 0 <= i < |attributes| ==> 0.08 * (|attributes[i]| as real) <= 0.08 * (a as real);
    assert forall i :: 0 <= i < |methods| ==> 0.08 * (|methods[i]| as real) <= 0.08 * (m as real);
    Max(0.1 * (|name| as real), Max(0.08 * (a as real), 0.08 * (m as real))) + 0.5
  }

  /** `0.6 + 0.25 * attributes + 0.25 * methods + 0.4`. */
  function ClassHeight(nA: nat, nM: nat): (h: real)
    ensures h >= 1.0 && h == 1.0 + 0.25 * ((nA + nM) as real)
  {
    0.6 + 0.25 * (nA as real) + 0.25 * (nM as real) + 0.4
  }

  /** The compartment rows of a class box centred at height `cy`: the
      separator 0.5 under the top, attributes from 0.2 under it every 0.25,
      a divider 0.1 above the row after the last attribute, methods from 0.1
      lower every 0.25. */
  method ClassCompartments(cy: real, attributes: seq<string>, methods: seq<string>) returns (c: Compartments)
    ensures var h := ClassHeight(|attributes|, |methods|);
      c == CompartmentLayout(cy + h / 2.0 - 0.5, 0.2, 0.25, 0.1, 0.1, attributes, methods)
    ensures c.divider.Some? <==> |attributes| > 0 && |methods| > 0
  {
    var h := ClassHeight(|attributes|, |methods|);
    c := StackCompartments(cy + h / 2.0 - 0.5, 0.2, 0.25, 0.1, 0.1, attributes, methods);
  }

  /** With the computed height every row lies under the separator and
      above the bottom edge: the last method row sits 0.45 above it when
      both lists are non-empty; attributes come before methods. */
  lemma ClassRowsInside(cy: real, attributes: seq<string>, methods: seq<string>)
    ensures var h := ClassHeight(|attributes|, |methods|);
      var c := CompartmentLayout(cy + h / 2.0 - 0.5, 0.2, 0.25, 0.1, 0.1, attributes, methods);
      (forall i :: 0 <= i < |c.attrs| ==> cy - h / 2.0 < c.attrs[i].y < cy + h / 2.0 - 0.5) &&
      (forall j :: 0 <= j < |c.methods| ==> cy - h / 2.0 < c.methods[j].y < cy + h / 2.0 - 0.5) &&
      (|attributes| > 0 && |methods| > 0 ==> c.methods[|methods| - 1].y == cy - h / 2.0 + 0.45)
  {
    var h := ClassHeight(|attributes|, |methods|);
    var sep := cy + h / 2.0 - 0.5;
    var c := CompartmentLayout(sep, 0.2, 0.25, 0.1, 0.1, attributes, methods);
    var nA, nM := |attributes|, |methods|;
    CompartmentsSeparated(sep, 0.2, 0.25, 0.1, 0.1, attributes, methods);
    if nA > 0 {
      RowsWithin(sep - 0.2, 0.25, nA);
      assert 0.25 * ((nA - 1) as real) <= 0.25 * ((nA + nM) as real) - 0.25;
    }
    if nM > 0 {
      var start := if nA > 0 then sep - 0.2 - 0.25 * (nA as real) - 0.1 else sep - 0.2 - 0.25 * (nA as real);
      RowsWithin(start, 0.25, nM);
      assert 0.25 * (nA as real) + 0.25 * ((nM - 1) as real) == 0.25 * ((nA + nM) as real) - 0.25;
    }
  }

  /** Class lines use the centre rule, the label sits 0.1 above the
      midpoint and the arrow head is drawn only for the `-->` style. */
  function ClassLine(boxes: map<string, CentredBox>, from: string, to: string, style: string): (r: Option<(Segment, Point, bool)>)
    ensures r.Some? <==> from in boxes && to in boxes
    ensures r.Some? ==> Some(r.value.0) == Link(boxes, from, to, CentreRule)
    ensures r.Some? ==> r.value.1 == LabelPoint(r.value.0, 0.1) && (r.value.2 <==> style == "-->")
  {
    match Link(boxes, from, to, CentreRule)
    case Some(s) => Some((s, LabelPoint(s, 0.1), style == "-->"))
    case None => None
  }

  /** Between the same two boxes the ERD rule and the class rule draw the
      same line exactly when the boxes share a column or the horizontal
      offset dominates. */
  lemma ErdAndClassRulesAgree(boxes: map<string, CentredBox>, from: string, to: string, style: string)
    requires from in boxes && to in boxes
    ensures var a, b := boxes[from], boxes[to];
      ErdLine(boxes, Relationship(from, to, "")).value.0 == ClassLine(boxes, from, to, style).value.0
      <== a.cx == b.cx || Abs(a.cx - b.cx) > Abs(a.cy - b.cy)
    ensures var a, b := boxes[from], boxes[to];
      ErdLine(boxes, Relationship(from, to, "")).value.0 != ClassLine(boxes, from, to, style).value.0
      <== a.w > 0.0 && a.cx != b.cx && Abs(a.cx - b.cx) <= Abs(a.cy - b.cy)
  {
    var a, b := boxes[from], boxes[to];
    ColumnAgreesWithCentre(a, b);
    if a.w > 0.0 && a.cx != b.cx && Abs(a.cx - b.cx) <= Abs(a.cy - b.cy) {
      ColumnLineDiffers(a, b);
    }
  }

  // ----- component grid -----------------------------------------------------

  /** Component i of a layer: four per row, 3.8 apart from x = 2, rows 0.5
      apart from 0.8 under the layer's top; each box 3.6 wide and 0.4 high. */
  function ComponentBox(i: nat, layerY: real, layerHeight: real): (b: CornerBox)
    ensures b.w == 3.6 && b.h == 0.4
    ensures b.x == 2.0 + 3.8 * ((i % 4) as real)
    ensures b.y == layerY + layerHeight - 0.8 - 0.5 * ((i / 4) as real)
    ensures 2.0 <= b.x <= 13.4
    ensures b.y <= layerY + layerHeight - 0.8
  {
    GridBox(i, 4, 2.0, 3.8, layerY + layerHeight - 0.8, 0.5, 3.6, 0.4)
  }

  /** Components never overlap, and every one lies within the layer box's
      horizontal span from 1 to 17. */
  lemma ComponentsFit(i: nat, j: nat, layerY: real, layerHeight: real)
    ensures i != j ==> Disjoint(ComponentBox(i, layerY, layerHeight), ComponentBox(j, layerY, layerHeight))
    ensures 1.0 <= ComponentBox(i, layerY, layerHeight).x
    ensures ComponentBox(i, layerY, layerHeight).x + 3.6 <= 17.0
  {
    if i != j {
      GridBoxesDisjoint(i, j, 4, 2.0, 3.8, layerY + layerHeight - 0.8, 0.5, 3.6, 0.4);
    }
    var col := i % 4;
    assert col == 0 || col == 1 || col == 2 || col == 3;
  }
}
