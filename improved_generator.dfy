/**
 * improved_diagram_generator.py: centre-based entity and class boxes
 * registered by name, relationship lines between them, the attribute and
 * compartment text rows, the component grid of the architecture diagram
 * and the list of generated files.
 */
module ImprovedGenerator {
  import opened Geometry
  import opened Wrappers
  import opened Labels
  import opened Connections
  import opened TextRows

  // ----- ERD ----------------------------------------------------------------

  /** An attribute row is highlighted (and bold) for a primary or foreign key. */
  predicate Highlighted(kind: string) {
    kind == "PK" || kind == "FK"
  }

  /** The attribute rows of an entity: from `y + height/2 - 0.9` down by
      0.25, each the attribute's `name (type)` label. */
  function EntityLines(box: CentredBox, attributes: seq<(string, string)>): (r: seq<Placed>)
    ensures |r| == |attributes|
    ensures forall i :: 0 <= i < |r| ==> r[i].text == AttributeLabel(attributes[i].0, attributes[i].1)
    ensures forall i :: 0 <= i < |r| ==> r[i].y == box.cy + box.h / 2.0 - 0.9 - 0.25 * (i as real)
  {
    Placement(box.cy + box.h / 2.0 - 0.9, 0.25,
      seq(|attributes|, i requires 0 <= i < |attributes| => AttributeLabel(attributes[i].0, attributes[i].1)))
  }

  /** Every row reads back as the attribute it shows, when names have no '('. */
  lemma EntityLinesReadBack(box: CentredBox, attributes: seq<(string, string)>)
    requires forall i :: 0 <= i < |attributes| ==> NoOpen(attributes[i].0)
    ensures forall i :: 0 <= i < |attributes| ==> SplitLabel(EntityLines(box, attributes)[i].text) == attributes[i]
  {
    forall i | 0 <= i < |attributes|
      ensures SplitLabel(EntityLines(box, attributes)[i].text) == attributes[i]
    {
      SplitLabelRoundTrip(attributes[i].0, attributes[i].1);
    }
  }

  /** The rows sit under the name line (0.6 below the top) and stay inside
      the box exactly when its height exceeds 0.9 + 0.25 * (n - 1). */
  lemma EntityLinesInBox(box: CentredBox, attributes: seq<(string, string)>)
    requires |attributes| > 0
    ensures var r := EntityLines(box, attributes);
      forall i :: 0 <= i < |r| ==> r[i].y < box.cy + box.h / 2.0 - 0.6
    ensures var r := EntityLines(box, attributes);
      (forall i :: 0 <= i < |r| ==> r[i].y > box.cy - box.h / 2.0) <==>
      box.h > 0.9 + 0.25 * ((|attributes| - 1) as real)
  {
    var r := EntityLines(box, attributes);
    var n := |attributes|;
    forall i | 0 <= i < n ensures r[i].y <= r[0].y {
      assert 0.25 * (i as real) >= 0.0;
    }
    forall i | 0 <= i < n ensures r[i].y >= r[n - 1].y {
      assert 0.25 * ((n - 1) as real) - 0.25 * (i as real) == 0.25 * ((n - 1 - i) as real);
    }
  }

  /** The ERD's relationship lines use the offset rule; the cardinality
      label sits 0.2 above the line's midpoint. */
  function ErdLine(boxes: map<string, CentredBox>, rel: Relationship): (r: Option<(Segment, Point)>)
    ensures r.Some? <==> rel.from in boxes && rel.to in boxes
    ensures r.Some? ==> Some(r.value.0) == Link(boxes, rel.from, rel.to, OffsetRule)
    ensures r.Some? ==> r.value.1 == LabelPoint(r.value.0, 0.2)
  {
    match Link(boxes, rel.from, rel.to, OffsetRule)
    case Some(s) => Some((s, LabelPoint(s, 0.2)))
    case None => None
  }

  /** With centres that differ, the ERD line leaves the side of the first
      box that faces the second and enters the facing side of the second:
      for a dominant horizontal offset the start is `(x1 +- w1/2, y1)` and
      the end `(x2 -+ w2/2, y2)`. */
  lemma ErdLineFacing(boxes: map<string, CentredBox>, rel: Relationship)
    requires rel.from in boxes && rel.to in boxes
    requires !SameCentre(boxes[rel.from], boxes[rel.to])
    ensures var a, b := boxes[rel.from], boxes[rel.to];
      var s := ErdLine(boxes, rel).value.0;
      var dx, dy := b.cx - a.cx, b.cy - a.cy;
      (Abs(dx) > Abs(dy) && dx > 0.0 ==> s == Segment(Point(a.cx + a.w / 2.0, a.cy), Point(b.cx - b.w / 2.0, b.cy))) &&
      (Abs(dx) > Abs(dy) && dx < 0.0 ==> s == Segment(Point(a.cx - a.w / 2.0, a.cy), Point(b.cx + b.w / 2.0, b.cy))) &&
      (Abs(dx) <= Abs(dy) && dy > 0.0 ==> s == Segment(Point(a.cx, a.cy + a.h / 2.0), Point(b.cx, b.cy - b.h / 2.0))) &&
      (Abs(dx) <= Abs(dy) && dy < 0.0 ==> s == Segment(Point(a.cx, a.cy - a.h / 2.0), Point(b.cx, b.cy + b.h / 2.0)))
  {
  }

  // ----- class diagram ------------------------------------------------------

  /** A class relationship: the line and label always, the arrow head only
      for the `-->` style. */
  datatype ClassLink = ClassLink(line: Segment, arrow: bool, labelAt: Point, text: string)

  function ClassLine(boxes: map<string, CentredBox>, from: string, to: string, text: string, style: string): (r: Option<ClassLink>)
    ensures r.Some? <==> from in boxes && to in boxes
    ensures r.Some? ==> Some(r.value.line) == Link(boxes, from, to, CentreRule)
    ensures r.Some? ==> r.value.labelAt == LabelPoint(r.value.line, 0.15) && r.value.text == text
    ensures r.Some? ==> (r.value.arrow <==> style == "-->")
  {
    match Link(boxes, from, to, CentreRule)
    case Some(s) => Some(ClassLink(s, style == "-->", LabelPoint(s, 0.15), text))
    case None => None
  }

  /** The class rule draws the same line as the ERD rule for every pair of
      boxes with different centres; for coinciding centres they differ. */
  lemma ClassLineMatchesErdLine(boxes: map<string, CentredBox>, from: string, to: string, text: string, style: string)
    requires from in boxes && to in boxes
    ensures ClassLine(boxes, from, to, text, style).value.line == ErdLine(boxes, Relationship(from, to, text)).value.0
      <==> !SameCentre(boxes[from], boxes[to]) || (boxes[from].h == 0.0 && boxes[to].h == 0.0)
  {
    var a, b := boxes[from], boxes[to];
    OffsetAgreesWithCentre(a, b);
    if SameCentre(a, b) {
      assert OffsetSides(a, b) == Choice(Bottom, Top) && CentreSides(a, b) == Choice(Top, Bottom);
    }
  }

  /** The compartments of a class box: the separator 0.8 under the top,
      attributes from 0.25 under it every 0.3, a divider 0.15 above the
      row after the last attribute, methods from 0.1 lower every 0.3. */
  method ClassCompartments(box: CentredBox, attributes: seq<string>, methods: seq<string>)
    returns (c: Compartments)
    ensures c == CompartmentLayout(box.cy + box.h / 2.0 - 0.8, 0.25, 0.3, 0.15, 0.1, attributes, methods)
    ensures forall i, j :: 0 <= i < |c.attrs| && 0 <= j < |c.methods| ==> c.attrs[i].y > c.methods[j].y
    ensures c.divider.Some? ==>
      (forall i :: 0 <= i < |c.attrs| ==> c.attrs[i].y > c.divider.value) &&
      (forall j :: 0 <= j < |c.methods| ==> c.methods[j].y < c.divider.value)
  {
    c := StackCompartments(box.cy + box.h / 2.0 - 0.8, 0.25, 0.3, 0.15, 0.1, attributes, methods);
    CompartmentsSeparated(box.cy + box.h / 2.0 - 0.8, 0.25, 0.3, 0.15, 0.1, attributes, methods);
  }

  /** With both compartments filled, the last method row stays inside the
      box exactly when its height exceeds 0.85 + 0.3 * (attributes +
      methods); the fixed table sizes do not guarantee it. */
  lemma ClassRowsInBox(box: CentredBox, attributes: seq<string>, methods: seq<string>)
    requires |attributes| > 0 && |methods| > 0
    ensures var c := CompartmentLayout(box.cy + box.h / 2.0 - 0.8, 0.25, 0.3, 0.15, 0.1, attributes, methods);
      c.methods[|methods| - 1].y > box.cy - box.h / 2.0 <==>
      box.h > 0.85 + 0.3 * ((|attributes| + |methods|) as real)
  {
    var nA, nM := |attributes| as real, |methods| as real;
    assert 0.3 * nA + 0.3 * (nM - 1.0) == 0.3 * (nA + nM) - 0.3;
  }

  /** AuthController (height 2.5, 2 attributes, 4 methods) writes its last
      method below its own bottom edge. */
  lemma AuthControllerOverflows(cx: real, cy: real, attributes: seq<string>, methods: seq<string>)
    requires |attributes| == 2 && |methods| == 4
    ensures var box := CentredBox(cx, cy, 4.0, 2.5);
      var c := CompartmentLayout(box.cy + box.h / 2.0 - 0.8, 0.25, 0.3, 0.15, 0.1, attributes, methods);
      c.methods[3].y < box.cy - box.h / 2.0
  {
    ClassRowsInBox(CentredBox(cx, cy, 4.0, 2.5), attributes, methods);
  }

  // ----- component grid -----------------------------------------------------

  /** Component i of a layer at `(1, y)` with height `height`: three per
      row, 5.8 apart, rows 0.6 apart from 1.2 under the layer's top; each
      box 5.5 wide and 0.5 high. */
  function ComponentBox(i: nat, layerY: real, layerHeight: real): (b: CornerBox)
    ensures b.w == 5.5 && b.h == 0.5
    ensures b.x == 2.0 + 5.8 * ((i % 3) as real)
    ensures b.y == layerY + layerHeight - 1.2 - 0.6 * ((i / 3) as real)
    ensures b.x == 2.0 || b.x == 7.8 || b.x == 13.6
    ensures b.y <= layerY + layerHeight - 1.2
  {
    GridBox(i, 3, 2.0, 5.8, layerY + layerHeight - 1.2, 0.6, 5.5, 0.5)
  }

  /** Two components of one layer never overlap. */
  lemma ComponentsDisjoint(i: nat, j: nat, layerY: real, layerHeight: real)
    requires i != j
    ensures Disjoint(ComponentBox(i, layerY, layerHeight), ComponentBox(j, layerY, layerHeight))
  {
    GridBoxesDisjoint(i, j, 3, 2.0, 5.8, layerY + layerHeight - 1.2, 0.6, 5.5, 0.5);
  }

  /** The layer box spans x from 1 to 19, but a third-column component
      ends at 19.1. */
  lemma ThirdColumnOverhang(layerY: real, layerHeight: real)
    ensures ComponentBox(2, layerY, layerHeight).x + 5.5 == 19.1
    ensures forall i: nat :: ComponentBox(i, layerY, layerHeight).x >= 1.0
  {
  }

  // ----- generating all diagrams ----------------------------------------------

  /** The four generators, in the order they run. */
  datatype Stage = Erd | Architecture | ClassDiagram | SequenceDiagram

  /** The PNG path a generator returns. */
  function PngPath(dir: string, stem: string): (p: string)
    ensures StartsWith(p, dir + "/pentagon_gym_") && EndsWith(p, ".png")
  {
    dir + "/pentagon_gym_" + stem + ".png"
  }

  const OutputDir: string := "dissertation_diagrams"

  /** `generate_all_diagrams`: each generator's path is appended in turn;
      any exception (`failing` names the generator that raises) discards
      the list and returns `[]`. */
  method GenerateAll(dir: string, failing: Option<Stage>) returns (files: seq<string>)
    ensures failing.None? ==>
      files == [PngPath(dir, "erd"), PngPath(dir, "system_architecture"), PngPath(dir, "class_diagram"),
       PngPath(dir, "sequence_diagram")]
    ensures failing.Some? ==> files == []
  {
    files := [];
    if failing == Some(Erd) { return []; }
    files := files + [PngPath(dir, "erd")];
    if failing == Some(Architecture) { return []; }
    files := files + [PngPath(dir, "system_architecture")];
    if failing == Some(ClassDiagram) { return []; }
    files := files + [PngPath(dir, "class_diagram")];
    if failing == Some(SequenceDiagram) { return []; }
    assert failing.None? by {
      if failing.Some? {
        match failing.value
        case Erd =>
        case Architecture =>
        case ClassDiagram =>
        case SequenceDiagram =>
      }
    }
    files := files + [PngPath(dir, "sequence_diagram")];
  }

  /** `main` exits with status 1 exactly when no file was generated. */
  function ExitCode(files: seq<string>): (code: int)
    ensures code == 0 || code == 1
    ensures code == 1 <==> files == []
  {
    if files == [] then 1 else 0
  }

  /** A run exits with 0 exactly when no generator raises, and then
      reports four files. */
  method Run(failing: Option<Stage>) returns (code: int, files: seq<string>)
    ensures code == 0 <==> failing.None?
    ensures code == 0 ==> |files| == 4
  {
    files := GenerateAll(OutputDir, failing);
    code := ExitCode(files);
  }
}
