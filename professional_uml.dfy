/**
 * professional_uml_class_diagram.py: one generator object that creates a
 * UML class diagram figure and saves it.  The class box rules (height,
 * compartment split, rows, truncation) are pure; the generator keeps the
 * figure in a field that `CreateDiagram` sets and `SaveDiagram` checks.
 * Boxes are corner-based `(x, y, w, h)`.
 */
module ProfessionalUml {
  import opened Geometry
  import opened Wrappers
  import opened Labels
  import opened BoxEdge
  import opened ClassSections
  import opened Connections
  import ProfessionalDissertation

  /** `len(items) * 2.2 + 2`, even for an empty list. */
  function SectionNeed(n: nat): (h: real)
    ensures h >= 2.0
  {
    2.2 * (n as real) + 2.0
  }

  /** `required_height = max(height, 4 + attr_height + method_height)`. */
  function RequiredHeight(given: real, nA: nat, nM: nat): (h: real)
    ensures h >= given && h >= 4.0 + SectionNeed(nA) + SectionNeed(nM)
    ensures h == given || h == 4.0 + SectionNeed(nA) + SectionNeed(nM)
  {
    Max(given, 4.0 + SectionNeed(nA) + SectionNeed(nM))
  }

  /** `final_height = max(height, required_height)`. */
  function FinalHeight(given: real, nA: nat, nM: nat): (h: real)
    ensures h >= given && h >= 4.0 + SectionNeed(nA) + SectionNeed(nM)
  {
    Max(given, RequiredHeight(given, nA, nM))
  }

  /** The second `max` adds nothing: the final height is the required
      height, and it is at least 8 even for a class with no members. */
  lemma SecondMaxAddsNothing(given: real, nA: nat, nM: nat)
    ensures FinalHeight(given, nA, nM) == RequiredHeight(given, nA, nM)
    ensures FinalHeight(given, nA, nM) >= 8.0
  {
  }

  /** The split of `final_height - 4` into an attribute and a method
      section. */
  function Sections(final: real, nA: nat, nM: nat): (s: (real, real))
    ensures s.0 + s.1 == final - 4.0
    ensures nA > 0 && nM > 0 ==> s.0 == 0.45 * (final - 4.0) && s.1 == 0.55 * (final - 4.0)
    ensures nA > 0 && nM == 0 ==> s.1 == 0.0
    ensures nA == 0 && nM > 0 ==> s.0 == 0.0
    ensures nA == 0 && nM == 0 ==> s.0 == s.1
  {
    var remaining := final - 4.0;
    if nA > 0 && nM > 0 then (remaining * 0.45, remaining * 0.55)
    else if nA > 0 then (remaining, 0.0)
    else if nM > 0 then (0.0, remaining)
    else (remaining * 0.5, remaining * 0.5)
  }

  /** The rows as written: attributes from `y + final_height - 4 - 1` down
      by 2.2, the methods divider at `y + method_height` (the method
      section), the methods from 1 below it. */
  function ClassBoxRows(y: real, given: real, nA: nat, nM: nat): (r: ClassRows)
    ensures |r.attrs| == nA && |r.methods| == nM
  {
    var final := FinalHeight(given, nA, nM);
    RowsFor(y, y + final - 4.0, Sections(final, nA, nM).1, 2.2, 1.0, nA, nM)
  }

  /** Row i of either compartment is 2.2 below row i - 1. */
  lemma ClassRowsDescend(y: real, given: real, nA: nat, nM: nat)
    ensures var r := ClassBoxRows(y, given, nA, nM);
      (forall i, j :: 0 <= i < j < nA ==> r.attrs[i] > r.attrs[j]) &&
      (forall i, j :: 0 <= i < j < nM ==> r.methods[i] > r.methods[j]) &&
      (forall i :: 0 < i < nA ==> r.attrs[i - 1] - r.attrs[i] == 2.2) &&
      (forall i :: 0 < i < nM ==> r.methods[i - 1] - r.methods[i] == 2.2)
  {
    var final := FinalHeight(given, nA, nM);
    var s := Sections(final, nA, nM);
    RowsDecrease(y + final - 4.0 - 1.0, 2.2, nA);
    RowsDecrease(if nA > 0 then y + s.1 - 1.0 else y + final - 4.0 - 1.0, 2.2, nM);
  }

  /** `text if len(text) <= 30 else text[:27] + "..."`. */
  function DisplayLine(s: string): (r: string)
    ensures |r| <= 30
    ensures |s| <= 30 ==> r == s
    ensures |s| > 30 ==> |r| == 30 && r[..27] == s[..27] && r[27..] == "..."
  {
    Truncate(s, 30, 27)
  }

  /** The fixed 0.45/0.55 split lets attribute rows run past the divider:
      User (8 attributes, 4 methods, given height 20) gets height 34.4 and
      a divider 16.72 above its bottom, while its last two attributes are
      written 16.2 and 14.0 above the bottom; the last sits between the
      first two method rows. */
  lemma UserAttributesCrossDivider(y: real)
    ensures var r := ClassBoxRows(y, 20.0, 8, 4);
      r.divider == Some(y + 16.72) && r.attrs[6] == y + 16.2 && r.attrs[7] == y + 14.0 &&
      r.methods[0] > r.attrs[7] > r.methods[1]
  {
    assert FinalHeight(20.0, 8, 4) == 34.4;
  }

  /** The evidently intended split, in proportion to what the rows need. */
  function ProportionalSections(final: real, nA: nat, nM: nat): (s: (real, real))
    ensures s.0 + s.1 == final - 4.0
    ensures nA > 0 && nM == 0 ==> s.1 == 0.0
    ensures nA == 0 && nM > 0 ==> s.0 == 0.0
    ensures nA > 0 && nM > 0 ==> s.0 * (SectionNeed(nA) + SectionNeed(nM)) == (final - 4.0) * SectionNeed(nA)
  {
    if nA > 0 && nM > 0 then ProportionalSplit(final - 4.0, SectionNeed(nA), SectionNeed(nM))
    else Sections(final, nA, nM)
  }

  function CorrectedClassBoxRows(y: real, given: real, nA: nat, nM: nat): (r: ClassRows)
    ensures |r.attrs| == nA && |r.methods| == nM
  {
    var final := FinalHeight(given, nA, nM);
    RowsFor(y, y + final - 4.0, ProportionalSections(final, nA, nM).1, 2.2, 1.0, nA, nM)
  }

  /** With the proportional split the compartments never overlap, whatever
      the given height. */
  lemma CorrectedRowsSeparated(y: real, given: real, nA: nat, nM: nat)
    requires nA > 0 && nM > 0
    ensures var r := CorrectedClassBoxRows(y, given, nA, nM);
      (forall i :: 0 <= i < nA ==> r.attrs[i] > r.divider.value) &&
      (forall j :: 0 <= j < nM ==> y < r.methods[j] < r.divider.value)
  {
    var final := FinalHeight(given, nA, nM);
    assert y + final - 4.0 - y == final - 4.0;
    ProportionalRowsSeparated(y, y + final - 4.0, 2.2, 1.0, 2.0, nA, nM);
  }

  /** The attributes and methods of a class; a missing entry has none. */
  datatype ClassDetails = ClassDetails(attributes: seq<string>, methods: seq<string>)

  /** `class_definitions.get(class_name, {})`. */
  function Details(defs: map<string, ClassDetails>, name: string): (d: ClassDetails)
    ensures name in defs ==> d == defs[name]
    ensures name !in defs ==> d == ClassDetails([], [])
  {
    if name in defs then defs[name] else ClassDetails([], [])
  }

  /** A drawn class box: its frame with the final height, its rows and the
      texts written on them. */
  datatype ClassBox = ClassBox(name: string, frame: CornerBox, rows: ClassRows,
                               attrLines: seq<string>, methodLines: seq<string>)

  /** `create_class_box`. */
  function DrawClassBox(name: string, given: CornerBox, d: ClassDetails): (b: ClassBox)
    ensures b.name == name && b.frame.x == given.x && b.frame.y == given.y && b.frame.w == given.w
    ensures b.frame.h >= given.h
    ensures |b.attrLines| == |b.rows.attrs| == |d.attributes|
    ensures |b.methodLines| == |b.rows.methods| == |d.methods|
    ensures forall i :: 0 <= i < |d.attributes| ==> b.attrLines[i] == DisplayLine(d.attributes[i])
    ensures forall i :: 0 <= i < |d.methods| ==> b.methodLines[i] == DisplayLine(d.methods[i])
  {
    var nA, nM := |d.attributes|, |d.methods|;
    ClassBox(name,
      CornerBox(given.x, given.y, given.w, FinalHeight(given.h, nA, nM)),
      ClassBoxRows(given.y, given.h, nA, nM),
      seq(nA, i requires 0 <= i < nA => DisplayLine(d.attributes[i])),
      seq(nM, i requires 0 <= i < nM => DisplayLine(d.methods[i])))
  }

  /** The boxes `create_diagram` draws, one per position, in order. */
  function DrawnBoxes(positions: seq<(string, CornerBox)>, defs: map<string, ClassDetails>): (r: seq<ClassBox>)
    ensures |r| == |positions|
    ensures forall i :: 0 <= i < |positions| ==>
      r[i] == DrawClassBox(positions[i].0, positions[i].1, Details(defs, positions[i].0))
  {
    seq(|positions|, i requires 0 <= i < |positions| =>
      DrawClassBox(positions[i].0, positions[i].1, Details(defs, positions[i].0)))
  }

  /** One relationship: `positions[a]` and `positions[b]` raise for a
      missing name; the line itself fails for coinciding centres.  The
      line is computed on the given boxes, not the grown ones. */
  function UmlLine(positions: map<string, CornerBox>, from: string, to: string): (r: Result<Segment>)
    ensures from !in positions || to !in positions ==> r.Failure?
    ensures from in positions && to in positions ==>
      r == ProfessionalDissertation.RelationshipLine(positions[from], positions[to])
  {
    if from !in positions then Failure("KeyError: " + from)
    else if to !in positions then Failure("KeyError: " + to)
    else ProfessionalDissertation.RelationshipLine(positions[from], positions[to])
  }

  /** The lines drawn before the first failing relationship, and that
      failure, if any. */
  function Lines(positions: map<string, CornerBox>, rels: seq<(string, string)>): (r: (seq<Segment>, Option<string>))
    ensures |r.0| <= |rels|
    ensures r.1.None? <==> forall i :: 0 <= i < |rels| ==> UmlLine(positions, rels[i].0, rels[i].1).Success?
    ensures r.1.None? ==> |r.0| == |rels|
    ensures r.1.None? ==> forall i :: 0 <= i < |rels| ==> r.0[i] == UmlLine(positions, rels[i].0, rels[i].1).value
  {
    if |rels| == 0 then ([], None)
    else
      match UmlLine(positions, rels[0].0, rels[0].1)
      case Failure(msg) => ([], Some(msg))
      case Success(s) =>
        var rest := Lines(positions, rels[1..]);
        assert forall i :: 1 <= i < |rels| ==> rels[1..][i - 1] == rels[i];
        ([s] + rest.0, rest.1)
  }

  /** What the figure shows: its size, the class boxes and the lines. */
  datatype Figure = Figure(size: (real, real), boxes: seq<ClassBox>, lines: seq<Segment>)

  /** The base name `main` saves under. */
  const MainBase: string := "pentagon_gym_professional_uml_class"

  /** The base name `save_diagram` uses when none is given. */
  const DefaultBase: string := "professional_uml_class_diagram"

  /** The generator: a figure size and the figure, absent until the
      diagram is created. */
  class ProfessionalUmlClassDiagram {
    const figsize: (real, real)
    var fig: Option<Figure>

    constructor(figsize: (real, real))
      ensures this.figsize == figsize && fig == None
    {
      this.figsize := figsize;
      fig := None;
    }

    /** `create_diagram`: the figure is set before anything is drawn, so it
        is set even when a relationship then raises. */
    method CreateDiagram(positions: seq<(string, CornerBox)>, defs: map<string, ClassDetails>,
                         rels: seq<(string, string)>) returns (r: Result<Figure>)
      modifies this
      ensures fig.Some? && fig.value.size == figsize
      ensures fig.value.boxes == DrawnBoxes(positions, defs)
      ensures fig.value.lines == Lines(LastWins(positions), rels).0
      ensures r.Success? <==> Lines(LastWins(positions), rels).1.None?
      ensures r.Success? ==> r.value == fig.value
      ensures r.Failure? ==> r.message == Lines(LastWins(positions), rels).1.value
    {
      var boxes: seq<ClassBox> := [];
      var i := 0;
      while i < |positions|
        invariant 0 <= i <= |positions|
        invariant boxes == DrawnBoxes(positions[..i], defs)
      {
        boxes := boxes + [DrawClassBox(positions[i].0, positions[i].1, Details(defs, positions[i].0))];
        i := i + 1;
      }
      assert positions[..|positions|] == positions;
      var drawn := Lines(LastWins(positions), rels);
      fig := Some(Figure(figsize, boxes, drawn.0));
      r := if drawn.1.None? then Success(fig.value) else Failure(drawn.1.value);
    }

    /** `save_diagram`: an error before the figure exists, else the PNG and
        PDF names under `base`, `DefaultBase` when none is given. */
    method SaveDiagram(base: string := DefaultBase) returns (r: Result<(string, string)>)
      ensures fig.None? ==> r.Failure?
      ensures fig.Some? ==> r.Success? && r.value.0 == base + ".png" && r.value.1 == base + ".pdf"
    {
      if fig.None? {
        r := Failure("Diagram not created. Call create_diagram() first.");
      } else {
        r := Success((base + ".png", base + ".pdf"));
      }
    }
  }

  /** `main`: create, then save under the project's own base name. Nothing
      guards the creation, so an error raised while drawing a relationship
      ends `main` before anything is saved. */
  method GenerateAndSave(positions: seq<(string, CornerBox)>, defs: map<string, ClassDetails>,
               rels: seq<(string, string)>) returns (files: Result<(string, string)>)
    ensures files.Success? <==> Lines(LastWins(positions), rels).1.None?
    ensures files.Failure? ==> files.message == Lines(LastWins(positions), rels).1.value
    ensures files.Success? ==> files.value == (MainBase + ".png", MainBase + ".pdf")
  {
    var generator := new ProfessionalUmlClassDiagram((28.0, 20.0));
    var r := generator.CreateDiagram(positions, defs, rels);
    if r.Failure? {
      return Failure(r.message);
    }
    files := generator.SaveDiagram(MainBase);
  }

  /** Saving before creating always fails. */
  method SaveBeforeCreate(base: string) returns (r: Result<(string, string)>)
    ensures r.Failure?
  {
    var generator := new ProfessionalUmlClassDiagram((28.0, 20.0));
    r := generator.SaveDiagram(base);
  }
}
