/**
 * The text-row loops of the class and entity boxes: a running `current_y`
 * that starts below a header, is written at, and is lowered by a fixed
 * step after every line; in the class boxes of improved_diagram_generator.py
 * and diagram_generator.py, a divider between the attribute and method
 * compartments when both are non-empty.
 */
module TextRows {
  import opened Geometry
  import opened Wrappers

  /** One line of text and the height it is written at. */
  datatype Placed = Placed(y: real, text: string)

  /** The i-th line sits at start - step * i. */
  function Placement(start: real, step: real, lines: seq<string>): (r: seq<Placed>)
    ensures |r| == |lines|
    ensures forall i :: 0 <= i < |lines| ==> r[i] == Placed(Rows(start, step, |lines|)[i], lines[i])
  {
    seq(|lines|, i requires 0 <= i < |lines| => Placed(start - step * (i as real), lines[i]))
  }

  /** `y = start; for line in lines: text(y, line); y -= step`; also
      returns the y the loop ends with. */
  method PlaceLines(start: real, step: real, lines: seq<string>) returns (placed: seq<Placed>, next: real)
    ensures placed == Placement(start, step, lines)
    ensures next == start - step * (|lines| as real)
  {
    placed := [];
    next := start;
    var i := 0;
    while i < |lines|
      invariant 0 <= i <= |lines|
      invariant placed == Placement(start, step, lines[..i])
      invariant next == start - step * (i as real)
    {
      PlacementSnoc(start, step, lines, i);
      placed := placed + [Placed(next, lines[i])];
      assert step * ((i + 1) as real) == step * (i as real) + step;
      next := next - step;
      i := i + 1;
    }
    assert lines[..|lines|] == lines;
  }

  /** Placing one more line appends it one step further down. */
  lemma PlacementSnoc(start: real, step: real, lines: seq<string>, i: nat)
    requires i < |lines|
    ensures Placement(start, step, lines[..i + 1]) ==
      Placement(start, step, lines[..i]) + [Placed(start - step * (i as real), lines[i])]
  {
    var longer, shorter := Placement(start, step, lines[..i + 1]), Placement(start, step, lines[..i]);
    assert forall k :: 0 <= k < i ==> longer[k] == shorter[k];
  }

  /** The lines of a placement, read back, are the lines placed, and their
      heights strictly decrease when the step is positive. */
  lemma PlacementOrdered(start: real, step: real, lines: seq<string>)
    requires step > 0.0
    ensures forall i :: 0 <= i < |lines| ==> Placement(start, step, lines)[i].text == lines[i]
    ensures forall i, j :: 0 <= i < j < |lines| ==>
      Placement(start, step, lines)[i].y > Placement(start, step, lines)[j].y
  {
    RowsDecrease(start, step, |lines|);
  }

  /** Both compartments of a class box and the divider between them. */
  datatype Compartments = Compartments(attrs: seq<Placed>, divider: Option<real>, methods: seq<Placed>)

  /** Attribute lines from `separator - gap` down by `step`; when both
      lists are non-empty a divider `lift` above the height after the last
      attribute, and the methods starting `drop` lower; the method lines
      then continue down by `step`. */
  function CompartmentLayout(separator: real, gap: real, step: real, lift: real, drop: real,
                             attrs: seq<string>, methods: seq<string>): (c: Compartments)
    ensures (c.divider.Some?) <==> |attrs| > 0 && |methods| > 0
    ensures |c.attrs| == |attrs| && |c.methods| == |methods|
  {
    var after := separator - gap - step * (|attrs| as real);
    var both := |attrs| > 0 && |methods| > 0;
    Compartments(
      Placement(separator - gap, step, attrs),
      if both then Some(after + lift) else None,
      Placement(if both then after - drop else after, step, methods))
  }

  /** The compartment loop of a class box. */
  method StackCompartments(separator: real, gap: real, step: real, lift: real, drop: real,
                           attrs: seq<string>, methods: seq<string>) returns (c: Compartments)
    ensures c == CompartmentLayout(separator, gap, step, lift, drop, attrs, methods)
  {
    var a, y := PlaceLines(separator - gap, step, attrs);
    var divider: Option<real> := None;
    if |attrs| > 0 && |methods| > 0 {
      divider := Some(y + lift);
      y := y - drop;
    }
    var m, _ := PlaceLines(y, step, methods);
    c := Compartments(a, divider, m);
  }

  /** With a positive step, lift below the step and a positive lift + drop, every attribute
      line is above the divider, every method line below it, and every
      attribute line above every method line. */
  lemma CompartmentsSeparated(separator: real, gap: real, step: real, lift: real, drop: real,
                              attrs: seq<string>, methods: seq<string>)
    requires step > 0.0 && step > lift && lift + drop > 0.0 && drop >= 0.0
    ensures var c := CompartmentLayout(separator, gap, step, lift, drop, attrs, methods);
      forall i, j :: 0 <= i < |c.attrs| && 0 <= j < |c.methods| ==> c.attrs[i].y > c.methods[j].y
    ensures var c := CompartmentLayout(separator, gap, step, lift, drop, attrs, methods);
      c.divider.Some? ==>
        (forall i :: 0 <= i < |c.attrs| ==> c.attrs[i].y > c.divider.value) &&
        (forall j :: 0 <= j < |c.methods| ==> c.methods[j].y < c.divider.value)
  {
    var c := CompartmentLayout(separator, gap, step, lift, drop, attrs, methods);
    var after := separator - gap - step * (|attrs| as real);
    var ms := if c.divider.Some? then after - drop else after;
    RowsAboveNext(separator - gap, step, |attrs|);
    RowsAtMost(ms, step, |methods|);
    assert forall i :: 0 <= i < |c.attrs| ==> c.attrs[i].y >= after + step;
    assert forall j :: 0 <= j < |c.methods| ==> c.methods[j].y <= ms;
    OrderedAround(c, after, step, lift, drop);
  }

  /** The ordering argument on its own: attribute lines at least a step
      above `after`, method lines at or below where they start, and the
      divider `lift` above `after`. */
  lemma OrderedAround(c: Compartments, after: real, step: real, lift: real, drop: real)
    requires step > 0.0 && step > lift && lift + drop > 0.0 && drop >= 0.0
    requires c.divider.Some? ==> c.divider.value == after + lift
    requires forall i :: 0 <= i < |c.attrs| ==> c.attrs[i].y >= after + step
    requires forall j :: 0 <= j < |c.methods| ==>
      c.methods[j].y <= (if c.divider.Some? then after - drop else after)
    ensures forall i, j :: 0 <= i < |c.attrs| && 0 <= j < |c.methods| ==> c.attrs[i].y > c.methods[j].y
    ensures c.divider.Some? ==>
      (forall i :: 0 <= i < |c.attrs| ==> c.attrs[i].y > c.divider.value) &&
      (forall j :: 0 <= j < |c.methods| ==> c.methods[j].y < c.divider.value)
  {
    var ms := if c.divider.Some? then after - drop else after;
    forall i, j | 0 <= i < |c.attrs| && 0 <= j < |c.methods| ensures c.attrs[i].y > c.methods[j].y {
      assert c.attrs[i].y >= after + step && c.methods[j].y <= ms <= after;
    }
  }
}
