/**
 * Choosing where a relationship line meets two centre-based boxes.  The
 * scripts write the choice inline in their relationship loops, with three
 * different rules:
 *   - the offset rule of improved_diagram_generator.py's ERD;
 *   - the centre-comparison rule of the class diagrams of
 *     improved_diagram_generator.py and diagram_generator.py and of both
 *     academic_diagram_generator.py loops;
 *   - the column rule of diagram_generator.py's ERD.
 * A line runs from the midpoint of one side of the first box to the
 * midpoint of one side of the second.
 */
module Connections {
  import opened Geometry
  import opened Wrappers

  /** The side of the first box the line leaves and the side of the
      second box it enters. */
  datatype Choice = Choice(from: Side, to: Side)

  predicate Horizontal(s: Side) {
    s == Left || s == Right
  }

  predicate SameCentre(a: CentredBox, b: CentredBox) {
    a.cx == b.cx && a.cy == b.cy
  }

  /** Side s of box a looks toward the centre of box b. */
  predicate Faces(a: CentredBox, s: Side, b: CentredBox) {
    match s
    case Right => b.cx > a.cx
    case Left => b.cx < a.cx
    case Top => b.cy > a.cy
    case Bottom => b.cy < a.cy
  }

  /** The offset rule: dx = x2 - x1, dy = y2 - y1; horizontal when
      |dx| > |dy|, then by the sign of dx, else by the sign of dy. */
  function OffsetSides(a: CentredBox, b: CentredBox): (c: Choice)
    ensures c.to == Opposite(c.from)
    ensures Horizontal(c.from) <==> Abs(b.cx - a.cx) > Abs(b.cy - a.cy)
    ensures !SameCentre(a, b) ==> Faces(a, c.from, b) && Faces(b, c.to, a)
  {
    var dx, dy := b.cx - a.cx, b.cy - a.cy;
    if Abs(dx) > Abs(dy) then
      if dx > 0.0 then Choice(Right, Left) else Choice(Left, Right)
    else
      if dy > 0.0 then Choice(Top, Bottom) else Choice(Bottom, Top)
  }

  /** The centre-comparison rule: horizontal when |x1 - x2| > |y1 - y2|,
      then by x1 < x2, else by y1 > y2. */
  function CentreSides(a: CentredBox, b: CentredBox): (c: Choice)
    ensures c.to == Opposite(c.from)
    ensures Horizontal(c.from) <==> Abs(a.cx - b.cx) > Abs(a.cy - b.cy)
    ensures !SameCentre(a, b) ==> Faces(a, c.from, b) && Faces(b, c.to, a)
  {
    if Abs(a.cx - b.cx) > Abs(a.cy - b.cy) then
      if a.cx < b.cx then Choice(Right, Left) else Choice(Left, Right)
    else
      if a.cy > b.cy then Choice(Bottom, Top) else Choice(Top, Bottom)
  }

  /** The column rule: horizontal whenever x1 != x2; vertical only for
      boxes in the same column. */
  function ColumnSides(a: CentredBox, b: CentredBox): (c: Choice)
    ensures c.to == Opposite(c.from)
    ensures Horizontal(c.from) <==> a.cx != b.cx
    ensures !SameCentre(a, b) ==> Faces(a, c.from, b) && Faces(b, c.to, a)
  {
    if a.cx < b.cx then Choice(Right, Left)
    else if a.cx > b.cx then Choice(Left, Right)
    else if a.cy > b.cy then Choice(Bottom, Top)
    else Choice(Top, Bottom)
  }

  /** The line for a choice of sides. */
  function Connect(a: CentredBox, b: CentredBox, c: Choice): (s: Segment)
    ensures a.w >= 0.0 && a.h >= 0.0 ==> a.Corner().OnBoundary(s.start)
    ensures b.w >= 0.0 && b.h >= 0.0 ==> b.Corner().OnBoundary(s.end)
  {
    Segment(EdgeMid(a, c.from), EdgeMid(b, c.to))
  }

  /** The offset rule and the centre-comparison rule choose the same sides
      exactly when the centres differ; for coinciding centres the offset
      rule goes down from the first box and the other rule up. */
  lemma OffsetAgreesWithCentre(a: CentredBox, b: CentredBox)
    ensures OffsetSides(a, b) == CentreSides(a, b) <==> !SameCentre(a, b)
  {
    assert Abs(b.cx - a.cx) == Abs(a.cx - b.cx) && Abs(b.cy - a.cy) == Abs(a.cy - b.cy);
  }

  /** Swapping the boxes reverses the line of the centre-comparison rule,
      as long as the centres differ. */
  lemma CentreSidesSymmetric(a: CentredBox, b: CentredBox)
    requires !SameCentre(a, b)
    ensures CentreSides(b, a) == Choice(CentreSides(a, b).to, CentreSides(a, b).from)
    ensures Connect(b, a, CentreSides(b, a)) == Connect(a, b, CentreSides(a, b)).Reversed()
  {
    assert Abs(b.cx - a.cx) == Abs(a.cx - b.cx) && Abs(b.cy - a.cy) == Abs(a.cy - b.cy);
  }

  /** The column rule agrees with the centre-comparison rule exactly when
      the boxes share a column or the horizontal offset dominates. */
  lemma ColumnAgreesWithCentre(a: CentredBox, b: CentredBox)
    ensures ColumnSides(a, b) == CentreSides(a, b) <==>
      a.cx == b.cx || Abs(a.cx - b.cx) > Abs(a.cy - b.cy)
  {
  }

  /** Where the two rules disagree, the lines differ for every box of
      positive width: the column rule starts on a vertical side. */
  lemma ColumnLineDiffers(a: CentredBox, b: CentredBox)
    requires a.w > 0.0 && a.cx != b.cx && Abs(a.cx - b.cx) <= Abs(a.cy - b.cy)
    ensures Connect(a, b, ColumnSides(a, b)).start != Connect(a, b, CentreSides(a, b)).start
  {
  }

  datatype Rule = OffsetRule | CentreRule | ColumnRule

  function Sides(rule: Rule, a: CentredBox, b: CentredBox): (c: Choice)
    ensures c.to == Opposite(c.from)
    ensures !SameCentre(a, b) ==> Faces(a, c.from, b) && Faces(b, c.to, a)
  {
    match rule
    case OffsetRule => OffsetSides(a, b)
    case CentreRule => CentreSides(a, b)
    case ColumnRule => ColumnSides(a, b)
  }

  /** One relationship: `if name1 in boxes and name2 in boxes`, then the
      line between the two registered boxes; otherwise nothing is drawn. */
  function Link(boxes: map<string, CentredBox>, from: string, to: string, rule: Rule): (r: Option<Segment>)
    ensures r.Some? <==> from in boxes && to in boxes
    ensures r.Some? && boxes[from].w >= 0.0 && boxes[from].h >= 0.0 ==>
      boxes[from].Corner().OnBoundary(r.value.start)
    ensures r.Some? && boxes[to].w >= 0.0 && boxes[to].h >= 0.0 ==>
      boxes[to].Corner().OnBoundary(r.value.end)
  {
    if from in boxes && to in boxes then
      Some(Connect(boxes[from], boxes[to], Sides(rule, boxes[from], boxes[to])))
    else
      None
  }

  /** A relationship: its two box names and its label text. */
  datatype Relationship = Relationship(from: string, to: string, text: string)

  /** The lines a relationship loop draws, in order, skipping every
      relationship with an unregistered endpoint. */
  function Links(boxes: map<string, CentredBox>, rels: seq<Relationship>, rule: Rule): (r: seq<Segment>)
    ensures |r| <= |rels|
    ensures LinksOf(boxes, rels, rule, r)
  {
    var links := seq(|rels|, j requires 0 <= j < |rels| => Link(boxes, rels[j].from, rels[j].to, rule));
    LinksFromAttempts(boxes, rels, rule, links);
    Somes(links)
  }

  lemma {:induction false} LinksFromAttempts(boxes: map<string, CentredBox>, rels: seq<Relationship>, rule: Rule, links: seq<Option<Segment>>)
    requires |links| == |rels|
    requires forall j :: 0 <= j < |rels| ==> links[j] == Link(boxes, rels[j].from, rels[j].to, rule)
    ensures LinksOf(boxes, rels, rule, Somes(links))
  {
    var r := Somes(links);
    forall k | 0 <= k < |r|
      ensures exists j :: 0 <= j < |rels| && Link(boxes, rels[j].from, rels[j].to, rule) == Some(r[k])
    {
      var j :| 0 <= j < |links| && links[j] == Some(r[k]);
      assert links[j] == Link(boxes, rels[j].from, rels[j].to, rule);
    }
    forall j | 0 <= j < |rels| && rels[j].from in boxes && rels[j].to in boxes
      ensures Link(boxes, rels[j].from, rels[j].to, rule).value in r
    {
      assert links[j].Some?;
    }
    if forall i :: 0 <= i < |rels| ==> rels[i].from in boxes && rels[i].to in boxes {
      assert forall j :: 0 <= j < |links| ==> links[j].Some?;
    }
  }

  /** `r` is what a relationship loop draws over `rels`: every line is the
      line of some relationship, every relationship with both ends
      registered has its line drawn, and when every end is registered the
      k-th line is the k-th relationship's. */
  ghost predicate LinksOf(boxes: map<string, CentredBox>, rels: seq<Relationship>, rule: Rule, r: seq<Segment>) {
    (forall k :: 0 <= k < |r| ==>
      exists j :: 0 <= j < |rels| && Link(boxes, rels[j].from, rels[j].to, rule) == Some(r[k])) &&
    (forall j :: 0 <= j < |rels| && rels[j].from in boxes && rels[j].to in boxes ==>
      Link(boxes, rels[j].from, rels[j].to, rule).value in r) &&
    ((forall i :: 0 <= i < |rels| ==> rels[i].from in boxes && rels[i].to in boxes) ==>
      |r| == |rels| && forall k :: 0 <= k < |r| ==> Some(r[k]) == Link(boxes, rels[k].from, rels[k].to, rule))
  }

  /** The values of the present entries, in order. */
  function Somes<T>(xs: seq<Option<T>>): (r: seq<T>)
    ensures |r| <= |xs|
    ensures forall k :: 0 <= k < |r| ==> Some(r[k]) in xs
    ensures forall j :: 0 <= j < |xs| && xs[j].Some? ==> xs[j].value in r
    ensures (forall j :: 0 <= j < |xs| ==> xs[j].Some?) ==>
      |r| == |xs| && forall k :: 0 <= k < |r| ==> xs[k] == Some(r[k])
  {
    if |xs| == 0 then []
    else
      var rest := Somes(xs[1..]);
      assert forall j :: 1 <= j < |xs| ==> xs[1..][j - 1] == xs[j];
      if xs[0].Some? then [xs[0].value] + rest else rest
  }

  /** Where a relationship's label goes: the midpoint of its line, raised
      by `lift`. */
  function LabelPoint(s: Segment, lift: real): (p: Point)
    ensures p.x - s.start.x == s.end.x - p.x
    ensures (p.y - lift) - s.start.y == s.end.y - (p.y - lift)
  {
    var m := Midpoint(s);
    Point(m.x, m.y + lift)
  }

  /** Python's `d[k] = v` over a list of entries, in order: a later entry
      for the same name replaces an earlier one. */
  function LastWins<V>(entries: seq<(string, V)>): (m: map<string, V>)
    ensures m.Keys == set i | 0 <= i < |entries| :: entries[i].0
  {
    if |entries| == 0 then map[]
    else
      var last := entries[|entries| - 1];
      var m := LastWins(entries[..|entries| - 1]);
      assert forall i :: 0 <= i < |entries| - 1 ==> entries[..|entries| - 1][i] == entries[i];
      m[last.0 := last.1]
  }

  /** With distinct names every entry is found under its own name. */
  lemma {:induction false} LastWinsFinds<V>(entries: seq<(string, V)>, i: nat)
    requires forall j, k :: 0 <= j < k < |entries| ==> entries[j].0 != entries[k].0
    requires i < |entries|
    ensures entries[i].0 in LastWins(entries) && LastWins(entries)[entries[i].0] == entries[i].1
  {
    var n := |entries| - 1;
    if i < n {
      var init := entries[..n];
      assert init[i] == entries[i];
      LastWinsFinds(init, i);
    }
  }

  /** The registration loop `boxes[name] = (x, y, w, h)`. */
  method Register(entries: seq<(string, CentredBox)>) returns (boxes: map<string, CentredBox>)
    ensures boxes == LastWins(entries)
  {
    boxes := map[];
    var i := 0;
    while i < |entries|
      invariant 0 <= i <= |entries|
      invariant boxes == LastWins(entries[..i])
    {
      assert entries[..i + 1][..i] == entries[..i];
      boxes := boxes[entries[i].0 := entries[i].1];
      i := i + 1;
    }
    assert entries[..|entries|] == entries;
  }
}
