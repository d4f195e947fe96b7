/**
 * academic_diagram_generator.py: the class-name lookups with their
 * defaults, the three-compartment class boxes and the entity tables with
 * their line limits, the relationship loops of the class diagram and the
 * ERD, the sequence-diagram arrows, the arrows between the layers of the
 * component diagram and the names of the saved files.
 */
module AcademicGenerator {
  import opened Geometry
  import opened Wrappers
  import opened Labels
  import opened Connections
  import opened TextRows
  import opened SaveLoop

  // ----- lookups --------------------------------------------------------------

  const DefaultClassAttributes: seq<string> := ["-attribute1: type", "-attribute2: type"]
  const DefaultClassMethods: seq<string> := ["+method1(): type", "+method2(): type"]
  const DefaultEntityAttributes: seq<string> := [KeyMark + "id (PK)", "data"]

  /** The attribute table consulted for classes of type 'model'. */
  const ModelAttributes: map<string, seq<string>> := map[
    "User" := ["-id: number", "-email: string", "-role: UserRole"],
    "Class" := ["-id: number", "-name: string", "-description: string"],
    "Session" := ["-id: number", "-timeSlot: string", "-capacity: number"],
    "Booking" := ["-id: number", "-userId: number", "-sessionId: number"],
    "Subscription" := ["-id: number", "-status: string", "-packageId: number"],
    "Package" := ["-id: number", "-name: string", "-price: number"],
    "Transaction" := ["-id: number", "-amount: number", "-status: string"],
    "SimulatedCard" := ["-cardNumber: string", "-balance: number", "-isValid: boolean"]]

  /** The attribute table consulted for every other class type. */
  const ControllerAttributes: map<string, seq<string>> := map[
    "AuthController" := ["-authService: AuthService", "-logger: Logger"],
    "ClassController" := ["-classService: ClassService", "-validator: Validator"],
    "SubscriptionController" := ["-subscriptionService: Service", "-transactionService: Service"],
    "PaymentController" := ["-paymentService: PaymentService", "-cardValidator: Validator"]]

  const ClassMethodTable: map<string, seq<string>> := map[
    "AuthController" := ["+login(): Response", "+register(): Response", "+getProfile(): Response"],
    "ClassController" := ["+getClasses(): Response", "+createClass(): Response", "+updateClass(): Response"],
    "SubscriptionController" := ["+createSubscription(): Response", "+switchPackage(): Response", "+getPackages(): Response"],
    "PaymentController" := ["+processPayment(): Response", "+validateCard(): Response", "+getTestCards(): Response"],
    "AuthService" := ["+authenticate(): boolean", "+generateToken(): string", "+hashPassword(): string"],
    "SimulatedPaymentService" := ["+processPayment(): PaymentResult", "+validateCard(): boolean", "+getTestCards(): Card[]"],
    "TransactionService" := ["+logTransaction(): void", "+getTransactions(): Transaction[]", "+logActivity(): void"],
    "NotificationService" := ["+sendEmail(): void", "+sendSMS(): void", "+pushNotification(): void"],
    "AuthMiddleware" := ["+authenticate(): void", "+extractToken(): string", "+verifyUser(): boolean"],
    "AdminMiddleware" := ["+requireAdmin(): void", "+checkPermissions(): boolean"],
    "ErrorHandler" := ["+handleError(): void", "+logError(): void", "+formatResponse(): Response"],
    "CorsMiddleware" := ["+setCorsHeaders(): void", "+validateOrigin(): boolean"]]

  const EntityAttributeTable: map<string, seq<string>> := map[
    "User" := [KeyMark + "id (PK)", "email (UNIQUE)", "password", "role"],
    "Subscription" := [KeyMark + "id (PK)", LinkMark + "userId (FK)", LinkMark + "packageId (FK)", "status"],
    "Package" := [KeyMark + "id (PK)", "name (UNIQUE)", "price", "maxClasses"],
    "Class" := [KeyMark + "id (PK)", "name (UNIQUE)", "description"],
    "Session" := [KeyMark + "id (PK)", LinkMark + "classId (FK)", "timeSlot", "capacity"],
    "Booking" := [KeyMark + "id (PK)", LinkMark + "userId (FK)", LinkMark + "sessionId (FK)"],
    "Transaction" := [KeyMark + "id (PK)", LinkMark + "userId (FK)", "amount", "type"],
    "SimulatedCard" := [KeyMark + "id (PK)", "cardNumber", "balance", "cardType"],
    "GearOrder" := [KeyMark + "id (PK)", LinkMark + "userId (FK)", "totalAmount", "status"]]

  /** `get_class_attributes`: the table is chosen by the class type, and a
      name missing from it gets the two placeholder attributes.  A class
      that is not a model has real attributes exactly when it is one of
      the four controllers. */
  function ClassAttributes(name: string, kind: string): (r: seq<string>)
    ensures 2 <= |r| <= 3
    ensures kind == "model" ==> (r != DefaultClassAttributes <==> name in ModelAttributes)
    ensures kind != "model" ==> (r != DefaultClassAttributes <==> name in ControllerAttributes)
    ensures kind == "model" && name in ModelAttributes ==> r == ModelAttributes[name]
    ensures kind != "model" && name in ControllerAttributes ==> r == ControllerAttributes[name]
  {
    var table := if kind == "model" then ModelAttributes else ControllerAttributes;
    if name in table then table[name] else DefaultClassAttributes
  }

  /** `get_class_methods`: the same methods whatever the class type. */
  function ClassMethods(name: string): (r: seq<string>)
    ensures 2 <= |r| <= 3
    ensures r != DefaultClassMethods <==> name in ClassMethodTable
    ensures name in ClassMethodTable ==> r == ClassMethodTable[name]
  {
    if name in ClassMethodTable then ClassMethodTable[name] else DefaultClassMethods
  }

  /** `get_entity_attributes`: every table, the default included, starts
      with the key-marked primary key. */
  function EntityAttributes(name: string): (r: seq<string>)
    ensures 2 <= |r| <= 4
    ensures r[0] == KeyMark + "id (PK)"
    ensures r != DefaultEntityAttributes <==> name in EntityAttributeTable
    ensures name in EntityAttributeTable ==> r == EntityAttributeTable[name]
  {
    if name in EntityAttributeTable then EntityAttributeTable[name] else DefaultEntityAttributes
  }

  /** No table holds more lines than the limits of the drawing loops (3
      attributes and 3 methods per class, 4 attributes per entity), so the
      limits never drop a line of the tables. */
  lemma LimitsDropNothing(name: string, kind: string)
    ensures Take(ClassAttributes(name, kind), 3) == ClassAttributes(name, kind)
    ensures Take(ClassMethods(name), 3) == ClassMethods(name)
    ensures Take(EntityAttributes(name), 4) == EntityAttributes(name)
  {
    var a, m, e := ClassAttributes(name, kind), ClassMethods(name), EntityAttributes(name);
    assert a[..|a|] == a && m[..|m|] == m && e[..|e|] == e;
  }

  // ----- class boxes and entity tables --------------------------------------

  /** The text of a three-compartment class box: the name in the middle of
      the top third, separators at `y + h/6` and `y - h/6`, and up to
      three attribute and three method lines, each compartment's lines
      starting 1 below its separator and 2.5 apart. */
  datatype ClassText = ClassText(nameY: real, upper: real, lower: real, attrs: seq<Placed>, methods: seq<Placed>)

  function ClassBoxText(box: CentredBox, attributes: seq<string>, methods: seq<string>): (t: ClassText)
    ensures t.upper - t.lower == box.h / 3.0 && t.lower - (box.cy - box.h / 2.0) == box.h / 3.0
    ensures (box.cy + box.h / 2.0) - t.nameY == t.nameY - t.upper
    ensures t.attrs == Placement(t.upper - 1.0, 2.5, Take(attributes, 3))
    ensures t.methods == Placement(t.lower - 1.0, 2.5, Take(methods, 3))
  {
    var upper, lower := box.cy + box.h / 6.0, box.cy - box.h / 6.0;
    ClassText(box.cy + box.h / 2.0 - (box.h / 3.0) / 2.0, upper, lower,
      Placement(upper - 1.0, 2.5, Take(attributes, 3)),
      Placement(lower - 1.0, 2.5, Take(methods, 3)))
  }

  /** An attribute line stays above the lower separator, and a method line
      above the box's bottom, exactly when 1 + 2.5 * i is less than a
      third of the height; the fixed spacing ignores the height. */
  lemma ClassRowsInsideIff(box: CentredBox, attributes: seq<string>, methods: seq<string>)
    ensures var t := ClassBoxText(box, attributes, methods);
      forall i :: 0 <= i < |t.attrs| ==>
        (t.attrs[i].y > t.lower <==> 1.0 + 2.5 * (i as real) < box.h / 3.0)
    ensures var t := ClassBoxText(box, attributes, methods);
      forall j :: 0 <= j < |t.methods| ==>
        (t.methods[j].y > box.cy - box.h / 2.0 <==> 1.0 + 2.5 * (j as real) < box.h / 3.0)
  {
  }

  /** Every model class is 15 high and has three attributes: its third
      attribute is written below the lower separator, at exactly the height
      of its first method. */
  lemma ModelAttributeMeetsMethod(cx: real, cy: real, attributes: seq<string>, methods: seq<string>)
    requires |attributes| == 3 && |methods| > 0
    ensures var t := ClassBoxText(CentredBox(cx, cy, 16.0, 15.0), attributes, methods);
      t.attrs[2].y < t.lower && t.attrs[2].y == t.methods[0].y
  {
  }

  /** Every controller is 12 high and has three methods: its third method
      is written 2 below the box's bottom edge. */
  lemma ControllerMethodBelowBox(cx: real, cy: real, attributes: seq<string>, methods: seq<string>)
    requires |methods| == 3
    ensures var t := ClassBoxText(CentredBox(cx, cy, 20.0, 12.0), attributes, methods);
      t.methods[2].y == (cy - 6.0) - 2.0
  {
  }

  /** Lines spread evenly down a section `sec` high below `top`: the i-th
      of n at `top - sec * (i + 1) / (n + 1)`. */
  function EvenRows(top: real, sec: real, lines: seq<string>): (r: seq<Placed>)
    ensures |r| == |lines|
    ensures forall i :: 0 <= i < |r| ==> r[i].text == lines[i]
  {
    var step := sec / ((|lines| + 1) as real);
    Placement(top - step, step, lines)
  }

  /** 0 < step * k < step * m for a positive step and 0 < k < m. */
  lemma ScaledBetween(step: real, k: real, m: real)
    requires step > 0.0 && 0.0 < k < m
    ensures 0.0 < step * k < step * m
  {
    assert step * m - step * k == step * (m - k);
  }

  /** Evenly spread lines lie strictly inside their section, top to bottom. */
  lemma EvenRowsInside(top: real, sec: real, lines: seq<string>)
    requires sec > 0.0
    ensures var r := EvenRows(top, sec, lines);
      (forall i :: 0 <= i < |r| ==> top - sec < r[i].y < top) &&
      (forall i, j :: 0 <= i < j < |r| ==> r[i].y > r[j].y)
  {
    var n := |lines|;
    var step := sec / ((n + 1) as real);
    var r := EvenRows(top, sec, lines);
    assert step > 0.0;
    assert sec == step * ((n + 1) as real);
    PlacementOrdered(top - step, step, lines);
    forall i | 0 <= i < n ensures top - sec < r[i].y < top {
      assert r[i].y == top - step * ((i as real) + 1.0);
      ScaledBetween(step, (i as real) + 1.0, (n + 1) as real);
    }
  }

  /** The class box with each compartment's lines spread over its third. */
  function CorrectedClassBoxText(box: CentredBox, attributes: seq<string>, methods: seq<string>): (t: ClassText)
    ensures t.upper - t.lower == box.h / 3.0 && t.lower - (box.cy - box.h / 2.0) == box.h / 3.0
    ensures |t.attrs| == |Take(attributes, 3)| && |t.methods| == |Take(methods, 3)|
    ensures forall i :: 0 <= i < |t.attrs| ==> t.attrs[i].text == attributes[i]
    ensures forall j :: 0 <= j < |t.methods| ==> t.methods[j].text == methods[j]
  {
    var upper, lower := box.cy + box.h / 6.0, box.cy - box.h / 6.0;
    ClassText(box.cy + box.h / 2.0 - (box.h / 3.0) / 2.0, upper, lower,
      EvenRows(upper, box.h / 3.0, Take(attributes, 3)),
      EvenRows(lower, box.h / 3.0, Take(methods, 3)))
  }

  /** In every box of positive height the corrected attribute lines lie
      between the separators and the method lines between the lower
      separator and the bottom, so no attribute meets a method. */
  lemma CorrectedClassRowsSeparated(box: CentredBox, attributes: seq<string>, methods: seq<string>)
    requires box.h > 0.0
    ensures var t := CorrectedClassBoxText(box, attributes, methods);
      (forall i :: 0 <= i < |t.attrs| ==> t.lower < t.attrs[i].y < t.upper) &&
      (forall j :: 0 <= j < |t.methods| ==> box.cy - box.h / 2.0 < t.methods[j].y < t.lower)
  {
    var upper, lower := box.cy + box.h / 6.0, box.cy - box.h / 6.0;
    EvenRowsInside(upper, box.h / 3.0, Take(attributes, 3));
    EvenRowsInside(lower, box.h / 3.0, Take(methods, 3));
    assert upper - box.h / 3.0 == lower && lower - box.h / 3.0 == box.cy - box.h / 2.0;
  }

  /** An entity table: the name at `y + h/3`, a separator at `y + h/6`
      and up to four attribute lines from the centre down by 2.8. */
  datatype EntityText = EntityText(nameY: real, separator: real, rows: seq<Placed>)

  function EntityTableText(box: CentredBox, attributes: seq<string>): (t: EntityText)
    ensures (box.cy + box.h / 2.0) - t.nameY == t.nameY - t.separator
    ensures t.rows == Placement(box.cy, 2.8, Take(attributes, 4))
  {
    EntityText(box.cy + box.h / 3.0, box.cy + box.h / 6.0, Placement(box.cy, 2.8, Take(attributes, 4)))
  }

  /** The i-th attribute line stays above the bottom exactly when 2.8 * i
      is less than half the height. */
  lemma EntityRowsInsideIff(box: CentredBox, attributes: seq<string>)
    ensures var t := EntityTableText(box, attributes);
      forall i :: 0 <= i < |t.rows| ==> (t.rows[i].y > box.cy - box.h / 2.0 <==> 2.8 * (i as real) < box.h / 2.0)
  {
  }

  /** Every entity is 16 high: a fourth attribute is written 0.4 below the
      bottom edge. */
  lemma FourthEntityRowBelowBox(cx: real, cy: real, attributes: seq<string>)
    requires |attributes| >= 4
    ensures var t := EntityTableText(CentredBox(cx, cy, 18.0, 16.0), attributes);
      t.rows[3].y == (cy - 8.0) - 0.4
  {
  }

  /** The entity table with its lines spread between the separator and the
      bottom. */
  function CorrectedEntityTableText(box: CentredBox, attributes: seq<string>): (t: EntityText)
    ensures |t.rows| == |Take(attributes, 4)|
    ensures forall i :: 0 <= i < |t.rows| ==> t.rows[i].text == attributes[i]
  {
    EntityText(box.cy + box.h / 3.0, box.cy + box.h / 6.0,
      EvenRows(box.cy + box.h / 6.0, 2.0 * box.h / 3.0, Take(attributes, 4)))
  }

  lemma CorrectedEntityRowsInside(box: CentredBox, attributes: seq<string>)
    requires box.h > 0.0
    ensures var t := CorrectedEntityTableText(box, attributes);
      forall i :: 0 <= i < |t.rows| ==> box.cy - box.h / 2.0 < t.rows[i].y < t.separator
  {
    EvenRowsInside(box.cy + box.h / 6.0, 2.0 * box.h / 3.0, Take(attributes, 4));
    assert box.cy + box.h / 6.0 - 2.0 * box.h / 3.0 == box.cy - box.h / 2.0;
  }

  // ----- relationship loops -------------------------------------------------

  /** `add_academic_relationships`: the centre-comparison rule, an arrow
      on every line and the label 1 above the line's midpoint; a
      relationship naming an undeclared class is skipped. */
  function ClassRelationship(classes: map<string, CentredBox>, rel: Relationship): (r: Option<(Segment, Point)>)
    ensures r.Some? <==> rel.from in classes && rel.to in classes
    ensures r.Some? ==> Some(r.value.0) == Link(classes, rel.from, rel.to, CentreRule)
    ensures r.Some? ==> r.value.1 == LabelPoint(r.value.0, 1.0)
  {
    match Link(classes, rel.from, rel.to, CentreRule)
    case Some(s) => Some((s, LabelPoint(s, 1.0)))
    case None => None
  }

  /** `add_erd_relationships`: the same rule, the cardinality on the
      midpoint itself. */
  function ErdRelationship(entities: map<string, CentredBox>, rel: Relationship): (r: Option<(Segment, Point)>)
    ensures r.Some? <==> rel.from in entities && rel.to in entities
    ensures r.Some? ==> Some(r.value.0) == Link(entities, rel.from, rel.to, CentreRule)
    ensures r.Some? ==> r.value.1 == Midpoint(r.value.0)
  {
    match Link(entities, rel.from, rel.to, CentreRule)
    case Some(s) => Some((s, Midpoint(s)))
    case None => None
  }

  /** On the same boxes the two loops draw the same line; the class label
      sits exactly 1 above the cardinality. */
  lemma RelationshipLoopsAgree(boxes: map<string, CentredBox>, rel: Relationship)
    requires rel.from in boxes && rel.to in boxes
    ensures ClassRelationship(boxes, rel).value.0 == ErdRelationship(boxes, rel).value.0
    ensures ClassRelationship(boxes, rel).value.1.x == ErdRelationship(boxes, rel).value.1.x
    ensures ClassRelationship(boxes, rel).value.1.y == ErdRelationship(boxes, rel).value.1.y + 1.0
  {
  }

  /** The endpoints the loops compute, case by case: when
      `|x1 - x2| > |y1 - y2|` the facing half-widths, by `x1 < x2`;
      otherwise the facing half-heights, by `y1 > y2` (so boxes on the
      same centre are joined upward). */
  lemma RelationshipEndpoints(boxes: map<string, CentredBox>, rel: Relationship)
    requires rel.from in boxes && rel.to in boxes
    ensures var a, b := boxes[rel.from], boxes[rel.to];
      var s := ClassRelationship(boxes, rel).value.0;
      (Abs(a.cx - b.cx) > Abs(a.cy - b.cy) && a.cx < b.cx ==>
        s == Segment(Point(a.cx + a.w / 2.0, a.cy), Point(b.cx - b.w / 2.0, b.cy))) &&
      (Abs(a.cx - b.cx) > Abs(a.cy - b.cy) && a.cx >= b.cx ==>
        s == Segment(Point(a.cx - a.w / 2.0, a.cy), Point(b.cx + b.w / 2.0, b.cy))) &&
      (Abs(a.cx - b.cx) <= Abs(a.cy - b.cy) && a.cy > b.cy ==>
        s == Segment(Point(a.cx, a.cy - a.h / 2.0), Point(b.cx, b.cy + b.h / 2.0))) &&
      (Abs(a.cx - b.cx) <= Abs(a.cy - b.cy) && a.cy <= b.cy ==>
        s == Segment(Point(a.cx, a.cy + a.h / 2.0), Point(b.cx, b.cy - b.h / 2.0)))
  {
  }

  // ----- sequence diagram ---------------------------------------------------

  /** A message arrow runs from `xytext` to `xy`: for a call from
      `x1 + 1` to `x2 - 1`, for a return from `x1 - 1` to `x2 + 1`; it is
      drawn only between two different lifelines. */
  function SequenceArrow(x1: real, x2: real, y: real, kind: string): (r: Option<Segment>)
    ensures r.Some? <==> x1 != x2
    ensures r.Some? ==> r.value.start.y == y && r.value.end.y == y
    ensures r.Some? ==> Abs(r.value.start.x - x1) == 1.0 && Abs(r.value.end.x - x2) == 1.0
  {
    if x1 == x2 then None
    else if kind == "return" then Some(Segment(Point(x1 - 1.0, y), Point(x2 + 1.0, y)))
    else Some(Segment(Point(x1 + 1.0, y), Point(x2 - 1.0, y)))
  }

  /** Between lifelines more than 2 apart, both ends of the arrow lie
      strictly between the two lifelines exactly when calls run to the
      right and returns to the left; otherwise the arrow overshoots them. */
  lemma SequenceArrowBetweenLifelines(x1: real, x2: real, y: real, kind: string)
    requires Abs(x1 - x2) > 2.0
    ensures var s := SequenceArrow(x1, x2, y, kind).value;
      var lo, hi := if x1 < x2 then x1 else x2, if x1 < x2 then x2 else x1;
      (lo < s.start.x < hi && lo < s.end.x < hi) <==> ((kind == "return") <==> x1 > x2)
  {
  }

  /** The message text is centred between the lifelines, 1.5 above the
      arrow, whether or not the arrow is drawn. */
  function MessageLabel(x1: real, x2: real, y: real): (p: Point)
    ensures p.x - x1 == x2 - p.x && p.y == y + 1.5
  {
    Point((x1 + x2) / 2.0, y + 1.5)
  }

  // ----- component diagram --------------------------------------------------

  /** The layer centres, top to bottom, and the x positions the arrow
      loop tries; the database layer's components are at 35, 55 and 75. */
  const LayerYs: seq<real> := [85.0, 70.0, 55.0, 40.0, 25.0]
  const ArrowXs: seq<real> := [20.0, 40.0, 60.0, 80.0, 100.0]
  const DatabaseXs: seq<real> := [35.0, 55.0, 75.0]

  /** The arrows of layer pair i at the given xs: a vertical arrow from
      `y1` down to `y2` at each x the guard `i < 3 or x in [35, 55, 75]`
      lets through. */
  function PairArrows(xs: seq<real>, i: nat, y1: real, y2: real): (r: seq<Segment>)
    ensures |r| <= |xs|
    ensures i < 3 ==> |r| == |xs|
    ensures forall k :: 0 <= k < |r| ==> r[k].start.y == y1 && r[k].end.y == y2 && r[k].start.x == r[k].end.x
  {
    if |xs| == 0 then []
    else
      (if i < 3 || xs[0] in DatabaseXs then [Segment(Point(xs[0], y1), Point(xs[0], y2))] else [])
        + PairArrows(xs[1..], i, y1, y2)
  }

  /** From pair i onward: pair i joins 6 below layer i to 6 above layer
      i + 1. */
  function InterLayerArrows(ys: seq<real>, i: nat): (r: seq<Segment>)
    decreases |ys| - i
  {
    if i + 1 >= |ys| then []
    else PairArrows(ArrowXs, i, ys[i] - 6.0, ys[i + 1] + 6.0) + InterLayerArrows(ys, i + 1)
  }

  /** From pair 3 on the guard only admits the database xs, and none of
      the xs the loop tries is one of them: those pairs get no arrow. */
  lemma {:induction false} LateArrowsVanish(xs: seq<real>, i: nat, y1: real, y2: real)
    requires i >= 3
    requires forall k :: 0 <= k < |xs| ==> xs[k] !in DatabaseXs
    ensures PairArrows(xs, i, y1, y2) == []
  {
    if |xs| > 0 {
      LateArrowsVanish(xs[1..], i, y1, y2);
    }
  }

  /** Five layers get 15 arrows: five for each of the first three pairs
      and none between the fourth layer (data access) and the fifth
      (the database). */
  lemma FifteenArrows(ys: seq<real>)
    requires |ys| == 5
    ensures PairArrows(ArrowXs, 3, ys[3] - 6.0, ys[4] + 6.0) == []
    ensures |InterLayerArrows(ys, 0)| == 15
  {
    LastPairEmpty(ys);
    assert InterLayerArrows(ys, 4) == [];
    assert InterLayerArrows(ys, 3) == [];
    assert |InterLayerArrows(ys, 2)| == 5;
    assert |InterLayerArrows(ys, 1)| == 10;
  }

  /** The loop draws nothing between the data-access and database layers. */
  lemma LastPairEmpty(ys: seq<real>)
    requires |ys| == 5
    ensures InterLayerArrows(ys, 3) == []
  {
    LateArrowsVanish(ArrowXs, 3, ys[3] - 6.0, ys[4] + 6.0);
    assert InterLayerArrows(ys, 4) == [];
  }

  /** The arrows with the database pair drawn at the database components. */
  function CorrectedInterLayerArrows(ys: seq<real>, i: nat): (r: seq<Segment>)
    decreases |ys| - i
  {
    if i + 1 >= |ys| then []
    else
      PairArrows(if i < 3 then ArrowXs else DatabaseXs, i, ys[i] - 6.0, ys[i + 1] + 6.0)
        + CorrectedInterLayerArrows(ys, i + 1)
  }

  /** The three database arrows of the corrected loop, from 6 below the
      data-access layer to 6 above the database layer. */
  lemma DatabaseArrows(ys: seq<real>)
    requires |ys| == 5
    ensures var y1, y2 := ys[3] - 6.0, ys[4] + 6.0;
      CorrectedInterLayerArrows(ys, 3) == [Segment(Point(35.0, y1), Point(35.0, y2)),
        Segment(Point(55.0, y1), Point(55.0, y2)), Segment(Point(75.0, y1), Point(75.0, y2))]
  {
    var y1, y2 := ys[3] - 6.0, ys[4] + 6.0;
    assert CorrectedInterLayerArrows(ys, 4) == [];
    var xs := DatabaseXs;
    assert PairArrows(xs[2..], 3, y1, y2) == [Segment(Point(75.0, y1), Point(75.0, y2))] by {
      assert xs[2..][1..] == [];
    }
    assert xs[1..][1..] == xs[2..];
    assert PairArrows(xs[1..], 3, y1, y2) == [Segment(Point(55.0, y1), Point(55.0, y2)),
      Segment(Point(75.0, y1), Point(75.0, y2))];
  }

  /** Up to the database pair the corrected loop draws what the original
      draws. */
  lemma {:induction false} CorrectedExtendsArrows(ys: seq<real>, i: nat)
    requires |ys| == 5 && i <= 3
    ensures CorrectedInterLayerArrows(ys, i) == InterLayerArrows(ys, i) + CorrectedInterLayerArrows(ys, 3)
    decreases 3 - i
  {
    if i == 3 {
      LastPairEmpty(ys);
    } else {
      CorrectedExtendsArrows(ys, i + 1);
      ArrowsStep(ys, i);
      Regroup(PairArrows(ArrowXs, i, ys[i] - 6.0, ys[i + 1] + 6.0), InterLayerArrows(ys, i + 1),
              CorrectedInterLayerArrows(ys, 3));
    }
  }

  lemma Regroup(pair: seq<Segment>, rest: seq<Segment>, database: seq<Segment>)
    ensures pair + (rest + database) == (pair + rest) + database
  {
    assert |pair + (rest + database)| == |(pair + rest) + database|;
    forall k | 0 <= k < |pair + rest + database|
      ensures (pair + (rest + database))[k] == ((pair + rest) + database)[k]
    {
    }
  }

  /** Before the database pair both loops add the same five arrows. */
  lemma ArrowsStep(ys: seq<real>, i: nat)
    requires |ys| == 5 && i < 3
    ensures var pair := PairArrows(ArrowXs, i, ys[i] - 6.0, ys[i + 1] + 6.0);
      CorrectedInterLayerArrows(ys, i) == pair + CorrectedInterLayerArrows(ys, i + 1) &&
      InterLayerArrows(ys, i) == pair + InterLayerArrows(ys, i + 1)
  {
  }

  /** For five layers the corrected loop keeps the original 15 arrows and
      adds one arrow into each of the three database components. */
  lemma CorrectedArrowsReachDatabase(ys: seq<real>)
    requires |ys| == 5
    ensures var r := CorrectedInterLayerArrows(ys, 0);
      |r| == 18 && r[..15] == InterLayerArrows(ys, 0)
    ensures var r := CorrectedInterLayerArrows(ys, 0);
      forall k :: 15 <= k < 18 ==> r[k].end.y == ys[4] + 6.0 && r[k].end.x == DatabaseXs[k - 15]
  {
    var r := CorrectedInterLayerArrows(ys, 0);
    var original, database := InterLayerArrows(ys, 0), CorrectedInterLayerArrows(ys, 3);
    FifteenArrows(ys);
    DatabaseArrows(ys);
    CorrectedExtendsArrows(ys, 0);
    assert r == original + database;
    forall k | 15 <= k < 18
      ensures r[k].end.y == ys[4] + 6.0 && r[k].end.x == DatabaseXs[k - 15]
    {
      assert r[k] == database[k - 15];
    }
  }

  // ----- saving -------------------------------------------------------------

  /** The names `save_diagrams` writes: `academic_` and the diagram's
      snake name. */
  const Prefix: string := "academic_"

  /** The PNG of the class diagram, as `save_diagrams` names it. */
  lemma AcademicClassDiagram()
    ensures OutputFiles(Prefix, DiagramNames[0]).0 == Prefix + "class_diagram" + ".png"
  {
    DiagramOutputFiles(Prefix, 0);
  }
}
