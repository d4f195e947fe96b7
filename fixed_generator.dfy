/**
 * fixed_diagram_generator.py: the per-type content of the class boxes and
 * its lookups, the text rows of the class boxes and entity tables, the
 * centre-to-centre relationship lines with the ERD's offsets, the
 * sequence-diagram arrows and the names of the saved files.
 */
module FixedGenerator {
  import opened Geometry
  import opened Wrappers
  import opened Labels
  import opened TextRows
  import opened SaveLoop
  import AcademicGenerator

  // ----- lookups --------------------------------------------------------------

  const ControllerMethodTable: map<string, seq<string>> := map[
    "AuthController" := ["+login()", "+register()", "+getProfile()", "+logout()"],
    "ClassController" := ["+getClasses()", "+createClass()", "+updateClass()", "+deleteClass()"],
    "SubscriptionController" := ["+getPackages()", "+createSubscription()", "+switchPackage()", "+cancelSubscription()"],
    "PaymentController" := ["+processPayment()", "+getTestCards()", "+validateCard()", "+getPaymentStats()"]]

  const ServiceMethodTable: map<string, seq<string>> := map[
    "AuthService" := ["+authenticate()", "+generateToken()", "+validateToken()", "+hashPassword()"],
    "SimulatedPaymentService" := ["+processPayment()", "+validateCard()", "+getTestCards()", "+refundPayment()"],
    "TransactionService" := ["+logTransaction()", "+getTransactions()", "+logActivity()", "+getStatistics()"],
    "NotificationService" := ["+sendEmail()", "+sendSMS()", "+pushNotification()", "+logNotification()"]]

  const MiddlewareMethodTable: map<string, seq<string>> := map[
    "AuthMiddleware" := ["+authenticate()", "+extractToken()", "+verifyUser()"],
    "AdminMiddleware" := ["+requireAdmin()", "+checkPermissions()", "+validateRole()"],
    "ErrorHandler" := ["+handleError()", "+logError()", "+formatResponse()"],
    "CorsMiddleware" := ["+setCorsHeaders()", "+validateOrigin()", "+handlePreflight()"]]

  const ModelAttributeTable: map<string, seq<string>> := map[
    "User" := ["id: number", "email: string", "role: string", "createdAt: Date"],
    "Class" := ["id: number", "name: string", "description: string"],
    "Session" := ["id: number", "timeSlot: string", "capacity: number", "bookingCount: number"],
    "Booking" := ["id: number", "userId: number", "sessionId: number"],
    "Subscription" := ["id: number", "userId: number", "packageId: number", "status: string"],
    "Package" := ["id: number", "name: string", "price: number", "maxClasses: number"],
    "Transaction" := ["id: number", "amount: number", "status: string", "type: string"],
    "SimulatedCard" := ["id: number", "cardNumber: string", "balance: number", "isValid: boolean"]]

  const EntityAttributeTable: map<string, seq<string>> := map[
    "User" := [KeyMark + "id (PK)", "email", "password", "role"],
    "Subscription" := [KeyMark + "id (PK)", LinkMark + "userId (FK)", LinkMark + "packageId (FK)", "status"],
    "Package" := [KeyMark + "id (PK)", "name", "price", "maxClasses"],
    "Class" := [KeyMark + "id (PK)", "name", "description"],
    "Session" := [KeyMark + "id (PK)", LinkMark + "classId (FK)", "timeSlot", "capacity"],
    "Booking" := [KeyMark + "id (PK)", LinkMark + "userId (FK)", LinkMark + "sessionId (FK)"],
    "Transaction" := [KeyMark + "id (PK)", LinkMark + "userId (FK)", "amount", "status"],
    "SimulatedCard" := [KeyMark + "id (PK)", "cardNumber", "balance", "isValid"],
    "GearOrder" := [KeyMark + "id (PK)", LinkMark + "userId (FK)", "totalAmount", "status"]]

  const DefaultControllerMethods: seq<string> := ["+method1()", "+method2()"]
  const DefaultServiceMethods: seq<string> := ["+service1()", "+service2()"]
  const DefaultMiddlewareMethods: seq<string> := ["+middleware()"]
  const DefaultModelAttributes: seq<string> := ["id: number", "data: string"]
  const DefaultEntityAttributes: seq<string> := [KeyMark + "id (PK)", "data"]

  /** `get_controller_methods`. */
  function ControllerMethods(name: string): (r: seq<string>)
    ensures 2 <= |r| <= 4
    ensures r != DefaultControllerMethods <==> name in ControllerMethodTable
    ensures name in ControllerMethodTable ==> r == ControllerMethodTable[name]
  {
    if name in ControllerMethodTable then ControllerMethodTable[name] else DefaultControllerMethods
  }

  /** `get_service_methods`. */
  function ServiceMethods(name: string): (r: seq<string>)
    ensures 2 <= |r| <= 4
    ensures r != DefaultServiceMethods <==> name in ServiceMethodTable
    ensures name in ServiceMethodTable ==> r == ServiceMethodTable[name]
  {
    if name in ServiceMethodTable then ServiceMethodTable[name] else DefaultServiceMethods
  }

  /** `get_middleware_methods`: the only default with a single line. */
  function MiddlewareMethods(name: string): (r: seq<string>)
    ensures 1 <= |r| <= 3
    ensures r != DefaultMiddlewareMethods <==> name in MiddlewareMethodTable
    ensures name in MiddlewareMethodTable ==> r == MiddlewareMethodTable[name]
  {
    if name in MiddlewareMethodTable then MiddlewareMethodTable[name] else DefaultMiddlewareMethods
  }

  /** `get_model_attributes`. */
  function ModelAttributes(name: string): (r: seq<string>)
    ensures 2 <= |r| <= 4
    ensures r != DefaultModelAttributes <==> name in ModelAttributeTable
    ensures name in ModelAttributeTable ==> r == ModelAttributeTable[name]
  {
    if name in ModelAttributeTable then ModelAttributeTable[name] else DefaultModelAttributes
  }

  /** `get_entity_attributes`: every table, the default included, starts
      with the key-marked primary key. */
  function EntityAttributes(name: string): (r: seq<string>)
    ensures 2 <= |r| <= 4
    ensures r[0] == KeyMark + "id (PK)"
    ensures r != DefaultEntityAttributes <==> name in EntityAttributeTable
    ensures name in EntityAttributeTable ==> r == EntityAttributeTable[name]
  {
    if name in EntityAttributeTable then EntityAttributeTable[name] else DefaultEntityAttributes
  }

  /** The lines a class box shows, chosen by its type: a model shows its
      attributes, and every type other than controller, service and model
      falls through to the middleware lookup. */
  function ContentFor(name: string, kind: string): (r: seq<string>)
    ensures 1 <= |r| <= 4
    ensures kind == "controller" ==> r == ControllerMethods(name)
    ensures kind == "service" ==> r == ServiceMethods(name)
    ensures kind == "model" ==> r == ModelAttributes(name)
  {
    if kind == "controller" then ControllerMethods(name)
    else if kind == "service" then ServiceMethods(name)
    else if kind == "model" then ModelAttributes(name)
    else MiddlewareMethods(name)
  }

  /** Any type the dispatch does not name is drawn as a middleware. */
  lemma OtherKindsAreMiddleware(name: string, kind: string)
    requires kind != "controller" && kind != "service" && kind != "model"
    ensures ContentFor(name, kind) == ContentFor(name, "middleware")
    ensures ContentFor(name, kind) == MiddlewareMethods(name)
  {
  }

  // ----- text rows ----------------------------------------------------------

  /** `method_y = y - 1; for method in methods[:4]: text(method_y); method_y -= 2.5`:
      at most four lines, the first 1 below the centre, each 2.5 below
      the previous. */
  method ClassContent(box: CentredBox, name: string, kind: string) returns (lines: seq<Placed>)
    ensures lines == Placement(box.cy - 1.0, 2.5, Take(ContentFor(name, kind), 4))
    ensures 1 <= |lines| <= 4 && lines[0].y == box.cy - 1.0
    ensures forall i :: 0 <= i < |lines| ==> lines[i].text == ContentFor(name, kind)[i]
    ensures forall i, j :: 0 <= i < j < |lines| ==> lines[i].y > lines[j].y
  {
    var content := Take(ContentFor(name, kind), 4);
    var next;
    lines, next := PlaceLines(box.cy - 1.0, 2.5, content);
    PlacementOrdered(box.cy - 1.0, 2.5, content);
  }

  /** The same loop over an entity's attributes. */
  method EntityContent(box: CentredBox, name: string) returns (lines: seq<Placed>)
    ensures lines == Placement(box.cy - 1.0, 2.5, Take(EntityAttributes(name), 4))
    ensures 2 <= |lines| <= 4 && lines[0] == Placed(box.cy - 1.0, KeyMark + "id (PK)")
    ensures forall i, j :: 0 <= i < j < |lines| ==> lines[i].y > lines[j].y
  {
    var content := Take(EntityAttributes(name), 4);
    var next;
    lines, next := PlaceLines(box.cy - 1.0, 2.5, content);
    PlacementOrdered(box.cy - 1.0, 2.5, content);
  }

  /** The i-th line stays above the bottom edge exactly when
      1 + 2.5 * i is less than half the height. */
  lemma RowsInsideIff(box: CentredBox, content: seq<string>)
    ensures var lines := Placement(box.cy - 1.0, 2.5, Take(content, 4));
      forall i :: 0 <= i < |lines| ==>
        (lines[i].y > box.cy - box.h / 2.0 <==> 1.0 + 2.5 * (i as real) < box.h / 2.0)
  {
  }

  /** No box of the script is more than 16 high, so a fourth line is
      always written below the bottom edge: at `y - 8.5`, under the
      entities' edge at `y - 8` and the padded model boxes' at `y - 7.5`. */
  lemma FourthLineOutside(box: CentredBox, content: seq<string>)
    requires |content| >= 4 && box.h <= 16.0
    ensures Placement(box.cy - 1.0, 2.5, Take(content, 4))[3].y < box.cy - box.h / 2.0
  {
  }

  // ----- relationship lines -------------------------------------------------

  /** A segment moved by an offset: same direction, same length. */
  function Translate(s: Segment, d: Point): (t: Segment)
    ensures t.end.x - t.start.x == s.end.x - s.start.x && t.end.y - t.start.y == s.end.y - s.start.y
    ensures t.start.x - s.start.x == d.x && t.start.y - s.start.y == d.y
  {
    Segment(Point(s.start.x + d.x, s.start.y + d.y), Point(s.end.x + d.x, s.end.y + d.y))
  }

  /** The label of a translated line is the original label, translated. */
  lemma LabelMovesWithLine(s: Segment, d: Point)
    ensures Midpoint(Translate(s, d)) == Point(Midpoint(s).x + d.x, Midpoint(s).y + d.y)
  {
  }

  /** A relationship line between two registered boxes: from centre to
      centre moved by the offset, with its label at the midpoint; nothing
      when either name is unknown. */
  function OffsetLine(boxes: map<string, CentredBox>, from: string, to: string, offset: Point): (r: Option<(Segment, Point)>)
    ensures r.Some? <==> from in boxes && to in boxes
    ensures r.Some? ==> r.value.1 == Midpoint(r.value.0)
    ensures r.Some? ==>
      r.value.0 == Translate(Segment(Point(boxes[from].cx, boxes[from].cy), Point(boxes[to].cx, boxes[to].cy)), offset)
  {
    if from in boxes && to in boxes then
      var s := Translate(Segment(Point(boxes[from].cx, boxes[from].cy), Point(boxes[to].cx, boxes[to].cy)), offset);
      Some((s, Midpoint(s)))
    else
      None
  }

  /** `add_erd_relationships`' loop body: `x1 += offset[0]` and the other
      three updates, then the line and its cardinality. */
  method ErdRelationship(entities: map<string, CentredBox>, from: string, to: string, offset: Point)
    returns (r: Option<(Segment, Point)>)
    ensures r == OffsetLine(entities, from, to, offset)
    ensures r.Some? ==> r.value.1 == Point((entities[from].cx + entities[to].cx) / 2.0 + offset.x,
                                           (entities[from].cy + entities[to].cy) / 2.0 + offset.y)
  {
    if from !in entities || to !in entities {
      return None;
    }
    var x1, y1 := entities[from].cx, entities[from].cy;
    var x2, y2 := entities[to].cx, entities[to].cy;
    x1 := x1 + offset.x;
    y1 := y1 + offset.y;
    x2 := x2 + offset.x;
    y2 := y2 + offset.y;
    var s := Segment(Point(x1, y1), Point(x2, y2));
    r := Some((s, Point((x1 + x2) / 2.0, (y1 + y2) / 2.0)));
  }

  /** `add_class_relationships`: the line from centre to centre with the
      label at its midpoint, which is the ERD line with no offset. */
  function ClassRelationship(classes: map<string, CentredBox>, from: string, to: string): (r: Option<(Segment, Point)>)
    ensures r == OffsetLine(classes, from, to, Point(0.0, 0.0))
    ensures r.Some? ==> r.value.0.start == Point(classes[from].cx, classes[from].cy)
    ensures r.Some? ==> r.value.0.end == Point(classes[to].cx, classes[to].cy)
  {
    if from in classes && to in classes then
      var s := Segment(Point(classes[from].cx, classes[from].cy), Point(classes[to].cx, classes[to].cy));
      Some((s, Midpoint(s)))
    else
      None
  }

  // ----- sequence diagram ---------------------------------------------------

  /** A message arrow, drawn for every message: `x1 + 1 -> x2 - 1` when
      `x1 < x2`, else `x1 - 1 -> x2 + 1`. */
  function SequenceArrow(x1: real, x2: real, y: real): (s: Segment)
    ensures s.start.y == y && s.end.y == y
    ensures Abs(s.start.x - x1) == 1.0 && Abs(s.end.x - x2) == 1.0
  {
    if x1 < x2 then Segment(Point(x1 + 1.0, y), Point(x2 - 1.0, y))
    else Segment(Point(x1 - 1.0, y), Point(x2 + 1.0, y))
  }

  /** Between lifelines at least 2 apart the arrow keeps its direction,
      is 2 shorter and lies between the lifelines. */
  lemma SequenceArrowShortened(x1: real, x2: real, y: real)
    requires Abs(x1 - x2) >= 2.0
    ensures var s := SequenceArrow(x1, x2, y);
      (x1 < x2 ==> s.start.x <= s.end.x) && (x1 > x2 ==> s.start.x >= s.end.x) &&
      Abs(s.end.x - s.start.x) == Abs(x2 - x1) - 2.0
    ensures var s := SequenceArrow(x1, x2, y);
      var lo, hi := if x1 < x2 then x1 else x2, if x1 < x2 then x2 else x1;
      lo < s.start.x < hi && lo < s.end.x < hi
  {
  }

  /** A message to the sender's own lifeline becomes a 2-long arrow
      pointing right across it. */
  lemma SelfMessageArrow(x: real, y: real)
    ensures SequenceArrow(x, x, y) == Segment(Point(x - 1.0, y), Point(x + 1.0, y))
  {
  }

  /** Left-to-right messages get the arrow the academic script draws for
      calls, right-to-left ones the arrow it draws for returns. */
  lemma ArrowAgreesWithAcademic(x1: real, x2: real, y: real)
    requires x1 != x2
    ensures SequenceArrow(x1, x2, y) ==
      AcademicGenerator.SequenceArrow(x1, x2, y, if x1 < x2 then "sync" else "return").value
  {
  }

  /** The message text: centred between the lifelines, 1 above the arrow. */
  function MessageLabel(x1: real, x2: real, y: real): (p: Point)
    ensures p.x - x1 == x2 - p.x && p.y == y + 1.0
  {
    Point((x1 + x2) / 2.0, y + 1.0)
  }

  // ----- saving -------------------------------------------------------------

  /** The names `save_diagrams` writes: `pentagon_gym_` and the diagram's
      snake name. */
  const Prefix: string := "pentagon_gym_"

  /** The PNG of the ERD, as `save_diagrams` names it. */
  lemma FixedErdDiagram()
    ensures OutputFiles(Prefix, DiagramNames[1]).0 == Prefix + "erd_diagram" + ".png"
  {
    DiagramOutputFiles(Prefix, 1);
  }
}
