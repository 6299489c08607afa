/** The wire format of orders. A payload stands for the value that its JSON text denotes;
    fields are enumerated instead of spelt out. */
module MessageSerializer {
  import opened Models

  // ----- Entities -------------------------------------------------------------------------

  /** Microseconds on the clock of the given zone; no zone for a naive time. */
  datatype Timestamp = Timestamp(local: int, zone: Option<int>)

  datatype Header = Header(id: int, time: Timestamp, version: string, manufacturer: string, serial: string)

  datatype Blocking = NoBlocking | Soft | Hard

  type Scalar = j: Json | !j.List? witness Null

  /** The value of a parameter is arbitrary: a plain value or dictionary (null for none), a list or
      tuple, a member of an enumeration, or a time. */
  datatype Value = Plain(json: Scalar) | Sequence(tuple: bool, items: seq<Value>) | Member(of: Json) | Moment(time: Timestamp)

  datatype Parameter = Parameter(key: string, value: Value)

  datatype Action = Action(
    kind: string, id: string, blocking: Blocking, description: string, parameters: seq<Parameter>)

  datatype Position = Position(
    x: real, y: real, mapId: string, theta: Option<real>, deviation: Option<real>, turn: Option<real>)

  datatype Node = Node(
    id: string, sequence: int, released: bool, description: string, position: Option<Position>, actions: seq<Action>)

  datatype ControlPoint = ControlPoint(x: real, y: real, weight: real)

  datatype Trajectory = Trajectory(degree: int, knots: seq<real>, points: seq<ControlPoint>)

  datatype Corridor = Corridor(left: real, right: real)

  datatype Edge = Edge(
    id: string, sequence: int, released: bool, start: string, end: string, description: string,
    maxSpeed: Option<real>, orientation: Option<real>, rotation: Option<bool>,
    trajectory: Option<Trajectory>, corridor: Option<Corridor>, actions: seq<Action>)

  datatype Order = Order(header: Header, id: string, update: int, zoneSet: string, nodes: seq<Node>, edges: seq<Edge>)

  // ----- Payloads ---------------------------------------------------------------------------

  datatype Field =
    | HeaderId | Time | Version | Manufacturer | SerialNumber
    | OrderId | OrderUpdateId | ZoneSetId | Nodes | Edges
    | NodeId | SequenceId | Released | NodeDescription | NodePosition | Actions
    | X | Y | MapId | Theta | AllowedDeviationXY | AllowedDeviationTheta
    | EdgeId | StartNodeId | EndNodeId | EdgeDescription | MaxSpeed | Orientation | RotationAllowed
    | TrajectoryField | CorridorField | Degree | KnotVector | ControlPoints | Weight
    | LeftWidth | RightWidth | RefPoint
    | ActionType | ActionId | BlockingType | ActionDescription | ActionParameters | ParameterKey | ParameterValue

  /** A printed time carries milliseconds, and claims to be in universal time. */
  datatype Json =
    | Null
    | Truth(truth: bool)
    | Whole(whole: int)
    | Number(number: real)
    | Text(text: string)
    | Stamp(ms: int)
    | List(items: seq<Json>)
    | Object(fields: map<Field, Json>)

  const CENTER := "KINEMATICCENTER"

  function Put(m: map<Field, Json>, f: Field, v: Option<Json>): map<Field, Json> {
    if v.Some? then m[f := v.value] else m
  }

  // ----- Printing -----------------------------------------------------------------------------

  function Numeral(r: Option<real>): Option<Json> {
    if r.Some? then Some(Number(r.value)) else None
  }

  function PrintAll<T>(items: seq<T>, encode: T -> Json): seq<Json> {
    if items == [] then [] else [encode(items[0])] + PrintAll(items[1..], encode)
  }

  function PrintHeader(h: Header): map<Field, Json> {
    map[HeaderId := Whole(h.id), Time := Stamp(h.time.local / 1000), Version := Text(h.version),
        Manufacturer := Text(h.manufacturer), SerialNumber := Text(h.serial)]
  }

  function PrintBlocking(b: Blocking): Json {
    Text(match b case NoBlocking => "NONE" case Soft => "SOFT" case Hard => "HARD")
  }

  function PrintParameter(p: Parameter): Json {
    Object(Put(map[ParameterKey := Text(p.key)], ParameterValue,
      if p.value == Plain(Null) then None else Some(PrintValue(p.value))))
  }

  /** Lists and tuples look the same, members show their value, and times lose their zone. */
  function PrintValue(v: Value): Json {
    match v
    case Plain(j) => j
    case Sequence(_, items) => List(PrintValues(items))
    case Member(of) => of
    case Moment(t) => Stamp(t.local / 1000)
  }

  function PrintValues(items: seq<Value>): seq<Json> {
    if items == [] then [] else [PrintValue(items[0])] + PrintValues(items[1..])
  }

  function PrintAction(a: Action): Json {
    Object(map[
      ActionType := Text(a.kind), ActionId := Text(a.id), BlockingType := PrintBlocking(a.blocking),
      ActionDescription := Text(a.description), ActionParameters := List(PrintAll(a.parameters, PrintParameter))])
  }

  function PrintPosition(p: Position): Json {
    var m := map[X := Number(p.x), Y := Number(p.y), MapId := Text(p.mapId)];
    var m := Put(m, Theta, Numeral(p.theta));
    var m := Put(m, AllowedDeviationXY, Numeral(p.deviation));
    Object(Put(m, AllowedDeviationTheta, Numeral(p.turn)))
  }

  function PrintNode(n: Node): Json {
    var m := map[NodeId := Text(n.id), SequenceId := Whole(n.sequence), Released := Truth(n.released),
                 NodeDescription := Text(n.description), Actions := List(PrintAll(n.actions, PrintAction))];
    Object(Put(m, NodePosition, if n.position.Some? then Some(PrintPosition(n.position.value)) else None))
  }

  function PrintPoint(p: ControlPoint): Json {
    Object(map[X := Number(p.x), Y := Number(p.y), Weight := Number(p.weight)])
  }

  function PrintTrajectory(t: Trajectory): Json {
    Object(map[
      Degree := Whole(t.degree),
      KnotVector := List(PrintAll(t.knots, (r: real) => Number(r))),
      ControlPoints := List(PrintAll(t.points, PrintPoint))])
  }

  function PrintCorridor(c: Corridor): Json {
    Object(map[LeftWidth := Number(c.left), RightWidth := Number(c.right), RefPoint := Text(CENTER)])
  }

  function RequiredOfEdge(e: Edge): map<Field, Json> {
    map[EdgeId := Text(e.id), SequenceId := Whole(e.sequence), Released := Truth(e.released),
        StartNodeId := Text(e.start), EndNodeId := Text(e.end), EdgeDescription := Text(e.description),
        Actions := List(PrintAll(e.actions, PrintAction))]
  }

  function WithMotion(m: map<Field, Json>, e: Edge): map<Field, Json> {
    var m := Put(m, MaxSpeed, Numeral(e.maxSpeed));
    var m := Put(m, Orientation, Numeral(e.orientation));
    Put(m, RotationAllowed, if e.rotation.Some? then Some(Truth(e.rotation.value)) else None)
  }

  function WithShape(m: map<Field, Json>, e: Edge): map<Field, Json> {
    var m := Put(m, TrajectoryField, if e.trajectory.Some? then Some(PrintTrajectory(e.trajectory.value)) else None);
    Put(m, CorridorField, if e.corridor.Some? then Some(PrintCorridor(e.corridor.value)) else None)
  }

  function PrintEdge(e: Edge): Json {
    Object(WithShape(WithMotion(RequiredOfEdge(e), e), e))
  }

  function Serialize(o: Order): Json {
    var m := PrintHeader(o.header)[OrderId := Text(o.id)][OrderUpdateId := Whole(o.update)];
    var m := if o.zoneSet != "" then m[ZoneSetId := Text(o.zoneSet)] else m;
    var m := m[Nodes := List(PrintAll(o.nodes, PrintNode))];
    Object(m[Edges := List(PrintAll(o.edges, PrintEdge))])
  }

  // ----- Parsing ------------------------------------------------------------------------------

  datatype Parsed<+T> = Ok(value: T) | Failed {
    predicate IsFailure() {
      Failed?
    }

    function PropagateFailure<U>(): Parsed<U>
      requires Failed?
    {
      Failed
    }

    function Extract(): T
      requires Ok?
    {
      value
    }
  }

  function TextAt(m: map<Field, Json>, f: Field): Parsed<string> {
    if f in m && m[f].Text? then Ok(m[f].text) else Failed
  }

  function WholeAt(m: map<Field, Json>, f: Field): Parsed<int> {
    if f in m && m[f].Whole? then Ok(m[f].whole) else Failed
  }

  function TruthAt(m: map<Field, Json>, f: Field): Parsed<bool> {
    if f in m && m[f].Truth? then Ok(m[f].truth) else Failed
  }

  function NumberAt(m: map<Field, Json>, f: Field): Parsed<real> {
    if f in m && m[f].Number? then Ok(m[f].number) else Failed
  }

  /** A missing list is empty. */
  function ListAt<T>(m: map<Field, Json>, f: Field, decode: Json -> Parsed<T>): Parsed<seq<T>> {
    if f !in m then Ok([]) else if m[f].List? then ParseAll(m[f].items, decode) else Failed
  }

  function ParseAll<T>(items: seq<Json>, decode: Json -> Parsed<T>): Parsed<seq<T>> {
    if items == [] then Ok([])
    else
      var first :- decode(items[0]);
      var others :- ParseAll(items[1..], decode);
      Ok([first] + others)
  }

  function TextOr(m: map<Field, Json>, f: Field, default: string): Parsed<string> {
    if f in m then TextAt(m, f) else Ok(default)
  }

  function NumberOr(m: map<Field, Json>, f: Field, default: real): Parsed<real> {
    if f in m then NumberAt(m, f) else Ok(default)
  }

  /** Missing and null are the same. */
  predicate Absent(m: map<Field, Json>, f: Field) {
    f !in m || m[f].Null?
  }

  function MaybeNumber(m: map<Field, Json>, f: Field): Parsed<Option<real>> {
    if Absent(m, f) then Ok(None)
    else
      var r :- NumberAt(m, f);
      Ok(Some(r))
  }

  function MaybeTruth(m: map<Field, Json>, f: Field): Parsed<Option<bool>> {
    if Absent(m, f) then Ok(None)
    else
      var b :- TruthAt(m, f);
      Ok(Some(b))
  }

  function Maybe<T>(m: map<Field, Json>, f: Field, decode: Json -> Parsed<T>): Parsed<Option<T>> {
    if Absent(m, f) then Ok(None)
    else
      var v :- decode(m[f]);
      Ok(Some(v))
  }

  /** `now` is the time taken for a header without one. */
  function ParseHeader(m: map<Field, Json>, now: Timestamp): Parsed<Header> {
    var id :- if HeaderId in m then WholeAt(m, HeaderId) else Ok(0);
    var time :- if Time !in m then Ok(now)
                else if m[Time].Stamp? then Ok(Timestamp(m[Time].ms * 1000, Some(0))) else Failed;
    var version :- TextOr(m, Version, "2.0.0");
    var manufacturer :- TextOr(m, Manufacturer, "");
    var serial :- TextOr(m, SerialNumber, "");
    Ok(Header(id, time, version, manufacturer, serial))
  }

  function ParseBlocking(text: string): Parsed<Blocking> {
    if text == "NONE" then Ok(NoBlocking)
    else if text == "SOFT" then Ok(Soft)
    else if text == "HARD" then Ok(Hard)
    else Failed
  }

  function ParseParameter(j: Json): Parsed<Parameter> {
    if !j.Object? || ParameterValue !in j.fields then Failed
    else
      var key :- TextAt(j.fields, ParameterKey);
      Ok(Parameter(key, ReadValue(j.fields[ParameterValue])))
  }

  function ReadValue(j: Json): Value {
    match j
    case List(items) => Sequence(false, ReadValues(items))
    case _ => Plain(j)
  }

  function ReadValues(items: seq<Json>): seq<Value> {
    if items == [] then [] else [ReadValue(items[0])] + ReadValues(items[1..])
  }

  function ParseAction(j: Json): Parsed<Action> {
    if !j.Object? then Failed
    else
      var kind :- TextAt(j.fields, ActionType);
      var id :- TextAt(j.fields, ActionId);
      var word :- TextAt(j.fields, BlockingType);
      var blocking :- ParseBlocking(word);
      var description :- TextOr(j.fields, ActionDescription, "");
      var parameters :- ListAt(j.fields, ActionParameters, ParseParameter);
      Ok(Action(kind, id, blocking, description, parameters))
  }

  function ParsePosition(j: Json): Parsed<Position> {
    if !j.Object? then Failed
    else
      var x :- NumberAt(j.fields, X);
      var y :- NumberAt(j.fields, Y);
      var mapId :- TextAt(j.fields, MapId);
      var theta :- MaybeNumber(j.fields, Theta);
      var deviation :- MaybeNumber(j.fields, AllowedDeviationXY);
      var turn :- MaybeNumber(j.fields, AllowedDeviationTheta);
      Ok(Position(x, y, mapId, theta, deviation, turn))
  }

  function ParseNode(j: Json): Parsed<Node> {
    if !j.Object? then Failed
    else
      var position :- Maybe(j.fields, NodePosition, ParsePosition);
      var id :- TextAt(j.fields, NodeId);
      var sequence :- WholeAt(j.fields, SequenceId);
      var released :- TruthAt(j.fields, Released);
      var actions :- ListAt(j.fields, Actions, ParseAction);
      Ok(Node(id, sequence, released, "", position, actions))
  }

  function ParseKnot(j: Json): Parsed<real> {
    if j.Number? then Ok(j.number) else Failed
  }

  function ParsePoint(j: Json): Parsed<ControlPoint> {
    if !j.Object? then Failed
    else
      var x :- NumberAt(j.fields, X);
      var y :- NumberAt(j.fields, Y);
      var weight :- NumberOr(j.fields, Weight, 1.0);
      Ok(ControlPoint(x, y, weight))
  }

  function ParseTrajectory(j: Json): Parsed<Trajectory> {
    if !j.Object? then Failed
    else
      var degree :- WholeAt(j.fields, Degree);
      var knots :- ListAt(j.fields, KnotVector, ParseKnot);
      var points :- ListAt(j.fields, ControlPoints, ParsePoint);
      Ok(Trajectory(degree, knots, points))
  }

  function ParseCorridor(j: Json): Parsed<Corridor> {
    if !j.Object? then Failed
    else
      var left :- NumberAt(j.fields, LeftWidth);
      var right :- NumberAt(j.fields, RightWidth);
      var point :- TextOr(j.fields, RefPoint, CENTER);
      if point == CENTER then Ok(Corridor(left, right)) else Failed
  }

  function ParseEdge(j: Json): Parsed<Edge> {
    if !j.Object? then Failed
    else
      var trajectory :- Maybe(j.fields, TrajectoryField, ParseTrajectory);
      var corridor :- Maybe(j.fields, CorridorField, ParseCorridor);
      var id :- TextAt(j.fields, EdgeId);
      var sequence :- WholeAt(j.fields, SequenceId);
      var released :- TruthAt(j.fields, Released);
      var start :- TextAt(j.fields, StartNodeId);
      var end :- TextAt(j.fields, EndNodeId);
      var maxSpeed :- MaybeNumber(j.fields, MaxSpeed);
      var orientation :- MaybeNumber(j.fields, Orientation);
      var rotation :- MaybeTruth(j.fields, RotationAllowed);
      var actions :- ListAt(j.fields, Actions, ParseAction);
      Ok(Edge(id, sequence, released, start, end, "", maxSpeed, orientation, rotation, trajectory, corridor, actions))
  }

  function Deserialize(j: Json, now: Timestamp): Parsed<Order> {
    if !j.Object? then Failed
    else
      var header :- ParseHeader(j.fields, now);
      var id :- TextAt(j.fields, OrderId);
      var update :- WholeAt(j.fields, OrderUpdateId);
      var zoneSet :- TextOr(j.fields, ZoneSetId, "");
      var nodes :- ListAt(j.fields, Nodes, ParseNode);
      var edges :- ListAt(j.fields, Edges, ParseEdge);
      Ok(Order(header, id, update, zoneSet, nodes, edges))
  }

  // ----- What survives ----------------------------------------------------------------------------

  predicate CompleteAction(a: Action) {
    forall p | p in a.parameters :: p.value != Plain(Null)
  }

  predicate Complete(actions: seq<Action>) {
    forall a | a in actions :: CompleteAction(a)
  }

  /** Every action parameter has a value. */
  predicate CompleteOrder(o: Order) {
    (forall n | n in o.nodes :: Complete(n.actions)) && (forall e | e in o.edges :: Complete(e.actions))
  }

  /** No tuple, member or time is part of the value. */
  predicate IsPlain(v: Value) {
    match v
    case Plain(_) => true
    case Sequence(tuple, items) => !tuple && forall i | 0 <= i < |items| :: IsPlain(items[i])
    case Member(_) => false
    case Moment(_) => false
  }

  predicate PlainAction(a: Action) {
    forall p | p in a.parameters :: IsPlain(p.value)
  }

  predicate PlainActions(actions: seq<Action>) {
    forall a | a in actions :: PlainAction(a)
  }

  function BareParameter(p: Parameter): Parameter {
    p.(value := ReadValue(PrintValue(p.value)))
  }

  function BareAction(a: Action): Action {
    a.(parameters := All(a.parameters, BareParameter))
  }

  function BareNode(n: Node): Node {
    n.(description := "", actions := All(n.actions, BareAction))
  }

  function BareEdge(e: Edge): Edge {
    e.(description := "", actions := All(e.actions, BareAction))
  }

  function All<T>(items: seq<T>, f: T -> T): seq<T> {
    if items == [] then [] else [f(items[0])] + All(items[1..], f)
  }

  /** The clock reading in whole milliseconds, taken for universal time. */
  function Coarse(t: Timestamp): Timestamp {
    Timestamp(t.local / 1000 * 1000, Some(0))
  }

  /** What is left of an order: plain parameter values, no descriptions of nodes and edges, and a
      coarse time. */
  function Bare(o: Order): Order {
    o.(header := o.header.(time := Coarse(o.header.time)),
       nodes := All(o.nodes, BareNode), edges := All(o.edges, BareEdge))
  }

  lemma {:induction false} AllParsed<T>(items: seq<T>, encode: T -> Json, decode: Json -> Parsed<T>, clean: T -> T)
    requires forall x :: x in items ==> decode(encode(x)) == Ok(clean(x))
    ensures ParseAll(PrintAll(items, encode), decode) == Ok(All(items, clean))
  {
    if items != [] {
      AllParsed(items[1..], encode, decode, clean);
      assert PrintAll(items, encode)[1..] == PrintAll(items[1..], encode);
      assert items[0] in items;
    }
  }

  lemma {:induction false} OneFails<T>(items: seq<T>, encode: T -> Json, decode: Json -> Parsed<T>, x: T)
    requires x in items && decode(encode(x)) == Failed
    ensures ParseAll(PrintAll(items, encode), decode) == Failed
  {
    assert PrintAll(items, encode)[1..] == PrintAll(items[1..], encode);
    if items[0] != x {
      OneFails(items[1..], encode, decode, x);
    }
  }

  lemma {:induction false} AllSame<T>(items: seq<T>, f: T -> T)
    ensures All(items, f) == items <==> forall x :: x in items ==> f(x) == x
  {
    if items != [] {
      AllSame(items[1..], f);
      assert All(items, f)[1..] == All(items[1..], f);
    }
  }

  // ----- The round trip ------------------------------------------------------------------------

  function Same<T>(x: T): T {
    x
  }

  lemma {:induction false} AllAsIs<T>(items: seq<T>)
    ensures All(items, Same) == items
  {
    if items != [] {
      AllAsIs(items[1..]);
    }
  }

  /** Exactly the plain values come back. */
  lemma {:induction false} ValueReturnsExactly(v: Value)
    ensures ReadValue(PrintValue(v)) == v <==> IsPlain(v)
    decreases v, 1
  {
    if v.Sequence? {
      ValuesReturnExactly(v.items);
    }
  }

  lemma {:induction false} ValuesReturnExactly(items: seq<Value>)
    ensures ReadValues(PrintValues(items)) == items <==> forall i :: 0 <= i < |items| ==> IsPlain(items[i])
    decreases items, 0
  {
    if items != [] {
      ValueReturnsExactly(items[0]);
      ValuesReturnExactly(items[1..]);
      var printed := PrintValues(items);
      assert printed[1..] == PrintValues(items[1..]);
      assert ReadValues(printed) == [ReadValue(PrintValue(items[0]))] + ReadValues(PrintValues(items[1..]));
      assert ReadValues(printed)[1..] == ReadValues(PrintValues(items[1..]));
      assert forall i :: 0 < i < |items| ==> items[i] == items[1..][i - 1];
    }
  }

  /** What was read once is plain. */
  lemma {:induction false} ReadIsPlain(j: Json)
    ensures IsPlain(ReadValue(j))
    decreases j, 1
  {
    if j.List? {
      ReadArePlain(j.items);
    }
  }

  lemma {:induction false} ReadArePlain(items: seq<Json>)
    ensures forall i :: 0 <= i < |ReadValues(items)| ==> IsPlain(ReadValues(items)[i])
    decreases items, 0
  {
    if items != [] {
      ReadIsPlain(items[0]);
      ReadArePlain(items[1..]);
    }
  }

  lemma ParameterReturns(p: Parameter)
    ensures ParseParameter(PrintParameter(p)) == if p.value != Plain(Null) then Ok(BareParameter(p)) else Failed
  {
    hide PrintValue, ReadValue;
  }

  lemma ParametersReturn(ps: seq<Parameter>)
    ensures ParseAll(PrintAll(ps, PrintParameter), ParseParameter)
         == if forall p :: p in ps ==> p.value != Plain(Null) then Ok(All(ps, BareParameter)) else Failed
  {
    hide PrintAll, ParseAll, PrintParameter, ParseParameter, All, BareParameter;
    forall p ensures ParseParameter(PrintParameter(p)) == if p.value != Plain(Null) then Ok(BareParameter(p)) else Failed {
      ParameterReturns(p);
    }
    if forall p :: p in ps ==> p.value != Plain(Null) {
      AllParsed(ps, PrintParameter, ParseParameter, BareParameter);
    } else {
      var p :| p in ps && p.value == Plain(Null);
      OneFails(ps, PrintParameter, ParseParameter, p);
    }
  }

  lemma BlockingReturns(b: Blocking)
    ensures PrintBlocking(b).Text? && ParseBlocking(PrintBlocking(b).text) == Ok(b)
  {
  }

  lemma ActionReturns(a: Action)
    ensures ParseAction(PrintAction(a)) == if CompleteAction(a) then Ok(BareAction(a)) else Failed
  {
    hide PrintAll, ParseAll, PrintBlocking, ParseBlocking, PrintParameter, ParseParameter, All;
    ParametersReturn(a.parameters);
    BlockingReturns(a.blocking);
  }

  lemma ActionsReturn(actions: seq<Action>)
    ensures ParseAll(PrintAll(actions, PrintAction), ParseAction)
         == if Complete(actions) then Ok(All(actions, BareAction)) else Failed
  {
    hide PrintAll, ParseAll, PrintAction, ParseAction, CompleteAction, All, BareAction;
    forall a ensures ParseAction(PrintAction(a)) == if CompleteAction(a) then Ok(BareAction(a)) else Failed {
      ActionReturns(a);
    }
    if Complete(actions) {
      AllParsed(actions, PrintAction, ParseAction, BareAction);
    } else {
      var a :| a in actions && !CompleteAction(a);
      OneFails(actions, PrintAction, ParseAction, a);
    }
  }

  lemma ActionSurvivesExactly(a: Action)
    ensures BareAction(a) == a <==> PlainAction(a)
  {
    hide PrintValue, ReadValue, IsPlain, All;
    AllSame(a.parameters, BareParameter);
    forall p: Parameter ensures BareParameter(p) == p <==> IsPlain(p.value) {
      ValueReturnsExactly(p.value);
    }
  }

  lemma ActionsSurviveExactly(actions: seq<Action>)
    ensures All(actions, BareAction) == actions <==> PlainActions(actions)
  {
    hide BareAction, PlainAction, All;
    AllSame(actions, BareAction);
    forall a ensures BareAction(a) == a <==> PlainAction(a) {
      ActionSurvivesExactly(a);
    }
  }

  lemma PositionReturns(p: Position)
    ensures ParsePosition(PrintPosition(p)) == Ok(p) && PrintPosition(p).Object?
  {
  }

  lemma TrajectoryReturns(t: Trajectory)
    ensures ParseTrajectory(PrintTrajectory(t)) == Ok(t) && PrintTrajectory(t).Object?
  {
    AllParsed(t.knots, (r: real) => Number(r), ParseKnot, Same);
    AllParsed(t.points, PrintPoint, ParsePoint, Same);
    AllAsIs(t.knots);
    AllAsIs(t.points);
  }

  lemma CorridorReturns(c: Corridor)
    ensures ParseCorridor(PrintCorridor(c)) == Ok(c) && PrintCorridor(c).Object?
  {
  }

  lemma NodeReturns(n: Node)
    ensures ParseNode(PrintNode(n)) == if Complete(n.actions) then Ok(BareNode(n)) else Failed
  {
    hide PrintAll, ParseAll, PrintAction, ParseAction, Complete, PrintPosition, ParsePosition;
    ActionsReturn(n.actions);
    if n.position.Some? {
      PositionReturns(n.position.value);
    }
  }

  lemma MotionReturns(m: map<Field, Json>, e: Edge)
    requires MaxSpeed !in m && Orientation !in m && RotationAllowed !in m
    ensures var n := WithMotion(m, e);
            && MaybeNumber(n, MaxSpeed) == Ok(e.maxSpeed) && MaybeNumber(n, Orientation) == Ok(e.orientation)
            && MaybeTruth(n, RotationAllowed) == Ok(e.rotation)
    ensures forall f :: f != MaxSpeed && f != Orientation && f != RotationAllowed ==> SameAt(m, WithMotion(m, e), f)
  {
  }

  lemma ShapeReturns(m: map<Field, Json>, e: Edge)
    requires TrajectoryField !in m && CorridorField !in m
    ensures Maybe(WithShape(m, e), TrajectoryField, ParseTrajectory) == Ok(e.trajectory)
    ensures Maybe(WithShape(m, e), CorridorField, ParseCorridor) == Ok(e.corridor)
    ensures forall f :: f != TrajectoryField && f != CorridorField ==> SameAt(m, WithShape(m, e), f)
  {
    hide PrintTrajectory, PrintCorridor, ParseTrajectory, ParseCorridor;
    if e.trajectory.Some? {
      TrajectoryReturns(e.trajectory.value);
    }
    if e.corridor.Some? {
      CorridorReturns(e.corridor.value);
    }
  }

  predicate SameAt(m: map<Field, Json>, n: map<Field, Json>, f: Field) {
    if f in m then f in n && n[f] == m[f] else f !in n
  }

  lemma SameReads(m: map<Field, Json>, n: map<Field, Json>, f: Field)
    requires SameAt(m, n, f)
    ensures MaybeNumber(n, f) == MaybeNumber(m, f) && MaybeTruth(n, f) == MaybeTruth(m, f)
    ensures TextAt(n, f) == TextAt(m, f) && WholeAt(n, f) == WholeAt(m, f) && TruthAt(n, f) == TruthAt(m, f)
    ensures ListAt(n, f, ParseAction) == ListAt(m, f, ParseAction)
  {
  }

  lemma NothingOptional(e: Edge)
    ensures var m := RequiredOfEdge(e);
            && MaxSpeed !in m && Orientation !in m && RotationAllowed !in m && TrajectoryField !in m && CorridorField !in m
  {
  }

  lemma RequiredReturn(e: Edge)
    ensures var m := RequiredOfEdge(e);
            && TextAt(m, EdgeId) == Ok(e.id) && WholeAt(m, SequenceId) == Ok(e.sequence)
            && TruthAt(m, Released) == Ok(e.released)
            && TextAt(m, StartNodeId) == Ok(e.start) && TextAt(m, EndNodeId) == Ok(e.end)
            && ListAt(m, Actions, ParseAction) == if Complete(e.actions) then Ok(All(e.actions, BareAction)) else Failed
  {
    hide PrintAll, ParseAll, PrintAction, ParseAction, Complete;
    ActionsReturn(e.actions);
  }

  lemma SameReadsTwice(m: map<Field, Json>, n: map<Field, Json>, o: map<Field, Json>, f: Field)
    requires SameAt(m, n, f) && SameAt(n, o, f)
    ensures TextAt(o, f) == TextAt(m, f) && WholeAt(o, f) == WholeAt(m, f) && TruthAt(o, f) == TruthAt(m, f)
    ensures ListAt(o, f, ParseAction) == ListAt(m, f, ParseAction)
  {
    SameReads(m, n, f);
    SameReads(n, o, f);
  }

  lemma EdgeOptions(e: Edge)
    ensures var m := PrintEdge(e).fields;
            && Maybe(m, TrajectoryField, ParseTrajectory) == Ok(e.trajectory)
            && Maybe(m, CorridorField, ParseCorridor) == Ok(e.corridor)
            && MaybeNumber(m, MaxSpeed) == Ok(e.maxSpeed) && MaybeNumber(m, Orientation) == Ok(e.orientation)
            && MaybeTruth(m, RotationAllowed) == Ok(e.rotation)
  {
    hide PrintAction, WithMotion, WithShape, RequiredOfEdge, SameAt,
      MaybeNumber, MaybeTruth, Maybe, ParseTrajectory, ParseCorridor;
    var m := RequiredOfEdge(e);
    var n := WithMotion(m, e);
    NothingOptional(e);
    MotionReturns(m, e);
    NewAt(m, n, TrajectoryField);
    NewAt(m, n, CorridorField);
    ShapeReturns(n, e);
    SameReads(n, WithShape(n, e), MaxSpeed);
    SameReads(n, WithShape(n, e), Orientation);
    SameReads(n, WithShape(n, e), RotationAllowed);
  }

  lemma EdgeKeepsRequired(e: Edge, f: Field)
    requires f != MaxSpeed && f != Orientation && f != RotationAllowed && f != TrajectoryField && f != CorridorField
    ensures var m, full := RequiredOfEdge(e), PrintEdge(e).fields;
            && TextAt(full, f) == TextAt(m, f) && WholeAt(full, f) == WholeAt(m, f) && TruthAt(full, f) == TruthAt(m, f)
            && ListAt(full, f, ParseAction) == ListAt(m, f, ParseAction)
  {
    hide PrintAction, ParseAction, WithMotion, WithShape, RequiredOfEdge, SameAt, TextAt, WholeAt, TruthAt, ListAt;
    var m := RequiredOfEdge(e);
    var n := WithMotion(m, e);
    NothingOptional(e);
    MotionReturns(m, e);
    NewAt(m, n, TrajectoryField);
    NewAt(m, n, CorridorField);
    ShapeReturns(n, e);
    SameReadsTwice(m, n, WithShape(n, e), f);
  }

  lemma EdgeReturns(e: Edge)
    ensures ParseEdge(PrintEdge(e)) == if Complete(e.actions) then Ok(BareEdge(e)) else Failed
  {
    hide ParseAction, Complete, WithMotion, WithShape, RequiredOfEdge,
      MaybeNumber, MaybeTruth, Maybe, TextAt, WholeAt, TruthAt, ListAt, ParseTrajectory, ParseCorridor;
    EdgeOptions(e);
    RequiredReturn(e);
    EdgeKeepsRequired(e, EdgeId);
    EdgeKeepsRequired(e, SequenceId);
    EdgeKeepsRequired(e, Released);
    EdgeKeepsRequired(e, StartNodeId);
    EdgeKeepsRequired(e, EndNodeId);
    EdgeKeepsRequired(e, Actions);
  }

  lemma NewAt(m: map<Field, Json>, n: map<Field, Json>, f: Field)
    requires SameAt(m, n, f) && f !in m
    ensures f !in n
  {
  }

  lemma NodesReturn(nodes: seq<Node>)
    ensures ParseAll(PrintAll(nodes, PrintNode), ParseNode)
         == if forall n :: n in nodes ==> Complete(n.actions) then Ok(All(nodes, BareNode)) else Failed
  {
    hide PrintAll, ParseAll, PrintNode, ParseNode, Complete, All;
    forall n ensures ParseNode(PrintNode(n)) == if Complete(n.actions) then Ok(BareNode(n)) else Failed {
      NodeReturns(n);
    }
    if forall n :: n in nodes ==> Complete(n.actions) {
      AllParsed(nodes, PrintNode, ParseNode, BareNode);
    } else {
      var n :| n in nodes && !Complete(n.actions);
      OneFails(nodes, PrintNode, ParseNode, n);
    }
  }

  lemma EdgesReturn(edges: seq<Edge>)
    ensures ParseAll(PrintAll(edges, PrintEdge), ParseEdge)
         == if forall e :: e in edges ==> Complete(e.actions) then Ok(All(edges, BareEdge)) else Failed
  {
    hide PrintAll, ParseAll, PrintEdge, ParseEdge, Complete, All;
    forall e ensures ParseEdge(PrintEdge(e)) == if Complete(e.actions) then Ok(BareEdge(e)) else Failed {
      EdgeReturns(e);
    }
    if forall e :: e in edges ==> Complete(e.actions) {
      AllParsed(edges, PrintEdge, ParseEdge, BareEdge);
    } else {
      var e :| e in edges && !Complete(e.actions);
      OneFails(edges, PrintEdge, ParseEdge, e);
    }
  }

  /** A printed order is readable exactly if every action parameter has a value; what
      is read is the order with plain values, without descriptions and with a coarse time. */
  lemma OrderReturns(o: Order, now: Timestamp)
    ensures Deserialize(Serialize(o), now) == if CompleteOrder(o) then Ok(Bare(o)) else Failed
  {
    hide PrintAll, ParseAll, PrintNode, ParseNode, PrintEdge, ParseEdge, Complete, All;
    NodesReturn(o.nodes);
    EdgesReturn(o.edges);
  }

  /** The order is as plain as what comes back from the wire. */
  ghost predicate PlainOrder(o: Order) {
    && (forall n :: n in o.nodes ==> n.description == "" && PlainActions(n.actions))
    && (forall e :: e in o.edges ==> e.description == "" && PlainActions(e.actions))
    && o.header.time.zone == Some(0) && o.header.time.local % 1000 == 0
  }

  lemma BareIsSameExactly(o: Order)
    ensures Bare(o) == o <==> PlainOrder(o)
  {
    hide All, PlainActions, BareAction;
    AllSame(o.nodes, BareNode);
    AllSame(o.edges, BareEdge);
    forall n: Node ensures BareNode(n) == n <==> n.description == "" && PlainActions(n.actions) {
      ActionsSurviveExactly(n.actions);
    }
    forall e: Edge ensures BareEdge(e) == e <==> e.description == "" && PlainActions(e.actions) {
      ActionsSurviveExactly(e.actions);
    }
    hide BareNode, BareEdge;
  }

  /** The order comes back unchanged exactly if its parameters have values and these are plain, its
      nodes and edges have no description, and its time is in universal time and whole
      milliseconds. */
  lemma OrderRoundTripExactly(o: Order, now: Timestamp)
    ensures Deserialize(Serialize(o), now) == Ok(o) <==> CompleteOrder(o) && PlainOrder(o)
  {
    hide Deserialize, Serialize, CompleteOrder, Bare, PlainOrder;
    OrderReturns(o, now);
    BareIsSameExactly(o);
  }

  // ----- Every further trip is exact ------------------------------------------------------------------

  lemma {:induction false} BareItems<T>(items: seq<T>, f: T -> T)
    ensures forall y :: y in All(items, f) <==> exists x :: x in items && y == f(x)
  {
    if items != [] {
      BareItems(items[1..], f);
    }
  }

  /** What is read is none only for none itself, and for a member of an enumeration without a
      value. */
  lemma BareParameterIsPlain(p: Parameter)
    ensures IsPlain(BareParameter(p).value)
    ensures BareParameter(p).value == Plain(Null) <==> p.value == Plain(Null) || p.value == Member(Null)
  {
    ReadIsPlain(PrintValue(p.value));
  }

  predicate Valued(a: Action) {
    forall p | p in a.parameters :: p.value != Member(Null)
  }

  predicate AllValued(actions: seq<Action>) {
    forall a | a in actions :: Valued(a)
  }

  /** No parameter is a member of an enumeration without a value. */
  predicate ValuedOrder(o: Order) {
    (forall n | n in o.nodes :: AllValued(n.actions)) && (forall e | e in o.edges :: AllValued(e.actions))
  }

  lemma BareActionIsPlain(a: Action)
    requires CompleteAction(a)
    ensures PlainAction(BareAction(a)) && (CompleteAction(BareAction(a)) <==> Valued(a))
  {
    hide IsPlain, BareParameter, All;
    BareItems(a.parameters, BareParameter);
    forall p ensures IsPlain(BareParameter(p).value)
      ensures BareParameter(p).value == Plain(Null) <==> p.value == Plain(Null) || p.value == Member(Null)
    {
      BareParameterIsPlain(p);
    }
    if p :| p in a.parameters && p.value == Member(Null) {
      assert BareParameter(p) in BareAction(a).parameters;
    }
  }

  lemma BareActionsArePlain(actions: seq<Action>)
    requires Complete(actions)
    ensures PlainActions(All(actions, BareAction)) && (Complete(All(actions, BareAction)) <==> AllValued(actions))
  {
    hide PlainAction, CompleteAction, BareAction, All, Valued;
    BareItems(actions, BareAction);
    forall a | a in actions
      ensures PlainAction(BareAction(a)) && (CompleteAction(BareAction(a)) <==> Valued(a))
    {
      BareActionIsPlain(a);
    }
    if a :| a in actions && !Valued(a) {
      assert BareAction(a) in All(actions, BareAction);
    }
  }

  lemma BareIsPlain(o: Order)
    requires CompleteOrder(o)
    ensures PlainOrder(Bare(o)) && (CompleteOrder(Bare(o)) <==> ValuedOrder(o))
  {
    hide All, PlainActions, BareAction, Complete, AllValued;
    BareItems(o.nodes, BareNode);
    BareItems(o.edges, BareEdge);
    forall n | n in o.nodes
      ensures PlainActions(BareNode(n).actions) && (Complete(BareNode(n).actions) <==> AllValued(n.actions))
    {
      BareActionsArePlain(n.actions);
    }
    forall e | e in o.edges
      ensures PlainActions(BareEdge(e).actions) && (Complete(BareEdge(e).actions) <==> AllValued(e.actions))
    {
      BareActionsArePlain(e.actions);
    }
    if n :| n in o.nodes && !AllValued(n.actions) {
      assert BareNode(n) in Bare(o).nodes;
    }
    if e :| e in o.edges && !AllValued(e.actions) {
      assert BareEdge(e) in Bare(o).edges;
    }
  }

  /** Information is lost once: an order that was read can be sent on unchanged, exactly if no
      parameter was read as none. */
  lemma SecondTripIsExact(o: Order, now: Timestamp, later: Timestamp)
    requires CompleteOrder(o)
    ensures Deserialize(Serialize(o), now).Ok?
    ensures var read := Deserialize(Serialize(o), now).value;
            Deserialize(Serialize(read), later) == Ok(read) <==> ValuedOrder(o)
  {
    hide Deserialize, Serialize, Bare, PlainOrder, CompleteOrder, ValuedOrder;
    OrderReturns(o, now);
    BareIsPlain(o);
    OrderRoundTripExactly(Bare(o), later);
  }

  /** A described node, and nothing else that could change. */
  const DESCRIBED := Order(Header(1, Timestamp(0, Some(0)), "2.0.0", "", ""), "", 0, "",
    [Node("", 0, true, "dock", None, [])], [])

  /** The description does not come back. */
  lemma DescriptionIsLost()
    ensures Deserialize(Serialize(DESCRIBED), DESCRIBED.header.time).Ok?
    ensures Deserialize(Serialize(DESCRIBED), DESCRIBED.header.time) != Ok(DESCRIBED)
  {
    hide Deserialize, Serialize, Bare;
    OrderReturns(DESCRIBED, DESCRIBED.header.time);
    OrderRoundTripExactly(DESCRIBED, DESCRIBED.header.time);
    assert DESCRIBED.nodes[0] in DESCRIBED.nodes;
  }
}
