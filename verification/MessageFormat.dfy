/** The wire format of orders, field by field (VDA 5050 version 2.0.0, section 6.6): what every printed
    field carries, which fields may be missing, and what a missing one is read as. */
module MessageFormat {
  import opened Models
  import opened MessageSerializer

  /** The object has the field, with this value. */
  predicate Has(j: Json, f: Field, v: Json) {
    j.Object? && f in j.fields && j.fields[f] == v
  }

  predicate Lacks(j: Json, f: Field) {
    j.Object? && f !in j.fields
  }

  predicate HasNumber(j: Json, f: Field, r: Option<real>) {
    if r.Some? then Has(j, f, Number(r.value)) else Lacks(j, f)
  }

  predicate HasList(j: Json, f: Field, n: nat) {
    j.Object? && f in j.fields && j.fields[f].List? && |j.fields[f].items| == n
  }

  // ----- The format ------------------------------------------------------------------------------

  ghost predicate ParameterFormat(j: Json, p: Parameter) {
    && Has(j, ParameterKey, Text(p.key))
    && (if p.value == Plain(Null) then Lacks(j, ParameterValue) else Has(j, ParameterValue, PrintValue(p.value)))
  }

  ghost predicate ActionFormat(j: Json, a: Action) {
    && Has(j, ActionType, Text(a.kind)) && Has(j, ActionId, Text(a.id)) && Has(j, ActionDescription, Text(a.description))
    && (a.blocking == NoBlocking ==> Has(j, BlockingType, Text("NONE")))
    && (a.blocking == Soft ==> Has(j, BlockingType, Text("SOFT")))
    && (a.blocking == Hard ==> Has(j, BlockingType, Text("HARD")))
    && HasList(j, ActionParameters, |a.parameters|)
    && forall i :: 0 <= i < |a.parameters| ==> ParameterFormat(j.fields[ActionParameters].items[i], a.parameters[i])
  }

  ghost predicate ActionsFormat(j: Json, actions: seq<Action>) {
    HasList(j, Actions, |actions|) && forall i :: 0 <= i < |actions| ==> ActionFormat(j.fields[Actions].items[i], actions[i])
  }

  ghost predicate PositionFormat(j: Json, p: Position) {
    && Has(j, X, Number(p.x)) && Has(j, Y, Number(p.y)) && Has(j, MapId, Text(p.mapId))
    && HasNumber(j, Theta, p.theta) && HasNumber(j, AllowedDeviationXY, p.deviation) && HasNumber(j, AllowedDeviationTheta, p.turn)
  }

  ghost predicate NodeFormat(j: Json, n: Node) {
    && Has(j, NodeId, Text(n.id)) && Has(j, SequenceId, Whole(n.sequence)) && Has(j, Released, Truth(n.released))
    && Has(j, NodeDescription, Text(n.description)) && ActionsFormat(j, n.actions)
    && (if n.position.Some? then NodePosition in j.fields && PositionFormat(j.fields[NodePosition], n.position.value)
        else Lacks(j, NodePosition))
  }

  ghost predicate TrajectoryFormat(j: Json, t: Trajectory) {
    && Has(j, Degree, Whole(t.degree)) && HasList(j, KnotVector, |t.knots|) && HasList(j, ControlPoints, |t.points|)
    && (forall i :: 0 <= i < |t.knots| ==> j.fields[KnotVector].items[i] == Number(t.knots[i]))
    && (forall i :: 0 <= i < |t.points| ==>
        var p := j.fields[ControlPoints].items[i];
        Has(p, X, Number(t.points[i].x)) && Has(p, Y, Number(t.points[i].y)) && Has(p, Weight, Number(t.points[i].weight)))
  }

  ghost predicate CorridorFormat(j: Json, c: Corridor) {
    Has(j, LeftWidth, Number(c.left)) && Has(j, RightWidth, Number(c.right)) && Has(j, RefPoint, Text("KINEMATICCENTER"))
  }

  ghost predicate MotionFormat(j: Json, e: Edge) {
    && HasNumber(j, MaxSpeed, e.maxSpeed) && HasNumber(j, Orientation, e.orientation)
    && (if e.rotation.Some? then Has(j, RotationAllowed, Truth(e.rotation.value)) else Lacks(j, RotationAllowed))
  }

  ghost predicate ShapeFormat(j: Json, e: Edge) {
    && (if e.trajectory.Some? then j.Object? && TrajectoryField in j.fields && TrajectoryFormat(j.fields[TrajectoryField], e.trajectory.value)
        else Lacks(j, TrajectoryField))
    && (if e.corridor.Some? then j.Object? && CorridorField in j.fields && CorridorFormat(j.fields[CorridorField], e.corridor.value)
        else Lacks(j, CorridorField))
  }

  ghost predicate EdgeFormat(j: Json, e: Edge) {
    && Has(j, EdgeId, Text(e.id)) && Has(j, SequenceId, Whole(e.sequence)) && Has(j, Released, Truth(e.released))
    && Has(j, StartNodeId, Text(e.start)) && Has(j, EndNodeId, Text(e.end)) && Has(j, EdgeDescription, Text(e.description))
    && ActionsFormat(j, e.actions) && MotionFormat(j, e) && ShapeFormat(j, e)
  }

  /** A time is printed in whole milliseconds; a zone set only if there is one. */
  ghost predicate HeadFormat(j: Json, o: Order) {
    && Has(j, HeaderId, Whole(o.header.id)) && Has(j, Time, Stamp(o.header.time.local / 1000))
    && Has(j, Version, Text(o.header.version)) && Has(j, Manufacturer, Text(o.header.manufacturer))
    && Has(j, SerialNumber, Text(o.header.serial)) && Has(j, OrderId, Text(o.id)) && Has(j, OrderUpdateId, Whole(o.update))
    && (if o.zoneSet == "" then Lacks(j, ZoneSetId) else Has(j, ZoneSetId, Text(o.zoneSet)))
  }

  ghost predicate OrderFormat(j: Json, o: Order) {
    && HeadFormat(j, o) && HasList(j, Nodes, |o.nodes|) && HasList(j, Edges, |o.edges|)
    && (forall i :: 0 <= i < |o.nodes| ==> NodeFormat(j.fields[Nodes].items[i], o.nodes[i]))
    && (forall i :: 0 <= i < |o.edges| ==> EdgeFormat(j.fields[Edges].items[i], o.edges[i]))
  }

  // ----- Printing meets it --------------------------------------------------------------------------

  lemma {:induction false} PrintedAll<T>(items: seq<T>, encode: T -> Json)
    ensures |PrintAll(items, encode)| == |items|
    ensures forall i :: 0 <= i < |items| ==> PrintAll(items, encode)[i] == encode(items[i])
  {
    if items != [] {
      PrintedAll(items[1..], encode);
    }
  }

  lemma ParameterPrinted(p: Parameter)
    ensures ParameterFormat(PrintParameter(p), p)
  {
  }

  lemma ActionPrinted(a: Action)
    ensures ActionFormat(PrintAction(a), a)
  {
    hide PrintParameter, ParameterFormat;
    PrintedAll(a.parameters, PrintParameter);
    forall p ensures ParameterFormat(PrintParameter(p), p) {
      ParameterPrinted(p);
    }
  }

  lemma ActionsPrinted(j: Json, actions: seq<Action>)
    requires Has(j, Actions, List(PrintAll(actions, PrintAction)))
    ensures ActionsFormat(j, actions)
  {
    PrintedAll(actions, PrintAction);
    forall i | 0 <= i < |actions| ensures ActionFormat(j.fields[Actions].items[i], actions[i]) {
      ActionPrinted(actions[i]);
    }
  }

  lemma NodePrinted(n: Node)
    ensures NodeFormat(PrintNode(n), n)
  {
    hide ActionFormat, PrintAction;
    ActionsPrinted(PrintNode(n), n.actions);
  }

  lemma TrajectoryPrinted(t: Trajectory)
    ensures TrajectoryFormat(PrintTrajectory(t), t)
  {
    PrintedAll(t.knots, (r: real) => Number(r));
    PrintedAll(t.points, PrintPoint);
    hide PrintAll;
  }

  lemma MotionPrinted(m: map<Field, Json>, e: Edge)
    requires MaxSpeed !in m && Orientation !in m && RotationAllowed !in m
    ensures MotionFormat(Object(WithMotion(m, e)), e)
    ensures forall f :: f !in {MaxSpeed, Orientation, RotationAllowed} ==> SameAt(m, WithMotion(m, e), f)
  {
  }

  lemma ShapePrinted(m: map<Field, Json>, e: Edge)
    requires TrajectoryField !in m && CorridorField !in m
    ensures ShapeFormat(Object(WithShape(m, e)), e)
    ensures forall f :: f !in {TrajectoryField, CorridorField} ==> SameAt(m, WithShape(m, e), f)
  {
    hide PrintTrajectory, TrajectoryFormat;
    if e.trajectory.Some? {
      TrajectoryPrinted(e.trajectory.value);
    }
  }

  lemma EdgePrinted(e: Edge)
    ensures EdgeFormat(PrintEdge(e), e)
  {
    hide PrintAll, ActionsFormat, MotionFormat, ShapeFormat, WithMotion, WithShape;
    var m := RequiredOfEdge(e);
    var n := WithMotion(m, e);
    MotionPrinted(m, e);
    NewAt(m, n, TrajectoryField);
    NewAt(m, n, CorridorField);
    ShapePrinted(n, e);
    var p := WithShape(n, e);
    forall f | f !in {MaxSpeed, Orientation, RotationAllowed, TrajectoryField, CorridorField} ensures SameAt(m, p, f) {
      assert SameAt(m, n, f) && SameAt(n, p, f);
    }
    SameMotion(n, p, e);
    assert SameAt(m, p, Actions) && SameAt(m, p, EdgeId) && SameAt(m, p, SequenceId) && SameAt(m, p, Released);
    assert SameAt(m, p, StartNodeId) && SameAt(m, p, EndNodeId) && SameAt(m, p, EdgeDescription);
    ActionsPrinted(PrintEdge(e), e.actions);
  }

  lemma SameMotion(n: map<Field, Json>, p: map<Field, Json>, e: Edge)
    requires MotionFormat(Object(n), e)
    requires SameAt(n, p, MaxSpeed) && SameAt(n, p, Orientation) && SameAt(n, p, RotationAllowed)
    ensures MotionFormat(Object(p), e)
  {
  }

  lemma HeadPrinted(o: Order)
    ensures HeadFormat(Serialize(o), o)
  {
    hide PrintNode, PrintEdge, PrintAll;
  }

  lemma ListsPrinted(o: Order)
    ensures Has(Serialize(o), Nodes, List(PrintAll(o.nodes, PrintNode)))
    ensures Has(Serialize(o), Edges, List(PrintAll(o.edges, PrintEdge)))
  {
    hide PrintNode, PrintEdge, PrintAll, PrintHeader;
  }

  /** Every order is printed in the format. */
  lemma OrderIsInFormat(o: Order)
    ensures OrderFormat(Serialize(o), o)
  {
    HeadPrinted(o);
    ListsPrinted(o);
    hide PrintNode, PrintEdge, NodeFormat, EdgeFormat, Serialize, HeadFormat;
    PrintedAll(o.nodes, PrintNode);
    PrintedAll(o.edges, PrintEdge);
    forall i | 0 <= i < |o.nodes| ensures NodeFormat(PrintNode(o.nodes[i]), o.nodes[i]) {
      NodePrinted(o.nodes[i]);
    }
    forall i | 0 <= i < |o.edges| ensures EdgeFormat(PrintEdge(o.edges[i]), o.edges[i]) {
      EdgePrinted(o.edges[i]);
    }
  }

  // ----- Reading what is missing ----------------------------------------------------------------------

  /** An order needs its ids only: a header without fields is version 2.0.0 of now, and missing lists are empty. An order
      without one of its ids is refused. */
  lemma MissingFieldsOfOrder(id: string, update: int, now: Timestamp)
    ensures Deserialize(Object(map[OrderId := Text(id), OrderUpdateId := Whole(update)]), now) ==
              Ok(Order(Header(0, now, "2.0.0", "", ""), id, update, "", [], []))
    ensures forall j :: Lacks(j, OrderId) || Lacks(j, OrderUpdateId) ==> Deserialize(j, now) == Failed
  {
  }

  /** Nodes, edges and actions are refused without what identifies them; a control point without a weight has weight one. */
  lemma MissingFieldsOfParts(j: Json)
    ensures Lacks(j, NodeId) || Lacks(j, SequenceId) || Lacks(j, Released) ==> ParseNode(j) == Failed
    ensures Lacks(j, EdgeId) || Lacks(j, SequenceId) || Lacks(j, Released) || Lacks(j, StartNodeId) || Lacks(j, EndNodeId) ==>
              ParseEdge(j) == Failed
    ensures Lacks(j, ActionType) || Lacks(j, ActionId) || Lacks(j, BlockingType) ==> ParseAction(j) == Failed
    ensures Lacks(j, ParameterValue) || Lacks(j, ParameterKey) ==> ParseParameter(j) == Failed
    ensures forall x, y :: j == Object(map[X := Number(x), Y := Number(y)]) ==> ParsePoint(j) == Ok(ControlPoint(x, y, 1.0))
  {
  }

  /** The parts that carry their required fields only: no description, no actions, nothing optional; a corridor runs
      along the kinematic centre. */
  lemma MinimalParts(id: string, kind: string, sequence: int, released: bool, l: real, r: real)
    ensures ParseNode(Object(map[NodeId := Text(id), SequenceId := Whole(sequence), Released := Truth(released)])) ==
              Ok(Node(id, sequence, released, "", None, []))
    ensures ParseAction(Object(map[ActionType := Text(kind), ActionId := Text(id), BlockingType := Text("SOFT")])) ==
              Ok(Action(kind, id, Soft, "", []))
    ensures ParseCorridor(Object(map[LeftWidth := Number(l), RightWidth := Number(r)])) == Ok(Corridor(l, r))
  {
  }

  lemma MinimalEdge(id: string, sequence: int, released: bool, start: string, end: string)
    ensures ParseEdge(Object(map[EdgeId := Text(id), SequenceId := Whole(sequence), Released := Truth(released),
                                 StartNodeId := Text(start), EndNodeId := Text(end)])) ==
              Ok(Edge(id, sequence, released, start, end, "", None, None, None, None, None, []))
  {
    hide ParseAction, ParseTrajectory, ParseCorridor;
  }

  /** An optional field that is null reads as a missing one. */
  lemma NullIsMissing<T>(m: map<Field, Json>, f: Field, decode: Json -> Parsed<T>)
    requires f in m && m[f] == Null
    ensures MaybeNumber(m, f) == MaybeNumber(m - {f}, f) == Ok(None)
    ensures MaybeTruth(m, f) == MaybeTruth(m - {f}, f) == Ok(None)
    ensures Maybe(m, f, decode) == Maybe(m - {f}, f, decode) == Ok(None)
  {
  }

  /** A time is read as universal time. */
  lemma TimeIsUniversal(m: map<Field, Json>, now: Timestamp, ms: int)
    requires Time in m && m[Time] == Stamp(ms)
    ensures ParseHeader(m, now).Ok? ==> ParseHeader(m, now).value.time == Timestamp(ms * 1000, Some(0))
    ensures m.Keys == {Time} ==> ParseHeader(m, now) == Ok(Header(0, Timestamp(ms * 1000, Some(0)), "2.0.0", "", ""))
  {
  }

  /** A blocking type is read exactly from its printed word. */
  lemma BlockingWords(text: string, b: Blocking)
    ensures ParseBlocking(text) == Ok(b) <==> Text(text) == PrintBlocking(b)
    ensures PrintBlocking(NoBlocking) == Text("NONE") && PrintBlocking(Soft) == Text("SOFT") && PrintBlocking(Hard) == Text("HARD")
  {
  }
}
