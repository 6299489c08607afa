/** Loading the corridor configuration. A configuration is refused exactly if it breaks one
    of the loader's rules; one that is accepted is well formed, and every route step leads
    from one end of its block to the other. */
module CorridorRegistries {
  import opened Models

  datatype RawBay = RawBay(id: BayId, node: NodeId, capacity: int)

  datatype RawBlock = RawBlock(
    id: BlockId, domain: DomainId, entryA: BayId, entryB: BayId, capacity: int, edges: set<nat>)

  /** `direction` is absent if the configured text is no direction. */
  datatype RawStep = RawStep(
    block: BlockId, direction: Option<Direction>, destination: BayId, source: Option<BayId>, goal: NodeId)

  datatype RawRoute = RawRoute(starts: set<NodeId>, goals: set<NodeId>, steps: seq<RawStep>)

  // ----- The rules ------------------------------------------------------------------------

  predicate HasBay(bays: seq<RawBay>, h: BayId) {
    exists i | 0 <= i < |bays| :: bays[i].id == h
  }

  predicate BlockOk(bays: seq<RawBay>, blocks: seq<RawBlock>, i: nat)
    requires i < |blocks|
  {
    && (forall j | 0 <= j < i :: blocks[j].id != blocks[i].id)
    && HasBay(bays, blocks[i].entryA) && HasBay(bays, blocks[i].entryB)
    && blocks[i].capacity >= 1
  }

  predicate BlocksOk(bays: seq<RawBay>, blocks: seq<RawBlock>) {
    forall i | 0 <= i < |blocks| :: BlockOk(bays, blocks, i)
  }

  /** The step names a block and goes from one of its ends to the other, to that bay's node. */
  predicate RawStepOk(reg: Registry, step: RawStep) {
    && step.block in reg.blocks && step.direction.Some?
    && step.destination in reg.bays
    && step.destination == reg.blocks[step.block].Exit(step.direction.value)
    && (step.source.Some? ==>
        step.source.value in reg.bays && step.source.value == reg.blocks[step.block].Entry(step.direction.value))
    && step.goal == reg.bays[step.destination].node
  }

  predicate RouteAccepted(reg: Registry, route: RawRoute) {
    route.steps != [] && forall i | 0 <= i < |route.steps| :: RawStepOk(reg, route.steps[i])
  }

  // ----- What is loaded ---------------------------------------------------------------------

  /** What the loader promises of a route step. */
  ghost predicate StepOk(reg: Registry, step: RouteStep) {
    && step.block in reg.blocks
    && (step.direction == AToB ==>
        step.source == Some(reg.blocks[step.block].entryA) && step.destination == reg.blocks[step.block].entryB)
    && (step.direction == BToA ==>
        step.source == Some(reg.blocks[step.block].entryB) && step.destination == reg.blocks[step.block].entryA)
    && step.destination in reg.bays && step.source.Some? && step.source.value in reg.bays
    && step.goal == reg.bays[step.destination].node
  }

  /** A step without a source gets the end its direction starts from. */
  function StepOf(reg: Registry, step: RawStep): RouteStep
    requires RawStepOk(reg, step)
  {
    RouteStep(step.block, step.direction.value, step.destination, step.goal,
      Some(reg.blocks[step.block].Entry(step.direction.value)))
  }

  ghost predicate BaysLoaded(bays: seq<RawBay>, reg: Registry) {
    && |reg.bayOrder| == |bays|
    && (forall i :: 0 <= i < |bays| ==> reg.bayOrder[i] == bays[i].id)
    && (forall h :: h in reg.bays <==> HasBay(bays, h))
    && (forall i :: 0 <= i < |bays| ==>
        bays[i].id in reg.bays && reg.bays[bays[i].id] == BayConfig(bays[i].node, bays[i].capacity))
  }

  ghost predicate BlocksLoaded(blocks: seq<RawBlock>, reg: Registry) {
    && |reg.blockOrder| == |blocks|
    && (forall i :: 0 <= i < |blocks| ==> reg.blockOrder[i] == blocks[i].id)
    && (forall b :: b in reg.blocks <==> exists i :: 0 <= i < |blocks| && blocks[i].id == b)
    && (forall i :: 0 <= i < |blocks| ==>
        && blocks[i].id in reg.blocks
        && reg.blocks[blocks[i].id]
           == BlockConfig(blocks[i].domain, blocks[i].entryA, blocks[i].entryB, blocks[i].capacity, blocks[i].edges))
    && (forall d :: d in reg.domainOrder <==> exists i :: 0 <= i < |blocks| && blocks[i].domain == d)
  }

  ghost predicate RouteLoaded(reg: Registry, raw: RawRoute, route: Route) {
    && RouteAccepted(reg, raw)
    && route.starts == raw.starts && route.goals == raw.goals && |route.steps| == |raw.steps|
    && forall i :: 0 <= i < |raw.steps| ==> route.steps[i] == StepOf(reg, raw.steps[i])
  }

  /** No rule of the loader is broken. */
  ghost predicate ConfigAccepted(bays: seq<RawBay>, blocks: seq<RawBlock>, routes: seq<RawRoute>) {
    && (forall i :: 0 <= i < |bays| ==> bays[i].capacity >= 1)
    && BlocksOk(bays, blocks)
    && exists reg :: BaysLoaded(bays, reg) && BlocksLoaded(blocks, reg) && RoutesAccepted(reg, routes)
  }

  predicate RoutesAccepted(reg: Registry, routes: seq<RawRoute>) {
    forall i | 0 <= i < |routes| :: RouteAccepted(reg, routes[i])
  }

  /** Bays and blocks leave no choice of what is loaded. */
  lemma LoadedAlike(bays: seq<RawBay>, blocks: seq<RawBlock>, one: Registry, two: Registry)
    requires BaysLoaded(bays, one) && BlocksLoaded(blocks, one)
    requires BaysLoaded(bays, two) && BlocksLoaded(blocks, two)
    ensures one.bays == two.bays && one.blocks == two.blocks
  {
    assert forall h :: h in one.bays <==> h in two.bays;
    assert one.bays.Keys == two.bays.Keys;
    forall h | h in one.bays ensures one.bays[h] == two.bays[h] {
      var i :| 0 <= i < |bays| && bays[i].id == h;
      assert one.bays[bays[i].id] == two.bays[bays[i].id];
    }
    assert forall b :: b in one.blocks <==> b in two.blocks;
    assert one.blocks.Keys == two.blocks.Keys;
    forall b | b in one.blocks ensures one.blocks[b] == two.blocks[b] {
      var i :| 0 <= i < |blocks| && blocks[i].id == b;
    }
  }

  lemma RefusedByAll(bays: seq<RawBay>, blocks: seq<RawBlock>, reg: Registry, raw: RawRoute)
    requires BaysLoaded(bays, reg) && BlocksLoaded(blocks, reg) && !RouteAccepted(reg, raw)
    ensures forall other :: BaysLoaded(bays, other) && BlocksLoaded(blocks, other) ==> !RouteAccepted(other, raw)
  {
  }

  method LoadBays(bays: seq<RawBay>) returns (ok: bool, reg: Registry)
    requires forall i, j :: 0 <= i < j < |bays| ==> bays[i].id != bays[j].id
    ensures ok <==> forall i :: 0 <= i < |bays| ==> bays[i].capacity >= 1
    ensures ok ==> BaysLoaded(bays, reg) && reg.blocks == map[] && reg.blockOrder == [] && reg.domainOrder == []
    ensures ok ==> reg.routes == []
  {
    reg := Registry(map[], [], map[], [], [], []);
    for i := 0 to |bays|
      invariant forall j :: 0 <= j < i ==> bays[j].capacity >= 1
      invariant BaysLoaded(bays[..i], reg)
      invariant reg.blocks == map[] && reg.blockOrder == [] && reg.domainOrder == [] && reg.routes == []
    {
      if bays[i].capacity < 1 {
        return false, reg;
      }
      ghost var was := reg;
      reg := reg.(bays := reg.bays[bays[i].id := BayConfig(bays[i].node, bays[i].capacity)],
                  bayOrder := reg.bayOrder + [bays[i].id]);
      OneMoreBay(bays, i, was, reg);
    }
    assert bays[..|bays|] == bays;
    return true, reg;
  }

  lemma OneMoreBay(bays: seq<RawBay>, i: nat, was: Registry, reg: Registry)
    requires i < |bays| && forall j, k :: 0 <= j < k < |bays| ==> bays[j].id != bays[k].id
    requires BaysLoaded(bays[..i], was)
    requires reg == was.(bays := was.bays[bays[i].id := BayConfig(bays[i].node, bays[i].capacity)],
                         bayOrder := was.bayOrder + [bays[i].id])
    ensures BaysLoaded(bays[..i + 1], reg)
  {
  }

  method LoadBlocks(bays: seq<RawBay>, blocks: seq<RawBlock>, reg0: Registry) returns (ok: bool, reg: Registry)
    requires BaysLoaded(bays, reg0) && reg0.blocks == map[] && reg0.blockOrder == [] && reg0.domainOrder == []
    ensures ok <==> BlocksOk(bays, blocks)
    ensures ok ==> BlocksLoaded(blocks, reg) && reg.bays == reg0.bays && reg.bayOrder == reg0.bayOrder
    ensures ok ==> reg.routes == reg0.routes
  {
    reg := reg0;
    for i := 0 to |blocks|
      invariant forall j | 0 <= j < i :: BlockOk(bays, blocks, j)
      invariant BlocksLoaded(blocks[..i], reg)
      invariant reg.bays == reg0.bays && reg.bayOrder == reg0.bayOrder && reg.routes == reg0.routes
    {
      var raw := blocks[i];
      KnownBlock(blocks, i, reg);
      if raw.id in reg.blocks || raw.entryA !in reg.bays || raw.entryB !in reg.bays || raw.capacity < 1 {
        assert !BlockOk(bays, blocks, i);
        return false, reg;
      }
      ghost var was := reg;
      reg := reg.(
        blocks := reg.blocks[raw.id := BlockConfig(raw.domain, raw.entryA, raw.entryB, raw.capacity, raw.edges)],
        blockOrder := reg.blockOrder + [raw.id],
        domainOrder := if raw.domain in reg.domainOrder then reg.domainOrder else reg.domainOrder + [raw.domain]);
      OneMoreBlock(blocks, i, was, reg);
    }
    assert blocks[..|blocks|] == blocks;
    return true, reg;
  }

  lemma KnownBlock(blocks: seq<RawBlock>, i: nat, reg: Registry)
    requires i < |blocks| && BlocksLoaded(blocks[..i], reg)
    ensures blocks[i].id in reg.blocks <==> exists j :: 0 <= j < i && blocks[j].id == blocks[i].id
  {
  }

  lemma OneMoreBlock(blocks: seq<RawBlock>, i: nat, was: Registry, reg: Registry)
    requires i < |blocks| && BlocksLoaded(blocks[..i], was) && blocks[i].id !in was.blocks
    requires reg == was.(
      blocks := was.blocks[blocks[i].id :=
        BlockConfig(blocks[i].domain, blocks[i].entryA, blocks[i].entryB, blocks[i].capacity, blocks[i].edges)],
      blockOrder := was.blockOrder + [blocks[i].id],
      domainOrder := if blocks[i].domain in was.domainOrder then was.domainOrder else was.domainOrder + [blocks[i].domain])
    ensures BlocksLoaded(blocks[..i + 1], reg)
  {
  }

  method LoadRoute(reg: Registry, raw: RawRoute) returns (ok: bool, route: Route)
    ensures ok <==> RouteAccepted(reg, raw)
    ensures ok ==> RouteLoaded(reg, raw, route)
  {
    var steps := [];
    route := Route(raw.starts, raw.goals, []);
    for i := 0 to |raw.steps|
      invariant |steps| == i && forall j :: 0 <= j < i ==> RawStepOk(reg, raw.steps[j])
      invariant forall j :: 0 <= j < i ==> steps[j] == StepOf(reg, raw.steps[j])
    {
      var step := raw.steps[i];
      if step.block !in reg.blocks || step.destination !in reg.bays
         || (step.source.Some? && step.source.value !in reg.bays) || step.direction.None? {
        return false, route;
      }
      var block := reg.blocks[step.block];
      var source := if step.source.Some? then step.source.value else block.Entry(step.direction.value);
      if source != block.Entry(step.direction.value) || step.destination != block.Exit(step.direction.value) {
        return false, route;
      }
      if reg.bays[step.destination].node != step.goal {
        return false, route;
      }
      steps := steps + [RouteStep(step.block, step.direction.value, step.destination, step.goal, Some(source))];
    }
    if steps == [] {
      return false, route;
    }
    return true, route.(steps := steps);
  }

  /** Load a whole configuration, or refuse it. Bay ids are the keys of a dictionary. */
  method LoadRegistry(bays: seq<RawBay>, blocks: seq<RawBlock>, routes: seq<RawRoute>) returns (loaded: Option<Registry>)
    requires forall i, j :: 0 <= i < j < |bays| ==> bays[i].id != bays[j].id
    ensures loaded.Some? <==> ConfigAccepted(bays, blocks, routes)
    ensures loaded.Some? ==>
              var reg := loaded.value;
              && BaysLoaded(bays, reg) && BlocksLoaded(blocks, reg) && |reg.routes| == |routes|
              && (forall i :: 0 <= i < |routes| ==> RouteLoaded(reg, routes[i], reg.routes[i]))
              && reg.WellFormed()
              && (forall i, k :: 0 <= i < |reg.routes| && 0 <= k < |reg.routes[i].steps| ==> StepOk(reg, reg.routes[i].steps[k]))
  {
    var ok, reg := LoadBays(bays);
    if !ok {
      return None;
    }
    ok, reg := LoadBlocks(bays, blocks, reg);
    if !ok {
      return None;
    }
    LoadedWellFormed(bays, blocks, reg);
    var done := [];
    for i := 0 to |routes|
      invariant |done| == i && forall j :: 0 <= j < i ==> RouteLoaded(reg, routes[j], done[j])
    {
      var fine, route := LoadRoute(reg, routes[i]);
      if !fine {
        RefusedByAll(bays, blocks, reg, routes[i]);
        return None;
      }
      done := done + [route];
    }
    var full := reg.(routes := done);
    assert BaysLoaded(bays, full) && BlocksLoaded(blocks, full);
    forall i | 0 <= i < |routes| ensures RouteLoaded(full, routes[i], done[i]) {
      SameRoutes(reg, full, routes[i], done[i]);
    }
    forall i, k | 0 <= i < |done| && 0 <= k < |done[i].steps| ensures StepOk(full, done[i].steps[k]) {
      LoadedStepOk(full, routes[i], done[i], k);
    }
    assert full.WellFormed();
    return Some(full);
  }

  lemma SameRoutes(reg: Registry, full: Registry, raw: RawRoute, route: Route)
    requires full == reg.(routes := full.routes) && RouteLoaded(reg, raw, route)
    ensures RouteLoaded(full, raw, route)
  {
  }

  lemma LoadedStepOk(reg: Registry, raw: RawRoute, route: Route, k: nat)
    requires reg.WellFormed() && RouteLoaded(reg, raw, route) && k < |route.steps|
    ensures StepOk(reg, route.steps[k])
  {
  }

  lemma LoadedWellFormed(bays: seq<RawBay>, blocks: seq<RawBlock>, reg: Registry)
    requires forall i, j :: 0 <= i < j < |bays| ==> bays[i].id != bays[j].id
    requires BaysLoaded(bays, reg) && BlocksLoaded(blocks, reg)
    requires forall i :: 0 <= i < |bays| ==> bays[i].capacity >= 1
    requires BlocksOk(bays, blocks)
    ensures reg.WellFormed()
  {
    forall b ensures b in reg.blockOrder <==> b in reg.blocks {
      if b in reg.blockOrder {
        var i :| 0 <= i < |reg.blockOrder| && reg.blockOrder[i] == b;
        assert blocks[i].id == b;
      }
      if b in reg.blocks {
        var i :| 0 <= i < |blocks| && blocks[i].id == b;
        assert reg.blockOrder[i] == b;
      }
    }
    forall i, j | 0 <= i < j < |reg.blockOrder| ensures reg.blockOrder[i] != reg.blockOrder[j] {
      assert BlockOk(bays, blocks, j);
    }
    forall h ensures h in reg.bayOrder <==> h in reg.bays {
      if h in reg.bayOrder {
        var i :| 0 <= i < |reg.bayOrder| && reg.bayOrder[i] == h;
        assert bays[i].id == h;
      }
      if h in reg.bays {
        var i :| 0 <= i < |bays| && bays[i].id == h;
        assert reg.bayOrder[i] == h;
      }
    }
    forall b | b in reg.blocks
      ensures reg.blocks[b].entryA in reg.bays && reg.blocks[b].entryB in reg.bays
      ensures reg.blocks[b].capacity >= 1 && reg.blocks[b].domain in reg.domainOrder
    {
      var i: nat :| i < |blocks| && blocks[i].id == b;
      assert BlockOk(bays, blocks, i);
    }
    forall h | h in reg.bays ensures reg.bays[h].capacity >= 1 {
      var i :| 0 <= i < |bays| && bays[i].id == h;
    }
  }

  /** The step says what the raw one says, and fills in no more than a missing source. */
  ghost predicate Completes(raw: RawStep, step: RouteStep) {
    && step.block == raw.block && raw.direction == Some(step.direction) && step.destination == raw.destination
    && step.goal == raw.goal && (raw.source == None || raw.source == step.source)
  }

  /** A raw step is accepted exactly if it can be completed to one that crosses its block from end to end. */
  lemma StepAcceptedExactly(reg: Registry, raw: RawStep)
    requires reg.WellFormed()
    ensures RawStepOk(reg, raw) <==> Completable(reg, raw)
  {
    if RawStepOk(reg, raw) {
      var step := StepOf(reg, raw);
      assert StepOk(reg, step) && Completes(raw, step);
    }
  }

  ghost predicate Completable(reg: Registry, raw: RawStep) {
    exists step :: StepOk(reg, step) && Completes(raw, step)
  }

  ghost predicate StepsAcceptable(reg: Registry, routes: seq<RawRoute>) {
    forall i, k :: 0 <= i < |routes| && 0 <= k < |routes[i].steps| ==> Completable(reg, routes[i].steps[k])
  }

  /** A configuration is accepted exactly if what it describes is well formed, and every route has a step and only
      steps that can be completed. */
  lemma ConfigAcceptedExactly(bays: seq<RawBay>, blocks: seq<RawBlock>, routes: seq<RawRoute>)
    requires forall i, j :: 0 <= i < j < |bays| ==> bays[i].id != bays[j].id
    ensures ConfigAccepted(bays, blocks, routes) <==>
              exists reg :: BaysLoaded(bays, reg) && BlocksLoaded(blocks, reg) && reg.WellFormed()
                            && (forall i :: 0 <= i < |routes| ==> routes[i].steps != []) && StepsAcceptable(reg, routes)
  {
    if ConfigAccepted(bays, blocks, routes) {
      var reg :| BaysLoaded(bays, reg) && BlocksLoaded(blocks, reg) && RoutesAccepted(reg, routes);
      LoadedWellFormed(bays, blocks, reg);
      RoutesAcceptedExactly(reg, routes);
    }
    if reg :| BaysLoaded(bays, reg) && BlocksLoaded(blocks, reg) && reg.WellFormed()
              && (forall i :: 0 <= i < |routes| ==> routes[i].steps != []) && StepsAcceptable(reg, routes) {
      RoutesAcceptedExactly(reg, routes);
      WellFormedIsOk(bays, blocks, reg);
    }
  }

  lemma RoutesAcceptedExactly(reg: Registry, routes: seq<RawRoute>)
    requires reg.WellFormed()
    ensures RoutesAccepted(reg, routes) <==>
              (forall i :: 0 <= i < |routes| ==> routes[i].steps != []) && StepsAcceptable(reg, routes)
  {
    hide RawStepOk, Completable;
    forall i, k | 0 <= i < |routes| && 0 <= k < |routes[i].steps|
      ensures RawStepOk(reg, routes[i].steps[k]) <==> Completable(reg, routes[i].steps[k])
    {
      StepAcceptedExactly(reg, routes[i].steps[k]);
    }
    if RoutesAccepted(reg, routes) {
      forall i | 0 <= i < |routes| ensures RouteAccepted(reg, routes[i]) {
      }
    }
    if (forall i :: 0 <= i < |routes| ==> routes[i].steps != []) && StepsAcceptable(reg, routes) {
      forall i | 0 <= i < |routes| ensures RouteAccepted(reg, routes[i]) {
        forall k | 0 <= k < |routes[i].steps| ensures RawStepOk(reg, routes[i].steps[k]) {
          assert Completable(reg, routes[i].steps[k]);
        }
      }
    }
  }

  lemma WellFormedIsOk(bays: seq<RawBay>, blocks: seq<RawBlock>, reg: Registry)
    requires BaysLoaded(bays, reg) && BlocksLoaded(blocks, reg) && reg.WellFormed()
    ensures (forall i :: 0 <= i < |bays| ==> bays[i].capacity >= 1) && BlocksOk(bays, blocks)
  {
    forall i | 0 <= i < |bays| ensures bays[i].capacity >= 1 {
      assert bays[i].id in reg.bays;
    }
    forall i | 0 <= i < |blocks| ensures BlockOk(bays, blocks, i) {
      assert blocks[i].id in reg.blocks;
      forall j | 0 <= j < i ensures blocks[j].id != blocks[i].id {
        assert reg.blockOrder[j] != reg.blockOrder[i];
      }
    }
  }

  // ----- Lookups ----------------------------------------------------------------------------

  predicate Touches(reg: Registry, edges: set<nat>, b: BlockId) {
    b in reg.blocks && edges * reg.blocks[b].edges != {}
  }

  /** The block of the reported edges: only if they touch one block and no second one. */
  method BlockForEdges(reg: Registry, edges: set<nat>) returns (found: Option<BlockId>)
    requires reg.WellFormed()
    ensures forall b :: found == Some(b) <==> Touches(reg, edges, b) && forall c :: Touches(reg, edges, c) ==> c == b
  {
    var matches := [];
    for i := 0 to |reg.blockOrder|
      invariant forall k :: 0 <= k < |matches| ==> matches[k] in reg.blockOrder[..i] && Touches(reg, edges, matches[k])
      invariant forall b :: b in reg.blockOrder[..i] && Touches(reg, edges, b) ==> b in matches
      invariant forall k, l :: 0 <= k < l < |matches| ==> matches[k] != matches[l]
    {
      var b := reg.blockOrder[i];
      assert b !in reg.blockOrder[..i];
      if edges * reg.blocks[b].edges != {} {
        matches := matches + [b];
      }
    }
    assert reg.blockOrder[..|reg.blockOrder|] == reg.blockOrder;
    assert forall b :: Touches(reg, edges, b) <==> b in matches;
    found := if |matches| == 1 then Some(matches[0]) else None;
    if |matches| > 1 {
      assert matches[0] in matches && matches[1] in matches && matches[0] != matches[1];
    }
  }
}
