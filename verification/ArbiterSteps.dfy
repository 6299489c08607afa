/** The public operations of the arbiter as functions on its state, and one step
    of a run. Every operation runs under one lock, so a run of the arbiter is a
    sequence of these steps. */
module ArbiterSteps {
  import opened Models
  import opened ArbiterSpec

  // ----- Requests -----------------------------------------------------------------

  function DecisionFor(reg: Registry, s: State, r: RobotId, b: BlockId): Reply
    requires s.Shaped(reg)
  {
    if b !in reg.blocks then Raised(KeyError)
    else if s.blocks[b].faulted then Answer(Blocked)
    else if Key(r, b) in s.grants || r in s.blocks[b].occupants then Answer(Admit)
    else Answer(Wait)
  }

  lemma EnqueueSuperset(reg: Registry, s: State, x: Reservation)
    requires QueuesShaped(reg, s.waiting) && x.block in s.waiting && x.destination in reg.bays
    ensures QueuesShaped(reg, Enqueue(s, x).waiting)
  {
    var t := Enqueue(s, x);
    forall b, e, y | b in t.waiting && y in t.waiting[b].Of(e)
      ensures y.block == b && y.direction == e && y.destination in reg.bays
    {
      if b == x.block && e == x.direction {
        assert y == x || y in s.waiting[b].Of(e);
      } else {
        assert t.waiting[b].Of(e) == s.waiting[b].Of(e);
      }
    }
  }

  lemma EnqueueShape(reg: Registry, s: State, x: Reservation)
    requires s.Shaped(reg) && x.block in reg.blocks && x.destination in reg.bays
    ensures Enqueue(s, x).Shaped(reg)
  {
    EnqueueSuperset(reg, s, x);
    hide QueuesShaped, Robots, Registry.WellFormed;
  }

  function EnqueueAndReconcile(reg: Registry, s: State, x: Reservation): Effect
    requires s.Shaped(reg) && x.block in reg.blocks && x.destination in reg.bays
  {
    EnqueueShape(reg, s, x);
    var pass := Reconcile(reg, Enqueue(s, x), reg.blocks[x.block].domain);
    ReconcileShape(reg, Enqueue(s, x), reg.blocks[x.block].domain);
    Effect(pass.state, if pass.ok then DecisionFor(reg, pass.state, x.robot, x.block) else Raised(AssertionError))
  }

  function CloseBatch(s: State, domain: DomainId): State
    requires domain in s.domains
  {
    s.(domains := s.domains[domain := s.domains[domain].(closed := true)])
  }

  function Request(reg: Registry, s: State, x: Reservation): Effect
    requires s.Shaped(reg)
  {
    if x.block !in reg.blocks || x.destination !in reg.bays then Effect(s, Raised(KeyError))
    else if Key(x.robot, x.block) in s.grants || x.robot in s.blocks[x.block].occupants then Effect(s, Answer(Admit))
    else if s.blocks[x.block].faulted then Effect(s, Answer(Blocked))
    else if IsWaiting(s, x.robot, x.block) then Effect(s, Answer(Wait))
    else
      var domain := reg.blocks[x.block].domain;
      var was := s.domains[domain];
      if was.active == None then EnqueueAndReconcile(reg, s, x)
      else if was.active != Some(x.direction) then EnqueueAndReconcile(reg, CloseBatch(s, domain), x)
      else if was.closed || !Available(reg, s, x) then Effect(Enqueue(s, x), Answer(Wait))
      else
        var t := Grant(s, x);
        Effect(t, if ChecksPass(reg, t) then Answer(Admit) else Raised(AssertionError))
  }

  // ----- Movement -------------------------------------------------------------------

  /** The robot is inside the block: its reservation becomes an occupancy. */
  function Enter(s: State, x: Reservation): State
    requires x.block in s.blocks
  {
    var block := s.blocks[x.block];
    s.(blocks := s.blocks[x.block := block.(
        reservations := block.reservations - {x.robot},
        occupants := block.occupants[x.robot := x.direction])])
  }

  function DropFromBay(s: State, h: BayId, r: RobotId): State
    requires h in s.bays
  {
    s.(bays := s.bays[h := s.bays[h].Drop(r)])
  }

  function LeaveSource(s: State, x: Reservation): State
    requires x.source.Some? ==> x.source.value in s.bays
  {
    if x.source == None then s else DropFromBay(s, x.source.value, x.robot)
  }

  function ReconcileAndCheck(reg: Registry, s: State, order: seq<DomainId>): Effect
    requires s.Shaped(reg) && forall d :: d in order ==> d in s.domains
  {
    var pass := ReconcileEach(reg, s, order);
    ReconcileEachShape(reg, s, order);
    Effect(pass.state, if pass.ok && ChecksPass(reg, pass.state) then Done else Raised(AssertionError))
  }

  function MarkEntered(reg: Registry, s: State, r: RobotId, b: BlockId): Effect
    requires s.Shaped(reg)
  {
    if b !in reg.blocks then Effect(s, Raised(KeyError))
    else if Key(r, b) !in s.grants then
      Effect(s, if r in s.blocks[b].occupants then Done else Raised(ValueError))
    else
      var x := s.grants[Key(r, b)];
      var t := Enter(s, x);
      if x.source.Some? && x.source.value !in s.bays then Effect(t, Raised(KeyError))
      else ReconcileAndCheck(reg, LeaveSource(t, x), reg.domainOrder)
  }

  /** The robot has left the block: it moves into the bay its grant reserved. */
  function Leave(s: State, r: RobotId, b: BlockId): State
    requires b in s.blocks
    requires Key(r, b) in s.grants ==> s.grants[Key(r, b)].destination in s.bays
  {
    var block := s.blocks[b];
    var t := s.(
      blocks := s.blocks[b := block.(occupants := block.occupants - {r}, reservations := block.reservations - {r})],
      grants := s.grants - {Key(r, b)});
    if Key(r, b) !in s.grants then t
    else
      var h := s.grants[Key(r, b)].destination;
      t.(bays := s.bays[h := Bay(s.bays[h].occupants + {r}, s.bays[h].reservations - {r})])
  }

  function MarkExited(reg: Registry, s: State, r: RobotId, b: BlockId): Effect
    requires s.Shaped(reg)
  {
    if b !in reg.blocks then Effect(s, Raised(KeyError))
    else ReconcileAndCheck(reg, Leave(s, r, b), [reg.blocks[b].domain])
  }

  // ----- Holding bays -----------------------------------------------------------------

  function MoveToBay(s: State, h: BayId, r: RobotId): State
    requires h in s.bays
  {
    s.(bays := map k | k in s.bays :: s.bays[k].(
        occupants := if k == h then s.bays[k].occupants + {r} else s.bays[k].occupants - {r}))
  }

  function OccupyBay(reg: Registry, s: State, h: BayId, r: RobotId): Effect
    requires s.Shaped(reg)
  {
    if h !in reg.bays then Effect(s, Raised(KeyError))
    else if r !in s.bays[h].occupants && |s.bays[h].occupants| >= reg.bays[h].capacity then
      Effect(s, Raised(ValueError))
    else Effect(MoveToBay(s, h, r), Done)
  }

  function ReleaseBay(reg: Registry, s: State, h: BayId, r: RobotId): Effect
    requires s.Shaped(reg)
  {
    if h !in reg.bays then Effect(s, Raised(KeyError))
    else
      var pass := ReconcileEach(reg, DropFromBay(s, h, r), reg.domainOrder);
      Effect(pass.state, if pass.ok then Done else Raised(AssertionError))
  }

  // ----- Cancellation and faults --------------------------------------------------------

  predicate HoldsOneTo(s: State, r: RobotId, targets: seq<BlockId>, h: BayId) {
    exists b | b in targets :: Key(r, b) in s.grants && s.grants[Key(r, b)].destination == h
  }

  /** Every queue entry and every grant of the robot at the target blocks is gone,
      together with the bay places those grants reserved. */
  function Withdraw(s: State, r: RobotId, targets: seq<BlockId>): State {
    s.(waiting := map b | b in s.waiting ::
         if b in targets
         then Queues(WithoutRobot(s.waiting[b].aToB, r), WithoutRobot(s.waiting[b].bToA, r))
         else s.waiting[b],
       grants := map k | k in s.grants && !(k.robot == r && k.block in targets) :: s.grants[k],
       blocks := map b | b in s.blocks ::
         if b in targets then s.blocks[b].(reservations := s.blocks[b].reservations - {r}) else s.blocks[b],
       bays := map h | h in s.bays ::
         if HoldsOneTo(s, r, targets, h)
         then s.bays[h].(reservations := s.bays[h].reservations - {r}) else s.bays[h])
  }

  predicate HasRequest(s: State, r: RobotId, b: BlockId)
    requires b in s.waiting
  {
    Key(r, b) in s.grants || IsWaiting(s, r, b)
  }

  function Targets(reg: Registry, target: Option<BlockId>): seq<BlockId> {
    if target == None then reg.blockOrder else [target.value]
  }

  /** `visit` is an order in which the domains of the target blocks can be visited. */
  ghost predicate VisitsTargets(reg: Registry, target: Option<BlockId>, visit: seq<DomainId>) {
    forall d :: d in visit <==> exists b :: b in Targets(reg, target) && reg.InDomain(b, d)
  }

  /** `visit` is the order in which the set of affected domains is iterated. */
  function Cancel(reg: Registry, s: State, r: RobotId, target: Option<BlockId>, visit: seq<DomainId>): Effect
    requires s.Shaped(reg) && forall d :: d in visit ==> d in s.domains
  {
    if target.Some? && target.value !in reg.blocks then Effect(s, Raised(KeyError))
    else if exists b | b in Targets(reg, target) :: b in s.blocks && r in s.blocks[b].occupants then
      Effect(s, Flag(false))
    else
      var changed := exists b | b in Targets(reg, target) :: b in s.waiting && HasRequest(s, r, b);
      WithdrawShape(reg, s, r, Targets(reg, target));
      var pass := ReconcileEach(reg, Withdraw(s, r, Targets(reg, target)), visit);
      Effect(pass.state, if pass.ok then Flag(changed) else Raised(AssertionError))
  }

  function FirstOccupied(s: State, r: RobotId, order: seq<BlockId>): Option<BlockId> {
    if order == [] then None
    else if order[0] in s.blocks && r in s.blocks[order[0]].occupants then Some(order[0])
    else FirstOccupied(s, r, order[1..])
  }

  function MarkFaulted(s: State, b: BlockId): State
    requires b in s.blocks
  {
    s.(blocks := s.blocks[b := s.blocks[b].(faulted := true)])
  }

  function Fault(reg: Registry, s: State, r: RobotId, visit: seq<DomainId>): Effect
    requires s.Shaped(reg) && forall d :: d in visit ==> d in s.domains
  {
    var inside := FirstOccupied(s, r, reg.blockOrder);
    FirstOccupiedIsFirst(s, r, reg.blockOrder);
    if inside.Some? then Effect(MarkFaulted(s, inside.value), Done)
    else
      var e := Cancel(reg, s, r, None, visit);
      if e.Ok() then Effect(e.state, Done) else e
  }

  function ReportUnexpected(reg: Registry, s: State, r: RobotId, b: BlockId): Effect
    requires s.Shaped(reg)
  {
    if b !in reg.blocks then Effect(s, Raised(KeyError))
    else
      var active := s.domains[reg.blocks[b].domain].active;
      var d := if active == None then AToB else active.value;
      Effect(s.(blocks := s.blocks[b :=
               s.blocks[b].(occupants := s.blocks[b].occupants[r := d], faulted := true)]),
             Done)
  }

  function Initial(reg: Registry): State {
    State(
      map d | d in reg.domainOrder :: Domain(None, false),
      map b | b in reg.blocks :: Queues([], []),
      map[],
      map b | b in reg.blocks :: Block(map[], map[], false),
      map h | h in reg.bays :: Bay({}, {}))
  }

  function Reset(reg: Registry, s: State, force: bool): Effect
    requires s.Shaped(reg)
  {
    if !force && exists b | b in s.blocks :: s.blocks[b].occupants != map[] then Effect(s, Flag(false))
    else Effect(Initial(reg), Flag(true))
  }

  // ----- Runs -----------------------------------------------------------------------------

  datatype Event =
    | Requested(request: Reservation)
    | Entered(robot: RobotId, block: BlockId)
    | Exited(robot: RobotId, block: BlockId)
    | Occupied(bay: BayId, robot: RobotId)
    | Released(bay: BayId, robot: RobotId)
    | Cancelled(robot: RobotId, target: Option<BlockId>, visit: seq<DomainId>)
    | FaultedAt(robot: RobotId, visit: seq<DomainId>)
    | SeenUnexpectedly(robot: RobotId, block: BlockId)
    | WasReset(force: bool)

  /** The only thing an event has to get right is the set of domains that a
      cancellation visits; their order is free. */
  ghost predicate Feasible(reg: Registry, e: Event) {
    match e
    case Cancelled(_, target, visit) => VisitsTargets(reg, target, visit)
    case FaultedAt(_, visit) => VisitsTargets(reg, None, visit)
    case _ => true
  }

  ghost function Step(reg: Registry, s: State, e: Event): Effect
    requires s.Shaped(reg) && Feasible(reg, e)
  {
    VisitedDomains(reg, s, e);
    match e
    case Requested(x) => Request(reg, s, x)
    case Entered(r, b) => MarkEntered(reg, s, r, b)
    case Exited(r, b) => MarkExited(reg, s, r, b)
    case Occupied(h, r) => OccupyBay(reg, s, h, r)
    case Released(h, r) => ReleaseBay(reg, s, h, r)
    case Cancelled(r, target, visit) => Cancel(reg, s, r, target, visit)
    case FaultedAt(r, visit) => Fault(reg, s, r, visit)
    case SeenUnexpectedly(r, b) => ReportUnexpected(reg, s, r, b)
    case WasReset(force) => Reset(reg, s, force)
  }

  // ----- Shape ------------------------------------------------------------------------------

  lemma FirstOccupiedIsFirst(s: State, r: RobotId, order: seq<BlockId>)
    ensures var b := FirstOccupied(s, r, order);
            if b.Some? then b.value in order && b.value in s.blocks && r in s.blocks[b.value].occupants
            else forall c :: c in order && c in s.blocks ==> r !in s.blocks[c].occupants
  {
  }

  lemma VisitedDomains(reg: Registry, s: State, e: Event)
    requires s.Shaped(reg) && Feasible(reg, e)
    ensures e.Cancelled? || e.FaultedAt? ==> forall d :: d in e.visit ==> d in s.domains
  {
  }

  lemma WithoutRobotItems(q: seq<Reservation>, r: RobotId)
    ensures forall x :: x in WithoutRobot(q, r) <==> x in q && x.robot != r
  {
  }

  lemma WithdrawSubset(reg: Registry, s: State, r: RobotId, targets: seq<BlockId>)
    requires QueuesShaped(reg, s.waiting)
    ensures QueuesShaped(reg, Withdraw(s, r, targets).waiting)
  {
    var t := Withdraw(s, r, targets);
    hide HoldsOneTo;
    forall b, e, y | b in t.waiting && y in t.waiting[b].Of(e)
      ensures y.block == b && y.direction == e && y.destination in reg.bays
    {
      WithoutRobotItems(s.waiting[b].Of(e), r);
      assert y in s.waiting[b].Of(e);
    }
  }

  lemma WithdrawShape(reg: Registry, s: State, r: RobotId, targets: seq<BlockId>)
    requires s.Shaped(reg)
    ensures Withdraw(s, r, targets).Shaped(reg)
  {
    WithdrawSubset(reg, s, r, targets);
    hide QueuesShaped, Registry.WellFormed, HoldsOneTo, WithoutRobot;
  }

  lemma RequestShape(reg: Registry, s: State, x: Reservation)
    requires s.Shaped(reg)
    ensures Request(reg, s, x).state.Shaped(reg)
  {
    hide Enqueue, Grant, CloseBatch, EnqueueAndReconcile, ChecksPass, Available, IsWaiting;
    var t := Request(reg, s, x).state;
    if t != s {
      var domain := reg.blocks[x.block].domain;
      if s.domains[domain].active == None {
        EnqueueAndReconcileShape(reg, s, x);
      } else if s.domains[domain].active != Some(x.direction) {
        CloseBatchShape(reg, s, domain);
        EnqueueAndReconcileShape(reg, CloseBatch(s, domain), x);
      } else if t == Enqueue(s, x) {
        EnqueueShape(reg, s, x);
      } else {
        DirectGrantShape(reg, s, x);
      }
    }
  }

  lemma CloseBatchShape(reg: Registry, s: State, domain: DomainId)
    requires s.Shaped(reg) && domain in s.domains
    ensures CloseBatch(s, domain).Shaped(reg)
  {
  }

  lemma EnqueueAndReconcileShape(reg: Registry, s: State, x: Reservation)
    requires s.Shaped(reg) && x.block in reg.blocks && x.destination in reg.bays
    ensures EnqueueAndReconcile(reg, s, x).state.Shaped(reg)
  {
    EnqueueShape(reg, s, x);
    ReconcileShape(reg, Enqueue(s, x), reg.blocks[x.block].domain);
  }

  lemma EnterShape(reg: Registry, s: State, x: Reservation)
    requires s.Shaped(reg) && x.block in reg.blocks
    ensures Enter(s, x).Shaped(reg)
    ensures x.source.Some? && x.source.value in s.bays ==> LeaveSource(Enter(s, x), x).Shaped(reg)
    ensures Enter(s, x).domains == s.domains && Enter(s, x).bays == s.bays
  {
  }

  lemma MarkEnteredShape(reg: Registry, s: State, r: RobotId, b: BlockId)
    requires s.Shaped(reg)
    ensures MarkEntered(reg, s, r, b).state.Shaped(reg)
  {
    if b in reg.blocks && Key(r, b) in s.grants {
      var x := s.grants[Key(r, b)];
      EnterShape(reg, s, x);
      if x.source.Some? ==> x.source.value in s.bays {
        ReconcileEachShape(reg, LeaveSource(Enter(s, x), x), reg.domainOrder);
      }
    }
    hide ReconcileEach, ChecksPass, Enter, State.Shaped;
  }

  lemma MarkExitedShape(reg: Registry, s: State, r: RobotId, b: BlockId)
    requires s.Shaped(reg)
    ensures MarkExited(reg, s, r, b).state.Shaped(reg)
  {
    hide QueuesShaped, ReconcileEach, ChecksPass;
    if b in reg.blocks {
      ReconcileEachShape(reg, Leave(s, r, b), [reg.blocks[b].domain]);
    }
  }

  lemma CancelShape(reg: Registry, s: State, r: RobotId, target: Option<BlockId>, visit: seq<DomainId>)
    requires s.Shaped(reg) && forall d :: d in visit ==> d in s.domains
    ensures Cancel(reg, s, r, target, visit).state.Shaped(reg)
  {
    hide QueuesShaped, GrantsShaped, Registry.WellFormed, ReconcileEach, ChecksPass, Withdraw;
    WithdrawShape(reg, s, r, Targets(reg, target));
    ReconcileEachShape(reg, Withdraw(s, r, Targets(reg, target)), visit);
  }

  lemma FaultShape(reg: Registry, s: State, r: RobotId, visit: seq<DomainId>)
    requires s.Shaped(reg) && forall d :: d in visit ==> d in s.domains
    ensures Fault(reg, s, r, visit).state.Shaped(reg)
  {
    FirstOccupiedIsFirst(s, r, reg.blockOrder);
    hide QueuesShaped, Registry.WellFormed, GrantsShaped, Cancel, FirstOccupied;
    CancelShape(reg, s, r, None, visit);
  }

  lemma OccupyShape(reg: Registry, s: State, h: BayId, r: RobotId)
    requires s.Shaped(reg)
    ensures OccupyBay(reg, s, h, r).state.Shaped(reg)
  {
  }

  lemma ReleaseShape(reg: Registry, s: State, h: BayId, r: RobotId)
    requires s.Shaped(reg)
    ensures ReleaseBay(reg, s, h, r).state.Shaped(reg)
  {
    hide QueuesShaped, Registry.WellFormed, GrantsShaped, ReconcileEach, ChecksPass;
    if h in reg.bays {
      ReconcileEachShape(reg, DropFromBay(s, h, r), reg.domainOrder);
    }
  }

  lemma UnexpectedShape(reg: Registry, s: State, r: RobotId, b: BlockId)
    requires s.Shaped(reg)
    ensures ReportUnexpected(reg, s, r, b).state.Shaped(reg)
  {
  }

  lemma InitialShape(reg: Registry)
    requires reg.WellFormed()
    ensures Initial(reg).Shaped(reg)
  {
  }

  /** Every step keeps the dictionaries in shape, whatever it is called with. */
  lemma StepShape(reg: Registry, s: State, e: Event)
    requires s.Shaped(reg) && Feasible(reg, e)
    ensures Step(reg, s, e).state.Shaped(reg)
  {
    VisitedDomains(reg, s, e);
    assert reg.WellFormed();
    hide State.Shaped;
    match e
    case Requested(x) => RequestShape(reg, s, x);
    case Entered(r, b) => MarkEnteredShape(reg, s, r, b);
    case Exited(r, b) => MarkExitedShape(reg, s, r, b);
    case Occupied(h, r) => OccupyShape(reg, s, h, r);
    case Released(h, r) => ReleaseShape(reg, s, h, r);
    case Cancelled(r, target, visit) => CancelShape(reg, s, r, target, visit);
    case FaultedAt(r, visit) => FaultShape(reg, s, r, visit);
    case SeenUnexpectedly(r, b) => UnexpectedShape(reg, s, r, b);
    case WasReset(force) => InitialShape(reg);
  }
}
