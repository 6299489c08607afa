/** The runtime checks of the arbiter never fire, and every bay keeps its bound, in
    every run whose callers follow a short protocol. */
module ArbiterLegal {
  import opened Models
  import opened ArbiterSpec
  import opened ArbiterSteps
  import opened ArbiterSafety
  import opened ArbiterProgress
  import opened ArbiterRuns
  import opened ArbiterChecks
  import opened ArbiterOrder

  // ----- The invariant of legal runs ---------------------------------------------------------

  ghost predicate Holds(waiting: map<BlockId, Queues>, grants: map<Key, Reservation>, r: RobotId, b: BlockId) {
    Key(r, b) in grants || (b in waiting && waiting[b].Has(r))
  }

  /** Each robot has at most one outstanding request. */
  ghost predicate OneRequestEach(waiting: map<BlockId, Queues>, grants: map<Key, Reservation>) {
    forall r, b, c :: Holds(waiting, grants, r, b) && Holds(waiting, grants, r, c) ==> b == c
  }

  /** A request leads from one end of its block to the other. */
  ghost predicate EndToEnd(reg: Registry, x: Reservation) {
    && x.block in reg.blocks
    && x.destination == reg.blocks[x.block].Exit(x.direction)
    && (x.source.Some? ==> x.source.value == reg.blocks[x.block].Entry(x.direction))
  }

  ghost predicate AllEndToEnd(reg: Registry, waiting: map<BlockId, Queues>, grants: map<Key, Reservation>) {
    && (forall k :: k in grants ==> EndToEnd(reg, grants[k]))
    && (forall b, d, x :: b in waiting && x in waiting[b].Of(d) ==> EndToEnd(reg, x))
  }

  /** Every live grant keeps its place in the destination bay. */
  ghost predicate DestinationsReserved(grants: map<Key, Reservation>, bays: map<BayId, Bay>) {
    forall k :: k in grants ==>
      grants[k].destination in bays && k.robot in bays[grants[k].destination].reservations
  }

  ghost predicate Tidy(reg: Registry, s: State) {
    && OneRequestEach(s.waiting, s.grants)
    && AllEndToEnd(reg, s.waiting, s.grants)
    && DestinationsReserved(s.grants, s.bays)
    && BaysWithin(reg, s.bays)
  }

  /** The two ends of every block are different bays. */
  ghost predicate DistinctEnds(reg: Registry) {
    forall b :: b in reg.blocks ==> reg.blocks[b].entryA != reg.blocks[b].entryB
  }

  /** What callers must respect. */
  ghost predicate Legal(reg: Registry, s: State, e: Event)
    requires s.Keyed(reg)
  {
    match e
    case Requested(x) => EndToEnd(reg, x) && forall c :: Holds(s.waiting, s.grants, x.robot, c) ==> c == x.block
    case Occupied(h, r) => h in s.bays ==> r in s.bays[h].Used() || |s.bays[h].Used()| < reg.bays[h].capacity
    case Released(h, r) => forall k :: k in s.grants && k.robot == r ==> s.grants[k].destination != h
    case _ => true
  }

  // ----- Admissions keep the invariant ----------------------------------------------------------

  lemma GrantReserved(s: State, x: Reservation)
    requires x.block in s.blocks && x.destination in s.bays && DestinationsReserved(s.grants, s.bays)
    ensures DestinationsReserved(Grant(s, x).grants, Grant(s, x).bays)
  {
  }

  lemma GrantTidy(reg: Registry, s: State, x: Reservation)
    requires s.Keyed(reg) && x.block in s.blocks && x.destination in s.bays
    requires Tidy(reg, s) && Available(reg, s, x) && EndToEnd(reg, x)
    requires forall c :: Holds(s.waiting, s.grants, x.robot, c) ==> c == x.block
    ensures Tidy(reg, Grant(s, x))
  {
    GrantBays(reg, s, x);
    GrantReserved(s, x);
    assert forall r, b :: Holds(s.waiting, Grant(s, x).grants, r, b) ==>
      Holds(s.waiting, s.grants, r, b) || (r == x.robot && b == x.block);
    hide BaysWithin, DestinationsReserved, EndToEnd, Available, Holds;
  }

  lemma DequeueTidy(reg: Registry, s: State, x: Reservation, d: Direction)
    requires x.block in s.waiting && x in s.waiting[x.block].Of(d) && QueuesDistinct(s.waiting, s.blocks, s.grants)
    requires Tidy(reg, s)
    ensures var t := Dequeue(s, x, d);
            Tidy(reg, t) && forall c :: Holds(t.waiting, t.grants, x.robot, c) ==> c == x.block
    ensures EndToEnd(reg, x)
  {
    var t := Dequeue(s, x, d);
    QueueRemaining(s.waiting[x.block], x, d);
    RemainingItems(s.waiting[x.block].Of(d), x);
    assert forall r, b :: Holds(t.waiting, t.grants, r, b) ==> Holds(s.waiting, s.grants, r, b);
    assert Holds(s.waiting, s.grants, x.robot, x.block);
    forall b, e, y | b in t.waiting && y in t.waiting[b].Of(e) ensures EndToEnd(reg, y) {
      assert y in s.waiting[b].Of(e);
    }
    hide Holds, BaysWithin, DestinationsReserved, EndToEnd;
  }

  lemma TidyBays(reg: Registry, s: State)
    requires Tidy(reg, s)
    ensures BaysWithin(reg, s.bays)
  {
  }

  /** In a legal state an admission keeps the invariant and passes the checks. */
  lemma AdmitTidy(reg: Registry, s: State, x: Reservation, d: Direction)
    requires Core(reg, s) && Tidy(reg, s) && x.block in reg.blocks && x in s.waiting[x.block].Of(d)
    requires x.destination in reg.bays && Available(reg, s, x)
    requires s.domains[reg.blocks[x.block].domain].active == Some(d)
    ensures var t := Grant(Dequeue(s, x, d), x); t.Keyed(reg) && Tidy(reg, t) && ChecksPass(reg, t)
  {
    hide Tidy, GrantsHeld, QueuesDistinct, WithinCapacity, OneDirection, Registry.WellFormed;
    AdmitKeepsCore(reg, s, x, d);
    DequeueTidy(reg, s, x, d);
    var t := Dequeue(s, x, d);
    DequeueSameRoom(reg, s, x, d);
    GrantTidy(reg, t, x);
    TidyBays(reg, Grant(t, x));
    ChecksHold(reg, Grant(t, x));
  }

  lemma PassTidy(reg: Registry, s: State, domain: DomainId, items: seq<Reservation>, d: Direction)
    requires Core(reg, s) && Tidy(reg, s) && domain in s.domains && s.domains[domain].active == Some(d)
    requires Pending(reg, s, domain, items, d)
    ensures GrantPass(reg, s, items, d).ok && Tidy(reg, GrantPass(reg, s, items, d).state)
    decreases |items|
  {
    if items != [] {
      var x := items[0];
      assert x in items;
      hide OneRequestEach, AllEndToEnd, DestinationsReserved, BaysWithin, GrantsHeld, QueuesDistinct, WithinCapacity,
        OneDirection, ChecksPass, QueuesShaped, GrantsShaped, Registry.WellFormed, Available, DistinctKeys;
      if !Available(reg, s, x) {
        PendingTail(reg, s, domain, items, d);
        PassTidy(reg, s, domain, items[1..], d);
      } else {
        AdmitTidy(reg, s, x, d);
        AdmitKeepsCore(reg, s, x, d);
        PendingAfterAdmit(reg, s, domain, items, d);
        PassTidy(reg, Grant(Dequeue(s, x, d), x), domain, items[1..], d);
      }
    }
  }

  lemma DomainsTidy(reg: Registry, s: State, t: State)
    requires Tidy(reg, s) && t == s.(domains := t.domains)
    ensures Tidy(reg, t)
  {
  }

  lemma ReconcileTidy(reg: Registry, s: State, domain: DomainId)
    requires Core(reg, s) && Tidy(reg, s) && domain in s.domains
    ensures Reconcile(reg, s, domain).ok && Tidy(reg, Reconcile(reg, s, domain).state)
  {
    if !Faulted(reg, s.blocks, domain) {
      PrepareShape(reg, s, domain);
      PrepareKeepsCore(reg, s, domain);
      var p := Prepare(reg, s, domain);
      DomainsTidy(reg, s, p);
      if p.domains[domain].active.Some? {
        ServeTidy(reg, p, domain, p.domains[domain].active.value);
      }
    }
    hide Prepare, Serve, Tidy, GrantsHeld, QueuesDistinct, WithinCapacity, OneDirection, QueuesShaped, GrantsShaped,
      Registry.WellFormed;
  }

  lemma ServeTidy(reg: Registry, s: State, domain: DomainId, d: Direction)
    requires Core(reg, s) && Tidy(reg, s) && domain in s.domains && s.domains[domain].active == Some(d)
    ensures Serve(reg, s, domain, d).ok && Tidy(reg, Serve(reg, s, domain, d).state)
  {
    DomainPending(reg, s, domain, d);
    CollectedItems(reg, s, domain);
    var items := RoundItems(reg, s, domain, d);
    PassTidy(reg, s, domain, items, d);
    PassMoves(reg, s, domain, items, d);
    var t := GrantPass(reg, s, items, d).state;
    CloseReason(reg, t, domain, d);
    DomainsTidy(reg, t, CloseIfOpposed(reg, t, domain, d));
    hide GrantPass, CloseIfOpposed, Tidy, Moved, Pending, GrantsHeld, QueuesDistinct, WithinCapacity, OneDirection, QueuesShaped, GrantsShaped,
      Registry.WellFormed;
  }

  lemma EachTidy(reg: Registry, s: State, order: seq<DomainId>)
    requires Core(reg, s) && Tidy(reg, s) && forall d :: d in order ==> d in s.domains
    ensures ReconcileEach(reg, s, order).ok && Tidy(reg, ReconcileEach(reg, s, order).state)
    decreases |order|
  {
    hide Reconcile, Tidy, BlocksMoved, BaysMoved, QueuesMoved, GrantsMoved, GrantsHeld, QueuesDistinct, WithinCapacity,
      OneDirection, QueuesShaped, GrantsShaped, Registry.WellFormed;
    if order != [] {
      ReconcileTidy(reg, s, order[0]);
      ReconcileMoves(reg, s, order[0]);
      EachTidy(reg, Reconcile(reg, s, order[0]).state, order[1..]);
    }
  }

  // ----- The moves of the callers keep the invariant ------------------------------------------------

  lemma EnqueueTidy(reg: Registry, s: State, x: Reservation)
    requires x.block in s.waiting && Tidy(reg, s) && EndToEnd(reg, x) && !s.waiting[x.block].Has(x.robot)
    requires QueueDistinct(s.waiting[x.block])
    requires forall c :: Holds(s.waiting, s.grants, x.robot, c) ==> c == x.block
    ensures Tidy(reg, Enqueue(s, x))
  {
    var u := Enqueue(s, x);
    EnqueuedWaits(s, x);
    assert forall r, b :: Holds(u.waiting, u.grants, r, b) ==> Holds(s.waiting, s.grants, r, b) || (r == x.robot && b == x.block);
    forall b, e, y | b in u.waiting && y in u.waiting[b].Of(e) ensures EndToEnd(reg, y) {
      assert y == x || y in s.waiting[b].Of(e);
    }
    hide Holds, BaysWithin, DestinationsReserved, EndToEnd;
  }

  lemma RequestTidy(reg: Registry, s: State, x: Reservation)
    requires Core(reg, s) && Tidy(reg, s) && Legal(reg, s, Requested(x))
    ensures Tidy(reg, Prelude(reg, s, Requested(x)))
  {
    if IsNewRequest(reg, s, x) {
      var c := CloseBatch(s, reg.blocks[x.block].domain);
      DomainsTidy(reg, s, c);
      EnqueueTidy(reg, s, x);
      EnqueueTidy(reg, c, x);
      if AdmitsAtOnce(reg, s, x) {
        GrantTidy(reg, s, x);
      }
    }
    hide Tidy, Enqueue, Grant, CloseBatch;
  }

  /** Dropping a robot from a bay where it holds no grant's place. */
  lemma DropTidy(reg: Registry, s: State, h: BayId, r: RobotId)
    requires h in s.bays && Tidy(reg, s)
    requires forall k :: k in s.grants && k.robot == r ==> s.grants[k].destination != h
    ensures Tidy(reg, DropFromBay(s, h, r))
  {
    var t := DropFromBay(s, h, r);
    SubsetSize(t.bays[h].Used(), s.bays[h].Used());
    assert BaysWithin(reg, t.bays);
    assert DestinationsReserved(t.grants, t.bays);
    hide BaysWithin, DestinationsReserved, OneRequestEach, AllEndToEnd;
  }

  lemma EnterTidy(reg: Registry, s: State, x: Reservation)
    requires Core(reg, s) && Tidy(reg, s) && DistinctEnds(reg) && Granted(s.grants, x) && x.block in s.blocks
    ensures Tidy(reg, Enter(s, x))
    ensures x.source.Some? ==> x.source.value in s.bays && Tidy(reg, LeaveSource(Enter(s, x), x))
  {
    var e := Enter(s, x);
    assert e.waiting == s.waiting && e.grants == s.grants && e.bays == s.bays;
    assert Tidy(reg, e);
    var key := Key(x.robot, x.block);
    assert key in s.grants && EndToEnd(reg, x);
    if x.source.Some? {
      forall k | k in e.grants && k.robot == x.robot ensures e.grants[k].destination != x.source.value {
        assert k == Key(k.robot, k.block);
        assert Holds(s.waiting, s.grants, x.robot, k.block) && Holds(s.waiting, s.grants, x.robot, x.block);
      }
      hide Tidy;
      DropTidy(reg, e, x.source.value, x.robot);
    }
  }

  lemma LeaveBays(reg: Registry, s: State, r: RobotId, b: BlockId)
    requires s.Shaped(reg) && b in reg.blocks && BaysWithin(reg, s.bays) && DestinationsReserved(s.grants, s.bays)
    requires OneRequestEach(s.waiting, s.grants)
    ensures BaysWithin(reg, Leave(s, r, b).bays)
    ensures DestinationsReserved(Leave(s, r, b).grants, Leave(s, r, b).bays)
  {
    var t := Leave(s, r, b);
    hide Registry.WellFormed, QueuesShaped;
    if Key(r, b) in s.grants {
      var h := s.grants[Key(r, b)].destination;
      assert t.bays[h].Used() == s.bays[h].Used();
      forall k | k in t.grants ensures k.robot in t.bays[t.grants[k].destination].reservations {
        assert k in s.grants && k != Key(r, b) && k == Key(k.robot, k.block);
        assert Holds(s.waiting, s.grants, k.robot, k.block) && Holds(s.waiting, s.grants, r, b);
      }
    }
  }

  lemma LeaveTidy(reg: Registry, s: State, r: RobotId, b: BlockId)
    requires s.Shaped(reg) && b in reg.blocks && Tidy(reg, s)
    ensures Tidy(reg, Leave(s, r, b))
  {
    LeaveBays(reg, s, r, b);
    LeaveGone(s, r, b);
    assert Leave(s, r, b).waiting == s.waiting;
    hide Leave, BaysWithin, DestinationsReserved, EndToEnd, Registry.WellFormed, QueuesShaped;
    assert forall q, c :: Holds(s.waiting, Leave(s, r, b).grants, q, c) ==> Holds(s.waiting, s.grants, q, c);
  }

  lemma OccupyTidy(reg: Registry, s: State, h: BayId, r: RobotId)
    requires s.Keyed(reg) && h in s.bays && Tidy(reg, s) && Legal(reg, s, Occupied(h, r))
    ensures Tidy(reg, MoveToBay(s, h, r))
  {
    var t := MoveToBay(s, h, r);
    forall k | k in t.bays ensures |t.bays[k].Used()| <= reg.bays[k].capacity {
      if k == h {
        assert t.bays[k].Used() == s.bays[k].Used() + {r};
      } else {
        SubsetSize(t.bays[k].Used(), s.bays[k].Used());
      }
    }
    hide OneRequestEach, AllEndToEnd;
  }

  lemma OneHolder(s: State, r: RobotId, b: BlockId, c: BlockId)
    requires OneRequestEach(s.waiting, s.grants) && Key(r, b) in s.grants && Key(r, c) in s.grants
    ensures b == c
  {
    assert Holds(s.waiting, s.grants, r, b) && Holds(s.waiting, s.grants, r, c);
  }

  lemma WithdrawReserved(reg: Registry, s: State, r: RobotId, targets: seq<BlockId>)
    requires DestinationsReserved(s.grants, s.bays) && GrantsShaped(reg, s.grants) && OneRequestEach(s.waiting, s.grants)
    ensures DestinationsReserved(Withdraw(s, r, targets).grants, Withdraw(s, r, targets).bays)
  {
    hide WithoutRobot, Holds, OneRequestEach;
    var t := Withdraw(s, r, targets);
    forall k | k in t.grants
      ensures t.grants[k].destination in t.bays && k.robot in t.bays[t.grants[k].destination].reservations
    {
      assert k in s.grants && k == Key(k.robot, k.block);
      if k.robot == r && HoldsOneTo(s, r, targets, s.grants[k].destination) {
        var b :| b in targets && Key(r, b) in s.grants;
        OneHolder(s, r, b, k.block);
        assert false;
      }
    }
  }

  ghost predicate FewerQueued(s: map<BlockId, Queues>, t: map<BlockId, Queues>) {
    && (forall b :: b in t ==> b in s)
    && (forall b, q :: b in t && t[b].Has(q) ==> s[b].Has(q))
    && (forall b, d, x :: b in t && x in t[b].Of(d) ==> x in s[b].Of(d))
  }

  lemma FewerRequests(
    reg: Registry, s: map<BlockId, Queues>, t: map<BlockId, Queues>, g: map<Key, Reservation>, h: map<Key, Reservation>)
    requires FewerQueued(s, t) && SubGrants(g, h) && OneRequestEach(s, g) && AllEndToEnd(reg, s, g)
    ensures OneRequestEach(t, h) && AllEndToEnd(reg, t, h)
  {
    assert forall q, c :: Holds(t, h, q, c) ==> Holds(s, g, q, c);
    hide EndToEnd, Holds, Queues.Has;
  }

  lemma WithdrawFewer(s: State, r: RobotId, targets: seq<BlockId>)
    requires QueuesDistinct(s.waiting, s.blocks, s.grants)
    ensures FewerQueued(s.waiting, Withdraw(s, r, targets).waiting)
  {
    var t := Withdraw(s, r, targets);
    forall b | b in t.waiting
      ensures forall q :: t.waiting[b].Has(q) ==> s.waiting[b].Has(q)
      ensures forall e, y :: y in t.waiting[b].Of(e) ==> y in s.waiting[b].Of(e)
    {
      WithdrawQueue(s.waiting[b], r);
      WithoutRobotItems(s.waiting[b].aToB, r);
      WithoutRobotItems(s.waiting[b].bToA, r);
    }
    hide WithoutRobot, Queues.Has, HoldsOneTo;
  }

  lemma WithdrawTidy(reg: Registry, s: State, r: RobotId, targets: seq<BlockId>)
    requires Core(reg, s) && Tidy(reg, s)
    ensures Tidy(reg, Withdraw(s, r, targets))
  {
    WithdrawWithin(reg, s, r, targets);
    WithdrawReserved(reg, s, r, targets);
    WithdrawFewer(s, r, targets);
    WithdrawConserved(s, r, targets);
    hide OneRequestEach, AllEndToEnd, DestinationsReserved, BaysWithin, FewerQueued, SubGrants, Withdraw;
    FewerRequests(reg, s.waiting, Withdraw(s, r, targets).waiting, s.grants, Withdraw(s, r, targets).grants);
  }

  lemma WithdrawConserved(s: State, r: RobotId, targets: seq<BlockId>)
    ensures SubGrants(s.grants, Withdraw(s, r, targets).grants)
  {
  }

  lemma InitialTidy(reg: Registry)
    requires reg.WellFormed()
    ensures Tidy(reg, Initial(reg))
  {
  }

  /** A legal step starts its reconciliations in a tidy state. */
  lemma PreludeTidy(reg: Registry, s: State, e: Event)
    requires Core(reg, s) && Tidy(reg, s) && Feasible(reg, e) && Legal(reg, s, e) && DistinctEnds(reg)
    ensures Tidy(reg, Prelude(reg, s, e))
  {
    hide OneRequestEach, AllEndToEnd, DestinationsReserved, BaysWithin, GrantsHeld, QueuesDistinct, WithinCapacity,
      OneDirection, QueuesShaped, Registry.WellFormed, Holds, Enter, Leave, Withdraw, MoveToBay, Enqueue, Grant;
    match e
    case Requested(x) => RequestTidy(reg, s, x);
    case Entered(r, b) =>
      if Key(r, b) in s.grants {
        EnterTidy(reg, s, s.grants[Key(r, b)]);
      }
    case Exited(r, b) =>
      if b in reg.blocks {
        LeaveTidy(reg, s, r, b);
      }
    case Occupied(h, r) =>
      if h in reg.bays {
        OccupyTidy(reg, s, h, r);
      }
    case Released(h, r) =>
      if h in reg.bays {
        DropTidy(reg, s, h, r);
      }
    case Cancelled(r, target, visit) => WithdrawTidy(reg, s, r, Targets(reg, target));
    case FaultedAt(r, visit) =>
      WithdrawTidy(reg, s, r, reg.blockOrder);
      FirstOccupiedIsFirst(s, r, reg.blockOrder);
    case SeenUnexpectedly(r, b) =>
    case WasReset(force) => InitialTidy(reg);
  }

  /** In a legal step no runtime check fails, and the invariant survives. */
  lemma StepLegal(reg: Registry, s: State, e: Event)
    requires Core(reg, s) && Tidy(reg, s) && Feasible(reg, e) && Legal(reg, s, e) && DistinctEnds(reg)
    ensures Step(reg, s, e).Unchecked()
    ensures Core(reg, Step(reg, s, e).state) && Tidy(reg, Step(reg, s, e).state)
  {
    var t := Step(reg, s, e).state;
    StepSplits(reg, s, e);
    PreludeKeepsCore(reg, s, e);
    PreludeTidy(reg, s, e);
    EachTidy(reg, Prelude(reg, s, e), Visited(reg, s, e));
    StepKeepsCore(reg, s, e);
    TidyBays(reg, t);
    hide Step, Prelude, Visited, ReconcileEach, Tidy, GrantsHeld, QueuesDistinct, WithinCapacity, OneDirection,
      QueuesShaped, GrantsShaped, Registry.WellFormed, ChecksPass;
    ChecksHold(reg, t);
    RepliesUnchecked(reg, s, e);
  }

  /** Every call of the run is legal in the state it is made in. */
  ghost predicate LegalRun(reg: Registry, s: State, es: seq<Event>)
    requires s.Shaped(reg)
    decreases |es|
  {
    es != [] ==>
      && Feasible(reg, es[0]) && Legal(reg, s, es[0])
      && Step(reg, s, es[0]).state.Shaped(reg)
      && LegalRun(reg, Step(reg, s, es[0]).state, es[1..])
  }

  /** After every call of the run: no runtime check has failed, the safety core holds,
      every bay is within its capacity with every grant's place kept, and every
      domain is orderly. */
  ghost predicate RunIsSafe(reg: Registry, s: State, es: seq<Event>)
    requires s.Shaped(reg)
    decreases |es|
  {
    && Core(reg, s) && Tidy(reg, s) && AllOrderly(reg, s)
    && (es != [] && Feasible(reg, es[0]) ==>
        && Step(reg, s, es[0]).Unchecked()
        && Step(reg, s, es[0]).state.Shaped(reg)
        && RunIsSafe(reg, Step(reg, s, es[0]).state, es[1..]))
  }

  lemma {:induction false} LegalRunsAreSafe(reg: Registry, s: State, es: seq<Event>)
    requires Core(reg, s) && Tidy(reg, s) && AllOrderly(reg, s) && DistinctEnds(reg) && LegalRun(reg, s, es)
    ensures RunIsSafe(reg, s, es)
    decreases |es|
  {
    hide Step, Tidy, AllOrderly, GrantsHeld, QueuesDistinct, WithinCapacity, OneDirection, QueuesShaped, GrantsShaped,
      Registry.WellFormed, Legal, Feasible, StepGoesThrough;
    if es != [] {
      StepLegal(reg, s, es[0]);
      UncheckedGoesThrough(reg, s, es[0]);
      StepKeepsOrder(reg, s, es[0]);
      LegalRunsAreSafe(reg, Step(reg, s, es[0]).state, es[1..]);
    }
  }

  lemma InitialIsSafe(reg: Registry)
    requires reg.WellFormed()
    ensures Core(reg, Initial(reg)) && Tidy(reg, Initial(reg)) && AllOrderly(reg, Initial(reg))
  {
    InitialCore(reg);
    InitialTidy(reg);
    forall d | d in Initial(reg).domains ensures Orderly(reg, Initial(reg), d) {
      InitialOrderly(reg, d);
    }
    hide Orderly, Tidy;
  }

  /** The runtime checks never fire in a legal run from the start. */
  lemma LegalRunsFromTheStart(reg: Registry, es: seq<Event>)
    requires reg.WellFormed() && DistinctEnds(reg) && Initial(reg).Shaped(reg) && LegalRun(reg, Initial(reg), es)
    ensures RunIsSafe(reg, Initial(reg), es)
  {
    InitialIsSafe(reg);
    LegalRunsAreSafe(reg, Initial(reg), es);
  }

  /** A bay sighting counts occupants only, so it can overfill a bay that others have
      reserved. It keeps the bound exactly when the robot was already counted in the
      bay or the bay had room for one more. */
  lemma OccupyKeepsBoundExactly(reg: Registry, s: State, h: BayId, r: RobotId)
    requires s.Shaped(reg) && h in reg.bays && |s.bays[h].Used()| <= reg.bays[h].capacity
    requires OccupyBay(reg, s, h, r).Ok()
    ensures var t := OccupyBay(reg, s, h, r).state;
            h in t.bays
            && (|t.bays[h].Used()| <= reg.bays[h].capacity
                <==> r in s.bays[h].Used() || |s.bays[h].Used()| < reg.bays[h].capacity)
  {
    var t := OccupyBay(reg, s, h, r).state;
    assert t.bays[h].Used() == s.bays[h].Used() + {r};
    hide QueuesShaped, GrantsShaped, Registry.WellFormed;
  }
}
