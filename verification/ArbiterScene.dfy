/** What a caller of the arbiter can see change: who asks for what, who is inside which
    block, and who stands in which bay. Reconciliation changes none of it; it only turns
    questions into grants. */
module ArbiterScene {
  import opened Models
  import opened ArbiterSpec
  import opened ArbiterSteps
  import opened ArbiterSafety
  import opened ArbiterProgress
  import opened ArbiterRuns
  import opened ArbiterChecks
  import opened ArbiterWakeups
  import opened ArbiterGuarantees
  import opened ArbiterLegal

  /** The request is waiting or granted. */
  ghost predicate Asks(a: State, x: Reservation) {
    Granted(a.grants, x) || (x.block in a.waiting && x in a.waiting[x.block].Of(x.direction))
  }

  predicate Inside(a: State, r: RobotId, b: BlockId) {
    b in a.blocks && r in a.blocks[b].occupants
  }

  predicate StandsIn(a: State, r: RobotId, h: BayId) {
    h in a.bays && r in a.bays[h].occupants
  }

  /** The grant of the robot for the block reserves the bay. */
  predicate GrantedTo(a: State, r: RobotId, b: BlockId, h: BayId) {
    Key(r, b) in a.grants && a.grants[Key(r, b)].destination == h
  }

  /** Nothing moved from `a` to `c`, and nobody lost a grant. */
  ghost predicate SameScene(a: State, c: State) {
    && (forall x :: Asks(a, x) <==> Asks(c, x))
    && (forall x :: Granted(a.grants, x) ==> Granted(c.grants, x))
    && (forall r, b :: Inside(a, r, b) <==> Inside(c, r, b))
    && (forall r, h :: StandsIn(a, r, h) <==> StandsIn(c, r, h))
  }

  lemma GrantedAsked(reg: Registry, a: State, c: State, ds: set<DomainId>, x: Reservation)
    requires Core(reg, a) && Core(reg, c) && Moved(reg, a, c, ds) && Granted(c.grants, x)
    ensures Asks(a, x)
  {
    hide BlocksMoved, QueuesMoved, BaysMoved, GrantsHeld, QueuesDistinct, WithinCapacity, OneDirection, QueuesShaped,
      Registry.WellFormed;
    var k := Key(x.robot, x.block);
    if k in a.grants {
      assert a.grants[k] == x;
    } else {
      assert x in a.waiting[x.block].Of(x.direction);
    }
  }

  lemma MovedScene(reg: Registry, a: State, c: State, ds: set<DomainId>)
    requires Core(reg, a) && Core(reg, c) && Moved(reg, a, c, ds)
    ensures SameScene(a, c)
  {
    hide GrantsHeld, QueuesDistinct, WithinCapacity, OneDirection, QueuesShaped, GrantsShaped, Registry.WellFormed;
    forall x | Asks(a, x) ensures Asks(c, x) {
      if Granted(a.grants, x) {
        assert Key(x.robot, x.block) in a.grants;
      }
    }
    forall x | Asks(c, x) ensures Asks(a, x) {
      if Granted(c.grants, x) {
        GrantedAsked(reg, a, c, ds, x);
      }
    }
    hide Asks, QueuesMoved, GrantsMoved;
  }

  // ----- Bay places belong to live grants ------------------------------------------------------

  ghost predicate Backed(grants: map<Key, Reservation>, r: RobotId, h: BayId) {
    exists b :: Key(r, b) in grants && grants[Key(r, b)].destination == h
  }

  /** Every reserved place in a bay belongs to a live grant that leads there. */
  ghost predicate BaysBacked(grants: map<Key, Reservation>, bays: map<BayId, Bay>) {
    forall h, r :: h in bays && r in bays[h].reservations ==> Backed(grants, r, h)
  }

  lemma GrantBacked(s: State, x: Reservation)
    requires x.block in s.blocks && x.destination in s.bays && BaysBacked(s.grants, s.bays)
    requires Key(x.robot, x.block) !in s.grants
    ensures BaysBacked(Grant(s, x).grants, Grant(s, x).bays)
  {
  }

  lemma PassBacked(reg: Registry, s: State, domain: DomainId, items: seq<Reservation>, d: Direction)
    requires Core(reg, s) && domain in s.domains && s.domains[domain].active == Some(d)
    requires Pending(reg, s, domain, items, d) && BaysBacked(s.grants, s.bays)
    ensures var t := GrantPass(reg, s, items, d).state; BaysBacked(t.grants, t.bays)
    decreases |items|
  {
    hide Available, ChecksPass, GrantsHeld, QueuesDistinct, BaysBacked,
      WithinCapacity, OneDirection, QueuesShaped, GrantsShaped, Registry.WellFormed, DistinctKeys;
    if items != [] {
      var x := items[0];
      assert x in items;
      if !Available(reg, s, x) {
        PendingTail(reg, s, domain, items, d);
        PassBacked(reg, s, domain, items[1..], d);
      } else {
        var t := Grant(Dequeue(s, x, d), x);
        AdmitKeepsCore(reg, s, x, d);
        WaitingNotGranted(reg, s, x, d);
        GrantBacked(Dequeue(s, x, d), x);
        if ChecksPass(reg, t) {
          PendingAfterAdmit(reg, s, domain, items, d);
          PassBacked(reg, t, domain, items[1..], d);
        }
      }
    }
  }

  lemma WaitingNotGranted(reg: Registry, s: State, x: Reservation, d: Direction)
    requires Core(reg, s) && x.block in s.waiting && x in s.waiting[x.block].Of(d)
    ensures Key(x.robot, x.block) !in s.grants
  {
  }

  lemma ReconcileBacked(reg: Registry, s: State, domain: DomainId)
    requires Core(reg, s) && domain in s.domains && BaysBacked(s.grants, s.bays)
    ensures var t := Reconcile(reg, s, domain).state; BaysBacked(t.grants, t.bays)
  {
    if !Faulted(reg, s.blocks, domain) {
      PrepareShape(reg, s, domain);
      PrepareKeepsCore(reg, s, domain);
      var p := Prepare(reg, s, domain);
      if p.domains[domain].active.Some? {
        var d := p.domains[domain].active.value;
        DomainPending(reg, p, domain, d);
        CollectedItems(reg, p, domain);
        PassBacked(reg, p, domain, RoundItems(reg, p, domain, d), d);
        hide GrantPass, Prepare, Faulted, Core, BaysBacked, DomainWaiting;
        GrantPassShape(reg, p, RoundItems(reg, p, domain, d), d);
      }
    }
    hide Prepare, Faulted, Core, BaysBacked;
  }

  lemma EachBacked(reg: Registry, s: State, order: seq<DomainId>)
    requires Core(reg, s) && (forall d :: d in order ==> d in s.domains) && BaysBacked(s.grants, s.bays)
    ensures var t := ReconcileEach(reg, s, order).state; BaysBacked(t.grants, t.bays)
    decreases |order|
  {
    hide Reconcile, BlocksMoved, BaysMoved, QueuesMoved, GrantsMoved, GrantsHeld, QueuesDistinct, WithinCapacity,
      OneDirection, QueuesShaped, GrantsShaped, Registry.WellFormed, BaysBacked;
    if order != [] {
      ReconcileBacked(reg, s, order[0]);
      ReconcileMoves(reg, s, order[0]);
      if Reconcile(reg, s, order[0]).ok {
        EachBacked(reg, Reconcile(reg, s, order[0]).state, order[1..]);
      }
    }
  }

  lemma SubGrantsBacked(g: map<Key, Reservation>, h: map<Key, Reservation>, s: map<BayId, Bay>, t: map<BayId, Bay>)
    requires BaysBacked(g, s) && forall k :: k in g ==> k in h && h[k] == g[k]
    requires forall k :: k in t ==> k in s && t[k].reservations <= s[k].reservations
    ensures BaysBacked(h, t)
  {
  }

  lemma LeaveBacked(s: State, r: RobotId, b: BlockId)
    requires b in s.blocks && BaysBacked(s.grants, s.bays)
    requires Key(r, b) in s.grants ==> s.grants[Key(r, b)].destination in s.bays
    ensures BaysBacked(Leave(s, r, b).grants, Leave(s, r, b).bays)
  {
  }

  lemma WithdrawBacked(s: State, r: RobotId, targets: seq<BlockId>)
    requires BaysBacked(s.grants, s.bays)
    ensures BaysBacked(Withdraw(s, r, targets).grants, Withdraw(s, r, targets).bays)
  {
  }

  lemma PreludeBacked(reg: Registry, s: State, e: Event)
    requires Core(reg, s) && Feasible(reg, e) && BaysBacked(s.grants, s.bays)
    ensures BaysBacked(Prelude(reg, s, e).grants, Prelude(reg, s, e).bays)
  {
    hide GrantsHeld, QueuesDistinct, WithinCapacity, OneDirection, QueuesShaped, Registry.WellFormed, Withdraw, Leave,
      Available, Queues.Has, Robots, Grant, Backed;
    var u := Prelude(reg, s, e);
    match e
    case Requested(x) =>
      if IsNewRequest(reg, s, x) && AdmitsAtOnce(reg, s, x) {
        GrantBacked(s, x);
      }
    case Exited(r, b) =>
      if b in reg.blocks {
        LeaveBacked(s, r, b);
      }
    case Cancelled(r, target, visit) => WithdrawBacked(s, r, Targets(reg, target));
    case FaultedAt(r, visit) =>
      FirstOccupiedIsFirst(s, r, reg.blockOrder);
      WithdrawBacked(s, r, reg.blockOrder);
    case WasReset(force) =>
    case _ =>
      assert u.grants == s.grants;
      SubGrantsBacked(s.grants, u.grants, s.bays, u.bays);
  }

  /** In every run, with any calls: a bay place is reserved only for a live grant. */
  lemma StepKeepsBacked(reg: Registry, s: State, e: Event)
    requires Core(reg, s) && Feasible(reg, e) && BaysBacked(s.grants, s.bays)
    ensures var t := Step(reg, s, e).state; BaysBacked(t.grants, t.bays)
  {
    StepSplits(reg, s, e);
    PreludeKeepsCore(reg, s, e);
    PreludeBacked(reg, s, e);
    hide Step, Prelude, Visited, ReconcileEach, BaysBacked, GrantsHeld, QueuesDistinct, WithinCapacity, OneDirection;
    EachBacked(reg, Prelude(reg, s, e), Visited(reg, s, e));
  }

  // ----- A new request wakes nobody else -------------------------------------------------------

  /** No grant was made except possibly to `k`. */
  ghost predicate OnlyNew(s: map<Key, Reservation>, t: map<Key, Reservation>, k: Key) {
    forall j :: j in t && j !in s ==> j == k
  }

  lemma PassAdmitsOnly(reg: Registry, s: State, domain: DomainId, items: seq<Reservation>, d: Direction, x: Reservation)
    requires Core(reg, s) && domain in s.domains && s.domains[domain].active == Some(d)
    requires Pending(reg, s, domain, items, d)
    requires forall y :: y in items && y != x ==> !Available(reg, s, y)
    ensures OnlyNew(s.grants, GrantPass(reg, s, items, d).state.grants, Key(x.robot, x.block))
    decreases |items|
  {
    hide Available, ChecksPass, GrantsHeld, QueuesDistinct, WithinCapacity, OneDirection, QueuesShaped, GrantsShaped,
      Registry.WellFormed, DistinctKeys;
    if items != [] {
      var first := items[0];
      assert first in items;
      if !Available(reg, s, first) {
        PendingTail(reg, s, domain, items, d);
        PassAdmitsOnly(reg, s, domain, items[1..], d, x);
      } else {
        var t := Grant(Dequeue(s, first, d), first);
        assert first == x;
        AdmitKeepsCore(reg, s, first, d);
        AdmitWaiting(reg, s, first, d);
        if ChecksPass(reg, t) {
          PendingAfterAdmit(reg, s, domain, items, d);
          forall y | y in items[1..] && y != x ensures !Available(reg, t, y) {
            assert y in items;
            UnavailableStays(reg, s, t, {domain}, y);
          }
          PassAdmitsOnly(reg, t, domain, items[1..], d, x);
        }
      }
    }
  }

  /** Reconciling a domain in which nothing but `x` can go. */
  lemma ReconcileAdmitsOnly(reg: Registry, s: State, domain: DomainId, x: Reservation)
    requires Core(reg, s) && domain in s.domains
    requires forall b, d, y :: reg.InDomain(b, domain) && y in s.waiting[b].Of(d) && y != x ==> !Available(reg, s, y)
    ensures OnlyNew(s.grants, Reconcile(reg, s, domain).state.grants, Key(x.robot, x.block))
  {
    hide Available, Faulted, Busy, Choose, GrantsHeld, QueuesDistinct, WithinCapacity, OneDirection, QueuesShaped,
      GrantsShaped, Registry.WellFormed;
    if !Faulted(reg, s.blocks, domain) {
      PrepareShape(reg, s, domain);
      PrepareKeepsCore(reg, s, domain);
      var p := Prepare(reg, s, domain);
      if p.domains[domain].active.Some? {
        var d := p.domains[domain].active.value;
        SameAvailable(reg, s, p);
        DomainPending(reg, p, domain, d);
        CollectedItems(reg, p, domain);
        PassAdmitsOnly(reg, p, domain, RoundItems(reg, p, domain, d), d, x);
        GrantPassShape(reg, p, RoundItems(reg, p, domain, d), d);
        hide GrantPass, Prepare, DomainWaiting, OnlyNew;
      }
    }
  }

  lemma SameAvailable(reg: Registry, s: State, p: State)
    requires s.Keyed(reg) && p == s.(domains := p.domains)
    ensures p.Keyed(reg)
    ensures forall y: Reservation :: y.block in reg.blocks && y.destination in reg.bays ==>
              Available(reg, s, y) == Available(reg, p, y)
  {
  }

  /** In a settled state a request admits nobody but its own robot. */
  lemma RequestAdmitsOnlyAsker(reg: Registry, s: State, x: Reservation)
    requires Core(reg, s) && AllSettled(reg, s) && (forall b :: b in s.blocks ==> !s.blocks[b].faulted)
    ensures OnlyNew(s.grants, Request(reg, s, x).state.grants, Key(x.robot, x.block))
  {
    hide Reconcile, GrantsHeld, QueuesDistinct, WithinCapacity, OneDirection, QueuesShaped, GrantsShaped,
      Registry.WellFormed, Settled, EnqueueAndReconcile, Queues.Has, Robots, Available, DecisionFor, CloseBatch, ChecksPass, Faulted;
    if IsNewRequest(reg, s, x) {
      var domain := reg.blocks[x.block].domain;
      HealthyHome(reg, s, x.block);
      if s.domains[domain].active == None {
        IdleRequest(reg, s, x);
      } else if s.domains[domain].active != Some(x.direction) {
        ClosedRequest(reg, s, x);
      }
    }
  }

  lemma HealthyHome(reg: Registry, s: State, b: BlockId)
    requires s.Shaped(reg) && AllSettled(reg, s) && b in reg.blocks && forall c :: c in s.blocks ==> !s.blocks[c].faulted
    ensures reg.blocks[b].domain in s.domains && Settled(reg, s, reg.blocks[b].domain)
  {
  }

  /** A request for an idle domain. */
  lemma IdleRequest(reg: Registry, s: State, x: Reservation)
    requires Core(reg, s) && IsNewRequest(reg, s, x)
    requires var domain := reg.blocks[x.block].domain;
             domain in s.domains && Settled(reg, s, domain) && s.domains[domain].active == None
    ensures OnlyNew(s.grants, Request(reg, s, x).state.grants, Key(x.robot, x.block))
  {
    hide Reconcile, GrantsHeld, QueuesDistinct, WithinCapacity, OneDirection, QueuesShaped, GrantsShaped,
      Registry.WellFormed, Queues.Has, Robots, Available, DecisionFor, NoneAvailable, Busy, OnlyNew;
    EnqueueKeepsCore(reg, s, x);
    EnqueuedUnavailable(reg, s, x);
    assert Enqueue(s, x).grants == s.grants;
    hide Enqueue;
    ReconcileAdmitsOnly(reg, Enqueue(s, x), reg.blocks[x.block].domain, x);
  }

  lemma EnqueuedUnavailable(reg: Registry, s: State, x: Reservation)
    requires s.Shaped(reg) && x.block in reg.blocks && x.destination in reg.bays
    requires var domain := reg.blocks[x.block].domain;
             NoneAvailable(reg, s, domain, AToB) && NoneAvailable(reg, s, domain, BToA)
    ensures var u := Enqueue(s, x);
            && u.Shaped(reg)
            && forall b, d, y :: reg.InDomain(b, reg.blocks[x.block].domain) && y in u.waiting[b].Of(d) && y != x ==>
                 !Available(reg, u, y)
  {
    var u := Enqueue(s, x);
    EnqueueShape(reg, s, x);
    forall b, d, y | reg.InDomain(b, reg.blocks[x.block].domain) && y in u.waiting[b].Of(d) && y != x
      ensures !Available(reg, u, y)
    {
      assert y in s.waiting[b].Of(d);
      assert d == AToB || d == BToA;
      assert !Available(reg, s, y);
    }
  }

  /** A request against the direction of a working domain admits nobody. */
  lemma ClosedRequest(reg: Registry, s: State, x: Reservation)
    requires Core(reg, s) && IsNewRequest(reg, s, x)
    requires var domain := reg.blocks[x.block].domain;
             && domain in s.domains && Settled(reg, s, domain)
             && s.domains[domain].active.Some? && s.domains[domain].active != Some(x.direction)
    ensures Request(reg, s, x).state.grants == s.grants
  {
    var domain := reg.blocks[x.block].domain;
    var c := CloseBatch(s, domain);
    var u := Enqueue(c, x);
    CloseBatchShape(reg, s, domain);
    EnqueueShape(reg, c, x);
    assert u.blocks == s.blocks && u.grants == s.grants && u.domains == c.domains;
    ClosedIsInert(reg, u, domain);
    hide Reconcile, Enqueue, GrantsHeld, QueuesDistinct, WithinCapacity, OneDirection, State.Shaped, Queues.Has,
      Available, DecisionFor;
  }

  // ----- What each call does to the scene ------------------------------------------------------

  /** A step changes the scene as its prelude does. */
  lemma StepScene(reg: Registry, a: State, e: Event)
    requires Core(reg, a) && Feasible(reg, e)
    ensures Core(reg, Prelude(reg, a, e)) && Core(reg, Step(reg, a, e).state)
    ensures SameScene(Prelude(reg, a, e), Step(reg, a, e).state)
    ensures NoFault(Prelude(reg, a, e)) ==> NoFault(Step(reg, a, e).state)
  {
    var u := Prelude(reg, a, e);
    StepSplits(reg, a, e);
    PreludeKeepsCore(reg, a, e);
    EachMoves(reg, u, Visited(reg, a, e));
    hide Step, Prelude, Visited, ReconcileEach, HealthyOf, GrantsHeld, QueuesDistinct, WithinCapacity, OneDirection,
      SameScene, QueuesMoved, BaysMoved, GrantsMoved, QueuesShaped, GrantsShaped, Registry.WellFormed;
    MovedScene(reg, u, Step(reg, a, e).state, HealthyOf(reg, u.blocks, Visited(reg, a, e)));
  }

  ghost predicate NoFault(a: State) {
    forall b :: b in a.blocks ==> !a.blocks[b].faulted
  }

  /** Everything the arbiter keeps in a fault-free legal run. */
  ghost predicate ArbiterInOrder(reg: Registry, a: State) {
    Core(reg, a) && Tidy(reg, a) && AllSettled(reg, a) && BaysBacked(a.grants, a.bays) && NoFault(a)
  }

  predicate Routine(e: Event) {
    e.Requested? || e.Entered? || e.Exited? || e.Occupied?
  }

  lemma RoutineFaultsNothing(reg: Registry, a: State, e: Event)
    requires a.Shaped(reg) && NoFault(a) && Routine(e)
    ensures NoFault(Prelude(reg, a, e))
  {
    hide QueuesShaped, Registry.WellFormed, Available, Queues.Has, Robots;
    var u := Prelude(reg, a, e);
    match e
    case Requested(x) => assert forall b :: b in u.blocks ==> b in a.blocks && u.blocks[b].faulted == a.blocks[b].faulted;
    case Entered(r, b) => assert forall c :: c in u.blocks ==> c in a.blocks && u.blocks[c].faulted == a.blocks[c].faulted;
    case Exited(r, b) => assert forall c :: c in u.blocks ==> c in a.blocks && u.blocks[c].faulted == a.blocks[c].faulted;
    case Occupied(h, r) => assert u.blocks == a.blocks;
  }

  lemma RoutineKeepsOrder(reg: Registry, a: State, e: Event)
    requires ArbiterInOrder(reg, a) && DistinctEnds(reg) && Routine(e) && Legal(reg, a, e) && WakeSafe(reg, a, e)
    ensures ArbiterInOrder(reg, Step(reg, a, e).state) && Step(reg, a, e).Unchecked()
  {
    hide Step, Prelude, Tidy, AllSettled, BaysBacked, NoFault, Legal, WakeSafe, SameScene, GrantsHeld, QueuesDistinct,
      WithinCapacity, OneDirection, State.Shaped;
    RoutineFaultsNothing(reg, a, e);
    StepLegal(reg, a, e);
    UncheckedGoesThrough(reg, a, e);
    StepKeepsSettled(reg, a, e);
    StepKeepsBacked(reg, a, e);
    StepScene(reg, a, e);
  }

  lemma MovementSteps(reg: Registry, a: State, r: RobotId, b: BlockId)
    requires a.Shaped(reg)
    ensures Feasible(reg, Entered(r, b)) && Step(reg, a, Entered(r, b)) == MarkEntered(reg, a, r, b)
    ensures Feasible(reg, Exited(r, b)) && Step(reg, a, Exited(r, b)) == MarkExited(reg, a, r, b)
  {
  }

  lemma EnteredScene(reg: Registry, a: State, r: RobotId, b: BlockId)
    requires Core(reg, a) && Key(r, b) in a.grants
    requires a.grants[Key(r, b)].source.Some? ==> a.grants[Key(r, b)].source.value in a.bays
    ensures var c := MarkEntered(reg, a, r, b).state;
            && (forall x :: Asks(c, x) <==> Asks(a, x))
            && (forall x :: Granted(a.grants, x) ==> Granted(c.grants, x))
            && (forall q, k :: Inside(c, q, k) <==> Inside(a, q, k) || (q == r && k == b))
            && (forall q, h :: StandsIn(c, q, h) <==>
                StandsIn(a, q, h) && !(q == r && a.grants[Key(r, b)].source == Some(h)))
  {
    hide MarkEntered, Prelude, Asks, Granted, Inside, StandsIn, GrantsHeld, QueuesDistinct, WithinCapacity,
      OneDirection, State.Shaped, Step, Feasible;
    MovementSteps(reg, a, r, b);
    EnteredPreludeScene(reg, a, r, b);
    StepScene(reg, a, Entered(r, b));
  }

  lemma EnteredPreludeScene(reg: Registry, a: State, r: RobotId, b: BlockId)
    requires a.Shaped(reg) && Key(r, b) in a.grants
    requires a.grants[Key(r, b)].source.Some? ==> a.grants[Key(r, b)].source.value in a.bays
    ensures var u := Prelude(reg, a, Entered(r, b));
            && (forall x :: Asks(u, x) <==> Asks(a, x))
            && (forall x :: Granted(a.grants, x) ==> Granted(u.grants, x))
            && (forall q, k :: Inside(u, q, k) <==> Inside(a, q, k) || (q == r && k == b))
            && (forall q, h :: StandsIn(u, q, h) <==>
                StandsIn(a, q, h) && !(q == r && a.grants[Key(r, b)].source == Some(h)))
  {
  }

  lemma ExitedScene(reg: Registry, a: State, r: RobotId, b: BlockId)
    requires Core(reg, a) && b in reg.blocks && Key(r, b) in a.grants
    ensures var c := MarkExited(reg, a, r, b).state;
            && (forall x :: Asks(c, x) <==> Asks(a, x) && x != a.grants[Key(r, b)])
            && (forall x :: Granted(a.grants, x) && x != a.grants[Key(r, b)] ==> Granted(c.grants, x))
            && (forall q, k :: Inside(c, q, k) <==> Inside(a, q, k) && !(q == r && k == b))
            && (forall q, h :: StandsIn(c, q, h) <==>
                StandsIn(a, q, h) || (q == r && h == a.grants[Key(r, b)].destination))
  {
    hide MarkExited, Prelude, Asks, Granted, Inside, StandsIn, GrantsHeld, QueuesDistinct, WithinCapacity,
      OneDirection, State.Shaped, Step, Feasible;
    MovementSteps(reg, a, r, b);
    ExitedPreludeScene(reg, a, r, b);
    StepScene(reg, a, Exited(r, b));
  }

  lemma ExitedPreludeScene(reg: Registry, a: State, r: RobotId, b: BlockId)
    requires Core(reg, a) && b in reg.blocks && Key(r, b) in a.grants
    ensures var u := Prelude(reg, a, Exited(r, b));
            && (forall x :: Asks(u, x) <==> Asks(a, x) && x != a.grants[Key(r, b)])
            && (forall x :: Granted(a.grants, x) && x != a.grants[Key(r, b)] ==> Granted(u.grants, x))
            && (forall q, k :: Inside(u, q, k) <==> Inside(a, q, k) && !(q == r && k == b))
            && (forall q, h :: StandsIn(u, q, h) <==>
                StandsIn(a, q, h) || (q == r && h == a.grants[Key(r, b)].destination))
  {
    hide GrantsHeld, WithinCapacity, OneDirection, QueuesShaped, Registry.WellFormed;
    var u := Prelude(reg, a, Exited(r, b));
    var gone := a.grants[Key(r, b)];
    assert u.waiting == a.waiting;
    assert gone.robot == r && gone.block == b;
    forall x ensures Granted(u.grants, x) <==> Granted(a.grants, x) && x != gone {
      assert Key(x.robot, x.block) in u.grants <==> Key(x.robot, x.block) in a.grants && Key(x.robot, x.block) != Key(r, b);
    }
    forall x: Reservation | x.block in a.waiting && x in a.waiting[x.block].Of(x.direction) ensures x != gone {
      if x == gone {
        WaitingNotGranted(reg, a, x, x.direction);
        assert false;
      }
    }
    hide Queues.Of, Granted, QueuesDistinct;
  }

  lemma OccupiedScene(reg: Registry, a: State, h: BayId, r: RobotId)
    requires a.Shaped(reg) && h in reg.bays && OccupyBay(reg, a, h, r).Ok()
    ensures var c := OccupyBay(reg, a, h, r).state;
            && (forall x :: Asks(c, x) <==> Asks(a, x))
            && c.grants == a.grants && c.blocks == a.blocks
            && (forall q, k :: StandsIn(c, q, k) <==> if q == r then k == h else StandsIn(a, q, k))
  {
  }

  lemma RequestedScene(reg: Registry, a: State, x: Reservation)
    requires Core(reg, a) && IsNewRequest(reg, a, x)
    ensures var c := Request(reg, a, x).state;
            && (forall y :: Asks(c, y) <==> Asks(a, y) || y == x)
            && (forall y :: Granted(a.grants, y) ==> Granted(c.grants, y))
            && (forall q, k :: Inside(c, q, k) <==> Inside(a, q, k))
            && (forall q, h :: StandsIn(c, q, h) <==> StandsIn(a, q, h))
  {
    RequestedPreludeScene(reg, a, x);
    StepScene(reg, a, Requested(x));
    hide Request, Prelude, Asks, Granted, Inside, StandsIn, GrantsHeld, QueuesDistinct, WithinCapacity,
      OneDirection, State.Shaped, IsNewRequest;
  }

  lemma EnqueuedAsks(s: State, x: Reservation)
    requires x.block in s.waiting && !s.waiting[x.block].Has(x.robot)
    ensures forall y :: Asks(Enqueue(s, x), y) <==> Asks(s, y) || y == x
  {
  }

  lemma GrantedAsks(s: State, x: Reservation)
    requires x.block in s.blocks && x.destination in s.bays && Key(x.robot, x.block) !in s.grants
    ensures forall y :: Asks(Grant(s, x), y) <==> Asks(s, y) || y == x
    ensures forall y :: Granted(s.grants, y) ==> Granted(Grant(s, x).grants, y)
  {
  }

  lemma RequestedPreludeScene(reg: Registry, a: State, x: Reservation)
    requires a.Shaped(reg) && IsNewRequest(reg, a, x)
    ensures var u := Prelude(reg, a, Requested(x));
            && (forall y :: Asks(u, y) <==> Asks(a, y) || y == x)
            && (forall y :: Granted(a.grants, y) ==> Granted(u.grants, y))
            && (forall q, k :: Inside(u, q, k) <==> Inside(a, q, k))
            && (forall q, h :: StandsIn(u, q, h) <==> StandsIn(a, q, h))
  {
    EnqueuedAsks(a, x);
    EnqueuedAsks(CloseBatch(a, reg.blocks[x.block].domain), x);
    GrantedAsks(a, x);
    assert forall y :: Asks(CloseBatch(a, reg.blocks[x.block].domain), y) <==> Asks(a, y);
    hide Asks, Granted, Queues.Has, QueuesShaped, GrantsShaped, Registry.WellFormed, Available;
  }
}
