/** When the runtime checks of the arbiter pass. They hold exactly while every bay is
    within its capacity, and nothing but a bay sighting or an exit can overfill one. */
module ArbiterChecks {
  import opened Models
  import opened ArbiterSpec
  import opened ArbiterSteps
  import opened ArbiterSafety
  import opened ArbiterProgress
  import opened ArbiterRuns

  ghost predicate BaysWithin(reg: Registry, bays: map<BayId, Bay>) {
    forall h :: h in bays && h in reg.bays ==> |bays[h].Used()| <= reg.bays[h].capacity
  }

  // ----- Checks -----------------------------------------------------------------------------

  lemma ChecksHold(reg: Registry, s: State)
    requires Core(reg, s) && BaysWithin(reg, s.bays)
    ensures ChecksPass(reg, s)
  {
    hide QueuesDistinct, WithinCapacity, QueuesShaped;
    forall b | b in s.blocks ensures s.blocks[b].OneWay(AToB) || s.blocks[b].OneWay(BToA) {
      var active := s.domains[reg.blocks[b].domain].active;
      var d: Direction := if active == None then AToB else active.value;
      assert forall r :: r in s.blocks[b].reservations ==> Key(r, b) in s.grants;
      assert s.blocks[b].OneWay(d);
      assert d == AToB || d == BToA;
    }
  }

  /** In a safe state the runtime check is about the bays alone. */
  lemma ChecksPassExactly(reg: Registry, s: State)
    requires Core(reg, s)
    ensures ChecksPass(reg, s) <==> BaysWithin(reg, s.bays)
  {
    if BaysWithin(reg, s.bays) {
      ChecksHold(reg, s);
    }
  }

  // ----- Reconciliation keeps every bay within its capacity ---------------------------------------

  lemma GrantBays(reg: Registry, s: State, x: Reservation)
    requires s.Keyed(reg) && x.block in s.blocks && x.destination in s.bays
    requires BaysWithin(reg, s.bays) && Available(reg, s, x)
    ensures BaysWithin(reg, Grant(s, x).bays)
  {
    var bay := s.bays[x.destination];
    var t := Grant(s, x).bays[x.destination];
    assert t.Used() == (bay.Used() - {x.robot}) + {x.robot};
    hide Block.OneWay;
  }

  lemma DequeueSameRoom(reg: Registry, s: State, x: Reservation, d: Direction)
    requires s.Keyed(reg) && x.block in reg.blocks && x.destination in reg.bays
    ensures var t := Dequeue(s, x, d); t.Keyed(reg) && Available(reg, t, x) == Available(reg, s, x)
  {
  }

  lemma PassWithin(reg: Registry, s: State, domain: DomainId, items: seq<Reservation>, d: Direction)
    requires Core(reg, s) && BaysWithin(reg, s.bays) && domain in s.domains && s.domains[domain].active == Some(d)
    requires Pending(reg, s, domain, items, d)
    ensures GrantPass(reg, s, items, d).ok && BaysWithin(reg, GrantPass(reg, s, items, d).state.bays)
    decreases |items|
  {
    if items != [] {
      var x := items[0];
      assert x in items;
      hide BaysWithin, GrantsHeld, QueuesDistinct, WithinCapacity,
        OneDirection, ChecksPass, QueuesShaped, GrantsShaped, Registry.WellFormed, Available, DistinctKeys;
      if !Available(reg, s, x) {
        PendingTail(reg, s, domain, items, d);
        PassWithin(reg, s, domain, items[1..], d);
      } else {
        AdmitKeepsCore(reg, s, x, d);
        DequeueSameRoom(reg, s, x, d);
        GrantBays(reg, Dequeue(s, x, d), x);
        ChecksHold(reg, Grant(Dequeue(s, x, d), x));
        PendingAfterAdmit(reg, s, domain, items, d);
        PassWithin(reg, Grant(Dequeue(s, x, d), x), domain, items[1..], d);
      }
    }
  }

  lemma ServeWithin(reg: Registry, s: State, domain: DomainId, d: Direction)
    requires Core(reg, s) && BaysWithin(reg, s.bays) && domain in s.domains && s.domains[domain].active == Some(d)
    ensures Serve(reg, s, domain, d).ok && BaysWithin(reg, Serve(reg, s, domain, d).state.bays)
  {
    DomainPending(reg, s, domain, d);
    CollectedItems(reg, s, domain);
    PassWithin(reg, s, domain, RoundItems(reg, s, domain, d), d);
    hide GrantPass, BaysWithin, Pending, GrantsHeld, QueuesDistinct, WithinCapacity, OneDirection, QueuesShaped, GrantsShaped,
      Registry.WellFormed;
  }

  lemma ReconcileWithin(reg: Registry, s: State, domain: DomainId)
    requires Core(reg, s) && BaysWithin(reg, s.bays) && domain in s.domains
    ensures Reconcile(reg, s, domain).ok && BaysWithin(reg, Reconcile(reg, s, domain).state.bays)
  {
    hide Prepare, Serve, BaysWithin, GrantsHeld, QueuesDistinct, WithinCapacity, OneDirection, QueuesShaped, GrantsShaped,
      Registry.WellFormed;
    if !Faulted(reg, s.blocks, domain) {
      PrepareShape(reg, s, domain);
      PrepareKeepsCore(reg, s, domain);
      var p := Prepare(reg, s, domain);
      if p.domains[domain].active.Some? {
        ServeWithin(reg, p, domain, p.domains[domain].active.value);
      }
    }
  }

  /** While every bay is within its capacity, a round of reconciliations goes through. */
  lemma EachWithin(reg: Registry, s: State, order: seq<DomainId>)
    requires Core(reg, s) && BaysWithin(reg, s.bays) && forall d :: d in order ==> d in s.domains
    ensures ReconcileEach(reg, s, order).ok && BaysWithin(reg, ReconcileEach(reg, s, order).state.bays)
    decreases |order|
  {
    hide Reconcile, BaysWithin, BlocksMoved, BaysMoved, QueuesMoved, GrantsMoved, GrantsHeld, QueuesDistinct, WithinCapacity,
      OneDirection, QueuesShaped, GrantsShaped, Registry.WellFormed;
    if order != [] {
      ReconcileWithin(reg, s, order[0]);
      ReconcileMoves(reg, s, order[0]);
      EachWithin(reg, Reconcile(reg, s, order[0]).state, order[1..]);
    }
  }

  // ----- When a round goes through ------------------------------------------------------------------

  /** The domain would grant something if it were reconciled now. */
  ghost predicate CanGrant(reg: Registry, s: State, domain: DomainId)
    requires s.Shaped(reg) && domain in s.domains
  {
    && !Faulted(reg, s.blocks, domain)
    && (if Busy(reg, s.blocks, domain)
        then && s.domains[domain].active.Some? && !s.domains[domain].closed
             && !NoneAvailable(reg, s, domain, s.domains[domain].active.value)
        else !NoneAvailable(reg, s, domain, AToB) || !NoneAvailable(reg, s, domain, BToA))
  }

  /** The direction in which it would. */
  ghost function GrantDirection(reg: Registry, s: State, domain: DomainId): Direction
    requires s.Shaped(reg) && domain in s.domains && CanGrant(reg, s, domain)
  {
    ChosenCanGo(reg, s, domain);
    if Busy(reg, s.blocks, domain) then s.domains[domain].active.value else Choose(reg, s, domain).value
  }

  /** A domain that cannot grant changes at most its own direction and batch. */
  lemma QuietReconcile(reg: Registry, s: State, domain: DomainId)
    requires Core(reg, s) && domain in s.domains && !CanGrant(reg, s, domain)
    ensures var pass := Reconcile(reg, s, domain);
            && pass.ok && pass.state == s.(domains := pass.state.domains)
            && pass.state.Shaped(reg) && domain in pass.state.domains && !CanGrant(reg, pass.state, domain)
  {
    hide GrantsHeld, QueuesDistinct, WithinCapacity, OneDirection, QueuesShaped, GrantsShaped, Registry.WellFormed, Available,
      DomainWaiting, Choose, Faulted, Busy;
    if !Faulted(reg, s.blocks, domain) {
      PrepareShape(reg, s, domain);
      var p := Prepare(reg, s, domain);
      SameWaiting(reg, s, p, domain);
      if Busy(reg, s.blocks, domain) {
        if p.domains[domain].active.Some? {
          QuietServe(reg, s, domain, s.domains[domain].active.value);
        }
      } else {
        NobodyChosen(reg, s, domain);
      }
    }
  }

  lemma ChosenIsAvailable(reg: Registry, s: State, domain: DomainId)
    requires s.Shaped(reg) && domain in s.domains && Choose(reg, s, domain).Some?
    ensures !NoneAvailable(reg, s, domain, Choose(reg, s, domain).value)
  {
    ChosenCanGo(reg, s, domain);
    CollectedItems(reg, s, domain);
    hide Choose, DomainWaiting, Available, QueuesShaped, GrantsShaped, Registry.WellFormed;
    var d := Choose(reg, s, domain).value;
    var x :| x in DomainWaiting(reg, s, domain, d) && reg.InDomain(x.block, domain) && x.destination in reg.bays
             && Available(reg, s, x);
    assert x in s.waiting[x.block].Of(d);
  }

  lemma NobodyChosen(reg: Registry, s: State, domain: DomainId)
    requires s.Shaped(reg) && domain in s.domains
    requires NoneAvailable(reg, s, domain, AToB) && NoneAvailable(reg, s, domain, BToA)
    ensures Choose(reg, s, domain) == None
  {
    hide Choose, NoneAvailable, State.Shaped;
    if Choose(reg, s, domain).Some? {
      var d := Choose(reg, s, domain).value;
      assert d == AToB || d == BToA;
      ChosenIsAvailable(reg, s, domain);
      assert false;
    }
  }

  lemma QuietServe(reg: Registry, s: State, domain: DomainId, d: Direction)
    requires s.Shaped(reg) && domain in s.domains && s.domains[domain].active == Some(d)
    requires s.domains[domain].closed || NoneAvailable(reg, s, domain, d)
    ensures var pass := Serve(reg, s, domain, d);
            && pass.ok && pass.state == s.(domains := pass.state.domains) && pass.state.Shaped(reg)
            && domain in pass.state.domains && pass.state.domains[domain].active == Some(d)
            && (s.domains[domain].closed ==> pass.state.domains[domain].closed)
            && NoneAvailable(reg, pass.state, domain, d) == NoneAvailable(reg, s, domain, d)
  {
    hide QueuesShaped, GrantsShaped, Registry.WellFormed, Available, DomainWaiting, GrantPass, NoneAvailable;
    CollectedItems(reg, s, domain);
    var items := if s.domains[domain].closed then [] else DomainWaiting(reg, s, domain, d);
    forall x | x in items ensures !Available(reg, s, x) {
      OneUnavailable(reg, s, domain, d, x);
    }
    NothingToGrant(reg, s, items, d);
    CloseShape(reg, s, domain, d);
    SameWaiting(reg, s, CloseIfOpposed(reg, s, domain, d), domain);
  }

  lemma OneUnavailable(reg: Registry, s: State, domain: DomainId, d: Direction, x: Reservation)
    requires s.Shaped(reg) && NoneAvailable(reg, s, domain, d)
    requires reg.InDomain(x.block, domain) && x in s.waiting[x.block].Of(d) && x.destination in reg.bays
    ensures !Available(reg, s, x)
  {
  }

  lemma OverfullStays(reg: Registry, s: State, x: Reservation)
    requires s.Keyed(reg) && x.block in s.blocks && x.destination in s.bays && !BaysWithin(reg, s.bays)
    ensures !BaysWithin(reg, Grant(s, x).bays)
  {
    var t := Grant(s, x);
    if BaysWithin(reg, t.bays) {
      BaysWereWithin(reg, s.bays, t.bays);
      assert false;
    }
  }

  /** With a bay over its capacity, the first grant of a pass raises. */
  lemma PassRaises(reg: Registry, s: State, domain: DomainId, items: seq<Reservation>, d: Direction, x: Reservation)
    requires Core(reg, s) && !BaysWithin(reg, s.bays) && domain in s.domains && s.domains[domain].active == Some(d)
    requires Pending(reg, s, domain, items, d) && x in items && Available(reg, s, x)
    ensures !GrantPass(reg, s, items, d).ok
    decreases |items|
  {
    hide BaysWithin, GrantsHeld, QueuesDistinct, WithinCapacity, OneDirection, ChecksPass, QueuesShaped, GrantsShaped,
      Registry.WellFormed, Available, DistinctKeys;
    var y := items[0];
    assert y in items;
    if !Available(reg, s, y) {
      PendingTail(reg, s, domain, items, d);
      PassRaises(reg, s, domain, items[1..], d, x);
    } else {
      AdmitKeepsCore(reg, s, y, d);
      OverfullStays(reg, Dequeue(s, y, d), y);
      ChecksPassExactly(reg, Grant(Dequeue(s, y, d), y));
    }
  }

  lemma ServeRaises(reg: Registry, s: State, domain: DomainId, d: Direction)
    requires Core(reg, s) && !BaysWithin(reg, s.bays) && domain in s.domains
    requires s.domains[domain] == Domain(Some(d), false) && !NoneAvailable(reg, s, domain, d)
    ensures !Serve(reg, s, domain, d).ok
  {
    DomainPending(reg, s, domain, d);
    CollectedItems(reg, s, domain);
    var b, x :| reg.InDomain(b, domain) && x in s.waiting[b].Of(d) && Available(reg, s, x);
    assert x.block == b;
    hide BaysWithin, GrantsHeld, QueuesDistinct, WithinCapacity, OneDirection, QueuesShaped, GrantsShaped, Registry.WellFormed,
      Available, DomainWaiting, Pending, GrantPass, NoneAvailable;
    PassRaises(reg, s, domain, DomainWaiting(reg, s, domain, d), d, x);
  }

  /** The domain as it is about to serve. */
  ghost function Serving(reg: Registry, s: State, domain: DomainId): State
    requires s.Shaped(reg) && domain in s.domains && CanGrant(reg, s, domain)
  {
    s.(domains := s.domains[domain := Domain(Some(GrantDirection(reg, s, domain)), false)])
  }

  lemma ServingIs(reg: Registry, s: State, domain: DomainId)
    requires Core(reg, s) && domain in s.domains && CanGrant(reg, s, domain)
    ensures var p, d := Serving(reg, s, domain), GrantDirection(reg, s, domain);
            && Core(reg, p) && domain in p.domains && !NoneAvailable(reg, p, domain, d)
            && Prepare(reg, s, domain) == p && Reconcile(reg, s, domain) == Serve(reg, p, domain, d)
  {
    var p, d := Serving(reg, s, domain), GrantDirection(reg, s, domain);
    hide GrantsHeld, QueuesDistinct, WithinCapacity, OneDirection, QueuesShaped, GrantsShaped, Registry.WellFormed,
      Available, DomainWaiting, Choose, Faulted, Busy, NoneAvailable, Serve;
    ChosenCanGo(reg, s, domain);
    if Busy(reg, s.blocks, domain) {
      assert s.domains[domain := s.domains[domain]] == s.domains;
    } else {
      ChosenIsAvailable(reg, s, domain);
    }
    assert Prepare(reg, s, domain) == p;
    PrepareShape(reg, s, domain);
    PrepareKeepsCore(reg, s, domain);
    SameWaiting(reg, s, p, domain);
  }

  lemma ReconcileRaises(reg: Registry, s: State, domain: DomainId)
    requires Core(reg, s) && !BaysWithin(reg, s.bays) && domain in s.domains && CanGrant(reg, s, domain)
    ensures !Reconcile(reg, s, domain).ok
  {
    hide BaysWithin, Reconcile, Prepare, Serve, GrantsHeld, QueuesDistinct, WithinCapacity, OneDirection, QueuesShaped,
      GrantsShaped, Registry.WellFormed, CanGrant, GrantDirection, NoneAvailable;
    ServingIs(reg, s, domain);
    ServeRaises(reg, Serving(reg, s, domain), domain, GrantDirection(reg, s, domain));
  }

  /** What a quiet domain changes does not matter to what any domain can grant. */
  lemma SameGrants(reg: Registry, s: State, t: State, quiet: DomainId, domain: DomainId)
    requires s.Shaped(reg) && t.Shaped(reg) && t == s.(domains := t.domains) && domain in s.domains && domain in t.domains
    requires domain != quiet && t.domains[domain] == s.domains[domain]
    ensures CanGrant(reg, t, domain) == CanGrant(reg, s, domain)
  {
    SameWaiting(reg, s, t, domain);
    hide NoneAvailable, Busy, Faulted;
  }

  /** A round goes through. */
  ghost predicate GoesThrough(reg: Registry, s: State, order: seq<DomainId>)
    requires s.Shaped(reg) && forall d :: d in order ==> d in s.domains
  {
    BaysWithin(reg, s.bays) || forall d :: d in order ==> !CanGrant(reg, s, d)
  }

  /** Domains that cannot grant stay so while they are visited one after the other, and nothing but
      their own directions and batches changes. */
  lemma {:induction false} QuietRound(reg: Registry, s: State, order: seq<DomainId>)
    requires Core(reg, s) && forall d :: d in order ==> d in s.domains && !CanGrant(reg, s, d)
    ensures var pass := ReconcileEach(reg, s, order);
            && pass.ok && pass.state == s.(domains := pass.state.domains) && pass.state.Shaped(reg)
            && (forall d :: d in s.domains <==> d in pass.state.domains)
            && (forall d :: d in s.domains && d !in order ==> pass.state.domains[d] == s.domains[d])
    decreases |order|
  {
    hide Reconcile, CanGrant, GrantsHeld, QueuesDistinct, WithinCapacity, OneDirection, QueuesShaped, GrantsShaped,
      Registry.WellFormed, BlocksMoved, QueuesMoved, GrantsMoved, BaysMoved;
    if order != [] {
      assert order[0] in order;
      var first := Reconcile(reg, s, order[0]);
      QuietReconcile(reg, s, order[0]);
      ReconcileSettles(reg, s, order[0]);
      forall d | d in order[1..] ensures d in first.state.domains && !CanGrant(reg, first.state, d) {
        if d != order[0] {
          SameGrants(reg, s, first.state, order[0], d);
        }
      }
      QuietRound(reg, first.state, order[1..]);
    }
  }

  /** A round goes through exactly if no bay is over its capacity or no domain it visits can
      grant anything. */
  lemma {:induction false} RoundGoesThroughExactly(reg: Registry, s: State, order: seq<DomainId>)
    requires Core(reg, s) && forall d :: d in order ==> d in s.domains
    ensures ReconcileEach(reg, s, order).ok <==> GoesThrough(reg, s, order)
    decreases |order|
  {
    hide Reconcile, CanGrant, BaysWithin, GrantsHeld, QueuesDistinct, WithinCapacity, OneDirection, QueuesShaped, GrantsShaped,
      Registry.WellFormed, BlocksMoved, QueuesMoved, GrantsMoved, BaysMoved;
    if BaysWithin(reg, s.bays) {
      EachWithin(reg, s, order);
    } else if order != [] {
      assert order[0] in order;
      if CanGrant(reg, s, order[0]) {
        ReconcileRaises(reg, s, order[0]);
      } else {
        var first := Reconcile(reg, s, order[0]);
        QuietReconcile(reg, s, order[0]);
        ReconcileSettles(reg, s, order[0]);
        forall d | d in order[1..] ensures d in first.state.domains && CanGrant(reg, first.state, d) == CanGrant(reg, s, d) {
          if d != order[0] {
            SameGrants(reg, s, first.state, order[0], d);
          }
        }
        RoundGoesThroughExactly(reg, first.state, order[1..]);
        assert forall d :: d in order <==> d == order[0] || d in order[1..];
      }
    }
  }

  /** A round that goes through settles every healthy domain that it visits, in any order, and
      keeps every other settled domain settled. */
  lemma RoundSettlesVisited(reg: Registry, s: State, order: seq<DomainId>, domain: DomainId)
    requires Core(reg, s) && (forall d :: d in order ==> d in s.domains) && GoesThrough(reg, s, order)
    requires domain in s.domains && !Faulted(reg, s.blocks, domain)
    requires domain in order || Settled(reg, s, domain)
    ensures var t := ReconcileEach(reg, s, order).state;
            t.Shaped(reg) && domain in t.domains && Settled(reg, t, domain)
  {
    hide ReconcileEach, GoesThrough, Settled, Faulted, QueuesShaped, GrantsShaped, Registry.WellFormed, GrantsHeld, QueuesDistinct,
      WithinCapacity, OneDirection;
    RoundGoesThroughExactly(reg, s, order);
    EachSettles(reg, s, order, domain);
  }

  // ----- Steps ------------------------------------------------------------------------------------

  /** The step ends with the runtime check, whatever it did before. */
  ghost predicate EndsInCheck(reg: Registry, s: State, e: Event)
    requires s.Shaped(reg)
  {
    match e
    case Exited(r, b) => b in reg.blocks
    case Entered(r, b) =>
      b in reg.blocks && Key(r, b) in s.grants
      && (s.grants[Key(r, b)].source.Some? ==> s.grants[Key(r, b)].source.value in s.bays)
    case _ => false
  }

  /** The step runs the check itself: at its end, or on a grant made at once. */
  ghost predicate RunsCheck(reg: Registry, s: State, e: Event)
    requires s.Shaped(reg)
  {
    EndsInCheck(reg, s, e) || (e.Requested? && IsNewRequest(reg, s, e.request) && AdmitsAtOnce(reg, s, e.request))
  }

  /** A failed runtime check is the only thing that can raise an assertion error. */
  lemma RepliesUnchecked(reg: Registry, s: State, e: Event)
    requires Core(reg, s) && Feasible(reg, e) && Prelude(reg, s, e).Shaped(reg)
    requires forall d :: d in Visited(reg, s, e) ==> d in Prelude(reg, s, e).domains
    requires ReconcileEach(reg, Prelude(reg, s, e), Visited(reg, s, e)).ok
    requires RunsCheck(reg, s, e) ==> Step(reg, s, e).state.Keyed(reg) && ChecksPass(reg, Step(reg, s, e).state)
    ensures Step(reg, s, e).Unchecked()
  {
    hide GrantsHeld, QueuesDistinct, WithinCapacity, ChecksPass, Reconcile,
      OneDirection, QueuesShaped, Enter, Leave, Withdraw, MoveToBay, Enqueue, Grant, Available;
    match e
    case Requested(x) =>
      if IsNewRequest(reg, s, x) {
        RequestUnchecked(reg, s, x);
      }
    case _ =>
  }

  lemma RequestUnchecked(reg: Registry, s: State, x: Reservation)
    requires Core(reg, s) && IsNewRequest(reg, s, x) && Prelude(reg, s, Requested(x)).Shaped(reg)
    requires forall d :: d in Visited(reg, s, Requested(x)) ==> d in Prelude(reg, s, Requested(x)).domains
    requires ReconcileEach(reg, Prelude(reg, s, Requested(x)), Visited(reg, s, Requested(x))).ok
    requires AdmitsAtOnce(reg, s, x) ==> Request(reg, s, x).state.Keyed(reg) && ChecksPass(reg, Request(reg, s, x).state)
    ensures Request(reg, s, x).Unchecked()
  {
    var domain := reg.blocks[x.block].domain;
    EnqueueAndReconcileSplits(reg, s, x);
    if s.domains[domain].active.Some? && s.domains[domain].active.value == x.direction.Opposite() {
      CloseBatchShape(reg, s, domain);
      EnqueueAndReconcileSplits(reg, CloseBatch(s, domain), x);
    }
    hide GrantsHeld, QueuesDistinct, WithinCapacity, ChecksPass, Reconcile, EnqueueAndReconcile, ReconcileEach,
      OneDirection, QueuesShaped, Enqueue, Grant, Available, CloseBatch, Queues.Has;
  }

  /** No runtime check fails in a step that leaves every bay within its capacity before it
      reconciles, and the bays stay so. */
  lemma StepUnchecked(reg: Registry, s: State, e: Event)
    requires Core(reg, s) && Feasible(reg, e) && BaysWithin(reg, Prelude(reg, s, e).bays)
    ensures Step(reg, s, e).Unchecked() && BaysWithin(reg, Step(reg, s, e).state.bays)
  {
    hide Step, Prelude, Visited, ReconcileEach, BaysWithin, GrantsHeld, QueuesDistinct, WithinCapacity, OneDirection,
      QueuesShaped, GrantsShaped, Registry.WellFormed, ChecksPass;
    StepSplits(reg, s, e);
    PreludeKeepsCore(reg, s, e);
    EachWithin(reg, Prelude(reg, s, e), Visited(reg, s, e));
    StepKeepsCore(reg, s, e);
    ChecksHold(reg, Step(reg, s, e).state);
    RepliesUnchecked(reg, s, e);
  }

  lemma CheckedAtTheEnd(reg: Registry, s: State, e: Event)
    requires s.Shaped(reg) && Feasible(reg, e) && EndsInCheck(reg, s, e) && Step(reg, s, e).Unchecked()
    ensures Step(reg, s, e).state.Keyed(reg) && ChecksPass(reg, Step(reg, s, e).state)
  {
    StepShape(reg, s, e);
    hide Prelude, ReconcileEach, Enter, Leave, LeaveSource, QueuesShaped, GrantsShaped, Registry.WellFormed, ChecksPass;
  }

  lemma BaysWereWithin(reg: Registry, s: map<BayId, Bay>, t: map<BayId, Bay>)
    requires BaysMoved(s, t) && BaysWithin(reg, t) && forall h :: h in s ==> h in t
    ensures BaysWithin(reg, s)
  {
    forall h | h in s && h in reg.bays ensures |s[h].Used()| <= reg.bays[h].capacity {
      SubsetSize(s[h].Used(), t[h].Used());
    }
  }

  /** An exit, or an entry on a grant, raises an assertion error exactly if some bay is over
      its capacity once the robot has moved; which bay does not matter. */
  lemma MovementUncheckedExactly(reg: Registry, s: State, e: Event)
    requires Core(reg, s) && Feasible(reg, e) && EndsInCheck(reg, s, e)
    ensures Step(reg, s, e).Unchecked() <==> BaysWithin(reg, Prelude(reg, s, e).bays)
  {
    hide Step, Prelude, Visited, ReconcileEach, BaysWithin, GrantsHeld, QueuesDistinct, WithinCapacity, OneDirection,
      QueuesShaped, GrantsShaped, Registry.WellFormed, ChecksPass, EndsInCheck, BlocksMoved, QueuesMoved, GrantsMoved,
      BaysMoved;
    var u, t := Prelude(reg, s, e), Step(reg, s, e).state;
    PreludeKeepsCore(reg, s, e);
    StepKeepsCore(reg, s, e);
    if BaysWithin(reg, u.bays) {
      StepUnchecked(reg, s, e);
    } else if Step(reg, s, e).Unchecked() {
      StepSplits(reg, s, e);
      EachMoves(reg, u, Visited(reg, s, e));
      CheckedAtTheEnd(reg, s, e);
      ChecksPassExactly(reg, t);
      BaysWereWithin(reg, u.bays, t.bays);
      assert false;
    }
  }

  /** A bay sighting needs a counted robot or a free place, and an exit a reserved or a free
      place in the granted bay. */
  ghost predicate LeavesRoom(reg: Registry, s: State, e: Event)
    requires s.Shaped(reg)
  {
    match e
    case Occupied(h, r) => OccupyBay(reg, s, h, r).Ok() ==> Fits(reg, s, h, r)
    case Exited(r, b) => b in reg.blocks && Key(r, b) in s.grants ==> Fits(reg, s, s.grants[Key(r, b)].destination, r)
    case _ => true
  }

  predicate Fits(reg: Registry, s: State, h: BayId, r: RobotId) {
    h in s.bays && h in reg.bays && (r in s.bays[h].Used() || |s.bays[h].Used()| < reg.bays[h].capacity)
  }

  lemma SmallerWithin(reg: Registry, s: map<BayId, Bay>, t: map<BayId, Bay>)
    requires BaysWithin(reg, s) && forall h :: h in t ==> h in s && t[h].Used() <= s[h].Used()
    ensures BaysWithin(reg, t)
  {
    forall h | h in t && h in reg.bays ensures |t[h].Used()| <= reg.bays[h].capacity {
      SubsetSize(t[h].Used(), s[h].Used());
    }
  }

  /** Robot `r` is counted in bay `h` now, and nobody else is new anywhere. */
  lemma OneMoreWithin(reg: Registry, s: map<BayId, Bay>, t: map<BayId, Bay>, h: BayId, r: RobotId)
    requires BaysWithin(reg, s) && h in s && h in t && h in reg.bays && t[h].Used() == s[h].Used() + {r}
    requires forall k :: k in t && k != h ==> k in s && t[k].Used() <= s[k].Used()
    ensures BaysWithin(reg, t) <==> r in s[h].Used() || |s[h].Used()| < reg.bays[h].capacity
  {
    SmallerWithin(reg, s, t[h := s[h]]);
    if r in s[h].Used() {
      assert t[h].Used() == s[h].Used();
    }
    assert forall k :: k in t && k != h ==> t[h := s[h]][k] == t[k];
  }

  lemma WithdrawWithin(reg: Registry, s: State, r: RobotId, targets: seq<BlockId>)
    requires BaysWithin(reg, s.bays)
    ensures BaysWithin(reg, Withdraw(s, r, targets).bays)
  {
    hide WithoutRobot, HoldsOneTo;
    var t := Withdraw(s, r, targets);
    forall h | h in t.bays && h in reg.bays ensures |t.bays[h].Used()| <= reg.bays[h].capacity {
      SubsetSize(t.bays[h].Used(), s.bays[h].Used());
    }
  }

  lemma LeaveWithinExactly(reg: Registry, s: State, r: RobotId, b: BlockId)
    requires s.Shaped(reg) && b in reg.blocks && BaysWithin(reg, s.bays)
    ensures BaysWithin(reg, Leave(s, r, b).bays) <==> LeavesRoom(reg, s, Exited(r, b))
  {
    hide QueuesShaped, Registry.WellFormed, BaysWithin;
    if Key(r, b) in s.grants {
      var h := s.grants[Key(r, b)].destination;
      var t := Leave(s, r, b);
      assert t.bays[h].Used() == s.bays[h].Used() + {r};
      OneMoreWithin(reg, s.bays, t.bays, h, r);
    }
  }

  lemma MoveWithinExactly(reg: Registry, s: State, h: BayId, r: RobotId)
    requires s.Shaped(reg) && h in reg.bays && BaysWithin(reg, s.bays)
    ensures BaysWithin(reg, MoveToBay(s, h, r).bays) <==> Fits(reg, s, h, r)
  {
    hide QueuesShaped, GrantsShaped, Registry.WellFormed, BaysWithin;
    var t := MoveToBay(s, h, r);
    assert t.bays[h].Used() == s.bays[h].Used() + {r};
    OneMoreWithin(reg, s.bays, t.bays, h, r);
  }

  lemma DropWithin(reg: Registry, s: State, h: BayId, r: RobotId)
    requires h in s.bays && BaysWithin(reg, s.bays)
    ensures BaysWithin(reg, DropFromBay(s, h, r).bays)
  {
    SmallerWithin(reg, s.bays, DropFromBay(s, h, r).bays);
  }

  lemma InitialWithin(reg: Registry)
    requires reg.WellFormed()
    ensures BaysWithin(reg, Initial(reg).bays)
  {
  }

  /** The reconciliations of the step go through. */
  ghost predicate StepGoesThrough(reg: Registry, s: State, e: Event)
    requires s.Shaped(reg) && Feasible(reg, e)
  {
    StepSplits(reg, s, e);
    GoesThrough(reg, Prelude(reg, s, e), Visited(reg, s, e))
  }

  lemma UncheckedGoesThrough(reg: Registry, s: State, e: Event)
    requires Core(reg, s) && Feasible(reg, e) && Step(reg, s, e).Unchecked()
    ensures StepGoesThrough(reg, s, e)
  {
    hide Step, Prelude, Visited, ReconcileEach, GoesThrough, GrantsHeld, QueuesDistinct, WithinCapacity, OneDirection,
      QueuesShaped, GrantsShaped, Registry.WellFormed;
    StepSplits(reg, s, e);
    PreludeKeepsCore(reg, s, e);
    RoundGoesThroughExactly(reg, Prelude(reg, s, e), Visited(reg, s, e));
  }

  lemma RoomGoesThrough(reg: Registry, s: State, e: Event)
    requires s.Shaped(reg) && Feasible(reg, e) && BaysWithin(reg, Prelude(reg, s, e).bays)
    ensures StepGoesThrough(reg, s, e)
  {
    StepSplits(reg, s, e);
    hide Step, Prelude, Visited, BaysWithin, ReconcileEach, State.Shaped;
  }

  lemma AdmittedAtOnceIs(reg: Registry, s: State, x: Reservation)
    requires Core(reg, s) && IsNewRequest(reg, s, x) && AdmitsAtOnce(reg, s, x)
    ensures Prelude(reg, s, Requested(x)).Keyed(reg)
    ensures Step(reg, s, Requested(x)).Unchecked() <==> ChecksPass(reg, Prelude(reg, s, Requested(x)))
  {
    DirectGrantShape(reg, s, x);
    hide Grant, ChecksPass, Available, GrantsHeld, QueuesDistinct, WithinCapacity, OneDirection, QueuesShaped, GrantsShaped;
  }

  /** A step raises no assertion error exactly if no bay is over its capacity before it reconciles, or
      it neither runs the check itself nor visits a domain that can grant anything. */
  lemma StepUncheckedExactly(reg: Registry, s: State, e: Event)
    requires Core(reg, s) && Feasible(reg, e)
    ensures var u := Prelude(reg, s, e);
            && u.Shaped(reg) && (forall d :: d in Visited(reg, s, e) ==> d in u.domains)
            && (Step(reg, s, e).Unchecked() <==>
                BaysWithin(reg, u.bays)
                || (!RunsCheck(reg, s, e) && forall d :: d in Visited(reg, s, e) ==> !CanGrant(reg, u, d)))
  {
    hide Step, Prelude, Visited, ReconcileEach, BaysWithin, GrantsHeld, QueuesDistinct, WithinCapacity, OneDirection,
      QueuesShaped, GrantsShaped, Registry.WellFormed, ChecksPass, CanGrant, EndsInCheck, IsNewRequest, AdmitsAtOnce;
    var u := Prelude(reg, s, e);
    StepSplits(reg, s, e);
    PreludeKeepsCore(reg, s, e);
    RoundGoesThroughExactly(reg, u, Visited(reg, s, e));
    if BaysWithin(reg, u.bays) {
      StepUnchecked(reg, s, e);
    } else if EndsInCheck(reg, s, e) {
      MovementUncheckedExactly(reg, s, e);
    } else if RunsCheck(reg, s, e) {
      AdmittedAtOnceIs(reg, s, e.request);
      ChecksPassExactly(reg, u);
    } else if forall d :: d in Visited(reg, s, e) ==> !CanGrant(reg, u, d) {
      RepliesUnchecked(reg, s, e);
    }
  }

  /** From bays within their capacity, a step overfills one exactly if it is a sighting or an
      exit for which there is no room. */
  lemma PreludeWithinExactly(reg: Registry, s: State, e: Event)
    requires s.Shaped(reg) && Feasible(reg, e) && BaysWithin(reg, s.bays)
    ensures BaysWithin(reg, Prelude(reg, s, e).bays) <==> LeavesRoom(reg, s, e)
  {
    hide QueuesShaped, Registry.WellFormed, BaysWithin, Enter, Leave, Withdraw, MoveToBay, Grant, Initial, Fits,
      Available, Queues.Has, FirstOccupied, MayCancel, DropFromBay;
    match e
    case Requested(x) =>
      if IsNewRequest(reg, s, x) && AdmitsAtOnce(reg, s, x) {
        GrantBays(reg, s, x);
      }
    case Entered(r, b) =>
      if Key(r, b) in s.grants {
        var x := s.grants[Key(r, b)];
        EnteredBays(s, x);
        if x.source.Some? && x.source.value in s.bays {
          DropWithin(reg, Enter(s, x), x.source.value, r);
        }
      }
    case Exited(r, b) =>
      if b in reg.blocks {
        LeaveWithinExactly(reg, s, r, b);
      }
    case Occupied(h, r) =>
      if h in reg.bays {
        MoveWithinExactly(reg, s, h, r);
      }
    case Released(h, r) =>
      if h in reg.bays {
        DropWithin(reg, s, h, r);
      }
    case Cancelled(r, target, visit) => WithdrawWithin(reg, s, r, Targets(reg, target));
    case FaultedAt(r, visit) =>
      WithdrawWithin(reg, s, r, reg.blockOrder);
      FirstOccupiedIsFirst(s, r, reg.blockOrder);
    case SeenUnexpectedly(r, b) =>
    case WasReset(force) => InitialWithin(reg);
  }

  lemma EnteredBays(s: State, x: Reservation)
    requires x.block in s.blocks
    ensures Enter(s, x).bays == s.bays
  {
  }
}
