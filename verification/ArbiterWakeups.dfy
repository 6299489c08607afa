/** No missed wake-up: when an operation returns, no healthy domain has a request
    it could admit. Two operations free a bay without looking at the other domains
    that share it; ArbiterGaps.dfy says exactly when that matters. */
module ArbiterWakeups {
  import opened Models
  import opened ArbiterSpec
  import opened ArbiterSteps
  import opened ArbiterSafety
  import opened ArbiterProgress
  import opened ArbiterRuns
  import opened ArbiterChecks
  import opened ArbiterOrder

  ghost predicate AllSettled(reg: Registry, s: State)
    requires s.Shaped(reg)
  {
    forall d :: d in s.domains && !Faulted(reg, s.blocks, d) ==> Settled(reg, s, d)
  }

  /** No request of the domain waits for the bay. */
  ghost predicate NobodyWaitsFor(reg: Registry, s: State, domain: DomainId, h: BayId)
    requires s.Keyed(reg)
  {
    forall b, d, x :: reg.InDomain(b, domain) && x in s.waiting[b].Of(d) ==> x.destination != h
  }

  /** A single-block cancellation or a bay sighting frees a place only in bays that no
      other domain waits for. */
  ghost predicate WakeSafe(reg: Registry, s: State, e: Event)
    requires s.Keyed(reg)
  {
    match e
    case Entered(r, b) =>
      Key(r, b) in s.grants && s.grants[Key(r, b)].source.Some? ==> s.grants[Key(r, b)].source.value in s.bays
    case Occupied(h, r) =>
      forall k, d :: k in s.bays && k != h && r in s.bays[k].occupants && r !in s.bays[k].reservations ==>
        NobodyWaitsFor(reg, s, d, k)
    case Cancelled(r, target, visit) =>
      target.Some? && Key(r, target.value) in s.grants ==>
        forall d :: !reg.InDomain(target.value, d) ==>
          NobodyWaitsFor(reg, s, d, s.grants[Key(r, target.value)].destination)
    case _ => true
  }

  lemma UnavailableWhenFuller(reg: Registry, s: State, t: State, x: Reservation)
    requires s.Keyed(reg) && t.Keyed(reg) && x.block in reg.blocks && x.destination in reg.bays
    requires t.blocks[x.block] == s.blocks[x.block]
    requires s.bays[x.destination].Used() <= t.bays[x.destination].Used()
    requires !Available(reg, s, x)
    ensures !Available(reg, t, x)
  {
    SubsetSize(s.bays[x.destination].Used() - {x.robot}, t.bays[x.destination].Used() - {x.robot});
  }

  /** Bays that the domain waits for did not get emptier. */
  ghost predicate NoRoomGained(reg: Registry, s: State, t: State, domain: DomainId)
    requires s.Keyed(reg) && t.Keyed(reg)
  {
    forall h :: h in s.bays && !NobodyWaitsFor(reg, s, domain, h) ==> s.bays[h].Used() <= t.bays[h].Used()
  }

  lemma SettledFrame(reg: Registry, s: State, t: State, domain: DomainId)
    requires s.Shaped(reg) && t.Shaped(reg) && Untouched(reg, s, t, domain)
    requires NoRoomGained(reg, s, t, domain) && Settled(reg, s, domain)
    ensures Settled(reg, t, domain)
  {
    UntouchedSame(reg, s, t, domain);
    forall d | NoneAvailable(reg, s, domain, d) ensures NoneAvailable(reg, t, domain, d) {
      UntouchedNoneAvailable(reg, s, t, domain, d);
    }
    forall d | HasWaiting(reg, t, domain, d) ensures HasWaiting(reg, s, domain, d) {
      var b, x :| reg.InDomain(b, domain) && x in t.waiting[b].Of(d);
      assert x in s.waiting[b].Of(d);
    }
    hide Busy, NoneAvailable, HasWaiting, Untouched, NoRoomGained;
  }

  lemma UntouchedNoneAvailable(reg: Registry, s: State, t: State, domain: DomainId, d: Direction)
    requires s.Shaped(reg) && t.Shaped(reg) && Untouched(reg, s, t, domain)
    requires NoRoomGained(reg, s, t, domain) && NoneAvailable(reg, s, domain, d)
    ensures NoneAvailable(reg, t, domain, d)
  {
    hide Available;
    forall b, x | reg.InDomain(b, domain) && x in t.waiting[b].Of(d) ensures !Available(reg, t, x) {
      assert x in s.waiting[b].Of(d);
      assert !NobodyWaitsFor(reg, s, domain, x.destination);
      UnavailableWhenFuller(reg, s, t, x);
    }
  }

  lemma RequestSettles(reg: Registry, s: State, x: Reservation, domain: DomainId)
    requires Core(reg, s) && IsNewRequest(reg, s, x) && domain in s.domains && Settled(reg, s, domain)
    requires domain !in Visited(reg, s, Requested(x))
    ensures var u := Prelude(reg, s, Requested(x));
            u.Shaped(reg) && domain in u.domains && Settled(reg, u, domain)
  {
    var home := reg.blocks[x.block].domain;
    var u := Prelude(reg, s, Requested(x));
    RequestPreludeCore(reg, s, x);
    RequestOnlyAt(reg, s, x);
    if domain != home {
      OnlyAtUntouched(reg, s, u, x.block, domain);
      RequestKeepsRoom(reg, s, x, domain);
      SettledFrame(reg, s, u, domain);
    } else if AdmitsAtOnce(reg, s, x) {
      AdmittedSettles(reg, s, x);
    } else {
      QueuedSettles(reg, s, x);
    }
    hide Core, Settled, Available, Enqueue, Grant, CloseBatch, Queues.Has, QueuesShaped, GrantsShaped;
  }

  lemma RequestKeepsRoom(reg: Registry, s: State, x: Reservation, domain: DomainId)
    requires s.Shaped(reg) && IsNewRequest(reg, s, x) && Prelude(reg, s, Requested(x)).Keyed(reg)
    ensures NoRoomGained(reg, s, Prelude(reg, s, Requested(x)), domain)
  {
  }

  lemma GrantFills(reg: Registry, s: State, x: Reservation)
    requires s.Keyed(reg) && x.block in s.blocks && x.destination in s.bays
    requires x.robot !in s.blocks[x.block].reservations
    ensures var u := Grant(s, x);
            && u.Keyed(reg) && u.waiting == s.waiting && u.domains == s.domains
            && BlocksMoved(reg, s.blocks, u.blocks, {reg.blocks[x.block].domain}) && BaysMoved(s.bays, u.bays)
  {
  }

  lemma FilledNoneAvailable(reg: Registry, s: State, t: State, ds: set<DomainId>, domain: DomainId, d: Direction)
    requires s.Shaped(reg) && t.Shaped(reg) && t.waiting == s.waiting
    requires BlocksMoved(reg, s.blocks, t.blocks, ds) && BaysMoved(s.bays, t.bays)
    requires NoneAvailable(reg, s, domain, d)
    ensures NoneAvailable(reg, t, domain, d)
  {
    hide BlocksMoved, BaysMoved, Available;
    forall b, y | reg.InDomain(b, domain) && y in t.waiting[b].Of(d) ensures !Available(reg, t, y) {
      UnavailableStays(reg, s, t, ds, y);
    }
  }

  lemma AdmittedSettles(reg: Registry, s: State, x: Reservation)
    requires s.Shaped(reg) && IsNewRequest(reg, s, x) && AdmitsAtOnce(reg, s, x)
    requires Settled(reg, s, reg.blocks[x.block].domain)
    requires x.robot !in s.blocks[x.block].reservations
    ensures var u := Grant(s, x); u.Shaped(reg) && Settled(reg, u, reg.blocks[x.block].domain)
  {
    var u := Grant(s, x);
    var home := reg.blocks[x.block].domain;
    DirectGrantShape(reg, s, x);
    AdmittedIsBusy(reg, s, x);
    GrantFills(reg, s, x);
    assert NoneAvailable(reg, s, home, x.direction);
    hide Grant, Available, Busy, Registry.WellFormed, QueuesShaped, GrantsShaped, Queues.Has, BlocksMoved, BaysMoved,
      NoneAvailable;
    FilledNoneAvailable(reg, s, u, {home}, home, x.direction);
  }

  lemma QueuedSettles(reg: Registry, s: State, x: Reservation)
    requires s.Shaped(reg) && IsNewRequest(reg, s, x) && !AdmitsAtOnce(reg, s, x)
    requires Settled(reg, s, reg.blocks[x.block].domain)
    requires reg.blocks[x.block].domain !in Visited(reg, s, Requested(x))
    ensures var u := Prelude(reg, s, Requested(x));
            u.Shaped(reg) && reg.blocks[x.block].domain in u.domains && Settled(reg, u, reg.blocks[x.block].domain)
  {
    var home := reg.blocks[x.block].domain;
    var u := Enqueue(s, x);
    assert Prelude(reg, s, Requested(x)) == u;
    EnqueueShape(reg, s, x);
    EnqueueOtherQueue(reg, s, x, home);
    assert s.domains[home].active == Some(x.direction);
    if !s.domains[home].closed {
      EnqueuedNoneAvailable(reg, s, x, home);
    }
    hide Busy, HasWaiting, NoneAvailable, Robots, Queues.Has, State.Shaped;
  }

  lemma AvailableFrame(reg: Registry, s: State, t: State, x: Reservation)
    requires s.Keyed(reg) && t.Keyed(reg) && t.blocks == s.blocks && t.bays == s.bays
    requires x.block in reg.blocks && x.destination in reg.bays
    ensures Available(reg, t, x) == Available(reg, s, x)
  {
  }

  lemma EnqueuedNoneAvailable(reg: Registry, s: State, x: Reservation, domain: DomainId)
    requires s.Shaped(reg) && x.block in reg.blocks && x.destination in reg.bays
    requires NoneAvailable(reg, s, domain, x.direction) && !Available(reg, s, x)
    ensures Enqueue(s, x).Shaped(reg) && NoneAvailable(reg, Enqueue(s, x), domain, x.direction)
  {
    hide Available, GrantsShaped, Registry.WellFormed, Robots;
    var u := Enqueue(s, x);
    EnqueueShape(reg, s, x);
    forall b, y | reg.InDomain(b, domain) && y in u.waiting[b].Of(x.direction) ensures !Available(reg, u, y) {
      assert y == x || y in s.waiting[b].Of(x.direction);
      assert !Available(reg, s, y);
      AvailableFrame(reg, s, u, y);
    }
  }

  // ----- The other operations ---------------------------------------------------------------

  lemma LeaveKeepsRoom(reg: Registry, s: State, r: RobotId, b: BlockId, domain: DomainId)
    requires s.Shaped(reg) && b in reg.blocks
    ensures Leave(s, r, b).Keyed(reg) && NoRoomGained(reg, s, Leave(s, r, b), domain)
    ensures domain in s.domains && !reg.InDomain(b, domain) ==> Untouched(reg, s, Leave(s, r, b), domain)
  {
    LeaveShape(reg, s, r, b);
    hide QueuesShaped, Registry.WellFormed, NobodyWaitsFor;
  }

  lemma LeaveSettles(reg: Registry, s: State, r: RobotId, b: BlockId, domain: DomainId)
    requires s.Shaped(reg) && b in reg.blocks && domain in s.domains && !reg.InDomain(b, domain)
    requires Settled(reg, s, domain)
    ensures Leave(s, r, b).Shaped(reg) && domain in Leave(s, r, b).domains
    ensures Settled(reg, Leave(s, r, b), domain)
  {
    LeaveShape(reg, s, r, b);
    LeaveKeepsRoom(reg, s, r, b, domain);
    SettledFrame(reg, s, Leave(s, r, b), domain);
  }

  lemma OccupySettles(reg: Registry, s: State, h: BayId, r: RobotId, domain: DomainId)
    requires s.Shaped(reg) && domain in s.domains && Settled(reg, s, domain)
    requires WakeSafe(reg, s, Occupied(h, r))
    ensures var u := OccupyBay(reg, s, h, r).state;
            u.Shaped(reg) && domain in u.domains && Settled(reg, u, domain)
  {
    var u := OccupyBay(reg, s, h, r).state;
    OccupyShape(reg, s, h, r);
    assert Untouched(reg, s, u, domain);
    assert NoRoomGained(reg, s, u, domain);
    SettledFrame(reg, s, u, domain);
  }

  lemma WithdrawKeepsRoom(reg: Registry, s: State, r: RobotId, b: BlockId, domain: DomainId)
    requires s.Shaped(reg) && b in reg.blocks
    requires Key(r, b) in s.grants ==> NobodyWaitsFor(reg, s, domain, s.grants[Key(r, b)].destination)
    ensures Withdraw(s, r, [b]).Keyed(reg) && NoRoomGained(reg, s, Withdraw(s, r, [b]), domain)
  {
  }

  lemma WithdrawSettles(reg: Registry, s: State, r: RobotId, b: BlockId, domain: DomainId)
    requires s.Shaped(reg) && b in reg.blocks && domain in s.domains && !reg.InDomain(b, domain)
    requires Settled(reg, s, domain)
    requires Key(r, b) in s.grants ==> NobodyWaitsFor(reg, s, domain, s.grants[Key(r, b)].destination)
    ensures var u := Withdraw(s, r, [b]); u.Shaped(reg) && domain in u.domains && Settled(reg, u, domain)
  {
    WithdrawShape(reg, s, r, [b]);
    WithdrawShrinks(reg, s, r, [b], domain);
    WithdrawKeepsRoom(reg, s, r, b, domain);
    SettledFrame(reg, s, Withdraw(s, r, [b]), domain);
  }

  /** A change confined to one faulted block leaves the other domains settled. */
  lemma FaultedElsewhere(reg: Registry, s: State, t: State, b: BlockId, domain: DomainId)
    requires s.Shaped(reg) && t.Shaped(reg) && t == s.(blocks := t.blocks)
    requires b in reg.blocks && forall c :: c in s.blocks && c != b ==> t.blocks[c] == s.blocks[c]
    requires t.blocks[b].faulted && !Faulted(reg, t.blocks, domain)
    requires domain in s.domains && Settled(reg, s, domain)
    ensures Settled(reg, t, domain)
  {
    assert Untouched(reg, s, t, domain);
    assert NoRoomGained(reg, s, t, domain);
    SettledFrame(reg, s, t, domain);
  }

  lemma CancelPreludeSettled(reg: Registry, s: State, r: RobotId, target: Option<BlockId>, visit: seq<DomainId>,
    domain: DomainId)
    requires s.Shaped(reg) && VisitsTargets(reg, target, visit) && MayCancel(reg, s, r, target)
    requires domain in s.domains && domain !in visit && Settled(reg, s, domain)
    requires WakeSafe(reg, s, Cancelled(r, target, visit))
    ensures var u := Withdraw(s, r, Targets(reg, target));
            u.Shaped(reg) && domain in u.domains && Settled(reg, u, domain)
  {
    if target.Some? {
      assert target.value in Targets(reg, target);
      WithdrawSettles(reg, s, r, target.value, domain);
    } else {
      NoBlocksSettled(reg, s, r, domain);
    }
  }

  /** A domain without blocks has nothing that could change. */
  lemma NoBlocksSettled(reg: Registry, s: State, r: RobotId, domain: DomainId)
    requires s.Shaped(reg) && domain in s.domains && Settled(reg, s, domain)
    requires forall b :: b in reg.blockOrder ==> !reg.InDomain(b, domain)
    ensures var u := Withdraw(s, r, reg.blockOrder); u.Shaped(reg) && domain in u.domains && Settled(reg, u, domain)
  {
    var u := Withdraw(s, r, reg.blockOrder);
    WithdrawShape(reg, s, r, reg.blockOrder);
    WithdrawShrinks(reg, s, r, reg.blockOrder, domain);
    assert forall h :: NobodyWaitsFor(reg, s, domain, h);
    SettledFrame(reg, s, u, domain);
  }

  lemma PreludeSettled(reg: Registry, s: State, e: Event, domain: DomainId)
    requires Core(reg, s) && Feasible(reg, e) && WakeSafe(reg, s, e)
    requires Prelude(reg, s, e).Shaped(reg) && domain in s.domains
    requires domain !in Visited(reg, s, e) && !Faulted(reg, Prelude(reg, s, e).blocks, domain)
    requires Settled(reg, s, domain)
    ensures var u := Prelude(reg, s, e);
            domain in u.domains && Settled(reg, u, domain)
  {
    hide Settled, GrantsHeld, QueuesDistinct, WithinCapacity, OneDirection, QueuesShaped,
      GrantsShaped, Withdraw, Leave, Enter, Enqueue, Grant, MoveToBay, Available, NobodyWaitsFor, Faulted;
    match e
    case Requested(x) =>
      if IsNewRequest(reg, s, x) {
        RequestSettles(reg, s, x, domain);
      }
    case Entered(r, b) =>
      assert Key(r, b) in s.grants ==> domain in reg.domainOrder;
    case Exited(r, b) =>
      if b in reg.blocks {
        LeaveSettles(reg, s, r, b, domain);
      }
    case Occupied(h, r) => OccupySettles(reg, s, h, r, domain);
    case Released(h, r) =>
    case Cancelled(r, target, visit) =>
      if MayCancel(reg, s, r, target) {
        CancelPreludeSettled(reg, s, r, target, visit, domain);
      }
    case FaultedAt(r, visit) =>
      FirstOccupiedIsFirst(s, r, reg.blockOrder);
      if FirstOccupied(s, r, reg.blockOrder).Some? {
        FaultedElsewhere(reg, s, Prelude(reg, s, e), FirstOccupied(s, r, reg.blockOrder).value, domain);
      } else {
        CancelPreludeSettled(reg, s, r, None, visit, domain);
      }
    case SeenUnexpectedly(r, b) =>
      if b in reg.blocks {
        FaultedElsewhere(reg, s, Prelude(reg, s, e), b, domain);
      }
    case WasReset(force) =>
      InitialOrderly(reg, domain);
  }

  /** Only a reset clears a fault. */
  lemma PreludeKeepsFaults(reg: Registry, s: State, e: Event)
    requires s.Shaped(reg) && Feasible(reg, e) && !e.WasReset? && Prelude(reg, s, e).Shaped(reg)
    ensures forall b :: b in s.blocks && s.blocks[b].faulted ==> Prelude(reg, s, e).blocks[b].faulted
    ensures forall d :: Faulted(reg, s.blocks, d) ==> Faulted(reg, Prelude(reg, s, e).blocks, d)
  {
    hide QueuesShaped, GrantsShaped, Registry.WellFormed, Faulted, State.Shaped;
    PreludeKeepsFaulted(reg, s, e);
    var u := Prelude(reg, s, e);
    assert s.Keyed(reg) && u.Keyed(reg) by {
      ShapedIsKeyed(reg, s);
      ShapedIsKeyed(reg, u);
    }
    hide Prelude;
    MoreFaults(reg, s.blocks, u.blocks);
  }

  lemma ShapedIsKeyed(reg: Registry, s: State)
    requires s.Shaped(reg)
    ensures s.Keyed(reg)
  {
  }

  lemma PreludeKeepsFaulted(reg: Registry, s: State, e: Event)
    requires s.Shaped(reg) && Feasible(reg, e) && !e.WasReset?
    ensures forall b :: b in s.blocks && s.blocks[b].faulted ==>
              b in Prelude(reg, s, e).blocks && Prelude(reg, s, e).blocks[b].faulted
  {
    hide QueuesShaped, Available, Queues.Has, HoldsOneTo, WithoutRobot, Robots, FirstOccupied,
      Withdraw, Leave, Enter, Grant, Enqueue, CloseBatch;
    match e
    case Requested(x) => RequestKeepsFaulted(s, x);
    case Entered(r, b) => MovementKeepsFaulted(reg, s, r, b);
    case Exited(r, b) => MovementKeepsFaulted(reg, s, r, b);
    case Cancelled(r, target, visit) => WithdrawKeepsFaulted(s, r, Targets(reg, target));
    case FaultedAt(r, visit) =>
      FirstOccupiedIsFirst(s, r, reg.blockOrder);
      WithdrawKeepsFaulted(s, r, reg.blockOrder);
    case _ =>
  }

  lemma RequestKeepsFaulted(s: State, x: Reservation)
    ensures x.block in s.waiting ==> Enqueue(s, x).blocks == s.blocks
    ensures forall d :: d in s.domains ==> CloseBatch(s, d).blocks == s.blocks && CloseBatch(s, d).waiting == s.waiting
    ensures forall d :: d in s.domains && x.block in s.waiting ==> Enqueue(CloseBatch(s, d), x).blocks == s.blocks
    ensures x.block in s.blocks && x.destination in s.bays ==>
              forall b :: b in s.blocks ==> b in Grant(s, x).blocks && Grant(s, x).blocks[b].faulted == s.blocks[b].faulted
  {
  }

  lemma MovementKeepsFaulted(reg: Registry, s: State, r: RobotId, b: BlockId)
    requires s.Shaped(reg)
    ensures Key(r, b) in s.grants ==>
              var x := s.grants[Key(r, b)];
              && x.block in s.blocks
              && forall c :: c in s.blocks ==> c in Enter(s, x).blocks && Enter(s, x).blocks[c].faulted == s.blocks[c].faulted
    ensures b in reg.blocks ==>
              forall c :: c in s.blocks ==> c in Leave(s, r, b).blocks && Leave(s, r, b).blocks[c].faulted == s.blocks[c].faulted
  {
  }

  lemma WithdrawKeepsFaulted(s: State, r: RobotId, targets: seq<BlockId>)
    ensures forall b :: b in s.blocks ==>
              b in Withdraw(s, r, targets).blocks && Withdraw(s, r, targets).blocks[b].faulted == s.blocks[b].faulted
  {
  }

  /** No missed wake-up in a step whose reconciliations go through: if nothing grantable was waiting
      before, nothing grantable is waiting afterwards, in any healthy domain. */
  lemma StepKeepsSettled(reg: Registry, s: State, e: Event)
    requires Core(reg, s) && Feasible(reg, e) && AllSettled(reg, s)
    requires WakeSafe(reg, s, e) && StepGoesThrough(reg, s, e)
    ensures var t := Step(reg, s, e).state; t.Shaped(reg) && AllSettled(reg, t)
  {
    var u := Prelude(reg, s, e);
    var order := Visited(reg, s, e);
    var t := Step(reg, s, e).state;
    StepSplits(reg, s, e);
    PreludeKeepsCore(reg, s, e);
    EachMoves(reg, u, order);
    SameFaultsMoved(reg, u, t, HealthyOf(reg, u.blocks, order));
    if !e.WasReset? {
      PreludeKeepsFaults(reg, s, e);
    }
    hide Step, Visited, ReconcileEach, Settled, Faulted, GrantsHeld, QueuesDistinct,
      WithinCapacity, OneDirection, Registry.WellFormed, QueuesShaped, GrantsShaped,
      BlocksMoved, QueuesMoved, GrantsMoved, BaysMoved, WakeSafe, GoesThrough;
    forall d | d in t.domains && !Faulted(reg, t.blocks, d) ensures Settled(reg, t, d) {
      if d in order {
        hide Prelude;
        RoundSettlesVisited(reg, u, order, d);
      } else {
        PreludeHealthySettled(reg, s, e, d);
        hide Prelude;
        MovedUntouched(reg, u, t, HealthyOf(reg, u.blocks, order), d);
        SettledStays(reg, u, t, HealthyOf(reg, u.blocks, order), d);
      }
    }
  }

  lemma PreludeHealthySettled(reg: Registry, s: State, e: Event, domain: DomainId)
    requires Core(reg, s) && Feasible(reg, e) && WakeSafe(reg, s, e) && AllSettled(reg, s)
    requires Prelude(reg, s, e).Shaped(reg) && domain in Prelude(reg, s, e).domains
    requires domain !in Visited(reg, s, e) && !Faulted(reg, Prelude(reg, s, e).blocks, domain)
    ensures Settled(reg, Prelude(reg, s, e), domain)
  {
    if e.WasReset? {
      InitialOrderly(reg, domain);
    } else {
      PreludeKeepsFaults(reg, s, e);
      PreludeSettled(reg, s, e, domain);
    }
    hide Settled, GrantsHeld, QueuesDistinct, WithinCapacity, OneDirection, QueuesShaped,
      GrantsShaped, Withdraw, Leave, Enter, Enqueue, Grant, MoveToBay, Available, NobodyWaitsFor, Faulted, Initial;
  }

  // ----- Settled is the fixpoint -------------------------------------------------------------

  lemma SameEntry<K, V>(m: map<K, V>, k: K)
    requires k in m
    ensures m[k := m[k]] == m
  {
  }

  lemma OpposedIsClosed(reg: Registry, s: State, domain: DomainId, d: Direction)
    requires s.Shaped(reg) && domain in s.domains && s.domains[domain].active == Some(d)
    requires Settled(reg, s, domain) && DomainWaiting(reg, s, domain, d.Opposite()) != []
    ensures s.domains[domain].closed
  {
    hide Busy, NoneAvailable, DomainWaiting, Registry.WellFormed, QueuesShaped, GrantsShaped;
    CollectedItems(reg, s, domain);
    var x := DomainWaiting(reg, s, domain, d.Opposite())[0];
    assert x in DomainWaiting(reg, s, domain, d.Opposite());
    assert reg.InDomain(x.block, domain) && x in s.waiting[x.block].Of(d.Opposite());
    assert HasWaiting(reg, s, domain, d.Opposite());
  }

  lemma SettledIsClosed(reg: Registry, s: State, domain: DomainId, d: Direction)
    requires s.Shaped(reg) && domain in s.domains && s.domains[domain].active == Some(d)
    requires Settled(reg, s, domain)
    ensures CloseIfOpposed(reg, s, domain, d) == s
  {
    hide Settled, State.Shaped;
    if DomainWaiting(reg, s, domain, d.Opposite()) != [] {
      OpposedIsClosed(reg, s, domain, d);
      assert s.domains[domain].(closed := true) == s.domains[domain];
      SameEntry(s.domains, domain);
    }
  }

  lemma SettledServe(reg: Registry, s: State, domain: DomainId, d: Direction)
    requires s.Shaped(reg) && domain in s.domains && s.domains[domain].active == Some(d)
    requires Settled(reg, s, domain)
    ensures Serve(reg, s, domain, d) == Pass(s, true)
  {
    CollectedItems(reg, s, domain);
    SettledIsClosed(reg, s, domain, d);
    var items := if s.domains[domain].closed then [] else DomainWaiting(reg, s, domain, d);
    NothingToGrant(reg, s, items, d);
    hide GrantPass, Available, Busy, Settled, Registry.WellFormed, QueuesShaped, GrantsShaped, CloseIfOpposed;
  }

  /** One pass is a fixpoint: reconciling a settled domain changes nothing. */
  lemma SettledIsFixpoint(reg: Registry, s: State, domain: DomainId)
    requires s.Shaped(reg) && domain in s.domains && Settled(reg, s, domain)
    ensures Reconcile(reg, s, domain) == Pass(s, true)
  {
    if s.domains[domain].active.Some? {
      SettledServe(reg, s, domain, s.domains[domain].active.value);
    } else {
      CollectedItems(reg, s, domain);
      assert s.domains[domain].(active := None) == s.domains[domain];
      SameEntry(s.domains, domain);
    }
    hide Serve, Available, Busy, Faulted, DomainWaiting, Registry.WellFormed, QueuesShaped, GrantsShaped;
  }

  /** Reconciling twice is reconciling once, and the fixpoints of a healthy domain are
      exactly its settled states. */
  lemma ReconcileIdempotent(reg: Registry, s: State, domain: DomainId)
    requires Core(reg, s) && domain in s.domains && Reconcile(reg, s, domain).ok
    ensures var t := Reconcile(reg, s, domain).state;
            t.Shaped(reg) && domain in t.domains && Reconcile(reg, t, domain) == Pass(t, true)
    ensures !Faulted(reg, s.blocks, domain) ==>
              (Reconcile(reg, s, domain).state == s <==> Settled(reg, s, domain))
  {
    ReconcileSettles(reg, s, domain);
    var t := Reconcile(reg, s, domain).state;
    if !Faulted(reg, s.blocks, domain) {
      SettledIsFixpoint(reg, t, domain);
      if Settled(reg, s, domain) {
        SettledIsFixpoint(reg, s, domain);
      }
    }
    hide Reconcile, Settled, Faulted, Moved, GrantsHeld, QueuesDistinct, WithinCapacity, OneDirection;
  }

  /** Visiting every domain, in whatever order, settles the whole registry, if the round goes
      through. */
  lemma FullVisitSettles(reg: Registry, s: State, order: seq<DomainId>)
    requires Core(reg, s) && (forall d :: d in order <==> d in s.domains) && GoesThrough(reg, s, order)
    ensures var t := ReconcileEach(reg, s, order).state; t.Shaped(reg) && AllSettled(reg, t)
  {
    var t := ReconcileEach(reg, s, order).state;
    EachMoves(reg, s, order);
    SameFaultsMoved(reg, s, t, HealthyOf(reg, s.blocks, order));
    hide ReconcileEach, Settled, Faulted, GrantsHeld, QueuesDistinct, WithinCapacity, OneDirection,
      BlocksMoved, QueuesMoved, GrantsMoved, BaysMoved, GoesThrough;
    forall d | d in t.domains && !Faulted(reg, t.blocks, d) ensures Settled(reg, t, d) {
      RoundSettlesVisited(reg, s, order, d);
    }
  }

  /** The steps that end by visiting every domain: an entry on a grant, a bay release,
      an all-block cancellation, and a fault of a robot outside every block. */
  ghost predicate VisitsAll(reg: Registry, s: State, e: Event)
    requires s.Shaped(reg)
  {
    match e
    case Entered(r, b) =>
      Key(r, b) in s.grants && (s.grants[Key(r, b)].source.Some? ==> s.grants[Key(r, b)].source.value in s.bays)
    case Released(h, r) => h in reg.bays
    case Cancelled(r, target, visit) => target == None && MayCancel(reg, s, r, target)
    case FaultedAt(r, visit) => FirstOccupied(s, r, reg.blockOrder) == None
    case _ => false
  }

  lemma VisitsAllDomains(reg: Registry, s: State, e: Event)
    requires s.Shaped(reg) && Feasible(reg, e) && VisitsAll(reg, s, e)
    requires forall d :: d in reg.domainOrder ==> exists b :: b in reg.blockOrder && reg.InDomain(b, d)
    ensures forall d :: d in Visited(reg, s, e) <==> d in s.domains
  {
  }

  /** Those steps wake everyone who can be woken, even if wake-ups had been missed
      before. */
  lemma StepWakesEveryone(reg: Registry, s: State, e: Event)
    requires Core(reg, s) && Feasible(reg, e) && VisitsAll(reg, s, e)
    requires forall d :: d in reg.domainOrder ==> exists b :: b in reg.blockOrder && reg.InDomain(b, d)
    requires StepGoesThrough(reg, s, e)
    ensures var t := Step(reg, s, e).state; t.Shaped(reg) && AllSettled(reg, t)
  {
    StepSplits(reg, s, e);
    PreludeKeepsCore(reg, s, e);
    VisitsAllDomains(reg, s, e);
    hide Step, Prelude, Visited, AllSettled, GoesThrough, ReconcileEach, GrantsHeld, QueuesDistinct, WithinCapacity, OneDirection,
      QueuesShaped, GrantsShaped, Registry.WellFormed, VisitsAll, Feasible;
    FullVisitSettles(reg, Prelude(reg, s, e), Visited(reg, s, e));
  }

  // ----- Bays nobody waits for --------------------------------------------------------------------

  lemma PassLeavesBay(reg: Registry, s: State, items: seq<Reservation>, d: Direction, h: BayId)
    requires s.Keyed(reg) && h in s.bays
    requires forall x :: x in items ==> x.block in reg.blocks && x.destination in reg.bays && x.destination != h
    ensures var t := GrantPass(reg, s, items, d).state; h in t.bays && t.bays[h] == s.bays[h]
    decreases |items|
  {
    hide Available, ChecksPass, RemoveFirst;
    if items != [] {
      assert items[0] in items;
      if Available(reg, s, items[0]) {
        PassLeavesBay(reg, Grant(Dequeue(s, items[0], d), items[0]), items[1..], d, h);
      } else {
        PassLeavesBay(reg, s, items[1..], d, h);
      }
    }
  }

  lemma ReconcileLeavesBay(reg: Registry, s: State, domain: DomainId, h: BayId)
    requires s.Shaped(reg) && domain in s.domains && h in reg.bays && NobodyWaitsFor(reg, s, domain, h)
    ensures var t := Reconcile(reg, s, domain).state; h in t.bays && t.bays[h] == s.bays[h]
  {
    hide Prepare, GrantPass, CloseIfOpposed, Faulted, Registry.WellFormed, QueuesShaped, GrantsShaped, DomainWaiting;
    PrepareShape(reg, s, domain);
    var p := Prepare(reg, s, domain);
    if p.domains[domain].active.Some? {
      var d := p.domains[domain].active.value;
      CollectedItems(reg, p, domain);
      var items := if p.domains[domain].closed then [] else DomainWaiting(reg, p, domain, d);
      forall x | x in items ensures x.destination != h {
        assert reg.InDomain(x.block, domain) && x in s.waiting[x.block].Of(d);
      }
      PassLeavesBay(reg, p, items, d, h);
      GrantPassShape(reg, p, items, d);
      CloseLeavesBays(reg, GrantPass(reg, p, items, d).state, domain, d);
    }
  }

  lemma CloseLeavesBays(reg: Registry, s: State, domain: DomainId, d: Direction)
    requires s.Shaped(reg) && domain in s.domains
    ensures CloseIfOpposed(reg, s, domain, d).bays == s.bays
  {
  }

  /** Reconciling domains in which nobody waits for a bay leaves the bay alone. */
  lemma EachLeavesBay(reg: Registry, s: State, order: seq<DomainId>, h: BayId)
    requires Core(reg, s) && (forall d :: d in order ==> d in s.domains) && h in reg.bays
    requires forall d :: d in order ==> NobodyWaitsFor(reg, s, d, h)
    ensures var t := ReconcileEach(reg, s, order).state; h in t.bays && t.bays[h] == s.bays[h]
    decreases |order|
  {
    hide Reconcile, Faulted, BlocksMoved, BaysMoved, GrantsMoved, GrantsHeld, QueuesDistinct, WithinCapacity,
      OneDirection, QueuesShaped, GrantsShaped, Registry.WellFormed;
    if order != [] {
      var first := Reconcile(reg, s, order[0]);
      ReconcileMoves(reg, s, order[0]);
      assert order[0] in order;
      ReconcileLeavesBay(reg, s, order[0], h);
      if first.ok {
        forall d | d in order[1..] ensures NobodyWaitsFor(reg, first.state, d, h) {
          assert d in order;
          assert forall b, e, x :: reg.InDomain(b, d) && x in first.state.waiting[b].Of(e) ==> x in s.waiting[b].Of(e);
        }
        EachLeavesBay(reg, first.state, order[1..], h);
      }
    }
  }
}
