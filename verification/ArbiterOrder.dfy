/** The order of the protocol: a healthy domain is working exactly while it has a
    direction, and a waiter the other way closes its batch. */
module ArbiterOrder {
  import opened Models
  import opened ArbiterSpec
  import opened ArbiterSteps
  import opened ArbiterSafety
  import opened ArbiterProgress
  import opened ArbiterRuns
  import opened ArbiterChecks

  // ----- Work conservation and batch closure ---------------------------------------------

  /** A healthy domain has a direction exactly when it is working; and a request
      against the active direction closes the batch. */
  ghost predicate Orderly(reg: Registry, s: State, domain: DomainId)
    requires s.Shaped(reg) && domain in s.domains
  {
    var active := s.domains[domain].active;
    && (active.Some? && HasWaiting(reg, s, domain, active.value.Opposite()) ==> s.domains[domain].closed)
    && (!Faulted(reg, s.blocks, domain) ==> (active.Some? <==> Busy(reg, s.blocks, domain)))
  }

  ghost predicate AllOrderly(reg: Registry, s: State)
    requires s.Shaped(reg)
  {
    forall d :: d in s.domains ==> Orderly(reg, s, d)
  }

  /** Nothing was queued for the blocks of the domain since `s`. */
  ghost predicate QueuesShrank(reg: Registry, s: map<BlockId, Queues>, t: map<BlockId, Queues>, domain: DomainId)
  {
    forall b, d, x :: reg.InDomain(b, domain) && b in s && b in t && x in t[b].Of(d) ==> x in s[b].Of(d)
  }

  lemma OrderlyFrame(reg: Registry, s: State, t: State, domain: DomainId)
    requires s.Shaped(reg) && t.Shaped(reg) && domain in s.domains && domain in t.domains
    requires Orderly(reg, s, domain) && t.domains[domain] == s.domains[domain]
    requires QueuesShrank(reg, s.waiting, t.waiting, domain)
    requires Faulted(reg, t.blocks, domain)
             || (!Faulted(reg, s.blocks, domain) && Busy(reg, t.blocks, domain) == Busy(reg, s.blocks, domain))
    ensures Orderly(reg, t, domain)
  {
  }

  /** The blocks, queues and direction of the domain are what they were. */
  ghost predicate Untouched(reg: Registry, s: State, t: State, domain: DomainId)
    requires s.Keyed(reg) && t.Keyed(reg)
  {
    && domain in s.domains && domain in t.domains && t.domains[domain] == s.domains[domain]
    && forall b :: reg.InDomain(b, domain) ==> t.blocks[b] == s.blocks[b] && t.waiting[b] == s.waiting[b]
  }

  lemma UntouchedSame(reg: Registry, s: State, t: State, domain: DomainId)
    requires s.Keyed(reg) && t.Keyed(reg) && Untouched(reg, s, t, domain)
    ensures Faulted(reg, t.blocks, domain) == Faulted(reg, s.blocks, domain)
    ensures Busy(reg, t.blocks, domain) == Busy(reg, s.blocks, domain)
    ensures QueuesShrank(reg, s.waiting, t.waiting, domain)
  {
  }

  lemma UntouchedOrderly(reg: Registry, s: State, t: State, domain: DomainId)
    requires s.Shaped(reg) && t.Shaped(reg) && Untouched(reg, s, t, domain) && Orderly(reg, s, domain)
    ensures Orderly(reg, t, domain)
  {
  }

  lemma MovedUntouched(reg: Registry, s: State, t: State, ds: set<DomainId>, domain: DomainId)
    requires s.Keyed(reg) && t.Keyed(reg) && Moved(reg, s, t, ds) && domain in s.domains && domain !in ds
    ensures Untouched(reg, s, t, domain)
  {
  }

  lemma SettledOrderly(reg: Registry, s: State, domain: DomainId)
    requires s.Shaped(reg) && domain in s.domains && Settled(reg, s, domain)
    ensures Orderly(reg, s, domain)
  {
  }

  /** Only the domain of block `b` is changed. */
  ghost predicate OnlyAt(reg: Registry, s: State, t: State, b: BlockId)
    requires s.Keyed(reg) && t.Keyed(reg)
  {
    && (forall d :: d in t.domains <==> d in s.domains)
    && (forall d :: d in s.domains && !reg.InDomain(b, d) ==> t.domains[d] == s.domains[d])
    && (forall c :: c in s.blocks && c != b ==> t.blocks[c] == s.blocks[c] && t.waiting[c] == s.waiting[c])
  }

  lemma OnlyAtUntouched(reg: Registry, s: State, t: State, b: BlockId, domain: DomainId)
    requires s.Keyed(reg) && t.Keyed(reg) && OnlyAt(reg, s, t, b) && domain in s.domains
    requires !reg.InDomain(b, domain)
    ensures Untouched(reg, s, t, domain)
  {
  }

  lemma RequestOnlyAt(reg: Registry, s: State, x: Reservation)
    requires s.Shaped(reg) && IsNewRequest(reg, s, x) && Prelude(reg, s, Requested(x)).Keyed(reg)
    ensures OnlyAt(reg, s, Prelude(reg, s, Requested(x)), x.block)
  {
  }

  lemma AdmittedOrderly(reg: Registry, s: State, x: Reservation)
    requires s.Shaped(reg) && IsNewRequest(reg, s, x) && AdmitsAtOnce(reg, s, x)
    requires Orderly(reg, s, reg.blocks[x.block].domain)
    ensures var u := Grant(s, x); u.Shaped(reg) && Orderly(reg, u, reg.blocks[x.block].domain)
  {
    DirectGrantShape(reg, s, x);
    AdmittedIsBusy(reg, s, x);
    SameFaults(reg, s.blocks, Grant(s, x).blocks);
    hide Busy, Faulted, Registry.WellFormed, QueuesShaped, GrantsShaped, Available, Queues.Has;
  }

  /** What a prelude does to the order of the domains that are not reconciled next,
      or that are faulted and so will not be. */
  lemma RequestPreludeOrderly(reg: Registry, s: State, x: Reservation, domain: DomainId)
    requires Core(reg, s) && IsNewRequest(reg, s, x) && domain in s.domains && Orderly(reg, s, domain)
    requires domain !in Visited(reg, s, Requested(x)) || Faulted(reg, s.blocks, domain)
    ensures var u := Prelude(reg, s, Requested(x));
            u.Shaped(reg) && domain in u.domains && Orderly(reg, u, domain)
  {
    var home := reg.blocks[x.block].domain;
    var u := Prelude(reg, s, Requested(x));
    RequestPreludeCore(reg, s, x);
    RequestOnlyAt(reg, s, x);
    if domain != home {
      OnlyAtUntouched(reg, s, u, x.block, domain);
      UntouchedOrderly(reg, s, u, domain);
    } else if AdmitsAtOnce(reg, s, x) {
      AdmittedOrderly(reg, s, x);
    } else {
      QueuedOtherwise(reg, s, x);
    }
    hide Core, Orderly, Available, Enqueue, Grant, CloseBatch, Queues.Has, QueuesShaped, GrantsShaped;
  }

  lemma AdmittedIsBusy(reg: Registry, s: State, x: Reservation)
    requires s.Shaped(reg) && x.block in s.blocks && x.destination in s.bays
    ensures Grant(s, x).Keyed(reg) && Busy(reg, Grant(s, x).blocks, reg.blocks[x.block].domain)
  {
    var t := Grant(s, x);
    assert x.robot in t.blocks[x.block].reservations;
    assert t.blocks[x.block].InUse();
  }

  lemma EnqueueOtherQueue(reg: Registry, s: State, x: Reservation, domain: DomainId)
    requires s.Shaped(reg) && x.block in reg.blocks && x.destination in reg.bays
    ensures Enqueue(s, x).Shaped(reg)
    ensures HasWaiting(reg, Enqueue(s, x), domain, x.direction.Opposite()) ==>
              HasWaiting(reg, s, domain, x.direction.Opposite())
  {
    EnqueueShape(reg, s, x);
    var d := x.direction.Opposite();
    var u := Enqueue(s, x);
    assert forall b :: b in s.waiting ==> u.waiting[b].Of(d) == s.waiting[b].Of(d);
    hide Enqueue, Registry.WellFormed, QueuesShaped, GrantsShaped;
    if HasWaiting(reg, u, domain, d) {
      var b, y :| reg.InDomain(b, domain) && y in u.waiting[b].Of(d);
      assert y in s.waiting[b].Of(d);
    }
  }

  lemma QueuedOtherwise(reg: Registry, s: State, x: Reservation)
    requires s.Shaped(reg) && IsNewRequest(reg, s, x) && !AdmitsAtOnce(reg, s, x)
    requires Orderly(reg, s, reg.blocks[x.block].domain)
    requires Prelude(reg, s, Requested(x)).Shaped(reg)
    ensures var u := Prelude(reg, s, Requested(x));
            var home := reg.blocks[x.block].domain;
            && home in u.domains && u.blocks == s.blocks
            && (home !in Visited(reg, s, Requested(x)) || Faulted(reg, s.blocks, home) ==> Orderly(reg, u, home))
  {
    EnqueueOtherQueue(reg, s, x, reg.blocks[x.block].domain);
    hide Busy, Faulted, Registry.WellFormed, QueuesShaped, GrantsShaped, Available, Queues.Has, HasWaiting, Robots;
  }

  /** `t` is `s` but for the occupants, reservations and faults of block `b`, the
      grants and the bays; the queues only shrank. */
  ghost predicate BlockChange(reg: Registry, s: State, t: State, b: BlockId)
    requires s.Keyed(reg) && t.Keyed(reg)
  {
    && t.domains == s.domains
    && (forall c :: c in s.blocks && c != b ==> t.blocks[c] == s.blocks[c])
    && t.waiting == s.waiting
  }

  lemma BlockChangeOrderly(reg: Registry, s: State, t: State, b: BlockId, domain: DomainId)
    requires s.Shaped(reg) && t.Shaped(reg) && BlockChange(reg, s, t, b) && b in reg.blocks
    requires domain in s.domains && Orderly(reg, s, domain)
    requires reg.InDomain(b, domain) ==>
               t.blocks[b].faulted
               || (!s.blocks[b].faulted && t.blocks[b].InUse() == s.blocks[b].InUse())
               || (s.blocks[b].faulted == t.blocks[b].faulted && Faulted(reg, t.blocks, domain))
    ensures Orderly(reg, t, domain)
  {
    if reg.InDomain(b, domain) {
      if t.blocks[b].faulted {
        assert Faulted(reg, t.blocks, domain);
      } else if !Faulted(reg, t.blocks, domain) {
        assert !Faulted(reg, s.blocks, domain) && Busy(reg, t.blocks, domain) == Busy(reg, s.blocks, domain);
      }
      OrderlyFrame(reg, s, t, domain);
    } else {
      assert Untouched(reg, s, t, domain);
      UntouchedOrderly(reg, s, t, domain);
    }
  }

  lemma EnterChange(s: State, x: Reservation)
    requires GrantsHeld(s.blocks, s.grants) && Granted(s.grants, x) && x.block in s.blocks
    ensures forall c :: c in s.blocks && c != x.block ==> Enter(s, x).blocks[c] == s.blocks[c]
    ensures Enter(s, x).blocks[x.block].InUse() && s.blocks[x.block].InUse()
    ensures Enter(s, x).blocks[x.block].faulted == s.blocks[x.block].faulted
    ensures Enter(s, x).domains == s.domains && Enter(s, x).waiting == s.waiting
  {
  }

  lemma EnterPreludeChange(reg: Registry, s: State, r: RobotId, b: BlockId)
    requires Core(reg, s) && Key(r, b) in s.grants
    ensures var u := Prelude(reg, s, Entered(r, b));
            && u.Shaped(reg) && b in reg.blocks && BlockChange(reg, s, u, b)
            && u.blocks[b].InUse() && s.blocks[b].InUse()
            && u.blocks[b].faulted == s.blocks[b].faulted
  {
    var x := s.grants[Key(r, b)];
    EnterPreludeCore(reg, s, x);
    EnterChange(s, x);
    hide GrantsHeld, QueuesDistinct, WithinCapacity, OneDirection, Block.InUse, Registry.WellFormed, QueuesShaped;
  }

  lemma EnterPreludeOrderly(reg: Registry, s: State, r: RobotId, b: BlockId, domain: DomainId)
    requires Core(reg, s) && Key(r, b) in s.grants && domain in s.domains && Orderly(reg, s, domain)
    ensures var u := Prelude(reg, s, Entered(r, b));
            u.Shaped(reg) && domain in u.domains && Orderly(reg, u, domain)
  {
    var u := Prelude(reg, s, Entered(r, b));
    EnterPreludeChange(reg, s, r, b);
    SameFaultOrderly(reg, s, u, b, domain);
  }

  lemma SameFaultOrderly(reg: Registry, s: State, t: State, b: BlockId, domain: DomainId)
    requires s.Shaped(reg) && t.Shaped(reg) && BlockChange(reg, s, t, b) && b in reg.blocks
    requires t.blocks[b].faulted == s.blocks[b].faulted && t.blocks[b].InUse() == s.blocks[b].InUse()
    requires domain in s.domains && Orderly(reg, s, domain)
    ensures domain in t.domains && Orderly(reg, t, domain)
  {
  }

  lemma ExitPreludeOrderly(reg: Registry, s: State, r: RobotId, b: BlockId, domain: DomainId)
    requires Core(reg, s) && b in reg.blocks && domain in s.domains && Orderly(reg, s, domain)
    requires !reg.InDomain(b, domain) || Faulted(reg, s.blocks, domain)
    ensures var u := Leave(s, r, b);
            u.Shaped(reg) && domain in u.domains && Orderly(reg, u, domain)
  {
    var u := Leave(s, r, b);
    LeaveShape(reg, s, r, b);
    LeaveGone(s, r, b);
    LeaveFaults(reg, s, r, b);
    assert u.waiting == s.waiting;
    hide Leave, Orderly, GrantsHeld, QueuesDistinct, WithinCapacity, OneDirection, Faulted, Registry.WellFormed,
      QueuesShaped, GrantsShaped;
    BlockChangeOrderly(reg, s, u, b, domain);
  }

  lemma FaultPreludeOrderly(reg: Registry, s: State, b: BlockId, domain: DomainId)
    requires s.Shaped(reg) && b in reg.blocks && domain in s.domains && Orderly(reg, s, domain)
    ensures var u := MarkFaulted(s, b);
            u.Shaped(reg) && domain in u.domains && Orderly(reg, u, domain)
  {
  }

  lemma UnexpectedOrderly(reg: Registry, s: State, r: RobotId, b: BlockId, domain: DomainId)
    requires s.Shaped(reg) && b in reg.blocks && domain in s.domains && Orderly(reg, s, domain)
    ensures var u := ReportUnexpected(reg, s, r, b).state;
            u.Shaped(reg) && domain in u.domains && Orderly(reg, u, domain)
  {
  }

  lemma BaysOrderly(reg: Registry, s: State, t: State, domain: DomainId)
    requires s.Shaped(reg) && t.Shaped(reg) && t == s.(bays := t.bays)
    requires domain in s.domains && Orderly(reg, s, domain)
    ensures domain in t.domains && Orderly(reg, t, domain)
  {
  }

  lemma WithdrawShrinks(reg: Registry, s: State, r: RobotId, targets: seq<BlockId>, domain: DomainId)
    requires s.Keyed(reg)
    ensures QueuesShrank(reg, s.waiting, Withdraw(s, r, targets).waiting, domain)
    ensures Withdraw(s, r, targets).Keyed(reg)
    ensures forall d :: Faulted(reg, Withdraw(s, r, targets).blocks, d) == Faulted(reg, s.blocks, d)
    ensures domain in s.domains && (forall b :: b in targets ==> !reg.InDomain(b, domain)) ==>
              Untouched(reg, s, Withdraw(s, r, targets), domain)
  {
    var u := Withdraw(s, r, targets);
    hide HoldsOneTo;
    forall b, d, x | reg.InDomain(b, domain) && b in s.waiting && x in u.waiting[b].Of(d)
      ensures x in s.waiting[b].Of(d)
    {
      WithoutRobotItems(s.waiting[b].Of(d), r);
    }
    SameFaults(reg, s.blocks, u.blocks);
  }

  lemma WithdrawOrderly(reg: Registry, s: State, r: RobotId, targets: seq<BlockId>, domain: DomainId)
    requires s.Shaped(reg) && domain in s.domains && Orderly(reg, s, domain)
    requires (forall b :: b in targets ==> !reg.InDomain(b, domain)) || Faulted(reg, s.blocks, domain)
    ensures var u := Withdraw(s, r, targets);
            u.Shaped(reg) && domain in u.domains && Orderly(reg, u, domain)
  {
    var u := Withdraw(s, r, targets);
    WithdrawShape(reg, s, r, targets);
    WithdrawShrinks(reg, s, r, targets, domain);
    assert u.domains == s.domains;
    hide Withdraw, Orderly, Faulted, QueuesShrank, Registry.WellFormed, QueuesShaped, GrantsShaped, Untouched;
    if Faulted(reg, s.blocks, domain) {
      OrderlyFrame(reg, s, u, domain);
    } else {
      UntouchedOrderly(reg, s, u, domain);
    }
  }

  lemma InitialOrderly(reg: Registry, domain: DomainId)
    requires reg.WellFormed() && domain in reg.domainOrder
    ensures Initial(reg).Shaped(reg) && domain in Initial(reg).domains && Orderly(reg, Initial(reg), domain)
    ensures Settled(reg, Initial(reg), domain)
  {
    InitialShape(reg);
  }

  /** A domain that a step does not reconcile, or cannot because it is faulted, is
      still orderly when the reconciliations start. */
  lemma PreludeOrderly(reg: Registry, s: State, e: Event, domain: DomainId)
    requires Core(reg, s) && Feasible(reg, e) && domain in s.domains && Orderly(reg, s, domain)
    requires Prelude(reg, s, e).Keyed(reg)
    requires domain !in Visited(reg, s, e) || Faulted(reg, Prelude(reg, s, e).blocks, domain)
    ensures var u := Prelude(reg, s, e);
            u.Shaped(reg) && domain in u.domains && Orderly(reg, u, domain)
  {
    hide Orderly, GrantsHeld, QueuesDistinct, WithinCapacity, OneDirection, Registry.WellFormed, QueuesShaped,
      GrantsShaped, Withdraw, Leave, Enter, MarkFaulted, Enqueue, Grant, Available;
    match e
    case Requested(x) =>
      if IsNewRequest(reg, s, x) {
        RequestPreludeFaults(reg, s, x, domain);
        RequestPreludeOrderly(reg, s, x, domain);
      }
    case Entered(r, b) =>
      if Key(r, b) in s.grants {
        EnterPreludeOrderly(reg, s, r, b, domain);
      }
    case Exited(r, b) =>
      if b in reg.blocks {
        LeaveFaults(reg, s, r, b);
        ExitPreludeOrderly(reg, s, r, b, domain);
      }
    case Occupied(h, r) =>
      OccupyShape(reg, s, h, r);
      BaysOrderly(reg, s, Prelude(reg, s, e), domain);
    case Released(h, r) =>
      if h in reg.bays {
        DropShape(reg, s, h, r);
        BaysOrderly(reg, s, Prelude(reg, s, e), domain);
      }
    case Cancelled(r, target, visit) =>
      if MayCancel(reg, s, r, target) {
        WithdrawShrinks(reg, s, r, Targets(reg, target), domain);
        WithdrawOrderly(reg, s, r, Targets(reg, target), domain);
      }
    case FaultedAt(r, visit) =>
      FirstOccupiedIsFirst(s, r, reg.blockOrder);
      if FirstOccupied(s, r, reg.blockOrder).Some? {
        FaultPreludeOrderly(reg, s, FirstOccupied(s, r, reg.blockOrder).value, domain);
      } else {
        WithdrawShrinks(reg, s, r, reg.blockOrder, domain);
        WithdrawOrderly(reg, s, r, reg.blockOrder, domain);
      }
    case SeenUnexpectedly(r, b) =>
      if b in reg.blocks {
        UnexpectedOrderly(reg, s, r, b, domain);
      }
    case WasReset(force) =>
      ResetOrderly(reg, s, force, domain);
  }

  lemma RequestPreludeFaults(reg: Registry, s: State, x: Reservation, domain: DomainId)
    requires s.Shaped(reg) && IsNewRequest(reg, s, x) && Prelude(reg, s, Requested(x)).Keyed(reg)
    ensures Faulted(reg, Prelude(reg, s, Requested(x)).blocks, domain) == Faulted(reg, s.blocks, domain)
  {
    SameFaults(reg, s.blocks, Prelude(reg, s, Requested(x)).blocks);
  }

  lemma LeaveFaults(reg: Registry, s: State, r: RobotId, b: BlockId)
    requires s.Shaped(reg) && b in reg.blocks
    ensures Leave(s, r, b).Keyed(reg)
    ensures forall d :: Faulted(reg, Leave(s, r, b).blocks, d) == Faulted(reg, s.blocks, d)
  {
  }

  lemma ResetOrderly(reg: Registry, s: State, force: bool, domain: DomainId)
    requires s.Shaped(reg) && domain in s.domains && Orderly(reg, s, domain)
    ensures var u := Reset(reg, s, force).state;
            u.Shaped(reg) && domain in u.domains && Orderly(reg, u, domain)
  {
    InitialOrderly(reg, domain);
    hide Initial, Orderly;
  }

  /** Work conservation and batch closure after every step whose reconciliations go through. */
  lemma StepKeepsOrder(reg: Registry, s: State, e: Event)
    requires Core(reg, s) && Feasible(reg, e) && AllOrderly(reg, s) && StepGoesThrough(reg, s, e)
    ensures var t := Step(reg, s, e).state; t.Shaped(reg) && AllOrderly(reg, t)
  {
    var u := Prelude(reg, s, e);
    var order := Visited(reg, s, e);
    var t := Step(reg, s, e).state;
    StepSplits(reg, s, e);
    PreludeKeepsCore(reg, s, e);
    EachMoves(reg, u, order);
    hide Step, Prelude, Visited, ReconcileEach, Orderly, Settled, Faulted, GrantsHeld, QueuesDistinct,
      WithinCapacity, OneDirection, Registry.WellFormed, QueuesShaped, GrantsShaped,
      BlocksMoved, QueuesMoved, GrantsMoved, BaysMoved, GoesThrough;
    forall d | d in t.domains ensures Orderly(reg, t, d) {
      assert d in u.domains && d in s.domains;
      if d in order && !Faulted(reg, u.blocks, d) {
        RoundSettlesVisited(reg, u, order, d);
        SettledOrderly(reg, t, d);
      } else {
        PreludeOrderly(reg, s, e, d);
        MovedUntouched(reg, u, t, HealthyOf(reg, u.blocks, order), d);
        UntouchedOrderly(reg, u, t, d);
      }
    }
  }
}
