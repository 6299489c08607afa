/** What single steps guarantee to the robots: faults are contained, a closed batch
    stays closed until the domain drains, a drained domain alternates, and no request is
    lost. */
module ArbiterGuarantees {
  import opened Models
  import opened ArbiterSpec
  import opened ArbiterSteps
  import opened ArbiterSafety
  import opened ArbiterProgress
  import opened ArbiterRuns
  import opened ArbiterChecks
  import opened ArbiterOrder
  import opened ArbiterWakeups

  // ----- Failing closed -------------------------------------------------------------------

  lemma NoNewGrants(reg: Registry, s: State, t: State, ds: set<DomainId>, domain: DomainId)
    requires Core(reg, s) && Core(reg, t) && Moved(reg, s, t, ds) && domain !in ds
    ensures forall k :: k in t.grants && reg.InDomain(k.block, domain) ==> k in s.grants
  {
    forall k | k in t.grants && reg.InDomain(k.block, domain) ensures k in s.grants {
      if k !in s.grants {
        var x := t.grants[k];
        assert x in s.waiting[k.block].Of(x.direction);
        assert t.waiting[k.block] == s.waiting[k.block];
        QueuedIsWaiting(t, x, x.direction);
        assert false;
      }
    }
  }

  lemma QueuedIsWaiting(s: State, x: Reservation, d: Direction)
    requires x.block in s.waiting && x in s.waiting[x.block].Of(d)
    ensures s.waiting[x.block].Has(x.robot)
  {
  }

  /** The only grant a step makes before reconciling is to the robot that asked. */
  lemma PreludeGrants(reg: Registry, s: State, e: Event)
    requires Core(reg, s) && Feasible(reg, e) && !e.WasReset?
    ensures forall k :: k in Prelude(reg, s, e).grants && k !in s.grants ==>
              e.Requested? && k == Key(e.request.robot, e.request.block)
              && IsNewRequest(reg, s, e.request) && AdmitsAtOnce(reg, s, e.request)
    ensures var u := Prelude(reg, s, e);
            && (forall d :: d in s.domains ==> d in u.domains && u.domains[d].active == s.domains[d].active)
            && (forall d :: d in s.domains && s.domains[d].closed ==> u.domains[d].closed)
  {
    hide QueuesShaped, GrantsShaped, Registry.WellFormed, Available, Queues.Has, HoldsOneTo, WithoutRobot, Robots,
      GrantsHeld, QueuesDistinct, WithinCapacity, OneDirection;
    FirstOccupiedIsFirst(s, if e.FaultedAt? then e.robot else 0, reg.blockOrder);
  }

  lemma PreludeFaultedReservations(reg: Registry, s: State, e: Event, b: BlockId)
    requires Core(reg, s) && Feasible(reg, e) && !e.WasReset?
    requires b in reg.blocks && s.blocks[b].faulted && Prelude(reg, s, e).Keyed(reg)
    ensures forall r :: r in Prelude(reg, s, e).blocks[b].reservations ==> r in s.blocks[b].reservations
  {
    hide QueuesShaped, GrantsShaped, Registry.WellFormed, Available, Queues.Has, HoldsOneTo, WithoutRobot, Robots,
      GrantsHeld, QueuesDistinct, WithinCapacity, OneDirection;
    FirstOccupiedIsFirst(s, if e.FaultedAt? then e.robot else 0, reg.blockOrder);
  }

  /** Between `s` and `t` the fault of block `b` was contained: the block stays faulted
      and gains no reservation, its domain keeps its direction, and nobody who was
      waiting in that domain has been admitted. */
  ghost predicate Contained(reg: Registry, s: State, t: State, b: BlockId)
    requires b in reg.blocks
  {
    var home := reg.blocks[b].domain;
    && b in s.blocks && b in t.blocks && t.blocks[b].faulted
    && (forall r :: r in t.blocks[b].reservations ==> r in s.blocks[b].reservations)
    && home in s.domains && home in t.domains && t.domains[home].active == s.domains[home].active
    && (forall c, r :: reg.InDomain(c, home) && c in s.waiting && s.waiting[c].Has(r) ==> Key(r, c) !in t.grants)
  }

  lemma PreludeContained(reg: Registry, s: State, e: Event, b: BlockId)
    requires Core(reg, s) && Feasible(reg, e) && b in reg.blocks && s.blocks[b].faulted && !e.WasReset?
    requires Prelude(reg, s, e).Shaped(reg)
    ensures Contained(reg, s, Prelude(reg, s, e), b)
  {
    PreludeKeepsFaults(reg, s, e);
    PreludeGrants(reg, s, e);
    PreludeFaultedReservations(reg, s, e, b);
    assert forall c, r :: c in s.waiting && s.waiting[c].Has(r) ==> Key(r, c) !in s.grants;
    assert reg.blocks[b].domain in s.domains;
    hide Prelude, Faulted, GrantsHeld, WithinCapacity, OneDirection, QueuesDistinct,
      QueuesShaped, GrantsShaped, Registry.WellFormed, AdmitsAtOnce, Queues.Has;
  }

  lemma MovedContained(reg: Registry, s: State, u: State, t: State, ds: set<DomainId>, b: BlockId)
    requires Core(reg, u) && Core(reg, t) && Moved(reg, u, t, ds)
    requires b in reg.blocks && reg.blocks[b].domain !in ds && Contained(reg, s, u, b)
    ensures Contained(reg, s, t, b)
  {
    NoNewGrants(reg, u, t, ds, reg.blocks[b].domain);
    MovedUntouched(reg, u, t, ds, reg.blocks[b].domain);
    hide Moved, GrantsHeld, WithinCapacity, OneDirection, QueuesDistinct,
      QueuesShaped, GrantsShaped, Registry.WellFormed, Queues.Has;
  }

  /** From a fault until a reset, whatever is called: the fault stays contained. */
  lemma StepFailsClosed(reg: Registry, s: State, e: Event, b: BlockId)
    requires Core(reg, s) && Feasible(reg, e) && b in reg.blocks && s.blocks[b].faulted
    requires !(e.WasReset? && Step(reg, s, e).reply == Flag(true))
    ensures Contained(reg, s, Step(reg, s, e).state, b)
  {
    if e.WasReset? {
      SelfContained(reg, s, b);
    } else {
      var u := Prelude(reg, s, e);
      StepSplits(reg, s, e);
      PreludeKeepsCore(reg, s, e);
      EachMoves(reg, u, Visited(reg, s, e));
      PreludeContained(reg, s, e, b);
      assert Faulted(reg, u.blocks, reg.blocks[b].domain);
      MovedContained(reg, s, u, Step(reg, s, e).state, HealthyOf(reg, u.blocks, Visited(reg, s, e)), b);
    }
    hide Prelude, Visited, Contained, GrantsHeld, WithinCapacity, OneDirection, QueuesDistinct, QueuesShaped,
      GrantsShaped, Registry.WellFormed;
  }

  lemma SelfContained(reg: Registry, s: State, b: BlockId)
    requires Core(reg, s) && b in reg.blocks && s.blocks[b].faulted
    ensures Contained(reg, s, s, b)
  {
  }

  /** The state after a sequence of events. */
  ghost function Run(reg: Registry, s: State, es: seq<Event>): State
    requires s.Shaped(reg) && forall i :: 0 <= i < |es| ==> Feasible(reg, es[i])
    decreases |es|
  {
    if es == [] then s
    else
      StepShape(reg, s, es[0]);
      Run(reg, Step(reg, s, es[0]).state, es[1..])
  }

  /** Safety over whole runs: from the initial state, after any calls in any order, with
      any arguments and including the ones that raised. */
  lemma {:induction false} RunKeepsCore(reg: Registry, s: State, es: seq<Event>)
    requires Core(reg, s) && forall i :: 0 <= i < |es| ==> Feasible(reg, es[i])
    ensures Core(reg, Run(reg, s, es))
    decreases |es|
  {
    if es != [] {
      StepKeepsCore(reg, s, es[0]);
      RunKeepsCore(reg, Step(reg, s, es[0]).state, es[1..]);
    }
    hide Step, GrantsHeld, WithinCapacity, OneDirection, QueuesDistinct, QueuesShaped, GrantsShaped;
  }

  // ----- Failing closed over whole runs ----------------------------------------------------

  /** No reset was accepted on the way. */
  ghost predicate NoReset(reg: Registry, s: State, es: seq<Event>)
    requires s.Shaped(reg) && forall i :: 0 <= i < |es| ==> Feasible(reg, es[i])
    decreases |es|
  {
    es != [] ==>
      && !(es[0].WasReset? && Step(reg, s, es[0]).reply == Flag(true))
      && Step(reg, s, es[0]).state.Shaped(reg) && NoReset(reg, Step(reg, s, es[0]).state, es[1..])
  }

  /** Some step gave up what the robot had at the block. */
  ghost predicate GivenUp(reg: Registry, s: State, es: seq<Event>, r: RobotId, b: BlockId)
    requires s.Shaped(reg) && forall i :: 0 <= i < |es| ==> Feasible(reg, es[i])
    decreases |es|
  {
    && es != []
    && (GivesUp(reg, s, es[0], r, b)
        || (Step(reg, s, es[0]).state.Shaped(reg) && GivenUp(reg, Step(reg, s, es[0]).state, es[1..], r, b)))
  }

  /** The part of containment that does not look at who is waiting. */
  ghost predicate Frozen(reg: Registry, s: State, t: State, b: BlockId)
    requires b in reg.blocks
  {
    var home := reg.blocks[b].domain;
    && b in s.blocks && b in t.blocks && t.blocks[b].faulted
    && (forall r :: r in t.blocks[b].reservations ==> r in s.blocks[b].reservations)
    && home in s.domains && home in t.domains && t.domains[home].active == s.domains[home].active
  }

  lemma ContainedFrozen(reg: Registry, s: State, t: State, u: State, b: BlockId)
    requires b in reg.blocks && Contained(reg, s, t, b) && Frozen(reg, t, u, b)
    ensures Frozen(reg, s, u, b)
  {
  }

  /** A request that waits in the domain of a faulted block, and is not given up, still waits
      after the step: it was not admitted. */
  lemma StepKeepsWaiter(reg: Registry, s: State, e: Event, b: BlockId, c: BlockId, d: Direction, x: Reservation)
    requires Core(reg, s) && Feasible(reg, e) && b in reg.blocks && s.blocks[b].faulted
    requires !(e.WasReset? && Step(reg, s, e).reply == Flag(true))
    requires reg.InDomain(c, reg.blocks[b].domain) && x in s.waiting[c].Of(d) && !GivesUp(reg, s, e, x.robot, c)
    ensures var t := Step(reg, s, e).state; c in t.waiting && x in t.waiting[c].Of(d) && Key(x.robot, c) !in t.grants
  {
    hide Step, GivesUp, GrantsHeld, WithinCapacity, OneDirection, QueuesDistinct, GrantsShaped, Registry.WellFormed;
    StepFailsClosed(reg, s, e, b);
    StepConservesRequests(reg, s, e);
    QueuedIsWaiting(s, x, d);
  }

  /** Fail-closed over whole runs, from the first fault of the block to the next accepted reset:
      the block stays faulted and gains no reservation, its domain keeps its direction, and
      whoever waits in that domain goes on waiting unless it gives up. */
  lemma {:induction false} RunFailsClosed(reg: Registry, s: State, es: seq<Event>, b: BlockId)
    requires Core(reg, s) && b in reg.blocks && s.blocks[b].faulted
    requires (forall i :: 0 <= i < |es| ==> Feasible(reg, es[i])) && NoReset(reg, s, es)
    ensures Frozen(reg, s, Run(reg, s, es), b)
    ensures forall c, d, x :: reg.InDomain(c, reg.blocks[b].domain) && x in s.waiting[c].Of(d) && !GivenUp(reg, s, es, x.robot, c) ==>
              var t := Run(reg, s, es);
              c in t.waiting && x in t.waiting[c].Of(d) && Key(x.robot, c) !in t.grants
    decreases |es|
  {
    hide GrantsHeld, WithinCapacity, OneDirection, QueuesShaped, GrantsShaped, Step, Registry.WellFormed;
    if es == [] {
      SelfContained(reg, s, b);
      forall c, d, x | reg.InDomain(c, reg.blocks[b].domain) && x in s.waiting[c].Of(d) ensures Key(x.robot, c) !in s.grants {
        QueuedFor(reg, s, c, d, x);
      }
    } else {
      hide QueuesDistinct;
      var t := Step(reg, s, es[0]).state;
      StepKeepsCore(reg, s, es[0]);
      StepFailsClosed(reg, s, es[0], b);
      assert t.blocks[b].faulted;
      hide Contained, Frozen, GivesUp;
      RunFailsClosed(reg, t, es[1..], b);
      ContainedFrozen(reg, s, t, Run(reg, t, es[1..]), b);
      forall c, d, x | reg.InDomain(c, reg.blocks[b].domain) && x in s.waiting[c].Of(d) && !GivenUp(reg, s, es, x.robot, c)
        ensures c in t.waiting && x in t.waiting[c].Of(d)
      {
        StepKeepsWaiter(reg, s, es[0], b, c, d, x);
      }
    }
  }

  lemma QueuedFor(reg: Registry, s: State, b: BlockId, d: Direction, x: Reservation)
    requires Core(reg, s) && b in s.waiting && x in s.waiting[b].Of(d)
    ensures Key(x.robot, b) !in s.grants
  {
    assert x.block == b;
    QueuedIsWaiting(s, x, d);
  }

  // ----- Closed batches -----------------------------------------------------------------------

  /** A working domain whose batch is closed ignores reconciliation. */
  lemma ClosedIsInert(reg: Registry, s: State, domain: DomainId)
    requires s.Shaped(reg) && domain in s.domains && Busy(reg, s.blocks, domain) && s.domains[domain].closed
    ensures Reconcile(reg, s, domain) == Pass(s, true)
  {
  }

  lemma EachLeavesClosed(reg: Registry, s: State, order: seq<DomainId>, domain: DomainId)
    requires Core(reg, s) && forall d :: d in order ==> d in s.domains
    requires domain in s.domains && Busy(reg, s.blocks, domain) && s.domains[domain].closed
    ensures var t := ReconcileEach(reg, s, order).state;
            && t.Shaped(reg) && Untouched(reg, s, t, domain)
            && forall k :: k in t.grants && reg.InDomain(k.block, domain) ==> k in s.grants
    decreases |order|
  {
    if order != [] {
      var first := Reconcile(reg, s, order[0]);
      ReconcileMoves(reg, s, order[0]);
      if order[0] == domain {
        ClosedIsInert(reg, s, domain);
      } else {
        MovedUntouched(reg, s, first.state, {order[0]}, domain);
        UntouchedSame(reg, s, first.state, domain);
        NoNewGrantsElsewhere(reg, s, first.state, order[0], domain);
      }
      assert forall d :: d in first.state.domains <==> d in s.domains;
      hide Reconcile, Busy, GrantsHeld, WithinCapacity, OneDirection, QueuesDistinct, QueuesShaped, GrantsShaped,
        Registry.WellFormed, Moved, Faulted;
      if first.ok {
        EachLeavesClosed(reg, first.state, order[1..], domain);
      }
    }
  }

  lemma NoNewGrantsElsewhere(reg: Registry, s: State, t: State, visited: DomainId, domain: DomainId)
    requires Core(reg, s) && Core(reg, t) && visited != domain
    requires Moved(reg, s, t, if Faulted(reg, s.blocks, visited) then {} else {visited})
    ensures forall k :: k in t.grants && reg.InDomain(k.block, domain) ==> k in s.grants
    ensures Moved(reg, s, t, {visited})
  {
    MovedWiden(reg, s, t, if Faulted(reg, s.blocks, visited) then {} else {visited}, {visited});
    NoNewGrants(reg, s, t, {visited}, domain);
  }

  /** A closed batch admits nobody: as long as the step does not empty the domain, it
      makes no grant in it, keeps its direction and keeps the batch closed. */
  lemma StepRespectsClosure(reg: Registry, s: State, e: Event, domain: DomainId)
    requires Core(reg, s) && Feasible(reg, e) && !e.WasReset?
    requires domain in s.domains && s.domains[domain].closed
    requires Prelude(reg, s, e).Keyed(reg) && Busy(reg, Prelude(reg, s, e).blocks, domain)
    ensures var t := Step(reg, s, e).state;
            && (forall k :: k in t.grants && reg.InDomain(k.block, domain) ==> k in s.grants)
            && domain in t.domains && t.domains[domain] == s.domains[domain]
  {
    StepSplits(reg, s, e);
    PreludeKeepsCore(reg, s, e);
    PreludeGrants(reg, s, e);
    EachLeavesClosed(reg, Prelude(reg, s, e), Visited(reg, s, e), domain);
    hide Step, Prelude, Visited, ReconcileEach, Busy, GrantsHeld, WithinCapacity, OneDirection, QueuesDistinct,
      QueuesShaped, GrantsShaped, Registry.WellFormed, Available;
  }

  // ----- Alternation ------------------------------------------------------------------------------

  /** An idle domain whose closed batch went one way takes the other as soon as one
      waiter that way can go. */
  lemma ChoosesOpposite(reg: Registry, s: State, domain: DomainId, d: Direction, x: Reservation)
    requires s.Shaped(reg) && domain in s.domains && s.domains[domain] == Domain(Some(d), true)
    requires reg.InDomain(x.block, domain) && x in s.waiting[x.block].Of(d.Opposite()) && Available(reg, s, x)
    ensures Choose(reg, s, domain) == Some(d.Opposite())
  {
    CollectedItems(reg, s, domain);
    hide Available, DomainWaiting, Registry.WellFormed, GrantsShaped;
    assert x in DomainWaiting(reg, s, domain, d.Opposite());
  }

  /** Something admitted since `s` that goes direction `d` in the domain. */
  ghost predicate AdmittedThisWay(reg: Registry, s: State, t: State, domain: DomainId, d: Direction) {
    exists x: Reservation :: reg.InDomain(x.block, domain) && x.block in s.waiting && x in s.waiting[x.block].Of(d) && Granted(t.grants, x)
  }

  lemma BusyHasNewGrant(reg: Registry, s: State, t: State, domain: DomainId, d: Direction)
    requires Core(reg, s) && Core(reg, t) && Moved(reg, s, t, {domain})
    requires domain in t.domains && t.domains[domain].active == Some(d)
    requires !Busy(reg, s.blocks, domain) && Busy(reg, t.blocks, domain)
    ensures AdmittedThisWay(reg, s, t, domain, d)
  {
    IdleHasNoGrants(reg, s, domain);
    var b :| b in reg.blocks && reg.blocks[b].domain == domain && t.blocks[b].InUse();
    assert reg.InDomain(b, domain);
    var r := AnyReservation(t.blocks[b].reservations);
    assert Key(r, b) !in s.grants;
    NewGrantWaited(reg, s, t, domain, d, b, r);
  }

  lemma NewGrantWaited(reg: Registry, s: State, t: State, domain: DomainId, d: Direction, b: BlockId, r: RobotId)
    requires Core(reg, s) && Core(reg, t) && Moved(reg, s, t, {domain})
    requires domain in t.domains && t.domains[domain].active == Some(d)
    requires reg.InDomain(b, domain) && r in t.blocks[b].reservations && Key(r, b) !in s.grants
    ensures AdmittedThisWay(reg, s, t, domain, d)
  {
    hide WithinCapacity, QueuesDistinct, BlocksMoved, BaysMoved, QueuesMoved, Busy, Registry.WellFormed;
    assert Key(r, b) in t.grants;
    var x := t.grants[Key(r, b)];
    assert x in s.waiting[b].Of(x.direction);
    assert x.direction == d;
    assert x.block == b && Granted(t.grants, x);
  }

  lemma AnyReservation(m: map<RobotId, Reservation>) returns (r: RobotId)
    requires m != map[]
    ensures r in m
  {
    r := AnyKey(m);
  }

  lemma AnyKey<K, V>(m: map<K, V>) returns (k: K)
    requires m != map[]
    ensures k in m
  {
    k :| k in m;
  }

  /** Alternation: whenever a healthy domain with a closed batch has drained and some
      waiter the other way can go, the direction flips and such a waiter is admitted. */
  lemma ReconcileAlternates(reg: Registry, s: State, domain: DomainId, d: Direction, x: Reservation)
    requires Core(reg, s) && domain in s.domains && s.domains[domain] == Domain(Some(d), true)
    requires !Busy(reg, s.blocks, domain) && !Faulted(reg, s.blocks, domain)
    requires reg.InDomain(x.block, domain) && x in s.waiting[x.block].Of(d.Opposite()) && Available(reg, s, x)
    ensures var t := Reconcile(reg, s, domain).state;
            && domain in t.domains && t.domains[domain].active == Some(d.Opposite())
            && AdmittedThisWay(reg, s, t, domain, d.Opposite())
  {
    ChoosesOpposite(reg, s, domain, d, x);
    PrepareShape(reg, s, domain);
    PrepareKeepsCore(reg, s, domain);
    PreparedCanGo(reg, s, domain);
    ReconcileSettles(reg, s, domain);
    var p := Prepare(reg, s, domain);
    assert p.domains[domain] == Domain(Some(d.Opposite()), false);
    RoundIsBusy(reg, p, domain, d.Opposite());
    hide GrantsHeld, WithinCapacity, OneDirection, QueuesDistinct, QueuesShaped, GrantsShaped,
      Registry.WellFormed, Moved, Faulted, Busy, Choose, Settled, Available, AdmittedThisWay, Serve;
    BusyHasNewGrant(reg, s, Reconcile(reg, s, domain).state, domain, d.Opposite());
  }

  lemma RoundIsBusy(reg: Registry, s: State, domain: DomainId, d: Direction)
    requires Core(reg, s) && domain in s.domains && s.domains[domain].active == Some(d)
    requires forall x :: x in RoundItems(reg, s, domain, d) ==> x.block in reg.blocks && x.destination in reg.bays
    requires Busy(reg, s.blocks, domain) || exists x :: x in RoundItems(reg, s, domain, d) && Available(reg, s, x)
    ensures var t := Serve(reg, s, domain, d).state;
            t.Keyed(reg) && Busy(reg, t.blocks, domain) && domain in t.domains && t.domains[domain].active == Some(d)
  {
    RoundSettles(reg, s, domain, d);
    ServeSettles(reg, s, domain, d);
    CloseReason(reg, GrantPass(reg, s, RoundItems(reg, s, domain, d), d).state, domain, d);
    hide GrantPass, Busy, Moved, CloseIfOpposed, GrantsHeld, WithinCapacity, OneDirection, QueuesDistinct, QueuesShaped,
      GrantsShaped, Registry.WellFormed, Settled, Available;
  }

  /** A working domain keeps its direction while it is being reconciled. */
  lemma ReconcileKeepsDirection(reg: Registry, s: State, domain: DomainId, d: Direction)
    requires Core(reg, s) && domain in s.domains && s.domains[domain].active == Some(d)
    requires Busy(reg, s.blocks, domain)
    ensures var t := Reconcile(reg, s, domain).state;
            t.Keyed(reg) && domain in t.domains && t.domains[domain].active == Some(d) && Busy(reg, t.blocks, domain)
  {
    if !Faulted(reg, s.blocks, domain) {
      DomainPending(reg, s, domain, d);
      RoundIsBusy(reg, s, domain, d);
    }
    hide Faulted, Serve, Moved, GrantsHeld, WithinCapacity, OneDirection, QueuesDistinct, QueuesShaped, GrantsShaped,
      Registry.WellFormed, DomainWaiting;
  }

  lemma EachKeepsDirection(reg: Registry, s: State, order: seq<DomainId>, domain: DomainId, d: Direction)
    requires Core(reg, s) && forall e :: e in order ==> e in s.domains
    requires domain in s.domains && s.domains[domain].active == Some(d) && Busy(reg, s.blocks, domain)
    ensures var t := ReconcileEach(reg, s, order).state;
            && domain in t.domains && t.domains[domain].active == Some(d)
            && forall k :: k in s.grants ==> k in t.grants && t.grants[k] == s.grants[k]
    decreases |order|
  {
    hide Reconcile, Faulted, Busy, BlocksMoved, QueuesMoved, BaysMoved, GrantsHeld, WithinCapacity, OneDirection,
      QueuesDistinct, QueuesShaped, GrantsShaped, Registry.WellFormed;
    if order != [] {
      var first := Reconcile(reg, s, order[0]);
      ReconcileSettles(reg, s, order[0]);
      if order[0] == domain {
        ReconcileKeepsDirection(reg, s, domain, d);
      } else {
        MovedUntouched(reg, s, first.state, {order[0]}, domain);
        UntouchedSame(reg, s, first.state, domain);
      }
      if first.ok {
        EachKeepsDirection(reg, first.state, order[1..], domain, d);
      }
    }
  }

  /** The state in which the step comes to the domain at position `i` of its round. */
  ghost function AtItsTurn(reg: Registry, s: State, e: Event, i: nat): State
    requires s.Shaped(reg) && Feasible(reg, e) && i <= |Visited(reg, s, e)|
  {
    StepSplits(reg, s, e);
    RoundSplits(reg, Prelude(reg, s, e), Visited(reg, s, e), i);
    ReconcileEach(reg, Prelude(reg, s, e), Visited(reg, s, e)[..i]).state
  }

  lemma AdmittedEarlier(reg: Registry, s: State, t: State, v: State, domain: DomainId, d: Direction)
    requires s.Keyed(reg) && t.Keyed(reg) && Untouched(reg, s, t, domain) && AdmittedThisWay(reg, t, v, domain, d)
    ensures AdmittedThisWay(reg, s, v, domain, d)
  {
    var x: Reservation :| reg.InDomain(x.block, domain) && x.block in t.waiting && x in t.waiting[x.block].Of(d) && Granted(v.grants, x);
    assert x in s.waiting[x.block].Of(d);
  }

  lemma AvailableUntouched(reg: Registry, s: State, t: State, domain: DomainId, x: Reservation)
    requires s.Keyed(reg) && t.Keyed(reg) && Untouched(reg, s, t, domain) && reg.InDomain(x.block, domain)
    requires x.destination in reg.bays && t.bays[x.destination] == s.bays[x.destination]
    ensures Available(reg, t, x) == Available(reg, s, x)
  {
  }

  lemma EachAlternates(reg: Registry, s: State, order: seq<DomainId>, domain: DomainId, d: Direction, x: Reservation)
    requires Core(reg, s) && order != [] && order[0] == domain && forall e :: e in order ==> e in s.domains
    requires s.domains[domain] == Domain(Some(d), true)
    requires !Busy(reg, s.blocks, domain) && !Faulted(reg, s.blocks, domain)
    requires reg.InDomain(x.block, domain) && x in s.waiting[x.block].Of(d.Opposite()) && Available(reg, s, x)
    ensures var t := ReconcileEach(reg, s, order).state;
            && domain in t.domains && t.domains[domain].active == Some(d.Opposite())
            && AdmittedThisWay(reg, s, t, domain, d.Opposite())
  {
    var first := Reconcile(reg, s, domain);
    ReconcileAlternates(reg, s, domain, d, x);
    ReconcileSettles(reg, s, domain);
    if first.ok {
      FlippedIsBusy(reg, s, domain, d);
      assert forall e :: e in order[1..] ==> e in order;
      EachKeepsDirection(reg, first.state, order[1..], domain, d.Opposite());
    }
    hide Faulted, Busy, Available, GrantsHeld, WithinCapacity, OneDirection,
      QueuesDistinct, QueuesShaped, GrantsShaped, Registry.WellFormed, BlocksMoved, QueuesMoved, BaysMoved, GrantsMoved,
      Settled, Reconcile;
  }

  lemma FlippedIsBusy(reg: Registry, s: State, domain: DomainId, d: Direction)
    requires Core(reg, s) && domain in s.domains && !Faulted(reg, s.blocks, domain) && Reconcile(reg, s, domain).ok
    requires domain in Reconcile(reg, s, domain).state.domains
    requires Reconcile(reg, s, domain).state.domains[domain].active == Some(d.Opposite())
    ensures Reconcile(reg, s, domain).state.Keyed(reg) && Busy(reg, Reconcile(reg, s, domain).state.blocks, domain)
  {
    ReconcileSettles(reg, s, domain);
    hide Reconcile, Moved;
  }

  // ----- Alternation, exactly -------------------------------------------------------------------------

  /** A healthy domain that was emptied with its batch closed. */
  ghost predicate Emptied(reg: Registry, u: State, domain: DomainId, d: Direction)
    requires u.Shaped(reg)
  {
    && domain in u.domains && u.domains[domain] == Domain(Some(d), true)
    && !Busy(reg, u.blocks, domain) && !Faulted(reg, u.blocks, domain)
  }

  /** The operation that empties a domain visits it. */
  lemma EmptiedIsVisited(reg: Registry, s: State, e: Event, domain: DomainId, d: Direction)
    requires Core(reg, s) && Feasible(reg, e) && domain in s.domains && Orderly(reg, s, domain)
    requires Prelude(reg, s, e).Shaped(reg) && Emptied(reg, Prelude(reg, s, e), domain, d)
    ensures domain in Visited(reg, s, e)
  {
    hide Prelude, Visited, QueuesShaped, GrantsShaped, Registry.WellFormed, GrantsHeld, QueuesDistinct, WithinCapacity, OneDirection,
      Busy, Faulted, HasWaiting;
    if domain !in Visited(reg, s, e) {
      PreludeOrderly(reg, s, e, domain);
      assert false;
    }
  }

  /** The first position of the domain in the round, or its end. */
  function FirstAt(order: seq<DomainId>, domain: DomainId): (i: nat)
    ensures i <= |order| && domain !in order[..i]
    ensures domain in order ==> i < |order| && order[i] == domain
  {
    if order == [] || order[0] == domain then 0 else 1 + FirstAt(order[1..], domain)
  }

  /** An idle, settled domain rests while other domains, or it again, are visited. */
  lemma {:induction false} EachStaysIdle(reg: Registry, s: State, order: seq<DomainId>, domain: DomainId)
    requires Core(reg, s) && (forall d :: d in order ==> d in s.domains) && domain in s.domains
    requires Settled(reg, s, domain) && s.domains[domain].active == None && !Faulted(reg, s.blocks, domain)
    ensures var t := ReconcileEach(reg, s, order).state; domain in t.domains && t.domains[domain].active == None
    decreases |order|
  {
    hide Reconcile, Settled, Faulted, BlocksMoved, QueuesMoved, BaysMoved, GrantsMoved, GrantsHeld, WithinCapacity, OneDirection,
      QueuesDistinct, QueuesShaped, GrantsShaped, Registry.WellFormed;
    if order != [] {
      var first := Reconcile(reg, s, order[0]);
      ReconcileSettles(reg, s, order[0]);
      SameFaultsMoved(reg, s, first.state, {order[0]});
      if order[0] == domain {
        SettledIsFixpoint(reg, s, domain);
      } else {
        SettledStays(reg, s, first.state, {order[0]}, domain);
      }
      assert forall d :: d in first.state.domains <==> d in s.domains;
      if first.ok {
        EachStaysIdle(reg, first.state, order[1..], domain);
      }
    }
  }

  /** If nobody can go the other way, a domain does not turn. */
  lemma ReconcileDoesNotTurn(reg: Registry, s: State, domain: DomainId, d: Direction)
    requires Core(reg, s) && Emptied(reg, s, domain, d) && NoneAvailable(reg, s, domain, d.Opposite())
    ensures var pass := Reconcile(reg, s, domain);
            && domain in pass.state.domains && pass.state.Keyed(reg)
            && (pass.state.domains[domain].active == None
                || (pass.state.domains[domain].active == Some(d) && Busy(reg, pass.state.blocks, domain)))
            && (pass.state.domains[domain].active == None ==> pass.ok)
  {
    hide GrantsHeld, WithinCapacity, OneDirection, QueuesDistinct, QueuesShaped, GrantsShaped, Registry.WellFormed, Choose, Serve,
      NoneAvailable, Busy, Faulted, Available, Moved, DomainWaiting;
    PrepareShape(reg, s, domain);
    PrepareKeepsCore(reg, s, domain);
    PreparedCanGo(reg, s, domain);
    var c := Choose(reg, s, domain);
    if c.Some? {
      ChosenIsAvailable(reg, s, domain);
      assert c.value == d || c.value == d.Opposite();
      RoundIsBusy(reg, Prepare(reg, s, domain), domain, d);
    }
  }

  lemma EachDoesNotTurn(reg: Registry, s: State, order: seq<DomainId>, domain: DomainId, d: Direction)
    requires Core(reg, s) && order != [] && order[0] == domain && forall e :: e in order ==> e in s.domains
    requires Emptied(reg, s, domain, d) && NoneAvailable(reg, s, domain, d.Opposite())
    ensures var t := ReconcileEach(reg, s, order).state;
            domain in t.domains && t.domains[domain].active != Some(d.Opposite())
  {
    hide Reconcile, Settled, Faulted, Busy, NoneAvailable, BlocksMoved, QueuesMoved, BaysMoved, GrantsMoved, GrantsHeld, WithinCapacity,
      OneDirection, QueuesDistinct, QueuesShaped, GrantsShaped, Registry.WellFormed;
    var first := Reconcile(reg, s, domain);
    ReconcileDoesNotTurn(reg, s, domain, d);
    ReconcileSettles(reg, s, domain);
    SameFaultsMoved(reg, s, first.state, {domain});
    assert forall e :: e in order[1..] ==> e in order;
    if first.ok {
      if first.state.domains[domain].active == None {
        EachStaysIdle(reg, first.state, order[1..], domain);
      } else {
        EachKeepsDirection(reg, first.state, order[1..], domain, d);
      }
    }
  }

  lemma VisitedAlternatesExactly(reg: Registry, s: State, e: Event, domain: DomainId, d: Direction)
    requires Core(reg, s) && Feasible(reg, e) && Prelude(reg, s, e).Shaped(reg)
    requires Emptied(reg, Prelude(reg, s, e), domain, d) && domain in Visited(reg, s, e)
    ensures forall c :: c in Visited(reg, s, e) ==> c in Prelude(reg, s, e).domains
    ensures Turns(reg, s, e, domain, d) <==>
              var i := FirstAt(Visited(reg, s, e), domain);
              && GoesThrough(reg, Prelude(reg, s, e), Visited(reg, s, e)[..i])
              && AtItsTurn(reg, s, e, i).Shaped(reg)
              && !NoneAvailable(reg, AtItsTurn(reg, s, e, i), domain, d.Opposite())
    ensures Turns(reg, s, e, domain, d) ==>
              AdmittedThisWay(reg, Prelude(reg, s, e), Step(reg, s, e).state, domain, d.Opposite())
  {
    hide Step, Prelude, Visited, Faulted, Busy, Available, GrantsHeld, WithinCapacity, OneDirection, GoesThrough,
      QueuesDistinct, QueuesShaped, GrantsShaped, Registry.WellFormed, BlocksMoved, QueuesMoved, BaysMoved, GrantsMoved,
      Reconcile, ReconcileEach, Orderly, AdmittedThisWay;
    var u, order := Prelude(reg, s, e), Visited(reg, s, e);
    var i := FirstAt(order, domain);
    StepSplits(reg, s, e);
    PreludeKeepsCore(reg, s, e);
    RoundSplits(reg, u, order, i);
    RoundGoesThroughExactly(reg, u, order[..i]);
    var before := ReconcileEach(reg, u, order[..i]);
    EachMoves(reg, u, order[..i]);
    MovedUntouched(reg, u, before.state, HealthyOf(reg, u.blocks, order[..i]), domain);
    UntouchedSame(reg, u, before.state, domain);
    if before.ok {
      TurnDecides(reg, before.state, order[i..], domain, d);
      if !NoneAvailable(reg, before.state, domain, d.Opposite()) {
        AdmittedEarlier(reg, u, before.state, Step(reg, s, e).state, domain, d.Opposite());
      }
    }
  }

  /** The step leaves the domain going the other way. */
  ghost predicate Turns(reg: Registry, s: State, e: Event, domain: DomainId, d: Direction)
    requires s.Shaped(reg) && Feasible(reg, e)
  {
    var t := Step(reg, s, e).state;
    domain in t.domains && t.domains[domain].active == Some(d.Opposite())
  }

  /** Alternation in the operation that empties a domain with its batch closed: the operation comes to the
      domain, and the domain turns around exactly if the round gets that far and somebody waiting the
      other way can go at that moment; one who waits that way is then admitted. */
  lemma StepAlternatesExactly(reg: Registry, s: State, e: Event, domain: DomainId, d: Direction)
    requires Core(reg, s) && Feasible(reg, e) && domain in s.domains && Orderly(reg, s, domain)
    requires Prelude(reg, s, e).Shaped(reg) && Emptied(reg, Prelude(reg, s, e), domain, d)
    ensures domain in Visited(reg, s, e) && forall c :: c in Visited(reg, s, e) ==> c in Prelude(reg, s, e).domains
    ensures Turns(reg, s, e, domain, d) <==>
              var i := FirstAt(Visited(reg, s, e), domain);
              && GoesThrough(reg, Prelude(reg, s, e), Visited(reg, s, e)[..i])
              && AtItsTurn(reg, s, e, i).Shaped(reg)
              && !NoneAvailable(reg, AtItsTurn(reg, s, e, i), domain, d.Opposite())
    ensures Turns(reg, s, e, domain, d) ==>
              AdmittedThisWay(reg, Prelude(reg, s, e), Step(reg, s, e).state, domain, d.Opposite())
  {
    hide Step, Prelude, Visited, GoesThrough, NoneAvailable, AdmittedThisWay, State.Shaped, GrantsHeld, WithinCapacity,
      OneDirection, QueuesDistinct, Orderly, Emptied, AtItsTurn, Turns;
    EmptiedIsVisited(reg, s, e, domain, d);
    VisitedAlternatesExactly(reg, s, e, domain, d);
  }

  lemma TurnDecides(reg: Registry, s: State, order: seq<DomainId>, domain: DomainId, d: Direction)
    requires Core(reg, s) && order != [] && order[0] == domain && (forall e :: e in order ==> e in s.domains)
    requires Emptied(reg, s, domain, d)
    ensures var t := ReconcileEach(reg, s, order).state;
            && domain in t.domains
            && (t.domains[domain].active == Some(d.Opposite()) <==> !NoneAvailable(reg, s, domain, d.Opposite()))
            && (!NoneAvailable(reg, s, domain, d.Opposite()) ==> AdmittedThisWay(reg, s, t, domain, d.Opposite()))
  {
    hide Faulted, Busy, Available, GrantsHeld, WithinCapacity, OneDirection, QueuesDistinct, GrantsShaped, Registry.WellFormed,
      ReconcileEach, AdmittedThisWay;
    if NoneAvailable(reg, s, domain, d.Opposite()) {
      EachDoesNotTurn(reg, s, order, domain, d);
    } else {
      var b, x :| reg.InDomain(b, domain) && x in s.waiting[b].Of(d.Opposite()) && Available(reg, s, x);
      assert x.block == b;
      EachAlternates(reg, s, order, domain, d, x);
    }
  }

  /** Nobody in the given domains waits for a bay that the waiters of `domain` want. */
  ghost predicate NoRivals(reg: Registry, u: State, order: seq<DomainId>, domain: DomainId, d: Direction)
    requires u.Keyed(reg)
  {
    forall c, b, x :: c in order && reg.InDomain(b, domain) && x in u.waiting[b].Of(d) ==> NobodyWaitsFor(reg, u, c, x.destination)
  }

  /** If nobody in the domains that come first waits for a bay that is wanted the other way, it is the
      state in which the domain was emptied that decides. */
  lemma StepAlternatesAtOnceExactly(reg: Registry, s: State, e: Event, domain: DomainId, d: Direction)
    requires Core(reg, s) && Feasible(reg, e) && domain in s.domains && Orderly(reg, s, domain)
    requires Prelude(reg, s, e).Shaped(reg) && Emptied(reg, Prelude(reg, s, e), domain, d)
    requires var order := Visited(reg, s, e);
             NoRivals(reg, Prelude(reg, s, e), order[..FirstAt(order, domain)], domain, d.Opposite())
    ensures forall c :: c in Visited(reg, s, e) ==> c in Prelude(reg, s, e).domains
    ensures Turns(reg, s, e, domain, d) <==>
              && GoesThrough(reg, Prelude(reg, s, e), Visited(reg, s, e)[..FirstAt(Visited(reg, s, e), domain)])
              && !NoneAvailable(reg, Prelude(reg, s, e), domain, d.Opposite())
  {
    hide Step, Prelude, Visited, Faulted, Busy, GrantsHeld, WithinCapacity, OneDirection, GoesThrough, NoRivals,
      QueuesDistinct, QueuesShaped, GrantsShaped, Registry.WellFormed, Moved, NoneAvailable, Untouched,
      Reconcile, ReconcileEach, Orderly, AdmittedThisWay, Turns;
    StepAlternatesExactly(reg, s, e, domain, d);
    var u, order := Prelude(reg, s, e), Visited(reg, s, e);
    var i := FirstAt(order, domain);
    PreludeKeepsCore(reg, s, e);
    RoundSplits(reg, u, order, i);
    SameAtItsTurn(reg, u, order[..i], domain, d.Opposite());
  }

  /** What can go in a domain is the same before and after other domains have been visited, if nobody in
      them waits for the same bays. */
  lemma SameAtItsTurn(reg: Registry, u: State, order: seq<DomainId>, domain: DomainId, d: Direction)
    requires Core(reg, u) && (forall c :: c in order ==> c in u.domains) && domain in u.domains && domain !in order
    requires NoRivals(reg, u, order, domain, d)
    ensures var v := ReconcileEach(reg, u, order).state;
            v.Shaped(reg) && NoneAvailable(reg, v, domain, d) == NoneAvailable(reg, u, domain, d)
  {
    hide Faulted, Busy, GrantsHeld, WithinCapacity, OneDirection, NobodyWaitsFor, Available,
      QueuesDistinct, GrantsShaped, Registry.WellFormed, BlocksMoved, QueuesMoved, GrantsMoved, BaysMoved, Reconcile,
      ReconcileEach;
    var v := ReconcileEach(reg, u, order).state;
    EachMoves(reg, u, order);
    MovedUntouched(reg, u, v, HealthyOf(reg, u.blocks, order), domain);
    forall b, x | reg.InDomain(b, domain) && x in u.waiting[b].Of(d)
      ensures x in v.waiting[b].Of(d) && Available(reg, v, x) == Available(reg, u, x)
    {
      assert x.block == b && x.destination in reg.bays;
      EachLeavesBay(reg, u, order, x.destination);
      AvailableUntouched(reg, u, v, domain, x);
    }
  }

  // ----- Requests are conserved -------------------------------------------------------------

  /** The step gives up what the robot has at the block: it leaves it, cancels it, is
      reported faulty outside every block, or everything is reset. */
  ghost predicate GivesUp(reg: Registry, s: State, e: Event, r: RobotId, b: BlockId)
    requires s.Shaped(reg)
  {
    match e
    case Exited(q, c) => q == r && c == b
    case Cancelled(q, target, visit) => q == r && b in Targets(reg, target) && MayCancel(reg, s, q, target)
    case FaultedAt(q, visit) => q == r && FirstOccupied(s, r, reg.blockOrder) == None
    case WasReset(force) => Reset(reg, s, force).reply == Flag(true)
    case _ => false
  }

  lemma WithdrawConserves(s: State, r: RobotId, targets: seq<BlockId>)
    ensures var u := Withdraw(s, r, targets);
            && (forall k :: k in s.grants && !(k.robot == r && k.block in targets) ==> k in u.grants && u.grants[k] == s.grants[k])
            && (forall b :: b in s.waiting ==> b in u.waiting)
            && (forall b, d, x :: b in s.waiting && x in s.waiting[b].Of(d) && !(x.robot == r && b in targets) ==>
                x in u.waiting[b].Of(d))
  {
    var u := Withdraw(s, r, targets);
    hide HoldsOneTo;
    forall b, d, x | b in s.waiting && x in s.waiting[b].Of(d) && !(x.robot == r && b in targets)
      ensures x in u.waiting[b].Of(d)
    {
      WithoutRobotItems(s.waiting[b].Of(d), r);
    }
  }

  lemma EnqueueConserves(s: State, x: Reservation)
    requires x.block in s.waiting
    ensures var u := Enqueue(s, x);
            && (forall b :: b in s.waiting ==> b in u.waiting)
            && (forall b, d, y :: b in s.waiting && y in s.waiting[b].Of(d) ==> y in u.waiting[b].Of(d))
  {
  }

  /** Everything granted or waiting in `s` is still there in `u`, unless given up. */
  ghost predicate Kept(reg: Registry, s: State, u: State, e: Event)
    requires s.Shaped(reg)
  {
    && (forall k :: k in s.grants ==>
        (k in u.grants && u.grants[k] == s.grants[k]) || GivesUp(reg, s, e, k.robot, k.block))
    && (forall b :: b in s.waiting ==> b in u.waiting)
    && (forall b, d, x :: b in s.waiting && x in s.waiting[b].Of(d) ==>
        x in u.waiting[b].Of(d) || GivesUp(reg, s, e, x.robot, b))
  }

  lemma RequestKeeps(reg: Registry, s: State, x: Reservation)
    requires Core(reg, s)
    ensures Kept(reg, s, Prelude(reg, s, Requested(x)), Requested(x))
  {
    hide GivesUp, QueuesShaped, GrantsShaped, Available, Queues.Has, Queues.Of, GrantsHeld, QueuesDistinct,
      WithinCapacity, OneDirection, Robots;
    if IsNewRequest(reg, s, x) {
      EnqueueConserves(s, x);
      EnqueueConserves(CloseBatch(s, reg.blocks[x.block].domain), x);
    }
  }

  lemma MovementKeeps(reg: Registry, s: State, r: RobotId, b: BlockId)
    requires Core(reg, s)
    ensures Kept(reg, s, Prelude(reg, s, Entered(r, b)), Entered(r, b))
    ensures Kept(reg, s, Prelude(reg, s, Exited(r, b)), Exited(r, b))
  {
    hide QueuesShaped, Registry.WellFormed, Queues.Of, GrantsHeld, QueuesDistinct, WithinCapacity, OneDirection;
    if b in reg.blocks {
      LeaveGone(s, r, b);
      assert Leave(s, r, b).waiting == s.waiting;
    }
    hide Leave;
  }

  lemma WithdrawalKeeps(reg: Registry, s: State, e: Event)
    requires s.Shaped(reg) && Feasible(reg, e) && (e.Cancelled? || e.FaultedAt?)
    ensures Kept(reg, s, Prelude(reg, s, e), e)
  {
    hide Withdraw, Queues.Of, QueuesShaped, GrantsShaped, FirstOccupied, Registry.WellFormed;
    if e.Cancelled? {
      WithdrawConserves(s, e.robot, Targets(reg, e.target));
    } else {
      FirstOccupiedIsFirst(s, e.robot, reg.blockOrder);
      WithdrawConserves(s, e.robot, reg.blockOrder);
      assert forall b :: b in s.waiting ==> b in reg.blocks;
      InOrderAll(reg);
    }
  }

  lemma InOrderAll(reg: Registry)
    requires reg.WellFormed()
    ensures forall b :: b in reg.blocks <==> b in reg.blockOrder
  {
  }

  lemma PreludeConserves(reg: Registry, s: State, e: Event)
    requires Core(reg, s) && Feasible(reg, e)
    ensures Kept(reg, s, Prelude(reg, s, e), e)
  {
    hide QueuesShaped, GrantsShaped, Registry.WellFormed, Queues.Of, GrantsHeld, QueuesDistinct, WithinCapacity,
      OneDirection;
    match e
    case Requested(x) => RequestKeeps(reg, s, x);
    case Entered(r, b) => MovementKeeps(reg, s, r, b);
    case Exited(r, b) => MovementKeeps(reg, s, r, b);
    case Cancelled(r, target, visit) => WithdrawalKeeps(reg, s, e);
    case FaultedAt(r, visit) => WithdrawalKeeps(reg, s, e);
    case _ =>
  }

  /** No request is lost: whatever was granted stays granted and whatever was waiting is
      waiting or granted, unless this very step gives it up. */
  lemma StepConservesRequests(reg: Registry, s: State, e: Event)
    requires Core(reg, s) && Feasible(reg, e)
    ensures var t := Step(reg, s, e).state;
            && (forall k :: k in s.grants ==> (k in t.grants && t.grants[k] == s.grants[k]) || GivesUp(reg, s, e, k.robot, k.block))
            && (forall b :: b in s.waiting ==> b in t.waiting)
            && (forall b, d, x :: b in s.waiting && x in s.waiting[b].Of(d) ==>
                x in t.waiting[b].Of(d) || Granted(t.grants, x) || GivesUp(reg, s, e, x.robot, b))
  {
    var u := Prelude(reg, s, e);
    StepSplits(reg, s, e);
    PreludeKeepsCore(reg, s, e);
    PreludeConserves(reg, s, e);
    EachMoves(reg, u, Visited(reg, s, e));
    hide Step, Prelude, Visited, GivesUp, HealthyOf, ReconcileEach, BlocksMoved, BaysMoved,
      GrantsHeld, WithinCapacity, OneDirection, QueuesDistinct, QueuesShaped, GrantsShaped, Registry.WellFormed;
  }

  // ----- Runs without overfilled bays ---------------------------------------------------------------

  /** Every sighting and every exit of the run finds room. */
  ghost predicate RoomyRun(reg: Registry, s: State, es: seq<Event>)
    requires s.Shaped(reg) && forall i :: 0 <= i < |es| ==> Feasible(reg, es[i])
    decreases |es|
  {
    es != [] ==>
      && LeavesRoom(reg, s, es[0])
      && Step(reg, s, es[0]).state.Shaped(reg) && RoomyRun(reg, Step(reg, s, es[0]).state, es[1..])
  }

  /** No runtime check fails in the run. */
  ghost predicate NeverFails(reg: Registry, s: State, es: seq<Event>)
    requires s.Shaped(reg) && forall i :: 0 <= i < |es| ==> Feasible(reg, es[i])
    decreases |es|
  {
    es != [] ==>
      && Step(reg, s, es[0]).Unchecked()
      && Step(reg, s, es[0]).state.Shaped(reg) && NeverFails(reg, Step(reg, s, es[0]).state, es[1..])
  }

  /** In such a run no runtime check fails, no bay is ever over its capacity and every domain stays orderly,
      whatever else the callers do. */
  lemma {:induction false} RoomyRunsStayOrderly(reg: Registry, s: State, es: seq<Event>)
    requires Core(reg, s) && BaysWithin(reg, s.bays) && AllOrderly(reg, s)
    requires (forall i :: 0 <= i < |es| ==> Feasible(reg, es[i])) && RoomyRun(reg, s, es)
    ensures var t := Run(reg, s, es); Core(reg, t) && BaysWithin(reg, t.bays) && AllOrderly(reg, t)
    ensures NeverFails(reg, s, es)
    decreases |es|
  {
    hide Step, Prelude, StepGoesThrough, BaysWithin, AllOrderly, LeavesRoom, GrantsHeld, WithinCapacity, OneDirection, QueuesDistinct,
      QueuesShaped, GrantsShaped, Registry.WellFormed;
    if es != [] {
      PreludeWithinExactly(reg, s, es[0]);
      StepUnchecked(reg, s, es[0]);
      StepKeepsCore(reg, s, es[0]);
      RoomGoesThrough(reg, s, es[0]);
      StepKeepsOrder(reg, s, es[0]);
      RoomyRunsStayOrderly(reg, Step(reg, s, es[0]).state, es[1..]);
    }
  }
}
