/** Runs of the arbiter. The safety core holds after every sequence of calls, with
    any arguments, including the calls that raise. */
module ArbiterRuns {
  import opened Models
  import opened ArbiterSpec
  import opened ArbiterSteps
  import opened ArbiterSafety
  import opened ArbiterProgress

  // ----- Movement keeps the core -------------------------------------------------------

  lemma EnterHeld(s: State, x: Reservation)
    requires GrantsHeld(s.blocks, s.grants) && x.block in s.blocks
    requires Granted(s.grants, x)
    ensures GrantsHeld(Enter(s, x).blocks, s.grants)
  {
  }

  lemma EnterWithin(reg: Registry, s: State, x: Reservation)
    requires GrantsHeld(s.blocks, s.grants) && WithinCapacity(reg, s.blocks) && x.block in s.blocks
    requires Granted(s.grants, x)
    ensures WithinCapacity(reg, Enter(s, x).blocks)
  {
  }

  lemma EnterDistinct(s: State, x: Reservation)
    requires QueuesDistinct(s.waiting, s.blocks, s.grants) && x.block in s.blocks && Granted(s.grants, x)
    ensures QueuesDistinct(s.waiting, Enter(s, x).blocks, s.grants)
  {
  }

  lemma EnterDirection(reg: Registry, s: State, x: Reservation)
    requires s.Keyed(reg) && OneDirection(reg, s.domains, s.blocks, s.grants)
    requires x.block in s.blocks && Granted(s.grants, x)
    ensures OneDirection(reg, s.domains, Enter(s, x).blocks, s.grants)
  {
  }

  lemma EnterKeepsCore(reg: Registry, s: State, x: Reservation)
    requires Core(reg, s) && x.block in s.blocks && Granted(s.grants, x)
    ensures Core(reg, Enter(s, x))
  {
    EnterShape(reg, s, x);
    EnterHeld(s, x);
    EnterWithin(reg, s, x);
    EnterDistinct(s, x);
    EnterDirection(reg, s, x);
    hide GrantsHeld, WithinCapacity, QueuesDistinct, OneDirection, State.Shaped;
  }

  lemma BaysKeepCore(reg: Registry, s: State, t: State)
    requires Core(reg, s) && t == s.(bays := t.bays)
    requires forall h :: h in t.bays <==> h in s.bays
    ensures Core(reg, t)
  {
  }

  lemma LeaveShape(reg: Registry, s: State, r: RobotId, b: BlockId)
    requires s.Shaped(reg) && b in reg.blocks
    ensures Leave(s, r, b).Shaped(reg)
    ensures Leave(s, r, b).domains == s.domains
  {
  }

  /** `t` has no more robots and no fewer faults than `s`. */
  ghost predicate Fewer(s: map<BlockId, Block>, t: map<BlockId, Block>) {
    && (forall b :: b in t <==> b in s)
    && (forall b :: b in t && s[b].faulted ==> t[b].faulted)
    && (forall b, r :: b in t && r in t[b].occupants ==>
        r in s[b].occupants && t[b].occupants[r] == s[b].occupants[r])
    && (forall b, r :: b in t && r in t[b].reservations ==> r in s[b].reservations)
  }

  ghost predicate SubGrants(s: map<Key, Reservation>, t: map<Key, Reservation>) {
    forall k :: k in t ==> k in s && t[k] == s[k]
  }

  /** `t` is `s` without robot `r` in block `b`. */
  ghost predicate RobotGone(s: map<BlockId, Block>, t: map<BlockId, Block>, r: RobotId, b: BlockId) {
    && (forall c :: c in t <==> c in s)
    && b in s
    && (forall c :: c in s && c != b ==> t[c] == s[c])
    && t[b].faulted == s[b].faulted
    && (forall x :: x in t[b].occupants <==> x in s[b].occupants && x != r)
    && (forall x :: x in t[b].occupants ==> t[b].occupants[x] == s[b].occupants[x])
    && (forall x :: x in t[b].reservations <==> x in s[b].reservations && x != r)
    && (forall x :: x in t[b].reservations ==> t[b].reservations[x] == s[b].reservations[x])
  }

  lemma GoneHeld(
    s: map<BlockId, Block>, t: map<BlockId, Block>, g: map<Key, Reservation>, h: map<Key, Reservation>,
    r: RobotId, b: BlockId)
    requires GrantsHeld(s, g) && RobotGone(s, t, r, b)
    requires forall k :: k in h <==> k in g && k != Key(r, b)
    requires SubGrants(g, h)
    ensures GrantsHeld(t, h)
  {
  }

  lemma LeaveGone(s: State, r: RobotId, b: BlockId)
    requires b in s.blocks
    requires Key(r, b) in s.grants ==> s.grants[Key(r, b)].destination in s.bays
    ensures RobotGone(s.blocks, Leave(s, r, b).blocks, r, b)
    ensures forall k :: k in Leave(s, r, b).grants <==> k in s.grants && k != Key(r, b)
    ensures SubGrants(s.grants, Leave(s, r, b).grants)
  {
  }

  lemma LeaveHeld(s: State, r: RobotId, b: BlockId)
    requires GrantsHeld(s.blocks, s.grants) && b in s.blocks
    requires Key(r, b) in s.grants ==> s.grants[Key(r, b)].destination in s.bays
    ensures GrantsHeld(Leave(s, r, b).blocks, Leave(s, r, b).grants)
    ensures Fewer(s.blocks, Leave(s, r, b).blocks) && SubGrants(s.grants, Leave(s, r, b).grants)
  {
    LeaveGone(s, r, b);
    GoneHeld(s.blocks, Leave(s, r, b).blocks, s.grants, Leave(s, r, b).grants, r, b);
    hide Leave, GrantsHeld;
  }

  lemma SubKeys<K, V>(m: map<K, V>, n: map<K, V>)
    requires forall k :: k in m ==> k in n
    ensures |m.Keys| <= |n.Keys|
  {
    SubsetSize(m.Keys, n.Keys);
  }

  lemma FewerWithin(reg: Registry, s: map<BlockId, Block>, t: map<BlockId, Block>)
    requires WithinCapacity(reg, s) && Fewer(s, t)
    ensures WithinCapacity(reg, t)
  {
    forall b | b in t && b in reg.blocks && !t[b].faulted
      ensures |t[b].occupants.Keys| + |t[b].reservations.Keys| <= reg.blocks[b].capacity
    {
      forall r | r in t[b].occupants ensures r in s[b].occupants {
      }
      forall r | r in t[b].reservations ensures r in s[b].reservations {
      }
      SubKeys(t[b].occupants, s[b].occupants);
      SubKeys(t[b].reservations, s[b].reservations);
    }
  }

  lemma FewerDistinct(
    waiting: map<BlockId, Queues>, s: map<BlockId, Block>, t: map<BlockId, Block>,
    g: map<Key, Reservation>, h: map<Key, Reservation>)
    requires QueuesDistinct(waiting, s, g) && Fewer(s, t) && SubGrants(g, h)
    ensures QueuesDistinct(waiting, t, h)
  {
  }

  lemma MoreFaults(reg: Registry, s: map<BlockId, Block>, t: map<BlockId, Block>)
    requires forall b :: b in reg.blocks ==> b in s && b in t && (s[b].faulted ==> t[b].faulted)
    ensures forall d :: Faulted(reg, s, d) ==> Faulted(reg, t, d)
  {
  }

  lemma FewerDirection(
    reg: Registry, domains: map<DomainId, Domain>, s: map<BlockId, Block>, t: map<BlockId, Block>,
    g: map<Key, Reservation>, h: map<Key, Reservation>)
    requires forall b :: b in reg.blocks ==> b in s
    requires Fewer(s, t) && SubGrants(g, h) && OneDirection(reg, domains, s, g)
    ensures forall b :: b in reg.blocks ==> b in t
    ensures OneDirection(reg, domains, t, h)
  {
  }

  lemma FewerKeepsCore(reg: Registry, s: State, t: State)
    requires Core(reg, s) && t.Shaped(reg) && t.domains == s.domains
    requires Fewer(s.blocks, t.blocks) && SubGrants(s.grants, t.grants)
    requires GrantsHeld(t.blocks, t.grants)
    requires QueuesDistinct(t.waiting, s.blocks, s.grants)
    ensures Core(reg, t)
  {
    FewerWithin(reg, s.blocks, t.blocks);
    FewerDistinct(t.waiting, s.blocks, t.blocks, s.grants, t.grants);
    FewerDirection(reg, s.domains, s.blocks, t.blocks, s.grants, t.grants);
    hide GrantsHeld, WithinCapacity, QueuesDistinct, OneDirection, State.Shaped, Fewer, SubGrants;
  }

  lemma LeaveKeepsCore(reg: Registry, s: State, r: RobotId, b: BlockId)
    requires Core(reg, s) && b in reg.blocks
    ensures Core(reg, Leave(s, r, b))
  {
    LeaveShape(reg, s, r, b);
    LeaveHeld(s, r, b);
    assert Leave(s, r, b).waiting == s.waiting;
    FewerKeepsCore(reg, s, Leave(s, r, b));
  }

  lemma WithdrawQueue(q: Queues, r: RobotId)
    requires QueueDistinct(q)
    ensures var p := Queues(WithoutRobot(q.aToB, r), WithoutRobot(q.bToA, r));
            QueueDistinct(p) && forall x :: p.Has(x) == (q.Has(x) && x != r)
  {
    RobotsWithout(q.aToB, r);
    RobotsWithout(q.bToA, r);
  }

  lemma WithdrawDistinct(s: State, r: RobotId, targets: seq<BlockId>)
    requires QueuesDistinct(s.waiting, s.blocks, s.grants)
    ensures QueuesDistinct(Withdraw(s, r, targets).waiting, s.blocks, s.grants)
  {
    var t := Withdraw(s, r, targets);
    forall b | b in t.waiting
      ensures QueueDistinct(t.waiting[b])
      ensures forall x :: t.waiting[b].Has(x) ==> s.waiting[b].Has(x)
    {
      WithdrawQueue(s.waiting[b], r);
    }
    hide QueueDistinct, Queues.Has, HoldsOneTo, WithoutRobot;
  }

  lemma WithdrawHeld(s: State, r: RobotId, targets: seq<BlockId>)
    requires GrantsHeld(s.blocks, s.grants)
    requires forall b :: b in targets && b in s.blocks ==> r !in s.blocks[b].occupants
    ensures var t := Withdraw(s, r, targets);
            GrantsHeld(t.blocks, t.grants) && Fewer(s.blocks, t.blocks) && SubGrants(s.grants, t.grants)
  {
    hide HoldsOneTo, WithoutRobot;
    WithdrawFewerRobots(s, r, targets);
    var t := Withdraw(s, r, targets);
    hide Fewer, SubGrants;
    forall k | k in t.grants
      ensures k.block in t.blocks && (k.robot in t.blocks[k.block].reservations || k.robot in t.blocks[k.block].occupants)
    {
      assert k in s.grants;
    }
  }

  lemma WithdrawFewerRobots(s: State, r: RobotId, targets: seq<BlockId>)
    ensures Fewer(s.blocks, Withdraw(s, r, targets).blocks) && SubGrants(s.grants, Withdraw(s, r, targets).grants)
  {
  }

  lemma WithdrawKeepsCore(reg: Registry, s: State, r: RobotId, targets: seq<BlockId>)
    requires Core(reg, s)
    requires forall b :: b in targets && b in s.blocks ==> r !in s.blocks[b].occupants
    ensures Core(reg, Withdraw(s, r, targets))
    ensures Withdraw(s, r, targets).domains == s.domains
  {
    WithdrawShape(reg, s, r, targets);
    WithdrawHeld(s, r, targets);
    WithdrawDistinct(s, r, targets);
    FewerKeepsCore(reg, s, Withdraw(s, r, targets));
  }

  lemma FaultShapeAt(reg: Registry, s: State, b: BlockId)
    requires s.Shaped(reg) && b in reg.blocks
    ensures MarkFaulted(s, b).Shaped(reg)
  {
  }

  lemma FaultHeld(s: State, b: BlockId)
    requires GrantsHeld(s.blocks, s.grants) && b in s.blocks
    ensures var t := MarkFaulted(s, b);
            GrantsHeld(t.blocks, t.grants) && Fewer(s.blocks, t.blocks) && SubGrants(s.grants, t.grants)
  {
  }

  lemma MoreFaultsKeepCore(reg: Registry, s: State, b: BlockId)
    requires Core(reg, s) && b in reg.blocks
    ensures Core(reg, MarkFaulted(s, b))
  {
    var t := MarkFaulted(s, b);
    FaultShapeAt(reg, s, b);
    FaultHeld(s, b);
    FewerKeepsCore(reg, s, t);
  }

  lemma UnexpectedHeld(reg: Registry, s: State, r: RobotId, b: BlockId)
    requires s.Shaped(reg) && GrantsHeld(s.blocks, s.grants) && b in reg.blocks
    ensures GrantsHeld(ReportUnexpected(reg, s, r, b).state.blocks, s.grants)
    ensures QueuesDistinct(s.waiting, s.blocks, s.grants) ==>
              QueuesDistinct(s.waiting, ReportUnexpected(reg, s, r, b).state.blocks, s.grants)
    ensures WithinCapacity(reg, s.blocks) ==> WithinCapacity(reg, ReportUnexpected(reg, s, r, b).state.blocks)
  {
    hide QueueDistinct, Queues.Has, Registry.WellFormed, QueuesShaped, GrantsShaped;
  }

  lemma UnexpectedDirection(reg: Registry, s: State, r: RobotId, b: BlockId)
    requires s.Shaped(reg) && OneDirection(reg, s.domains, s.blocks, s.grants) && b in reg.blocks
    ensures forall c :: c in reg.blocks ==> c in ReportUnexpected(reg, s, r, b).state.blocks
    ensures OneDirection(reg, s.domains, ReportUnexpected(reg, s, r, b).state.blocks, s.grants)
  {
  }

  lemma UnexpectedKeepsCore(reg: Registry, s: State, r: RobotId, b: BlockId)
    requires Core(reg, s) && b in reg.blocks
    ensures Core(reg, ReportUnexpected(reg, s, r, b).state)
  {
    UnexpectedShape(reg, s, r, b);
    UnexpectedHeld(reg, s, r, b);
    UnexpectedDirection(reg, s, r, b);
    hide QueuesDistinct, OneDirection, State.Shaped, GrantsHeld, WithinCapacity;
  }

  lemma InitialCore(reg: Registry)
    requires reg.WellFormed()
    ensures Core(reg, Initial(reg))
  {
  }

  // ----- A step is a change of state followed by reconciliations ----------------------------

  /** A request that is neither refused nor already known, and is not admitted at once. */
  predicate IsNewRequest(reg: Registry, s: State, x: Reservation)
    requires s.Shaped(reg)
  {
    && x.block in reg.blocks && x.destination in reg.bays
    && Key(x.robot, x.block) !in s.grants && x.robot !in s.blocks[x.block].occupants
    && !s.blocks[x.block].faulted
    && !IsWaiting(s, x.robot, x.block)
  }

  predicate AdmitsAtOnce(reg: Registry, s: State, x: Reservation)
    requires s.Shaped(reg) && IsNewRequest(reg, s, x)
  {
    var was := s.domains[reg.blocks[x.block].domain];
    was.active == Some(x.direction) && !was.closed && Available(reg, s, x)
  }

  predicate MayCancel(reg: Registry, s: State, r: RobotId, target: Option<BlockId>) {
    && (target.Some? ==> target.value in reg.blocks)
    && forall b | b in Targets(reg, target) :: b in s.blocks ==> r !in s.blocks[b].occupants
  }

  /** The state before the reconciliations of a step. */
  ghost function Prelude(reg: Registry, s: State, e: Event): State
    requires s.Shaped(reg)
  {
    match e
    case Requested(x) =>
      if !IsNewRequest(reg, s, x) then s
      else
        var domain := reg.blocks[x.block].domain;
        var active := s.domains[domain].active;
        if AdmitsAtOnce(reg, s, x) then Grant(s, x)
        else if active == Some(x.direction.Opposite()) then Enqueue(CloseBatch(s, domain), x)
        else Enqueue(s, x)
    case Entered(r, b) =>
      if Key(r, b) !in s.grants then s
      else
        var x := s.grants[Key(r, b)];
        if x.source.Some? && x.source.value !in s.bays then Enter(s, x) else LeaveSource(Enter(s, x), x)
    case Exited(r, b) => if b in reg.blocks then Leave(s, r, b) else s
    case Occupied(h, r) => OccupyBay(reg, s, h, r).state
    case Released(h, r) => if h in reg.bays then DropFromBay(s, h, r) else s
    case Cancelled(r, target, visit) =>
      if MayCancel(reg, s, r, target) then Withdraw(s, r, Targets(reg, target)) else s
    case FaultedAt(r, visit) =>
      FirstOccupiedIsFirst(s, r, reg.blockOrder);
      var inside := FirstOccupied(s, r, reg.blockOrder);
      if inside.Some? then MarkFaulted(s, inside.value) else Withdraw(s, r, reg.blockOrder)
    case SeenUnexpectedly(r, b) => ReportUnexpected(reg, s, r, b).state
    case WasReset(force) => Reset(reg, s, force).state
  }

  /** The domains a step reconciles, in order. */
  ghost function Visited(reg: Registry, s: State, e: Event): seq<DomainId>
    requires s.Shaped(reg)
  {
    match e
    case Requested(x) =>
      if IsNewRequest(reg, s, x) && s.domains[reg.blocks[x.block].domain].active != Some(x.direction)
      then [reg.blocks[x.block].domain] else []
    case Entered(r, b) =>
      if Key(r, b) in s.grants && (s.grants[Key(r, b)].source.Some? ==> s.grants[Key(r, b)].source.value in s.bays)
      then reg.domainOrder else []
    case Exited(r, b) => if b in reg.blocks then [reg.blocks[b].domain] else []
    case Released(h, r) => if h in reg.bays then reg.domainOrder else []
    case Cancelled(r, target, visit) => if MayCancel(reg, s, r, target) then visit else []
    case FaultedAt(r, visit) => if FirstOccupied(s, r, reg.blockOrder).None? then visit else []
    case _ => []
  }

  lemma EnqueueAndReconcileSplits(reg: Registry, s: State, x: Reservation)
    requires s.Shaped(reg) && x.block in reg.blocks && x.destination in reg.bays
    ensures Enqueue(s, x).Shaped(reg) && Enqueue(s, x).domains == s.domains
    ensures var pass := ReconcileEach(reg, Enqueue(s, x), [reg.blocks[x.block].domain]);
            var e := EnqueueAndReconcile(reg, s, x);
            e.state == pass.state && (e.Unchecked() <==> pass.ok)
  {
    EnqueueShape(reg, s, x);
    hide Reconcile, QueuesShaped, GrantsShaped;
  }

  /** The step is its prelude followed by its reconciliations, and if no runtime
      check failed they all went through. */
  ghost predicate Splits(reg: Registry, s: State, e: Event)
    requires s.Shaped(reg) && Feasible(reg, e)
  {
    var u := Prelude(reg, s, e);
    var order := Visited(reg, s, e);
    && u.Shaped(reg) && (forall d :: d in order ==> d in u.domains)
    && Step(reg, s, e).state == ReconcileEach(reg, u, order).state
    && (Step(reg, s, e).Unchecked() ==> ReconcileEach(reg, u, order).ok)
  }

  lemma NothingVisited(reg: Registry, u: State)
    requires u.Shaped(reg)
    ensures ReconcileEach(reg, u, []) == Pass(u, true)
  {
  }

  lemma RequestSplits(reg: Registry, s: State, x: Reservation)
    requires s.Shaped(reg)
    ensures Splits(reg, s, Requested(x))
  {
    if IsNewRequest(reg, s, x) {
      var domain := reg.blocks[x.block].domain;
      assert domain in s.domains;
      var active := s.domains[domain].active;
      if active == None {
        EnqueueAndReconcileSplits(reg, s, x);
      } else {
        var d: Direction := active.value;
        assert active == Some(d) && (d == x.direction || d == x.direction.Opposite());
        if d != x.direction {
          CloseBatchShape(reg, s, domain);
          EnqueueAndReconcileSplits(reg, CloseBatch(s, domain), x);
        } else {
          EnqueueShape(reg, s, x);
          DirectGrantShape(reg, s, x);
          NothingVisited(reg, Enqueue(s, x));
          NothingVisited(reg, Grant(s, x));
        }
      }
    } else {
      NothingVisited(reg, s);
    }
    hide Enqueue, Grant, CloseBatch, EnqueueAndReconcile, Available, ChecksPass, State.Shaped, Reconcile,
      QueuesShaped, GrantsShaped, Registry.WellFormed, Queues.Has;
  }

  lemma EnteredSplits(reg: Registry, s: State, r: RobotId, b: BlockId)
    requires s.Shaped(reg)
    ensures Splits(reg, s, Entered(r, b))
  {
    var u := Prelude(reg, s, Entered(r, b));
    if b in reg.blocks && Key(r, b) in s.grants {
      EnterShape(reg, s, s.grants[Key(r, b)]);
    }
    assert u.Shaped(reg);
    NothingVisited(reg, u);
    hide Enter, LeaveSource, ReconcileEach, ChecksPass, QueuesShaped, Registry.WellFormed;
  }

  lemma ExitedSplits(reg: Registry, s: State, r: RobotId, b: BlockId)
    requires s.Shaped(reg)
    ensures Splits(reg, s, Exited(r, b))
  {
    if b in reg.blocks {
      LeaveShape(reg, s, r, b);
    } else {
      NothingVisited(reg, s);
    }
    hide Leave, ReconcileEach, ChecksPass, QueuesShaped;
  }

  lemma BaySplits(reg: Registry, s: State, h: BayId, r: RobotId)
    requires s.Shaped(reg)
    ensures Splits(reg, s, Occupied(h, r)) && Splits(reg, s, Released(h, r))
  {
    OccupyShape(reg, s, h, r);
    NothingVisited(reg, s);
    NothingVisited(reg, OccupyBay(reg, s, h, r).state);
    if h in reg.bays {
      DropShape(reg, s, h, r);
    }
    hide OccupyBay, DropFromBay, ReconcileEach, ChecksPass, QueuesShaped;
  }

  lemma DropShape(reg: Registry, s: State, h: BayId, r: RobotId)
    requires s.Shaped(reg) && h in reg.bays
    ensures DropFromBay(s, h, r).Shaped(reg) && DropFromBay(s, h, r).domains == s.domains
  {
  }

  lemma CancelSplits(reg: Registry, s: State, r: RobotId, target: Option<BlockId>, visit: seq<DomainId>)
    requires s.Shaped(reg) && VisitsTargets(reg, target, visit)
    ensures Splits(reg, s, Cancelled(r, target, visit))
  {
    VisitedDomains(reg, s, Cancelled(r, target, visit));
    WithdrawShape(reg, s, r, Targets(reg, target));
    NothingVisited(reg, s);
    hide ReconcileEach, Targets, HoldsOneTo, WithoutRobot, HasRequest, State.Shaped;
  }

  lemma FaultSplits(reg: Registry, s: State, r: RobotId, visit: seq<DomainId>)
    requires s.Shaped(reg) && VisitsTargets(reg, None, visit)
    ensures Splits(reg, s, FaultedAt(r, visit))
  {
    VisitedDomains(reg, s, FaultedAt(r, visit));
    FirstOccupiedIsFirst(s, r, reg.blockOrder);
    WithdrawShape(reg, s, r, reg.blockOrder);
    var inside := FirstOccupied(s, r, reg.blockOrder);
    if inside.Some? {
      FaultShapeAt(reg, s, inside.value);
      NothingVisited(reg, MarkFaulted(s, inside.value));
    } else {
      CancelSplits(reg, s, r, None, visit);
      assert MayCancel(reg, s, r, None);
    }
    hide ReconcileEach, HoldsOneTo, WithoutRobot, HasRequest, State.Shaped, FirstOccupied, MarkFaulted;
  }

  lemma StepSplits(reg: Registry, s: State, e: Event)
    requires s.Shaped(reg) && Feasible(reg, e)
    ensures Splits(reg, s, e)
  {
    match e
    case Requested(x) => RequestSplits(reg, s, x);
    case Entered(r, b) => EnteredSplits(reg, s, r, b);
    case Exited(r, b) => ExitedSplits(reg, s, r, b);
    case Occupied(h, r) => BaySplits(reg, s, h, r);
    case Released(h, r) => BaySplits(reg, s, h, r);
    case Cancelled(r, target, visit) => CancelSplits(reg, s, r, target, visit);
    case FaultedAt(r, visit) => FaultSplits(reg, s, r, visit);
    case SeenUnexpectedly(r, b) =>
      UnexpectedShape(reg, s, r, b);
      NothingVisited(reg, ReportUnexpected(reg, s, r, b).state);
    case WasReset(force) =>
      InitialShape(reg);
      NothingVisited(reg, Reset(reg, s, force).state);
  }

  /** Every prelude keeps the core. */
  lemma PreludeKeepsCore(reg: Registry, s: State, e: Event)
    requires Core(reg, s) && Feasible(reg, e)
    ensures Core(reg, Prelude(reg, s, e))
  {
    hide QueuesShaped, Registry.WellFormed, GrantsHeld, QueuesDistinct, WithinCapacity, OneDirection, Withdraw, Leave,
      Enter, MarkFaulted, Grant, Enqueue, CloseBatch, Queues.Has, Robots, FirstOccupied;
    match e
    case Requested(x) =>
      if IsNewRequest(reg, s, x) {
        RequestPreludeCore(reg, s, x);
      }
    case Entered(r, b) =>
      if Key(r, b) in s.grants {
        EnterPreludeCore(reg, s, s.grants[Key(r, b)]);
      }
    case Exited(r, b) =>
      if b in reg.blocks {
        LeaveKeepsCore(reg, s, r, b);
      }
    case Occupied(h, r) => BaysKeepCore(reg, s, OccupyBay(reg, s, h, r).state);
    case Released(h, r) =>
      if h in reg.bays {
        BaysKeepCore(reg, s, DropFromBay(s, h, r));
      }
    case Cancelled(r, target, visit) =>
      if MayCancel(reg, s, r, target) {
        WithdrawKeepsCore(reg, s, r, Targets(reg, target));
      }
    case FaultedAt(r, visit) =>
      FirstOccupiedIsFirst(s, r, reg.blockOrder);
      var inside := FirstOccupied(s, r, reg.blockOrder);
      if inside.Some? {
        MoreFaultsKeepCore(reg, s, inside.value);
      } else {
        WithdrawKeepsCore(reg, s, r, reg.blockOrder);
      }
    case SeenUnexpectedly(r, b) =>
      if b in reg.blocks {
        UnexpectedKeepsCore(reg, s, r, b);
      }
    case WasReset(force) => InitialCore(reg);
  }

  lemma RequestPreludeCore(reg: Registry, s: State, x: Reservation)
    requires Core(reg, s) && IsNewRequest(reg, s, x)
    ensures Core(reg, Prelude(reg, s, Requested(x)))
  {
    var domain := reg.blocks[x.block].domain;
    assert domain in s.domains;
    var c := CloseBatch(s, domain);
    SameDirections(reg, s, c);
    EnqueueKeepsCore(reg, c, x);
    EnqueueKeepsCore(reg, s, x);
    if AdmitsAtOnce(reg, s, x) {
      GrantKeepsCore(reg, s, x);
    }
    hide Core, Enqueue, Grant;
  }

  lemma EnterPreludeCore(reg: Registry, s: State, x: Reservation)
    requires Core(reg, s) && Granted(s.grants, x) && x.block in s.blocks
    ensures Core(reg, Enter(s, x))
    ensures x.source.Some? && x.source.value in s.bays ==> Core(reg, LeaveSource(Enter(s, x), x))
  {
    EnterKeepsCore(reg, s, x);
    if x.source.Some? && x.source.value in s.bays {
      BaysKeepCore(reg, Enter(s, x), LeaveSource(Enter(s, x), x));
    }
  }

  /** Safety of one step: the core holds afterwards, whatever the call was and whether
      or not it raised. */
  lemma StepKeepsCore(reg: Registry, s: State, e: Event)
    requires Core(reg, s) && Feasible(reg, e)
    ensures Core(reg, Step(reg, s, e).state)
  {
    StepSplits(reg, s, e);
    PreludeKeepsCore(reg, s, e);
    EachMoves(reg, Prelude(reg, s, e), Visited(reg, s, e));
    hide Step, Prelude, Visited, ReconcileEach, Moved;
  }
}
