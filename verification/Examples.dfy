/** Short runs, from an empty corridor, into the states in which the arbiter falls short of what
    one could expect. */
module Examples {
  import opened Models
  import opened ArbiterSpec
  import opened ArbiterSteps
  import opened ArbiterSafety
  import opened ArbiterProgress
  import opened ArbiterRuns
  import opened ArbiterChecks
  import opened ArbiterOrder
  import opened ArbiterRaising
  import opened ArbiterWakeups
  import opened ArbiterGuarantees
  import opened ArbiterGaps

  // ----- Requests in quiet domains ----------------------------------------------------------------

  /** Somebody waits in the domain, and it is `x` alone. */
  ghost predicate Alone(reg: Registry, s: State, x: Reservation)
    requires s.Shaped(reg)
  {
    && x.block in reg.blocks && x.destination in reg.bays
    && forall b, d, y :: reg.InDomain(b, reg.blocks[x.block].domain) ==>
         (y in s.waiting[b].Of(d) <==> y == x && b == x.block && d == x.direction)
  }

  lemma OnlyOne(q: seq<Reservation>, x: Reservation)
    requires DistinctKeys(q) && forall y :: y in q <==> y == x
    ensures q == [x]
  {
    assert x in q;
    if |q| > 1 {
      TwoDiffer(q);
      assert false;
    }
  }

  lemma TwoDiffer(q: seq<Reservation>)
    requires DistinctKeys(q) && |q| > 1
    ensures q[0] in q && q[1] in q && q[0] != q[1]
  {
  }

  lemma AloneWaits(reg: Registry, s: State, x: Reservation)
    requires Core(reg, s) && Alone(reg, s, x)
    ensures DomainWaiting(reg, s, reg.blocks[x.block].domain, x.direction) == [x]
    ensures DomainWaiting(reg, s, reg.blocks[x.block].domain, x.direction.Opposite()) == []
  {
    var domain := reg.blocks[x.block].domain;
    CollectedItems(reg, s, domain);
    WaitingDistinct(reg, s, domain, x.direction);
    OnlyOne(DomainWaiting(reg, s, domain, x.direction), x);
    NobodyCollected(reg, s, domain, x.direction.Opposite());
    hide DomainWaiting, GrantsHeld, QueuesDistinct, WithinCapacity, OneDirection;
  }

  function Opened(s: State, domain: DomainId, d: Direction): State {
    s.(domains := s.domains[domain := Domain(Some(d), false)])
  }

  lemma PrepareAlone(reg: Registry, s: State, x: Reservation)
    requires Core(reg, s) && Alone(reg, s, x)
    requires var domain := reg.blocks[x.block].domain; domain in s.domains && !Busy(reg, s.blocks, domain)
    ensures var domain := reg.blocks[x.block].domain;
            Prepare(reg, s, domain) == if Available(reg, s, x) then Opened(s, domain, x.direction)
                                       else s.(domains := s.domains[domain := s.domains[domain].(active := None)])
  {
    hide DomainWaiting, GrantsHeld, QueuesDistinct, WithinCapacity, OneDirection, QueuesShaped, GrantsShaped,
      Registry.WellFormed, Busy, Available, Alone;
    AloneWaits(reg, s, x);
  }

  lemma ServeAlone(reg: Registry, s: State, x: Reservation)
    requires Core(reg, s) && BaysWithin(reg, s.bays) && Alone(reg, s, x) && Available(reg, s, x)
    requires var domain := reg.blocks[x.block].domain;
             domain in s.domains && s.domains[domain] == Domain(Some(x.direction), false)
    ensures Serve(reg, s, reg.blocks[x.block].domain, x.direction) == Pass(Grant(Dequeue(s, x, x.direction), x), true)
  {
    var domain, d := reg.blocks[x.block].domain, x.direction;
    hide DomainWaiting, GrantsHeld, QueuesDistinct, WithinCapacity, OneDirection, QueuesShaped, GrantsShaped,
      Registry.WellFormed, Available, BaysWithin, ChecksPass, Grant, Dequeue, GrantPass, CloseIfOpposed, Alone;
    AloneWaits(reg, s, x);
    CollectedItems(reg, s, domain);
    ServeWithin(reg, s, domain, d);
    assert s.Keyed(reg) && x.block in reg.blocks && x.destination in reg.bays by {
      AloneKnown(reg, s, x);
    }
    PassOne(reg, s, x, d);
    OtherQueueStays(reg, s, x, domain);
  }

  lemma AloneKnown(reg: Registry, s: State, x: Reservation)
    requires s.Shaped(reg) && Alone(reg, s, x)
    ensures x.block in reg.blocks && x.destination in reg.bays && reg.blocks[x.block].domain in s.domains
    ensures x in s.waiting[x.block].Of(x.direction)
  {
    assert reg.InDomain(x.block, reg.blocks[x.block].domain);
  }

  lemma PassOne(reg: Registry, s: State, x: Reservation, d: Direction)
    requires s.Keyed(reg) && x.block in reg.blocks && x.destination in reg.bays && Available(reg, s, x)
    ensures GrantPass(reg, s, [x], d).state == Grant(Dequeue(s, x, d), x)
  {
    hide Available, ChecksPass;
    assert [x][1..] == [];
  }

  lemma OtherQueueStays(reg: Registry, s: State, x: Reservation, domain: DomainId)
    requires Core(reg, s) && Alone(reg, s, x) && x.block in reg.blocks && domain == reg.blocks[x.block].domain
    ensures var t := Grant(Dequeue(s, x, x.direction), x);
            && t.Shaped(reg) && domain in t.domains
            && CloseIfOpposed(reg, t, domain, x.direction) == t
  {
    AloneKnown(reg, s, x);
    var t := Grant(Dequeue(s, x, x.direction), x);
    hide GrantsHeld, QueuesDistinct, WithinCapacity, OneDirection, QueuesShaped, GrantsShaped, Registry.WellFormed, Grant,
      Dequeue, Moved, Collect, SortByTime;
    GrantShape(reg, s, x, x.direction);
    AdmitWaiting(reg, s, x, x.direction);
    forall b | reg.InDomain(b, domain) ensures t.waiting[b].Of(x.direction.Opposite()) == [] {
      assert forall y :: y !in s.waiting[b].Of(x.direction.Opposite());
      NoMembers(s.waiting[b].Of(x.direction.Opposite()));
    }
    NobodyCollected(reg, t, domain, x.direction.Opposite());
  }

  lemma NoMembers<T>(q: seq<T>)
    requires forall y :: y !in q
    ensures q == []
  {
    if q != [] {
      SomeMember(q);
      assert false;
    }
  }

  lemma SomeMember<T>(q: seq<T>)
    requires q != []
    ensures exists y :: y in q
  {
    assert q[0] in q;
  }

  lemma StillAlone(reg: Registry, s: State, t: State, x: Reservation)
    requires s.Shaped(reg) && t.Shaped(reg) && Alone(reg, s, x) && t == s.(domains := t.domains)
    ensures Alone(reg, t, x) && Available(reg, t, x) == Available(reg, s, x)
  {
  }

  /** An idle domain admits its only waiter if it can go, and has no direction otherwise. */
  lemma LoneWaiter(reg: Registry, s: State, x: Reservation)
    requires Core(reg, s) && BaysWithin(reg, s.bays) && Alone(reg, s, x)
    requires var domain := reg.blocks[x.block].domain; !Faulted(reg, s.blocks, domain) && !Busy(reg, s.blocks, domain)
    ensures var domain := reg.blocks[x.block].domain;
            && domain in s.domains
            && Reconcile(reg, s, domain) == Pass(
              if Available(reg, s, x) then Grant(Dequeue(Opened(s, domain, x.direction), x, x.direction), x)
              else s.(domains := s.domains[domain := s.domains[domain].(active := None)]), true)
  {
    var domain := reg.blocks[x.block].domain;
    assert domain in s.domains;
    hide GrantsHeld, QueuesDistinct, WithinCapacity, OneDirection, QueuesShaped, GrantsShaped, Registry.WellFormed, Busy,
      Faulted, BaysWithin, Prepare, Serve, Available, Alone, Grant, Dequeue;
    PrepareAlone(reg, s, x);
    PrepareShape(reg, s, domain);
    PrepareKeepsCore(reg, s, domain);
    if Available(reg, s, x) {
      StillAlone(reg, s, Opened(s, domain, x.direction), x);
      ServeAlone(reg, Opened(s, domain, x.direction), x);
    }
  }

  // ----- Requests from an idle state -----------------------------------------------------------------

  /** Nobody waits in the domain, which is healthy and has no direction. */
  ghost predicate Idle(reg: Registry, s: State, domain: DomainId)
    requires s.Shaped(reg)
  {
    && domain in s.domains && s.domains[domain] == Domain(None, false) && !Faulted(reg, s.blocks, domain)
    && forall b :: reg.InDomain(b, domain) ==> s.waiting[b] == Queues([], [])
  }

  lemma QueuedAlone(reg: Registry, s: State, x: Reservation)
    requires Core(reg, s) && IsNewRequest(reg, s, x) && Idle(reg, s, reg.blocks[x.block].domain)
    ensures var u := Enqueue(s, x);
            && Core(reg, u) && Alone(reg, u, x) && u == s.(waiting := u.waiting)
            && u.waiting[x.block] == Queues([], []).With(x.direction, [x])
  {
    QueueingKeepsCore(reg, s, x);
    assert Robots([]) == {};
    hide GrantsHeld, QueuesDistinct, WithinCapacity, OneDirection, QueuesShaped, GrantsShaped, Registry.WellFormed;
  }

  /** A request in an idle domain is granted if it can go, and waits otherwise. */
  lemma FirstRequest(reg: Registry, s: State, x: Reservation)
    requires Core(reg, s) && BaysWithin(reg, s.bays) && IsNewRequest(reg, s, x)
    requires Idle(reg, s, reg.blocks[x.block].domain)
    ensures Step(reg, s, Requested(x)).state
         == if Available(reg, s, x) then Grant(Opened(s, reg.blocks[x.block].domain, x.direction), x) else Enqueue(s, x)
    ensures Available(reg, s, x) ==> Request(reg, s, x).reply == Answer(Admit)
  {
    var domain := reg.blocks[x.block].domain;
    hide GrantsHeld, QueuesDistinct, WithinCapacity, OneDirection, QueuesShaped, GrantsShaped, Enqueue,
      Reconcile, Faulted, BaysWithin, Alone, Busy, Available, Grant, Dequeue, IsNewRequest, IsWaiting, Idle, Opened;
    var u := Enqueue(s, x);
    QueuedAlone(reg, s, x);
    IdleIs(reg, s, x);
    UndirectedIsIdle(reg, s, domain);
    LoneWaiter(reg, u, x);
    AskedWhenIdle(reg, s, x);
    BackAndForth(reg, s, u, x);
    if Available(reg, s, x) {
      GrantedIsAdmitted(reg, Opened(s, domain, x.direction), x);
    }
  }

  lemma GrantedIsAdmitted(reg: Registry, s: State, x: Reservation)
    requires x.block in reg.blocks && x.block in s.blocks && x.destination in s.bays && !s.blocks[x.block].faulted
    ensures Grant(s, x).Shaped(reg) ==> DecisionFor(reg, Grant(s, x), x.robot, x.block) == Answer(Admit)
  {
    hide State.Shaped;
  }

  lemma IdleIs(reg: Registry, s: State, x: Reservation)
    requires s.Shaped(reg) && IsNewRequest(reg, s, x) && Idle(reg, s, reg.blocks[x.block].domain)
    ensures x.block in s.waiting && x.block in s.blocks && x.destination in s.bays && x.destination in reg.bays
    ensures reg.blocks[x.block].domain in s.domains && s.domains[reg.blocks[x.block].domain] == Domain(None, false)
    ensures !Faulted(reg, s.blocks, reg.blocks[x.block].domain)
  {
  }

  lemma AskedWhenIdle(reg: Registry, s: State, x: Reservation)
    requires s.Shaped(reg) && IsNewRequest(reg, s, x) && Idle(reg, s, reg.blocks[x.block].domain)
    ensures Enqueue(s, x).Shaped(reg) && reg.blocks[x.block].domain in Enqueue(s, x).domains
    ensures var pass := Reconcile(reg, Enqueue(s, x), reg.blocks[x.block].domain);
            && Step(reg, s, Requested(x)).state == pass.state && pass.state.Shaped(reg) && !s.blocks[x.block].faulted
            && (pass.ok ==> Request(reg, s, x).reply == DecisionFor(reg, pass.state, x.robot, x.block))
  {
    EnqueueShape(reg, s, x);
    assert reg.blocks[x.block].domain in Enqueue(s, x).domains;
    ReconcileShape(reg, Enqueue(s, x), reg.blocks[x.block].domain);
    hide Reconcile, Enqueue, QueuesShaped, GrantsShaped, Registry.WellFormed, Queues.Has, Faulted;
  }

  lemma BackAndForth(reg: Registry, s: State, u: State, x: Reservation)
    requires s.Shaped(reg) && IsNewRequest(reg, s, x) && Idle(reg, s, reg.blocks[x.block].domain)
    requires u.Keyed(reg) && u == s.(waiting := u.waiting) && u == Enqueue(s, x)
    requires u.waiting[x.block] == Queues([], []).With(x.direction, [x])
    ensures Available(reg, u, x) == Available(reg, s, x)
    ensures Dequeue(Opened(u, reg.blocks[x.block].domain, x.direction), x, x.direction)
         == Opened(s, reg.blocks[x.block].domain, x.direction)
    ensures u.(domains := u.domains[reg.blocks[x.block].domain := u.domains[reg.blocks[x.block].domain].(active := None)]) == u
  {
    var domain, d := reg.blocks[x.block].domain, x.direction;
    assert reg.InDomain(x.block, domain);
    assert RemoveFirst([x], x) == [];
    assert u.waiting[x.block := u.waiting[x.block].With(d, [])] == s.waiting;
    assert u.domains[domain := Domain(None, false)] == u.domains;
  }

  lemma {:induction false} OneMoreStep(reg: Registry, s: State, es: seq<Event>, e: Event)
    requires s.Shaped(reg) && (forall i :: 0 <= i < |es| ==> Feasible(reg, es[i])) && Feasible(reg, e)
    ensures Run(reg, s, es).Shaped(reg) && forall i :: 0 <= i < |es + [e]| ==> Feasible(reg, (es + [e])[i])
    ensures Run(reg, s, es + [e]) == Step(reg, Run(reg, s, es), e).state
    decreases |es|
  {
    hide Step, State.Shaped, Feasible;
    if es == [] {
      StepShape(reg, s, e);
      assert [e][1..] == [];
    } else {
      StepShape(reg, s, es[0]);
      OneMoreStep(reg, Step(reg, s, es[0]).state, es[1..], e);
      assert (es + [e])[1..] == es[1..] + [e];
    }
  }

  // ----- The missed wake-ups ----------------------------------------------------------------------

  lemma OneInBay()
    ensures var s := MoveToBay(Initial(LANE), 11, 1);
            && s.domains.Keys == {0} && s.domains[0] == Domain(None, false)
            && s.waiting.Keys == {0} && s.waiting[0] == Queues([], []) && s.grants == map[]
            && s.blocks.Keys == {0} && s.blocks[0] == Block(map[], map[], false)
            && s.bays.Keys == {10, 11} && s.bays[10] == Bay({}, {}) && s.bays[11] == Bay({1}, {})
  {
  }

  /** Robot 1 is seen in bay 11, then robot 2 asks for it. */
  const FOLLOWING := [Occupied(11, 1), Requested(BEHIND)]

  lemma InBaySafe()
    ensures Core(LANE, MoveToBay(Initial(LANE), 11, 1)) && BaysWithin(LANE, MoveToBay(Initial(LANE), 11, 1).bays)
  {
    hide GrantsHeld, QueuesDistinct, WithinCapacity, OneDirection, State.Shaped, Registry.WellFormed, MoveToBay;
    LaneWellFormed();
    FirstInBay(LANE, 11, 1);
    OneInBay();
  }

  lemma BayIsTaken()
    ensures var s := MoveToBay(Initial(LANE), 11, 1);
            s.Shaped(LANE) && IsNewRequest(LANE, s, BEHIND) && Idle(LANE, s, 0) && !Available(LANE, s, BEHIND)
  {
    InBaySafe();
    OneInBay();
    FullIsTaken(MoveToBay(Initial(LANE), 11, 1));
    hide MoveToBay, Initial, Core, State.Shaped, Registry.WellFormed, BaysWithin, IsNewRequest, Idle, Available;
  }

  lemma FullIsTaken(s: State)
    requires s.Shaped(LANE) && s.domains[0] == Domain(None, false) && s.waiting[0] == Queues([], []) && s.grants == map[]
    requires s.blocks[0] == Block(map[], map[], false) && s.bays[11] == Bay({1}, {})
    ensures IsNewRequest(LANE, s, BEHIND) && Idle(LANE, s, 0) && !Available(LANE, s, BEHIND)
  {
    assert Rivals(s, BEHIND) == {1};
    hide QueuesShaped, GrantsShaped, Registry.WellFormed;
  }

  lemma SeenInBay(reg: Registry, h: BayId, r: RobotId)
    requires reg.WellFormed() && h in reg.bays
    ensures Initial(reg).Shaped(reg) && Step(reg, Initial(reg), Occupied(h, r)).state == MoveToBay(Initial(reg), h, r)
  {
    InitialShape(reg);
    hide MoveToBay, QueuesShaped, GrantsShaped;
  }

  lemma OneBehindIsReached()
    ensures LANE.WellFormed() && Initial(LANE).Shaped(LANE)
    ensures Run(LANE, Initial(LANE), FOLLOWING) == OneBehind()
  {
    LaneWellFormed();
    InitialShape(LANE);
    InBaySafe();
    BayIsTaken();
    SeenInBay(LANE, 11, 1);
    hide Core, Idle, Available, IsNewRequest, MoveToBay, Registry.WellFormed, Step, State.Shaped, Initial, Enqueue, Grant,
      BaysWithin;
    FirstRequest(LANE, MoveToBay(Initial(LANE), 11, 1), BEHIND);
    TwoSteps(LANE, Initial(LANE), Occupied(11, 1), Requested(BEHIND));
  }

  lemma TwoSteps(reg: Registry, s: State, e: Event, f: Event)
    requires s.Shaped(reg) && Feasible(reg, e) && Feasible(reg, f)
    ensures Step(reg, s, e).state.Shaped(reg)
    ensures forall i :: 0 <= i < 2 ==> Feasible(reg, [e, f][i])
    ensures Run(reg, s, [e, f]) == Step(reg, Step(reg, s, e).state, f).state
  {
    hide Step, State.Shaped, Feasible;
    OneMoreStep(reg, s, [], e);
    OneMoreStep(reg, s, [e], f);
    assert [] + [e] == [e] && [e] + [f] == [e, f];
  }

  // ----- Runs at the junction -----------------------------------------------------------------------

  lemma JunctionIs()
    ensures var s := Initial(JUNCTION);
            && s.domains.Keys == {0, 1} && s.domains[0] == Domain(None, false) && s.domains[1] == Domain(None, false)
            && s.waiting.Keys == {0, 1} && s.waiting[0] == Queues([], []) && s.waiting[1] == Queues([], [])
            && s.grants == map[]
            && s.blocks.Keys == {0, 1} && s.blocks[0] == Block(map[], map[], false) && s.blocks[1] == Block(map[], map[], false)
            && s.bays.Keys == {10, 11, 12} && s.bays[10] == Bay({}, {}) && s.bays[11] == Bay({}, {}) && s.bays[12] == Bay({}, {})
  {
  }

  lemma JunctionSafe()
    ensures Core(JUNCTION, Initial(JUNCTION)) && BaysWithin(JUNCTION, Initial(JUNCTION).bays)
  {
    hide Initial, GrantsHeld, QueuesDistinct, WithinCapacity, OneDirection, State.Shaped, Registry.WellFormed, BaysWithin;
    JunctionWellFormed();
    InitialCore(JUNCTION);
    InitialWithin(JUNCTION);
  }

  lemma JunctionOpen()
    ensures var s := Initial(JUNCTION);
            && s.Shaped(JUNCTION) && IsNewRequest(JUNCTION, s, ADMITTED)
            && Idle(JUNCTION, s, 0) && Available(JUNCTION, s, ADMITTED)
  {
    hide Initial, GrantsHeld, QueuesDistinct, WithinCapacity, OneDirection, QueuesShaped, GrantsShaped, Registry.WellFormed,
      BaysWithin;
    JunctionSafe();
    JunctionIs();
    assert Rivals(Initial(JUNCTION), ADMITTED) == {};
  }

  /** Robot 1 has the shared bay. */
  function OneAdmitted(): State {
    JunctionIs();
    Grant(Opened(Initial(JUNCTION), 0, AToB), ADMITTED)
  }

  lemma OneAdmittedIs()
    ensures var s := OneAdmitted();
            && s.domains.Keys == {0, 1} && s.domains[0] == Domain(Some(AToB), false) && s.domains[1] == Domain(None, false)
            && s.waiting.Keys == {0, 1} && s.waiting[0] == Queues([], []) && s.waiting[1] == Queues([], [])
            && s.grants == map[Key(1, 0) := ADMITTED]
            && s.blocks.Keys == {0, 1} && s.blocks[0] == Block(map[], map[1 := ADMITTED], false)
            && s.blocks[1] == Block(map[], map[], false)
            && s.bays.Keys == {10, 11, 12} && s.bays[10] == Bay({}, {}) && s.bays[11] == Bay({}, {1}) && s.bays[12] == Bay({}, {})
  {
    JunctionIs();
    hide Initial;
  }

  lemma FirstAdmitted()
    ensures Initial(JUNCTION).Shaped(JUNCTION)
    ensures Step(JUNCTION, Initial(JUNCTION), Requested(ADMITTED)).state == OneAdmitted()
    ensures Core(JUNCTION, OneAdmitted()) && BaysWithin(JUNCTION, OneAdmitted().bays)
  {
    JunctionSafe();
    JunctionOpen();
    hide Initial, GrantsHeld, QueuesDistinct, WithinCapacity, OneDirection, QueuesShaped, GrantsShaped, Registry.WellFormed,
      BaysWithin, Step, Grant, Available, Idle, IsNewRequest;
    FirstRequest(JUNCTION, Initial(JUNCTION), ADMITTED);
    StepKeepsCore(JUNCTION, Initial(JUNCTION), Requested(ADMITTED));
    PreludeWithinExactly(JUNCTION, Initial(JUNCTION), Requested(ADMITTED));
    StepUnchecked(JUNCTION, Initial(JUNCTION), Requested(ADMITTED));
  }

  lemma CrossingMustWait()
    ensures var s := OneAdmitted();
            s.Shaped(JUNCTION) && IsNewRequest(JUNCTION, s, CROSSING) && Idle(JUNCTION, s, 1) && !Available(JUNCTION, s, CROSSING)
  {
    FirstAdmitted();
    OneAdmittedIs();
    hide OneAdmitted, GrantsHeld, QueuesDistinct, WithinCapacity, OneDirection, QueuesShaped, GrantsShaped, Registry.WellFormed,
      BaysWithin, Step, Initial;
    assert Rivals(OneAdmitted(), CROSSING) == {1};
  }

  lemma SameEntries<V>(m: map<int, V>, n: map<int, V>, keys: set<int>)
    requires m.Keys == n.Keys == keys && forall k :: k in keys ==> m[k] == n[k]
    ensures m == n
  {
    forall k | k in m ensures k in n && m[k] == n[k] {
      assert k in m.Keys;
    }
    forall k | k in n ensures k in m {
      assert k in n.Keys;
    }
  }

  lemma QueuedAtJunction()
    ensures OneAdmitted().Keyed(JUNCTION)
    ensures var s := Enqueue(OneAdmitted(), CROSSING);
            && s == OneAdmitted().(waiting := s.waiting)
            && s.waiting.Keys == {0, 1} && s.waiting[0] == Queues([], []) && s.waiting[1] == Queues([CROSSING], [])
  {
    hide OneAdmitted, Core, BaysWithin, Step, Initial, QueuesShaped, GrantsShaped, Registry.WellFormed;
    FirstAdmitted();
    OneAdmittedIs();
    assert Robots([]) == {};
  }

  lemma WaitingAtJunction()
    ensures OneAdmitted().Keyed(JUNCTION) && Enqueue(OneAdmitted(), CROSSING) == AtJunction()
  {
    hide OneAdmitted, AtJunction, Enqueue, State.Keyed;
    QueuedAtJunction();
    OneAdmittedIs();
    AtJunctionIs();
    var s, t := Enqueue(OneAdmitted(), CROSSING), AtJunction();
    SameEntries(s.domains, t.domains, {0, 1});
    SameEntries(s.waiting, t.waiting, {0, 1});
    SameEntries(s.blocks, t.blocks, {0, 1});
    SameEntries(s.bays, t.bays, {10, 11, 12});
  }

  /** Robot 1 asks for the shared bay, then robot 2. */
  lemma AtJunctionIsReached()
    ensures JUNCTION.WellFormed() && Initial(JUNCTION).Shaped(JUNCTION)
    ensures Run(JUNCTION, Initial(JUNCTION), [Requested(ADMITTED), Requested(CROSSING)]) == AtJunction()
  {
    JunctionWellFormed();
    FirstAdmitted();
    CrossingMustWait();
    WaitingAtJunction();
    hide OneAdmitted, AtJunction, Core, Idle, Available, IsNewRequest, Registry.WellFormed, Step, State.Shaped, Initial, Enqueue,
      Grant, BaysWithin;
    FirstRequest(JUNCTION, OneAdmitted(), CROSSING);
    TwoSteps(JUNCTION, Initial(JUNCTION), Requested(ADMITTED), Requested(CROSSING));
  }

  // ----- Two robots admitted ------------------------------------------------------------------------

  /** A request to cross the second block away from the shared bay. */
  function Away(r: RobotId): Reservation {
    Reservation(r, 1, BToA, 12, None, 2)
  }

  /** Robot 1 has the shared bay, robot `r` the bay behind the second block. */
  function TwoAdmitted(r: RobotId): State {
    OneAdmittedIs();
    Grant(Opened(OneAdmitted(), 1, BToA), Away(r))
  }

  lemma TwoAdmittedIs(r: RobotId)
    ensures var s := TwoAdmitted(r);
            && s.domains.Keys == {0, 1} && s.domains[0] == Domain(Some(AToB), false) && s.domains[1] == Domain(Some(BToA), false)
            && s.waiting.Keys == {0, 1} && s.waiting[0] == Queues([], []) && s.waiting[1] == Queues([], [])
            && s.grants == map[Key(1, 0) := ADMITTED, Key(r, 1) := Away(r)]
            && s.blocks.Keys == {0, 1} && s.blocks[0] == Block(map[], map[1 := ADMITTED], false)
            && s.blocks[1] == Block(map[], map[r := Away(r)], false)
            && s.bays.Keys == {10, 11, 12} && s.bays[10] == Bay({}, {}) && s.bays[11] == Bay({}, {1}) && s.bays[12] == Bay({}, {r})
  {
    OneAdmittedIs();
    hide OneAdmitted;
  }

  lemma AwayIsOpen(r: RobotId)
    ensures var s := OneAdmitted();
            s.Shaped(JUNCTION) && IsNewRequest(JUNCTION, s, Away(r)) && Idle(JUNCTION, s, 1) && Available(JUNCTION, s, Away(r))
  {
    hide OneAdmitted, GrantsHeld, QueuesDistinct, WithinCapacity, OneDirection, QueuesShaped, GrantsShaped, Registry.WellFormed,
      BaysWithin, Step, Initial;
    FirstAdmitted();
    OneAdmittedIs();
    assert Rivals(OneAdmitted(), Away(r)) == {};
  }

  lemma SecondAdmitted(r: RobotId)
    ensures OneAdmitted().Shaped(JUNCTION) && Step(JUNCTION, OneAdmitted(), Requested(Away(r))).state == TwoAdmitted(r)
    ensures Core(JUNCTION, TwoAdmitted(r)) && BaysWithin(JUNCTION, TwoAdmitted(r).bays)
  {
    hide OneAdmitted, GrantsHeld, QueuesDistinct, WithinCapacity, OneDirection, QueuesShaped, GrantsShaped, Registry.WellFormed,
      BaysWithin, Step, Grant, Available, Idle, IsNewRequest, Initial;
    FirstAdmitted();
    AwayIsOpen(r);
    FirstRequest(JUNCTION, OneAdmitted(), Away(r));
    StepKeepsCore(JUNCTION, OneAdmitted(), Requested(Away(r)));
    PreludeWithinExactly(JUNCTION, OneAdmitted(), Requested(Away(r)));
    StepUnchecked(JUNCTION, OneAdmitted(), Requested(Away(r)));
  }

  // ----- An overfilled bay ------------------------------------------------------------------------

  /** Nothing happens in a round over settled domains. */
  lemma {:induction false} SettledRound(reg: Registry, s: State, order: seq<DomainId>)
    requires s.Shaped(reg)
    requires forall d :: d in order ==> d in s.domains && (Faulted(reg, s.blocks, d) || Settled(reg, s, d))
    ensures ReconcileEach(reg, s, order) == Pass(s, true)
    decreases |order|
  {
    hide Settled, Reconcile, QueuesShaped, GrantsShaped, Registry.WellFormed;
    if order != [] {
      assert order[0] in order;
      if !Faulted(reg, s.blocks, order[0]) {
        SettledIsFixpoint(reg, s, order[0]);
      } else {
        FaultedIsInert(reg, s, order[0]);
      }
      SettledRound(reg, s, order[1..]);
    }
  }

  lemma FaultedIsInert(reg: Registry, s: State, domain: DomainId)
    requires s.Shaped(reg) && domain in s.domains && Faulted(reg, s.blocks, domain)
    ensures Reconcile(reg, s, domain) == Pass(s, true)
  {
  }

  /** Robot 3 is inside the second block, robot 1 on its way to bay 11. */
  function OneInside(): State {
    TwoAdmittedIs(3);
    Enter(TwoAdmitted(3), Away(3))
  }

  lemma OneInsideIs()
    ensures var s := OneInside();
            && s.domains.Keys == {0, 1} && s.domains[0] == Domain(Some(AToB), false) && s.domains[1] == Domain(Some(BToA), false)
            && s.waiting.Keys == {0, 1} && s.waiting[0] == Queues([], []) && s.waiting[1] == Queues([], [])
            && s.grants == map[Key(1, 0) := ADMITTED, Key(3, 1) := Away(3)]
            && s.blocks.Keys == {0, 1} && s.blocks[0] == Block(map[], map[1 := ADMITTED], false)
            && s.blocks[1] == Block(map[3 := BToA], map[], false)
            && s.bays.Keys == {10, 11, 12} && s.bays[10] == Bay({}, {}) && s.bays[11] == Bay({}, {1}) && s.bays[12] == Bay({}, {3})
  {
    TwoAdmittedIs(3);
    hide TwoAdmitted;
  }

  lemma OneInsideCore()
    ensures TwoAdmitted(3).Shaped(JUNCTION) && Core(JUNCTION, OneInside())
    ensures Prelude(JUNCTION, TwoAdmitted(3), Entered(3, 1)) == OneInside()
    ensures Visited(JUNCTION, TwoAdmitted(3), Entered(3, 1)) == [0, 1]
  {
    SecondAdmitted(3);
    TwoAdmittedIs(3);
    hide TwoAdmitted, GrantsHeld, QueuesDistinct, WithinCapacity, OneDirection, State.Shaped, Enter, Step, BaysWithin;
    PreludeKeepsCore(JUNCTION, TwoAdmitted(3), Entered(3, 1));
  }

  lemma NobodyWaits(reg: Registry, s: State, domain: DomainId)
    requires s.Shaped(reg) && domain in s.domains && s.domains[domain].active.Some?
    requires Busy(reg, s.blocks, domain) && forall b :: reg.InDomain(b, domain) ==> s.waiting[b] == Queues([], [])
    ensures Settled(reg, s, domain)
  {
    hide Available, Busy;
  }

  lemma UsedIsBusy(reg: Registry, s: State, b: BlockId)
    requires s.Keyed(reg) && b in reg.blocks && s.blocks[b].InUse()
    ensures Busy(reg, s.blocks, reg.blocks[b].domain)
  {
  }

  lemma BusyAtJunction()
    ensures OneInside().Shaped(JUNCTION)
    ensures Busy(JUNCTION, OneInside().blocks, 0) && Busy(JUNCTION, OneInside().blocks, 1)
  {
    hide OneInside, GrantsHeld, QueuesDistinct, WithinCapacity, OneDirection, Registry.WellFormed, QueuesShaped, GrantsShaped,
      Busy, TwoAdmitted, Prelude, Visited;
    OneInsideCore();
    OneInsideIs();
    var s := OneInside();
    assert 1 in s.blocks[0].reservations && 3 in s.blocks[1].occupants;
    UsedIsBusy(JUNCTION, s, 0);
    UsedIsBusy(JUNCTION, s, 1);
  }

  lemma SettledAtJunction()
    ensures OneInside().Shaped(JUNCTION) && 0 in OneInside().domains && 1 in OneInside().domains
    ensures Settled(JUNCTION, OneInside(), 0) && Settled(JUNCTION, OneInside(), 1)
  {
    hide OneInside, Registry.WellFormed, QueuesShaped, GrantsShaped, Busy, Settled;
    OneInsideIs();
    BusyAtJunction();
    NobodyWaits(JUNCTION, OneInside(), 0);
    NobodyWaits(JUNCTION, OneInside(), 1);
  }

  lemma EnteredAtJunction()
    ensures TwoAdmitted(3).Shaped(JUNCTION)
    ensures Step(JUNCTION, TwoAdmitted(3), Entered(3, 1)).state == OneInside()
  {
    hide TwoAdmitted, OneInside, GrantsHeld, QueuesDistinct, WithinCapacity, OneDirection, State.Shaped,
      Step, Prelude, Visited, Busy, ReconcileEach, Settled;
    OneInsideCore();
    SettledAtJunction();
    StepSplits(JUNCTION, TwoAdmitted(3), Entered(3, 1));
    SettledRound(JUNCTION, OneInside(), [0, 1]);
  }

  /** Robot 2 is seen in bay 11, which is kept for robot 1. */
  function Overfilled(): State {
    OneInsideIs();
    MoveToBay(OneInside(), 11, 2)
  }

  lemma OverfilledIs()
    ensures var s := Overfilled();
            && s == OneInside().(bays := s.bays)
            && s.bays.Keys == {10, 11, 12} && s.bays[10] == Bay({}, {}) && s.bays[11] == Bay({2}, {1}) && s.bays[12] == Bay({}, {3})
  {
    OneInsideIs();
    hide OneInside;
  }

  lemma SeenInFullBay()
    ensures OneInside().Shaped(JUNCTION) && OccupyBay(JUNCTION, OneInside(), 11, 2) == Effect(Overfilled(), Done)
  {
    hide OneInside, Registry.WellFormed, QueuesShaped, GrantsShaped, MoveToBay;
    OneInsideIs();
    BusyAtJunction();
  }

  /** Two robots are admitted, one of them enters, and then a third robot is seen in the bay that is
      kept for the other. */
  const OVERFILLING := [Requested(ADMITTED), Requested(Away(3)), Entered(3, 1), Occupied(11, 2)]

  lemma OverfilledIsReached()
    ensures JUNCTION.WellFormed() && Initial(JUNCTION).Shaped(JUNCTION) && forall i :: 0 <= i < 4 ==> Feasible(JUNCTION, OVERFILLING[i])
    ensures Run(JUNCTION, Initial(JUNCTION), OVERFILLING) == Overfilled() && Core(JUNCTION, Overfilled())
  {
    hide Core, Registry.WellFormed, Step, State.Shaped, Initial, OneAdmitted, TwoAdmitted, OneInside, Overfilled, BaysWithin;
    JunctionWellFormed();
    JunctionSafe();
    FirstAdmitted();
    SecondAdmitted(3);
    EnteredAtJunction();
    SeenInFullBay();
    var a, b, c, d := Requested(ADMITTED), Requested(Away(3)), Entered(3, 1), Occupied(11, 2);
    TwoSteps(JUNCTION, Initial(JUNCTION), a, b);
    OneMoreStep(JUNCTION, Initial(JUNCTION), [a, b], c);
    OneMoreStep(JUNCTION, Initial(JUNCTION), [a, b] + [c], d);
    assert [a, b] + [c] + [d] == OVERFILLING;
    assert Step(JUNCTION, OneInside(), d) == OccupyBay(JUNCTION, OneInside(), 11, 2) by {
      SightingIs(JUNCTION, OneInside(), 11, 2);
    }
    RunKeepsCore(JUNCTION, Initial(JUNCTION), OVERFILLING);
  }

  lemma SightingIs(reg: Registry, s: State, h: BayId, r: RobotId)
    requires s.Shaped(reg)
    ensures Step(reg, s, Occupied(h, r)) == OccupyBay(reg, s, h, r)
  {
  }

  /** The sighting was accepted, and the bay now counts two robots in one place. */
  lemma SightingOverfills()
    ensures OneInside().Shaped(JUNCTION) && OccupyBay(JUNCTION, OneInside(), 11, 2) == Effect(Overfilled(), Done)
    ensures BaysWithin(JUNCTION, OneInside().bays) && !BaysWithin(JUNCTION, Overfilled().bays)
  {
    SeenInFullBay();
    OneInsideIs();
    OverfilledIs();
    hide OneInside, Overfilled, OccupyBay, State.Shaped;
    assert Overfilled().bays[11].Used() == {1, 2} && OneInside().bays[11].Used() == {1};
    assert OneInside().bays[10].Used() == {} && OneInside().bays[12].Used() == {3};
  }

  // ----- Two answers ----------------------------------------------------------------------------------

  function Strayed(): State {
    LaneIs();
    ReportUnexpected(LANE, Initial(LANE), 1, 0).state
  }

  lemma LaneIs()
    ensures LANE.WellFormed() && Initial(LANE).Shaped(LANE)
  {
    LaneWellFormed();
    InitialShape(LANE);
  }

  lemma StrayedIs()
    ensures Strayed().Keyed(LANE) && Strayed().blocks[0].faulted && 1 in Strayed().blocks[0].occupants
    ensures Strayed().grants == map[] && Strayed().bays.Keys == {10, 11}
    ensures Strayed().bays[10] == Bay({}, {}) && Strayed().bays[11] == Bay({}, {})
  {
    LaneIs();
  }

  /** Robot 1 is found in a block without a grant. A request of it for that block is answered with
      yes, and the decision is no. */
  lemma StrayHearsTwoAnswers()
    ensures LANE.WellFormed() && Initial(LANE).Shaped(LANE) && Strayed().Shaped(LANE)
    ensures Run(LANE, Initial(LANE), [SeenUnexpectedly(1, 0)]) == Strayed()
    ensures Request(LANE, Strayed(), BEHIND.(robot := 1)).reply == Answer(Admit)
    ensures DecisionFor(LANE, Strayed(), 1, 0) == Answer(Blocked)
  {
    hide Registry.WellFormed, QueuesShaped, GrantsShaped, Initial, ReportUnexpected;
    LaneIs();
    UnexpectedShape(LANE, Initial(LANE), 1, 0);
    StrayedIs();
    hide Strayed, State.Shaped;
    OneMoreStep(LANE, Initial(LANE), [], SeenUnexpectedly(1, 0));
    assert [] + [SeenUnexpectedly(1, 0)] == [SeenUnexpectedly(1, 0)];
    assert Step(LANE, Initial(LANE), SeenUnexpectedly(1, 0)).state == Strayed() by {
      StrayStep();
    }
  }

  lemma StrayStep()
    ensures Initial(LANE).Shaped(LANE) && Step(LANE, Initial(LANE), SeenUnexpectedly(1, 0)).state == Strayed()
  {
    LaneIs();
    hide ReportUnexpected, Initial, State.Shaped;
  }

  // ----- A shared bay is taken before its turn --------------------------------------------------------

  /** Robot 3 also wants the shared bay through the first block. */
  const BEHIND_ADMITTED := Reservation(3, 0, AToB, 11, Some(10), 3)

  /** Robot 1 holds both blocks, one robot waits behind it for the first and one against it for the
      second, both for the shared bay. */
  function Contested(): State {
    TwoAdmittedIs(1);
    Enqueue(CloseBatch(Enqueue(TwoAdmitted(1), BEHIND_ADMITTED), 1), CROSSING)
  }

  lemma ContestedIs()
    ensures var s := Contested();
            && s.domains.Keys == {0, 1} && s.domains[0] == Domain(Some(AToB), false) && s.domains[1] == Domain(Some(BToA), true)
            && s.waiting.Keys == {0, 1} && s.waiting[0] == Queues([BEHIND_ADMITTED], []) && s.waiting[1] == Queues([CROSSING], [])
            && s.grants == TwoAdmitted(1).grants && s.blocks == TwoAdmitted(1).blocks && s.bays == TwoAdmitted(1).bays
  {
    TwoAdmittedIs(1);
    hide TwoAdmitted;
    assert Robots([]) == {};
  }

  lemma QueuedBehind()
    ensures TwoAdmitted(1).Shaped(JUNCTION)
    ensures Step(JUNCTION, TwoAdmitted(1), Requested(BEHIND_ADMITTED)).state == Enqueue(TwoAdmitted(1), BEHIND_ADMITTED)
  {
    hide TwoAdmitted, GrantsHeld, QueuesDistinct, WithinCapacity, OneDirection, QueuesShaped, GrantsShaped, Registry.WellFormed,
      Enqueue, EnqueueAndReconcile, OneAdmitted, Initial, BaysWithin;
    SecondAdmitted(1);
    TwoAdmittedIs(1);
    assert map[1 := ADMITTED].Keys == {1};
  }

  lemma BehindIs()
    ensures var s := Enqueue(TwoAdmitted(1), BEHIND_ADMITTED);
            && s == TwoAdmitted(1).(waiting := s.waiting)
            && s.waiting.Keys == {0, 1} && s.waiting[0] == Queues([BEHIND_ADMITTED], []) && s.waiting[1] == Queues([], [])
  {
    TwoAdmittedIs(1);
    hide TwoAdmitted;
    assert Robots([]) == {};
  }

  lemma ContestedShape()
    ensures Enqueue(TwoAdmitted(1), BEHIND_ADMITTED).Shaped(JUNCTION) && Contested().Shaped(JUNCTION)
    ensures Busy(JUNCTION, Contested().blocks, 1)
  {
    hide TwoAdmitted, GrantsHeld, QueuesDistinct, WithinCapacity, OneDirection, QueuesShaped, GrantsShaped, Registry.WellFormed,
      Enqueue, OneAdmitted, Initial, BaysWithin, Busy;
    SecondAdmitted(1);
    TwoAdmittedIs(1);
    EnqueueShape(JUNCTION, TwoAdmitted(1), BEHIND_ADMITTED);
    var s := Enqueue(TwoAdmitted(1), BEHIND_ADMITTED);
    CloseBatchShape(JUNCTION, s, 1);
    EnqueueShape(JUNCTION, CloseBatch(s, 1), CROSSING);
    ContestedIs();
    assert 1 in Contested().blocks[1].reservations;
    UsedIsBusy(JUNCTION, Contested(), 1);
  }

  lemma QueuedAgainst()
    ensures Enqueue(TwoAdmitted(1), BEHIND_ADMITTED).Shaped(JUNCTION)
    ensures Step(JUNCTION, Enqueue(TwoAdmitted(1), BEHIND_ADMITTED), Requested(CROSSING)).state == Contested()
  {
    hide TwoAdmitted, GrantsHeld, QueuesDistinct, WithinCapacity, OneDirection, QueuesShaped, GrantsShaped, Registry.WellFormed,
      OneAdmitted, Initial, BaysWithin, Busy, Enqueue, Reconcile;
    ContestedShape();
    ContestedIs();
    BehindIs();
    TwoAdmittedIs(1);
    assert map[1 := Away(1)].Keys == {1};
    ClosedIsInert(JUNCTION, Contested(), 1);
  }

  /** Robot 1 asks for both blocks, robot 3 for the first and robot 2, the other way, for the second. */
  const CONTENDING := [Requested(ADMITTED), Requested(Away(1)), Requested(BEHIND_ADMITTED), Requested(CROSSING)]

  lemma ContestedIsReached()
    ensures JUNCTION.WellFormed() && Initial(JUNCTION).Shaped(JUNCTION)
    ensures forall i :: 0 <= i < 4 ==> Feasible(JUNCTION, CONTENDING[i])
    ensures Run(JUNCTION, Initial(JUNCTION), CONTENDING) == Contested()
    ensures Core(JUNCTION, Contested()) && BaysWithin(JUNCTION, Contested().bays)
  {
    hide Core, Registry.WellFormed, Step, State.Shaped, Initial, OneAdmitted, TwoAdmitted, Contested, BaysWithin, Enqueue;
    JunctionWellFormed();
    JunctionSafe();
    FirstAdmitted();
    SecondAdmitted(1);
    QueuedBehind();
    QueuedAgainst();
    ContestedIs();
    var a, b, c, d := Requested(ADMITTED), Requested(Away(1)), Requested(BEHIND_ADMITTED), Requested(CROSSING);
    TwoSteps(JUNCTION, Initial(JUNCTION), a, b);
    OneMoreStep(JUNCTION, Initial(JUNCTION), [a, b], c);
    OneMoreStep(JUNCTION, Initial(JUNCTION), [a, b] + [c], d);
    assert [a, b] + [c] + [d] == CONTENDING;
    RunKeepsCore(JUNCTION, Initial(JUNCTION), CONTENDING);
  }

  /** Robot 1 has given everything up. */
  function Deserted(): State {
    Withdraw(Contested(), 1, [0, 1])
  }

  lemma OthersStay(x: Reservation, r: RobotId)
    requires x.robot != r
    ensures WithoutRobot([x], r) == [x] && WithoutRobot([], r) == []
  {
    assert [x][1..] == [];
  }

  lemma DesertedIs()
    ensures var s := Deserted();
            && s.domains.Keys == {0, 1} && s.domains[0] == Domain(Some(AToB), false) && s.domains[1] == Domain(Some(BToA), true)
            && s.waiting.Keys == {0, 1} && s.waiting[0] == Queues([BEHIND_ADMITTED], []) && s.waiting[1] == Queues([CROSSING], [])
            && s.blocks.Keys == {0, 1} && s.blocks[0] == Block(map[], map[], false) && s.blocks[1] == Block(map[], map[], false)
            && s.bays.Keys == {10, 11, 12} && s.bays[10] == Bay({}, {}) && s.bays[11] == Bay({}, {}) && s.bays[12] == Bay({}, {})
  {
    hide Contested, TwoAdmitted, WithoutRobot;
    ContestedIs();
    TwoAdmittedIs(1);
    OthersStay(BEHIND_ADMITTED, 1);
    OthersStay(CROSSING, 1);
  }

  const DESERTION := Cancelled(1, None, [0, 1])

  lemma DesertionVisits()
    ensures Feasible(JUNCTION, DESERTION)
  {
    assert JUNCTION.InDomain(0, 0) && JUNCTION.InDomain(1, 1);
  }

  lemma DesertionIs()
    ensures Contested().Shaped(JUNCTION) && Feasible(JUNCTION, DESERTION)
    ensures Prelude(JUNCTION, Contested(), DESERTION) == Deserted() && Visited(JUNCTION, Contested(), DESERTION) == [0, 1]
    ensures Core(JUNCTION, Deserted()) && BaysWithin(JUNCTION, Deserted().bays)
  {
    hide Contested, GrantsHeld, QueuesDistinct, WithinCapacity, OneDirection, QueuesShaped, GrantsShaped, Registry.WellFormed,
      BaysWithin, Withdraw, Initial, Run, TwoAdmitted, Feasible;
    ContestedIsReached();
    DesertionVisits();
    ContestedIs();
    TwoAdmittedIs(1);
    PreludeKeepsCore(JUNCTION, Contested(), DESERTION);
    WithdrawWithin(JUNCTION, Contested(), 1, [0, 1]);
  }

  /** Robot 3 gets the shared bay. */
  function Taken(): State {
    DesertedIs();
    Grant(Dequeue(Opened(Deserted(), 0, AToB), BEHIND_ADMITTED, AToB), BEHIND_ADMITTED)
  }

  lemma TakenIs()
    ensures var s := Taken();
            && s.domains.Keys == {0, 1} && s.domains[1] == Domain(Some(BToA), true)
            && s.waiting.Keys == {0, 1} && s.waiting[1] == Queues([CROSSING], [])
            && s.blocks.Keys == {0, 1} && s.blocks[1] == Block(map[], map[], false) && !s.blocks[0].faulted
            && s.bays.Keys == {10, 11, 12} && s.bays[11] == Bay({}, {3})
  {
    DesertedIs();
    hide Deserted;
  }

  lemma EmptyIsIdle(reg: Registry, s: State, domain: DomainId)
    requires s.Keyed(reg) && forall b :: reg.InDomain(b, domain) ==> s.blocks[b] == Block(map[], map[], false)
    ensures !Faulted(reg, s.blocks, domain) && !Busy(reg, s.blocks, domain)
  {
    assert forall b :: b in reg.blocks && reg.blocks[b].domain == domain ==> reg.InDomain(b, domain);
  }

  lemma DesertedIsOpen()
    ensures Deserted().Shaped(JUNCTION) && 0 in Deserted().domains
    ensures Alone(JUNCTION, Deserted(), BEHIND_ADMITTED) && Available(JUNCTION, Deserted(), BEHIND_ADMITTED)
    ensures !Faulted(JUNCTION, Deserted().blocks, 0) && !Busy(JUNCTION, Deserted().blocks, 0)
  {
    hide Contested, Deserted, GrantsHeld, QueuesDistinct, WithinCapacity, OneDirection, QueuesShaped, GrantsShaped,
      Registry.WellFormed, BaysWithin, Faulted, Busy, Prelude, Visited, Feasible;
    DesertionIs();
    DesertedIs();
    EmptyIsIdle(JUNCTION, Deserted(), 0);
    assert Rivals(Deserted(), BEHIND_ADMITTED) == {};
  }

  lemma FirstDomainTakes()
    ensures Deserted().Shaped(JUNCTION) && 0 in Deserted().domains
    ensures Reconcile(JUNCTION, Deserted(), 0) == Pass(Taken(), true)
    ensures Core(JUNCTION, Taken()) && BaysWithin(JUNCTION, Taken().bays)
  {
    hide Contested, Deserted, GrantsHeld, QueuesDistinct, WithinCapacity, OneDirection, QueuesShaped, GrantsShaped, Available,
      Registry.WellFormed, BaysWithin, Faulted, Busy, Prelude, Visited, Feasible, Reconcile, Grant, Dequeue, Opened, Alone, Moved,
      Settled;
    DesertionIs();
    DesertedIsOpen();
    LoneWaiter(JUNCTION, Deserted(), BEHIND_ADMITTED);
    ReconcileWithin(JUNCTION, Deserted(), 0);
    ReconcileSettles(JUNCTION, Deserted(), 0);
  }

  lemma SecondDomainRests()
    ensures Taken().Shaped(JUNCTION) && 1 in Taken().domains
    ensures var t := Reconcile(JUNCTION, Taken(), 1).state; 1 in t.domains && t.domains[1].active == None
  {
    hide Taken, Deserted, GrantsHeld, QueuesDistinct, WithinCapacity, OneDirection, QueuesShaped, GrantsShaped,
      Registry.WellFormed, BaysWithin, Faulted, Busy, Reconcile, Grant;
    FirstDomainTakes();
    TakenIs();
    EmptyIsIdle(JUNCTION, Taken(), 1);
    assert Rivals(Taken(), CROSSING) == {3};
    LoneWaiter(JUNCTION, Taken(), CROSSING);
  }

  lemma DesertedIsDrained()
    ensures Deserted().Shaped(JUNCTION) && Emptied(JUNCTION, Deserted(), 1, BToA)
    ensures CROSSING in Deserted().waiting[1].Of(AToB) && Available(JUNCTION, Deserted(), CROSSING)
  {
    hide Contested, Deserted, GrantsHeld, QueuesDistinct, WithinCapacity, OneDirection, QueuesShaped, GrantsShaped,
      Registry.WellFormed, BaysWithin, Faulted, Busy, Prelude, Visited, Feasible;
    DesertionIs();
    DesertedIs();
    EmptyIsIdle(JUNCTION, Deserted(), 1);
    assert Rivals(Deserted(), CROSSING) == {};
  }

  /** When robot 1 cancels everything, the second domain has drained and robot 2 could turn it around;
      but the first domain comes first and gives the shared bay to robot 3. */
  lemma EarlierDomainTakesTheBay()
    ensures Contested().Shaped(JUNCTION) && Feasible(JUNCTION, DESERTION) && Deserted().Shaped(JUNCTION)
    ensures Prelude(JUNCTION, Contested(), DESERTION) == Deserted() && Visited(JUNCTION, Contested(), DESERTION) == [0, 1]
    ensures Emptied(JUNCTION, Deserted(), 1, BToA)
    ensures CROSSING in Deserted().waiting[1].Of(AToB) && Available(JUNCTION, Deserted(), CROSSING)
    ensures var t := Step(JUNCTION, Contested(), DESERTION).state; 1 in t.domains && t.domains[1].active == None
  {
    hide Contested, Deserted, Taken, GrantsHeld, QueuesDistinct, WithinCapacity, OneDirection, QueuesShaped, GrantsShaped,
      Registry.WellFormed, BaysWithin, Prelude, Visited, Feasible, Step, Reconcile, Emptied, Available;
    DesertionIs();
    DesertedIsDrained();
    FirstDomainTakes();
    SecondDomainRests();
    StepSplits(JUNCTION, Contested(), DESERTION);
    TwoVisits(JUNCTION, Deserted(), 0, 1);
  }

  lemma TwoVisits(reg: Registry, s: State, d: DomainId, e: DomainId)
    requires s.Shaped(reg) && d in s.domains && e in s.domains && Reconcile(reg, s, d).ok
    ensures Reconcile(reg, s, d).state.Shaped(reg) && e in Reconcile(reg, s, d).state.domains
    ensures ReconcileEach(reg, s, [d, e]) == Reconcile(reg, Reconcile(reg, s, d).state, e)
  {
    hide Reconcile, State.Shaped;
    ReconcileShape(reg, s, d);
    OneVisit(reg, Reconcile(reg, s, d).state, e);
    assert [d, e][1..] == [e];
  }

  // ----- A grant that raises ----------------------------------------------------------------------------

  /** Robots 1 and 2 share the one place of bay 11. Robot 7 waits for bay 12, in which robot 5 stands,
      and robot 2 the other way for bay 11. */
  function Jammed(): State {
    State(map[0 := Domain(None, false), 1 := Domain(None, false)],
      map[0 := Queues([], []), 1 := Queues([CROSSING], [Away(7)])], map[],
      map[0 := Block(map[], map[], false), 1 := Block(map[], map[], false)],
      map[10 := Bay({}, {}), 11 := Bay({1, 2}, {}), 12 := Bay({5}, {})])
  }

  lemma JammedIs()
    ensures var s := Jammed();
            && s.domains.Keys == {0, 1} && s.domains[0] == Domain(None, false) && s.domains[1] == Domain(None, false)
            && s.waiting.Keys == {0, 1} && s.waiting[0] == Queues([], []) && s.waiting[1] == Queues([CROSSING], [Away(7)])
            && s.grants == map[]
            && s.blocks.Keys == {0, 1} && s.blocks[0] == Block(map[], map[], false) && s.blocks[1] == Block(map[], map[], false)
            && s.bays.Keys == {10, 11, 12} && s.bays[10] == Bay({}, {}) && s.bays[11] == Bay({1, 2}, {}) && s.bays[12] == Bay({5}, {})
  {
  }

  lemma JammedOrderly(d: DomainId)
    requires Jammed().Shaped(JUNCTION) && (d == 0 || d == 1)
    ensures d in Jammed().domains && Orderly(JUNCTION, Jammed(), d)
  {
    hide Jammed, QueuesShaped, GrantsShaped, Registry.WellFormed, Busy, Faulted;
    JammedIs();
    EmptyIsIdle(JUNCTION, Jammed(), d);
  }

  lemma JammedCore()
    ensures Core(JUNCTION, Jammed()) && AllOrderly(JUNCTION, Jammed())
  {
    hide Jammed, Orderly, QueuesShaped, GrantsShaped, Registry.WellFormed, GrantsHeld, QueuesDistinct, WithinCapacity, OneDirection,
      Run, Initial;
    JammedIsReached();
    InitialCore(JUNCTION);
    RunKeepsCore(JUNCTION, Initial(JUNCTION), JAMMING);
    JammedIs();
    JammedOrderly(0);
    JammedOrderly(1);
  }

  /** Robot 5 has left. */
  function Freed(): State {
    JammedIs();
    DropFromBay(Jammed(), 12, 5)
  }

  lemma FreedIs()
    ensures Freed() == Jammed().(bays := Freed().bays)
    ensures Freed().bays.Keys == {10, 11, 12}
    ensures Freed().bays[10] == Bay({}, {}) && Freed().bays[11] == Bay({1, 2}, {}) && Freed().bays[12] == Bay({}, {})
  {
    JammedIs();
    hide Jammed;
  }

  lemma ReleaseIs()
    ensures Jammed().Shaped(JUNCTION) && Core(JUNCTION, Freed()) && !BaysWithin(JUNCTION, Freed().bays)
    ensures Prelude(JUNCTION, Jammed(), Released(12, 5)) == Freed() && Visited(JUNCTION, Jammed(), Released(12, 5)) == [0, 1]
  {
    hide Jammed, QueuesShaped, GrantsShaped, Registry.WellFormed, GrantsHeld, QueuesDistinct, WithinCapacity, OneDirection,
      DropFromBay, AllOrderly;
    JammedCore();
    FreedIs();
    PreludeKeepsCore(JUNCTION, Jammed(), Released(12, 5));
    assert Freed().bays[11].Used() == {1, 2};
  }

  lemma FreedCanGo()
    ensures Freed().Shaped(JUNCTION) && 0 in Freed().domains && 1 in Freed().domains
    ensures !Busy(JUNCTION, Freed().blocks, 0) && !Busy(JUNCTION, Freed().blocks, 1) && !Faulted(JUNCTION, Freed().blocks, 1)
    ensures Available(JUNCTION, Freed(), Away(7)) && !Available(JUNCTION, Freed(), CROSSING)
  {
    hide Jammed, Freed, GrantsHeld, QueuesDistinct, WithinCapacity, OneDirection, QueuesShaped, GrantsShaped, Registry.WellFormed,
      BaysWithin, Faulted, Busy, Prelude, Visited;
    ReleaseIs();
    FreedIs();
    JammedIs();
    EmptyIsIdle(JUNCTION, Freed(), 0);
    EmptyIsIdle(JUNCTION, Freed(), 1);
    assert Rivals(Freed(), Away(7)) == {} && Rivals(Freed(), CROSSING) == {1};
  }

  lemma FreedWaiting(d: Direction)
    ensures Freed().Shaped(JUNCTION) && NoneAvailable(JUNCTION, Freed(), 0, d)
    ensures NoneAvailable(JUNCTION, Freed(), 1, d) <==> d == AToB
    ensures HasWaiting(JUNCTION, Freed(), 1, d)
  {
    hide Jammed, Freed, QueuesShaped, GrantsShaped, Registry.WellFormed, Available, Busy, Faulted;
    FreedCanGo();
    FreedIs();
    JammedIs();
    assert JUNCTION.InDomain(1, 1) && !JUNCTION.InDomain(1, 0);
    assert CROSSING in Freed().waiting[1].Of(AToB) && Away(7) in Freed().waiting[1].Of(BToA);
  }

  lemma FreedRaises()
    ensures Freed().Shaped(JUNCTION) && 0 in Freed().domains && 1 in Freed().domains
    ensures !CanGrant(JUNCTION, Freed(), 0) && CanGrant(JUNCTION, Freed(), 1) && GrantDirection(JUNCTION, Freed(), 1) == BToA
  {
    hide Freed, QueuesShaped, GrantsShaped, Registry.WellFormed, Available, Busy, Faulted, NoneAvailable, HasWaiting, Choose;
    FreedCanGo();
    FreedWaiting(AToB);
    FreedWaiting(BToA);
    ChosenCanGo(JUNCTION, Freed(), 1);
    ChosenIsAvailable(JUNCTION, Freed(), 1);
    assert Choose(JUNCTION, Freed(), 1).value == AToB || Choose(JUNCTION, Freed(), 1).value == BToA;
  }

  /** When robot 5 leaves, robot 7 is admitted and the operation raises because of bay 11: the batch stays
      open although robot 2 waits the other way. */
  lemma RaisingLeavesBatchOpen()
    ensures Core(JUNCTION, Jammed()) && AllOrderly(JUNCTION, Jammed())
    ensures Step(JUNCTION, Jammed(), Released(12, 5)).reply == Raised(AssertionError)
    ensures var t := Step(JUNCTION, Jammed(), Released(12, 5)).state; t.Shaped(JUNCTION) && !AllOrderly(JUNCTION, t)
  {
    hide Jammed, Freed, GrantsHeld, QueuesDistinct, WithinCapacity, OneDirection, QueuesShaped, GrantsShaped,
      Registry.WellFormed, BaysWithin, Prelude, Visited, Step, CanGrant, GrantDirection, HasWaiting, Orderly, AllOrderly, NoneAvailable;
    JammedCore();
    ReleaseIs();
    FreedRaises();
    FreedWaiting(AToB);
    StepUncheckedExactly(JUNCTION, Jammed(), Released(12, 5));
    StepKeepsOrderExactly(JUNCTION, Jammed(), Released(12, 5));
    assert [0, 1][1] == 1 && 1 in [0, 1];
  }

  // ----- The run into the jam ---------------------------------------------------------------------------

  /** A request that cannot be granted, nor anybody else in its idle domain, just waits. */
  lemma HopelessRequest(reg: Registry, s: State, x: Reservation)
    requires Core(reg, s) && IsNewRequest(reg, s, x) && s.domains[reg.blocks[x.block].domain] == Domain(None, false)
    requires Enqueue(s, x).Shaped(reg)
    requires forall d :: NoneAvailable(reg, Enqueue(s, x), reg.blocks[x.block].domain, d)
    ensures Step(reg, s, Requested(x)).state == Enqueue(s, x)
  {
    var domain := reg.blocks[x.block].domain;
    hide GrantsHeld, QueuesDistinct, WithinCapacity, OneDirection, QueuesShaped, GrantsShaped, Registry.WellFormed, Queues.Has,
      Reconcile, Faulted, Busy, NoneAvailable;
    assert domain in Enqueue(s, x).domains;
    assert Step(reg, s, Requested(x)).state == Reconcile(reg, Enqueue(s, x), domain).state;
    assert Enqueue(s, x).blocks == s.blocks && Enqueue(s, x).domains == s.domains;
    hide Enqueue, Step;
    if Faulted(reg, s.blocks, domain) {
      FaultedIsInert(reg, Enqueue(s, x), domain);
    } else {
      UndirectedIsIdle(reg, s, domain);
      assert Settled(reg, Enqueue(s, x), domain);
      SettledIsFixpoint(reg, Enqueue(s, x), domain);
    }
  }

  /** A healthy domain that is empty in every respect loses its direction. */
  lemma EmptyLosesDirection(reg: Registry, s: State, domain: DomainId)
    requires Core(reg, s) && domain in s.domains && !Faulted(reg, s.blocks, domain) && !Busy(reg, s.blocks, domain)
    requires forall d :: NoneAvailable(reg, s, domain, d)
    ensures Reconcile(reg, s, domain) == Pass(s.(domains := s.domains[domain := s.domains[domain].(active := None)]), true)
  {
    hide GrantsHeld, QueuesDistinct, WithinCapacity, OneDirection, QueuesShaped, GrantsShaped, Registry.WellFormed, Choose, Faulted,
      Busy, NoneAvailable, Serve;
    NobodyChosen(reg, s, domain);
    PrepareShape(reg, s, domain);
  }

  // Robot 5 in bay 12; robot 1 admitted to bay 11; robot 7 and robot 2 queued; robot 1 inside; robot 2
  // in bay 11 as well.
  function Jam1(): State {
    JunctionIs();
    MoveToBay(Initial(JUNCTION), 12, 5)
  }

  function Jam2(): State {
    Jam1Is();
    Grant(Opened(Jam1(), 0, AToB), ADMITTED)
  }

  function Jam3(): State {
    Jam2Is();
    Enqueue(Jam2(), Away(7))
  }

  function Jam4(): State {
    Jam3Is();
    Enqueue(Jam3(), CROSSING)
  }

  function Jam5(): State {
    Jam4Is();
    LeaveSource(Enter(Jam4(), ADMITTED), ADMITTED)
  }

  function Jam6(): State {
    Jam5Is();
    MoveToBay(Jam5(), 11, 2)
  }

  lemma Jam1Is()
    ensures var s := Jam1();
            && s.domains.Keys == {0, 1} && s.domains[0] == Domain(None, false) && s.domains[1] == Domain(None, false)
            && s.waiting.Keys == {0, 1} && s.waiting[0] == Queues([], []) && s.waiting[1] == Queues([], [])
            && s.grants == map[]
            && s.blocks.Keys == {0, 1} && s.blocks[0] == Block(map[], map[], false) && s.blocks[1] == Block(map[], map[], false)
            && s.bays.Keys == {10, 11, 12} && s.bays[10] == Bay({}, {}) && s.bays[11] == Bay({}, {}) && s.bays[12] == Bay({5}, {})
  {
    JunctionIs();
    hide Initial;
  }

  lemma Jam2Is()
    ensures var s := Jam2();
            && s.domains.Keys == {0, 1} && s.domains[0] == Domain(Some(AToB), false) && s.domains[1] == Domain(None, false)
            && s.waiting.Keys == {0, 1} && s.waiting[0] == Queues([], []) && s.waiting[1] == Queues([], [])
            && s.grants == map[Key(1, 0) := ADMITTED]
            && s.blocks.Keys == {0, 1} && s.blocks[0] == Block(map[], map[1 := ADMITTED], false)
            && s.blocks[1] == Block(map[], map[], false)
            && s.bays.Keys == {10, 11, 12} && s.bays[10] == Bay({}, {}) && s.bays[11] == Bay({}, {1}) && s.bays[12] == Bay({5}, {})
  {
    Jam1Is();
    hide Jam1;
  }

  lemma Jam3Is()
    ensures var s := Jam3();
            && s == Jam2().(waiting := s.waiting)
            && s.waiting.Keys == {0, 1} && s.waiting[0] == Queues([], []) && s.waiting[1] == Queues([], [Away(7)])
  {
    Jam2Is();
    hide Jam2;
    assert Robots([]) == {};
  }

  lemma Jam4Is()
    ensures var s := Jam4();
            && s == Jam2().(waiting := s.waiting)
            && s.waiting.Keys == {0, 1} && s.waiting[0] == Queues([], []) && s.waiting[1] == Queues([CROSSING], [Away(7)])
  {
    Jam3Is();
    hide Jam2, Jam3;
    assert Robots([]) == {};
  }

  lemma Jam5Is()
    ensures var s := Jam5();
            && s.domains == Jam2().domains && s.waiting == Jam4().waiting && s.grants == Jam2().grants
            && s.blocks.Keys == {0, 1} && s.blocks[0] == Block(map[1 := AToB], map[], false)
            && s.blocks[1] == Block(map[], map[], false)
            && s.bays.Keys == {10, 11, 12} && s.bays[10] == Bay({}, {}) && s.bays[11] == Bay({}, {1}) && s.bays[12] == Bay({5}, {})
  {
    Jam2Is();
    Jam4Is();
    hide Jam2, Jam4;
  }

  lemma Jam6Is()
    ensures var s := Jam6();
            && s == Jam5().(bays := s.bays)
            && s.bays.Keys == {10, 11, 12} && s.bays[10] == Bay({}, {}) && s.bays[11] == Bay({2}, {1}) && s.bays[12] == Bay({5}, {})
  {
    Jam5Is();
    hide Jam5;
  }

  /** A step that leaves room keeps the state safe and the bays within their capacity. */
  lemma SafeStep(reg: Registry, s: State, e: Event)
    requires Core(reg, s) && BaysWithin(reg, s.bays) && Feasible(reg, e) && LeavesRoom(reg, s, e)
    ensures Core(reg, Step(reg, s, e).state) && BaysWithin(reg, Step(reg, s, e).state.bays)
  {
    hide Step, Prelude, BaysWithin, LeavesRoom, GrantsHeld, QueuesDistinct, WithinCapacity, OneDirection, State.Shaped;
    StepKeepsCore(reg, s, e);
    PreludeWithinExactly(reg, s, e);
    StepUnchecked(reg, s, e);
  }

  lemma JamStarts()
    ensures JUNCTION.WellFormed() && Initial(JUNCTION).Shaped(JUNCTION)
    ensures Step(JUNCTION, Initial(JUNCTION), Occupied(12, 5)).state == Jam1()
    ensures Core(JUNCTION, Jam1()) && BaysWithin(JUNCTION, Jam1().bays)
  {
    JunctionIs();
    assert LeavesRoom(JUNCTION, Initial(JUNCTION), Occupied(12, 5)) by {
      JunctionSafe();
      hide Initial, State.Shaped;
    }
    hide Initial, MoveToBay, GrantsHeld, QueuesDistinct, WithinCapacity, OneDirection, State.Shaped, Registry.WellFormed, BaysWithin,
      Step, LeavesRoom;
    JunctionWellFormed();
    JunctionSafe();
    SeenInBay(JUNCTION, 12, 5);
    SafeStep(JUNCTION, Initial(JUNCTION), Occupied(12, 5));
  }

  lemma FirstJamRequest()
    ensures Jam1().Shaped(JUNCTION) && IsNewRequest(JUNCTION, Jam1(), ADMITTED) && Idle(JUNCTION, Jam1(), 0)
    ensures Available(JUNCTION, Jam1(), ADMITTED)
  {
    hide Jam1, Initial, GrantsHeld, QueuesDistinct, WithinCapacity, OneDirection, QueuesShaped, GrantsShaped, Registry.WellFormed,
      BaysWithin, Step;
    JamStarts();
    Jam1Is();
    assert Rivals(Jam1(), ADMITTED) == {};
  }

  lemma JamAdmits()
    ensures Jam1().Shaped(JUNCTION) && Step(JUNCTION, Jam1(), Requested(ADMITTED)).state == Jam2()
    ensures Core(JUNCTION, Jam2()) && BaysWithin(JUNCTION, Jam2().bays)
  {
    hide Jam1, Initial, GrantsHeld, QueuesDistinct, WithinCapacity, OneDirection, QueuesShaped, GrantsShaped, Registry.WellFormed,
      BaysWithin, Step, Idle, IsNewRequest, Available, Grant;
    JamStarts();
    FirstJamRequest();
    FirstRequest(JUNCTION, Jam1(), ADMITTED);
    SafeStep(JUNCTION, Jam1(), Requested(ADMITTED));
  }

  lemma SecondJamRequest()
    ensures Jam2().Shaped(JUNCTION) && IsNewRequest(JUNCTION, Jam2(), Away(7)) && Idle(JUNCTION, Jam2(), 1)
    ensures !Available(JUNCTION, Jam2(), Away(7))
  {
    hide Jam1, Jam2, Initial, GrantsHeld, QueuesDistinct, WithinCapacity, OneDirection, QueuesShaped, GrantsShaped, Registry.WellFormed,
      BaysWithin, Step;
    JamAdmits();
    Jam2Is();
    assert Rivals(Jam2(), Away(7)) == {5};
  }

  lemma JamQueues()
    ensures Jam2().Shaped(JUNCTION) && Step(JUNCTION, Jam2(), Requested(Away(7))).state == Jam3()
    ensures Core(JUNCTION, Jam3()) && BaysWithin(JUNCTION, Jam3().bays)
  {
    hide Jam2, Initial, GrantsHeld, QueuesDistinct, WithinCapacity, OneDirection, QueuesShaped, GrantsShaped, Registry.WellFormed,
      BaysWithin, Step, Idle, IsNewRequest, Available, Enqueue, Grant;
    JamAdmits();
    SecondJamRequest();
    FirstRequest(JUNCTION, Jam2(), Away(7));
    SafeStep(JUNCTION, Jam2(), Requested(Away(7)));
  }

  lemma Jam4Shape()
    ensures Jam3().Shaped(JUNCTION) && 1 in Jam3().domains && Jam3().domains[1] == Domain(None, false)
    ensures Jam4().Shaped(JUNCTION) && IsNewRequest(JUNCTION, Jam3(), CROSSING)
    ensures Jam4().domains == Jam3().domains
  {
    hide Jam3, Initial, GrantsHeld, QueuesDistinct, WithinCapacity, OneDirection, QueuesShaped, GrantsShaped, Registry.WellFormed,
      BaysWithin, Step, Enqueue, Jam2;
    JamQueues();
    Jam2Is();
    Jam3Is();
    EnqueueShape(JUNCTION, Jam3(), CROSSING);
    assert Robots([Away(7)]) == {7};
    assert Enqueue(Jam3(), CROSSING).domains == Jam3().domains by {
      EnqueueDomains(Jam3(), CROSSING);
    }
  }

  lemma EnqueueDomains(s: State, x: Reservation)
    requires x.block in s.waiting
    ensures Enqueue(s, x).domains == s.domains
  {
  }

  lemma BothJammed()
    ensures Jam4().Shaped(JUNCTION) && !Available(JUNCTION, Jam4(), CROSSING) && !Available(JUNCTION, Jam4(), Away(7))
  {
    hide Jam2, Jam3, Jam4, Initial, GrantsHeld, QueuesDistinct, WithinCapacity, OneDirection, QueuesShaped, GrantsShaped,
      Registry.WellFormed, BaysWithin, Step, IsNewRequest;
    Jam4Shape();
    Jam2Is();
    Jam4Is();
    assert Rivals(Jam4(), CROSSING) == {1} && Rivals(Jam4(), Away(7)) == {5};
  }

  lemma NobodyInJam(d: Direction)
    ensures Jam4().Shaped(JUNCTION) && NoneAvailable(JUNCTION, Jam4(), 1, d)
  {
    hide Jam4, QueuesShaped, GrantsShaped, Registry.WellFormed, Available;
    BothJammed();
    Jam4Is();
    forall b, x | JUNCTION.InDomain(b, 1) && x in Jam4().waiting[b].Of(d) ensures x == CROSSING || x == Away(7) {
      assert b == 1;
    }
  }

  lemma JamCrosses()
    ensures Jam3().Shaped(JUNCTION) && Step(JUNCTION, Jam3(), Requested(CROSSING)).state == Jam4()
    ensures Core(JUNCTION, Jam4()) && BaysWithin(JUNCTION, Jam4().bays)
  {
    hide Jam3, Initial, GrantsHeld, QueuesDistinct, WithinCapacity, OneDirection, QueuesShaped, GrantsShaped,
      Registry.WellFormed, BaysWithin, Step, IsNewRequest, NoneAvailable, Enqueue;
    JamQueues();
    Jam4Shape();
    forall d ensures NoneAvailable(JUNCTION, Jam4(), 1, d) {
      NobodyInJam(d);
    }
    HopelessRequest(JUNCTION, Jam3(), CROSSING);
    SafeStep(JUNCTION, Jam3(), Requested(CROSSING));
  }

  lemma JamEnteredIs()
    ensures Jam4().Shaped(JUNCTION) && Core(JUNCTION, Jam5()) && BaysWithin(JUNCTION, Jam5().bays)
    ensures Prelude(JUNCTION, Jam4(), Entered(1, 0)) == Jam5() && Visited(JUNCTION, Jam4(), Entered(1, 0)) == [0, 1]
  {
    hide Jam2, Jam4, GrantsHeld, QueuesDistinct, WithinCapacity, OneDirection, QueuesShaped, GrantsShaped, Registry.WellFormed, Enter, LeaveSource,
      Step, BaysWithin, Initial;
    JamCrosses();
    Jam2Is();
    Jam4Is();
    PreludeKeepsCore(JUNCTION, Jam4(), Entered(1, 0));
    PreludeWithinExactly(JUNCTION, Jam4(), Entered(1, 0));
  }

  lemma SettledInJam(domain: DomainId)
    requires domain == 0 || domain == 1
    ensures Jam5().Shaped(JUNCTION) && domain in Jam5().domains && Settled(JUNCTION, Jam5(), domain)
  {
    hide Jam2, Jam4, Jam5, GrantsHeld, QueuesDistinct, WithinCapacity, OneDirection, QueuesShaped, GrantsShaped, Registry.WellFormed,
      BaysWithin, Prelude, Visited, Busy, Available;
    JamEnteredIs();
    Jam2Is();
    Jam4Is();
    Jam5Is();
    if domain == 0 {
      assert 1 in Jam5().blocks[0].occupants;
      UsedIsBusy(JUNCTION, Jam5(), 0);
      NobodyWaits(JUNCTION, Jam5(), 0);
    } else {
      EmptyIsIdle(JUNCTION, Jam5(), 1);
      forall d ensures NoneAvailable(JUNCTION, Jam5(), 1, d) {
        NobodyInsideJam(d);
      }
      hide NoneAvailable;
    }
  }

  lemma BothStillJammed()
    ensures Jam5().Shaped(JUNCTION) && !Available(JUNCTION, Jam5(), CROSSING) && !Available(JUNCTION, Jam5(), Away(7))
  {
    hide Jam2, Jam4, Jam5, GrantsHeld, QueuesDistinct, WithinCapacity, OneDirection, QueuesShaped, GrantsShaped,
      Registry.WellFormed, BaysWithin, Prelude, Visited;
    JamEnteredIs();
    Jam5Is();
    assert Rivals(Jam5(), CROSSING) == {1} && Rivals(Jam5(), Away(7)) == {5};
  }

  lemma NobodyInsideJam(d: Direction)
    ensures Jam5().Shaped(JUNCTION) && NoneAvailable(JUNCTION, Jam5(), 1, d)
  {
    hide Jam4, Jam5, QueuesShaped, GrantsShaped, Registry.WellFormed, Available;
    BothStillJammed();
    Jam4Is();
    Jam5Is();
    forall b, x | JUNCTION.InDomain(b, 1) && x in Jam5().waiting[b].Of(d) ensures x == CROSSING || x == Away(7) {
      assert b == 1;
    }
  }

  lemma JamEnters()
    ensures Jam4().Shaped(JUNCTION) && Step(JUNCTION, Jam4(), Entered(1, 0)).state == Jam5()
  {
    hide Jam4, Jam5, GrantsHeld, QueuesDistinct, WithinCapacity, OneDirection, QueuesShaped, GrantsShaped, Registry.WellFormed,
      Step, Prelude, Visited, Faulted, ReconcileEach, Settled, BaysWithin;
    JamEnteredIs();
    SettledInJam(0);
    SettledInJam(1);
    StepSplits(JUNCTION, Jam4(), Entered(1, 0));
    SettledRound(JUNCTION, Jam5(), [0, 1]);
  }

  lemma JamOverfills()
    ensures Jam5().Shaped(JUNCTION) && Step(JUNCTION, Jam5(), Occupied(11, 2)).state == Jam6()
    ensures Core(JUNCTION, Jam6())
  {
    hide Jam4, Jam5, GrantsHeld, QueuesDistinct, WithinCapacity, OneDirection, QueuesShaped, GrantsShaped, Registry.WellFormed,
      BaysWithin, MoveToBay, Prelude, Visited;
    JamEnteredIs();
    Jam5Is();
    StepKeepsCore(JUNCTION, Jam5(), Occupied(11, 2));
  }

  /** Robot 1 has left the first block. */
  function Jam7(): State {
    Jam6Is();
    Jam5Is();
    Jam2Is();
    Leave(Jam6(), 1, 0)
  }

  lemma Jam7Is()
    ensures var s := Jam7();
            && s.domains.Keys == {0, 1} && s.domains[0] == Domain(Some(AToB), false) && s.domains[1] == Domain(None, false)
            && s.waiting.Keys == {0, 1} && s.waiting[0] == Queues([], []) && s.waiting[1] == Queues([CROSSING], [Away(7)])
            && s.grants == map[]
            && s.blocks.Keys == {0, 1} && s.blocks[0] == Block(map[], map[], false) && s.blocks[1] == Block(map[], map[], false)
            && s.bays.Keys == {10, 11, 12} && s.bays[10] == Bay({}, {}) && s.bays[11] == Bay({1, 2}, {}) && s.bays[12] == Bay({5}, {})
  {
    Jam2Is();
    Jam4Is();
    Jam5Is();
    Jam6Is();
    hide Jam2, Jam4, Jam5, Jam6;
  }

  lemma JamExitIs()
    ensures Jam6().Shaped(JUNCTION) && Core(JUNCTION, Jam7())
    ensures Prelude(JUNCTION, Jam6(), Exited(1, 0)) == Jam7() && Visited(JUNCTION, Jam6(), Exited(1, 0)) == [0]
  {
    hide Jam5, Jam6, GrantsHeld, QueuesDistinct, WithinCapacity, OneDirection, QueuesShaped, GrantsShaped, Registry.WellFormed, Step, Leave;
    JamOverfills();
    PreludeKeepsCore(JUNCTION, Jam6(), Exited(1, 0));
  }

  lemma NobodyAtFirst(d: Direction)
    ensures Jam7().Shaped(JUNCTION) && NoneAvailable(JUNCTION, Jam7(), 0, d)
  {
    hide Jam7, Jam6, GrantsHeld, QueuesDistinct, WithinCapacity, OneDirection, QueuesShaped, GrantsShaped, Registry.WellFormed, Prelude,
      Visited, Available;
    JamExitIs();
    Jam7Is();
    assert !JUNCTION.InDomain(1, 0);
  }

  lemma JamExits()
    ensures Jam6().Shaped(JUNCTION) && Step(JUNCTION, Jam6(), Exited(1, 0)).state == Jammed()
  {
    hide Jam6, Jam7, Jammed, GrantsHeld, QueuesDistinct, WithinCapacity, OneDirection, QueuesShaped, GrantsShaped,
      Registry.WellFormed, Prelude, Visited, Step, Reconcile, ReconcileEach, NoneAvailable, Busy, Faulted;
    JamExitIs();
    Jam7Is();
    JammedIs();
    StepSplits(JUNCTION, Jam6(), Exited(1, 0));
    OneVisit(JUNCTION, Jam7(), 0);
    EmptyIsIdle(JUNCTION, Jam7(), 0);
    forall d ensures NoneAvailable(JUNCTION, Jam7(), 0, d) {
      NobodyAtFirst(d);
    }
    EmptyLosesDirection(JUNCTION, Jam7(), 0);
    var s, t := Jam7().(domains := Jam7().domains[0 := Jam7().domains[0].(active := None)]), Jammed();
    SameEntries(s.domains, t.domains, {0, 1});
    SameEntries(s.waiting, t.waiting, {0, 1});
    SameEntries(s.blocks, t.blocks, {0, 1});
    SameEntries(s.bays, t.bays, {10, 11, 12});
  }

  /** Robot 5 stands in bay 12; robot 1 is admitted; two requests wait; robot 1 crosses, and robot 2 is seen
      in the bay that was kept for robot 1 before it arrives there. */
  const JAMMING := [Occupied(12, 5), Requested(ADMITTED), Requested(Away(7)), Requested(CROSSING), Entered(1, 0),
                    Occupied(11, 2), Exited(1, 0)]

  lemma JammedIsReached()
    ensures JUNCTION.WellFormed() && Initial(JUNCTION).Shaped(JUNCTION) && forall i :: 0 <= i < 7 ==> Feasible(JUNCTION, JAMMING[i])
    ensures Run(JUNCTION, Initial(JUNCTION), JAMMING) == Jammed()
  {
    hide Core, Registry.WellFormed, Step, State.Shaped, Initial, Jam1, Jam2, Jam3, Jam4, Jam5, Jam6, Jammed, BaysWithin;
    JamStarts();
    JamAdmits();
    JamQueues();
    JamCrosses();
    JamEnters();
    JamOverfills();
    JamExits();
    var es := [Occupied(12, 5), Requested(ADMITTED)];
    TwoSteps(JUNCTION, Initial(JUNCTION), Occupied(12, 5), Requested(ADMITTED));
    OneMoreStep(JUNCTION, Initial(JUNCTION), es, Requested(Away(7)));
    OneMoreStep(JUNCTION, Initial(JUNCTION), es + [Requested(Away(7))], Requested(CROSSING));
    var fs := es + [Requested(Away(7))] + [Requested(CROSSING)];
    OneMoreStep(JUNCTION, Initial(JUNCTION), fs, Entered(1, 0));
    OneMoreStep(JUNCTION, Initial(JUNCTION), fs + [Entered(1, 0)], Occupied(11, 2));
    OneMoreStep(JUNCTION, Initial(JUNCTION), fs + [Entered(1, 0)] + [Occupied(11, 2)], Exited(1, 0));
    assert fs + [Entered(1, 0)] + [Occupied(11, 2)] + [Exited(1, 0)] == JAMMING;
  }
}
