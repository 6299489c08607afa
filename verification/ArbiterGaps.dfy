/** Where the arbiter falls short, exactly. Two operations free a place in a bay without
    looking at the other domains that share it; and a robot that holds a grant for
    a faulted block hears two different answers. */
module ArbiterGaps {
  import opened Models
  import opened ArbiterSpec
  import opened ArbiterSteps
  import opened ArbiterSafety
  import opened ArbiterProgress
  import opened ArbiterRuns
  import opened ArbiterChecks
  import opened ArbiterOrder
  import opened ArbiterWakeups

  /** But for the destination bay, the request could be granted now. */
  ghost predicate Ready(reg: Registry, s: State, x: Reservation)
    requires s.Shaped(reg)
  {
    && x.block in reg.blocks && x in s.waiting[x.block].Of(x.direction)
    && !Faulted(reg, s.blocks, reg.blocks[x.block].domain)
    && Heads(reg, s, x)
    && BlockFree(reg, s, x)
  }

  /** The domain is open for the direction of the request. */
  predicate Heads(reg: Registry, s: State, x: Reservation)
    requires s.Shaped(reg) && x.block in reg.blocks
  {
    var domain := s.domains[reg.blocks[x.block].domain];
    domain.active == None || (domain.active == Some(x.direction) && !domain.closed)
  }

  predicate BlockFree(reg: Registry, s: State, x: Reservation)
    requires s.Shaped(reg) && x.block in reg.blocks
  {
    var block := s.blocks[x.block];
    !block.faulted && |block.occupants.Keys| + |block.reservations.Keys| < reg.blocks[x.block].capacity
    && block.OneWay(x.direction)
  }

  /** The robots that stand between the request and its destination bay. */
  function Rivals(s: State, x: Reservation): set<RobotId>
    requires x.destination in s.bays
  {
    s.bays[x.destination].Used() - {x.robot}
  }

  /** A ready request for which one place is missing, while another robot leaves it. */
  ghost predicate WaitsForPlaceOf(reg: Registry, s: State, r: RobotId, x: Reservation)
    requires s.Shaped(reg)
  {
    && Ready(reg, s, x) && x.robot != r && x.destination in reg.bays
    && r in Rivals(s, x) && |Rivals(s, x)| == reg.bays[x.destination].capacity
  }

  // ----- Settled, request by request -----------------------------------------------------------

  lemma SettledByRequest(reg: Registry, s: State, t: State, domain: DomainId)
    requires s.Shaped(reg) && t.Shaped(reg) && Untouched(reg, s, t, domain)
    requires Settled(reg, s, domain) && !Faulted(reg, s.blocks, domain)
    ensures Settled(reg, t, domain) <==>
              forall x: Reservation :: reg.InDomain(x.block, domain) && Ready(reg, s, x) ==> !Available(reg, t, x)
  {
    UntouchedSame(reg, s, t, domain);
    forall d ensures HasWaiting(reg, t, domain, d) <==> HasWaiting(reg, s, domain, d) {
      SameHasWaiting(reg, s, t, domain, d);
    }
    hide Available, Busy, Faulted, HasWaiting;
    if s.domains[domain].active == None || !s.domains[domain].closed {
      forall d | s.domains[domain].active == None || s.domains[domain].active == Some(d)
        ensures NoneAvailable(reg, t, domain, d) <==>
                  forall x: Reservation :: reg.InDomain(x.block, domain) && Ready(reg, s, x) && x.direction == d ==> !Available(reg, t, x)
      {
        NoneAvailableByRequest(reg, s, t, domain, d);
      }
    }
    hide NoneAvailable, BlockFree, Untouched;
  }

  lemma SameHasWaiting(reg: Registry, s: State, t: State, domain: DomainId, d: Direction)
    requires s.Shaped(reg) && t.Shaped(reg) && Untouched(reg, s, t, domain)
    ensures HasWaiting(reg, t, domain, d) <==> HasWaiting(reg, s, domain, d)
  {
    if HasWaiting(reg, t, domain, d) {
      var b, x :| reg.InDomain(b, domain) && x in t.waiting[b].Of(d);
      assert x in s.waiting[b].Of(d);
    }
    if HasWaiting(reg, s, domain, d) {
      var b, x :| reg.InDomain(b, domain) && x in s.waiting[b].Of(d);
      assert x in t.waiting[b].Of(d);
    }
  }

  lemma NoneAvailableByRequest(reg: Registry, s: State, t: State, domain: DomainId, d: Direction)
    requires s.Shaped(reg) && t.Shaped(reg) && Untouched(reg, s, t, domain) && !Faulted(reg, s.blocks, domain)
    requires s.domains[domain].active == None || (s.domains[domain].active == Some(d) && !s.domains[domain].closed)
    ensures NoneAvailable(reg, t, domain, d) <==>
              forall x: Reservation :: reg.InDomain(x.block, domain) && Ready(reg, s, x) && x.direction == d ==> !Available(reg, t, x)
  {
    if NoneAvailable(reg, t, domain, d) {
      forall x: Reservation | reg.InDomain(x.block, domain) && Ready(reg, s, x) && x.direction == d ensures !Available(reg, t, x) {
        assert x in t.waiting[x.block].Of(d);
      }
    } else {
      var b, x :| reg.InDomain(b, domain) && x in t.waiting[b].Of(d) && Available(reg, t, x);
      assert x in s.waiting[b].Of(d);
      assert x.block == b && x.direction == d;
      assert Ready(reg, s, x);
    }
  }

  /** In a settled domain a ready request only lacks room in its bay. */
  lemma ReadyLacksPlace(reg: Registry, s: State, x: Reservation)
    requires s.Shaped(reg) && Ready(reg, s, x) && Settled(reg, s, reg.blocks[x.block].domain)
    ensures x.destination in reg.bays && |Rivals(s, x)| >= reg.bays[x.destination].capacity
  {
    assert reg.InDomain(x.block, reg.blocks[x.block].domain);
    assert !Available(reg, s, x);
  }

  lemma OneLess(a: set<RobotId>, r: RobotId)
    requires r in a
    ensures |a - {r}| == |a| - 1
  {
  }

  // ----- A robot seen in another bay --------------------------------------------------------------

  /** The robot is given up by a bay when it is seen in `h`. */
  ghost predicate Vacates(s: State, h: BayId, r: RobotId, k: BayId) {
    k in s.bays && k != h && r in s.bays[k].occupants && r !in s.bays[k].reservations
  }

  lemma MovedAvailable(reg: Registry, s: State, h: BayId, r: RobotId, x: Reservation)
    requires s.Shaped(reg) && h in reg.bays && Ready(reg, s, x) && MoveToBay(s, h, r).Shaped(reg)
    requires x.destination in reg.bays && |Rivals(s, x)| >= reg.bays[x.destination].capacity
    ensures Available(reg, MoveToBay(s, h, r), x) <==>
              WaitsForPlaceOf(reg, s, r, x) && Vacates(s, h, r, x.destination)
  {
    var t := MoveToBay(s, h, r);
    if Vacates(s, h, r, x.destination) && x.robot != r {
      assert Rivals(t, x) == Rivals(s, x) - {r};
      OneLess(Rivals(s, x), r);
    } else {
      assert Rivals(s, x) <= Rivals(t, x);
      SubsetSize(Rivals(s, x), Rivals(t, x));
    }
    hide State.Shaped, Faulted, Heads;
  }

  /** A bay sighting misses a wake-up exactly if it frees the last place that a ready
      request is waiting for. */
  lemma OccupyWakesExactly(reg: Registry, s: State, h: BayId, r: RobotId)
    requires s.Shaped(reg) && AllSettled(reg, s) && OccupyBay(reg, s, h, r).Ok()
    ensures OccupyBay(reg, s, h, r).state.Shaped(reg)
    ensures AllSettled(reg, OccupyBay(reg, s, h, r).state) <==>
              !exists x :: WaitsForPlaceOf(reg, s, r, x) && Vacates(s, h, r, x.destination)
  {
    var t := OccupyBay(reg, s, h, r).state;
    OccupyShape(reg, s, h, r);
    hide Ready, Available, Faulted, State.Shaped, MoveToBay, Vacates;
    forall x | Ready(reg, s, x)
      ensures x.block in reg.blocks && x.destination in reg.bays
      ensures Available(reg, t, x) <==> WaitsForPlaceOf(reg, s, r, x) && Vacates(s, h, r, x.destination)
    {
      ReadyDomain(reg, s, x);
      ReadyLacksPlace(reg, s, x);
      MovedAvailable(reg, s, h, r, x);
    }
    forall domain | domain in s.domains && !Faulted(reg, s.blocks, domain)
      ensures Settled(reg, t, domain) <==>
                forall x: Reservation :: reg.InDomain(x.block, domain) && Ready(reg, s, x) ==> !Available(reg, t, x)
    {
      BayMoveUntouched(reg, s, h, r, domain);
      SettledByRequest(reg, s, t, domain);
    }
    AllByRequest(reg, s, t, {});
  }

  lemma BayMoveUntouched(reg: Registry, s: State, h: BayId, r: RobotId, domain: DomainId)
    requires s.Shaped(reg) && h in s.bays && domain in s.domains
    ensures MoveToBay(s, h, r).Keyed(reg) && Untouched(reg, s, MoveToBay(s, h, r), domain)
  {
  }

  lemma ReadyDomain(reg: Registry, s: State, x: Reservation)
    requires s.Shaped(reg) && Ready(reg, s, x)
    ensures x.block in reg.blocks && reg.blocks[x.block].domain in s.domains
    ensures !Faulted(reg, s.blocks, reg.blocks[x.block].domain) && x.destination in reg.bays
  {
  }

  /** Settled all over, if the domains of `done` are and the others can be judged by requests. */
  lemma AllByRequest(reg: Registry, s: State, t: State, done: set<DomainId>)
    requires s.Shaped(reg) && t.Shaped(reg) && t.domains.Keys == s.domains.Keys
    requires forall d :: d in s.domains ==> Faulted(reg, t.blocks, d) == Faulted(reg, s.blocks, d)
    requires forall x :: Ready(reg, s, x) ==> x.block in reg.blocks && x.destination in reg.bays
    requires forall d :: d in s.domains && d in done && !Faulted(reg, s.blocks, d) ==> Settled(reg, t, d)
    requires forall d :: d in s.domains && d !in done && !Faulted(reg, s.blocks, d) ==>
               (Settled(reg, t, d) <==>
                forall x: Reservation :: reg.InDomain(x.block, d) && Ready(reg, s, x) ==> !Available(reg, t, x))
    ensures AllSettled(reg, t) <==>
              !exists x :: Ready(reg, s, x) && reg.blocks[x.block].domain !in done && Available(reg, t, x)
  {
    hide Ready, Available, Faulted, Settled, QueuesShaped, GrantsShaped, Registry.WellFormed;
    if x :| Ready(reg, s, x) && reg.blocks[x.block].domain !in done && Available(reg, t, x) {
      ReadyDomain(reg, s, x);
      assert reg.InDomain(x.block, reg.blocks[x.block].domain);
      assert !Settled(reg, t, reg.blocks[x.block].domain);
    }
  }

  /** One block between two bays of one place each. */
  const LANE := Registry(map[0 := BlockConfig(0, 10, 11, 1, {})], [0],
    map[10 := BayConfig(100, 1), 11 := BayConfig(101, 1)], [10, 11], [0], [])

  /** Robot 2 waits for the bay that robot 1 stands in. */
  const BEHIND := Reservation(2, 0, AToB, 11, Some(10), 0)

  /** An empty corridor, but for robot 1 in bay 11 and robot 2 in the queue. */
  function OneBehind(): State {
    Enqueue(MoveToBay(Initial(LANE), 11, 1), BEHIND)
  }

  lemma LaneWellFormed()
    ensures LANE.WellFormed()
  {
  }

  lemma OneBehindIs()
    ensures var s := OneBehind();
            && s.domains.Keys == {0} && s.domains[0] == Domain(None, false)
            && s.waiting.Keys == {0} && s.waiting[0] == Queues([BEHIND], [])
            && s.blocks.Keys == {0} && s.blocks[0] == Block(map[], map[], false)
            && s.bays.Keys == {10, 11} && s.bays[10] == Bay({}, {}) && s.bays[11] == Bay({1}, {})
  {
  }
  lemma FirstInBay(reg: Registry, h: BayId, r: RobotId)
    requires reg.WellFormed() && h in reg.bays
    ensures h in Initial(reg).bays && Core(reg, MoveToBay(Initial(reg), h, r))
  {
    InitialCore(reg);
    PreludeKeepsCore(reg, Initial(reg), Occupied(h, r));
    hide Core, QueuesShaped, GrantsShaped, Registry.WellFormed, MoveToBay;
  }

  lemma QueueingKeepsCore(reg: Registry, s: State, x: Reservation)
    requires Core(reg, s) && IsNewRequest(reg, s, x) && s.domains[reg.blocks[x.block].domain].active == None
    ensures Core(reg, Enqueue(s, x))
  {
    PreludeKeepsCore(reg, s, Requested(x));
    hide GrantsHeld, QueuesDistinct, WithinCapacity, OneDirection, IsNewRequest, Enqueue;
  }

  lemma OneBehindCore()
    ensures Core(LANE, OneBehind())
  {
    hide GrantsHeld, QueuesDistinct, WithinCapacity, OneDirection;
    LaneWellFormed();
    FirstInBay(LANE, 11, 1);
    QueueingKeepsCore(LANE, MoveToBay(Initial(LANE), 11, 1), BEHIND);
  }

  lemma OneBehindSettled()
    ensures OneBehind().Shaped(LANE) && AllSettled(LANE, OneBehind())
  {
    OneBehindIs();
    OneBehindCore();
    var s := OneBehind();
    hide OneBehind, QueuesShaped, GrantsShaped, Registry.WellFormed, GrantsHeld, QueuesDistinct, WithinCapacity, OneDirection;
    forall b, d, x | LANE.InDomain(b, 0) && x in s.waiting[b].Of(d) ensures !Available(LANE, s, x) {
      assert x == BEHIND && Rivals(s, x) == {1};
    }
  }

  lemma OneBehindWaits()
    ensures OneBehind().Shaped(LANE) && OccupyBay(LANE, OneBehind(), 10, 1).Ok()
    ensures WaitsForPlaceOf(LANE, OneBehind(), 1, BEHIND) && Vacates(OneBehind(), 10, 1, 11)
  {
    OneBehindIs();
    OneBehindCore();
    var s := OneBehind();
    hide OneBehind, QueuesShaped, GrantsShaped, Registry.WellFormed, GrantsHeld, QueuesDistinct, WithinCapacity,
      OneDirection, MoveToBay;
    assert Rivals(s, BEHIND) == {1};
  }

  /** The gap is real: nobody lets robot 2 go when robot 1 is seen in the other bay. */
  lemma SightingMissesOne()
    ensures var s := OneBehind(); Core(LANE, s) && AllSettled(LANE, s) && OccupyBay(LANE, s, 10, 1).Ok()
    ensures var t := OccupyBay(LANE, OneBehind(), 10, 1).state; t.Shaped(LANE) && !AllSettled(LANE, t)
  {
    hide OneBehind, State.Shaped, GrantsHeld, QueuesDistinct, WithinCapacity, OneDirection, AllSettled, OccupyBay,
      WaitsForPlaceOf, Vacates;
    OneBehindCore();
    OneBehindSettled();
    OneBehindWaits();
    OccupyWakesExactly(LANE, OneBehind(), 10, 1);
  }

  // ----- A cancelled request at one block ------------------------------------------------------------

  /** Withdrawing the grant gives up a place in the bay, and nobody takes it over. */
  ghost predicate PlaceIsLeft(s: State, t: State, r: RobotId, b: BlockId, x: Reservation)
  {
    && Key(r, b) in s.grants && s.grants[Key(r, b)].destination == x.destination
    && x.destination in s.bays && x.destination in t.bays
    && r !in s.bays[x.destination].occupants
    && Rivals(t, x) <= Rivals(s, x) - {r}
  }

  lemma WithdrawnRivals(reg: Registry, s: State, r: RobotId, b: BlockId, x: Reservation)
    requires s.Shaped(reg) && b in reg.blocks && x.destination in reg.bays
    ensures var u := Withdraw(s, r, [b]);
            && u.Keyed(reg)
            && Rivals(u, x) == if Key(r, b) in s.grants && s.grants[Key(r, b)].destination == x.destination
                                  && r !in s.bays[x.destination].occupants
                               then Rivals(s, x) - {r} else Rivals(s, x)
  {
    WithdrawShape(reg, s, r, [b]);
    hide WithoutRobot, QueuesShaped, GrantsShaped;
  }

  lemma ReadyAvailable(reg: Registry, s: State, t: State, x: Reservation)
    requires s.Shaped(reg) && t.Keyed(reg) && Ready(reg, s, x) && x.destination in reg.bays
    requires x.block in reg.blocks && t.blocks[x.block] == s.blocks[x.block]
    ensures Available(reg, t, x) <==> |Rivals(t, x)| < reg.bays[x.destination].capacity
  {
    hide Faulted, Heads, QueuesShaped, GrantsShaped, Registry.WellFormed;
  }

  lemma CancelledAvailable(reg: Registry, s: State, u: State, t: State, r: RobotId, b: BlockId, x: Reservation)
    requires s.Shaped(reg) && t.Keyed(reg) && b in reg.blocks && u == Withdraw(s, r, [b]) && u.Keyed(reg)
    requires Ready(reg, s, x) && x.block in reg.blocks && t.blocks[x.block] == s.blocks[x.block]
    requires BaysMoved(u.bays, t.bays)
    requires x.destination in reg.bays && |Rivals(s, x)| >= reg.bays[x.destination].capacity
    ensures Available(reg, t, x) <==> WaitsForPlaceOf(reg, s, r, x) && PlaceIsLeft(s, t, r, b, x)
  {
    WithdrawnRivals(reg, s, r, b, x);
    ReadyAvailable(reg, s, t, x);
    hide Withdraw, Available, Ready, PlaceIsLeft, QueuesShaped, GrantsShaped, Registry.WellFormed;
    assert Rivals(u, x) <= Rivals(t, x);
    hide Rivals, BaysMoved;
    if |Rivals(t, x)| < reg.bays[x.destination].capacity {
      RoomNeedsPlace(reg, s, u, t, r, b, x);
    } else if PlaceIsLeft(s, t, r, b, x) && r in Rivals(s, x) {
      PlaceGivesRoom(s, t, r, b, x);
    }
  }

  lemma PlaceGivesRoom(s: State, t: State, r: RobotId, b: BlockId, x: Reservation)
    requires PlaceIsLeft(s, t, r, b, x) && r in Rivals(s, x)
    ensures |Rivals(t, x)| < |Rivals(s, x)|
  {
    OneLess(Rivals(s, x), r);
    SubsetSize(Rivals(t, x), Rivals(s, x) - {r});
  }

  lemma RoomNeedsPlace(reg: Registry, s: State, u: State, t: State, r: RobotId, b: BlockId, x: Reservation)
    requires s.Keyed(reg) && t.Keyed(reg) && x.destination in reg.bays && x.destination in u.bays
    requires Rivals(u, x) <= Rivals(t, x) && |Rivals(t, x)| < reg.bays[x.destination].capacity <= |Rivals(s, x)|
    requires Rivals(u, x) == if Key(r, b) in s.grants && s.grants[Key(r, b)].destination == x.destination
                                && r !in s.bays[x.destination].occupants
                             then Rivals(s, x) - {r} else Rivals(s, x)
    ensures PlaceIsLeft(s, t, r, b, x) && r in Rivals(s, x) && r != x.robot
    ensures |Rivals(s, x)| == reg.bays[x.destination].capacity
  {
    SubsetSize(Rivals(u, x), Rivals(t, x));
    if r in Rivals(s, x) {
      OneLess(Rivals(s, x), r);
    }
    SubsetEqual(Rivals(u, x), Rivals(t, x));
  }

  lemma SubsetEqual(a: set<RobotId>, b: set<RobotId>)
    requires a <= b && |b| <= |a|
    ensures a == b
  {
    var extra := b - a;
    assert b == a + extra;
    assert |b| == |a| + |extra|;
  }

  /** The cancellation of one request, judged by its outcome: a ready request of another domain
      waits for the place, and the place is left. */
  lemma CancelWakesByOutcome(reg: Registry, s: State, r: RobotId, b: BlockId, visit: seq<DomainId>)
    requires Core(reg, s) && AllSettled(reg, s)
    requires VisitsTargets(reg, Some(b), visit) && MayCancel(reg, s, r, Some(b))
    requires Step(reg, s, Cancelled(r, Some(b), visit)).Unchecked()
    ensures var t := Step(reg, s, Cancelled(r, Some(b), visit)).state;
            && t.Shaped(reg)
            && (AllSettled(reg, t) <==>
                !exists x :: && WaitsForPlaceOf(reg, s, r, x) && PlaceIsLeft(s, t, r, b, x)
                             && !reg.InDomain(x.block, reg.blocks[b].domain))
  {
    var e := Cancelled(r, Some(b), visit);
    var u := Prelude(reg, s, e);
    var t := Step(reg, s, e).state;
    var home := reg.blocks[b].domain;
    assert b in Targets(reg, Some(b));
    StepSplits(reg, s, e);
    PreludeKeepsCore(reg, s, e);
    EachMoves(reg, u, visit);
    WithdrawShrinks(reg, s, r, [b], home);
    if !Faulted(reg, u.blocks, home) {
      EachSettles(reg, u, visit, home);
    }
    hide Step, ReconcileEach, Withdraw, Settled, Faulted, GrantsHeld, QueuesDistinct, WithinCapacity, OneDirection,
      BlocksMoved, QueuesMoved, GrantsMoved, BaysMoved, State.Shaped;
    CancelSettledByRequest(reg, s, r, b, visit, u, t);
  }

  lemma CancelFrame(reg: Registry, s: State, r: RobotId, b: BlockId, visit: seq<DomainId>, u: State, t: State)
    requires s.Shaped(reg) && u.Shaped(reg) && t.Shaped(reg) && b in reg.blocks
    requires u == Withdraw(s, r, [b]) && VisitsTargets(reg, Some(b), visit)
    requires Moved(reg, u, t, HealthyOf(reg, u.blocks, visit))
    ensures BaysMoved(u.bays, t.bays) && t.domains.Keys == s.domains.Keys
    ensures forall d :: d in s.domains ==> Faulted(reg, t.blocks, d) == Faulted(reg, s.blocks, d)
    ensures forall d :: d in s.domains && d != reg.blocks[b].domain ==> Untouched(reg, s, t, d)
  {
    hide Faulted, QueuesShaped, GrantsShaped, Registry.WellFormed, VisitsTargets, HealthyOf, Untouched,
      BlocksMoved, QueuesMoved, GrantsMoved, BaysMoved, WithoutRobot, HoldsOneTo;
    SameFaultsMoved(reg, u, t, HealthyOf(reg, u.blocks, visit));
    forall d | d in s.domains ensures Faulted(reg, t.blocks, d) == Faulted(reg, s.blocks, d) {
      WithdrawShrinks(reg, s, r, [b], d);
    }
    forall d ensures d in t.domains <==> d in s.domains {
      assert d in u.domains <==> d in s.domains;
    }
    forall d | d in s.domains && d != reg.blocks[b].domain ensures Untouched(reg, s, t, d) {
      OthersUntouched(reg, s, r, b, visit, u, t, d);
    }
  }

  lemma CancelSettledByRequest(reg: Registry, s: State, r: RobotId, b: BlockId, visit: seq<DomainId>, u: State, t: State)
    requires s.Shaped(reg) && u.Shaped(reg) && t.Shaped(reg) && AllSettled(reg, s) && b in reg.blocks
    requires u == Withdraw(s, r, [b]) && VisitsTargets(reg, Some(b), visit)
    requires Moved(reg, u, t, HealthyOf(reg, u.blocks, visit))
    requires var home := reg.blocks[b].domain; Faulted(reg, s.blocks, home) || Settled(reg, t, home)
    ensures AllSettled(reg, t) <==>
              !exists x :: && WaitsForPlaceOf(reg, s, r, x) && PlaceIsLeft(s, t, r, b, x)
                           && !reg.InDomain(x.block, reg.blocks[b].domain)
  {
    hide Ready, Available, Faulted, QueuesShaped, GrantsShaped, Registry.WellFormed, Withdraw, PlaceIsLeft, WaitsForPlaceOf,
      VisitsTargets, HealthyOf, Moved, Settled, Untouched;
    var home := reg.blocks[b].domain;
    CancelFrame(reg, s, r, b, visit, u, t);
    forall x | Ready(reg, s, x)
      ensures x.block in reg.blocks && x.destination in reg.bays
      ensures reg.blocks[x.block].domain != home ==>
                (Available(reg, t, x) <==> WaitsForPlaceOf(reg, s, r, x) && PlaceIsLeft(s, t, r, b, x))
    {
      ReadyDomain(reg, s, x);
      if reg.blocks[x.block].domain != home {
        AwayByPlace(reg, s, u, t, r, b, x);
      }
    }
    forall d | d in s.domains && d != home && !Faulted(reg, s.blocks, d)
      ensures Settled(reg, t, d) <==>
                forall x: Reservation :: reg.InDomain(x.block, d) && Ready(reg, s, x) ==> !Available(reg, t, x)
    {
      SettledByRequest(reg, s, t, d);
    }
    AllByRequest(reg, s, t, {home});
    forall x | WaitsForPlaceOf(reg, s, r, x) ensures Ready(reg, s, x) {
      WaitingIsReady(reg, s, r, x);
    }
  }

  /** The grant of the robot at the block holds the last place that a ready request of another
      domain is waiting for. */
  ghost predicate HoldsLastPlace(reg: Registry, s: State, r: RobotId, b: BlockId, x: Reservation)
    requires s.Shaped(reg) && b in reg.blocks
  {
    && WaitsForPlaceOf(reg, s, r, x) && !reg.InDomain(x.block, reg.blocks[b].domain)
    && Key(r, b) in s.grants && s.grants[Key(r, b)].destination == x.destination
    && r !in s.bays[x.destination].occupants
  }

  lemma CancelPrelude(reg: Registry, s: State, r: RobotId, b: BlockId, visit: seq<DomainId>)
    requires s.Shaped(reg) && VisitsTargets(reg, Some(b), visit) && MayCancel(reg, s, r, Some(b))
    ensures b in reg.blocks && Withdraw(s, r, [b]).Shaped(reg) && Withdraw(s, r, [b]).domains == s.domains
    ensures forall d :: d in visit ==> d == reg.blocks[b].domain && d in s.domains
    ensures Prelude(reg, s, Cancelled(r, Some(b), visit)) == Withdraw(s, r, [b])
    ensures Step(reg, s, Cancelled(r, Some(b), visit)).state == ReconcileEach(reg, Withdraw(s, r, [b]), visit).state
  {
    assert b in Targets(reg, Some(b)) && Targets(reg, Some(b)) == [b];
    WithdrawShape(reg, s, r, [b]);
    StepSplits(reg, s, Cancelled(r, Some(b), visit));
    WithdrawKeepsDomains(s, r, [b]);
    hide Step, Withdraw, ReconcileEach, QueuesShaped, GrantsShaped;
  }

  lemma WithdrawnKeepsCore(reg: Registry, s: State, r: RobotId, b: BlockId, visit: seq<DomainId>)
    requires Core(reg, s) && VisitsTargets(reg, Some(b), visit) && MayCancel(reg, s, r, Some(b))
    ensures Core(reg, Withdraw(s, r, [b]))
  {
    CancelPrelude(reg, s, r, b, visit);
    PreludeKeepsCore(reg, s, Cancelled(r, Some(b), visit));
    hide Withdraw, Prelude, GrantsHeld, QueuesDistinct, WithinCapacity, OneDirection;
  }

  lemma PlaceStaysLeft(reg: Registry, s: State, u: State, t: State, r: RobotId, b: BlockId, x: Reservation)
    requires s.Shaped(reg) && b in reg.blocks && HoldsLastPlace(reg, s, r, b, x)
    requires x.destination in u.bays && x.destination in t.bays && t.bays[x.destination] == u.bays[x.destination]
    requires Rivals(u, x) == Rivals(s, x) - {r}
    ensures PlaceIsLeft(s, t, r, b, x)
  {
    LastPlaceIs(reg, s, r, b, x);
    hide QueuesShaped, GrantsShaped, Registry.WellFormed, Ready;
  }

  /** If nobody in the domain of the cancelled request waits for its bay, the place is left. */
  lemma PlaceIsNotTaken(reg: Registry, s: State, r: RobotId, b: BlockId, visit: seq<DomainId>, x: Reservation)
    requires Core(reg, s) && b in reg.blocks && VisitsTargets(reg, Some(b), visit) && MayCancel(reg, s, r, Some(b))
    requires HoldsLastPlace(reg, s, r, b, x) && NobodyWaitsFor(reg, s, reg.blocks[b].domain, x.destination)
    ensures PlaceIsLeft(s, Step(reg, s, Cancelled(r, Some(b), visit)).state, r, b, x)
  {
    hide Step, Withdraw, ReconcileEach, GrantsHeld, QueuesDistinct, WithinCapacity, OneDirection, VisitsTargets,
      QueuesShaped, GrantsShaped, Registry.WellFormed, MayCancel, HoldsLastPlace, PlaceIsLeft, NobodyWaitsFor, Rivals,
      QueuesShrank;
    var u := Withdraw(s, r, [b]);
    var home := reg.blocks[b].domain;
    CancelPrelude(reg, s, r, b, visit);
    WithdrawnKeepsCore(reg, s, r, b, visit);
    WithdrawShrinks(reg, s, r, [b], home);
    LastPlaceIs(reg, s, r, b, x);
    WithdrawnRivals(reg, s, r, b, x);
    FewerWaitFor(reg, s, u, home, x.destination);
    EachLeavesBay(reg, u, visit, x.destination);
    PlaceStaysLeft(reg, s, u, ReconcileEach(reg, u, visit).state, r, b, x);
  }

  lemma LastPlaceIs(reg: Registry, s: State, r: RobotId, b: BlockId, x: Reservation)
    requires s.Shaped(reg) && b in reg.blocks && HoldsLastPlace(reg, s, r, b, x)
    ensures x.destination in reg.bays && Key(r, b) in s.grants && s.grants[Key(r, b)].destination == x.destination
    ensures x.destination in s.bays && r !in s.bays[x.destination].occupants
  {
    hide Ready, QueuesShaped, GrantsShaped, Registry.WellFormed;
  }

  lemma FewerWaitFor(reg: Registry, s: State, t: State, domain: DomainId, h: BayId)
    requires s.Keyed(reg) && t.Keyed(reg) && QueuesShrank(reg, s.waiting, t.waiting, domain)
    requires NobodyWaitsFor(reg, s, domain, h)
    ensures NobodyWaitsFor(reg, t, domain, h)
  {
  }

  /** The cancellation of one request can miss a wake-up only if the withdrawn grant holds the last
      place that a ready request of another domain is waiting for; and if nobody in its own domain
      waits for that bay, it misses one exactly then. */
  lemma CancelWakesExactly(reg: Registry, s: State, r: RobotId, b: BlockId, visit: seq<DomainId>)
    requires Core(reg, s) && AllSettled(reg, s) && BaysWithin(reg, s.bays)
    requires VisitsTargets(reg, Some(b), visit) && MayCancel(reg, s, r, Some(b))
    ensures Step(reg, s, Cancelled(r, Some(b), visit)).state.Shaped(reg)
    ensures !AllSettled(reg, Step(reg, s, Cancelled(r, Some(b), visit)).state) ==>
              exists x :: HoldsLastPlace(reg, s, r, b, x)
    ensures (Key(r, b) in s.grants ==> NobodyWaitsFor(reg, s, reg.blocks[b].domain, s.grants[Key(r, b)].destination)) ==>
              (!AllSettled(reg, Step(reg, s, Cancelled(r, Some(b), visit)).state) <==> exists x :: HoldsLastPlace(reg, s, r, b, x))
  {
    hide Step, Prelude, BaysWithin, AllSettled, QueuesShaped, GrantsShaped, Registry.WellFormed, GrantsHeld, QueuesDistinct,
      WithinCapacity, OneDirection, NobodyWaitsFor, WaitsForPlaceOf, MayCancel, VisitsTargets, PlaceIsLeft;
    var e := Cancelled(r, Some(b), visit);
    var t := Step(reg, s, e).state;
    PreludeWithinExactly(reg, s, e);
    StepUnchecked(reg, s, e);
    CancelPrelude(reg, s, r, b, visit);
    CancelWakesByOutcome(reg, s, r, b, visit);
    forall x | PlaceIsLeft(s, t, r, b, x) && WaitsForPlaceOf(reg, s, r, x) && !reg.InDomain(x.block, reg.blocks[b].domain)
      ensures HoldsLastPlace(reg, s, r, b, x)
    {
      LeftIsLast(reg, s, t, r, b, x);
    }
    forall x | HoldsLastPlace(reg, s, r, b, x)
      ensures WaitsForPlaceOf(reg, s, r, x) && !reg.InDomain(x.block, reg.blocks[b].domain)
      ensures Key(r, b) in s.grants && s.grants[Key(r, b)].destination == x.destination
      ensures NobodyWaitsFor(reg, s, reg.blocks[b].domain, x.destination) ==> PlaceIsLeft(s, t, r, b, x)
    {
      LastPlaceIs(reg, s, r, b, x);
      if NobodyWaitsFor(reg, s, reg.blocks[b].domain, x.destination) {
        PlaceIsNotTaken(reg, s, r, b, visit, x);
      }
    }
  }

  lemma LeftIsLast(reg: Registry, s: State, t: State, r: RobotId, b: BlockId, x: Reservation)
    requires s.Shaped(reg) && b in reg.blocks && PlaceIsLeft(s, t, r, b, x)
    requires WaitsForPlaceOf(reg, s, r, x) && !reg.InDomain(x.block, reg.blocks[b].domain)
    ensures HoldsLastPlace(reg, s, r, b, x)
  {
  }

  lemma AwayByPlace(reg: Registry, s: State, u: State, t: State, r: RobotId, b: BlockId, x: Reservation)
    requires s.Shaped(reg) && u.Keyed(reg) && t.Keyed(reg) && b in reg.blocks && u == Withdraw(s, r, [b])
    requires AllSettled(reg, s) && Ready(reg, s, x) && BaysMoved(u.bays, t.bays)
    requires x.block in reg.blocks && Untouched(reg, s, t, reg.blocks[x.block].domain)
    ensures x.destination in reg.bays
    ensures Available(reg, t, x) <==> WaitsForPlaceOf(reg, s, r, x) && PlaceIsLeft(s, t, r, b, x)
  {
    hide Ready, Available, Faulted, QueuesShaped, GrantsShaped, Registry.WellFormed, Withdraw, PlaceIsLeft, WaitsForPlaceOf,
      Settled, Untouched, BaysMoved;
    ReadyDomain(reg, s, x);
    ReadyLacksPlace(reg, s, x);
    BlockUntouched(reg, s, t, x.block);
    CancelledAvailable(reg, s, u, t, r, b, x);
  }

  lemma WaitingIsReady(reg: Registry, s: State, r: RobotId, x: Reservation)
    requires s.Shaped(reg) && WaitsForPlaceOf(reg, s, r, x)
    ensures Ready(reg, s, x)
  {
  }

  lemma BlockUntouched(reg: Registry, s: State, t: State, b: BlockId)
    requires s.Keyed(reg) && t.Keyed(reg) && b in reg.blocks && Untouched(reg, s, t, reg.blocks[b].domain)
    ensures t.blocks[b] == s.blocks[b]
  {
    assert reg.InDomain(b, reg.blocks[b].domain);
  }

  lemma OthersUntouched(reg: Registry, s: State, r: RobotId, b: BlockId, visit: seq<DomainId>, u: State, t: State, d: DomainId)
    requires s.Shaped(reg) && u.Shaped(reg) && t.Shaped(reg) && b in reg.blocks
    requires u == Withdraw(s, r, [b]) && VisitsTargets(reg, Some(b), visit)
    requires Moved(reg, u, t, HealthyOf(reg, u.blocks, visit))
    requires d in s.domains && d != reg.blocks[b].domain
    ensures Untouched(reg, s, t, d)
  {
    WithdrawShrinks(reg, s, r, [b], d);
    assert d !in visit;
    assert d !in HealthyOf(reg, u.blocks, visit);
    MovedUntouched(reg, u, t, HealthyOf(reg, u.blocks, visit), d);
    hide Withdraw, BlocksMoved, QueuesMoved, GrantsMoved, BaysMoved, HealthyOf;
  }

  /** With nobody waiting in the domain of the cancelled request, no check can fail and the
      place is not taken over. */
  lemma QuietHomeLeavesBays(reg: Registry, s: State, domain: DomainId)
    requires s.Shaped(reg) && domain in s.domains && forall d :: !HasWaiting(reg, s, domain, d)
    ensures Reconcile(reg, s, domain).ok && Reconcile(reg, s, domain).state.bays == s.bays
  {
    hide Collect, SortByTime, Faulted, Choose, QueuesShaped, GrantsShaped, Registry.WellFormed, HasWaiting, Busy;
    CollectedItems(reg, s, domain);
    PrepareShape(reg, s, domain);
    var p := Prepare(reg, s, domain);
    forall d ensures DomainWaiting(reg, p, domain, d) == [] {
      WaitingAsBefore(reg, s, p, domain, d);
      NobodyCollected(reg, p, domain, d);
    }
  }

  lemma QuietHomeLeavesPlace(reg: Registry, s: State, r: RobotId, b: BlockId, x: Reservation)
    requires s.Shaped(reg) && MayCancel(reg, s, r, Some(b)) && b in reg.blocks && Key(r, b) in s.grants
    requires x.destination == s.grants[Key(r, b)].destination && x.destination in reg.bays
    requires r !in s.bays[x.destination].occupants
    requires forall d :: !HasWaiting(reg, s, reg.blocks[b].domain, d)
    ensures VisitsTargets(reg, Some(b), [reg.blocks[b].domain])
    ensures var e := Step(reg, s, Cancelled(r, Some(b), [reg.blocks[b].domain]));
            e.Unchecked() && e.state.Shaped(reg) && PlaceIsLeft(s, e.state, r, b, x)
  {
    var home := reg.blocks[b].domain;
    var u := Withdraw(s, r, [b]);
    assert reg.InDomain(b, home);
    WithdrawShape(reg, s, r, [b]);
    WithdrawnRivals(reg, s, r, b, x);
    WithdrawShrinks(reg, s, r, [b], home);
    hide Withdraw, Reconcile, QueuesShaped, GrantsShaped, Registry.WellFormed, Faulted, MayCancel, VisitsTargets, HasWaiting,
      QueuesShrank, Untouched, Step;
    forall d ensures !HasWaiting(reg, u, home, d) {
      FewerWaiting(reg, s, u, home, d);
    }
    CancelIsOneVisit(reg, s, r, b);
    QuietHomeLeavesBays(reg, u, home);
  }

  lemma CancelIsOneVisit(reg: Registry, s: State, r: RobotId, b: BlockId)
    requires s.Shaped(reg) && MayCancel(reg, s, r, Some(b)) && b in reg.blocks
    ensures VisitsTargets(reg, Some(b), [reg.blocks[b].domain])
    ensures Withdraw(s, r, [b]).Shaped(reg) && reg.blocks[b].domain in Withdraw(s, r, [b]).domains
    ensures var e := Step(reg, s, Cancelled(r, Some(b), [reg.blocks[b].domain]));
            var pass := Reconcile(reg, Withdraw(s, r, [b]), reg.blocks[b].domain);
            e.state == pass.state && e.state.Shaped(reg) && (pass.ok ==> e.Unchecked())
  {
    hide ReconcileEach, Reconcile, QueuesShaped, GrantsShaped, Withdraw, HasRequest;
    var home := reg.blocks[b].domain;
    assert reg.InDomain(b, home) && Targets(reg, Some(b)) == [b];
    WithdrawShape(reg, s, r, [b]);
    WithdrawKeepsDomains(s, r, [b]);
    OneVisit(reg, Withdraw(s, r, [b]), home);
  }

  lemma WithdrawKeepsDomains(s: State, r: RobotId, targets: seq<BlockId>)
    ensures Withdraw(s, r, targets).domains == s.domains
  {
  }

  lemma OneVisit(reg: Registry, s: State, domain: DomainId)
    requires s.Shaped(reg) && domain in s.domains
    ensures ReconcileEach(reg, s, [domain]) == Reconcile(reg, s, domain)
    ensures Reconcile(reg, s, domain).state.Shaped(reg)
  {
    ReconcileShape(reg, s, domain);
    hide Reconcile, State.Shaped;
  }

  lemma FewerWaiting(reg: Registry, s: State, t: State, domain: DomainId, d: Direction)
    requires s.Shaped(reg) && t.Shaped(reg) && QueuesShrank(reg, s.waiting, t.waiting, domain)
    ensures HasWaiting(reg, t, domain, d) ==> HasWaiting(reg, s, domain, d)
  {
  }

  lemma WaitingAsBefore(reg: Registry, s: State, t: State, domain: DomainId, d: Direction)
    requires s.Shaped(reg) && t.Shaped(reg) && t.waiting == s.waiting
    ensures HasWaiting(reg, t, domain, d) <==> HasWaiting(reg, s, domain, d)
  {
  }

  lemma SomebodyCollected(reg: Registry, s: State, domain: DomainId, d: Direction)
    requires s.Shaped(reg) && DomainWaiting(reg, s, domain, d) != []
    ensures HasWaiting(reg, s, domain, d)
  {
    CollectedItems(reg, s, domain);
    var x := DomainWaiting(reg, s, domain, d)[0];
    hide DomainWaiting;
    assert x in DomainWaiting(reg, s, domain, d);
    assert reg.InDomain(x.block, domain) && x in s.waiting[x.block].Of(d);
  }

  lemma NobodyCollected(reg: Registry, s: State, domain: DomainId, d: Direction)
    requires s.Shaped(reg) && !HasWaiting(reg, s, domain, d)
    ensures DomainWaiting(reg, s, domain, d) == []
  {
    if DomainWaiting(reg, s, domain, d) != [] {
      SomebodyCollected(reg, s, domain, d);
      assert false;
    }
  }

  /** Two blocks of different domains that share bay 11. */
  const JUNCTION := Registry(map[0 := BlockConfig(0, 10, 11, 1, {}), 1 := BlockConfig(1, 12, 11, 1, {})], [0, 1],
    map[10 := BayConfig(100, 1), 11 := BayConfig(101, 1), 12 := BayConfig(102, 1)], [10, 11, 12], [0, 1],
    [Route({100}, {101}, [RouteStep(0, AToB, 11, 101, Some(10))]), Route({101}, {102}, [RouteStep(1, BToA, 12, 102, Some(11))])])

  const ADMITTED := Reservation(1, 0, AToB, 11, Some(10), 0)
  const CROSSING := Reservation(2, 1, AToB, 11, Some(12), 1)

  /** Robot 1 holds the only place of the shared bay, robot 2 waits for it. */
  function AtJunction(): State {
    State(map[0 := Domain(Some(AToB), false), 1 := Domain(None, false)],
      map[0 := Queues([], []), 1 := Queues([CROSSING], [])],
      map[Key(1, 0) := ADMITTED],
      map[0 := Block(map[], map[1 := ADMITTED], false), 1 := Block(map[], map[], false)],
      map[10 := Bay({}, {}), 11 := Bay({}, {1}), 12 := Bay({}, {})])
  }

  lemma JunctionWellFormed()
    ensures JUNCTION.WellFormed()
  {
  }

  lemma AtJunctionKeyed()
    ensures AtJunction().Keyed(JUNCTION) && forall d :: d in AtJunction().domains <==> d in JUNCTION.domainOrder
  {
  }

  lemma AtJunctionQueues()
    ensures QueuesShaped(JUNCTION, AtJunction().waiting) && GrantsShaped(JUNCTION, AtJunction().grants)
  {
  }

  lemma AtJunctionHeld()
    ensures GrantsHeld(AtJunction().blocks, AtJunction().grants)
  {
  }

  lemma AtJunctionDistinct()
    ensures QueuesDistinct(AtJunction().waiting, AtJunction().blocks, AtJunction().grants)
  {
  }

  lemma AtJunctionBounded()
    ensures WithinCapacity(JUNCTION, AtJunction().blocks)
  {
  }

  lemma AtJunctionDirected()
    ensures AtJunction().Keyed(JUNCTION)
    ensures OneDirection(JUNCTION, AtJunction().domains, AtJunction().blocks, AtJunction().grants)
  {
  }

  lemma AtJunctionCore()
    ensures Core(JUNCTION, AtJunction())
  {
    hide AtJunction, Registry.WellFormed, GrantsHeld, QueuesDistinct, WithinCapacity, OneDirection, QueuesShaped, GrantsShaped,
      State.Keyed;
    JunctionWellFormed();
    AtJunctionKeyed();
    AtJunctionQueues();
    AtJunctionHeld();
    AtJunctionDistinct();
    AtJunctionBounded();
    AtJunctionDirected();
  }

  lemma AtJunctionHealthy(d: DomainId)
    requires d == 0 || d == 1
    ensures AtJunction().Keyed(JUNCTION)
    ensures !Faulted(JUNCTION, AtJunction().blocks, d) && (Busy(JUNCTION, AtJunction().blocks, d) <==> d == 0)
  {
    assert JUNCTION.blocks[0].domain == 0 && AtJunction().blocks[0].reservations[1] == ADMITTED;
  }

  lemma AtJunctionIs()
    ensures var s := AtJunction();
            && s.domains.Keys == {0, 1} && s.domains[0] == Domain(Some(AToB), false) && s.domains[1] == Domain(None, false)
            && s.waiting.Keys == {0, 1} && s.waiting[0] == Queues([], []) && s.waiting[1] == Queues([CROSSING], [])
            && s.blocks.Keys == {0, 1} && s.blocks[0] == Block(map[], map[1 := ADMITTED], false)
            && s.blocks[1] == Block(map[], map[], false)
            && s.grants == map[Key(1, 0) := ADMITTED]
            && s.bays.Keys == {10, 11, 12} && s.bays[10] == Bay({}, {}) && s.bays[11] == Bay({}, {1}) && s.bays[12] == Bay({}, {})
  {
  }

  /** Nobody waits at block 0; at block 1, robot 2 waits for a bay without room. */
  lemma WaitsAtJunction(b: BlockId, d: Direction, x: Reservation)
    requires b in JUNCTION.blocks
    ensures AtJunction().Shaped(JUNCTION)
    ensures x in AtJunction().waiting[b].Of(d) <==> b == 1 && d == AToB && x == CROSSING
    ensures Rivals(AtJunction(), CROSSING) == {1}
  {
    AtJunctionCore();
    AtJunctionIs();
    hide AtJunction, QueuesShaped, GrantsShaped, Registry.WellFormed, GrantsHeld, QueuesDistinct, WithinCapacity, OneDirection;
  }

  lemma NoneAvailableAtJunction(domain: DomainId, d: Direction)
    ensures AtJunction().Shaped(JUNCTION) && NoneAvailable(JUNCTION, AtJunction(), domain, d)
    ensures HasWaiting(JUNCTION, AtJunction(), domain, d) ==> domain == 1 && d == AToB
  {
    hide AtJunction, QueuesShaped, GrantsShaped, Registry.WellFormed, GrantsHeld, QueuesDistinct, WithinCapacity, OneDirection;
    WaitsAtJunction(1, AToB, CROSSING);
    forall b, x | JUNCTION.InDomain(b, domain) && x in AtJunction().waiting[b].Of(d)
      ensures b == 1 && d == AToB && x == CROSSING
    {
      WaitsAtJunction(b, d, x);
    }
  }

  lemma AtJunctionSettled(domain: DomainId)
    requires domain == 0 || domain == 1
    ensures AtJunction().Shaped(JUNCTION) && domain in AtJunction().domains && Settled(JUNCTION, AtJunction(), domain)
  {
    hide AtJunction, QueuesShaped, GrantsShaped, Registry.WellFormed, GrantsHeld, QueuesDistinct, WithinCapacity, OneDirection,
      NoneAvailable, HasWaiting, Busy, Faulted;
    AtJunctionHealthy(domain);
    AtJunctionIs();
    NoneAvailableAtJunction(domain, AToB);
    NoneAvailableAtJunction(domain, BToA);
  }

  lemma AtJunctionWaits()
    ensures AtJunction().Shaped(JUNCTION) && WaitsForPlaceOf(JUNCTION, AtJunction(), 1, CROSSING)
    ensures MayCancel(JUNCTION, AtJunction(), 1, Some(0))
  {
    hide AtJunction, QueuesShaped, GrantsShaped, Registry.WellFormed, GrantsHeld, QueuesDistinct, WithinCapacity, OneDirection,
      Busy, Faulted, Rivals;
    AtJunctionHealthy(1);
    AtJunctionIs();
    WaitsAtJunction(1, AToB, CROSSING);
  }

  lemma PlaceLeftAtJunction()
    ensures AtJunction().Shaped(JUNCTION) && VisitsTargets(JUNCTION, Some(0), [0])
    ensures var e := Step(JUNCTION, AtJunction(), Cancelled(1, Some(0), [0]));
            e.Unchecked() && e.state.Shaped(JUNCTION) && PlaceIsLeft(AtJunction(), e.state, 1, 0, CROSSING)
  {
    hide AtJunction, QueuesShaped, GrantsShaped, Registry.WellFormed, GrantsHeld, QueuesDistinct, WithinCapacity, OneDirection,
      HasWaiting, NoneAvailable, MayCancel, WaitsForPlaceOf, PlaceIsLeft, Step;
    AtJunctionCore();
    AtJunctionWaits();
    AtJunctionIs();
    assert JUNCTION.blocks[0].domain == 0;
    forall d ensures !HasWaiting(JUNCTION, AtJunction(), 0, d) {
      NoneAvailableAtJunction(0, d);
    }
    QuietHomeLeavesPlace(JUNCTION, AtJunction(), 1, 0, CROSSING);
  }

  /** The gap is real: when robot 1 gives up its grant, nobody lets robot 2 go. */
  lemma CancelMissesOne()
    ensures var s := AtJunction(); Core(JUNCTION, s) && AllSettled(JUNCTION, s) && VisitsTargets(JUNCTION, Some(0), [0])
    ensures var t := Step(JUNCTION, AtJunction(), Cancelled(1, Some(0), [0])).state; t.Shaped(JUNCTION) && !AllSettled(JUNCTION, t)
  {
    hide AtJunction, State.Shaped, GrantsHeld, QueuesDistinct, WithinCapacity, OneDirection, Settled, Step, VisitsTargets,
      WaitsForPlaceOf, PlaceIsLeft, MayCancel;
    AtJunctionCore();
    AtJunctionIs();
    AtJunctionSettled(0);
    AtJunctionSettled(1);
    AtJunctionWaits();
    PlaceLeftAtJunction();
    CancelWakesByOutcome(JUNCTION, AtJunction(), 1, 0, [0]);
  }

  // ----- Two answers --------------------------------------------------------------------------------

  /** What a request answers is what asking for the decision afterwards answers, except
      exactly for a robot that is admitted to, or in, a faulted block: the request says
      that it may go, the decision that it may not. */
  lemma AnswersDisagreeExactly(reg: Registry, s: State, x: Reservation)
    requires s.Shaped(reg) && x.block in reg.blocks && x.destination in reg.bays
    requires Request(reg, s, x).Ok()
    ensures Request(reg, s, x).state.Shaped(reg)
    ensures var e := Request(reg, s, x);
            e.reply != DecisionFor(reg, e.state, x.robot, x.block) <==>
              s.blocks[x.block].faulted && (Key(x.robot, x.block) in s.grants || x.robot in s.blocks[x.block].occupants)
  {
    RequestShape(reg, s, x);
    hide Reconcile, QueuesShaped, GrantsShaped, Registry.WellFormed, Available, ChecksPass, IsWaiting;
  }
}
