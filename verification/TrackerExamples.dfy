/** Two exits after which tracker and arbiter disagree about who is inside. */
module TrackerExamples {
  import opened Models
  import opened ArbiterSpec
  import opened ArbiterSteps
  import opened ArbiterSafety
  import opened ArbiterProgress
  import opened ArbiterRuns
  import opened ArbiterChecks
  import opened ArbiterGuarantees
  import opened ArbiterScene
  import opened ArbiterGaps
  import opened Examples
  import opened GateSpec
  import opened TrackerAgreement

  // ----- Inputs of the system ---------------------------------------------------------------------------

  lemma OneMoreInput(cfg: Config, inputs: seq<Input>, s: System, i: Input)
    requires cfg.reg.WellFormed() && Reaches(cfg, inputs, s) && s.arbiter.Shaped(cfg.reg) && Possible(cfg, s, i)
    ensures Reaches(cfg, inputs + [i], Next(cfg, s, i).system)
  {
    hide Next, State.Shaped, Registry.WellFormed, Possible;
    var more := inputs + [i];
    assert more[..|more| - 1] == inputs && more[|more| - 1] == i;
  }

  /** A robot outside every block is seen in a bay. */
  lemma BaySighting(reg: Registry, s: System, rep: Report, t: State)
    requires s.arbiter.Shaped(reg) && BlockOf(s.robots, rep.robot).None? && SeenBlock(rep).None? && SeenBay(rep).Some?
    requires OccupyBay(reg, s.arbiter, SeenBay(rep).value, rep.robot) == Effect(t, Done)
    ensures Ingest(reg, s, rep)
         == Response(s.(arbiter := t, robots := s.robots[rep.robot := TelemetryAfter(s.robots, rep)]), Okay)
  {
    hide State.Shaped, OccupyBay;
  }

  /** A robot outside every block is seen in a block. */
  lemma BlockSighting(reg: Registry, s: System, rep: Report, t: State)
    requires s.arbiter.Shaped(reg) && BlockOf(s.robots, rep.robot).None? && SeenBlock(rep).Some?
    requires SeenInside(reg, s.arbiter, rep.robot, SeenBlock(rep).value) == Effect(t, Done)
    ensures Ingest(reg, s, rep)
         == Response(s.(arbiter := t, robots := s.robots[rep.robot := TelemetryAfter(s.robots, rep)]), Okay)
  {
    hide State.Shaped, SeenInside;
  }

  /** A robot is given a job whose first step is admitted and accepted. */
  lemma AcceptedSubmission(cfg: Config, s: System, r: RobotId, goal: NodeId, time: int, route: Route, t: State)
    requires s.arbiter.Shaped(cfg.reg) && cfg.enabled && SafeNode(cfg.reg, s.robots, r).Some?
    requires ResolveRoute(cfg.reg.routes, SafeNode(cfg.reg, s.robots, r).value, goal) == Some(route)
    requires !OpenJob(s.jobs, r) && route.steps != [] && route.steps[0].block in cfg.reg.blocks
    requires DecisionFor(cfg.reg, s.arbiter, r, route.steps[0].block) == Answer(Wait)
    requires var step := route.steps[0];
             Request(cfg.reg, s.arbiter, Reservation(r, step.block, step.direction, step.destination, step.source, time))
             == Effect(t, Answer(Admit))
    ensures Submit(cfg, s, r, goal, Luck(time, Accepted)).system
         == s.(arbiter := t, jobs := s.jobs + [Job(r, route.steps, 0, ACTIVE)],
               log := s.log + [Forward(|s.jobs|, 0, route.steps[0].goal, Accepted, t)])
  {
    hide State.Shaped, DecisionFor, Request, SafeNode, ResolveRoute, OpenJob;
    var jobs := s.jobs + [Job(r, route.steps, 0, WAITING)];
    assert jobs[|s.jobs| := Job(r, route.steps, 0, ACTIVE)] == s.jobs + [Job(r, route.steps, 0, ACTIVE)];
    RequestShape(cfg.reg, s.arbiter, ForStep(Job(r, route.steps, 0, WAITING), time));
  }

  // ----- An overfilled bay ------------------------------------------------------------------------------

  const RETURNING := Reservation(3, 1, BToA, 12, Some(11), 0)

  // Robot 3 in bay 11; admitted to the second block; inside it; robot 1 in bay 10; admitted to the first
  // block; robot 2 in bay 11.
  function Crowd1(): State {
    JunctionIs();
    MoveToBay(Initial(JUNCTION), 11, 3)
  }

  function Crowd2(): State {
    Crowd1Is();
    Grant(Opened(Crowd1(), 1, BToA), RETURNING)
  }

  function Crowd3(): State {
    Crowd2Is();
    LeaveSource(Enter(Crowd2(), RETURNING), RETURNING)
  }

  function Crowd4(): State {
    Crowd3Is();
    MoveToBay(Crowd3(), 10, 1)
  }

  function Crowd5(): State {
    Crowd4Is();
    Grant(Opened(Crowd4(), 0, AToB), ADMITTED)
  }

  function Crowd6(): State {
    Crowd5Is();
    MoveToBay(Crowd5(), 11, 2)
  }

  lemma Crowd1Is()
    ensures var s := Crowd1();
            && s.domains.Keys == {0, 1} && s.domains[0] == Domain(None, false) && s.domains[1] == Domain(None, false)
            && s.waiting.Keys == {0, 1} && s.waiting[0] == Queues([], []) && s.waiting[1] == Queues([], [])
            && s.grants == map[]
            && s.blocks.Keys == {0, 1} && s.blocks[0] == Block(map[], map[], false)
            && s.blocks[1] == Block(map[], map[], false)
            && s.bays.Keys == {10, 11, 12} && s.bays[10] == Bay({}, {}) && s.bays[11] == Bay({3}, {}) && s.bays[12] == Bay({}, {})
  {
    JunctionIs();
    hide Initial;
  }

  lemma Crowd2Is()
    ensures var s := Crowd2();
            && s.domains.Keys == {0, 1} && s.domains[0] == Domain(None, false) && s.domains[1] == Domain(Some(BToA), false)
            && s.waiting.Keys == {0, 1} && s.waiting[0] == Queues([], []) && s.waiting[1] == Queues([], [])
            && s.grants == map[Key(3, 1) := RETURNING]
            && s.blocks.Keys == {0, 1} && s.blocks[0] == Block(map[], map[], false)
            && s.blocks[1] == Block(map[], map[3 := RETURNING], false)
            && s.bays.Keys == {10, 11, 12} && s.bays[10] == Bay({}, {}) && s.bays[11] == Bay({3}, {}) && s.bays[12] == Bay({}, {3})
  {
    Crowd1Is();
    hide Crowd1;
  }

  lemma Crowd3Is()
    ensures var s := Crowd3();
            && s.domains.Keys == {0, 1} && s.domains[0] == Domain(None, false) && s.domains[1] == Domain(Some(BToA), false)
            && s.waiting.Keys == {0, 1} && s.waiting[0] == Queues([], []) && s.waiting[1] == Queues([], [])
            && s.grants == map[Key(3, 1) := RETURNING]
            && s.blocks.Keys == {0, 1} && s.blocks[0] == Block(map[], map[], false)
            && s.blocks[1] == Block(map[3 := BToA], map[], false)
            && s.bays.Keys == {10, 11, 12} && s.bays[10] == Bay({}, {}) && s.bays[11] == Bay({}, {}) && s.bays[12] == Bay({}, {3})
  {
    Crowd2Is();
    hide Crowd2;
  }

  lemma Crowd4Is()
    ensures var s := Crowd4();
            && s.domains.Keys == {0, 1} && s.domains[0] == Domain(None, false) && s.domains[1] == Domain(Some(BToA), false)
            && s.waiting.Keys == {0, 1} && s.waiting[0] == Queues([], []) && s.waiting[1] == Queues([], [])
            && s.grants == map[Key(3, 1) := RETURNING]
            && s.blocks.Keys == {0, 1} && s.blocks[0] == Block(map[], map[], false)
            && s.blocks[1] == Block(map[3 := BToA], map[], false)
            && s.bays.Keys == {10, 11, 12} && s.bays[10] == Bay({1}, {}) && s.bays[11] == Bay({}, {}) && s.bays[12] == Bay({}, {3})
  {
    Crowd3Is();
    hide Crowd3;
  }

  lemma Crowd5Is()
    ensures var s := Crowd5();
            && s.domains.Keys == {0, 1} && s.domains[0] == Domain(Some(AToB), false) && s.domains[1] == Domain(Some(BToA), false)
            && s.waiting.Keys == {0, 1} && s.waiting[0] == Queues([], []) && s.waiting[1] == Queues([], [])
            && s.grants == map[Key(3, 1) := RETURNING, Key(1, 0) := ADMITTED]
            && s.blocks.Keys == {0, 1} && s.blocks[0] == Block(map[], map[1 := ADMITTED], false)
            && s.blocks[1] == Block(map[3 := BToA], map[], false)
            && s.bays.Keys == {10, 11, 12} && s.bays[10] == Bay({1}, {}) && s.bays[11] == Bay({}, {1}) && s.bays[12] == Bay({}, {3})
  {
    Crowd4Is();
    hide Crowd4;
  }

  lemma Crowd6Is()
    ensures var s := Crowd6();
            && s.domains.Keys == {0, 1} && s.domains[0] == Domain(Some(AToB), false) && s.domains[1] == Domain(Some(BToA), false)
            && s.waiting.Keys == {0, 1} && s.waiting[0] == Queues([], []) && s.waiting[1] == Queues([], [])
            && s.grants == map[Key(3, 1) := RETURNING, Key(1, 0) := ADMITTED]
            && s.blocks.Keys == {0, 1} && s.blocks[0] == Block(map[], map[1 := ADMITTED], false)
            && s.blocks[1] == Block(map[3 := BToA], map[], false)
            && s.bays.Keys == {10, 11, 12} && s.bays[10] == Bay({1}, {}) && s.bays[11] == Bay({2}, {1}) && s.bays[12] == Bay({}, {3})
  {
    Crowd5Is();
    hide Crowd5;
  }

  lemma CrowdStarts()
    ensures JUNCTION.WellFormed() && Initial(JUNCTION).Shaped(JUNCTION)
    ensures OccupyBay(JUNCTION, Initial(JUNCTION), 11, 3) == Effect(Crowd1(), Done)
    ensures Core(JUNCTION, Crowd1()) && BaysWithin(JUNCTION, Crowd1().bays)
  {
    hide Initial, MoveToBay, GrantsHeld, QueuesDistinct, WithinCapacity, OneDirection, QueuesShaped, GrantsShaped, Registry.WellFormed,
      BaysWithin, Step;
    JunctionIs();
    JunctionWellFormed();
    JunctionSafe();
    SightingIs(JUNCTION, Initial(JUNCTION), 11, 3);
    SafeStep(JUNCTION, Initial(JUNCTION), Occupied(11, 3));
  }

  lemma FirstCrowdRequest()
    ensures Crowd1().Shaped(JUNCTION) && IsNewRequest(JUNCTION, Crowd1(), RETURNING) && Idle(JUNCTION, Crowd1(), 1)
    ensures Available(JUNCTION, Crowd1(), RETURNING)
    ensures DecisionFor(JUNCTION, Crowd1(), 3, 1) == Answer(Wait)
  {
    hide Crowd1, Initial, GrantsHeld, QueuesDistinct, WithinCapacity, OneDirection, QueuesShaped, GrantsShaped, Registry.WellFormed,
      BaysWithin;
    CrowdStarts();
    Crowd1Is();
    assert Rivals(Crowd1(), RETURNING) == {};
  }

  lemma CrowdAdmits()
    ensures Crowd1().Shaped(JUNCTION) && Request(JUNCTION, Crowd1(), RETURNING) == Effect(Crowd2(), Answer(Admit))
    ensures Core(JUNCTION, Crowd2()) && BaysWithin(JUNCTION, Crowd2().bays)
  {
    hide Crowd1, Initial, GrantsHeld, QueuesDistinct, WithinCapacity, OneDirection, QueuesShaped, GrantsShaped, Registry.WellFormed,
      BaysWithin, Step, Idle, IsNewRequest, Available, Grant, Request, OccupyBay, DecisionFor;
    CrowdStarts();
    FirstCrowdRequest();
    RequestIs(JUNCTION, Crowd1(), RETURNING);
    FirstRequest(JUNCTION, Crowd1(), RETURNING);
    SafeStep(JUNCTION, Crowd1(), Requested(RETURNING));
  }

  lemma RequestIs(reg: Registry, s: State, x: Reservation)
    requires s.Shaped(reg)
    ensures Step(reg, s, Requested(x)) == Request(reg, s, x)
  {
  }

  lemma CrowdEnteredIs()
    ensures Crowd2().Shaped(JUNCTION) && Core(JUNCTION, Crowd3()) && BaysWithin(JUNCTION, Crowd3().bays)
    ensures Prelude(JUNCTION, Crowd2(), Entered(3, 1)) == Crowd3() && Visited(JUNCTION, Crowd2(), Entered(3, 1)) == [0, 1]
  {
    hide Crowd1, Crowd2, GrantsHeld, QueuesDistinct, WithinCapacity, OneDirection, QueuesShaped, GrantsShaped, Registry.WellFormed,
      BaysWithin, Request, Enter, LeaveSource;
    CrowdAdmits();
    Crowd2Is();
    PreludeKeepsCore(JUNCTION, Crowd2(), Entered(3, 1));
    PreludeWithinExactly(JUNCTION, Crowd2(), Entered(3, 1));
  }

  lemma EmptyRests(reg: Registry, s: State, domain: DomainId)
    requires s.Shaped(reg) && domain in s.domains && s.domains[domain] == Domain(None, false) && !Busy(reg, s.blocks, domain)
    requires forall b :: reg.InDomain(b, domain) ==> s.waiting[b] == Queues([], [])
    ensures Settled(reg, s, domain)
  {
    hide Available, Busy;
  }

  lemma CrowdIsSettled()
    ensures Crowd3().Shaped(JUNCTION) && 0 in Crowd3().domains && 1 in Crowd3().domains
    ensures Settled(JUNCTION, Crowd3(), 0) && Settled(JUNCTION, Crowd3(), 1)
  {
    hide Crowd2, Crowd3, GrantsHeld, QueuesDistinct, WithinCapacity, OneDirection, QueuesShaped, GrantsShaped, Registry.WellFormed,
      BaysWithin, Prelude, Visited, Busy, Settled;
    CrowdEnteredIs();
    Crowd3Is();
    EmptyIsIdle(JUNCTION, Crowd3(), 0);
    EmptyRests(JUNCTION, Crowd3(), 0);
    assert 3 in Crowd3().blocks[1].occupants;
    UsedIsBusy(JUNCTION, Crowd3(), 1);
    NobodyWaits(JUNCTION, Crowd3(), 1);
  }

  lemma CrowdEnters()
    ensures Crowd2().Shaped(JUNCTION) && SeenInside(JUNCTION, Crowd2(), 3, 1) == Effect(Crowd3(), Done)
  {
    hide Crowd2, Crowd3, GrantsHeld, QueuesDistinct, WithinCapacity, OneDirection, QueuesShaped, GrantsShaped, Registry.WellFormed,
      BaysWithin, Step, Prelude, Visited, Faulted, ReconcileEach, Settled, MarkEntered, Core;
    CrowdEnteredIs();
    CrowdIsSettled();
    CrowdAdmits();
    StepSplits(JUNCTION, Crowd2(), Entered(3, 1));
    SettledRound(JUNCTION, Crowd3(), [0, 1]);
    StepUnchecked(JUNCTION, Crowd2(), Entered(3, 1));
    MovementSteps(JUNCTION, Crowd2(), 3, 1);
    Crowd2Is();
    EntryReplies(JUNCTION, Crowd2(), 3, 1);
  }

  lemma EntryReplies(reg: Registry, s: State, r: RobotId, b: BlockId)
    requires s.Shaped(reg) && b in reg.blocks && Key(r, b) in s.grants
    requires s.grants[Key(r, b)].source.Some? ==> s.grants[Key(r, b)].source.value in s.bays
    ensures MarkEntered(reg, s, r, b).reply == Done || MarkEntered(reg, s, r, b).reply == Raised(AssertionError)
  {
    hide QueuesShaped, GrantsShaped, Enter, LeaveSource;
  }

  lemma CrowdGathers()
    ensures Crowd3().Shaped(JUNCTION) && OccupyBay(JUNCTION, Crowd3(), 10, 1) == Effect(Crowd4(), Done)
    ensures Core(JUNCTION, Crowd4()) && BaysWithin(JUNCTION, Crowd4().bays)
  {
    hide Crowd2, Crowd3, MoveToBay, GrantsHeld, QueuesDistinct, WithinCapacity, OneDirection, QueuesShaped, GrantsShaped, Registry.WellFormed,
      BaysWithin, Step, Prelude, Visited;
    CrowdEnteredIs();
    Crowd3Is();
    SightingIs(JUNCTION, Crowd3(), 10, 1);
    SafeStep(JUNCTION, Crowd3(), Occupied(10, 1));
  }

  lemma SecondCrowdRequest()
    ensures Crowd4().Shaped(JUNCTION) && IsNewRequest(JUNCTION, Crowd4(), ADMITTED) && Idle(JUNCTION, Crowd4(), 0)
    ensures Available(JUNCTION, Crowd4(), ADMITTED)
    ensures DecisionFor(JUNCTION, Crowd4(), 1, 0) == Answer(Wait)
  {
    hide Crowd3, Crowd4, GrantsHeld, QueuesDistinct, WithinCapacity, OneDirection, QueuesShaped, GrantsShaped, Registry.WellFormed,
      BaysWithin, OccupyBay;
    CrowdGathers();
    Crowd4Is();
    assert Rivals(Crowd4(), ADMITTED) == {};
  }

  lemma CrowdAdmitsAnother()
    ensures Crowd4().Shaped(JUNCTION) && Request(JUNCTION, Crowd4(), ADMITTED) == Effect(Crowd5(), Answer(Admit))
    ensures Core(JUNCTION, Crowd5()) && BaysWithin(JUNCTION, Crowd5().bays)
  {
    hide Crowd3, Crowd4, GrantsHeld, QueuesDistinct, WithinCapacity, OneDirection, QueuesShaped, GrantsShaped, Registry.WellFormed,
      BaysWithin, Step, Idle, IsNewRequest, Available, Grant, Request, OccupyBay, DecisionFor;
    CrowdGathers();
    SecondCrowdRequest();
    RequestIs(JUNCTION, Crowd4(), ADMITTED);
    FirstRequest(JUNCTION, Crowd4(), ADMITTED);
    SafeStep(JUNCTION, Crowd4(), Requested(ADMITTED));
  }

  lemma CrowdOverfills()
    ensures Crowd5().Shaped(JUNCTION) && OccupyBay(JUNCTION, Crowd5(), 11, 2) == Effect(Crowd6(), Done)
    ensures Core(JUNCTION, Crowd6())
  {
    hide Crowd4, Crowd5, MoveToBay, GrantsHeld, QueuesDistinct, WithinCapacity, OneDirection, QueuesShaped, GrantsShaped, Registry.WellFormed,
      BaysWithin, Step, Request;
    CrowdAdmitsAnother();
    Crowd5Is();
    SightingIs(JUNCTION, Crowd5(), 11, 2);
    StepKeepsCore(JUNCTION, Crowd5(), Occupied(11, 2));
  }

  const JUNCTION_CONFIG := Config(JUNCTION, 10, true, false)
  const OUTBOUND := Route({101}, {102}, [RouteStep(1, BToA, 12, 102, Some(11))])
  const INBOUND := Route({100}, {101}, [RouteStep(0, AToB, 11, 101, Some(10))])
  const ACCEPTED := Luck(0, Accepted)

  const IN_BAY := Report(3, 0, Located(None, Some(11)), 101, false)
  const IN_BLOCK := Report(3, 0, Located(Some(1), None), 101, true)
  const AT_START := Report(1, 0, Located(None, Some(10)), 100, false)
  const IN_THE_WAY := Report(2, 0, Located(None, Some(11)), 101, false)

  /** Robot 3 is sent from bay 11 to bay 12 and enters the block; robot 1 is sent from bay 10 to bay 11;
      and robot 2 is seen in bay 11. */
  const CROWDING := [Reported(IN_BAY), Submitted(3, 102, ACCEPTED), Reported(IN_BLOCK), Reported(AT_START),
                     Submitted(1, 101, ACCEPTED), Reported(IN_THE_WAY)]

  const RESTING := Telemetry(0, 101, false, None, Some(11), false)
  const CROSSING_OUT := Telemetry(0, 101, true, Some(1), None, false)
  const STARTING := Telemetry(0, 100, false, None, Some(10), false)

  function Scene1(): System {
    System(Crowd1(), map[3 := RESTING], [], [])
  }

  function Scene2(): System {
    System(Crowd2(), map[3 := RESTING], [Job(3, OUTBOUND.steps, 0, ACTIVE)], [Forward(0, 0, 102, Accepted, Crowd2())])
  }

  function Scene3(): System {
    Scene2().(arbiter := Crowd3(), robots := map[3 := CROSSING_OUT])
  }

  function Scene4(): System {
    Scene2().(arbiter := Crowd4(), robots := map[3 := CROSSING_OUT, 1 := STARTING])
  }

  function Scene5(): System {
    System(Crowd5(), map[3 := CROSSING_OUT, 1 := STARTING],
      [Job(3, OUTBOUND.steps, 0, ACTIVE), Job(1, INBOUND.steps, 0, ACTIVE)],
      [Forward(0, 0, 102, Accepted, Crowd2()), Forward(1, 0, 101, Accepted, Crowd5())])
  }

  /** Robot 3 is tracked in the second block while bay 11 is overfilled. */
  function Crowded(): System {
    Scene5().(arbiter := Crowd6(), robots := map[3 := CROSSING_OUT, 1 := STARTING, 2 := RESTING])
  }

  lemma SceneOne()
    ensures Initial(JUNCTION).Shaped(JUNCTION) && Ingest(JUNCTION, Start(JUNCTION), IN_BAY).system == Scene1()
  {
    hide Initial, Crowd1, State.Shaped, Core, OccupyBay, Ingest, Registry.WellFormed, BaysWithin;
    CrowdStarts();
    BaySighting(JUNCTION, Start(JUNCTION), IN_BAY, Crowd1());
  }

  lemma SceneTwo()
    ensures Crowd1().Shaped(JUNCTION) && Submit(JUNCTION_CONFIG, Scene1(), 3, 102, ACCEPTED).system == Scene2()
  {
    hide Crowd1, Crowd2, State.Shaped, Core, Submit, Request, DecisionFor, Registry.WellFormed, BaysWithin, IsNewRequest, Idle, Available;
    CrowdAdmits();
    FirstCrowdRequest();
    assert ResolveRoute(JUNCTION.routes, 101, 102) == Some(OUTBOUND) by {
      assert JUNCTION.routes[1..][0] == OUTBOUND;
    }
    AcceptedSubmission(JUNCTION_CONFIG, Scene1(), 3, 102, 0, OUTBOUND, Crowd2());
  }

  lemma SceneThree()
    ensures Crowd2().Shaped(JUNCTION) && Ingest(JUNCTION, Scene2(), IN_BLOCK).system == Scene3()
  {
    hide Crowd2, Crowd3, State.Shaped, SeenInside, Ingest;
    CrowdEnters();
    BlockSighting(JUNCTION, Scene2(), IN_BLOCK, Crowd3());
  }

  lemma SceneFour()
    ensures Crowd3().Shaped(JUNCTION) && Ingest(JUNCTION, Scene3(), AT_START).system == Scene4()
  {
    hide Crowd2, Crowd3, Crowd4, State.Shaped, Core, OccupyBay, Ingest, BaysWithin;
    CrowdGathers();
    BaySighting(JUNCTION, Scene3(), AT_START, Crowd4());
  }

  lemma SceneFive()
    ensures Crowd4().Shaped(JUNCTION) && Submit(JUNCTION_CONFIG, Scene4(), 1, 101, ACCEPTED).system == Scene5()
  {
    hide Crowd2, Crowd4, Crowd5, State.Shaped, Core, Submit, Request, DecisionFor, Registry.WellFormed, BaysWithin, IsNewRequest, Idle, Available;
    CrowdAdmitsAnother();
    SecondCrowdRequest();
    assert ResolveRoute(JUNCTION.routes, 100, 101) == Some(INBOUND);
    AcceptedSubmission(JUNCTION_CONFIG, Scene4(), 1, 101, 0, INBOUND, Crowd5());
  }

  lemma SceneSix()
    ensures Crowd5().Shaped(JUNCTION) && Ingest(JUNCTION, Scene5(), IN_THE_WAY).system == Crowded()
  {
    hide Crowd2, Crowd5, Crowd6, State.Shaped, Core, OccupyBay, Ingest;
    CrowdOverfills();
    BaySighting(JUNCTION, Scene5(), IN_THE_WAY, Crowd6());
  }

  lemma NothingYet(cfg: Config)
    requires cfg.reg.WellFormed()
    ensures Reaches(cfg, [], Start(cfg.reg))
  {
  }

  lemma HalfCrowded()
    ensures JUNCTION.WellFormed() && Reaches(JUNCTION_CONFIG, CROWDING[..3], Scene3())
  {
    hide Reaches, Ingest, Submit, Registry.WellFormed, State.Shaped, Initial, Crowd1, Crowd2, Crowd3;
    JunctionWellFormed();
    SceneOne();
    SceneTwo();
    SceneThree();
    NothingYet(JUNCTION_CONFIG);
    OneMoreInput(JUNCTION_CONFIG, [], Start(JUNCTION), Reported(IN_BAY));
    OneMoreInput(JUNCTION_CONFIG, [] + [Reported(IN_BAY)], Scene1(), Submitted(3, 102, ACCEPTED));
    OneMoreInput(JUNCTION_CONFIG, [] + [Reported(IN_BAY)] + [Submitted(3, 102, ACCEPTED)], Scene2(), Reported(IN_BLOCK));
    assert CROWDING[..3] == [] + [Reported(IN_BAY)] + [Submitted(3, 102, ACCEPTED)] + [Reported(IN_BLOCK)];
  }

  lemma CrowdedIsReached()
    ensures JUNCTION.WellFormed() && Reaches(JUNCTION_CONFIG, CROWDING, Crowded())
  {
    hide Reaches, Ingest, Submit, Registry.WellFormed, State.Shaped, Crowd2, Crowd3, Crowd4, Crowd5, Crowd6;
    HalfCrowded();
    SceneFour();
    SceneFive();
    SceneSix();
    var es := CROWDING[..3];
    OneMoreInput(JUNCTION_CONFIG, es, Scene3(), Reported(AT_START));
    OneMoreInput(JUNCTION_CONFIG, es + [Reported(AT_START)], Scene4(), Submitted(1, 101, ACCEPTED));
    OneMoreInput(JUNCTION_CONFIG, es + [Reported(AT_START)] + [Submitted(1, 101, ACCEPTED)], Scene5(), Reported(IN_THE_WAY));
    assert CROWDING == es + [Reported(AT_START)] + [Submitted(1, 101, ACCEPTED)] + [Reported(IN_THE_WAY)];
  }

  /** Robot 3 is seen in the bay that was kept for it. */
  const ARRIVING := Report(3, 1, Located(None, Some(12)), 102, false)

  lemma CrowdedIs()
    ensures Core(JUNCTION, Crowd6()) && Inside(Crowd6(), 3, 1) && GrantedTo(Crowd6(), 3, 1, 12)
    ensures !BaysWithin(JUNCTION, Leave(Crowd6(), 3, 1).bays)
  {
    hide Crowd5, Crowd6, GrantsHeld, QueuesDistinct, WithinCapacity, OneDirection, QueuesShaped, GrantsShaped,
      Registry.WellFormed, OccupyBay;
    CrowdOverfills();
    Crowd6Is();
    assert Leave(Crowd6(), 3, 1).bays[11].Used() == {1, 2};
  }

  /** An exit into the granted bay raises because of another bay, and leaves the tracker with a
      robot in a block that the arbiter has cleared. */
  lemma GrantedExitDisagrees()
    ensures JUNCTION.WellFormed() && Reaches(JUNCTION_CONFIG, CROWDING, Crowded())
    ensures Crowded().arbiter.Shaped(JUNCTION) && Agree(Crowded().arbiter, Crowded().robots)
    ensures Exits(Crowded().robots, ARRIVING) && GrantedTo(Crowded().arbiter, 3, 1, 12)
    ensures var e := Ingest(JUNCTION, Crowded(), ARRIVING);
            e.verdict == Failed(AssertionError) && !Agree(e.system.arbiter, e.system.robots)
  {
    hide Crowd2, Crowd5, Crowd6, GrantsHeld, QueuesDistinct, WithinCapacity, OneDirection, QueuesShaped, GrantsShaped,
      Registry.WellFormed, Ingest, BaysWithin, Inside, Leave, Reaches;
    CrowdedIsReached();
    CrowdedIs();
    ExitAcceptedExactly(JUNCTION, Crowded(), ARRIVING);
    assert 3 in Crowded().robots;
  }

  /** Robot 1 has strayed into the block, and robot 2 stands in the bay behind it. */
  function Blocked(): State {
    StrayedIs();
    MoveToBay(Strayed(), 11, 2)
  }

  function Stray(): System {
    System(Blocked(), map[1 := Telemetry(0, 100, true, Some(0), None, false), 2 := Telemetry(0, 101, false, None, Some(11), false)],
      [], [])
  }

  const LANE_CONFIG := Config(LANE, 10, true, false)

  /** A report of robot 1 in the block, and one of robot 2 in the bay. */
  const ASTRAY := Report(1, 0, Located(Some(0), None), 100, true)
  const STANDING := Report(2, 0, Located(None, Some(11)), 101, false)

  const STRAYING := [SeenUnexpectedly(1, 0), Occupied(11, 2)]

  /** Robot 1 is seen in that bay too. */
  const SQUEEZING := Report(1, 1, Located(None, Some(11)), 101, false)

  lemma BlockedIs()
    ensures var s := Blocked();
            && 0 in s.blocks && s.blocks[0] == Strayed().blocks[0] && s.grants == map[]
            && s.bays.Keys == {10, 11} && s.bays[10] == Bay({}, {}) && s.bays[11] == Bay({2}, {})
  {
    StrayedIs();
    hide Strayed;
  }

  lemma BlockedIsReached()
    ensures LANE.WellFormed() && Initial(LANE).Shaped(LANE) && forall i :: 0 <= i < 2 ==> Feasible(LANE, STRAYING[i])
    ensures Run(LANE, Initial(LANE), STRAYING) == Blocked() && Core(LANE, Blocked())
  {
    hide Core, Registry.WellFormed, QueuesShaped, GrantsShaped, Step, Initial, Strayed, MoveToBay, Run;
    StrayHearsTwoAnswers();
    StrayedIs();
    StrayStep();
    InitialCore(LANE);
    SightingIs(LANE, Strayed(), 11, 2);
    assert OccupyBay(LANE, Strayed(), 11, 2).state == Blocked();
    hide State.Shaped, OccupyBay;
    TwoSteps(LANE, Initial(LANE), SeenUnexpectedly(1, 0), Occupied(11, 2));
    RunKeepsCore(LANE, Initial(LANE), STRAYING);
  }

  function Astray(): System {
    System(Strayed(), map[1 := Telemetry(0, 100, true, Some(0), None, false)], [], [])
  }

  lemma AstrayIsNext()
    ensures Initial(LANE).Shaped(LANE) && Ingest(LANE, Start(LANE), ASTRAY).system == Astray()
  {
    LaneIs();
    StrayCrosses();
    hide Crossing, Strayed, Initial, State.Shaped;
  }

  lemma StrayCrosses()
    ensures Initial(LANE).Shaped(LANE) && Crossing(LANE, Initial(LANE), None, ASTRAY) == Effect(Strayed(), Done)
  {
    LaneIs();
    assert MarkEntered(LANE, Initial(LANE), 1, 0).reply == Raised(ValueError);
    hide MarkEntered, Initial, State.Shaped;
  }

  lemma StrayBayIsFree()
    ensures Strayed().Shaped(LANE) && OccupyBay(LANE, Strayed(), 11, 2) == Effect(Blocked(), Done)
  {
    StrayHearsTwoAnswers();
    StrayedIs();
    hide Strayed, QueuesShaped, GrantsShaped, Registry.WellFormed, Initial, Run, Request, MoveToBay;
  }

  lemma StrayIsNext()
    ensures Strayed().Shaped(LANE) && Ingest(LANE, Astray(), STANDING).system == Stray()
  {
    hide Strayed, Blocked, State.Shaped, Ingest, OccupyBay;
    StrayBayIsFree();
    BaySighting(LANE, Astray(), STANDING, Blocked());
  }

  /** Two reports lead there. */
  lemma StrayIsReached()
    ensures LANE.WellFormed() && Reaches(LANE_CONFIG, [Reported(ASTRAY), Reported(STANDING)], Stray())
  {
    hide Ingest, Registry.WellFormed, State.Shaped, Strayed, Blocked, Initial;
    LaneIs();
    AstrayIsNext();
    StrayIsNext();
    assert LANE_CONFIG.reg == LANE;
    OneMoreInput(LANE_CONFIG, [], Start(LANE), Reported(ASTRAY));
    OneMoreInput(LANE_CONFIG, [] + [Reported(ASTRAY)], Astray(), Reported(STANDING));
    assert [] + [Reported(ASTRAY)] + [Reported(STANDING)] == [Reported(ASTRAY), Reported(STANDING)];
  }

  lemma NoGrantNoBay()
    ensures Blocked().Shaped(LANE) && BaysWithin(LANE, Leave(Blocked(), 1, 0).bays)
    ensures 11 in Blocked().bays && !BayTakes(LANE, Blocked(), 1, 0, 11) && Inside(Blocked(), 1, 0)
  {
    hide Blocked, Strayed, GrantsHeld, QueuesDistinct, WithinCapacity, OneDirection, QueuesShaped, GrantsShaped,
      Registry.WellFormed, Initial, Run;
    BlockedIsReached();
    StrayedIs();
    BlockedIs();
    var bays := Leave(Blocked(), 1, 0).bays;
    assert bays == Blocked().bays && bays[10].Used() == {} && bays[11].Used() == {2};
  }

  /** The arbiter has cleared the block before the full bay refuses the robot. */
  lemma FullBayDisagrees()
    ensures LANE.WellFormed() && Reaches(LANE_CONFIG, [Reported(ASTRAY), Reported(STANDING)], Stray())
    ensures Stray().arbiter.Shaped(LANE) && Agree(Stray().arbiter, Stray().robots)
    ensures var e := Ingest(LANE, Stray(), SQUEEZING);
            e.verdict == Failed(ValueError) && !Agree(e.system.arbiter, e.system.robots)
  {
    hide Blocked, GrantsHeld, QueuesDistinct, WithinCapacity, OneDirection, QueuesShaped, GrantsShaped,
      Registry.WellFormed, Initial, Run, Ingest, BaysWithin, Inside, Leave, BayTakes, Reaches;
    StrayIsReached();
    BlockedIsReached();
    NoGrantNoBay();
    ExitAcceptedExactly(LANE, Stray(), SQUEEZING);
    assert 1 in Stray().robots;
  }
}
