/** Deadlock freedom, for any number of robots and any layout in which every block has an
    end bay with room for the whole fleet: after every tick of an undisturbed run either
    some job is on its way or all jobs are complete. */
module DeadlockFreedom {
  import opened Models
  import opened CorridorRegistries
  import opened ArbiterSpec
  import opened ArbiterSteps
  import opened ArbiterSafety
  import opened ArbiterProgress
  import opened ArbiterRuns
  import opened ArbiterOrder
  import opened ArbiterWakeups
  import opened ArbiterLegal
  import opened ArbiterScene
  import opened GateSpec
  import opened GateHistory
  import opened GateProgress

  // ----- Undisturbed runs ----------------------------------------------------------------

  /** Reports are truthful, the server takes what it is sent, nobody falls silent inside
      a block, and nothing is cancelled or reset. */
  ghost predicate Undisturbed(cfg: Config, s: System, i: Input)
    requires s.arbiter.Shaped(cfg.reg)
  {
    match i
    case Reported(rep) => Truthful(cfg.reg, s, rep)
    case Submitted(r, goal, luck) => luck.outcome.Delivered()
    case Ticked(now, order, lucks) => NobodySilent(cfg, s, now) && AllDelivered(lucks)
    case _ => false
  }

  ghost predicate UndisturbedRun(cfg: Config, inputs: seq<Input>, s: System)
    requires cfg.reg.WellFormed()
    decreases |inputs|
  {
    if inputs == [] then s == Start(cfg.reg)
    else
      exists before: System ::
        && before.arbiter.Shaped(cfg.reg) && UndisturbedRun(cfg, inputs[..|inputs| - 1], before)
        && Possible(cfg, before, inputs[|inputs| - 1]) && Undisturbed(cfg, before, inputs[|inputs| - 1])
        && s == Next(cfg, before, inputs[|inputs| - 1]).system
  }

  lemma StartGood(reg: Registry)
    requires Sound(reg)
    ensures Good(reg, Start(reg))
  {
    var a := Initial(reg);
    InitialCore(reg);
    InitialTidy(reg);
    forall d | d in a.domains ensures Settled(reg, a, d) {
      InitialOrderly(reg, d);
    }
    assert AllSettled(reg, a);
    assert forall x :: !Asks(a, x);
    hide Core, Tidy, Settled, AllSettled;
  }

  lemma NextGood(cfg: Config, s: System, i: Input)
    requires Sound(cfg.reg) && Good(cfg.reg, s) && s.arbiter.Shaped(cfg.reg)
    requires Possible(cfg, s, i) && Undisturbed(cfg, s, i)
    ensures var r := Next(cfg, s, i);
            && !r.verdict.Failed? && Good(cfg.reg, r.system)
            && (i.Ticked? ==> TurnedUpTo(r.system, |r.system.jobs|))
  {
    hide Good, State.Shaped, Ingest, Submit, Tick, TurnedUpTo, Truthful, Sound;
    match i
    case Reported(rep) =>
      ShapedIsKeyed(cfg.reg, s.arbiter);
      ReportGood(cfg.reg, s, rep);
    case Submitted(r, goal, luck) => SubmitGood(cfg, s, r, goal, luck);
    case Ticked(now, order, lucks) => TickGood(cfg, s, now, order, lucks);
  }

  lemma {:induction false} RunGood(cfg: Config, inputs: seq<Input>, s: System)
    requires Sound(cfg.reg) && UndisturbedRun(cfg, inputs, s)
    ensures Good(cfg.reg, s)
    ensures inputs != [] && inputs[|inputs| - 1].Ticked? ==> TurnedUpTo(s, |s.jobs|)
    decreases |inputs|
  {
    if inputs == [] {
      StartGood(cfg.reg);
    } else {
      hide Next, State.Shaped, Good, Possible, Undisturbed, TurnedUpTo;
      var before: System :|
        && before.arbiter.Shaped(cfg.reg) && UndisturbedRun(cfg, inputs[..|inputs| - 1], before)
        && Possible(cfg, before, inputs[|inputs| - 1]) && Undisturbed(cfg, before, inputs[|inputs| - 1])
        && s == Next(cfg, before, inputs[|inputs| - 1]).system;
      RunGood(cfg, inputs[..|inputs| - 1], before);
      NextGood(cfg, before, inputs[|inputs| - 1]);
    }
  }

  // ----- What a standstill would look like ---------------------------------------------------

  /** Every job has had its turn and none is on its way. */
  ghost predicate Standstill(reg: Registry, s: System) {
    && Good(reg, s) && TurnedUpTo(s, |s.jobs|)
    && forall j :: 0 <= j < |s.jobs| ==> !s.jobs[j].status.ACTIVE?
  }

  /** After a tick every grant belongs to a job on its way. */
  lemma GrantIsMoving(reg: Registry, s: System, k: Key)
    requires Good(reg, s) && TurnedUpTo(s, |s.jobs|) && k in s.arbiter.grants
    ensures exists j :: 0 <= j < |s.jobs| && s.jobs[j].status.ACTIVE?
  {
    GoodShaped(reg, s);
    GrantedKey(reg, s.arbiter, k.robot, k.block);
    assert k == Key(k.robot, k.block);
    var x := s.arbiter.grants[k];
    hide ArbiterInOrder, OnePlace, Tracked, Asks, RouteOk, Serviced;
    var j :| 0 <= j < |s.jobs| && Owns(s.jobs[j], x);
    assert JobOk(reg, s.jobs[j]) && Turned(s.arbiter, s.jobs[j]);
  }

  lemma NoGrants(reg: Registry, s: System)
    requires Standstill(reg, s)
    ensures forall k :: k !in s.arbiter.grants
  {
    hide Good, TurnedUpTo;
    forall k ensures k !in s.arbiter.grants {
      if k in s.arbiter.grants {
        GrantIsMoving(reg, s, k);
        assert false;
      }
    }
  }

  lemma BlocksEmpty(reg: Registry, a: State)
    requires ArbiterInOrder(reg, a) && forall k :: k !in a.grants
    ensures forall b :: b in a.blocks ==> !a.blocks[b].InUse()
    ensures forall h :: h in a.bays ==> a.bays[h].reservations == {}
    ensures forall d :: !Busy(reg, a.blocks, d)
  {
    forall b | b in a.blocks ensures !a.blocks[b].InUse() {
      forall r ensures r !in a.blocks[b].occupants && r !in a.blocks[b].reservations {
        assert Key(r, b) !in a.grants;
      }
    }
    forall h, r | h in a.bays ensures r !in a.bays[h].reservations {
      assert !Backed(a.grants, r, h);
    }
    hide Tidy, AllSettled, QueuesDistinct, WithinCapacity, OneDirection, Block.InUse;
  }

  /** In an empty corridor nothing but a full destination bay holds a request back. */
  lemma BayIsFull(reg: Registry, a: State, x: Reservation)
    requires ArbiterInOrder(reg, a) && (forall k :: k !in a.grants) && Asks(a, x)
    ensures x.destination in a.bays && x.destination in reg.bays
    ensures |a.bays[x.destination].occupants - {x.robot}| >= reg.bays[x.destination].capacity
  {
    hide Tidy, QueuesDistinct, WithinCapacity, OneDirection, GrantsHeld, BaysBacked, Busy, Faulted, NoneAvailable,
      GrantsShaped;
    BlocksEmpty(reg, a);
    assert x.block in a.waiting && x in a.waiting[x.block].Of(x.direction);
    assert x.direction == AToB || x.direction == BToA;
    IdleIsSettled(reg, a, x.block);
    hide AllSettled, Settled, Available;
    RefusedInDomain(reg, a, x);
    hide QueuesShaped, Registry.WellFormed;
    OnlyTheBay(reg, a, x);
  }

  lemma IdleIsSettled(reg: Registry, a: State, b: BlockId)
    requires a.Shaped(reg) && AllSettled(reg, a) && NoFault(a) && b in reg.blocks
    requires !Busy(reg, a.blocks, reg.blocks[b].domain)
    ensures NoneAvailable(reg, a, reg.blocks[b].domain, AToB) && NoneAvailable(reg, a, reg.blocks[b].domain, BToA)
  {
  }

  lemma RefusedInDomain(reg: Registry, a: State, x: Reservation)
    requires a.Shaped(reg) && x.block in reg.blocks && x in a.waiting[x.block].Of(x.direction)
    requires NoneAvailable(reg, a, reg.blocks[x.block].domain, x.direction)
    ensures x.destination in reg.bays && !Available(reg, a, x)
  {
  }

  /** An empty healthy block has room: only the bay can refuse. */
  lemma OnlyTheBay(reg: Registry, a: State, x: Reservation)
    requires a.Keyed(reg) && x.block in reg.blocks && x.destination in reg.bays && !Available(reg, a, x)
    requires !a.blocks[x.block].faulted && !a.blocks[x.block].InUse() && reg.blocks[x.block].capacity >= 1
    requires a.bays[x.destination].reservations == {}
    ensures |a.bays[x.destination].occupants - {x.robot}| >= reg.bays[x.destination].capacity
  {
    assert a.blocks[x.block].OneWay(x.direction);
    assert a.bays[x.destination].Used() == a.bays[x.destination].occupants;
  }

  /** The bay has room for the whole fleet. */
  predicate Roomy(reg: Registry, h: BayId, fleet: set<RobotId>) {
    h in reg.bays && reg.bays[h].capacity >= |fleet|
  }

  /** Everybody with a job, and everybody in a bay, belongs to the fleet. */
  ghost predicate FleetIs(s: System, fleet: set<RobotId>) {
    && (forall j :: 0 <= j < |s.jobs| ==> s.jobs[j].robot in fleet)
    && (forall r, h :: StandsIn(s.arbiter, r, h) ==> r in fleet)
  }

  /** A job that is held back at a standstill wants a bay without room for the fleet, and
      somebody else stands there. */
  lemma HeldBackBySomeone(reg: Registry, s: System, fleet: set<RobotId>, j: nat) returns (q: RobotId)
    requires Sound(reg) && Standstill(reg, s) && FleetIs(s, fleet) && j < |s.jobs| && s.jobs[j].Open()
    ensures s.jobs[j].HasStep() && StepOk(reg, s.jobs[j].Current())
    ensures !Roomy(reg, s.jobs[j].Current().destination, fleet)
    ensures q != s.jobs[j].robot && StandsIn(s.arbiter, q, s.jobs[j].Current().destination)
  {
    hide ArbiterInOrder, OnePlace, Tracked, Asks, Turned, OneOpenEach, StepOk, Outside, At;
    var job := s.jobs[j];
    var h := WantsFullBay(reg, s, j);
    hide Standstill;
    var others := s.arbiter.bays[h].occupants - {job.robot};
    q := AnyOf(others);
    forall r | r in others ensures r in fleet {
      assert StandsIn(s.arbiter, r, h);
    }
    if Roomy(reg, h, fleet) {
      FewerThanFleet(others, fleet, job.robot);
      assert false;
    }
  }

  lemma WantsFullBay(reg: Registry, s: System, j: nat) returns (h: BayId)
    requires Sound(reg) && Standstill(reg, s) && j < |s.jobs| && s.jobs[j].Open()
    ensures s.jobs[j].HasStep() && StepOk(reg, s.jobs[j].Current()) && h == s.jobs[j].Current().destination
    ensures h in s.arbiter.bays && h in reg.bays && reg.bays[h].capacity >= 1
    ensures |s.arbiter.bays[h].occupants - {s.jobs[j].robot}| >= reg.bays[h].capacity
  {
    hide ArbiterInOrder, OnePlace, Tracked, Asks, Turned, OneOpenEach, Outside, At, StandsIn;
    NoGrants(reg, s);
    var job := s.jobs[j];
    assert JobOk(reg, job) && Serviced(reg, s.arbiter, s.robots, job) && StepOk(reg, job.Current());
    hide StepOk;
    var x: Reservation :| x.robot == job.robot && Asks(s.arbiter, x);
    OwnerIs(reg, s.jobs, s.arbiter, j, x);
    BayIsFull(reg, s.arbiter, x);
    h := job.Current().destination;
  }

  lemma AnyOf<T>(items: set<T>) returns (x: T)
    requires |items| >= 1
    ensures x in items
  {
    x :| x in items;
  }

  lemma FewerThanFleet(others: set<RobotId>, fleet: set<RobotId>, r: RobotId)
    requires others <= fleet && r in fleet && r !in others
    ensures |others| < |fleet|
  {
    SubsetSize(others, fleet - {r});
  }

  /** Every block has an end with room for the whole fleet. */
  ghost predicate EndsRoomy(reg: Registry, fleet: set<RobotId>) {
    forall b :: b in reg.blocks ==> Roomy(reg, reg.blocks[b].entryA, fleet) || Roomy(reg, reg.blocks[b].entryB, fleet)
  }

  /** Nobody without an open job stands in a bay without room for the fleet. */
  ghost predicate NobodyParked(reg: Registry, s: System, fleet: set<RobotId>) {
    forall r, h :: StandsIn(s.arbiter, r, h) && !Roomy(reg, h, fleet) ==> OpenJob(s.jobs, r)
  }

  /** At a standstill a bay that holds a robot with an open job is roomy: the robot wants
      to leave it for a bay that is not. */
  lemma LeavesRoomyBay(reg: Registry, s: System, fleet: set<RobotId>, i: nat, h: BayId)
    requires Sound(reg) && Standstill(reg, s) && FleetIs(s, fleet) && EndsRoomy(reg, fleet)
    requires i < |s.jobs| && s.jobs[i].Open() && StandsIn(s.arbiter, s.jobs[i].robot, h)
    ensures Roomy(reg, h, fleet)
  {
    hide ArbiterInOrder, Claims, OnePlace, Tracked, StandsIn, SafeNode, Turned, Waits, Outside, Roomy;
    assert Serviced(reg, s.arbiter, s.robots, s.jobs[i]) && JobOk(reg, s.jobs[i]);
    hide Standstill, Serviced;
    var p := HeldBackBySomeone(reg, s, fleet, i);
    assert h == s.jobs[i].Current().source.value;
  }

  lemma NoStandstill(reg: Registry, s: System, fleet: set<RobotId>, j: nat)
    requires Sound(reg) && Standstill(reg, s) && FleetIs(s, fleet)
    requires EndsRoomy(reg, fleet) && NobodyParked(reg, s, fleet)
    requires j < |s.jobs|
    ensures !s.jobs[j].Open()
  {
    hide Standstill, EndsRoomy, FleetIs, Roomy, StandsIn, Sound;
    if s.jobs[j].Open() {
      var q := HeldBackBySomeone(reg, s, fleet, j);
      var i :| 0 <= i < |s.jobs| && s.jobs[i].robot == q && s.jobs[i].Open();
      LeavesRoomyBay(reg, s, fleet, i, s.jobs[j].Current().destination);
      assert false;
    }
  }

  /** Deadlock freedom. After every tick of an undisturbed run, provided every block has an
      end bay with room for the whole fleet and nobody without an open job is parked in a
      bay that has not: some job is on its way, or all jobs are complete. */
  lemma NoDeadlock(cfg: Config, inputs: seq<Input>, s: System, fleet: set<RobotId>)
    requires Sound(cfg.reg) && UndisturbedRun(cfg, inputs, s)
    requires inputs != [] && inputs[|inputs| - 1].Ticked?
    requires FleetIs(s, fleet) && EndsRoomy(cfg.reg, fleet) && NobodyParked(cfg.reg, s, fleet)
    ensures (exists j :: 0 <= j < |s.jobs| && s.jobs[j].status.ACTIVE?)
         || (forall j :: 0 <= j < |s.jobs| ==> s.jobs[j].status.COMPLETE?)
  {
    RunGood(cfg, inputs, s);
    if forall j :: 0 <= j < |s.jobs| ==> !s.jobs[j].status.ACTIVE? {
      forall j | 0 <= j < |s.jobs| ensures s.jobs[j].status.COMPLETE? {
        NoStandstill(cfg.reg, s, fleet, j);
        assert JobOk(cfg.reg, s.jobs[j]);
      }
    }
  }
}
