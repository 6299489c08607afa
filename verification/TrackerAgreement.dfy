/** The tracker and the arbiter agree about who is inside a block. The tracker believes
    a robot inside only while the arbiter counts it there; the arbiter stops counting it
    only on sight of the robot in a bay and outside every block; and a robot that falls
    silent inside a block faults that block instead of losing its request. */
module TrackerAgreement {
  import opened Models
  import opened ArbiterSpec
  import opened ArbiterSteps
  import opened ArbiterSafety
  import opened ArbiterProgress
  import opened ArbiterRuns
  import opened ArbiterChecks
  import opened ArbiterGuarantees
  import opened ArbiterScene
  import opened GateSpec
  import opened GateRuns

  /** Whoever the tracker has in a block is an occupant of it. */
  ghost predicate Agree(a: State, robots: map<RobotId, Telemetry>) {
    forall r :: r in robots && robots[r].block.Some? ==> Inside(a, r, robots[r].block.value)
  }

  // ----- Occupants stay until they leave ---------------------------------------------------

  /** A step is its prelude followed by admissions. */
  lemma StepMoves(reg: Registry, a: State, e: Event) returns (ds: set<DomainId>)
    requires Core(reg, a) && Feasible(reg, e)
    ensures Core(reg, Prelude(reg, a, e)) && Core(reg, Step(reg, a, e).state)
    ensures Moved(reg, Prelude(reg, a, e), Step(reg, a, e).state, ds)
  {
    StepSplits(reg, a, e);
    PreludeKeepsCore(reg, a, e);
    EachMoves(reg, Prelude(reg, a, e), Visited(reg, a, e));
    hide Step, Prelude, Visited, ReconcileEach, Moved, HealthyOf, GrantsHeld, QueuesDistinct, WithinCapacity,
      OneDirection;
    ds := HealthyOf(reg, Prelude(reg, a, e).blocks, Visited(reg, a, e));
  }

  lemma PreludeOccupants(reg: Registry, a: State, e: Event, r: RobotId, b: BlockId)
    requires Core(reg, a) && Feasible(reg, e) && Inside(a, r, b) && e != Exited(r, b) && !e.WasReset?
    ensures Inside(Prelude(reg, a, e), r, b)
  {
    hide GrantsHeld, QueuesDistinct, WithinCapacity, OneDirection, QueuesShaped, GrantsShaped, Registry.WellFormed,
      Available, Queues.Has, HoldsOneTo, WithoutRobot, Robots;
    FirstOccupiedIsFirst(a, if e.FaultedAt? then e.robot else 0, reg.blockOrder);
  }

  lemma MovedOccupants(reg: Registry, a: State, c: State, ds: set<DomainId>, r: RobotId, b: BlockId)
    requires a.Keyed(reg) && c.Keyed(reg) && Moved(reg, a, c, ds)
    ensures Inside(a, r, b) <==> Inside(c, r, b)
  {
    hide QueuesMoved, BaysMoved, GrantsMoved;
  }

  lemma StepOccupants(reg: Registry, a: State, e: Event, r: RobotId, b: BlockId)
    requires Core(reg, a) && Feasible(reg, e) && Inside(a, r, b) && e != Exited(r, b) && !e.WasReset?
    ensures Inside(Step(reg, a, e).state, r, b)
  {
    hide Step, Prelude, Moved, Inside, GrantsHeld, QueuesDistinct, WithinCapacity, OneDirection;
    var ds := StepMoves(reg, a, e);
    PreludeOccupants(reg, a, e, r, b);
    MovedOccupants(reg, Prelude(reg, a, e), Step(reg, a, e).state, ds, r, b);
  }

  /** During quiet events nobody stops being an occupant. */
  lemma {:induction false} QuietOccupants(reg: Registry, a: State, es: seq<Event>, r: RobotId, b: BlockId)
    requires Core(reg, a) && AllFeasible(reg, es) && Inside(a, r, b)
    requires forall i :: 0 <= i < |es| ==> es[i] != Exited(r, b) && !es[i].WasReset?
    ensures Inside(Run(reg, a, es), r, b)
    decreases |es|
  {
    hide Step, Feasible, Inside, State.Shaped, GrantsHeld, QueuesDistinct, WithinCapacity, OneDirection;
    if es != [] {
      StepKeepsCore(reg, a, es[0]);
      StepOccupants(reg, a, es[0], r, b);
      QuietOccupants(reg, Step(reg, a, es[0]).state, es[1..], r, b);
    }
  }

  /** Occupancy ends only when the robot is seen in a bay and outside every block, or by
      a reset. */
  lemma OccupancyEnds(cfg: Config, s: System, i: Input, r: RobotId, b: BlockId)
    requires Core(cfg.reg, s.arbiter) && Possible(cfg, s, i)
    requires Inside(s.arbiter, r, b) && !Inside(Next(cfg, s, i).system.arbiter, r, b)
    ensures i.GateReset?
         || (i.Reported? && i.report.robot == r && BlockOf(s.robots, r) == Some(b)
             && i.report.sight.Located? && i.report.sight.block.None? && i.report.sight.bay.Some?)
  {
    hide Next, Inside, State.Shaped, GrantsHeld, QueuesDistinct, WithinCapacity, OneDirection, Possible, Run;
    var es := NextLeads(cfg, s, i);
    if !i.GateReset? && (Quiet(es) || es[0] != Exited(r, b)) {
      QuietOccupants(cfg.reg, s.arbiter, es, r, b);
    }
  }

  // ----- Reports keep the agreement ---------------------------------------------------------

  lemma SeenInsideOccupies(reg: Registry, a: State, r: RobotId, b: BlockId)
    requires Core(reg, a) && SeenInside(reg, a, r, b).Ok()
    ensures Inside(SeenInside(reg, a, r, b).state, r, b)
  {
    if b in reg.blocks && MarkEntered(reg, a, r, b).Ok() {
      if Key(r, b) in a.grants {
        EnteredOccupies(reg, a, r, b);
      }
    }
    hide ReconcileAndCheck, Enter, LeaveSource, GrantsHeld, QueuesDistinct, WithinCapacity, OneDirection;
  }

  lemma EnteredOccupies(reg: Registry, a: State, r: RobotId, b: BlockId)
    requires Core(reg, a) && b in reg.blocks && Key(r, b) in a.grants
    ensures Inside(MarkEntered(reg, a, r, b).state, r, b)
  {
    hide Prelude, Moved, Inside, MarkEntered, GrantsHeld, QueuesDistinct, WithinCapacity, OneDirection, Step, Feasible;
    EnteredPrelude(reg, a, r, b);
    MovementSteps(reg, a, r, b);
    var ds := StepMoves(reg, a, Entered(r, b));
    MovedOccupants(reg, Prelude(reg, a, Entered(r, b)), Step(reg, a, Entered(r, b)).state, ds, r, b);
  }

  lemma EnteredPrelude(reg: Registry, a: State, r: RobotId, b: BlockId)
    requires a.Shaped(reg) && b in reg.blocks && Key(r, b) in a.grants
    ensures Inside(Prelude(reg, a, Entered(r, b)), r, b)
  {
    hide QueuesShaped, Registry.WellFormed;
  }

  /** The report takes the robot out of its block. */
  predicate Exits(robots: map<RobotId, Telemetry>, rep: Report) {
    BlockOf(robots, rep.robot).Some? && SeenBlock(rep).None? && SeenBay(rep).Some?
  }

  /** A departing robot becomes an occupant of the bay its grant reserved, no other
      bay's occupants change, and it is out of the block. */
  lemma ExitedBays(reg: Registry, a: State, r: RobotId, b: BlockId, h: BayId)
    requires Core(reg, a) && b in reg.blocks && h in reg.bays
    ensures var c := MarkExited(reg, a, r, b).state;
            && c.Shaped(reg) && !Inside(c, r, b)
            && c.bays[h].occupants == a.bays[h].occupants + (if GrantedTo(a, r, b, h) then {r} else {})
  {
    hide Prelude, MarkExited, BlocksMoved, QueuesMoved, GrantsMoved, GrantsHeld, QueuesDistinct, WithinCapacity,
      OneDirection, Inside, QueuesShaped, GrantsShaped, Registry.WellFormed, Step, Feasible;
    LeavingBays(reg, a, r, b, h);
    MovementSteps(reg, a, r, b);
    var ds := StepMoves(reg, a, Exited(r, b));
    MovedOccupants(reg, Prelude(reg, a, Exited(r, b)), Step(reg, a, Exited(r, b)).state, ds, r, b);
  }

  lemma LeavingBays(reg: Registry, a: State, r: RobotId, b: BlockId, h: BayId)
    requires a.Shaped(reg) && b in reg.blocks && h in reg.bays
    ensures var u := Prelude(reg, a, Exited(r, b));
            && h in u.bays && !Inside(u, r, b)
            && u.bays[h].occupants == a.bays[h].occupants + (if GrantedTo(a, r, b, h) then {r} else {})
  {
    hide QueuesShaped, Registry.WellFormed;
  }

  /** The bay takes the departing robot: it was granted, or is there already, or has
      fewer occupants than places. */
  predicate BayTakes(reg: Registry, a: State, r: RobotId, b: BlockId, h: BayId)
    requires h in a.bays && h in reg.bays
  {
    GrantedTo(a, r, b, h) || r in a.bays[h].occupants || |a.bays[h].occupants| < reg.bays[h].capacity
  }

  lemma OccupyAccepted(reg: Registry, c: State, h: BayId, r: RobotId)
    requires c.Shaped(reg) && h in reg.bays
    ensures OccupyBay(reg, c, h, r).Ok() <==> r in c.bays[h].occupants || |c.bays[h].occupants| < reg.bays[h].capacity
    ensures !OccupyBay(reg, c, h, r).Ok() ==> OccupyBay(reg, c, h, r).reply == Raised(ValueError)
    ensures OccupyBay(reg, c, h, r).state.blocks == c.blocks
  {
  }

  /** An exit fits if the bay takes the robot and no bay at all is over its capacity once the robot
      has left the block: the arbiter checks them all. */
  ghost predicate ExitFits(reg: Registry, s: System, rep: Report)
    requires s.arbiter.Shaped(reg)
  {
    Exits(s.robots, rep) ==>
      var b, h := BlockOf(s.robots, rep.robot).value, SeenBay(rep).value;
      && b in reg.blocks && h in reg.bays && BayTakes(reg, s.arbiter, rep.robot, b, h)
      && BaysWithin(reg, Leave(s.arbiter, rep.robot, b).bays)
  }

  lemma ExitChecked(reg: Registry, a: State, r: RobotId, b: BlockId)
    requires Core(reg, a) && b in reg.blocks
    ensures MarkExited(reg, a, r, b).reply
         == if BaysWithin(reg, Leave(a, r, b).bays) then Done else Raised(AssertionError)
  {
    MovementSteps(reg, a, r, b);
    assert Prelude(reg, a, Exited(r, b)) == Leave(a, r, b);
    assert MarkExited(reg, a, r, b).reply == Done || MarkExited(reg, a, r, b).reply == Raised(AssertionError);
    hide Step, Prelude, Leave, MarkExited, BaysWithin, GrantsHeld, QueuesDistinct, WithinCapacity, OneDirection;
    MovementUncheckedExactly(reg, a, Exited(r, b));
  }

  /** What becomes of a robot that leaves its block: the report is accepted exactly if the exit
      fits. Otherwise the tracker keeps the robot in the block that the arbiter has cleared. */
  lemma ExitAcceptedExactly(reg: Registry, s: System, rep: Report)
    requires Core(reg, s.arbiter) && Agree(s.arbiter, s.robots) && Exits(s.robots, rep)
    requires SeenBay(rep).value in reg.bays
    ensures var r, b, h := rep.robot, BlockOf(s.robots, rep.robot).value, SeenBay(rep).value;
            var e := Ingest(reg, s, rep);
            && b in reg.blocks && h in s.arbiter.bays && !Inside(e.system.arbiter, r, b)
            && (if !BaysWithin(reg, Leave(s.arbiter, r, b).bays)
                then e.verdict == Failed(AssertionError) && e.system.robots == s.robots
                else if !BayTakes(reg, s.arbiter, r, b, h)
                then e.verdict == Failed(ValueError) && e.system.robots == s.robots
                else e.verdict == Okay && BlockOf(e.system.robots, r) == None)
  {
    var r, b, h := rep.robot, BlockOf(s.robots, rep.robot).value, SeenBay(rep).value;
    assert Inside(s.arbiter, r, b) && b in reg.blocks;
    ExitedBays(reg, s.arbiter, r, b, h);
    ExitChecked(reg, s.arbiter, r, b);
    var crossed := Crossing(reg, s.arbiter, BlockOf(s.robots, r), rep);
    assert crossed == MarkExited(reg, s.arbiter, r, b);
    OccupyAccepted(reg, crossed.state, h, r);
    hide GrantsHeld, QueuesDistinct, WithinCapacity, OneDirection, QueuesShaped, GrantsShaped, Registry.WellFormed,
      Crossing, MarkExited, OccupyBay, BaysWithin, Leave;
  }

  /** Tracker and arbiter still agree after a report exactly if the exit it shows, if any,
      fits. */
  lemma ReportAgreesExactly(cfg: Config, s: System, rep: Report)
    requires Core(cfg.reg, s.arbiter) && Agree(s.arbiter, s.robots) && Possible(cfg, s, Reported(rep))
    ensures var t := Ingest(cfg.reg, s, rep).system; Agree(t.arbiter, t.robots) <==> ExitFits(cfg.reg, s, rep)
  {
    var t := Ingest(cfg.reg, s, rep).system;
    if ExitFits(cfg.reg, s, rep) {
      forall r | r in t.robots && t.robots[r].block.Some? ensures Inside(t.arbiter, r, t.robots[r].block.value) {
        if r != rep.robot {
          OthersUnchanged(cfg.reg, s, rep, r);
          ReportOccupants(cfg, s, rep, r, t.robots[r].block.value);
        } else {
          ReporterAgrees(cfg, s, rep);
        }
      }
    } else {
      ExitAcceptedExactly(cfg.reg, s, rep);
      assert s.robots[rep.robot].block == BlockOf(s.robots, rep.robot);
    }
    hide Ingest, Core, Inside, BaysWithin, Leave;
  }

  /** Nobody else's occupancy is touched by a report. */
  lemma ReportOccupants(cfg: Config, s: System, rep: Report, r: RobotId, b: BlockId)
    requires Core(cfg.reg, s.arbiter) && Possible(cfg, s, Reported(rep)) && Inside(s.arbiter, r, b)
    requires r != rep.robot || !Exits(s.robots, rep)
    ensures Inside(Ingest(cfg.reg, s, rep).system.arbiter, r, b)
  {
    if !Inside(Ingest(cfg.reg, s, rep).system.arbiter, r, b) {
      OccupancyEnds(cfg, s, Reported(rep), r, b);
      assert false;
    }
    hide Ingest, Core, Inside;
  }

  lemma OthersUnchanged(reg: Registry, s: System, rep: Report, r: RobotId)
    requires s.arbiter.Shaped(reg) && r != rep.robot
    ensures r in Ingest(reg, s, rep).system.robots <==> r in s.robots
    ensures r in s.robots ==> Ingest(reg, s, rep).system.robots[r] == s.robots[r]
  {
    hide Crossing, OccupyBay, State.Shaped;
  }

  /** The reporting robot itself. */
  lemma ReporterAgrees(cfg: Config, s: System, rep: Report)
    requires Core(cfg.reg, s.arbiter) && Agree(s.arbiter, s.robots) && Possible(cfg, s, Reported(rep))
    requires ExitFits(cfg.reg, s, rep)
    ensures var t := Ingest(cfg.reg, s, rep).system;
            BlockOf(t.robots, rep.robot).Some? ==> Inside(t.arbiter, rep.robot, BlockOf(t.robots, rep.robot).value)
  {
    var was := BlockOf(s.robots, rep.robot);
    var seen := SeenBlock(rep);
    var t := Ingest(cfg.reg, s, rep).system;
    if Exits(s.robots, rep) {
      ExitAcceptedExactly(cfg.reg, s, rep);
    } else if seen.Some? && seen != was && t.robots != s.robots {
      EnteringAgrees(cfg, s, rep);
    } else {
      if was.Some? {
        assert Inside(s.arbiter, rep.robot, was.value);
        ReportOccupants(cfg, s, rep, rep.robot, was.value);
      }
      hide Crossing, OccupyBay, Core, Inside, BaysWithin;
    }
  }

  lemma EnteringAgrees(cfg: Config, s: System, rep: Report)
    requires Core(cfg.reg, s.arbiter) && Possible(cfg, s, Reported(rep))
    requires SeenBlock(rep).Some? && SeenBlock(rep) != BlockOf(s.robots, rep.robot)
    requires Ingest(cfg.reg, s, rep).system.robots != s.robots
    ensures var t := Ingest(cfg.reg, s, rep).system;
            BlockOf(t.robots, rep.robot) == SeenBlock(rep) && Inside(t.arbiter, rep.robot, SeenBlock(rep).value)
  {
    var was := BlockOf(s.robots, rep.robot);
    var crossed := Crossing(cfg.reg, s.arbiter, was, rep);
    assert crossed == SeenInside(cfg.reg, s.arbiter, rep.robot, SeenBlock(rep).value);
    hide Core, SeenInside, OccupyBay, State.Shaped;
    assert crossed.Ok();
    SeenInsideOccupies(cfg.reg, s.arbiter, rep.robot, SeenBlock(rep).value);
  }

  // ----- Timeouts --------------------------------------------------------------------------

  /** Only faults were added. */
  ghost predicate FaultsOnly(s: map<BlockId, Block>, t: map<BlockId, Block>) {
    && (forall b :: b in t <==> b in s)
    && (forall b :: b in s ==> t[b].occupants == s[b].occupants && t[b].reservations == s[b].reservations)
    && (forall b :: b in s && s[b].faulted ==> t[b].faulted)
  }

  ghost predicate InsideFaulted(a: State, r: RobotId) {
    exists b :: Inside(a, r, b) && a.blocks[b].faulted
  }

  /** A robot that the tracker has in a block is faulted in place: nothing it holds is
      cancelled. */
  lemma FaultInPlace(reg: Registry, a: State, r: RobotId, b: BlockId, visit: seq<DomainId>)
    requires Core(reg, a) && Inside(a, r, b) && VisitsTargets(reg, None, visit)
    requires forall d :: d in visit ==> d in a.domains
    ensures var e := Fault(reg, a, r, visit);
            && e.reply == Done && Core(reg, e.state) && e.state == a.(blocks := e.state.blocks)
            && FaultsOnly(a.blocks, e.state.blocks) && InsideFaulted(e.state, r)
  {
    FirstOccupiedIsFirst(a, r, reg.blockOrder);
    assert b in reg.blocks && b in reg.blockOrder;
    var first := FirstOccupied(a, r, reg.blockOrder);
    MoreFaultsKeepCore(reg, a, first.value);
    hide Core, FirstOccupied, State.Shaped;
    assert Inside(MarkFaulted(a, first.value), r, first.value);
  }

  lemma FaultsOnlyAgree(a: State, c: State, robots: map<RobotId, Telemetry>)
    requires FaultsOnly(a.blocks, c.blocks)
    ensures Agree(a, robots) ==> Agree(c, robots)
    ensures forall r :: InsideFaulted(a, r) ==> InsideFaulted(c, r)
  {
    forall r | InsideFaulted(a, r) ensures InsideFaulted(c, r) {
      var b :| Inside(a, r, b) && a.blocks[b].faulted;
      assert Inside(c, r, b);
    }
  }

  lemma StaleInside(cfg: Config, t: Telemetry, now: int)
    requires Stale(cfg, t, now)
    ensures t.block.Some?
  {
  }

  /** A telemetry timeout faults a block the robot occupies; no request, grant, queue or
      bay changes, and it never raises. */
  lemma TimeoutsFault(cfg: Config, s: System, now: int, order: seq<Expiry>)
    requires Core(cfg.reg, s.arbiter) && Agree(s.arbiter, s.robots) && VisitsAllBlocks(cfg.reg, order)
    ensures var e := ExpireStale(cfg, s, now, order);
            var t := e.system;
            && e.verdict == Okay && Core(cfg.reg, t.arbiter)
            && t.arbiter == s.arbiter.(blocks := t.arbiter.blocks) && FaultsOnly(s.arbiter.blocks, t.arbiter.blocks)
            && (forall r :: r in t.robots <==> r in s.robots)
            && (forall r :: r in s.robots ==> t.robots[r] == s.robots[r].(faulted := t.robots[r].faulted))
            && (forall k :: 0 <= k < |order| && order[k].robot in s.robots && Stale(cfg, s.robots[order[k].robot], now) ==>
                InsideFaulted(t.arbiter, order[k].robot))
    decreases |order|
  {
    hide State.Shaped, GrantsHeld, QueuesDistinct, WithinCapacity, OneDirection, Fault, Inside, InsideFaulted, Stale;
    if order != [] {
      var r := order[0].robot;
      if r !in s.robots || !Stale(cfg, s.robots[r], now) {
        TimeoutsFault(cfg, s, now, order[1..]);
      } else {
        StaleInside(cfg, s.robots[r], now);
        var e := FaultedArbiter(cfg, s, r, order[0].visit);
        var robots := s.robots[r := s.robots[r].(faulted := true)];
        var t := s.(arbiter := e, robots := robots);
        FaultsOnlyAgree(s.arbiter, e, s.robots);
        assert Agree(e, robots);
        TimeoutsFault(cfg, t, now, order[1..]);
        FaultsOnlyAgree(e, ExpireStale(cfg, t, now, order[1..]).system.arbiter, robots);
      }
    }
  }

  lemma FaultedArbiter(cfg: Config, s: System, r: RobotId, visit: seq<DomainId>) returns (a: State)
    requires Core(cfg.reg, s.arbiter) && Agree(s.arbiter, s.robots) && VisitsTargets(cfg.reg, None, visit)
    requires r in s.robots && s.robots[r].block.Some?
    ensures forall d :: d in visit ==> d in s.arbiter.domains
    ensures Fault(cfg.reg, s.arbiter, r, visit) == Effect(a, Done) && Core(cfg.reg, a)
    ensures a == s.arbiter.(blocks := a.blocks) && FaultsOnly(s.arbiter.blocks, a.blocks) && InsideFaulted(a, r)
  {
    VisitedKnown(cfg.reg, s.arbiter, visit);
    hide Core, State.Shaped, Fault, FaultsOnly, InsideFaulted;
    FaultInPlace(cfg.reg, s.arbiter, r, s.robots[r].block.value, visit);
    a := Fault(cfg.reg, s.arbiter, r, visit).state;
  }

  // ----- Over whole runs -----------------------------------------------------------------------

  /** What a step must respect: exits fit, and a reset is not forced while the tracker has
      somebody in a block. */
  ghost predicate Regular(cfg: Config, s: System, i: Input)
    requires s.arbiter.Shaped(cfg.reg)
  {
    match i
    case Reported(rep) => ExitFits(cfg.reg, s, rep)
    case GateReset(force) => force ==> forall r :: r in s.robots ==> s.robots[r].block.None?
    case _ => true
  }

  lemma QuietAgrees(cfg: Config, s: System, i: Input)
    requires Core(cfg.reg, s.arbiter) && Agree(s.arbiter, s.robots) && Possible(cfg, s, i)
    requires i.Submitted? || i.Ticked? || i.JobCancelled?
    ensures var t := Next(cfg, s, i).system; Agree(t.arbiter, t.robots)
  {
    SameBlocks(cfg, s, i);
    var t := Next(cfg, s, i).system;
    hide Next, Inside, Core, Possible;
    forall r | r in t.robots && t.robots[r].block.Some? ensures Inside(t.arbiter, r, t.robots[r].block.value) {
      if !Inside(t.arbiter, r, t.robots[r].block.value) {
        OccupancyEnds(cfg, s, i, r, t.robots[r].block.value);
        assert false;
      }
    }
  }

  /** Only reports change where the tracker sees robots. */
  lemma SameBlocks(cfg: Config, s: System, i: Input)
    requires Core(cfg.reg, s.arbiter) && Agree(s.arbiter, s.robots) && Possible(cfg, s, i)
    requires i.Submitted? || i.Ticked? || i.JobCancelled?
    ensures forall r :: r in Next(cfg, s, i).system.robots && Next(cfg, s, i).system.robots[r].block.Some? ==>
              r in s.robots && s.robots[r].block == Next(cfg, s, i).system.robots[r].block
  {
    match i
    case Submitted(r, goal, luck) =>
      SubmitRobots(cfg, s, r, goal, luck);
      hide Submit, Core;
    case Ticked(now, order, lucks) =>
      TimeoutsFault(cfg, s, now, order);
      ExpireShape(cfg, s, now, order);
      AdvanceRobots(cfg.reg, ExpireStale(cfg, s, now, order).system, 0, lucks);
      hide ExpireStale, AdvanceFrom, Core, FaultsOnly, InsideFaulted;
    case JobCancelled(j) =>
      hide Cancel, Core, State.Shaped;
  }

  lemma SubmitRobots(cfg: Config, s: System, r: RobotId, goal: NodeId, luck: Luck)
    requires s.arbiter.Shaped(cfg.reg)
    ensures Submit(cfg, s, r, goal, luck).system.robots == s.robots
  {
    hide Attempt, SafeNode, State.Shaped, ResolveRoute, OpenJob;
    var start := SafeNode(cfg.reg, s.robots, r);
    if start.Some? {
      var route := ResolveRoute(cfg.reg.routes, start.value, goal);
      if route.Some? {
        AttemptShape(cfg.reg, s.(jobs := s.jobs + [Job(r, route.value.steps, 0, WAITING)]), |s.jobs|, luck);
      }
    }
  }

  lemma AdvanceRobots(reg: Registry, s: System, j: nat, lucks: seq<Luck>)
    requires s.arbiter.Shaped(reg) && j <= |s.jobs| == |lucks|
    ensures AdvanceFrom(reg, s, j, lucks).system.robots == s.robots
    decreases |lucks| - j
  {
    hide State.Shaped, Advance;
    if j < |s.jobs| {
      AdvanceShape(reg, s, j, lucks[j]);
      if !Advance(reg, s, j, lucks[j]).verdict.Failed? {
        AdvanceRobots(reg, Advance(reg, s, j, lucks[j]).system, j + 1, lucks);
      }
    }
  }

  lemma ResetAgreesExactly(reg: Registry, s: System, force: bool)
    requires Core(reg, s.arbiter) && Agree(s.arbiter, s.robots)
    ensures var t := ResetGate(reg, s, force).system;
            Agree(t.arbiter, t.robots) <==> (force ==> forall r :: r in s.robots ==> s.robots[r].block.None?)
  {
    var t := ResetGate(reg, s, force).system;
    if r :| r in s.robots && s.robots[r].block.Some? {
      var b := s.robots[r].block.value;
      assert Inside(s.arbiter, r, b);
      assert s.arbiter.blocks[b].occupants != map[];
      assert !Inside(Initial(reg), r, b);
    }
    hide Core, Initial, State.Shaped;
  }

  /** A step of the system keeps the agreement exactly if it is regular. */
  lemma NextAgreesExactly(cfg: Config, s: System, i: Input)
    requires Core(cfg.reg, s.arbiter) && Agree(s.arbiter, s.robots) && Possible(cfg, s, i)
    ensures var t := Next(cfg, s, i).system; Agree(t.arbiter, t.robots) <==> Regular(cfg, s, i)
  {
    hide Core, Ingest, ResetGate, Submit, ExpireStale, AdvanceFrom, CancelJob, Agree, State.Shaped, ExitFits, Possible;
    match i
    case Reported(rep) => ReportAgreesExactly(cfg, s, rep);
    case GateReset(force) => ResetAgreesExactly(cfg.reg, s, force);
    case _ => QuietAgrees(cfg, s, i);
  }

  ghost predicate RegularRun(cfg: Config, inputs: seq<Input>, s: System)
    requires cfg.reg.WellFormed()
    decreases |inputs|
  {
    if inputs == [] then s == Start(cfg.reg)
    else
      exists before: System ::
        && before.arbiter.Shaped(cfg.reg) && RegularRun(cfg, inputs[..|inputs| - 1], before)
        && Possible(cfg, before, inputs[|inputs| - 1]) && Regular(cfg, before, inputs[|inputs| - 1])
        && s == Next(cfg, before, inputs[|inputs| - 1]).system
  }

  /** In every regular run the tracker has a robot in a block only while it is an
      occupant of that block. */
  lemma {:induction false} TrackerAgrees(cfg: Config, inputs: seq<Input>, s: System)
    requires cfg.reg.WellFormed() && RegularRun(cfg, inputs, s)
    ensures Core(cfg.reg, s.arbiter) && Agree(s.arbiter, s.robots)
    decreases |inputs|
  {
    if inputs == [] {
      InitialCore(cfg.reg);
    } else {
      hide Next, State.Shaped, GrantsHeld, QueuesDistinct, WithinCapacity, OneDirection, Run, Agree, Regular, Possible;
      var before: System :|
        && before.arbiter.Shaped(cfg.reg) && RegularRun(cfg, inputs[..|inputs| - 1], before)
        && Possible(cfg, before, inputs[|inputs| - 1]) && Regular(cfg, before, inputs[|inputs| - 1])
        && s == Next(cfg, before, inputs[|inputs| - 1]).system;
      TrackerAgrees(cfg, inputs[..|inputs| - 1], before);
      NextAgreesExactly(cfg, before, inputs[|inputs| - 1]);
      var es := NextLeads(cfg, before, inputs[|inputs| - 1]);
      RunKeepsCore(cfg.reg, before.arbiter, es);
    }
  }
}
