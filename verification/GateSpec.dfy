/** The task gate and the robot tracker on values: how telemetry becomes arbiter
    calls, and how a job becomes a sequence of admitted route steps. Each public
    operation runs under a lock and is one step of a run. Geometry, the clock, the
    upstream server and set iteration orders are part of the input. */
module GateSpec {
  import opened Models
  import opened ArbiterSpec
  import opened ArbiterSteps

  // ----- State ----------------------------------------------------------------------

  datatype Telemetry = Telemetry(
    at: int, lastNode: NodeId, driving: bool,
    block: Option<BlockId>, bay: Option<BayId>, faulted: bool)

  datatype Status = WAITING | ACTIVE | RETRY | BLOCKED | COMPLETE | CANCELLED

  datatype Job = Job(robot: RobotId, steps: seq<RouteStep>, index: nat, status: Status) {
    predicate HasStep() {
      index < |steps|
    }

    function Current(): RouteStep
      requires HasStep()
    {
      steps[index]
    }

    /** The robot may not be given another job. */
    predicate Open() {
      status.WAITING? || status.ACTIVE? || status.RETRY?
    }
  }

  /** What the upstream server made of a forwarded step: it took it, refused it with
      `success: false`, refused it with a 4xx code, or nobody knows. */
  datatype Outcome = Accepted | Unsuccessful | Rejected | Unknown {
    /** The server may have the task. */
    predicate Delivered() {
      Accepted? || Unknown?
    }
  }

  /** A forwarded step, with the state of the arbiter at that moment. */
  datatype Forward = Forward(job: nat, index: nat, goal: NodeId, outcome: Outcome, during: State)

  datatype System = System(
    arbiter: State, robots: map<RobotId, Telemetry>, jobs: seq<Job>, log: seq<Forward>)
  {
    ghost predicate Shaped(reg: Registry) {
      && arbiter.Shaped(reg)
      && forall r :: r in robots ==>
           && (robots[r].block.Some? ==> robots[r].block.value in reg.blocks)
           && (robots[r].bay.Some? ==> robots[r].bay.value in reg.bays)
    }
  }

  datatype Config = Config(reg: Registry, timeout: int, enabled: bool, bypassUnmatched: bool)

  datatype Verdict = Okay | Admitted | Held | Refused | RetryLater | Uncertain | Finished | Bypassed
                   | Flagged(value: bool) | Failed(error: Error)

  datatype Response = Response(system: System, verdict: Verdict)

  // ----- Telemetry ---------------------------------------------------------------------

  /** What a state message shows: a position, which may lie in a block or a bay, or
      only the block that its pending edges single out. */
  datatype Sight = Located(block: Option<BlockId>, bay: Option<BayId>) | Unlocated(edgeBlock: Option<BlockId>)

  datatype Report = Report(robot: RobotId, at: int, sight: Sight, lastNode: NodeId, driving: bool)

  function BlockOf(robots: map<RobotId, Telemetry>, r: RobotId): Option<BlockId> {
    if r in robots then robots[r].block else None
  }

  function BayOf(robots: map<RobotId, Telemetry>, r: RobotId): Option<BayId> {
    if r in robots then robots[r].bay else None
  }

  predicate IsBayNode(reg: Registry, n: NodeId) {
    exists h | h in reg.bays :: reg.bays[h].node == n
  }

  /** The holding-bay node the robot can safely be said to stand at. */
  function SafeNode(reg: Registry, robots: map<RobotId, Telemetry>, r: RobotId): Option<NodeId>
  {
    if r !in robots || robots[r].block.Some? then None
    else if robots[r].bay.Some? && robots[r].bay.value in reg.bays then Some(reg.bays[robots[r].bay.value].node)
    else if IsBayNode(reg, robots[r].lastNode) then Some(robots[r].lastNode)
    else None
  }

  predicate HasArrived(reg: Registry, robots: map<RobotId, Telemetry>, r: RobotId, n: NodeId) {
    SafeNode(reg, robots, r) == Some(n) && r in robots && !robots[r].driving
  }

  /** A robot seen in a block enters on its grant, or is reported as unexpected. */
  function SeenInside(reg: Registry, a: State, r: RobotId, b: BlockId): Effect
    requires a.Shaped(reg)
  {
    var e := MarkEntered(reg, a, r, b);
    if e.reply == Raised(ValueError) then ReportUnexpected(reg, a, r, b) else e
  }

  /** The block that the report shows the robot in. */
  function SeenBlock(rep: Report): Option<BlockId> {
    match rep.sight
    case Located(block, _) => block
    case Unlocated(block) => if rep.driving then block else None
  }

  function SeenBay(rep: Report): Option<BayId> {
    if rep.sight.Located? then rep.sight.bay else None
  }

  /** Entering or leaving a block, as far as the report shows it. */
  function Crossing(reg: Registry, a: State, was: Option<BlockId>, rep: Report): Effect
    requires a.Shaped(reg)
  {
    var seen := SeenBlock(rep);
    if seen.Some? && seen != was then SeenInside(reg, a, rep.robot, seen.value)
    else if was.Some? && seen.None? && SeenBay(rep).Some? then MarkExited(reg, a, rep.robot, was.value)
    else Effect(a, Done)
  }

  /** Where the robot is after the report: without evidence of a safe exit it stays in
      its block. */
  function BlockAfter(was: Option<BlockId>, rep: Report): Option<BlockId> {
    if SeenBlock(rep).Some? then SeenBlock(rep)
    else if was.Some? && SeenBay(rep).None? then was
    else None
  }

  function BayAfter(robots: map<RobotId, Telemetry>, rep: Report): Option<BayId> {
    if BlockAfter(BlockOf(robots, rep.robot), rep).Some? then None
    else if rep.sight.Located? then rep.sight.bay
    else BayOf(robots, rep.robot)
  }

  function TelemetryAfter(robots: map<RobotId, Telemetry>, rep: Report): Telemetry {
    Telemetry(rep.at, rep.lastNode, rep.driving,
      BlockAfter(BlockOf(robots, rep.robot), rep), BayAfter(robots, rep), false)
  }

  lemma CrossingShape(reg: Registry, a: State, was: Option<BlockId>, rep: Report)
    requires a.Shaped(reg)
    ensures Crossing(reg, a, was, rep).state.Shaped(reg)
  {
    var seen := SeenBlock(rep);
    if seen.Some? {
      MarkEnteredShape(reg, a, rep.robot, seen.value);
      UnexpectedShape(reg, a, rep.robot, seen.value);
    }
    if was.Some? {
      MarkExitedShape(reg, a, rep.robot, was.value);
    }
    hide State.Shaped, MarkEntered, MarkExited, ReportUnexpected;
  }

  function Ingest(reg: Registry, s: System, rep: Report): Response
    requires s.arbiter.Shaped(reg)
  {
    var was := BlockOf(s.robots, rep.robot);
    var crossed := Crossing(reg, s.arbiter, was, rep);
    CrossingShape(reg, s.arbiter, was, rep);
    if !crossed.Ok() then Response(s.(arbiter := crossed.state), Failed(crossed.reply.error))
    else
      var block := BlockAfter(was, rep);
      var placed :=
        if SeenBay(rep).Some? && block.None?
        then OccupyBay(reg, crossed.state, SeenBay(rep).value, rep.robot)
        else Effect(crossed.state, Done);
      if !placed.Ok() then Response(s.(arbiter := placed.state), Failed(placed.reply.error))
      else
        Response(s.(arbiter := placed.state, robots := s.robots[rep.robot := TelemetryAfter(s.robots, rep)]), Okay)
  }

  datatype Expiry = Expiry(robot: RobotId, visit: seq<DomainId>)

  predicate Stale(cfg: Config, t: Telemetry, now: int) {
    t.block.Some? && !t.faulted && now - t.at > cfg.timeout
  }

  ghost predicate VisitsAllBlocks(reg: Registry, order: seq<Expiry>) {
    forall i :: 0 <= i < |order| ==> VisitsTargets(reg, None, order[i].visit)
  }

  lemma VisitedKnown(reg: Registry, a: State, visit: seq<DomainId>)
    requires a.Shaped(reg) && VisitsTargets(reg, None, visit)
    ensures forall d :: d in visit ==> d in a.domains
  {
  }

  /** Robots inside a block that have gone silent are faulted. `order` is the order
      in which the robots are looked at. */
  ghost function ExpireStale(cfg: Config, s: System, now: int, order: seq<Expiry>): Response
    requires s.arbiter.Shaped(cfg.reg) && VisitsAllBlocks(cfg.reg, order)
    decreases |order|
  {
    if order == [] then Response(s, Okay)
    else
      var r := order[0].robot;
      if r !in s.robots || !Stale(cfg, s.robots[r], now) then ExpireStale(cfg, s, now, order[1..])
      else
        VisitedKnown(cfg.reg, s.arbiter, order[0].visit);
        var e := Fault(cfg.reg, s.arbiter, r, order[0].visit);
        FaultShape(cfg.reg, s.arbiter, r, order[0].visit);
        var t := s.(arbiter := e.state, robots := s.robots[r := s.robots[r].(faulted := true)]);
        if e.Ok() then ExpireStale(cfg, t, now, order[1..]) else Response(t, Failed(e.reply.error))
  }

  // ----- Jobs -----------------------------------------------------------------------------

  /** What one attempt meets by chance: the clock and the answer of the server. */
  datatype Luck = Luck(time: int, outcome: Outcome)

  function WithStatus(s: System, j: nat, status: Status): System
    requires j < |s.jobs|
  {
    s.(jobs := s.jobs[j := s.jobs[j].(status := status)])
  }

  function ForStep(job: Job, time: int): Reservation
    requires job.HasStep()
  {
    var step := job.Current();
    Reservation(job.robot, step.block, step.direction, step.destination, step.source, time)
  }

  /** Forward the current step and file the answer. */
  function ForwardStep(reg: Registry, s: System, j: nat, outcome: Outcome): Response
    requires s.arbiter.Shaped(reg) && j < |s.jobs| && s.jobs[j].HasStep()
    requires s.jobs[j].Current().block in reg.blocks
  {
    var job := s.jobs[j];
    var step := job.Current();
    var t := s.(log := s.log + [Forward(j, job.index, step.goal, outcome, s.arbiter)]);
    match outcome
    case Rejected =>
      HomeKnown(reg, s.arbiter, step.block);
      var e := Cancel(reg, s.arbiter, job.robot, Some(step.block), [reg.blocks[step.block].domain]);
      if e.Ok() then Response(WithStatus(t.(arbiter := e.state), j, BLOCKED), Refused)
      else Response(t.(arbiter := e.state), Failed(e.reply.error))
    case Unknown => Response(WithStatus(t, j, ACTIVE), Uncertain)
    case Unsuccessful => Response(WithStatus(t, j, RETRY), RetryLater)
    case Accepted => Response(WithStatus(t, j, ACTIVE), Admitted)
  }

  lemma HomeKnown(reg: Registry, a: State, b: BlockId)
    requires a.Shaped(reg) && b in reg.blocks
    ensures reg.blocks[b].domain in a.domains
  {
  }

  /** Ask the arbiter for the current step and forward it if admitted. */
  function Attempt(reg: Registry, s: System, j: nat, luck: Luck): Response
    requires s.arbiter.Shaped(reg) && j < |s.jobs|
  {
    var job := s.jobs[j];
    if !job.HasStep() then Response(WithStatus(s, j, COMPLETE), Finished)
    else
      var step := job.Current();
      var asked := DecisionFor(reg, s.arbiter, job.robot, step.block);
      if asked.Raised? then Response(s, Failed(asked.error))
      else
        RequestShape(reg, s.arbiter, ForStep(job, luck.time));
        var e := if asked == Answer(Admit) then Effect(s.arbiter, asked)
                 else Request(reg, s.arbiter, ForStep(job, luck.time));
        var t := s.(arbiter := e.state);
        match e.reply
        case Raised(error) => Response(t, Failed(error))
        case Answer(decision) =>
          if decision == Wait then Response(WithStatus(t, j, WAITING), Held)
          else if decision == Blocked then Response(WithStatus(t, j, BLOCKED), Refused)
          else ForwardStep(reg, t, j, luck.outcome)
        case _ => Response(t, Okay)
  }

  function OpenJob(jobs: seq<Job>, r: RobotId): bool {
    exists j | 0 <= j < |jobs| :: jobs[j].robot == r && jobs[j].Open()
  }

  function ResolveRoute(routes: seq<Route>, start: NodeId, goal: NodeId): Option<Route> {
    if routes == [] then None
    else if start in routes[0].starts && goal in routes[0].goals then Some(routes[0])
    else ResolveRoute(routes[1..], start, goal)
  }

  function Submit(cfg: Config, s: System, r: RobotId, goal: NodeId, luck: Luck): Response
    requires s.arbiter.Shaped(cfg.reg)
  {
    if !cfg.enabled then Response(s, Bypassed)
    else
      var start := SafeNode(cfg.reg, s.robots, r);
      if start == None then Response(s, Refused)
      else
        var route := ResolveRoute(cfg.reg.routes, start.value, goal);
        if route == None then Response(s, if cfg.bypassUnmatched then Bypassed else Refused)
        else if OpenJob(s.jobs, r) then Response(s, Refused)
        else
          var t := s.(jobs := s.jobs + [Job(r, route.value.steps, 0, WAITING)]);
          Attempt(cfg.reg, t, |s.jobs|, luck)
  }

  /** One job's turn in a tick. */
  function Advance(reg: Registry, s: System, j: nat, luck: Luck): Response
    requires s.arbiter.Shaped(reg) && j < |s.jobs|
  {
    var job := s.jobs[j];
    if !job.Open() then Response(s, Okay)
    else if !job.HasStep() then Response(WithStatus(s, j, COMPLETE), Okay)
    else if job.status.ACTIVE? then
      if !HasArrived(reg, s.robots, job.robot, job.Current().goal) then Response(s, Okay)
      else
        var next := job.(index := job.index + 1);
        if !next.HasStep() then Response(s.(jobs := s.jobs[j := next.(status := COMPLETE)]), Okay)
        else Attempt(reg, s.(jobs := s.jobs[j := next.(status := WAITING)]), j, luck)
    else Attempt(reg, s, j, luck)
  }

  lemma ForwardShape(reg: Registry, s: System, j: nat, outcome: Outcome)
    requires s.arbiter.Shaped(reg) && j < |s.jobs| && s.jobs[j].HasStep()
    requires s.jobs[j].Current().block in reg.blocks
    ensures var t := ForwardStep(reg, s, j, outcome).system;
            t.arbiter.Shaped(reg) && |t.jobs| == |s.jobs| && t.robots == s.robots
  {
    var job := s.jobs[j];
    var b := job.Current().block;
    HomeKnown(reg, s.arbiter, b);
    CancelShape(reg, s.arbiter, job.robot, Some(b), [reg.blocks[b].domain]);
    hide State.Shaped, Cancel;
  }

  lemma AttemptShape(reg: Registry, s: System, j: nat, luck: Luck)
    requires s.arbiter.Shaped(reg) && j < |s.jobs|
    ensures var t := Attempt(reg, s, j, luck).system;
            t.arbiter.Shaped(reg) && |t.jobs| == |s.jobs| && t.robots == s.robots
  {
    var job := s.jobs[j];
    if job.HasStep() && job.Current().block in reg.blocks {
      RequestShape(reg, s.arbiter, ForStep(job, luck.time));
      ForwardShape(reg, s, j, luck.outcome);
      ForwardShape(reg, s.(arbiter := Request(reg, s.arbiter, ForStep(job, luck.time)).state), j, luck.outcome);
    }
    hide State.Shaped, Request, ForwardStep, DecisionFor;
  }

  lemma AdvanceShape(reg: Registry, s: System, j: nat, luck: Luck)
    requires s.arbiter.Shaped(reg) && j < |s.jobs|
    ensures var t := Advance(reg, s, j, luck).system;
            t.arbiter.Shaped(reg) && |t.jobs| == |s.jobs| && t.robots == s.robots
  {
    var job := s.jobs[j];
    AttemptShape(reg, s, j, luck);
    AttemptShape(reg, s.(jobs := s.jobs[j := job.(index := job.index + 1, status := WAITING)]), j, luck);
    hide State.Shaped, Attempt, HasArrived;
  }

  /** The jobs take their turns in the order they were submitted; an exception ends
      the tick. */
  function AdvanceFrom(reg: Registry, s: System, j: nat, lucks: seq<Luck>): Response
    requires s.arbiter.Shaped(reg) && j <= |s.jobs| == |lucks|
    decreases |lucks| - j
  {
    if j == |s.jobs| then Response(s, Okay)
    else
      var first := Advance(reg, s, j, lucks[j]);
      AdvanceShape(reg, s, j, lucks[j]);
      if first.verdict.Failed? then first else AdvanceFrom(reg, first.system, j + 1, lucks)
  }

  ghost function Tick(cfg: Config, s: System, now: int, order: seq<Expiry>, lucks: seq<Luck>): Response
    requires s.arbiter.Shaped(cfg.reg) && VisitsAllBlocks(cfg.reg, order) && |lucks| == |s.jobs|
  {
    var expired := ExpireStale(cfg, s, now, order);
    ExpireShape(cfg, s, now, order);
    if expired.verdict.Failed? then expired else AdvanceFrom(cfg.reg, expired.system, 0, lucks)
  }

  lemma ExpireShape(cfg: Config, s: System, now: int, order: seq<Expiry>)
    requires s.arbiter.Shaped(cfg.reg) && VisitsAllBlocks(cfg.reg, order)
    ensures var t := ExpireStale(cfg, s, now, order).system;
            t.arbiter.Shaped(cfg.reg) && t.jobs == s.jobs && t.log == s.log
    decreases |order|
  {
    hide State.Shaped, Fault;
    if order != [] {
      var r := order[0].robot;
      if r !in s.robots || !Stale(cfg, s.robots[r], now) {
        ExpireShape(cfg, s, now, order[1..]);
      } else {
        VisitedKnown(cfg.reg, s.arbiter, order[0].visit);
        FaultShape(cfg.reg, s.arbiter, r, order[0].visit);
        var e := Fault(cfg.reg, s.arbiter, r, order[0].visit);
        var t := s.(arbiter := e.state, robots := s.robots[r := s.robots[r].(faulted := true)]);
        if e.Ok() {
          ExpireShape(cfg, t, now, order[1..]);
        }
      }
    }
  }

  /** Only a job that is not with the server can be cancelled. */
  function CancelJob(reg: Registry, s: System, j: nat): Response
    requires s.arbiter.Shaped(reg)
  {
    if j >= |s.jobs| then Response(s, Flagged(false))
    else
      var job := s.jobs[j];
      if job.status.ACTIVE? || job.status.COMPLETE? || job.status.CANCELLED? then Response(s, Flagged(false))
      else if !job.HasStep() || job.Current().block !in reg.blocks then Response(s, Failed(KeyError))
      else
        var b := job.Current().block;
        HomeKnown(reg, s.arbiter, b);
        var e := Cancel(reg, s.arbiter, job.robot, Some(b), [reg.blocks[b].domain]);
        var t := s.(arbiter := e.state);
        if !e.Ok() then Response(t, Failed(e.reply.error))
        else if e.reply == Flag(false) && job.status.RETRY? then Response(t, Flagged(false))
        else Response(WithStatus(t, j, CANCELLED), Flagged(true))
  }

  function CancelAll(jobs: seq<Job>): seq<Job> {
    seq(|jobs|, i requires 0 <= i < |jobs| =>
      if jobs[i].status.COMPLETE? then jobs[i] else jobs[i].(status := CANCELLED))
  }

  function ResetGate(reg: Registry, s: System, force: bool): Response
    requires s.arbiter.Shaped(reg)
  {
    var e := Reset(reg, s.arbiter, force);
    if e.reply == Flag(false) then Response(s, Flagged(false))
    else Response(s.(arbiter := e.state, jobs := CancelAll(s.jobs)), Flagged(true))
  }

  // ----- Runs --------------------------------------------------------------------------------

  datatype Input =
    | Reported(report: Report)
    | Submitted(robot: RobotId, goal: NodeId, luck: Luck)
    | Ticked(now: int, order: seq<Expiry>, lucks: seq<Luck>)
    | JobCancelled(job: nat)
    | GateReset(force: bool)

  ghost predicate Possible(cfg: Config, s: System, i: Input) {
    match i
    case Reported(rep) =>
      && (SeenBlock(rep).Some? ==> SeenBlock(rep).value in cfg.reg.blocks)
      && (SeenBay(rep).Some? ==> SeenBay(rep).value in cfg.reg.bays)
    case Ticked(_, order, lucks) =>
      && VisitsAllBlocks(cfg.reg, order) && |lucks| == |s.jobs|
      && (forall r :: r in s.robots <==> exists k :: 0 <= k < |order| && order[k].robot == r)
      && (forall k, l :: 0 <= k < l < |order| ==> order[k].robot != order[l].robot)
    case _ => true
  }

  ghost function Next(cfg: Config, s: System, i: Input): Response
    requires s.arbiter.Shaped(cfg.reg) && Possible(cfg, s, i)
  {
    match i
    case Reported(rep) => Ingest(cfg.reg, s, rep)
    case Submitted(r, goal, luck) => Submit(cfg, s, r, goal, luck)
    case Ticked(now, order, lucks) => Tick(cfg, s, now, order, lucks)
    case JobCancelled(j) => CancelJob(cfg.reg, s, j)
    case GateReset(force) => ResetGate(cfg.reg, s, force)
  }

  function Start(reg: Registry): System {
    System(Initial(reg), map[], [], [])
  }

  lemma IngestShape(reg: Registry, s: System, rep: Report)
    requires s.arbiter.Shaped(reg)
    ensures Ingest(reg, s, rep).system.arbiter.Shaped(reg)
  {
    var was := BlockOf(s.robots, rep.robot);
    CrossingShape(reg, s.arbiter, was, rep);
    if SeenBay(rep).Some? {
      OccupyShape(reg, Crossing(reg, s.arbiter, was, rep).state, SeenBay(rep).value, rep.robot);
    }
    hide State.Shaped, Crossing, OccupyBay;
  }

  lemma AdvanceFromShape(reg: Registry, s: System, j: nat, lucks: seq<Luck>)
    requires s.arbiter.Shaped(reg) && j <= |s.jobs| == |lucks|
    ensures AdvanceFrom(reg, s, j, lucks).system.arbiter.Shaped(reg)
    decreases |lucks| - j
  {
    hide State.Shaped, Advance;
    if j < |s.jobs| {
      AdvanceShape(reg, s, j, lucks[j]);
      if !Advance(reg, s, j, lucks[j]).verdict.Failed? {
        AdvanceFromShape(reg, Advance(reg, s, j, lucks[j]).system, j + 1, lucks);
      }
    }
  }

  lemma SubmitShape(cfg: Config, s: System, r: RobotId, goal: NodeId, luck: Luck)
    requires s.arbiter.Shaped(cfg.reg)
    ensures Submit(cfg, s, r, goal, luck).system.arbiter.Shaped(cfg.reg)
  {
    hide State.Shaped, Attempt, SafeNode, ResolveRoute, OpenJob;
    var start := SafeNode(cfg.reg, s.robots, r);
    if start.Some? {
      var route := ResolveRoute(cfg.reg.routes, start.value, goal);
      if route.Some? {
        AttemptShape(cfg.reg, s.(jobs := s.jobs + [Job(r, route.value.steps, 0, WAITING)]), |s.jobs|, luck);
      }
    }
  }

  lemma CancelJobShape(reg: Registry, s: System, j: nat)
    requires s.arbiter.Shaped(reg)
    ensures CancelJob(reg, s, j).system.arbiter.Shaped(reg)
  {
    if j < |s.jobs| && s.jobs[j].HasStep() && s.jobs[j].Current().block in reg.blocks {
      var b := s.jobs[j].Current().block;
      HomeKnown(reg, s.arbiter, b);
      CancelShape(reg, s.arbiter, s.jobs[j].robot, Some(b), [reg.blocks[b].domain]);
    }
    hide State.Shaped, Cancel;
  }

  lemma NextShape(cfg: Config, s: System, i: Input)
    requires s.arbiter.Shaped(cfg.reg) && Possible(cfg, s, i)
    ensures Next(cfg, s, i).system.arbiter.Shaped(cfg.reg)
  {
    assert cfg.reg.WellFormed();
    hide State.Shaped, Ingest, Submit, AdvanceFrom, ExpireStale, CancelJob;
    match i
    case Reported(rep) => IngestShape(cfg.reg, s, rep);
    case Submitted(r, goal, luck) => SubmitShape(cfg, s, r, goal, luck);
    case Ticked(now, order, lucks) =>
      ExpireShape(cfg, s, now, order);
      AdvanceFromShape(cfg.reg, ExpireStale(cfg, s, now, order).system, 0, lucks);
    case JobCancelled(j) => CancelJobShape(cfg.reg, s, j);
    case GateReset(force) => InitialShape(cfg.reg);
  }

  /** `s` can be reached from the start by the inputs. */
  ghost predicate Reaches(cfg: Config, inputs: seq<Input>, s: System)
    requires cfg.reg.WellFormed()
    decreases |inputs|
  {
    if inputs == [] then s == Start(cfg.reg)
    else
      exists before: System ::
        && before.arbiter.Shaped(cfg.reg) && Reaches(cfg, inputs[..|inputs| - 1], before)
        && Possible(cfg, before, inputs[|inputs| - 1])
        && s == Next(cfg, before, inputs[|inputs| - 1]).system
  }
}
