/** The tracker and the gate as the objects they are, on top of the arbiter object: each
    public operation is one atomic method, proved to compute the function of GateSpec that
    specifies it. What the server answers, and what the clock shows, are arguments. */
module TaskGates {
  import opened Models
  import opened ArbiterSpec
  import opened ArbiterSteps
  import opened DirectionArbiters
  import opened GateSpec

  // ----- Orders that the dictionaries and sets are iterated in ------------------------------

  method KeysOf<K(==), V>(m: map<K, V>) returns (keys: seq<K>)
    ensures forall k :: k in m <==> exists i :: 0 <= i < |keys| && keys[i] == k
    ensures forall i, j :: 0 <= i < j < |keys| ==> keys[i] != keys[j]
  {
    keys := [];
    var rest := m.Keys;
    while rest != {}
      invariant forall k :: k in m <==> k in rest || exists i :: 0 <= i < |keys| && keys[i] == k
      invariant forall i :: 0 <= i < |keys| ==> keys[i] !in rest
      invariant forall i, j :: 0 <= i < j < |keys| ==> keys[i] != keys[j]
      decreases rest
    {
      var k :| k in rest;
      rest := rest - {k};
      ghost var was := keys;
      keys := keys + [k];
      assert keys[|was|] == k && forall i :: 0 <= i < |was| ==> keys[i] == was[i];
    }
  }

  lemma AnyVisits(reg: Registry, order: seq<RobotId>) returns (visits: seq<Expiry>)
    requires reg.WellFormed()
    ensures VisitsAllBlocks(reg, visits) && |visits| == |order|
    ensures forall k :: 0 <= k < |order| ==> visits[k].robot == order[k]
  {
    hide VisitsTargets;
    var visit := FullVisit(reg);
    visits := seq(|order|, k requires 0 <= k < |order| => Expiry(order[k], visit));
  }

  lemma FullVisit(reg: Registry) returns (visit: seq<DomainId>)
    requires reg.WellFormed()
    ensures VisitsTargets(reg, None, visit)
  {
    visit := SomeVisit(reg, reg.blockOrder);
  }

  lemma ExpiryUnrolls(cfg: Config, s: System, now: int, e: Expiry, rest: seq<Expiry>)
    requires s.arbiter.Shaped(cfg.reg) && VisitsTargets(cfg.reg, None, e.visit) && VisitsAllBlocks(cfg.reg, rest)
    ensures VisitsAllBlocks(cfg.reg, [e] + rest) && forall d :: d in e.visit ==> d in s.arbiter.domains
    ensures Fault(cfg.reg, s.arbiter, e.robot, e.visit).state.Shaped(cfg.reg)
    ensures ExpireStale(cfg, s, now, [e] + rest)
         == if e.robot !in s.robots || !Stale(cfg, s.robots[e.robot], now) then ExpireStale(cfg, s, now, rest)
            else
              var f := Fault(cfg.reg, s.arbiter, e.robot, e.visit);
              var t := s.(arbiter := f.state, robots := s.robots[e.robot := s.robots[e.robot].(faulted := true)]);
              if f.Ok() then ExpireStale(cfg, t, now, rest) else Response(t, Failed(f.reply.error))
  {
    hide VisitsTargets, State.Shaped, Fault, Stale;
    VisitedKnown(cfg.reg, s.arbiter, e.visit);
    FaultShape(cfg.reg, s.arbiter, e.robot, e.visit);
    assert ([e] + rest)[0] == e && ([e] + rest)[1..] == rest;
  }

  class RobotTracker {
    const reg: Registry
    const arbiter: DirectionArbiter
    const timeout: int
    var robots: map<RobotId, Telemetry>

    ghost function View(): System
      reads this, arbiter
    {
      System(arbiter.View(), robots, [], [])
    }

    ghost predicate Valid()
      reads this, arbiter
    {
      arbiter.reg == reg && arbiter.Valid()
    }

    constructor (arbiter: DirectionArbiter, timeout: int)
      requires arbiter.Valid()
      ensures Valid() && this.arbiter == arbiter && reg == arbiter.reg && this.timeout == timeout && robots == map[]
    {
      this.reg := arbiter.reg;
      this.arbiter := arbiter;
      this.timeout := timeout;
      this.robots := map[];
    }

    method SeeInside(r: RobotId, b: BlockId) returns (reply: Reply)
      requires Valid()
      modifies arbiter
      ensures Valid() && Effect(arbiter.View(), reply) == SeenInside(reg, old(arbiter.View()), r, b)
    {
      hide State.Shaped, MarkEntered, ReportUnexpected;
      EnteredFails(reg, arbiter.View(), r, b);
      reply := arbiter.RobotEntered(r, b);
      if reply == Raised(ValueError) {
        reply := arbiter.ReportUnexpectedOccupancy(r, b);
      }
    }

    /** An entry without a grant changes nothing. */
    static lemma EnteredFails(reg: Registry, a: State, r: RobotId, b: BlockId)
      requires a.Shaped(reg)
      ensures MarkEntered(reg, a, r, b).reply == Raised(ValueError) ==> MarkEntered(reg, a, r, b).state == a
    {
      hide QueuesShaped, GrantsShaped, Registry.WellFormed, ReconcileEach, ChecksPass, Enter;
    }

    method Cross(was: Option<BlockId>, rep: Report) returns (reply: Reply)
      requires Valid()
      modifies arbiter
      ensures Valid() && Effect(arbiter.View(), reply) == Crossing(reg, old(arbiter.View()), was, rep)
    {
      hide State.Shaped, SeenInside, MarkExited;
      var seen := SeenBlock(rep);
      if seen.Some? && seen != was {
        reply := SeeInside(rep.robot, seen.value);
      } else if was.Some? && seen.None? && SeenBay(rep).Some? {
        reply := arbiter.RobotExited(rep.robot, was.value);
      } else {
        reply := Done;
      }
    }

    method IngestState(rep: Report) returns (verdict: Verdict)
      requires Valid()
      modifies this, arbiter
      ensures Valid() && Response(View(), verdict) == Ingest(reg, old(View()), rep)
    {
      hide State.Shaped, Crossing, OccupyBay;
      var was := if rep.robot in robots then robots[rep.robot].block else None;
      var crossed := Cross(was, rep);
      if crossed.Raised? {
        return Failed(crossed.error);
      }
      var block := if SeenBlock(rep).Some? then SeenBlock(rep)
                   else if was.Some? && SeenBay(rep).None? then was else None;
      if SeenBay(rep).Some? && block.None? {
        var placed := arbiter.OccupyHoldingBay(SeenBay(rep).value, rep.robot);
        if placed.Raised? {
          return Failed(placed.error);
        }
      }
      robots := robots[rep.robot := TelemetryAfter(robots, rep)];
      return Okay;
    }

    /** `visits` is the order in which the robots were looked at, and in which each of
        their faults would visit the domains. */
    method ExpireStaleRobots(now: int) returns (verdict: Verdict, ghost visits: seq<Expiry>)
      requires Valid()
      modifies this, arbiter
      ensures Valid() && VisitsAllBlocks(reg, visits)
      ensures forall r :: r in old(robots) <==> exists k :: 0 <= k < |visits| && visits[k].robot == r
      ensures forall k, l :: 0 <= k < l < |visits| ==> visits[k].robot != visits[l].robot
      ensures Response(View(), verdict)
           == ExpireStale(Config(reg, timeout, true, false), old(View()), now, visits)
    {
      var order := KeysOf(robots);
      verdict, visits := ExpireInOrder(now, order);
    }

    method ExpireInOrder(now: int, order: seq<RobotId>) returns (verdict: Verdict, ghost visits: seq<Expiry>)
      requires Valid()
      modifies this, arbiter
      ensures Valid() && VisitsAllBlocks(reg, visits)
      ensures |visits| == |order| && forall k :: 0 <= k < |order| ==> visits[k].robot == order[k]
      ensures Response(View(), verdict)
           == ExpireStale(Config(reg, timeout, true, false), old(View()), now, visits)
      decreases |order|
    {
      assert reg.WellFormed();
      hide State.Shaped, Fault, VisitsTargets;
      ghost var cfg := Config(reg, timeout, true, false);
      if order == [] {
        return Okay, [];
      }
      var r := order[0];
      if r in robots && Stale(Config(reg, timeout, true, false), robots[r], now) {
        ghost var was := View();
        robots := robots[r := robots[r].(faulted := true)];
        var reply, visit := arbiter.ReportFault(r);
        if reply.Raised? {
          visits := AnyVisits(reg, order[1..]);
          ExpiryUnrolls(cfg, was, now, Expiry(r, visit), visits);
          return Failed(reply.error), [Expiry(r, visit)] + visits;
        }
        verdict, visits := ExpireInOrder(now, order[1..]);
        ExpiryUnrolls(cfg, was, now, Expiry(r, visit), visits);
        visits := [Expiry(r, visit)] + visits;
      } else {
        ghost var first := AnyVisits(reg, [r]);
        ghost var was := View();
        verdict, visits := ExpireInOrder(now, order[1..]);
        ExpiryUnrolls(cfg, was, now, first[0], visits);
        visits := [first[0]] + visits;
      }
    }
  }

  class TaskGate {
    const reg: Registry
    const arbiter: DirectionArbiter
    const tracker: RobotTracker
    const enabled: bool
    const bypassUnmatched: bool
    var jobs: seq<Job>
    ghost var log: seq<Forward>

    ghost function Cfg(): Config {
      Config(reg, tracker.timeout, enabled, bypassUnmatched)
    }

    ghost function View(): System
      reads this, tracker, arbiter
    {
      System(arbiter.View(), tracker.robots, jobs, log)
    }

    ghost predicate Valid()
      reads this, tracker, arbiter
    {
      tracker.arbiter == arbiter && tracker.reg == reg && tracker.Valid()
    }

    constructor (tracker: RobotTracker, enabled: bool, bypassUnmatched: bool)
      requires tracker.Valid()
      ensures Valid() && this.tracker == tracker && arbiter == tracker.arbiter
      ensures jobs == [] && log == [] && this.enabled == enabled && this.bypassUnmatched == bypassUnmatched
    {
      this.reg := tracker.reg;
      this.arbiter := tracker.arbiter;
      this.tracker := tracker;
      this.enabled := enabled;
      this.bypassUnmatched := bypassUnmatched;
      this.jobs := [];
      this.log := [];
    }

    method SetStatus(j: nat, status: Status)
      requires Valid() && j < |jobs|
      modifies `jobs
      ensures Valid() && View() == WithStatus(old(View()), j, status)
    {
      jobs := jobs[j := jobs[j].(status := status)];
    }

    method ForwardCurrentStep(j: nat, outcome: Outcome) returns (verdict: Verdict)
      requires Valid() && j < |jobs| && jobs[j].HasStep() && jobs[j].Current().block in reg.blocks
      modifies this, arbiter
      ensures Valid() && |jobs| == |old(jobs)|
      ensures Response(View(), verdict) == ForwardStep(reg, old(View()), j, outcome)
    {
      hide State.Shaped, Cancel;
      var job := jobs[j];
      var step := job.Current();
      log := log + [Forward(j, job.index, step.goal, outcome, arbiter.View())];
      match outcome
      case Rejected =>
        ghost var visit: seq<DomainId>;
        var reply: Reply;
        reply, visit := arbiter.CancelRequests(job.robot, Some(step.block));
        if reply.Raised? {
          return Failed(reply.error);
        }
        SetStatus(j, BLOCKED);
        return Refused;
      case Unknown =>
        SetStatus(j, ACTIVE);
        return Uncertain;
      case Unsuccessful =>
        SetStatus(j, RETRY);
        return RetryLater;
      case Accepted =>
        SetStatus(j, ACTIVE);
        return Admitted;
    }

    method AttemptCurrentStep(j: nat, luck: Luck) returns (verdict: Verdict)
      requires Valid() && j < |jobs|
      modifies this, arbiter
      ensures Valid() && |jobs| == |old(jobs)|
      ensures Response(View(), verdict) == Attempt(reg, old(View()), j, luck)
    {
      hide State.Shaped, Request, ForwardStep;
      var job := jobs[j];
      if !job.HasStep() {
        SetStatus(j, COMPLETE);
        return Finished;
      }
      var reply := arbiter.AskDecision(job.robot, job.Current().block);
      if !reply.Raised? && reply != Answer(Admit) {
        reply := arbiter.RequestEntry(ForStep(job, luck.time));
      }
      match reply
      case Raised(error) => return Failed(error);
      case Answer(decision) =>
        if decision == Wait {
          SetStatus(j, WAITING);
          return Held;
        } else if decision == Blocked {
          SetStatus(j, BLOCKED);
          return Refused;
        }
        verdict := ForwardCurrentStep(j, luck.outcome);
      case _ => return Okay;
    }

    method HasOpenJob(r: RobotId) returns (found: bool)
      ensures found == OpenJob(jobs, r)
    {
      for j := 0 to |jobs|
        invariant forall i :: 0 <= i < j ==> jobs[i].robot != r || !jobs[i].Open()
      {
        if jobs[j].robot == r && jobs[j].Open() {
          return true;
        }
      }
      return false;
    }

    method FindRoute(start: NodeId, goal: NodeId) returns (route: Option<Route>)
      ensures route == ResolveRoute(reg.routes, start, goal)
    {
      for i := 0 to |reg.routes|
        invariant ResolveRoute(reg.routes[i..], start, goal) == ResolveRoute(reg.routes, start, goal)
      {
        assert reg.routes[i..][0] == reg.routes[i] && reg.routes[i..][1..] == reg.routes[i + 1..];
        if start in reg.routes[i].starts && goal in reg.routes[i].goals {
          return Some(reg.routes[i]);
        }
      }
      return None;
    }

    method SubmitTask(r: RobotId, goal: NodeId, luck: Luck) returns (verdict: Verdict)
      requires Valid()
      modifies this, arbiter
      ensures Valid() && Response(View(), verdict) == Submit(Cfg(), old(View()), r, goal, luck)
    {
      hide State.Shaped, Attempt, SafeNode, ResolveRoute, OpenJob;
      if !enabled {
        return Bypassed;
      }
      var start := SafeNode(reg, tracker.robots, r);
      if start == None {
        return Refused;
      }
      var route := FindRoute(start.value, goal);
      if route == None {
        return if bypassUnmatched then Bypassed else Refused;
      }
      var busy := HasOpenJob(r);
      if busy {
        return Refused;
      }
      jobs := jobs + [Job(r, route.value.steps, 0, WAITING)];
      verdict := AttemptCurrentStep(|jobs| - 1, luck);
    }

    method AdvanceJob(j: nat, luck: Luck) returns (verdict: Verdict)
      requires Valid() && j < |jobs|
      modifies this, arbiter
      ensures Valid() && |jobs| == |old(jobs)|
      ensures Response(View(), verdict) == Advance(reg, old(View()), j, luck)
    {
      hide State.Shaped, Attempt, SafeNode;
      if !jobs[j].Open() {
        return Okay;
      }
      if !jobs[j].HasStep() {
        SetStatus(j, COMPLETE);
        return Okay;
      }
      if jobs[j].status.ACTIVE? {
        if !HasArrived(reg, tracker.robots, jobs[j].robot, jobs[j].Current().goal) {
          return Okay;
        }
        jobs := jobs[j := jobs[j].(index := jobs[j].index + 1)];
        if !jobs[j].HasStep() {
          jobs := jobs[j := jobs[j].(status := COMPLETE)];
          assert jobs == old(jobs)[j := jobs[j]];
          return Okay;
        }
        jobs := jobs[j := jobs[j].(status := WAITING)];
        assert jobs == old(jobs)[j := jobs[j]];
      }
      verdict := AttemptCurrentStep(j, luck);
    }

    method TickAll(now: int, lucks: seq<Luck>) returns (verdict: Verdict, ghost visits: seq<Expiry>)
      requires Valid() && |lucks| == |jobs|
      modifies this, tracker, arbiter
      ensures Valid() && Possible(Cfg(), old(View()), Ticked(now, visits, lucks))
      ensures Response(View(), verdict) == Tick(Cfg(), old(View()), now, visits, lucks)
    {
      hide State.Shaped, Advance, Stale, Fault, VisitsTargets;
      ghost var s := View();
      ghost var t := tracker.View();
      verdict, visits := tracker.ExpireStaleRobots(now);
      ExpiryFrame(Cfg(), Config(reg, tracker.timeout, true, false), s, t, now, visits);
      if verdict.Failed? {
        return;
      }
      ghost var goal := AdvanceFrom(reg, View(), 0, lucks);
      for j := 0 to |jobs|
        invariant Valid() && |jobs| == |lucks|
        invariant AdvanceFrom(reg, View(), j, lucks) == goal
      {
        AdvanceShape(reg, View(), j, lucks[j]);
        verdict := AdvanceJob(j, lucks[j]);
        if verdict.Failed? {
          return;
        }
      }
      return Okay, visits;
    }

    /** Expiry looks at the arbiter and the robots only. */
    static lemma ExpiryFrame(cfg: Config, cfg2: Config, s: System, t: System, now: int, order: seq<Expiry>)
      requires cfg.reg == cfg2.reg && cfg.timeout == cfg2.timeout
      requires s.arbiter == t.arbiter && s.robots == t.robots
      requires s.arbiter.Shaped(cfg.reg) && VisitsAllBlocks(cfg.reg, order)
      ensures var e, f := ExpireStale(cfg, s, now, order), ExpireStale(cfg2, t, now, order);
              e.verdict == f.verdict && e.system == s.(arbiter := f.system.arbiter, robots := f.system.robots)
      decreases |order|
    {
      hide State.Shaped, Fault, VisitsTargets;
      if order != [] {
        var r := order[0].robot;
        if r !in s.robots || !Stale(cfg, s.robots[r], now) {
          ExpiryFrame(cfg, cfg2, s, t, now, order[1..]);
        } else {
          VisitedKnown(cfg.reg, s.arbiter, order[0].visit);
          FaultShape(cfg.reg, s.arbiter, r, order[0].visit);
          var e := Fault(cfg.reg, s.arbiter, r, order[0].visit);
          var after := s.robots[r := s.robots[r].(faulted := true)];
          if e.Ok() {
            ExpiryFrame(cfg, cfg2, s.(arbiter := e.state, robots := after), t.(arbiter := e.state, robots := after), now, order[1..]);
          }
        }
      }
    }

    method CancelTask(j: nat) returns (verdict: Verdict)
      requires Valid()
      modifies this, arbiter
      ensures Valid() && Response(View(), verdict) == CancelJob(reg, old(View()), j)
    {
      hide State.Shaped, Cancel;
      if j >= |jobs| {
        return Flagged(false);
      }
      var job := jobs[j];
      if job.status.ACTIVE? || job.status.COMPLETE? || job.status.CANCELLED? {
        return Flagged(false);
      }
      if !job.HasStep() || job.Current().block !in reg.blocks {
        return Failed(KeyError);
      }
      ghost var visit: seq<DomainId>;
      var reply: Reply;
      reply, visit := arbiter.CancelRequests(job.robot, Some(job.Current().block));
      if reply.Raised? {
        return Failed(reply.error);
      }
      if reply == Flag(false) && job.status.RETRY? {
        return Flagged(false);
      }
      SetStatus(j, CANCELLED);
      return Flagged(true);
    }

    method ResetTasks(force: bool) returns (verdict: Verdict)
      requires Valid()
      modifies this, arbiter
      ensures Valid() && Response(View(), verdict) == ResetGate(reg, old(View()), force)
    {
      hide State.Shaped, Initial;
      ghost var was := jobs;
      var reply := arbiter.ResetAll(force);
      if reply == Flag(false) {
        return Flagged(false);
      }
      for j := 0 to |jobs|
        invariant Valid() && arbiter.View() == Reset(reg, old(arbiter.View()), force).state
        invariant tracker.robots == old(tracker.robots) && log == old(log) && |jobs| == |was|
        invariant forall i :: 0 <= i < j ==> jobs[i] == CancelAll(was)[i]
        invariant forall i :: j <= i < |jobs| ==> jobs[i] == was[i]
      {
        if !jobs[j].status.COMPLETE? && !jobs[j].status.CANCELLED? {
          jobs := jobs[j := jobs[j].(status := CANCELLED)];
        }
      }
      assert jobs == CancelAll(was);
      return Flagged(true);
    }
  }
}
