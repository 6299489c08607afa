/** The gate and the tracker drive the arbiter only through its public operations, so
    whatever holds over all runs of the arbiter holds of the arbiter inside the system. */
module GateRuns {
  import opened Models
  import opened ArbiterSpec
  import opened ArbiterSteps
  import opened ArbiterSafety
  import opened ArbiterRuns
  import opened ArbiterGuarantees
  import opened GateSpec

  ghost predicate AllFeasible(reg: Registry, es: seq<Event>) {
    forall i :: 0 <= i < |es| ==> Feasible(reg, es[i])
  }

  lemma {:induction false} RunAppend(reg: Registry, a: State, es: seq<Event>, fs: seq<Event>)
    requires a.Shaped(reg) && AllFeasible(reg, es) && AllFeasible(reg, fs)
    ensures AllFeasible(reg, es + fs) && Run(reg, a, es).Shaped(reg)
    ensures Run(reg, a, es + fs) == Run(reg, Run(reg, a, es), fs)
    decreases |es|
  {
    hide Step, State.Shaped, Feasible;
    if es == [] {
      assert [] + fs == fs;
    } else {
      StepShape(reg, a, es[0]);
      RunAppend(reg, Step(reg, a, es[0]).state, es[1..], fs);
      assert (es + fs)[0] == es[0] && (es + fs)[1..] == es[1..] + fs;
    }
  }

  /** `b` is what `a` becomes under the events `es`. */
  ghost predicate Leads(reg: Registry, a: State, es: seq<Event>, b: State) {
    a.Shaped(reg) && AllFeasible(reg, es) && Run(reg, a, es) == b
  }

  lemma LeadsOn(reg: Registry, a: State, es: seq<Event>, b: State, fs: seq<Event>, c: State)
    requires Leads(reg, a, es, b) && Leads(reg, b, fs, c)
    ensures Leads(reg, a, es + fs, c)
  {
    RunAppend(reg, a, es, fs);
  }

  lemma LeadsNowhere(reg: Registry, a: State)
    requires a.Shaped(reg)
    ensures Leads(reg, a, [], a)
  {
  }

  lemma LeadsByOne(reg: Registry, a: State, e: Event)
    requires a.Shaped(reg) && Feasible(reg, e)
    ensures Leads(reg, a, [e], Step(reg, a, e).state)
  {
  }

  /** Nobody leaves a block and nothing is reset. */
  predicate Quiet(es: seq<Event>) {
    forall i :: 0 <= i < |es| ==> !es[i].Exited? && !es[i].WasReset?
  }

  // ----- Every step of the system is a run of the arbiter ----------------------------------

  lemma OneVisit(reg: Registry, b: BlockId)
    requires b in reg.blocks
    ensures VisitsTargets(reg, Some(b), [reg.blocks[b].domain])
  {
    forall d
      ensures d in [reg.blocks[b].domain] <==> exists c :: c in Targets(reg, Some(b)) && reg.InDomain(c, d)
    {
      assert b in Targets(reg, Some(b));
    }
  }

  lemma CrossingLeads(reg: Registry, a: State, was: Option<BlockId>, rep: Report) returns (es: seq<Event>)
    requires a.Shaped(reg)
    ensures Leads(reg, a, es, Crossing(reg, a, was, rep).state)
    ensures Quiet(es) || (was.Some? && SeenBlock(rep).None? && SeenBay(rep).Some? && es == [Exited(rep.robot, was.value)])
  {
    hide State.Shaped, MarkEntered, MarkExited, ReportUnexpected;
    var seen := SeenBlock(rep);
    if seen.Some? && seen != was {
      var e := if MarkEntered(reg, a, rep.robot, seen.value).reply == Raised(ValueError)
               then SeenUnexpectedly(rep.robot, seen.value) else Entered(rep.robot, seen.value);
      LeadsByOne(reg, a, e);
      es := [e];
    } else if was.Some? && seen.None? && SeenBay(rep).Some? {
      LeadsByOne(reg, a, Exited(rep.robot, was.value));
      es := [Exited(rep.robot, was.value)];
    } else {
      LeadsNowhere(reg, a);
      es := [];
    }
  }

  lemma IngestLeads(reg: Registry, s: System, rep: Report) returns (es: seq<Event>)
    requires s.arbiter.Shaped(reg)
    ensures Leads(reg, s.arbiter, es, Ingest(reg, s, rep).system.arbiter)
    ensures Quiet(es)
         || (BlockOf(s.robots, rep.robot).Some? && SeenBlock(rep).None? && SeenBay(rep).Some?
             && |es| > 0 && es[0] == Exited(rep.robot, BlockOf(s.robots, rep.robot).value) && Quiet(es[1..]))
  {
    hide State.Shaped, Crossing, OccupyBay, Run;
    var was := BlockOf(s.robots, rep.robot);
    var crossed := Crossing(reg, s.arbiter, was, rep);
    CrossingShape(reg, s.arbiter, was, rep);
    es := CrossingLeads(reg, s.arbiter, was, rep);
    if crossed.Ok() && SeenBay(rep).Some? && BlockAfter(was, rep).None? {
      var e := Occupied(SeenBay(rep).value, rep.robot);
      LeadsByOne(reg, crossed.state, e);
      LeadsOn(reg, s.arbiter, es, crossed.state, [e], OccupyBay(reg, crossed.state, e.bay, e.robot).state);
      es := es + [e];
    }
  }

  lemma ExpireLeads(cfg: Config, s: System, now: int, order: seq<Expiry>) returns (es: seq<Event>)
    requires s.arbiter.Shaped(cfg.reg) && VisitsAllBlocks(cfg.reg, order)
    ensures Leads(cfg.reg, s.arbiter, es, ExpireStale(cfg, s, now, order).system.arbiter) && Quiet(es)
    decreases |order|
  {
    hide State.Shaped, Fault, Run, Stale;
    if order == [] {
      LeadsNowhere(cfg.reg, s.arbiter);
      es := [];
    } else {
      var r := order[0].robot;
      if r !in s.robots || !Stale(cfg, s.robots[r], now) {
        es := ExpireLeads(cfg, s, now, order[1..]);
      } else {
        var event := FaultedAt(r, order[0].visit);
        VisitedKnown(cfg.reg, s.arbiter, order[0].visit);
        FaultShape(cfg.reg, s.arbiter, r, order[0].visit);
        var e := Fault(cfg.reg, s.arbiter, r, order[0].visit);
        var t := s.(arbiter := e.state, robots := s.robots[r := s.robots[r].(faulted := true)]);
        LeadsByOne(cfg.reg, s.arbiter, event);
        es := [event];
        if e.Ok() {
          var rest := ExpireLeads(cfg, t, now, order[1..]);
          LeadsOn(cfg.reg, s.arbiter, es, e.state, rest, ExpireStale(cfg, t, now, order[1..]).system.arbiter);
          es := es + rest;
        }
      }
    }
  }

  lemma ForwardLeads(reg: Registry, s: System, j: nat, outcome: Outcome) returns (es: seq<Event>)
    requires s.arbiter.Shaped(reg) && j < |s.jobs| && s.jobs[j].HasStep()
    requires s.jobs[j].Current().block in reg.blocks
    ensures Leads(reg, s.arbiter, es, ForwardStep(reg, s, j, outcome).system.arbiter) && Quiet(es)
    ensures outcome.Rejected? || es == []
  {
    var b := s.jobs[j].Current().block;
    HomeKnown(reg, s.arbiter, b);
    OneVisit(reg, b);
    hide State.Shaped, Cancel, Run;
    if outcome.Rejected? {
      LeadsByOne(reg, s.arbiter, Cancelled(s.jobs[j].robot, Some(b), [reg.blocks[b].domain]));
      es := [Cancelled(s.jobs[j].robot, Some(b), [reg.blocks[b].domain])];
    } else {
      LeadsNowhere(reg, s.arbiter);
      es := [];
    }
  }

  lemma AttemptLeads(reg: Registry, s: System, j: nat, luck: Luck) returns (es: seq<Event>)
    requires s.arbiter.Shaped(reg) && j < |s.jobs|
    ensures Leads(reg, s.arbiter, es, Attempt(reg, s, j, luck).system.arbiter) && Quiet(es)
  {
    var job := s.jobs[j];
    assert job.HasStep() && !DecisionFor(reg, s.arbiter, job.robot, job.Current().block).Raised? ==>
      job.Current().block in reg.blocks;
    hide State.Shaped, Request, DecisionFor, ForwardStep, Run;
    LeadsNowhere(reg, s.arbiter);
    es := [];
    if job.HasStep() {
      var asked := DecisionFor(reg, s.arbiter, job.robot, job.Current().block);
      if !asked.Raised? {
        var x := ForStep(job, luck.time);
        RequestShape(reg, s.arbiter, x);
        var t := s;
        if asked != Answer(Admit) {
          LeadsByOne(reg, s.arbiter, Requested(x));
          es := [Requested(x)];
          t := s.(arbiter := Request(reg, s.arbiter, x).state);
        }
        if Attempt(reg, s, j, luck) == ForwardStep(reg, t, j, luck.outcome) {
          var fs := ForwardLeads(reg, t, j, luck.outcome);
          LeadsOn(reg, s.arbiter, es, t.arbiter, fs, Attempt(reg, s, j, luck).system.arbiter);
          es := es + fs;
        }
      }
    }
  }

  lemma AdvanceLeads(reg: Registry, s: System, j: nat, luck: Luck) returns (es: seq<Event>)
    requires s.arbiter.Shaped(reg) && j < |s.jobs|
    ensures Leads(reg, s.arbiter, es, Advance(reg, s, j, luck).system.arbiter) && Quiet(es)
  {
    hide State.Shaped, Attempt, HasArrived, Run;
    var job := s.jobs[j];
    var t := if job.status.ACTIVE? then s.(jobs := s.jobs[j := job.(index := job.index + 1, status := WAITING)]) else s;
    if Advance(reg, s, j, luck) == Attempt(reg, t, j, luck) {
      es := AttemptLeads(reg, t, j, luck);
    } else {
      LeadsNowhere(reg, s.arbiter);
      es := [];
    }
  }

  lemma AdvanceFromLeads(reg: Registry, s: System, j: nat, lucks: seq<Luck>) returns (es: seq<Event>)
    requires s.arbiter.Shaped(reg) && j <= |s.jobs| == |lucks|
    ensures Leads(reg, s.arbiter, es, AdvanceFrom(reg, s, j, lucks).system.arbiter) && Quiet(es)
    decreases |lucks| - j
  {
    hide State.Shaped, Advance, Run;
    if j == |s.jobs| {
      LeadsNowhere(reg, s.arbiter);
      es := [];
    } else {
      var first := Advance(reg, s, j, lucks[j]);
      AdvanceShape(reg, s, j, lucks[j]);
      es := AdvanceLeads(reg, s, j, lucks[j]);
      if !first.verdict.Failed? {
        var rest := AdvanceFromLeads(reg, first.system, j + 1, lucks);
        LeadsOn(reg, s.arbiter, es, first.system.arbiter, rest, AdvanceFrom(reg, s, j, lucks).system.arbiter);
        es := es + rest;
      }
    }
  }

  lemma SubmitLeads(cfg: Config, s: System, r: RobotId, goal: NodeId, luck: Luck) returns (es: seq<Event>)
    requires s.arbiter.Shaped(cfg.reg)
    ensures Leads(cfg.reg, s.arbiter, es, Submit(cfg, s, r, goal, luck).system.arbiter) && Quiet(es)
  {
    hide State.Shaped, Attempt, SafeNode, ResolveRoute, OpenJob, Run;
    LeadsNowhere(cfg.reg, s.arbiter);
    es := [];
    var start := SafeNode(cfg.reg, s.robots, r);
    if start.Some? {
      var route := ResolveRoute(cfg.reg.routes, start.value, goal);
      if route.Some? && Submit(cfg, s, r, goal, luck).system != s {
        es := AttemptLeads(cfg.reg, s.(jobs := s.jobs + [Job(r, route.value.steps, 0, WAITING)]), |s.jobs|, luck);
      }
    }
  }

  lemma CancelJobLeads(reg: Registry, s: System, j: nat) returns (es: seq<Event>)
    requires s.arbiter.Shaped(reg)
    ensures Leads(reg, s.arbiter, es, CancelJob(reg, s, j).system.arbiter) && Quiet(es)
  {
    hide State.Shaped, Cancel, Run;
    if CancelJob(reg, s, j).system == s {
      LeadsNowhere(reg, s.arbiter);
      es := [];
    } else {
      var b := s.jobs[j].Current().block;
      HomeKnown(reg, s.arbiter, b);
      OneVisit(reg, b);
      LeadsByOne(reg, s.arbiter, Cancelled(s.jobs[j].robot, Some(b), [reg.blocks[b].domain]));
      es := [Cancelled(s.jobs[j].robot, Some(b), [reg.blocks[b].domain])];
    }
  }

  /** Every step of the system takes the arbiter along a run of its own; only a report
      of the robot in a bay and outside every block makes it leave one. */
  lemma NextLeads(cfg: Config, s: System, i: Input) returns (es: seq<Event>)
    requires s.arbiter.Shaped(cfg.reg) && Possible(cfg, s, i)
    ensures Leads(cfg.reg, s.arbiter, es, Next(cfg, s, i).system.arbiter)
    ensures match i
            case Reported(rep) =>
              Quiet(es)
              || (BlockOf(s.robots, rep.robot).Some? && SeenBlock(rep).None? && SeenBay(rep).Some?
                  && |es| > 0 && es[0] == Exited(rep.robot, BlockOf(s.robots, rep.robot).value) && Quiet(es[1..]))
            case GateReset(force) => es == [WasReset(force)]
            case _ => Quiet(es)
  {
    hide State.Shaped, Ingest, Submit, AdvanceFrom, ExpireStale, CancelJob, Run, AllFeasible;
    match i
    case Reported(rep) => es := IngestLeads(cfg.reg, s, rep);
    case Submitted(r, goal, luck) => es := SubmitLeads(cfg, s, r, goal, luck);
    case Ticked(now, order, lucks) =>
      es := ExpireLeads(cfg, s, now, order);
      ExpireShape(cfg, s, now, order);
      var e := ExpireStale(cfg, s, now, order);
      if !e.verdict.Failed? {
        var rest := AdvanceFromLeads(cfg.reg, e.system, 0, lucks);
        LeadsOn(cfg.reg, s.arbiter, es, e.system.arbiter, rest, AdvanceFrom(cfg.reg, e.system, 0, lucks).system.arbiter);
        es := es + rest;
      }
    case JobCancelled(j) => es := CancelJobLeads(cfg.reg, s, j);
    case GateReset(force) =>
      LeadsByOne(cfg.reg, s.arbiter, WasReset(force));
      es := [WasReset(force)];
  }

  /** The safety core of the arbiter holds in every reachable state of the system. */
  lemma {:induction false} SystemKeepsCore(cfg: Config, inputs: seq<Input>, s: System)
    requires cfg.reg.WellFormed() && Reaches(cfg, inputs, s)
    ensures Core(cfg.reg, s.arbiter)
    decreases |inputs|
  {
    if inputs == [] {
      InitialCore(cfg.reg);
    } else {
      hide Next, State.Shaped, GrantsHeld, QueuesDistinct, WithinCapacity, OneDirection, Run;
      var before: System :|
        && before.arbiter.Shaped(cfg.reg) && Reaches(cfg, inputs[..|inputs| - 1], before)
        && Possible(cfg, before, inputs[|inputs| - 1])
        && s == Next(cfg, before, inputs[|inputs| - 1]).system;
      SystemKeepsCore(cfg, inputs[..|inputs| - 1], before);
      var es := NextLeads(cfg, before, inputs[|inputs| - 1]);
      RunKeepsCore(cfg.reg, before.arbiter, es);
    }
  }
}
