/** What the gate ever sends upstream: over every run, including cancellations, resets,
    refusals and calls that raise, each job's deliveries are exactly its route so far,
    and nothing is sent for a robot that was not admitted. */
module GateHistory {
  import opened Models
  import opened ArbiterSpec
  import opened ArbiterSteps
  import opened GateSpec

  /** The forwards of job `j` that the server has, or may have. */
  function Deliveries(log: seq<Forward>, j: nat): seq<Forward> {
    if log == [] then []
    else
      var last := log[|log| - 1];
      Deliveries(log[..|log| - 1], j) + (if last.job == j && last.outcome.Delivered() then [last] else [])
  }

  /** How many steps of a job have been delivered: those before the current one, and
      the current one while it is active. */
  function Sent(job: Job): nat {
    if job.status.ACTIVE? then job.index + 1 else job.index
  }

  /** The first `n` deliveries are the first `n` steps of the route, in order, each once. */
  ghost predicate Follows(sent: seq<Forward>, steps: seq<RouteStep>, n: nat) {
    && |sent| == n <= |steps|
    && forall i :: 0 <= i < n ==> sent[i].index == i && sent[i].goal == steps[i].goal
  }

  /** A job that was not cancelled has been delivered exactly as far as it has come; a
      reset may have cancelled one whose current step was with the server. */
  ghost predicate JobRecorded(log: seq<Forward>, j: nat, job: Job) {
    && (if job.status.CANCELLED?
        then Follows(Deliveries(log, j), job.steps, job.index) || Follows(Deliveries(log, j), job.steps, job.index + 1)
        else Follows(Deliveries(log, j), job.steps, Sent(job)))
    && (job.status.COMPLETE? ==> job.index == |job.steps|)
  }

  /** The robot was admitted to the block of the step, or already inside it. */
  ghost predicate WasAdmitted(f: Forward, job: Job) {
    && f.index < |job.steps| && f.goal == job.steps[f.index].goal
    && var b := job.steps[f.index].block;
       Key(job.robot, b) in f.during.grants
       || (b in f.during.blocks && job.robot in f.during.blocks[b].occupants)
  }

  ghost predicate OneOpenEach(jobs: seq<Job>) {
    forall i, j :: 0 <= i < j < |jobs| && jobs[i].Open() && jobs[j].Open() ==> jobs[i].robot != jobs[j].robot
  }

  ghost predicate Recorded(jobs: seq<Job>, log: seq<Forward>) {
    && OneOpenEach(jobs)
    && (forall f :: f in log ==> f.job < |jobs| && WasAdmitted(f, jobs[f.job]))
    && (forall j :: 0 <= j < |jobs| ==> JobRecorded(log, j, jobs[j]))
  }

  // ----- The log grows one forward at a time ----------------------------------------------

  lemma DeliveriesSnoc(log: seq<Forward>, f: Forward, j: nat)
    ensures Deliveries(log + [f], j) == Deliveries(log, j) + (if f.job == j && f.outcome.Delivered() then [f] else [])
  {
  }

  lemma DeliveriesOf(log: seq<Forward>, j: nat)
    ensures forall f :: f in Deliveries(log, j) ==> f in log && f.job == j && f.outcome.Delivered()
    ensures forall f :: f in log && f.job == j && f.outcome.Delivered() ==> f in Deliveries(log, j)
  {
  }

  /** Job `j` may now be `next`. */
  ghost predicate MayBecome(jobs: seq<Job>, j: nat, next: Job)
    requires j < |jobs|
  {
    next.robot == jobs[j].robot && next.steps == jobs[j].steps && (next.Open() ==> jobs[j].Open())
  }

  lemma JobChanged(jobs: seq<Job>, log: seq<Forward>, j: nat, next: Job)
    requires Recorded(jobs, log) && j < |jobs| && MayBecome(jobs, j, next) && JobRecorded(log, j, next)
    ensures Recorded(jobs[j := next], log)
  {
  }

  lemma LogGrows(jobs: seq<Job>, log: seq<Forward>, j: nat, next: Job, f: Forward)
    requires Recorded(jobs, log) && j < |jobs| && MayBecome(jobs, j, next) && f.job == j
    requires WasAdmitted(f, jobs[j]) && JobRecorded(log + [f], j, next)
    ensures Recorded(jobs[j := next], log + [f])
  {
    var after := jobs[j := next];
    forall i | 0 <= i < |jobs| && i != j ensures JobRecorded(log + [f], i, after[i]) {
      assert JobRecorded(log, i, jobs[i]);
      DeliveriesSnoc(log, f, i);
      assert Deliveries(log + [f], i) == Deliveries(log, i);
    }
    forall g | g in log + [f] ensures g.job < |after| && WasAdmitted(g, after[g.job]) {
      assert g in log || g == f;
    }
    hide JobRecorded;
  }

  // ----- What an attempt does to the job and the log --------------------------------------

  /** Nothing was forwarded. */
  ghost predicate Stayed(s: System, t: System, j: nat)
    requires j < |s.jobs| == |t.jobs|
  {
    var status := t.jobs[j].status;
    && t.log == s.log
    && (status == s.jobs[j].status || status.WAITING? || status.BLOCKED? || (status.COMPLETE? && !s.jobs[j].HasStep()))
  }

  /** The current step was forwarded while the robot was admitted. */
  ghost predicate Sends(s: System, t: System, j: nat, f: Forward)
    requires j < |s.jobs| == |t.jobs|
  {
    var status := t.jobs[j].status;
    && s.jobs[j].HasStep() && t.log == s.log + [f]
    && f.job == j && f.index == s.jobs[j].index && WasAdmitted(f, s.jobs[j])
    && (if f.outcome.Delivered() then status.ACTIVE?
        else status == s.jobs[j].status || status.RETRY? || status.BLOCKED?)
  }

  ghost predicate Attempted(s: System, t: System, j: nat)
    requires j < |s.jobs|
  {
    && |t.jobs| == |s.jobs| && t.robots == s.robots
    && t.jobs == s.jobs[j := s.jobs[j].(status := t.jobs[j].status)]
    && (Stayed(s, t, j) || exists f :: Sends(s, t, j, f))
  }

  lemma ForwardSends(reg: Registry, s: System, j: nat, outcome: Outcome)
    requires s.arbiter.Shaped(reg) && j < |s.jobs| && s.jobs[j].HasStep()
    requires var step := s.jobs[j].Current();
             && step.block in reg.blocks
             && (Key(s.jobs[j].robot, step.block) in s.arbiter.grants
                 || s.jobs[j].robot in s.arbiter.blocks[step.block].occupants)
    ensures Attempted(s, ForwardStep(reg, s, j, outcome).system, j)
  {
    var job := s.jobs[j];
    var f := Forward(j, job.index, job.Current().goal, outcome, s.arbiter);
    var t := ForwardStep(reg, s, j, outcome).system;
    HomeKnown(reg, s.arbiter, job.Current().block);
    assert s.jobs[j := job] == s.jobs;
    assert WasAdmitted(f, job);
    hide Cancel, State.Shaped, WasAdmitted;
    assert Sends(s, t, j, f);
  }

  lemma DecidedAdmit(reg: Registry, a: State, r: RobotId, b: BlockId)
    requires a.Shaped(reg) && DecisionFor(reg, a, r, b) == Answer(Admit)
    ensures b in reg.blocks && b in a.blocks && (Key(r, b) in a.grants || r in a.blocks[b].occupants)
  {
  }

  /** The arbiter answers ADMIT only to a robot that now holds a grant or is inside. */
  lemma RequestAdmits(reg: Registry, a: State, x: Reservation)
    requires a.Shaped(reg) && Request(reg, a, x).reply == Answer(Admit)
    ensures var t := Request(reg, a, x).state;
            && x.block in reg.blocks && x.block in t.blocks
            && (Key(x.robot, x.block) in t.grants || x.robot in t.blocks[x.block].occupants)
  {
    RequestShape(reg, a, x);
    hide Enqueue, Available, ChecksPass, Queues.Has, Reconcile, QueuesShaped, GrantsShaped, Registry.WellFormed;
  }

  lemma AttemptDoes(reg: Registry, s: System, j: nat, luck: Luck)
    requires s.arbiter.Shaped(reg) && j < |s.jobs|
    ensures Attempted(s, Attempt(reg, s, j, luck).system, j)
  {
    var job := s.jobs[j];
    var t := Attempt(reg, s, j, luck).system;
    assert s.jobs[j := job] == s.jobs;
    if job.HasStep() && job.Current().block in reg.blocks {
      var x := ForStep(job, luck.time);
      var asked := DecisionFor(reg, s.arbiter, job.robot, x.block);
      var e := if asked == Answer(Admit) then Effect(s.arbiter, asked) else Request(reg, s.arbiter, x);
      RequestShape(reg, s.arbiter, x);
      if e.reply == Answer(Admit) {
        if asked == Answer(Admit) {
          DecidedAdmit(reg, s.arbiter, job.robot, x.block);
        } else {
          RequestAdmits(reg, s.arbiter, x);
        }
        hide ForwardStep, Request, DecisionFor, State.Shaped, Stayed, Sends;
        var u := s.(arbiter := e.state);
        ForwardSends(reg, u, j, luck.outcome);
        SameJobs(s, u, t, j);
        return;
      }
    }
    hide ForwardStep, Request, State.Shaped, Sends;
  }

  lemma SameJobs(s: System, u: System, t: System, j: nat)
    requires j < |s.jobs| && u == s.(arbiter := u.arbiter) && Attempted(u, t, j)
    ensures Attempted(s, t, j)
  {
    if f :| Sends(u, t, j, f) {
      assert Sends(s, t, j, f);
    }
  }

  // ----- Every step keeps the record -----------------------------------------------------------

  lemma AttemptedRecorded(s: System, t: System, j: nat)
    requires j < |s.jobs| && Attempted(s, t, j) && Recorded(s.jobs, s.log)
    requires s.jobs[j].status.WAITING? || s.jobs[j].status.RETRY?
    ensures Recorded(t.jobs, t.log)
  {
    hide WasAdmitted, OneOpenEach, Deliveries, Recorded, JobRecorded;
    JobIsRecorded(s.jobs, s.log, j);
    if Stayed(s, t, j) {
      StayedRecorded(s.log, j, s.jobs[j], t.jobs[j]);
      JobChanged(s.jobs, s.log, j, t.jobs[j]);
    } else {
      var f :| Sends(s, t, j, f);
      SentRecorded(s.log, j, s.jobs[j], t.jobs[j], f);
      LogGrows(s.jobs, s.log, j, t.jobs[j], f);
    }
  }

  lemma JobIsRecorded(jobs: seq<Job>, log: seq<Forward>, j: nat)
    requires Recorded(jobs, log) && j < |jobs|
    ensures JobRecorded(log, j, jobs[j])
  {
  }

  lemma StayedRecorded(log: seq<Forward>, j: nat, job: Job, next: Job)
    requires JobRecorded(log, j, job) && (job.status.WAITING? || job.status.RETRY?)
    requires next == job.(status := next.status)
    requires next.status == job.status || next.status.WAITING? || next.status.BLOCKED?
             || (next.status.COMPLETE? && !job.HasStep())
    ensures JobRecorded(log, j, next)
  {
  }

  lemma SentRecorded(log: seq<Forward>, j: nat, job: Job, next: Job, f: Forward)
    requires JobRecorded(log, j, job) && (job.status.WAITING? || job.status.RETRY?) && WasAdmitted(f, job)
    requires next == job.(status := next.status) && f.job == j && f.index == job.index && job.HasStep()
    requires if f.outcome.Delivered() then next.status.ACTIVE?
             else next.status == job.status || next.status.RETRY? || next.status.BLOCKED?
    ensures JobRecorded(log + [f], j, next)
  {
    DeliveriesSnoc(log, f, j);
    hide Deliveries;
  }

  lemma AttemptRecorded(reg: Registry, s: System, j: nat, luck: Luck)
    requires s.arbiter.Shaped(reg) && Recorded(s.jobs, s.log) && j < |s.jobs|
    requires s.jobs[j].status.WAITING? || s.jobs[j].status.RETRY?
    ensures var t := Attempt(reg, s, j, luck).system; Recorded(t.jobs, t.log)
  {
    AttemptDoes(reg, s, j, luck);
    AttemptedRecorded(s, Attempt(reg, s, j, luck).system, j);
  }

  /** The robot has arrived: the step counts as done. */
  lemma ArrivalRecorded(jobs: seq<Job>, log: seq<Forward>, j: nat, next: Job)
    requires Recorded(jobs, log) && j < |jobs| && jobs[j].status.ACTIVE? && jobs[j].HasStep()
    requires next == jobs[j].(index := jobs[j].index + 1, status := next.status)
    requires next.status.WAITING? || (next.status.COMPLETE? && !next.HasStep())
    ensures Recorded(jobs[j := next], log)
  {
  }

  lemma EndedRecorded(jobs: seq<Job>, log: seq<Forward>, j: nat)
    requires Recorded(jobs, log) && j < |jobs| && !jobs[j].HasStep()
    ensures Recorded(jobs[j := jobs[j].(status := COMPLETE)], log)
  {
  }

  lemma AdvanceRecorded(reg: Registry, s: System, j: nat, luck: Luck)
    requires s.arbiter.Shaped(reg) && Recorded(s.jobs, s.log) && j < |s.jobs|
    ensures var t := Advance(reg, s, j, luck).system; Recorded(t.jobs, t.log)
  {
    hide Attempt, HasArrived, State.Shaped, Recorded;
    var job := s.jobs[j];
    if job.Open() {
      if !job.HasStep() {
        EndedRecorded(s.jobs, s.log, j);
      } else if !job.status.ACTIVE? {
        AttemptRecorded(reg, s, j, luck);
      } else {
        var next := job.(index := job.index + 1, status := WAITING);
        ArrivalRecorded(s.jobs, s.log, j, next);
        AttemptRecorded(reg, s.(jobs := s.jobs[j := next]), j, luck);
        if !next.HasStep() {
          ArrivalRecorded(s.jobs, s.log, j, next.(status := COMPLETE));
        }
      }
    }
  }

  lemma AdvanceFromRecorded(reg: Registry, s: System, j: nat, lucks: seq<Luck>)
    requires s.arbiter.Shaped(reg) && Recorded(s.jobs, s.log) && j <= |s.jobs| == |lucks|
    ensures var t := AdvanceFrom(reg, s, j, lucks).system; Recorded(t.jobs, t.log)
    decreases |lucks| - j
  {
    hide Advance, State.Shaped, Recorded;
    if j < |s.jobs| {
      AdvanceShape(reg, s, j, lucks[j]);
      AdvanceRecorded(reg, s, j, lucks[j]);
      if !Advance(reg, s, j, lucks[j]).verdict.Failed? {
        AdvanceFromRecorded(reg, Advance(reg, s, j, lucks[j]).system, j + 1, lucks);
      }
    }
  }

  lemma NoDeliveries(log: seq<Forward>, j: nat)
    requires forall f :: f in log ==> f.job != j
    ensures Deliveries(log, j) == []
  {
  }

  lemma NewJobRecorded(jobs: seq<Job>, log: seq<Forward>, r: RobotId, steps: seq<RouteStep>)
    requires Recorded(jobs, log) && !OpenJob(jobs, r)
    ensures Recorded(jobs + [Job(r, steps, 0, WAITING)], log)
  {
    hide WasAdmitted, JobRecorded;
    var after := jobs + [Job(r, steps, 0, WAITING)];
    FreshRecorded(log, |jobs|, Job(r, steps, 0, WAITING));
    forall j | 0 <= j < |after| ensures JobRecorded(log, j, after[j]) {
      assert j < |jobs| ==> after[j] == jobs[j];
    }
    forall f | f in log ensures f.job < |after| && WasAdmitted(f, after[f.job]) {
      assert after[f.job] == jobs[f.job];
    }
  }

  lemma FreshRecorded(log: seq<Forward>, j: nat, job: Job)
    requires (forall f :: f in log ==> f.job < j) && job.index == 0 && job.status.WAITING?
    ensures JobRecorded(log, j, job)
  {
    NoDeliveries(log, j);
  }

  lemma SubmitRecorded(cfg: Config, s: System, r: RobotId, goal: NodeId, luck: Luck)
    requires s.arbiter.Shaped(cfg.reg) && Recorded(s.jobs, s.log)
    ensures var t := Submit(cfg, s, r, goal, luck).system; Recorded(t.jobs, t.log)
  {
    hide Attempt, SafeNode, State.Shaped, Recorded, ResolveRoute, OpenJob;
    var start := SafeNode(cfg.reg, s.robots, r);
    if start.Some? && !OpenJob(s.jobs, r) {
      var route := ResolveRoute(cfg.reg.routes, start.value, goal);
      if route.Some? {
        var t := s.(jobs := s.jobs + [Job(r, route.value.steps, 0, WAITING)]);
        NewJobRecorded(s.jobs, s.log, r, route.value.steps);
        AttemptRecorded(cfg.reg, t, |s.jobs|, luck);
      }
    }
  }

  lemma CancelRecorded(reg: Registry, s: System, j: nat)
    requires s.arbiter.Shaped(reg) && Recorded(s.jobs, s.log)
    ensures var t := CancelJob(reg, s, j).system; Recorded(t.jobs, t.log)
  {
    if j < |s.jobs| {
      assert JobRecorded(s.log, j, s.jobs[j]);
      hide Cancel, State.Shaped, Recorded, Deliveries;
      if !s.jobs[j].status.ACTIVE? {
        JobChanged(s.jobs, s.log, j, s.jobs[j].(status := CANCELLED));
      }
    }
  }

  lemma ResetRecorded(jobs: seq<Job>, log: seq<Forward>)
    requires Recorded(jobs, log)
    ensures Recorded(CancelAll(jobs), log)
  {
  }

  /** The record survives every step of the system, also those that raise. */
  lemma NextRecorded(cfg: Config, s: System, i: Input)
    requires s.arbiter.Shaped(cfg.reg) && Possible(cfg, s, i) && Recorded(s.jobs, s.log)
    ensures var t := Next(cfg, s, i).system; Recorded(t.jobs, t.log)
  {
    hide State.Shaped, Crossing, OccupyBay, Cancel, Submit, CancelJob, AdvanceFrom, ExpireStale, Reset, Recorded;
    match i
    case Reported(rep) =>
    case Submitted(r, goal, luck) => SubmitRecorded(cfg, s, r, goal, luck);
    case Ticked(now, order, lucks) =>
      ExpireShape(cfg, s, now, order);
      AdvanceFromRecorded(cfg.reg, ExpireStale(cfg, s, now, order).system, 0, lucks);
    case JobCancelled(j) => CancelRecorded(cfg.reg, s, j);
    case GateReset(force) => ResetRecorded(s.jobs, s.log);
  }

  // ----- Over whole runs -------------------------------------------------------------------------

  lemma {:induction false} RunRecorded(cfg: Config, inputs: seq<Input>, s: System)
    requires cfg.reg.WellFormed() && Reaches(cfg, inputs, s)
    ensures s.arbiter.Shaped(cfg.reg) && Recorded(s.jobs, s.log)
    decreases |inputs|
  {
    hide Next, State.Shaped, Recorded, Possible;
    if inputs == [] {
      InitialShape(cfg.reg);
      EmptyRecorded();
    } else {
      var before: System :|
        && before.arbiter.Shaped(cfg.reg) && Reaches(cfg, inputs[..|inputs| - 1], before)
        && Possible(cfg, before, inputs[|inputs| - 1])
        && s == Next(cfg, before, inputs[|inputs| - 1]).system;
      RunRecorded(cfg, inputs[..|inputs| - 1], before);
      NextShape(cfg, before, inputs[|inputs| - 1]);
      NextRecorded(cfg, before, inputs[|inputs| - 1]);
    }
  }

  lemma EmptyRecorded()
    ensures Recorded([], [])
  {
  }

  lemma {:induction false} DeliveredInOrder(log: seq<Forward>, j: nat, a: nat, b: nat)
    requires a < b < |log| && log[a].job == log[b].job == j
    requires log[a].outcome.Delivered() && log[b].outcome.Delivered()
    requires forall i :: 0 <= i < |Deliveries(log, j)| ==> Deliveries(log, j)[i].index == i
    ensures log[a].index < log[b].index
    decreases |log|
  {
    var before := log[..|log| - 1];
    var sent := Deliveries(before, j);
    assert forall i :: 0 <= i < |sent| ==> Deliveries(log, j)[i] == sent[i];
    if b < |log| - 1 {
      DeliveredInOrder(before, j, a, b);
    } else {
      DeliveriesOf(before, j);
      assert before[a] in before && log[a] in sent;
      assert Deliveries(log, j)[|sent|] == log[b];
    }
  }

  /** No step is delivered twice, and the steps of a job are delivered in order. */
  ghost predicate InOrder(log: seq<Forward>) {
    forall a, b :: 0 <= a < b < |log| && BothDelivered(log[a], log[b]) ==> log[a].index < log[b].index
  }

  predicate BothDelivered(f: Forward, g: Forward) {
    f.job == g.job && f.outcome.Delivered() && g.outcome.Delivered()
  }

  lemma RecordedInOrder(jobs: seq<Job>, log: seq<Forward>)
    requires Recorded(jobs, log)
    ensures InOrder(log)
  {
    hide Deliveries, WasAdmitted, OneOpenEach;
    forall a, b | 0 <= a < b < |log| && BothDelivered(log[a], log[b]) ensures log[a].index < log[b].index {
      assert log[a] in log;
      assert JobRecorded(log, log[a].job, jobs[log[a].job]);
      DeliveredInOrder(log, log[a].job, a, b);
    }
  }

  /** The gate's history in any reachable state: every forward was made for an admitted
      robot; a step is delivered at most once, and the steps of a job in order; the
      deliveries of a job that was not cancelled are its first `index` goals, and the
      current one while it is active; a completed job delivered its whole route; and no
      robot has two open jobs. */
  lemma GateKeepsItsPromise(cfg: Config, inputs: seq<Input>, s: System)
    requires cfg.reg.WellFormed() && Reaches(cfg, inputs, s)
    ensures forall f :: f in s.log ==> f.job < |s.jobs| && WasAdmitted(f, s.jobs[f.job])
    ensures InOrder(s.log)
    ensures forall j :: 0 <= j < |s.jobs| && !s.jobs[j].status.CANCELLED? ==>
              Follows(Deliveries(s.log, j), s.jobs[j].steps, Sent(s.jobs[j]))
    ensures forall j :: 0 <= j < |s.jobs| && s.jobs[j].status.COMPLETE? ==> Sent(s.jobs[j]) == |s.jobs[j].steps|
    ensures OneOpenEach(s.jobs)
  {
    RunRecorded(cfg, inputs, s);
    hide Reaches, State.Shaped;
    RecordedInOrder(s.jobs, s.log);
    hide Deliveries, WasAdmitted, InOrder, Follows, OneOpenEach;
    forall j | 0 <= j < |s.jobs| ensures JobRecorded(s.log, j, s.jobs[j]) {
    }
  }
}
