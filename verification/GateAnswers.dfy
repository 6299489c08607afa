/** What the gate answers. Every answer to a submission, to an attempt and to a turn of a job
    is tied to what the caller could see before the call: where the robot is known to stand,
    whether it may pass, the health of the block, and what the server said. */
module GateAnswers {
  import opened Models
  import opened ArbiterSpec
  import opened ArbiterSteps
  import opened ArbiterSafety
  import opened ArbiterRuns
  import opened ArbiterAccount
  import opened GateSpec
  import opened GateRuns
  import opened ArbiterGuarantees

  // ----- Where a robot stands -------------------------------------------------------------------

  /** Robot `r` is known to stand at node `n`: it has been heard of, it is in no block, and `n` is
      the node of its bay or, in no bay, its last node, if that is the node of some bay. */
  ghost predicate StandsAt(reg: Registry, robots: map<RobotId, Telemetry>, r: RobotId, n: NodeId) {
    && r in robots && robots[r].block == None
    && (exists h :: h in reg.bays && reg.bays[h].node == n && (robots[r].bay == Some(h) || robots[r].bay == None))
    && (robots[r].bay == None ==> n == robots[r].lastNode)
  }

  /** The bay a robot is said to be in is a configured one. */
  ghost predicate KnownBay(reg: Registry, robots: map<RobotId, Telemetry>, r: RobotId) {
    r in robots && robots[r].bay.Some? ==> robots[r].bay.value in reg.bays
  }

  /** The tracker's safe node is where the robot is known to stand. */
  lemma SafeNodeExactly(reg: Registry, robots: map<RobotId, Telemetry>, r: RobotId, n: NodeId)
    requires KnownBay(reg, robots, r)
    ensures SafeNode(reg, robots, r) == Some(n) <==> StandsAt(reg, robots, r, n)
  {
    if r in robots && robots[r].bay.Some? {
      var h := robots[r].bay.value;
      assert h in reg.bays;
    }
  }

  /** A robot counts as arrived exactly if it stands at the node and is not driving. */
  lemma ArrivedExactly(reg: Registry, robots: map<RobotId, Telemetry>, r: RobotId, n: NodeId)
    requires KnownBay(reg, robots, r)
    ensures HasArrived(reg, robots, r, n) <==> StandsAt(reg, robots, r, n) && !robots[r].driving
  {
    SafeNodeExactly(reg, robots, r, n);
  }

  // ----- Routes -----------------------------------------------------------------------------------

  /** Route `i` is the first one from `n` to `goal`. */
  ghost predicate FirstRoute(routes: seq<Route>, n: NodeId, goal: NodeId, i: nat) {
    && i < |routes| && n in routes[i].starts && goal in routes[i].goals
    && forall k :: 0 <= k < i ==> !(n in routes[k].starts && goal in routes[k].goals)
  }

  /** No route leads from `n` to `goal`. */
  ghost predicate Unrouted(routes: seq<Route>, n: NodeId, goal: NodeId) {
    forall k :: 0 <= k < |routes| ==> !(n in routes[k].starts && goal in routes[k].goals)
  }

  /** The route found is the first one that matches, and none is found exactly if none does. */
  lemma {:induction false} ResolvesExactly(routes: seq<Route>, n: NodeId, goal: NodeId)
    ensures ResolveRoute(routes, n, goal) == None <==> Unrouted(routes, n, goal)
    ensures forall i: nat :: FirstRoute(routes, n, goal, i) ==> ResolveRoute(routes, n, goal) == Some(routes[i])
    ensures ResolveRoute(routes, n, goal).Some? ==> exists i: nat :: FirstRoute(routes, n, goal, i)
  {
    if routes != [] {
      var rest := routes[1..];
      ResolvesExactly(rest, n, goal);
      if n in routes[0].starts && goal in routes[0].goals {
        assert FirstRoute(routes, n, goal, 0);
      } else {
        assert forall k :: 0 < k < |routes| ==> routes[k] == rest[k - 1];
        forall i: nat | FirstRoute(routes, n, goal, i) ensures ResolveRoute(routes, n, goal) == Some(routes[i]) {
          assert i > 0;
          assert FirstRoute(rest, n, goal, i - 1) by {
            assert forall k :: 0 <= k < i - 1 ==> rest[k] == routes[k + 1];
          }
        }
        if ResolveRoute(rest, n, goal).Some? {
          var i: nat :| FirstRoute(rest, n, goal, i);
          assert FirstRoute(routes, n, goal, i + 1);
        }
      }
    }
  }

  // ----- Attempts ----------------------------------------------------------------------------------

  /** The robot gives up what it was admitted to. */
  ghost function GivenBack(reg: Registry, a: State, r: RobotId, b: BlockId): Effect
    requires a.Shaped(reg) && b in reg.blocks
  {
    OneVisit(reg, b);
    Step(reg, a, Cancelled(r, Some(b), [reg.blocks[b].domain]))
  }

  /** The current step of job `j` has been forwarded while the arbiter was in state `a`, and the
      answer, the status of the job and what is left of its admission are as the server decided. */
  ghost predicate Forwarded(reg: Registry, s: System, out: Response, j: nat, outcome: Outcome, a: State)
    requires j < |s.jobs| && s.jobs[j].HasStep() && s.jobs[j].Current().block in reg.blocks && a.Shaped(reg)
  {
    var job, t := s.jobs[j], out.system;
    && t.log == s.log + [Forward(j, job.index, job.Current().goal, outcome, a)] && t.robots == s.robots
    && match outcome
       case Accepted => out.verdict == Admitted && t.jobs == s.jobs[j := job.(status := ACTIVE)] && t.arbiter == a
       case Unknown => out.verdict == Uncertain && t.jobs == s.jobs[j := job.(status := ACTIVE)] && t.arbiter == a
       case Unsuccessful => out.verdict == RetryLater && t.jobs == s.jobs[j := job.(status := RETRY)] && t.arbiter == a
       case Rejected =>
         var e := GivenBack(reg, a, job.robot, job.Current().block);
         && t.arbiter == e.state
         && (if e.Ok() then out.verdict == Refused && t.jobs == s.jobs[j := job.(status := BLOCKED)]
             else out.verdict == Failed(e.reply.error) && t.jobs == s.jobs)
  }

  /** Nothing was forwarded; the job may have changed its status. */
  ghost predicate KeptBack(s: System, out: Response, j: nat, verdict: Verdict, status: Status, a: State)
    requires j < |s.jobs|
  {
    out == Response(s.(arbiter := a, jobs := s.jobs[j := s.jobs[j].(status := status)]), verdict)
  }

  lemma ForwardAnswers(reg: Registry, s: System, j: nat, outcome: Outcome)
    requires s.arbiter.Shaped(reg) && j < |s.jobs| && s.jobs[j].HasStep() && s.jobs[j].Current().block in reg.blocks
    ensures Forwarded(reg, s, ForwardStep(reg, s, j, outcome), j, outcome, s.arbiter)
  {
    hide Cancel, State.Shaped;
    var job := s.jobs[j];
    HomeKnown(reg, s.arbiter, job.Current().block);
  }

  // ----- Attempts, completely ------------------------------------------------------------------------

  /** The registry does not know what the arbiter has to look up for the step: its block, or
      the bay behind it if the robot has yet to be admitted. */
  ghost predicate Unknowable(reg: Registry, a: State, r: RobotId, step: RouteStep)
    requires a.Shaped(reg)
  {
    step.block !in reg.blocks
    || (step.destination !in reg.bays && (a.blocks[step.block].faulted || !MayPass(a, r, step.block)))
  }

  /** What an attempt should come to. A route without further steps is finished. A robot that
      may pass is sent on, whatever the health of the block; a faulted block is refused;
      otherwise the arbiter is asked, and the robot is sent on exactly if it may pass then,
      and held otherwise. */
  ghost predicate AttemptRight(reg: Registry, s: System, out: Response, j: nat, luck: Luck)
    requires Core(reg, s.arbiter) && j < |s.jobs|
  {
    var job := s.jobs[j];
    if !job.HasStep() then KeptBack(s, out, j, Finished, COMPLETE, s.arbiter)
    else if Unknowable(reg, s.arbiter, job.robot, job.Current()) then out == Response(s, Failed(KeyError))
    else StepRight(reg, s, out, j, luck)
  }

  ghost predicate StepRight(reg: Registry, s: System, out: Response, j: nat, luck: Luck)
    requires Core(reg, s.arbiter) && j < |s.jobs| && s.jobs[j].HasStep()
    requires s.jobs[j].Current().block in reg.blocks
  {
    var job, b := s.jobs[j], s.jobs[j].Current().block;
    if MayPass(s.arbiter, job.robot, b) then Forwarded(reg, s, out, j, luck.outcome, s.arbiter)
    else if s.arbiter.blocks[b].faulted then KeptBack(s, out, j, Refused, BLOCKED, s.arbiter)
    else
      var step := job.Current();
      var x := Reservation(job.robot, b, step.direction, step.destination, step.source, luck.time);
      var e := Step(reg, s.arbiter, Requested(x));
      if !e.Ok() then out == Response(s.(arbiter := e.state), Failed(AssertionError))
      else if MayPass(e.state, job.robot, b) then e.state.Shaped(reg) && Forwarded(reg, s, out, j, luck.outcome, e.state)
      else KeptBack(s, out, j, Held, WAITING, e.state)
  }

  /** Every attempt comes to what it should. */
  lemma AttemptAnswers(reg: Registry, s: System, j: nat, luck: Luck)
    requires Core(reg, s.arbiter) && j < |s.jobs|
    ensures AttemptRight(reg, s, Attempt(reg, s, j, luck), j, luck)
  {
    hide Request, Forwarded, QueuesShaped, GrantsShaped, Registry.WellFormed, GrantsHeld, QueuesDistinct, WithinCapacity, OneDirection,
      ForwardStep, DecisionFor, MayPass, StepRight;
    var job := s.jobs[j];
    if job.HasStep() {
      var step, x := job.Current(), ForStep(job, luck.time);
      DecidesExactly(reg, s.arbiter, job.robot, step.block);
      RequestShape(reg, s.arbiter, x);
      if step.block in reg.blocks {
        if step.destination in reg.bays {
          KnownAnswers(reg, s, j, luck);
        } else {
          NoSuchBay(reg, s.arbiter, x);
          AdmittedAnswers(reg, s, j, luck);
        }
      }
    }
  }

  lemma NoSuchBay(reg: Registry, a: State, x: Reservation)
    requires a.Shaped(reg) && x.destination !in reg.bays
    ensures Request(reg, a, x) == Effect(a, Raised(KeyError))
  {
  }

  lemma AdmittedAnswers(reg: Registry, s: System, j: nat, luck: Luck)
    requires Core(reg, s.arbiter) && j < |s.jobs| && s.jobs[j].HasStep() && s.jobs[j].Current().block in reg.blocks
    ensures var job, b := s.jobs[j], s.jobs[j].Current().block;
            MayPass(s.arbiter, job.robot, b) && !s.arbiter.blocks[b].faulted ==> StepRight(reg, s, Attempt(reg, s, j, luck), j, luck)
  {
    hide Request, Forwarded, QueuesShaped, GrantsShaped, Registry.WellFormed, GrantsHeld, QueuesDistinct, WithinCapacity, OneDirection,
      ForwardStep, DecisionFor, MayPass;
    var job, b := s.jobs[j], s.jobs[j].Current().block;
    RequestShape(reg, s.arbiter, ForStep(job, luck.time));
    DecidesExactly(reg, s.arbiter, job.robot, b);
    ForwardAnswers(reg, s, j, luck.outcome);
    assert s.(arbiter := s.arbiter) == s;
  }

  lemma KnownAnswers(reg: Registry, s: System, j: nat, luck: Luck)
    requires Core(reg, s.arbiter) && j < |s.jobs| && s.jobs[j].HasStep()
    requires s.jobs[j].Current().block in reg.blocks && s.jobs[j].Current().destination in reg.bays
    ensures StepRight(reg, s, Attempt(reg, s, j, luck), j, luck)
  {
    hide Request, Forwarded, QueuesShaped, GrantsShaped, Registry.WellFormed, GrantsHeld, QueuesDistinct, WithinCapacity, OneDirection,
      ForwardStep, DecisionFor, MayPass;
    var job, b := s.jobs[j], s.jobs[j].Current().block;
    var x := ForStep(job, luck.time);
    DecidesExactly(reg, s.arbiter, job.robot, b);
    RequestAnswersExactly(reg, s.arbiter, x);
    ForwardAnswers(reg, s, j, luck.outcome);
    var e := Request(reg, s.arbiter, x);
    var u := s.(arbiter := e.state);
    ForwardAnswers(reg, u, j, luck.outcome);
    if MayPass(s.arbiter, job.robot, b) {
      assert u == s;
    } else {
      SameForward(reg, s, u, ForwardStep(reg, u, j, luck.outcome), j, luck.outcome, e.state);
    }
  }

  lemma SameForward(reg: Registry, s: System, u: System, out: Response, j: nat, outcome: Outcome, a: State)
    requires j < |s.jobs| && s.jobs[j].HasStep() && s.jobs[j].Current().block in reg.blocks && a.Shaped(reg)
    requires u == s.(arbiter := a) && Forwarded(reg, u, out, j, outcome, a)
    ensures Forwarded(reg, s, out, j, outcome, a)
  {
  }

  // ----- Submissions -----------------------------------------------------------------------------------

  ghost predicate NoOpenJob(jobs: seq<Job>, r: RobotId) {
    forall j :: 0 <= j < |jobs| && jobs[j].robot == r ==> jobs[j].status in {BLOCKED, COMPLETE, CANCELLED}
  }

  /** The gate takes the trip on by route `i`. */
  ghost predicate TakesOn(cfg: Config, s: System, r: RobotId, goal: NodeId, i: nat) {
    && cfg.enabled && NoOpenJob(s.jobs, r)
    && exists n :: StandsAt(cfg.reg, s.robots, r, n) && FirstRoute(cfg.reg.routes, n, goal, i)
  }

  /** The trip is no business of the gate. */
  ghost predicate PassesBy(cfg: Config, s: System, r: RobotId, goal: NodeId) {
    !cfg.enabled
    || (cfg.bypassUnmatched && exists n :: StandsAt(cfg.reg, s.robots, r, n) && Unrouted(cfg.reg.routes, n, goal))
  }

  lemma OpenJobExactly(jobs: seq<Job>, r: RobotId)
    ensures OpenJob(jobs, r) <==> !NoOpenJob(jobs, r)
  {
  }

  /** A submission is passed by exactly if it is no business of the gate; unless it is taken on nothing changes, and
      whoever is not passed by is refused; one that is taken on becomes the last job, and is answered as the
      attempt at its first step. */
  lemma SubmitAnswers(cfg: Config, s: System, r: RobotId, goal: NodeId, luck: Luck)
    requires Core(cfg.reg, s.arbiter) && KnownBay(cfg.reg, s.robots, r)
    ensures var out := Submit(cfg, s, r, goal, luck);
            && (out.verdict == Bypassed <==> PassesBy(cfg, s, r, goal))
            && ((forall i: nat :: !TakesOn(cfg, s, r, goal, i)) ==>
                out == Response(s, if PassesBy(cfg, s, r, goal) then Bypassed else Refused))
            && (forall i: nat :: TakesOn(cfg, s, r, goal, i) ==>
                var t := s.(jobs := s.jobs + [Job(r, cfg.reg.routes[i].steps, 0, WAITING)]);
                AttemptRight(cfg.reg, t, out, |s.jobs|, luck))
  {
    hide Attempt, SafeNode, StandsAt, ResolveRoute, FirstRoute, Unrouted, NoOpenJob, OpenJob, AttemptRight, GrantsHeld,
      QueuesDistinct, WithinCapacity, OneDirection, QueuesShaped, GrantsShaped, Registry.WellFormed;
    OpenJobExactly(s.jobs, r);
    var start := SafeNode(cfg.reg, s.robots, r);
    forall n ensures start == Some(n) <==> StandsAt(cfg.reg, s.robots, r, n) {
      SafeNodeExactly(cfg.reg, s.robots, r, n);
    }
    if start.Some? {
      ResolvesExactly(cfg.reg.routes, start.value, goal);
      var route := ResolveRoute(cfg.reg.routes, start.value, goal);
      if route.Some? && !OpenJob(s.jobs, r) {
        var t := s.(jobs := s.jobs + [Job(r, route.value.steps, 0, WAITING)]);
        AttemptAnswers(cfg.reg, t, |s.jobs|, luck);
        NeverBypassed(cfg.reg, t, Attempt(cfg.reg, t, |s.jobs|, luck), |s.jobs|, luck);
        if cfg.enabled {
          var i: nat :| FirstRoute(cfg.reg.routes, start.value, goal, i);
          assert TakesOn(cfg, s, r, goal, i);
        }
      }
      UnroutedOrFirst(cfg.reg.routes, start.value, goal);
    }
  }

  lemma UnroutedOrFirst(routes: seq<Route>, n: NodeId, goal: NodeId)
    ensures Unrouted(routes, n, goal) ==> forall i: nat :: !FirstRoute(routes, n, goal, i)
  {
  }

  lemma NeverBypassed(reg: Registry, s: System, out: Response, j: nat, luck: Luck)
    requires Core(reg, s.arbiter) && j < |s.jobs| && AttemptRight(reg, s, out, j, luck)
    ensures out.verdict != Bypassed
  {
    hide Step, GivenBack, QueuesShaped, GrantsShaped, Registry.WellFormed, GrantsHeld, QueuesDistinct, WithinCapacity, OneDirection,
      MayPass;
  }

  /** A robot inside a block, or never heard of, is refused and nothing changes. */
  lemma UnsafeIsRefused(cfg: Config, s: System, r: RobotId, goal: NodeId, luck: Luck)
    requires Core(cfg.reg, s.arbiter) && KnownBay(cfg.reg, s.robots, r)
    requires cfg.enabled && (r !in s.robots || s.robots[r].block.Some?)
    ensures Submit(cfg, s, r, goal, luck) == Response(s, Refused)
  {
    hide Submit, AttemptRight, Core;
    SubmitAnswers(cfg, s, r, goal, luck);
  }

  // ----- Turns of a job -----------------------------------------------------------------------------------

  /** What a job's turn should come to. A job that is waiting or to be sent again makes an attempt.
      One that is with the server waits until its robot stands at the goal of the step and is
      not driving; then it goes on to the next step, or is complete. Other jobs rest. */
  ghost predicate TurnRight(reg: Registry, s: System, out: Response, j: nat, luck: Luck)
    requires Core(reg, s.arbiter) && j < |s.jobs|
  {
    var job := s.jobs[j];
    if job.status in {BLOCKED, COMPLETE, CANCELLED} then out == Response(s, Okay)
    else if !job.HasStep() then KeptBack(s, out, j, Okay, COMPLETE, s.arbiter)
    else if job.status in {WAITING, RETRY} then AttemptRight(reg, s, out, j, luck)
    else if !StandsAt(reg, s.robots, job.robot, job.Current().goal) || s.robots[job.robot].driving then out == Response(s, Okay)
    else
      var next := job.(index := job.index + 1);
      if next.HasStep() then AttemptRight(reg, s.(jobs := s.jobs[j := next.(status := WAITING)]), out, j, luck)
      else out == Response(s.(jobs := s.jobs[j := next.(status := COMPLETE)]), Okay)
  }

  /** Every turn of a job comes to what it should. */
  lemma TurnAnswers(reg: Registry, s: System, j: nat, luck: Luck)
    requires Core(reg, s.arbiter) && j < |s.jobs| && KnownBay(reg, s.robots, s.jobs[j].robot)
    ensures TurnRight(reg, s, Advance(reg, s, j, luck), j, luck)
  {
    hide Attempt, HasArrived, StandsAt, AttemptRight, GrantsHeld, QueuesDistinct, WithinCapacity, OneDirection, QueuesShaped,
      GrantsShaped, Registry.WellFormed;
    var job := s.jobs[j];
    AttemptAnswers(reg, s, j, luck);
    if job.HasStep() {
      ArrivedExactly(reg, s.robots, job.robot, job.Current().goal);
      var next := job.(index := job.index + 1, status := WAITING);
      AttemptAnswers(reg, s.(jobs := s.jobs[j := next]), j, luck);
    }
  }

  lemma AdvanceKeepsCore(reg: Registry, s: System, j: nat, luck: Luck)
    requires Core(reg, s.arbiter) && j < |s.jobs|
    ensures Core(reg, Advance(reg, s, j, luck).system.arbiter)
  {
    assert s.arbiter.Shaped(reg);
    hide Core, Advance, Run;
    var es := AdvanceLeads(reg, s, j, luck);
    RunKeepsCore(reg, s.arbiter, es);
  }

  /** From job `j` on every job takes its turn, in the order of submission, each in the state that the one before it
      has left; an exception ends it. */
  ghost predicate TurnsRight(reg: Registry, s: System, out: Response, j: nat, lucks: seq<Luck>)
    requires j <= |lucks|
    decreases |lucks| - j
  {
    if j == |lucks| then out == Response(s, Okay)
    else
      exists first :: Core(reg, s.arbiter) && j < |s.jobs| && TurnRight(reg, s, first, j, lucks[j])
                      && if first.verdict.Failed? then out == first else TurnsRight(reg, first.system, out, j + 1, lucks)
  }

  lemma {:induction false} TurnsInOrder(reg: Registry, s: System, j: nat, lucks: seq<Luck>)
    requires Core(reg, s.arbiter) && j <= |s.jobs| == |lucks| && forall r :: KnownBay(reg, s.robots, r)
    ensures TurnsRight(reg, s, AdvanceFrom(reg, s, j, lucks), j, lucks)
    decreases |lucks| - j
  {
    hide Advance, TurnRight, KnownBay, GrantsHeld, QueuesDistinct, WithinCapacity, OneDirection, QueuesShaped, GrantsShaped,
      Registry.WellFormed;
    if j < |lucks| {
      var first := Advance(reg, s, j, lucks[j]);
      assert KnownBay(reg, s.robots, s.jobs[j].robot);
      TurnAnswers(reg, s, j, lucks[j]);
      AdvanceShape(reg, s, j, lucks[j]);
      AdvanceKeepsCore(reg, s, j, lucks[j]);
      if !first.verdict.Failed? {
        TurnsInOrder(reg, first.system, j + 1, lucks);
      }
    }
  }

  // ----- Silent robots -------------------------------------------------------------------------------------

  /** The robot was last heard of inside a block, more than the timeout ago. */
  ghost predicate Silent(cfg: Config, s: System, now: int, r: RobotId) {
    r in s.robots && s.robots[r].block.Some? && now - s.robots[r].at > cfg.timeout
  }

  ghost predicate IsMarked(s: System, r: RobotId) {
    r in s.robots && s.robots[r].faulted
  }

  ghost predicate NewlyMarked(s: System, t: System, r: RobotId) {
    IsMarked(t, r) && !IsMarked(s, r)
  }

  /** From `s` to `t` robots that had gone silent were marked, and nothing else in their telemetry
      changed; the blocks that have become faulted are those in which the newly marked robots
      are, for each the one configured first; and nobody has entered or left a block. */
  ghost predicate ExpiredTo(cfg: Config, s: System, t: System, now: int)
    requires s.arbiter.Shaped(cfg.reg) && t.arbiter.Shaped(cfg.reg)
  {
    && t.jobs == s.jobs && t.log == s.log
    && (forall r :: r in s.robots <==> r in t.robots)
    && (forall r :: r in s.robots ==> t.robots[r] == s.robots[r].(faulted := t.robots[r].faulted))
    && (forall r :: IsMarked(s, r) ==> IsMarked(t, r))
    && (forall r :: NewlyMarked(s, t, r) ==> Silent(cfg, s, now, r))
    && (forall r, b :: InsideOf(t.arbiter, r, b) <==> InsideOf(s.arbiter, r, b))
    && (forall b :: b in cfg.reg.blocks ==>
        (t.arbiter.blocks[b].faulted <==>
         s.arbiter.blocks[b].faulted || exists r :: NewlyMarked(s, t, r) && FirstBlock(cfg.reg, s.arbiter, r, b)))
  }

  lemma NobodyExpired(cfg: Config, s: System, now: int)
    requires s.arbiter.Shaped(cfg.reg)
    ensures ExpiredTo(cfg, s, s, now)
  {
    hide State.Shaped, FirstBlock;
    forall r ensures !NewlyMarked(s, s, r) {
    }
  }

  /** What happens to one silent robot. */
  lemma OneExpired(cfg: Config, s: System, now: int, r: RobotId, visit: seq<DomainId>)
    requires Core(cfg.reg, s.arbiter) && VisitsTargets(cfg.reg, None, visit) && Silent(cfg, s, now, r) && !IsMarked(s, r)
    ensures forall d :: d in visit ==> d in s.arbiter.domains
    ensures var e := Fault(cfg.reg, s.arbiter, r, visit);
            var t := s.(arbiter := e.state, robots := s.robots[r := s.robots[r].(faulted := true)]);
            Core(cfg.reg, e.state) && ExpiredTo(cfg, s, t, now) && (forall q :: NewlyMarked(s, t, q) <==> q == r)
  {
    hide GrantsHeld, QueuesDistinct, WithinCapacity, OneDirection, QueuesShaped, GrantsShaped, Registry.WellFormed, FirstBlock, Fault;
    VisitedKnown(cfg.reg, s.arbiter, visit);
    var e := FaultedAt(r, visit);
    StepKeepsCore(cfg.reg, s.arbiter, e);
    StepBlocks(cfg.reg, s.arbiter, e);
    var a, c := s.arbiter, Step(cfg.reg, s.arbiter, e).state;
    forall q, b ensures InsideOf(c, q, b) <==> InsideOf(a, q, b) {
      if b in cfg.reg.blocks {
        assert BlocksRight(cfg.reg, a, c.blocks, e);
        assert (if q in c.blocks[b].occupants then Some(c.blocks[b].occupants[q]) else None) == OccupantAfter(cfg.reg, a, e, b, q);
      }
    }
  }

  lemma ExpiredTransitive(cfg: Config, s: System, u: System, t: System, now: int)
    requires s.arbiter.Shaped(cfg.reg) && u.arbiter.Shaped(cfg.reg) && t.arbiter.Shaped(cfg.reg)
    requires ExpiredTo(cfg, s, u, now) && ExpiredTo(cfg, u, t, now)
    ensures ExpiredTo(cfg, s, t, now)
  {
    hide QueuesShaped, GrantsShaped, Registry.WellFormed;
    assert forall r, b :: FirstBlock(cfg.reg, u.arbiter, r, b) <==> FirstBlock(cfg.reg, s.arbiter, r, b);
    hide InsideOf, FirstBlock;
    assert forall r :: NewlyMarked(s, t, r) <==> NewlyMarked(s, u, r) || NewlyMarked(u, t, r);
    hide NewlyMarked;
  }

  /** The robot is to be marked now. */
  ghost predicate Due(cfg: Config, s: System, now: int, r: RobotId) {
    Silent(cfg, s, now, r) && !IsMarked(s, r)
  }

  lemma DueExactly(cfg: Config, s: System, now: int, r: RobotId)
    ensures (r in s.robots && Stale(cfg, s.robots[r], now)) <==> Due(cfg, s, now, r)
  {
  }

  lemma {:induction false} ExpiryMarks(cfg: Config, s: System, now: int, order: seq<Expiry>)
    requires Core(cfg.reg, s.arbiter) && VisitsAllBlocks(cfg.reg, order)
    ensures var out := ExpireStale(cfg, s, now, order);
            && out.system.arbiter.Shaped(cfg.reg) && ExpiredTo(cfg, s, out.system, now)
            && (!out.verdict.Failed? ==>
                forall k :: 0 <= k < |order| && Silent(cfg, s, now, order[k].robot) ==> IsMarked(out.system, order[k].robot))
            && ((forall k :: 0 <= k < |order| ==> !Due(cfg, s, now, order[k].robot)) ==> out == Response(s, Okay))
    decreases |order|
  {
    hide Stale, Fault, ExpiredTo, Silent, IsMarked, GrantsHeld, QueuesDistinct, WithinCapacity, OneDirection, QueuesShaped,
      GrantsShaped, Registry.WellFormed;
    NobodyExpired(cfg, s, now);
    if order != [] {
      var r, rest := order[0].robot, order[1..];
      assert forall k :: 0 < k < |order| ==> order[k] == rest[k - 1];
      assert forall k :: 0 <= k < |rest| ==> rest[k] == order[k + 1];
      DueExactly(cfg, s, now, r);
      var out := ExpireStale(cfg, s, now, order);
      if Due(cfg, s, now, r) {
        assert VisitsTargets(cfg.reg, None, order[0].visit);
        OneExpired(cfg, s, now, r, order[0].visit);
        var e := Fault(cfg.reg, s.arbiter, r, order[0].visit);
        var u := s.(arbiter := e.state, robots := s.robots[r := s.robots[r].(faulted := true)]);
        if e.Ok() {
          ExpiryMarks(cfg, u, now, rest);
          ExpiredTransitive(cfg, s, u, out.system, now);
          StaysSilent(cfg, s, u, out.system, now, r);
        }
      } else {
        ExpiryMarks(cfg, s, now, rest);
        AlreadyMarked(cfg, s, out.system, now, r);
      }
    }
  }

  lemma StaysSilent(cfg: Config, s: System, u: System, t: System, now: int, r: RobotId)
    requires s.arbiter.Shaped(cfg.reg) && u.arbiter.Shaped(cfg.reg) && t.arbiter.Shaped(cfg.reg)
    requires ExpiredTo(cfg, s, u, now) && ExpiredTo(cfg, u, t, now) && r in u.robots && u.robots[r].faulted
    ensures IsMarked(t, r) && forall q :: Silent(cfg, s, now, q) <==> Silent(cfg, u, now, q)
  {
    hide State.Shaped, FirstBlock;
    assert IsMarked(u, r);
  }

  lemma AlreadyMarked(cfg: Config, s: System, t: System, now: int, r: RobotId)
    requires s.arbiter.Shaped(cfg.reg) && t.arbiter.Shaped(cfg.reg) && ExpiredTo(cfg, s, t, now) && !Due(cfg, s, now, r)
    ensures Silent(cfg, s, now, r) ==> IsMarked(t, r)
  {
    hide State.Shaped, FirstBlock;
  }

  /** Expiry by the clock: with `order` covering every robot, exactly the robots last heard of inside
      a block more than the timeout ago are marked, besides those that were; the blocks that
      become faulted are those they are in; and if there are none, nothing happens. */
  lemma ExpiryAnswers(cfg: Config, s: System, now: int, order: seq<Expiry>)
    requires Core(cfg.reg, s.arbiter) && VisitsAllBlocks(cfg.reg, order)
    requires forall r :: r in s.robots ==> exists k :: 0 <= k < |order| && order[k].robot == r
    ensures var out := ExpireStale(cfg, s, now, order);
            && out.system.arbiter.Shaped(cfg.reg) && ExpiredTo(cfg, s, out.system, now)
            && (!out.verdict.Failed? ==>
                forall r :: IsMarked(out.system, r) <==> IsMarked(s, r) || Silent(cfg, s, now, r))
            && ((forall r :: Silent(cfg, s, now, r) ==> IsMarked(s, r)) ==> out == Response(s, Okay))
  {
    hide ExpireStale, State.Shaped, FirstBlock, GrantsHeld, QueuesDistinct, WithinCapacity, OneDirection;
    ExpiryMarks(cfg, s, now, order);
    var t := ExpireStale(cfg, s, now, order).system;
    forall r ensures IsMarked(t, r) ==> IsMarked(s, r) || Silent(cfg, s, now, r) {
      assert NewlyMarked(s, t, r) ==> Silent(cfg, s, now, r);
    }
    hide ExpiredTo;
    if !ExpireStale(cfg, s, now, order).verdict.Failed? {
      forall r | Silent(cfg, s, now, r) ensures IsMarked(t, r) {
        var k :| 0 <= k < |order| && order[k].robot == r;
      }
    }
  }

  // ----- Cancellations and resets --------------------------------------------------------------------------

  /** What the cancellation of a job should come to. A job that is with the server, or over, cannot be
      cancelled; of the others one that is to be sent again can be only if there is still
      something to give back, that is, unless its robot has entered the block. */
  ghost predicate CancelRight(reg: Registry, s: System, out: Response, j: nat)
    requires s.arbiter.Shaped(reg)
  {
    if j >= |s.jobs| || s.jobs[j].status in {ACTIVE, COMPLETE, CANCELLED} then out == Response(s, Flagged(false))
    else
      var job := s.jobs[j];
      if !job.HasStep() || job.Current().block !in reg.blocks then out == Response(s, Failed(KeyError))
      else
        var b := job.Current().block;
        var e := GivenBack(reg, s.arbiter, job.robot, b);
        var found := HasAnything(s.arbiter, job.robot, b) && !InsideOf(s.arbiter, job.robot, b);
        if !e.Ok() then out == Response(s.(arbiter := e.state), Failed(AssertionError))
        else if job.status.RETRY? && !found then out == Response(s.(arbiter := e.state), Flagged(false))
        else out == Response(s.(arbiter := e.state, jobs := s.jobs[j := job.(status := CANCELLED)]), Flagged(true))
  }

  /** Every cancellation of a job comes to what it should. */
  lemma CancelAnswers(reg: Registry, s: System, j: nat)
    requires Core(reg, s.arbiter)
    ensures CancelRight(reg, s, CancelJob(reg, s, j), j)
  {
    hide GrantsHeld, QueuesDistinct, WithinCapacity, OneDirection, QueuesShaped, GrantsShaped, Registry.WellFormed, Cancel, HasAnything;
    if j < |s.jobs| && s.jobs[j].HasStep() && s.jobs[j].Current().block in reg.blocks {
      var r, b := s.jobs[j].robot, s.jobs[j].Current().block;
      HomeKnown(reg, s.arbiter, b);
      GivenBackReplies(reg, s.arbiter, r, b);
    }
  }

  lemma GivenBackReplies(reg: Registry, a: State, r: RobotId, b: BlockId)
    requires Core(reg, a) && b in reg.blocks
    ensures var e := GivenBack(reg, a, r, b);
            e.reply == Raised(AssertionError) || e.reply == Flag(HasAnything(a, r, b) && !InsideOf(a, r, b))
  {
    hide GrantsHeld, QueuesDistinct, WithinCapacity, OneDirection, QueuesShaped, GrantsShaped, Registry.WellFormed, Cancel, HasAnything,
      InsideOf;
    OneVisit(reg, b);
    var e := Cancelled(r, Some(b), [reg.blocks[b].domain]);
    if GivenBack(reg, a, r, b).Unchecked() {
      StepReplies(reg, a, e);
      assert Withdraws(reg, a, e, r, b) <==> !InsideOf(a, r, b);
    }
  }

  /** A reset goes ahead if it is forced or no robot is in any block. Then the arbiter starts afresh and every job that
      is not complete is cancelled; what is known of the robots stays. */
  lemma ResetAnswers(reg: Registry, s: System, force: bool)
    requires s.arbiter.Shaped(reg)
    ensures var out := ResetGate(reg, s, force);
            && (out.verdict == Flagged(true) <==> force || forall r :: Nowhere(s.arbiter, r))
            && (out.verdict != Flagged(true) ==> out == Response(s, Flagged(false)))
            && (out.verdict == Flagged(true) ==>
                && out.system.arbiter == Initial(reg) && out.system.robots == s.robots && out.system.log == s.log
                && |out.system.jobs| == |s.jobs|
                && forall j :: 0 <= j < |s.jobs| ==>
                     out.system.jobs[j] == if s.jobs[j].status == COMPLETE then s.jobs[j] else s.jobs[j].(status := CANCELLED))
  {
    hide State.Shaped, Nowhere, Reset, Initial;
    ClearsExactly(reg, s.arbiter, force);
  }

  // ----- Reports --------------------------------------------------------------------------------------------

  /** The report shows the robot in block `b`: by its position or, if it is driving and gives none, by its edges. */
  ghost predicate ShownIn(rep: Report, b: BlockId) {
    match rep.sight
    case Located(block, _) => block == Some(b)
    case Unlocated(block) => block == Some(b) && rep.driving
  }

  ghost predicate ShownAt(rep: Report, h: BayId) {
    rep.sight.Located? && rep.sight.bay == Some(h)
  }

  /** What a report that raises nothing should leave in the telemetry: the robot is in the block it is shown in
      or, unless it is shown at a bay, still in its old one; otherwise it is in the bay that its
      position shows or, without a position, still in its old one. */
  ghost predicate HeardRight(robots: map<RobotId, Telemetry>, rep: Report, t: Telemetry) {
    && t.at == rep.at && t.lastNode == rep.lastNode && t.driving == rep.driving && !t.faulted
    && (forall b :: t.block == Some(b) <==>
        ShownIn(rep, b)
        || (rep.robot in robots && robots[rep.robot].block == Some(b)
            && (forall c :: !ShownIn(rep, c)) && (forall h :: !ShownAt(rep, h))))
    && (forall h :: t.bay == Some(h) <==>
        && t.block == None
        && (ShownAt(rep, h)
            || (rep.sight.Unlocated? && rep.robot in robots && robots[rep.robot].bay == Some(h))))
  }

  lemma TelemetryExactly(robots: map<RobotId, Telemetry>, rep: Report)
    ensures HeardRight(robots, rep, TelemetryAfter(robots, rep))
  {
    SeenExactly(rep);
    var t := TelemetryAfter(robots, rep);
    forall b ensures t.block == Some(b) <==>
      ShownIn(rep, b)
      || (rep.robot in robots && robots[rep.robot].block == Some(b)
          && (forall c :: !ShownIn(rep, c)) && (forall h :: !ShownAt(rep, h)))
    {
    }
  }

  lemma SeenExactly(rep: Report)
    ensures forall b :: SeenBlock(rep) == Some(b) <==> ShownIn(rep, b)
    ensures forall h :: SeenBay(rep) == Some(h) <==> ShownAt(rep, h)
    ensures SeenBlock(rep) == None <==> forall b :: !ShownIn(rep, b)
    ensures SeenBay(rep) == None <==> forall h :: !ShownAt(rep, h)
  {
    if SeenBlock(rep).Some? {
      assert ShownIn(rep, SeenBlock(rep).value);
    }
    if SeenBay(rep).Some? {
      assert ShownAt(rep, SeenBay(rep).value);
    }
  }

  ghost predicate NoBlockShown(rep: Report) {
    forall b :: !ShownIn(rep, b)
  }

  /** The call that a report leads to first: a robot shown in another block than before enters it or, without
      a grant, is reported as unexpected there; one that was in a block and is shown at a bay outside
      every block has left it; otherwise there is none. */
  ghost predicate FirstCall(reg: Registry, s: System, rep: Report, e: Effect)
    requires s.arbiter.Shaped(reg)
  {
    var a, r, was := s.arbiter, rep.robot, BlockOf(s.robots, rep.robot);
    && (forall b :: ShownIn(rep, b) && was != Some(b) ==>
        var entry := Step(reg, a, Entered(r, b));
        e == if entry.reply == Raised(ValueError) then Step(reg, a, SeenUnexpectedly(r, b)) else entry)
    && (forall b, h :: NoBlockShown(rep) && was == Some(b) && ShownAt(rep, h) ==> e == Step(reg, a, Exited(r, b)))
    && ((forall b :: ShownIn(rep, b) ==> was == Some(b)) && !(NoBlockShown(rep) && was.Some? && exists h :: ShownAt(rep, h)) ==>
        e == Effect(a, Done))
  }

  /** The call that follows if the first one raises nothing: a robot shown at a bay outside every block occupies it. */
  ghost predicate SecondCall(reg: Registry, rep: Report, e: Effect, p: Effect)
    requires e.state.Shaped(reg)
  {
    && (forall h :: NoBlockShown(rep) && ShownAt(rep, h) ==> p == Step(reg, e.state, Occupied(h, rep.robot)))
    && (!NoBlockShown(rep) || (forall h :: !ShownAt(rep, h)) ==> p == Effect(e.state, Done))
  }

  /** A report is at most two calls of the arbiter, and the telemetry is kept unless one of them raises. */
  ghost predicate ReportRight(reg: Registry, s: System, out: Response, rep: Report, e: Effect, p: Effect)
    requires s.arbiter.Shaped(reg)
  {
    && FirstCall(reg, s, rep, e) && e.state.Shaped(reg)
    && (if !e.Ok() then out == Response(s.(arbiter := e.state), Failed(e.reply.error))
        else
          && SecondCall(reg, rep, e, p)
          && if !p.Ok() then out == Response(s.(arbiter := p.state), Failed(p.reply.error))
             else
               && out.verdict == Okay && rep.robot in out.system.robots
               && out.system == s.(arbiter := p.state, robots := s.robots[rep.robot := out.system.robots[rep.robot]])
               && HeardRight(s.robots, rep, out.system.robots[rep.robot]))
  }

  lemma CrossingExactly(reg: Registry, s: System, rep: Report)
    requires s.arbiter.Shaped(reg)
    ensures FirstCall(reg, s, rep, Crossing(reg, s.arbiter, BlockOf(s.robots, rep.robot), rep))
  {
    hide State.Shaped, MarkEntered, MarkExited, ReportUnexpected, SeenBlock, SeenBay, ShownIn, ShownAt, BlockOf;
    SeenExactly(rep);
  }

  /** Every report comes to what it should. */
  lemma ReportAnswers(reg: Registry, s: System, rep: Report)
    requires s.arbiter.Shaped(reg)
    ensures exists e, p :: ReportRight(reg, s, Ingest(reg, s, rep), rep, e, p)
  {
    hide State.Shaped, Crossing, OccupyBay, SeenBlock, SeenBay, FirstCall, TelemetryAfter, HeardRight, ShownIn, ShownAt;
    var was := BlockOf(s.robots, rep.robot);
    var e := Crossing(reg, s.arbiter, was, rep);
    CrossingShape(reg, s.arbiter, was, rep);
    CrossingExactly(reg, s, rep);
    TelemetryExactly(s.robots, rep);
    SeenExactly(rep);
    var p := if SeenBay(rep).Some? && BlockAfter(was, rep).None? then OccupyBay(reg, e.state, SeenBay(rep).value, rep.robot)
             else Effect(e.state, Done);
    assert SecondCall(reg, rep, e, p);
    assert ReportRight(reg, s, Ingest(reg, s, rep), rep, e, p);
  }

  // ----- Ticks -----------------------------------------------------------------------------------------------

  /** A tick is the expiry followed, unless that raises, by the turns of all jobs. */
  lemma TickAnswers(cfg: Config, s: System, now: int, order: seq<Expiry>, lucks: seq<Luck>)
    requires Core(cfg.reg, s.arbiter) && VisitsAllBlocks(cfg.reg, order) && |lucks| == |s.jobs|
    requires forall r :: KnownBay(cfg.reg, s.robots, r)
    ensures var expired, out := ExpireStale(cfg, s, now, order), Tick(cfg, s, now, order, lucks);
            && expired.system.arbiter.Shaped(cfg.reg) && ExpiredTo(cfg, s, expired.system, now)
            && if expired.verdict.Failed? then out == expired else TurnsRight(cfg.reg, expired.system, out, 0, lucks)
  {
    hide ExpireStale, AdvanceFrom, TurnsRight, Run, GrantsHeld, QueuesDistinct, WithinCapacity, OneDirection, QueuesShaped,
      GrantsShaped, Registry.WellFormed, InsideOf, FirstBlock;
    ExpiryMarks(cfg, s, now, order);
    ExpireShape(cfg, s, now, order);
    var expired := ExpireStale(cfg, s, now, order);
    var es := ExpireLeads(cfg, s, now, order);
    RunKeepsCore(cfg.reg, s.arbiter, es);
    forall r ensures KnownBay(cfg.reg, expired.system.robots, r) {
      assert KnownBay(cfg.reg, s.robots, r);
    }
    if !expired.verdict.Failed? {
      TurnsInOrder(cfg.reg, expired.system, 0, lucks);
    }
  }

  // ----- What the answers rely on ------------------------------------------------------------------------------

  lemma ExpiryKeepsBays(cfg: Config, s: System, t: System, now: int)
    requires s.arbiter.Shaped(cfg.reg) && t.arbiter.Shaped(cfg.reg) && ExpiredTo(cfg, s, t, now)
    requires forall r :: KnownBay(cfg.reg, s.robots, r)
    ensures forall r :: KnownBay(cfg.reg, t.robots, r)
  {
    hide State.Shaped, FirstBlock, InsideOf;
    forall r ensures KnownBay(cfg.reg, t.robots, r) {
      assert KnownBay(cfg.reg, s.robots, r);
    }
  }

  lemma AdvanceFromKeepsRobots(reg: Registry, s: System, j: nat, lucks: seq<Luck>)
    requires s.arbiter.Shaped(reg) && j <= |s.jobs| == |lucks|
    ensures AdvanceFrom(reg, s, j, lucks).system.robots == s.robots
    decreases |lucks| - j
  {
    hide State.Shaped, Advance;
    if j < |s.jobs| {
      AdvanceShape(reg, s, j, lucks[j]);
      if !Advance(reg, s, j, lucks[j]).verdict.Failed? {
        AdvanceFromKeepsRobots(reg, Advance(reg, s, j, lucks[j]).system, j + 1, lucks);
      }
    }
  }

  lemma SubmitKeepsRobots(cfg: Config, s: System, r: RobotId, goal: NodeId, luck: Luck)
    requires s.arbiter.Shaped(cfg.reg)
    ensures Submit(cfg, s, r, goal, luck).system.robots == s.robots
  {
    hide State.Shaped, Attempt, SafeNode, ResolveRoute, OpenJob;
    var start := SafeNode(cfg.reg, s.robots, r);
    if start.Some? {
      var route := ResolveRoute(cfg.reg.routes, start.value, goal);
      if route.Some? {
        AttemptShape(cfg.reg, s.(jobs := s.jobs + [Job(r, route.value.steps, 0, WAITING)]), |s.jobs|, luck);
      }
    }
  }

  lemma NextKeepsBays(cfg: Config, s: System, i: Input)
    requires Core(cfg.reg, s.arbiter) && Possible(cfg, s, i) && forall r :: KnownBay(cfg.reg, s.robots, r)
    ensures forall r :: KnownBay(cfg.reg, Next(cfg, s, i).system.robots, r)
  {
    hide GrantsHeld, QueuesDistinct, WithinCapacity, OneDirection, QueuesShaped, GrantsShaped, Registry.WellFormed, Crossing,
      OccupyBay, Cancel, Submit, CancelJob, AdvanceFrom, ExpireStale, Reset, ExpiredTo, BlockAfter;
    match i
    case Reported(rep) =>
      forall r ensures KnownBay(cfg.reg, Next(cfg, s, i).system.robots, r) {
        assert KnownBay(cfg.reg, s.robots, r);
      }
    case Submitted(r, goal, luck) => SubmitKeepsRobots(cfg, s, r, goal, luck);
    case Ticked(now, order, lucks) =>
      ExpiryMarks(cfg, s, now, order);
      ExpireShape(cfg, s, now, order);
      var expired := ExpireStale(cfg, s, now, order);
      ExpiryKeepsBays(cfg, s, expired.system, now);
      if !expired.verdict.Failed? {
        AdvanceFromKeepsRobots(cfg.reg, expired.system, 0, lucks);
      }
    case JobCancelled(j) => CancelKeepsRobots(cfg.reg, s, j);
    case GateReset(force) =>
  }

  lemma CancelKeepsRobots(reg: Registry, s: System, j: nat)
    requires s.arbiter.Shaped(reg)
    ensures CancelJob(reg, s, j).system.robots == s.robots
  {
    hide State.Shaped, Cancel;
  }

  /** In every reachable state of the system the answers are the ones described here. */
  lemma {:induction false} AnswersApply(cfg: Config, inputs: seq<Input>, s: System)
    requires cfg.reg.WellFormed() && Reaches(cfg, inputs, s)
    ensures Core(cfg.reg, s.arbiter) && forall r :: KnownBay(cfg.reg, s.robots, r)
    decreases |inputs|
  {
    SystemKeepsCore(cfg, inputs, s);
    if inputs != [] {
      hide Next, State.Shaped, GrantsHeld, QueuesDistinct, WithinCapacity, OneDirection, Possible, KnownBay;
      var before: System :|
        && before.arbiter.Shaped(cfg.reg) && Reaches(cfg, inputs[..|inputs| - 1], before)
        && Possible(cfg, before, inputs[|inputs| - 1])
        && s == Next(cfg, before, inputs[|inputs| - 1]).system;
      AnswersApply(cfg, inputs[..|inputs| - 1], before);
      NextKeepsBays(cfg, before, inputs[|inputs| - 1]);
    }
  }
}
