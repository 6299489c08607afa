/** The system in fault-free operation: every job that is not finished either waits for
    an answer of the arbiter or is on its way, and every robot stands where its job says.
    Ticks, submissions and truthful reports keep it so. */
module GateProgress {
  import opened Models
  import opened CorridorRegistries
  import opened ArbiterSpec
  import opened ArbiterSteps
  import opened ArbiterSafety
  import opened ArbiterProgress
  import opened ArbiterRuns
  import opened ArbiterWakeups
  import opened ArbiterLegal
  import opened ArbiterScene
  import opened GateSpec
  import opened GateHistory

  // ----- Configuration -----------------------------------------------------------------

  /** Beyond what the registry loader checks, each step of a route starts where the one before it ended. */
  ghost predicate RouteOk(reg: Registry, steps: seq<RouteStep>) {
    && (forall k :: 0 <= k < |steps| ==> StepOk(reg, steps[k]))
    && (forall k :: 0 < k < |steps| ==> steps[k].source == Some(steps[k - 1].destination))
  }

  ghost predicate Sound(reg: Registry) {
    && reg.WellFormed() && DistinctEnds(reg)
    && (forall g, h :: g in reg.bays && h in reg.bays && reg.bays[g].node == reg.bays[h].node ==> g == h)
    && (forall route :: route in reg.routes ==>
        && route.steps != [] && RouteOk(reg, route.steps)
        && forall n :: n in route.starts ==> n == reg.bays[route.steps[0].source.value].node)
  }

  // ----- The invariant -----------------------------------------------------------------------

  /** The request asks for the job's current step. */
  ghost predicate Owns(job: Job, x: Reservation) {
    && job.Open() && job.HasStep() && job.robot == x.robot
    && var step := job.Current();
       x.block == step.block && x.direction == step.direction && x.destination == step.destination && x.source == step.source
  }

  /** Every request the arbiter knows belongs to an open job. */
  ghost predicate Claims(jobs: seq<Job>, a: State) {
    forall x :: Asks(a, x) ==> exists j :: 0 <= j < |jobs| && Owns(jobs[j], x)
  }

  predicate Admitted(a: State, job: Job)
    requires job.HasStep()
  {
    Key(job.robot, job.Current().block) in a.grants
  }

  ghost predicate Silent(a: State, r: RobotId) {
    forall x: Reservation :: x.robot == r ==> !Asks(a, x)
  }

  /** The robot has made the crossing: it stands in the destination and asks for nothing. */
  ghost predicate Crossed(a: State, job: Job)
    requires job.HasStep()
  {
    !Admitted(a, job) && StandsIn(a, job.robot, job.Current().destination) && Silent(a, job.robot)
  }

  predicate Outside(a: State, r: RobotId) {
    forall b | b in a.blocks :: r !in a.blocks[b].occupants
  }

  ghost predicate Waits(a: State, r: RobotId) {
    exists x: Reservation :: x.robot == r && Asks(a, x)
  }

  /** Where the robot of an open job is, as far as it is outside every block. */
  function Home(a: State, job: Job): BayId
    requires job.HasStep() && job.Current().source.Some?
  {
    if job.status.ACTIVE? && !Admitted(a, job) then job.Current().destination else job.Current().source.value
  }

  /** All that is known of the robot's place is bay `h`. */
  ghost predicate At(reg: Registry, a: State, robots: map<RobotId, Telemetry>, r: RobotId, h: BayId) {
    && h in reg.bays
    && (forall k :: StandsIn(a, r, k) ==> k == h)
    && (SafeNode(reg, robots, r).Some? ==> SafeNode(reg, robots, r).value == reg.bays[h].node)
  }

  ghost predicate OnePlace(reg: Registry, a: State, robots: map<RobotId, Telemetry>) {
    forall r, h :: StandsIn(a, r, h) ==> At(reg, a, robots, r, h)
  }

  /** The tracker has a robot in a block exactly while it is an occupant, and nobody is
      in a block and a bay. */
  ghost predicate Tracked(a: State, robots: map<RobotId, Telemetry>) {
    && (forall r, b :: Inside(a, r, b) <==> BlockOf(robots, r) == Some(b))
    && (forall r, b, h :: Inside(a, r, b) ==> !StandsIn(a, r, h))
  }

  ghost predicate JobOk(reg: Registry, job: Job) {
    && RouteOk(reg, job.steps)
    && (job.status.WAITING? || job.status.ACTIVE? || job.status.COMPLETE?)
    && (job.Open() ==> job.HasStep())
  }

  ghost predicate JobsOk(reg: Registry, jobs: seq<Job>) {
    OneOpenEach(jobs) && forall j :: 0 <= j < |jobs| ==> JobOk(reg, jobs[j])
  }

  /** An open job's robot has asked, or is on its way, and is where it should be. */
  ghost predicate Serviced(reg: Registry, a: State, robots: map<RobotId, Telemetry>, job: Job)
    requires JobOk(reg, job)
  {
    job.Open() ==>
      && (if job.status.WAITING? then Waits(a, job.robot) && Outside(a, job.robot)
          else Admitted(a, job) || Crossed(a, job))
      && At(reg, a, robots, job.robot, Home(a, job))
  }

  ghost predicate Base(reg: Registry, s: System) {
    && ArbiterInOrder(reg, s.arbiter) && s.Shaped(reg) && JobsOk(reg, s.jobs)
    && Claims(s.jobs, s.arbiter) && OnePlace(reg, s.arbiter, s.robots) && Tracked(s.arbiter, s.robots)
  }

  ghost predicate Good(reg: Registry, s: System) {
    Base(reg, s) && forall j :: 0 <= j < |s.jobs| ==> Serviced(reg, s.arbiter, s.robots, s.jobs[j])
  }

  /** As good, but job `j` is about to ask for its current step. */
  ghost predicate GoodBut(reg: Registry, s: System, j: nat) {
    && Base(reg, s) && j < |s.jobs| && s.jobs[j].status.WAITING? && Outside(s.arbiter, s.jobs[j].robot)
    && At(reg, s.arbiter, s.robots, s.jobs[j].robot, s.jobs[j].Current().source.value)
    && forall i :: 0 <= i < |s.jobs| && i != j ==> Serviced(reg, s.arbiter, s.robots, s.jobs[i])
  }

  // ----- Frames ----------------------------------------------------------------------------

  /** Nothing changed for robot `r`, except that it may have been admitted. */
  ghost predicate SameFor(reg: Registry, a: State, c: State, r: RobotId) {
    && (forall x: Reservation :: x.robot == r ==> (Asks(a, x) <==> Asks(c, x)))
    && (forall x: Reservation :: x.robot == r && Granted(a.grants, x) ==> Granted(c.grants, x))
    && (forall h :: StandsIn(a, r, h) <==> StandsIn(c, r, h))
    && (Outside(a, r) ==> Outside(c, r))
  }

  lemma GrantedKey(reg: Registry, a: State, r: RobotId, b: BlockId)
    requires GrantsShaped(reg, a.grants)
    ensures Key(r, b) in a.grants <==> exists x: Reservation :: x.robot == r && x.block == b && Granted(a.grants, x)
    ensures Key(r, b) in a.grants ==> Granted(a.grants, a.grants[Key(r, b)]) && Asks(a, a.grants[Key(r, b)])
    ensures Key(r, b) in a.grants ==> a.grants[Key(r, b)].robot == r && a.grants[Key(r, b)].block == b
  {
  }

  lemma ServicedFrame(reg: Registry, a: State, c: State, robots: map<RobotId, Telemetry>, after: map<RobotId, Telemetry>, job: Job)
    requires a.Shaped(reg) && c.Shaped(reg) && JobOk(reg, job) && Serviced(reg, a, robots, job)
    requires SameFor(reg, a, c, job.robot) && SafeNode(reg, after, job.robot) == SafeNode(reg, robots, job.robot)
    ensures Serviced(reg, c, after, job)
  {
    if job.Open() {
      var r, b := job.robot, job.Current().block;
      GrantedKey(reg, a, r, b);
      GrantedKey(reg, c, r, b);
      hide Granted, Asks, StandsIn, State.Shaped, SafeNode, RouteOk;
      if job.status.WAITING? {
        var x: Reservation :| x.robot == r && Asks(a, x);
        assert Asks(c, x);
      } else if Crossed(a, job) {
        assert !Admitted(c, job);
      }
    }
  }

  // ----- One attempt ---------------------------------------------------------------------------

  lemma OwnerIs(reg: Registry, jobs: seq<Job>, a: State, j: nat, x: Reservation)
    requires JobsOk(reg, jobs) && Claims(jobs, a) && j < |jobs| && jobs[j].Open()
    requires Asks(a, x) && x.robot == jobs[j].robot
    ensures Owns(jobs[j], x)
  {
  }

  lemma HeldIsAsked(reg: Registry, a: State, r: RobotId, b: BlockId)
    requires a.Shaped(reg) && Holds(a.waiting, a.grants, r, b)
    ensures exists x: Reservation :: x.robot == r && x.block == b && Asks(a, x)
  {
    if Key(r, b) in a.grants {
      GrantedKey(reg, a, r, b);
    } else {
      var d: Direction := if r in Robots(a.waiting[b].aToB) then AToB else BToA;
      var x :| x in a.waiting[b].Of(d) && x.robot == r;
      assert x.direction == d && x.block == b;
      assert Asks(a, x);
    }
  }

  /** A job's request is one the arbiter's callers may make. */
  lemma AttemptIsLegal(reg: Registry, s: System, j: nat, time: int)
    requires Sound(reg) && GoodBut(reg, s, j)
    ensures Legal(reg, s.arbiter, Requested(ForStep(s.jobs[j], time)))
  {
    var x := ForStep(s.jobs[j], time);
    assert StepOk(reg, s.jobs[j].Current());
    forall c | Holds(s.arbiter.waiting, s.arbiter.grants, x.robot, c) ensures c == x.block {
      HeldIsAsked(reg, s.arbiter, x.robot, c);
      var y: Reservation :| y.robot == x.robot && y.block == c && Asks(s.arbiter, y);
      OwnerIs(reg, s.jobs, s.arbiter, j, y);
    }
  }

  /** Without faults a new request is admitted or waits, and holds a grant accordingly. */
  lemma RequestAnswers(reg: Registry, a: State, x: Reservation)
    requires a.Shaped(reg) && IsNewRequest(reg, a, x) && Request(reg, a, x).Unchecked()
    requires Core(reg, Request(reg, a, x).state) && NoFault(Request(reg, a, x).state)
    ensures var e := Request(reg, a, x);
            || (e.reply == Answer(Admit) && Key(x.robot, x.block) in e.state.grants)
            || (e.reply == Answer(Wait) && Key(x.robot, x.block) !in e.state.grants)
  {
    var domain := reg.blocks[x.block].domain;
    if a.domains[domain].active != Some(x.direction) {
      var u := if a.domains[domain].active == None then a else CloseBatch(a, domain);
      CloseBatchShape(reg, a, domain);
      EnqueueAndReconcileShape(reg, u, x);
      DecisionIsHeld(reg, EnqueueAndReconcile(reg, u, x).state, x.robot, x.block);
    }
    hide Reconcile, Core, Queues.Has, ChecksPass, DecisionFor, Enqueue, Available, NoFault, QueuesShaped, GrantsShaped,
      Registry.WellFormed;
  }

  lemma DecisionIsHeld(reg: Registry, a: State, r: RobotId, b: BlockId)
    requires a.Shaped(reg) && b in reg.blocks
    ensures Core(reg, a) && NoFault(a) ==>
              DecisionFor(reg, a, r, b) == Answer(if Key(r, b) in a.grants then Admit else Wait)
  {
  }

  /** The job has had its turn: it is on its way, or waits without a grant. */
  predicate Turned(a: State, job: Job) {
    job.Open() && job.HasStep() ==> job.status.ACTIVE? || !Admitted(a, job)
  }

  /** What the arbiter looks like after a legal new request. */
  lemma NewRequest(reg: Registry, a: State, x: Reservation)
    requires ArbiterInOrder(reg, a) && DistinctEnds(reg) && IsNewRequest(reg, a, x) && Legal(reg, a, Requested(x))
    ensures var e := Request(reg, a, x);
            && ArbiterInOrder(reg, e.state) && AsksOneMore(a, e.state, x)
            && OnlyNew(a.grants, e.state.grants, Key(x.robot, x.block))
            && e.reply == Answer(if Key(x.robot, x.block) in e.state.grants then Admit else Wait)
  {
    hide Request, Asks, Granted, Inside, StandsIn, IsNewRequest, State.Shaped, Tidy, AllSettled, BaysBacked,
      GrantsHeld, QueuesDistinct, WithinCapacity, OneDirection, Legal, NoFault, OnlyNew;
    RoutineKeepsOrder(reg, a, Requested(x));
    RequestedScene(reg, a, x);
    NobodyFaulted(a);
    RequestAdmitsOnlyAsker(reg, a, x);
    RequestAnswers(reg, a, x);
  }

  lemma NobodyFaulted(a: State)
    requires NoFault(a)
    ensures forall b :: b in a.blocks ==> !a.blocks[b].faulted
  {
  }

  /** The scene after one more request. */
  ghost predicate AsksOneMore(a: State, c: State, x: Reservation) {
    && (forall y :: Asks(c, y) <==> Asks(a, y) || y == x)
    && (forall y :: Granted(a.grants, y) ==> Granted(c.grants, y))
    && (forall q, k :: Inside(c, q, k) <==> Inside(a, q, k))
    && (forall q, h :: StandsIn(c, q, h) <==> StandsIn(a, q, h))
  }

  lemma SameInside(a: State, c: State, r: RobotId)
    requires forall b :: Inside(c, r, b) ==> Inside(a, r, b)
    ensures Outside(a, r) ==> Outside(c, r)
  {
    assert forall b :: b in c.blocks && r in c.blocks[b].occupants ==> Inside(c, r, b);
  }

  lemma AskedBase(reg: Registry, s: System, c: State, j: nat, x: Reservation)
    requires Base(reg, s) && ArbiterInOrder(reg, c) && AsksOneMore(s.arbiter, c, x)
    requires j < |s.jobs| && Owns(s.jobs[j], x)
    ensures Base(reg, s.(arbiter := c))
  {
    hide Asks, Granted, Inside, StandsIn, SafeNode, State.Shaped, Owns, JobsOk, Tidy, AllSettled, BaysBacked, NoFault,
      GrantsHeld, QueuesDistinct, WithinCapacity, OneDirection;
  }

  lemma AskedOthers(reg: Registry, s: System, c: State, j: nat, x: Reservation, i: nat)
    requires Base(reg, s) && c.Shaped(reg) && AsksOneMore(s.arbiter, c, x)
    requires j < |s.jobs| && Owns(s.jobs[j], x) && i < |s.jobs| && i != j
    requires Serviced(reg, s.arbiter, s.robots, s.jobs[i])
    ensures Serviced(reg, c, s.robots, s.jobs[i])
  {
    hide Asks, Granted, Inside, StandsIn, SafeNode, State.Shaped, RouteOk, Claims, OnePlace, Tracked, Tidy, AllSettled,
      BaysBacked, NoFault, GrantsHeld, QueuesDistinct, WithinCapacity, OneDirection;
    if s.jobs[i].Open() {
      assert s.jobs[i].robot != s.jobs[j].robot;
      SameInside(s.arbiter, c, s.jobs[i].robot);
      ServicedFrame(reg, s.arbiter, c, s.robots, s.robots, s.jobs[i]);
    }
  }

  lemma SoundEnds(reg: Registry)
    requires Sound(reg)
    ensures DistinctEnds(reg)
  {
  }

  /** After the job has asked, whatever the answer: everyone else is as before. */
  lemma AskedGood(reg: Registry, s: System, j: nat, time: int)
    requires Sound(reg) && GoodBut(reg, s, j) && IsNewRequest(reg, s.arbiter, ForStep(s.jobs[j], time))
    ensures var x := ForStep(s.jobs[j], time);
            var e := Request(reg, s.arbiter, x);
            && GoodBut(reg, s.(arbiter := e.state), j)
            && Asks(e.state, x) && OnlyNew(s.arbiter.grants, e.state.grants, Key(x.robot, x.block))
            && e.reply == Answer(if Key(x.robot, x.block) in e.state.grants then Admit else Wait)
  {
    hide Request, Asks, Granted, Inside, StandsIn, SafeNode, State.Shaped, RouteOk, Serviced, Claims, OnePlace, Tracked,
      IsNewRequest, Legal, Outside, Tidy, AllSettled, BaysBacked, NoFault, GrantsHeld, QueuesDistinct, WithinCapacity,
      OneDirection, Sound;
    var x := ForStep(s.jobs[j], time);
    var c := Request(reg, s.arbiter, x).state;
    SoundEnds(reg);
    ShapedIsKeyed(reg, s.arbiter);
    AttemptIsLegal(reg, s, j, time);
    NewRequest(reg, s.arbiter, x);
    SameInside(s.arbiter, c, s.jobs[j].robot);
    AskedBase(reg, s, c, j, x);
    forall i | 0 <= i < |s.jobs| && i != j ensures Serviced(reg, c, s.robots, s.jobs[i]) {
      InOrderShaped(reg, c);
      AskedOthers(reg, s, c, j, x, i);
    }
  }

  lemma InOrderShaped(reg: Registry, a: State)
    requires ArbiterInOrder(reg, a)
    ensures a.Shaped(reg)
  {
  }

  /** Job `j` with its answer filed. */
  lemma AnswerFiled(reg: Registry, s: System, t: System, j: nat)
    requires GoodBut(reg, s, j) && |t.jobs| == |s.jobs|
    requires t == s.(jobs := s.jobs[j := s.jobs[j].(status := t.jobs[j].status)], log := t.log)
    requires (t.jobs[j].status.WAITING? && Waits(s.arbiter, s.jobs[j].robot))
             || (t.jobs[j].status.ACTIVE? && Admitted(s.arbiter, s.jobs[j]))
    ensures Good(reg, t)
  {
    hide ArbiterInOrder, OnePlace, Tracked, Claims, Waits, At, RouteOk, State.Shaped, OneOpenEach, Crossed;
    FiledClaims(s.jobs, s.arbiter, j, t.jobs[j].status);
    FiledJobs(reg, s.jobs, j, t.jobs[j].status);
    assert forall i :: 0 <= i < |t.jobs| && i != j ==> t.jobs[i] == s.jobs[i];
  }

  lemma FiledJobs(reg: Registry, jobs: seq<Job>, j: nat, status: Status)
    requires JobsOk(reg, jobs) && j < |jobs| && jobs[j].Open() && (status.WAITING? || status.ACTIVE?)
    ensures JobsOk(reg, jobs[j := jobs[j].(status := status)])
    ensures JobOk(reg, jobs[j])
  {
  }

  lemma FiledClaims(jobs: seq<Job>, a: State, j: nat, status: Status)
    requires Claims(jobs, a) && j < |jobs| && jobs[j].Open() && (status.WAITING? || status.ACTIVE?)
    ensures Claims(jobs[j := jobs[j].(status := status)], a)
  {
    var after := jobs[j := jobs[j].(status := status)];
    forall x | Asks(a, x) ensures exists i :: 0 <= i < |after| && Owns(after[i], x) {
      var i :| 0 <= i < |jobs| && Owns(jobs[i], x);
      assert Owns(after[i], x);
    }
  }

  /** The robot does not have the block and has not asked for it. */
  lemma UnaskedIsNew(reg: Registry, s: System, j: nat, time: int)
    requires Sound(reg) && GoodBut(reg, s, j) && !Admitted(s.arbiter, s.jobs[j])
    requires StepOk(reg, s.jobs[j].Current())
    ensures s.jobs[j].Current().block in s.arbiter.waiting
    ensures IsWaiting(s.arbiter, s.jobs[j].robot, s.jobs[j].Current().block)
         || IsNewRequest(reg, s.arbiter, ForStep(s.jobs[j], time))
  {
  }

  /** What follows from the arbiter's answer. */
  lemma AttemptCases(reg: Registry, s: System, j: nat, luck: Luck)
    requires s.arbiter.Shaped(reg) && j < |s.jobs| && s.jobs[j].HasStep() && s.jobs[j].Current().block in reg.blocks
    requires DecisionFor(reg, s.arbiter, s.jobs[j].robot, s.jobs[j].Current().block)
          == Answer(if Admitted(s.arbiter, s.jobs[j]) then Admit else Wait)
    requires luck.outcome.Delivered()
    ensures var t := Attempt(reg, s, j, luck);
            var e := Request(reg, s.arbiter, ForStep(s.jobs[j], luck.time));
            && (Admitted(s.arbiter, s.jobs[j]) ==>
                !t.verdict.Failed?
                && t.system == s.(jobs := s.jobs[j := s.jobs[j].(status := ACTIVE)], log := t.system.log))
            && (!Admitted(s.arbiter, s.jobs[j]) && e.reply == Answer(Admit) ==>
                !t.verdict.Failed?
                && t.system == s.(arbiter := e.state, jobs := s.jobs[j := s.jobs[j].(status := ACTIVE)], log := t.system.log))
            && (!Admitted(s.arbiter, s.jobs[j]) && e.reply == Answer(Wait) ==>
                !t.verdict.Failed?
                && t.system == s.(arbiter := e.state, jobs := s.jobs[j := s.jobs[j].(status := WAITING)]))
  {
  }

  lemma QueuedAnswer(reg: Registry, a: State, x: Reservation)
    requires Core(reg, a) && NoFault(a) && x.block in reg.blocks && x.destination in reg.bays
    requires Key(x.robot, x.block) !in a.grants && IsWaiting(a, x.robot, x.block)
    ensures Request(reg, a, x) == Effect(a, Answer(Wait))
    ensures Waits(a, x.robot)
  {
    HeldIsAsked(reg, a, x.robot, x.block);
    hide WithinCapacity, OneDirection, QueuesShaped, GrantsShaped, Registry.WellFormed, Queues.Has, Enqueue, Grant,
      EnqueueAndReconcile, Asks;
  }

  /** An attempt leaves the system good, does not raise, and grants nobody else. */
  lemma AttemptGood(reg: Registry, s: System, j: nat, luck: Luck)
    requires Sound(reg) && GoodBut(reg, s, j) && luck.outcome.Delivered()
    ensures var r := Attempt(reg, s, j, luck);
            var t := r.system;
            && !r.verdict.Failed? && Good(reg, t) && |t.jobs| == |s.jobs| && Turned(t.arbiter, t.jobs[j])
            && t.jobs == s.jobs[j := s.jobs[j].(status := t.jobs[j].status)]
            && OnlyNew(s.arbiter.grants, t.arbiter.grants, Key(s.jobs[j].robot, s.jobs[j].Current().block))
  {
    var job := s.jobs[j];
    var x := ForStep(job, luck.time);
    assert JobOk(reg, job) && StepOk(reg, job.Current());
    hide Attempt, Request, Tidy, AllSettled, BaysBacked, GrantsHeld, QueuesDistinct, WithinCapacity, OneDirection,
      State.Shaped, RouteOk, Claims, OnePlace, Tracked, Serviced, SafeNode, StandsIn, Asks, IsNewRequest, NoFault, At,
      StepOk, DecisionFor, IsWaiting, OneOpenEach;
    DecisionIsHeld(reg, s.arbiter, job.robot, job.Current().block);
    AttemptCases(reg, s, j, luck);
    var t := Attempt(reg, s, j, luck).system;
    if Admitted(s.arbiter, job) {
      AnswerFiled(reg, s, t, j);
    } else {
      UnaskedIsNew(reg, s, j, luck.time);
      if IsWaiting(s.arbiter, job.robot, job.Current().block) {
        QueuedAnswer(reg, s.arbiter, x);
        AnswerFiled(reg, s, t, j);
      } else {
        AskedGood(reg, s, j, luck.time);
        var u := s.(arbiter := Request(reg, s.arbiter, x).state);
        assert Waits(u.arbiter, x.robot);
        AnswerFiled(reg, u, t, j);
      }
    }
  }

  // ----- One tick ----------------------------------------------------------------------------

  /** Whoever has arrived has made the crossing. */
  lemma ArrivedCrossed(reg: Registry, s: System, j: nat)
    requires Sound(reg) && Good(reg, s) && j < |s.jobs| && s.jobs[j].status.ACTIVE?
    requires s.jobs[j].HasStep() && HasArrived(reg, s.robots, s.jobs[j].robot, s.jobs[j].Current().goal)
    ensures Crossed(s.arbiter, s.jobs[j])
    ensures At(reg, s.arbiter, s.robots, s.jobs[j].robot, s.jobs[j].Current().destination)
  {
    var job := s.jobs[j];
    hide ArbiterInOrder, Claims, OnePlace, Tracked, SafeNode, StandsIn, Asks, State.Shaped;
    assert JobOk(reg, job) && StepOk(reg, job.Current()) && Serviced(reg, s.arbiter, s.robots, job);
    assert job.Current().source.value != job.Current().destination;
  }

  /** The crossing is done: on to the next step, or the job is complete. */
  lemma ArrivedGood(reg: Registry, s: System, j: nat)
    requires Sound(reg) && Good(reg, s) && j < |s.jobs| && s.jobs[j].status.ACTIVE?
    requires s.jobs[j].HasStep() && HasArrived(reg, s.robots, s.jobs[j].robot, s.jobs[j].Current().goal)
    ensures var next := s.jobs[j].(index := s.jobs[j].index + 1);
            if next.HasStep() then GoodBut(reg, s.(jobs := s.jobs[j := next.(status := WAITING)]), j)
            else Good(reg, s.(jobs := s.jobs[j := next.(status := COMPLETE)]))
  {
    hide ArbiterInOrder, OnePlace, SafeNode, Asks, State.Shaped, HasArrived, StepOk, Sound;
    var job := s.jobs[j];
    var next := job.(index := job.index + 1);
    var after := s.jobs[j := next.(status := if next.HasStep() then WAITING else COMPLETE)];
    ArrivedCrossed(reg, s, j);
    StandingIsOutside(s, job.robot, job.Current().destination);
    hide Tracked, StandsIn, Outside;
    ArrivedClaims(reg, s.jobs, s.arbiter, j, after[j]);
    ArrivedJobs(reg, s.jobs, j, after[j]);
    assert forall i :: 0 <= i < |after| && i != j ==> after[i] == s.jobs[i];
    hide Claims, JobsOk, At, Crossed;
  }

  lemma StandingIsOutside(s: System, r: RobotId, h: BayId)
    requires Tracked(s.arbiter, s.robots) && StandsIn(s.arbiter, r, h)
    ensures Outside(s.arbiter, r)
  {
    assert forall b :: b in s.arbiter.blocks && r in s.arbiter.blocks[b].occupants ==> Inside(s.arbiter, r, b);
  }

  lemma ArrivedJobs(reg: Registry, jobs: seq<Job>, j: nat, next: Job)
    requires JobsOk(reg, jobs) && j < |jobs| && jobs[j].status.ACTIVE?
    requires next == jobs[j].(index := jobs[j].index + 1, status := next.status)
    requires next.status == if next.HasStep() then WAITING else COMPLETE
    ensures JobsOk(reg, jobs[j := next]) && JobOk(reg, next) && JobOk(reg, jobs[j])
    ensures next.HasStep() ==> jobs[j].HasStep() && next.Current().source == Some(jobs[j].Current().destination)
  {
  }

  lemma ArrivedClaims(reg: Registry, jobs: seq<Job>, a: State, j: nat, next: Job)
    requires JobsOk(reg, jobs) && Claims(jobs, a) && j < |jobs| && jobs[j].HasStep() && Silent(a, jobs[j].robot)
    ensures Claims(jobs[j := next], a)
  {
    var after := jobs[j := next];
    forall x | Asks(a, x) ensures exists i :: 0 <= i < |after| && Owns(after[i], x) {
      var i :| 0 <= i < |jobs| && Owns(jobs[i], x);
      assert i != j;
      assert Owns(after[i], x);
    }
  }

  /** One job's turn: it did not raise, only this job changed, and grants were made
      to its robot only. */
  ghost predicate TookTurn(reg: Registry, s: System, r: Response, j: nat) {
    var t := r.system;
    && !r.verdict.Failed? && Good(reg, t) && j < |t.jobs| == |s.jobs| && Turned(t.arbiter, t.jobs[j])
    && t.jobs == s.jobs[j := t.jobs[j]] && t.jobs[j].robot == s.jobs[j].robot
    && NewOnlyFor(s.arbiter.grants, t.arbiter.grants, s.jobs[j].robot)
    && (t.jobs[j].Open() ==> s.jobs[j].Open())
  }

  lemma AttemptTakesTurn(reg: Registry, s: System, u: System, j: nat, luck: Luck)
    requires Sound(reg) && GoodBut(reg, u, j) && luck.outcome.Delivered()
    requires j < |s.jobs| && s.jobs[j].Open() && u.arbiter == s.arbiter
    requires u.jobs == s.jobs[j := u.jobs[j]] && u.jobs[j].robot == s.jobs[j].robot
    ensures TookTurn(reg, s, Attempt(reg, u, j, luck), j)
  {
    hide Attempt, Base, At, State.Shaped, Serviced, Good;
    AttemptGood(reg, u, j, luck);
  }

  lemma WaitingIsGoodBut(reg: Registry, s: System, j: nat)
    requires Good(reg, s) && j < |s.jobs| && s.jobs[j].status.WAITING?
    ensures GoodBut(reg, s, j) && s.jobs[j].HasStep()
  {
  }

  lemma UnchangedTookTurn(reg: Registry, s: System, j: nat)
    requires Good(reg, s) && j < |s.jobs| && !s.jobs[j].status.WAITING?
    ensures TookTurn(reg, s, Response(s, Okay), j)
  {
  }

  lemma AdvanceGood(reg: Registry, s: System, j: nat, luck: Luck)
    requires Sound(reg) && Good(reg, s) && j < |s.jobs| && luck.outcome.Delivered()
    ensures TookTurn(reg, s, Advance(reg, s, j, luck), j)
  {
    hide Attempt, State.Shaped, HasArrived, Good, GoodBut, Sound, TookTurn;
    var job := s.jobs[j];
    GoodShaped(reg, s);
    OpenHasStep(reg, s, j);
    if job.status.WAITING? {
      WaitingIsGoodBut(reg, s, j);
      AttemptTakesTurn(reg, s, s, j, luck);
    } else if job.status.ACTIVE? && HasArrived(reg, s.robots, job.robot, job.Current().goal) {
      ArrivedGood(reg, s, j);
      var next := job.(index := job.index + 1);
      if next.HasStep() {
        AttemptTakesTurn(reg, s, s.(jobs := s.jobs[j := next.(status := WAITING)]), j, luck);
      } else {
        CompletedTookTurn(reg, s, j, next.(status := COMPLETE));
      }
    } else {
      UnchangedTookTurn(reg, s, j);
    }
  }

  lemma CompletedTookTurn(reg: Registry, s: System, j: nat, next: Job)
    requires j < |s.jobs| && Good(reg, s.(jobs := s.jobs[j := next])) && next.status.COMPLETE?
    requires next.robot == s.jobs[j].robot
    ensures TookTurn(reg, s, Response(s.(jobs := s.jobs[j := next]), Okay), j)
  {
    hide Good;
  }

  lemma OpenHasStep(reg: Registry, s: System, j: nat)
    requires Good(reg, s) && j < |s.jobs|
    ensures s.jobs[j].Open() ==> s.jobs[j].HasStep() && !s.jobs[j].status.RETRY?
  {
  }

  ghost predicate NewOnlyFor(s: map<Key, Reservation>, t: map<Key, Reservation>, r: RobotId) {
    forall k :: k in t && k !in s ==> k.robot == r
  }

  /** Every job before `j` has had its turn. */
  ghost predicate TurnedUpTo(s: System, j: nat) {
    forall i :: 0 <= i < j && i < |s.jobs| ==> Turned(s.arbiter, s.jobs[i])
  }

  lemma TurnedStays(reg: Registry, s: System, t: System, j: nat)
    requires Good(reg, s) && Good(reg, t) && j < |s.jobs| == |t.jobs| && TurnedUpTo(s, j)
    requires t.jobs == s.jobs[j := t.jobs[j]] && Turned(t.arbiter, t.jobs[j]) && (t.jobs[j].Open() ==> s.jobs[j].Open())
    requires s.jobs[j].robot == t.jobs[j].robot && NewOnlyFor(s.arbiter.grants, t.arbiter.grants, s.jobs[j].robot)
    requires !s.jobs[j].Open() ==> t.arbiter.grants == s.arbiter.grants
    ensures TurnedUpTo(t, j + 1)
  {
    forall i | 0 <= i < j ensures Turned(t.arbiter, t.jobs[i]) {
      assert Turned(s.arbiter, s.jobs[i]) && t.jobs[i] == s.jobs[i];
      if s.jobs[i].Open() && s.jobs[j].Open() {
        assert s.jobs[i].robot != s.jobs[j].robot;
      }
    }
  }

  lemma ClosedStays(reg: Registry, s: System, j: nat, luck: Luck)
    requires s.arbiter.Shaped(reg) && j < |s.jobs| && !s.jobs[j].Open()
    ensures Advance(reg, s, j, luck).system == s
  {
  }

  predicate AllDelivered(lucks: seq<Luck>) {
    forall i :: 0 <= i < |lucks| ==> lucks[i].outcome.Delivered()
  }

  lemma AdvanceFromGood(reg: Registry, s: System, j: nat, lucks: seq<Luck>)
    requires Sound(reg) && Good(reg, s) && j <= |s.jobs| == |lucks| && AllDelivered(lucks) && TurnedUpTo(s, j)
    ensures var r := AdvanceFrom(reg, s, j, lucks);
            !r.verdict.Failed? && Good(reg, r.system) && TurnedUpTo(r.system, |r.system.jobs|)
    decreases |lucks| - j
  {
    GoodShaped(reg, s);
    hide Advance, Good, Turned, NewOnlyFor, State.Shaped;
    if j < |s.jobs| {
      AdvanceGood(reg, s, j, lucks[j]);
      var t := Advance(reg, s, j, lucks[j]).system;
      GoodShaped(reg, t);
      if !s.jobs[j].Open() {
        ClosedStays(reg, s, j, lucks[j]);
      }
      TurnedStays(reg, s, t, j);
      AdvanceFromGood(reg, t, j + 1, lucks);
    }
  }

  lemma GoodShaped(reg: Registry, s: System)
    requires Good(reg, s)
    ensures s.arbiter.Shaped(reg)
  {
  }

  /** No robot inside a block has gone silent. */
  ghost predicate NobodySilent(cfg: Config, s: System, now: int) {
    forall r :: r in s.robots ==> !Stale(cfg, s.robots[r], now)
  }

  lemma NobodyExpires(cfg: Config, s: System, now: int, order: seq<Expiry>)
    requires s.arbiter.Shaped(cfg.reg) && VisitsAllBlocks(cfg.reg, order) && NobodySilent(cfg, s, now)
    ensures ExpireStale(cfg, s, now, order) == Response(s, Okay)
    decreases |order|
  {
  }

  /** After a tick every open job is on its way or waits without a grant. */
  lemma TickGood(cfg: Config, s: System, now: int, order: seq<Expiry>, lucks: seq<Luck>)
    requires Sound(cfg.reg) && Good(cfg.reg, s) && VisitsAllBlocks(cfg.reg, order) && |lucks| == |s.jobs|
    requires NobodySilent(cfg, s, now) && AllDelivered(lucks)
    ensures var r := Tick(cfg, s, now, order, lucks);
            !r.verdict.Failed? && Good(cfg.reg, r.system) && TurnedUpTo(r.system, |r.system.jobs|)
  {
    GoodShaped(cfg.reg, s);
    hide Good, State.Shaped, AdvanceFrom;
    NobodyExpires(cfg, s, now, order);
    AdvanceFromGood(cfg.reg, s, 0, lucks);
  }

  // ----- Submitting ------------------------------------------------------------------------------

  lemma ResolvedRoute(routes: seq<Route>, start: NodeId, goal: NodeId)
    ensures var r := ResolveRoute(routes, start, goal);
            r.Some? ==> r.value in routes && start in r.value.starts && goal in r.value.goals
  {
  }

  /** A new job's robot stands where its route starts. */
  lemma StartsAt(reg: Registry, s: System, r: RobotId, goal: NodeId)
    requires Sound(reg) && Base(reg, s) && SafeNode(reg, s.robots, r).Some?
    requires ResolveRoute(reg.routes, SafeNode(reg, s.robots, r).value, goal).Some?
    ensures var steps := ResolveRoute(reg.routes, SafeNode(reg, s.robots, r).value, goal).value.steps;
            && steps != [] && RouteOk(reg, steps) && At(reg, s.arbiter, s.robots, r, steps[0].source.value)
            && Outside(s.arbiter, r)
  {
    assert forall b :: b in s.arbiter.blocks && r in s.arbiter.blocks[b].occupants ==> Inside(s.arbiter, r, b);
    var start := SafeNode(reg, s.robots, r).value;
    var route := ResolveRoute(reg.routes, start, goal).value;
    ResolvedRoute(reg.routes, start, goal);
    assert route in reg.routes && RouteOk(reg, route.steps) && StepOk(reg, route.steps[0]);
    hide ArbiterInOrder, JobsOk, Claims, Tracked, SafeNode, StandsIn, ResolveRoute, State.Shaped;
    forall k | StandsIn(s.arbiter, r, k) ensures k == route.steps[0].source.value {
      assert At(reg, s.arbiter, s.robots, r, k);
    }
  }

  lemma NewJobGood(reg: Registry, s: System, r: RobotId, steps: seq<RouteStep>)
    requires Good(reg, s) && !OpenJob(s.jobs, r) && steps != [] && RouteOk(reg, steps)
    requires At(reg, s.arbiter, s.robots, r, steps[0].source.value) && Outside(s.arbiter, r)
    ensures GoodBut(reg, s.(jobs := s.jobs + [Job(r, steps, 0, WAITING)]), |s.jobs|)
  {
    hide ArbiterInOrder, OnePlace, Tracked, RouteOk, State.Shaped, At, Outside, Claims, JobsOk, Serviced;
    var job := Job(r, steps, 0, WAITING);
    NewJobClaims(s.jobs, s.arbiter, job);
    NewJobOk(reg, s.jobs, job);
  }

  lemma NewJobOk(reg: Registry, jobs: seq<Job>, job: Job)
    requires JobsOk(reg, jobs) && JobOk(reg, job) && !OpenJob(jobs, job.robot)
    ensures JobsOk(reg, jobs + [job])
  {
  }

  lemma NewJobClaims(jobs: seq<Job>, a: State, job: Job)
    requires Claims(jobs, a)
    ensures Claims(jobs + [job], a)
  {
    forall x | Asks(a, x) ensures exists i :: 0 <= i < |jobs + [job]| && Owns((jobs + [job])[i], x) {
      var i :| 0 <= i < |jobs| && Owns(jobs[i], x);
      assert Owns((jobs + [job])[i], x);
    }
  }

  lemma SubmitGood(cfg: Config, s: System, r: RobotId, goal: NodeId, luck: Luck)
    requires Sound(cfg.reg) && Good(cfg.reg, s) && luck.outcome.Delivered()
    ensures var e := Submit(cfg, s, r, goal, luck); !e.verdict.Failed? && Good(cfg.reg, e.system)
  {
    GoodShaped(cfg.reg, s);
    hide Good, Attempt, State.Shaped, SafeNode, ResolveRoute, OpenJob, GoodBut;
    var start := SafeNode(cfg.reg, s.robots, r);
    if start.Some? {
      var route := ResolveRoute(cfg.reg.routes, start.value, goal);
      if route.Some? && !OpenJob(s.jobs, r) {
        GoodBase(cfg.reg, s);
        StartsAt(cfg.reg, s, r, goal);
        NewJobGood(cfg.reg, s, r, route.value.steps);
        AttemptGood(cfg.reg, s.(jobs := s.jobs + [Job(r, route.value.steps, 0, WAITING)]), |s.jobs|, luck);
      }
    }
  }

  lemma GoodBase(reg: Registry, s: System)
    requires Good(reg, s)
    ensures Base(reg, s)
  {
  }

  // ----- Reports -----------------------------------------------------------------------------------

  /** The report shows the robot where it can be: inside its block it is seen there or
      leaves into the bay reserved for it; it enters a block only when its job has been
      admitted and sent; and outside the blocks nothing places it anywhere but in its bay.
      A first sighting in a bay needs room there. */
  ghost predicate Truthful(reg: Registry, s: System, rep: Report)
    requires s.arbiter.Keyed(reg)
  {
    var r, a, was := rep.robot, s.arbiter, BlockOf(s.robots, rep.robot);
    var seen, bay := SeenBlock(rep), SeenBay(rep);
    && (seen.Some? ==> seen.value in reg.blocks) && (bay.Some? ==> bay.value in reg.bays)
    && (was.Some? ==>
        (seen.None? || seen == was) && (seen.None? && bay.Some? ==> GrantedTo(a, r, was.value, bay.value)))
    && (was.None? && seen.Some? ==>
        Key(r, seen.value) in a.grants && forall j :: 0 <= j < |s.jobs| && s.jobs[j].robot == r ==> !s.jobs[j].status.WAITING?)
    && (was.None? && seen.None? ==>
        && OnlySeenAt(reg, s, r, SafeNode(reg, s.robots[r := TelemetryAfter(s.robots, rep)], r))
        && (bay.Some? ==> StandsIn(a, r, bay.value) || |a.bays[bay.value].Used()| < reg.bays[bay.value].capacity))
  }

  /** The node is that of every bay the robot is known to be in. */
  ghost predicate OnlySeenAt(reg: Registry, s: System, r: RobotId, node: Option<NodeId>) {
    node.Some? ==>
      && (forall h :: h in reg.bays && StandsIn(s.arbiter, r, h) ==> node.value == reg.bays[h].node)
      && (forall j :: 0 <= j < |s.jobs| && s.jobs[j].robot == r ==> MayBeAt(reg, s.arbiter, s.jobs[j], node.value))
  }

  ghost predicate MayBeAt(reg: Registry, a: State, job: Job, n: NodeId) {
    job.Open() && job.HasStep() && job.Current().source.Some? && Home(a, job) in reg.bays ==>
      n == reg.bays[Home(a, job)].node
  }

  /** Everybody but `r` is as before. */
  ghost predicate OthersSame(reg: Registry, s: System, t: System, r: RobotId) {
    && t.jobs == s.jobs && t.log == s.log
    && (forall q :: q != r ==> SameFor(reg, s.arbiter, t.arbiter, q))
    && (forall q, b :: q != r ==> (Inside(s.arbiter, q, b) <==> Inside(t.arbiter, q, b)))
    && (forall x :: Asks(t.arbiter, x) ==> Asks(s.arbiter, x))
    && (forall q :: q != r ==> (q in t.robots <==> q in s.robots))
    && (forall q :: q != r && q in s.robots ==> t.robots[q] == s.robots[q])
  }

  /** A report is about one robot: if that robot's own affairs are in order afterwards,
      everything is. */
  lemma OneRobotGood(reg: Registry, s: System, t: System, r: RobotId)
    requires Good(reg, s) && OthersSame(reg, s, t, r) && ArbiterInOrder(reg, t.arbiter) && t.Shaped(reg)
    requires forall h :: StandsIn(t.arbiter, r, h) ==> At(reg, t.arbiter, t.robots, r, h)
    requires forall b :: Inside(t.arbiter, r, b) <==> BlockOf(t.robots, r) == Some(b)
    requires forall b, h :: Inside(t.arbiter, r, b) ==> !StandsIn(t.arbiter, r, h)
    requires forall j :: 0 <= j < |t.jobs| && t.jobs[j].robot == r ==>
               JobOk(reg, t.jobs[j]) && Serviced(reg, t.arbiter, t.robots, t.jobs[j])
    ensures Good(reg, t)
  {
    hide ArbiterInOrder, State.Shaped, Inside, Asks, Granted, RouteOk, Outside, Crossed, Admitted;
    InOrderShaped(reg, t.arbiter);
    OthersPlaces(reg, s, t, r);
    forall j | 0 <= j < |t.jobs| ensures Serviced(reg, t.arbiter, t.robots, t.jobs[j]) {
      assert JobOk(reg, s.jobs[j]) && t.jobs[j] == s.jobs[j];
      if t.jobs[j].robot != r {
        OtherServiced(reg, s, t, r, j);
      }
    }
  }

  lemma OthersPlaces(reg: Registry, s: System, t: System, r: RobotId)
    requires OnePlace(reg, s.arbiter, s.robots) && Tracked(s.arbiter, s.robots) && Claims(s.jobs, s.arbiter)
    requires OthersSame(reg, s, t, r)
    requires forall h :: StandsIn(t.arbiter, r, h) ==> At(reg, t.arbiter, t.robots, r, h)
    requires forall b :: Inside(t.arbiter, r, b) <==> BlockOf(t.robots, r) == Some(b)
    requires forall b, h :: Inside(t.arbiter, r, b) ==> !StandsIn(t.arbiter, r, h)
    ensures OnePlace(reg, t.arbiter, t.robots) && Tracked(t.arbiter, t.robots) && Claims(t.jobs, t.arbiter)
  {
    hide Inside, Asks, StandsIn;
    forall q, h | StandsIn(t.arbiter, q, h) ensures At(reg, t.arbiter, t.robots, q, h) {
      if q != r {
        assert SameFor(reg, s.arbiter, t.arbiter, q);
        assert At(reg, s.arbiter, s.robots, q, h);
      }
    }
    forall q, b, h | Inside(t.arbiter, q, b) ensures !StandsIn(t.arbiter, q, h) {
      if q != r {
        assert SameFor(reg, s.arbiter, t.arbiter, q) && Inside(s.arbiter, q, b);
      }
    }
  }

  lemma OtherServiced(reg: Registry, s: System, t: System, r: RobotId, j: nat)
    requires Good(reg, s) && OthersSame(reg, s, t, r) && t.arbiter.Shaped(reg)
    requires j < |t.jobs| && t.jobs[j].robot != r && JobOk(reg, t.jobs[j])
    ensures Serviced(reg, t.arbiter, t.robots, t.jobs[j])
  {
    var q := t.jobs[j].robot;
    assert Serviced(reg, s.arbiter, s.robots, s.jobs[j]) && SameFor(reg, s.arbiter, t.arbiter, q);
    GoodShaped(reg, s);
    assert SafeNode(reg, t.robots, q) == SafeNode(reg, s.robots, q);
    hide Good, SameFor, Serviced, SafeNode, State.Shaped, JobOk;
    ServicedFrame(reg, s.arbiter, t.arbiter, s.robots, t.robots, t.jobs[j]);
  }

  // ----- The robot stays in its block --------------------------------------------------------------

  lemma StayingIngest(reg: Registry, s: System, rep: Report)
    requires s.arbiter.Shaped(reg) && BlockOf(s.robots, rep.robot).Some?
    requires SeenBlock(rep).None? || SeenBlock(rep) == BlockOf(s.robots, rep.robot)
    requires SeenBlock(rep).Some? || SeenBay(rep).None?
    ensures Ingest(reg, s, rep)
         == Response(s.(robots := s.robots[rep.robot := TelemetryAfter(s.robots, rep)]), Okay)
    ensures TelemetryAfter(s.robots, rep).block == BlockOf(s.robots, rep.robot)
    ensures TelemetryAfter(s.robots, rep).bay == None
  {
  }

  lemma StayingGood(reg: Registry, s: System, rep: Report)
    requires Good(reg, s) && Truthful(reg, s, rep) && BlockOf(s.robots, rep.robot).Some?
    requires SeenBlock(rep).Some? || SeenBay(rep).None?
    ensures var r := Ingest(reg, s, rep); r.verdict == Okay && Good(reg, r.system)
  {
    hide ArbiterInOrder, Ingest, Asks, Granted, RouteOk, Outside, State.Shaped, Crossed, TelemetryAfter;
    GoodShaped(reg, s);
    StayingIngest(reg, s, rep);
    var t := s.(robots := s.robots[rep.robot := TelemetryAfter(s.robots, rep)]);
    assert Inside(s.arbiter, rep.robot, BlockOf(s.robots, rep.robot).value);
    hide Inside, StandsIn;
    forall j | 0 <= j < |t.jobs| && t.jobs[j].robot == rep.robot
      ensures JobOk(reg, t.jobs[j]) && Serviced(reg, t.arbiter, t.robots, t.jobs[j])
    {
      assert JobOk(reg, s.jobs[j]) && Serviced(reg, s.arbiter, s.robots, s.jobs[j]);
    }
    hide OnePlace, JobOk, Serviced, Claims;
    OneRobotGood(reg, s, t, rep.robot);
  }

  // ----- The robot leaves its block ----------------------------------------------------------------

  /** The robot is seen in a bay: it stands there and nowhere else. */
  lemma OccupiedInOrder(reg: Registry, a: State, h: BayId, r: RobotId)
    requires ArbiterInOrder(reg, a) && DistinctEnds(reg) && h in reg.bays && h in a.bays
    requires forall k :: StandsIn(a, r, k) ==> k == h
    requires StandsIn(a, r, h) || |a.bays[h].Used()| < reg.bays[h].capacity
    ensures var e := OccupyBay(reg, a, h, r);
            && e.Ok() && ArbiterInOrder(reg, e.state)
            && (forall x :: Asks(e.state, x) <==> Asks(a, x))
            && e.state.grants == a.grants && e.state.blocks == a.blocks
            && (forall q, k :: StandsIn(e.state, q, k) <==> if q == r then k == h else StandsIn(a, q, k))
  {
    hide Tidy, AllSettled, BaysBacked, NoFault, GrantsHeld, QueuesDistinct, WithinCapacity, OneDirection, QueuesShaped,
      GrantsShaped, Registry.WellFormed, NobodyWaitsFor, Asks;
    assert OccupyBay(reg, a, h, r).Ok() by {
      SubsetSize(a.bays[h].occupants, a.bays[h].Used());
    }
    assert forall k :: k in a.bays && k != h ==> !StandsIn(a, r, k);
    OccupyIsStep(reg, a, h, r);
    RoutineKeepsOrder(reg, a, Occupied(h, r));
    OccupiedScene(reg, a, h, r);
  }

  lemma OccupyIsStep(reg: Registry, a: State, h: BayId, r: RobotId)
    requires a.Shaped(reg) && h in a.bays
    requires StandsIn(a, r, h) || |a.bays[h].Used()| < reg.bays[h].capacity
    requires forall k :: k in a.bays && k != h ==> !StandsIn(a, r, k)
    ensures Legal(reg, a, Occupied(h, r)) && WakeSafe(reg, a, Occupied(h, r)) && Routine(Occupied(h, r))
    ensures Step(reg, a, Occupied(h, r)) == OccupyBay(reg, a, h, r)
  {
  }

  lemma ExitIsLegal(reg: Registry, a: State, r: RobotId, b: BlockId)
    requires a.Shaped(reg)
    ensures Legal(reg, a, Exited(r, b)) && WakeSafe(reg, a, Exited(r, b))
  {
  }

  lemma ExitedInOrder(reg: Registry, a: State, r: RobotId, b: BlockId)
    requires ArbiterInOrder(reg, a) && DistinctEnds(reg) && b in reg.blocks
    ensures MarkExited(reg, a, r, b).reply == Done && ArbiterInOrder(reg, MarkExited(reg, a, r, b).state)
  {
    hide Tidy, AllSettled, BaysBacked, NoFault, GrantsHeld, QueuesDistinct, WithinCapacity, OneDirection, State.Shaped,
      Leave, ReconcileEach, ChecksPass, Step, WakeSafe, Legal;
    MovementSteps(reg, a, r, b);
    ShapedIsKeyed(reg, a);
    ExitIsLegal(reg, a, r, b);
    RoutineKeepsOrder(reg, a, Exited(r, b));
  }

  /** The arbiter after a robot has left its block into the bay reserved for it. */
  lemma LeavingArbiter(reg: Registry, a: State, r: RobotId, b: BlockId, h: BayId)
    requires ArbiterInOrder(reg, a) && DistinctEnds(reg) && h in reg.bays && b in reg.blocks
    requires GrantedTo(a, r, b, h) && forall k :: !StandsIn(a, r, k)
    ensures var e := MarkExited(reg, a, r, b);
            && e.reply == Done && e.state.Shaped(reg)
            && var f := OccupyBay(reg, e.state, h, r);
               && f.Ok() && ArbiterInOrder(reg, f.state)
               && (forall x :: Asks(f.state, x) <==> Asks(a, x) && x != a.grants[Key(r, b)])
               && (forall x :: Granted(a.grants, x) && x != a.grants[Key(r, b)] ==> Granted(f.state.grants, x))
               && (forall q, k :: Inside(f.state, q, k) <==> Inside(a, q, k) && !(q == r && k == b))
               && (forall q, k :: StandsIn(f.state, q, k) <==> if q == r then k == h else StandsIn(a, q, k))
  {
    hide Tidy, AllSettled, BaysBacked, NoFault, GrantsHeld, QueuesDistinct, WithinCapacity, OneDirection, State.Shaped,
      MarkExited, OccupyBay, Asks, Granted, StandsIn;
    ExitedInOrder(reg, a, r, b);
    ExitedScene(reg, a, r, b);
    var c := MarkExited(reg, a, r, b).state;
    assert StandsIn(c, r, h);
    StandingKnown(c, r, h);
    OccupiedInOrder(reg, c, h, r);
  }

  lemma StandingKnown(a: State, r: RobotId, h: BayId)
    requires StandsIn(a, r, h)
    ensures h in a.bays
  {
  }

  lemma LeavingIngest(reg: Registry, s: System, rep: Report, b: BlockId, h: BayId)
    requires s.arbiter.Shaped(reg) && BlockOf(s.robots, rep.robot) == Some(b)
    requires SeenBlock(rep).None? && SeenBay(rep) == Some(h)
    requires var e := MarkExited(reg, s.arbiter, rep.robot, b);
             e.reply == Done && e.state.Shaped(reg) && OccupyBay(reg, e.state, h, rep.robot).Ok()
    ensures var e := MarkExited(reg, s.arbiter, rep.robot, b);
            Ingest(reg, s, rep)
            == Response(s.(arbiter := OccupyBay(reg, e.state, h, rep.robot).state,
                           robots := s.robots[rep.robot := TelemetryAfter(s.robots, rep)]), Okay)
    ensures TelemetryAfter(s.robots, rep).block == None && TelemetryAfter(s.robots, rep).bay == Some(h)
  {
  }

  /** The job of a robot that has just left its block has made its crossing. */
  lemma LeftServiced(reg: Registry, s: System, t: System, j: nat, b: BlockId, h: BayId)
    requires Sound(reg) && Good(reg, s) && j < |s.jobs| && t.jobs == s.jobs && t.arbiter.Shaped(reg)
    requires GrantedTo(s.arbiter, s.jobs[j].robot, b, h) && Inside(s.arbiter, s.jobs[j].robot, b) && h in reg.bays
    requires forall x :: Asks(t.arbiter, x) <==> Asks(s.arbiter, x) && x != s.arbiter.grants[Key(s.jobs[j].robot, b)]
    requires forall k :: StandsIn(t.arbiter, s.jobs[j].robot, k) <==> k == h
    requires SafeNode(reg, t.robots, s.jobs[j].robot) == Some(reg.bays[h].node)
    ensures JobOk(reg, t.jobs[j]) && Serviced(reg, t.arbiter, t.robots, t.jobs[j])
  {
    var job := s.jobs[j];
    var gone := s.arbiter.grants[Key(job.robot, b)];
    assert JobOk(reg, job) && Serviced(reg, s.arbiter, s.robots, job);
    GoodShaped(reg, s);
    if job.Open() {
      GrantedKey(reg, s.arbiter, job.robot, b);
      OwnerIs(reg, s.jobs, s.arbiter, j, gone);
      InsideIsNotOutside(s.arbiter, job.robot, b);
      assert job.status.ACTIVE?;
      forall x: Reservation | x.robot == job.robot ensures !Asks(t.arbiter, x) {
        if Asks(t.arbiter, x) {
          OwnerIs(reg, s.jobs, s.arbiter, j, x);
          AskedOnce(reg, s.arbiter, gone, x);
        }
      }
      GrantedKey(reg, t.arbiter, job.robot, b);
      assert Silent(t.arbiter, job.robot) && !Admitted(t.arbiter, job) && Crossed(t.arbiter, job);
    }
  }

  lemma InsideIsNotOutside(a: State, r: RobotId, b: BlockId)
    requires Inside(a, r, b)
    ensures !Outside(a, r)
  {
  }

  /** A granted robot asks for its block only once. */
  lemma AskedOnce(reg: Registry, a: State, x: Reservation, y: Reservation)
    requires Core(reg, a) && Granted(a.grants, x) && Asks(a, y) && y.robot == x.robot && y.block == x.block
    ensures y == x
  {
  }

  lemma LeavingGood(reg: Registry, s: System, rep: Report)
    requires Sound(reg) && Good(reg, s) && Truthful(reg, s, rep) && BlockOf(s.robots, rep.robot).Some?
    requires SeenBlock(rep).None? && SeenBay(rep).Some?
    ensures var r := Ingest(reg, s, rep); r.verdict == Okay && Good(reg, r.system)
  {
    hide ArbiterInOrder, Ingest, Asks, Granted, RouteOk, Outside, State.Shaped, Crossed, TelemetryAfter, MarkExited,
      OccupyBay, JobsOk, Claims, OnePlace, Serviced;
    var r, b, h := rep.robot, BlockOf(s.robots, rep.robot).value, SeenBay(rep).value;
    GoodShaped(reg, s);
    assert Inside(s.arbiter, r, b) && forall k :: !StandsIn(s.arbiter, r, k);
    hide Inside, StandsIn;
    LeavingArbiter(reg, s.arbiter, r, b, h);
    LeavingIngest(reg, s, rep, b, h);
    var t := Ingest(reg, s, rep).system;
    InOrderShaped(reg, t.arbiter);
    forall j | 0 <= j < |t.jobs| && t.jobs[j].robot == r
      ensures JobOk(reg, t.jobs[j]) && Serviced(reg, t.arbiter, t.robots, t.jobs[j])
    {
      LeftServiced(reg, s, t, j, b, h);
    }
    LeftOthers(reg, s, t, r, b, h);
    OneRobotGood(reg, s, t, r);
  }

  lemma LeftOthers(reg: Registry, s: System, t: System, r: RobotId, b: BlockId, h: BayId)
    requires s.arbiter.Shaped(reg) && GrantedTo(s.arbiter, r, b, h)
    requires t.jobs == s.jobs && t.log == s.log
    requires forall q :: q != r ==> (q in t.robots <==> q in s.robots)
    requires forall q :: q != r && q in s.robots ==> t.robots[q] == s.robots[q]
    requires forall x :: Asks(t.arbiter, x) <==> Asks(s.arbiter, x) && x != s.arbiter.grants[Key(r, b)]
    requires forall x :: Granted(s.arbiter.grants, x) && x != s.arbiter.grants[Key(r, b)] ==> Granted(t.arbiter.grants, x)
    requires forall q, k :: Inside(t.arbiter, q, k) <==> Inside(s.arbiter, q, k) && !(q == r && k == b)
    requires forall q, k :: StandsIn(t.arbiter, q, k) <==> if q == r then k == h else StandsIn(s.arbiter, q, k)
    ensures OthersSame(reg, s, t, r)
  {
    GrantedKey(reg, s.arbiter, r, b);
    hide Asks, Granted, StandsIn, Inside, Outside;
    forall q | q != r ensures SameFor(reg, s.arbiter, t.arbiter, q) {
      SameInside(s.arbiter, t.arbiter, q);
    }
  }

  lemma TelemetryKnown(reg: Registry, s: System, rep: Report)
    requires s.Shaped(reg)
    requires (SeenBlock(rep).Some? ==> SeenBlock(rep).value in reg.blocks) && (SeenBay(rep).Some? ==> SeenBay(rep).value in reg.bays)
    ensures var now := TelemetryAfter(s.robots, rep);
            && (now.block.Some? ==> now.block.value in reg.blocks) && (now.bay.Some? ==> now.bay.value in reg.bays)
  {
  }

  // ----- The robot enters a block ------------------------------------------------------------------

  lemma EnteringArbiter(reg: Registry, a: State, r: RobotId, b: BlockId, source: BayId)
    requires ArbiterInOrder(reg, a) && DistinctEnds(reg) && Key(r, b) in a.grants && b in reg.blocks
    requires a.grants[Key(r, b)].source == Some(source) && source in reg.bays
    requires forall k :: StandsIn(a, r, k) ==> k == source
    ensures var e := SeenInside(reg, a, r, b);
            && e.Ok() && ArbiterInOrder(reg, e.state)
            && (forall x :: Asks(e.state, x) <==> Asks(a, x))
            && (forall x :: Granted(a.grants, x) ==> Granted(e.state.grants, x))
            && (forall q, k :: Inside(e.state, q, k) <==> Inside(a, q, k) || (q == r && k == b))
            && (forall q, h :: StandsIn(e.state, q, h) <==> StandsIn(a, q, h) && q != r)
  {
    assert source in a.bays;
    hide Tidy, AllSettled, BaysBacked, NoFault, GrantsHeld, QueuesDistinct, WithinCapacity, OneDirection, State.Shaped,
      MarkEntered, Asks, Granted, StandsIn, Inside, Legal, WakeSafe, Step, SeenInside;
    EnteredIsStep(reg, a, r, b, source);
    MovementSteps(reg, a, r, b);
    RoutineKeepsOrder(reg, a, Entered(r, b));
    EnteredScene(reg, a, r, b);
  }

  lemma EnteredIsStep(reg: Registry, a: State, r: RobotId, b: BlockId, source: BayId)
    requires a.Shaped(reg) && Key(r, b) in a.grants && b in reg.blocks
    requires a.grants[Key(r, b)].source == Some(source) && source in a.bays
    ensures Legal(reg, a, Entered(r, b)) && WakeSafe(reg, a, Entered(r, b))
    ensures MarkEntered(reg, a, r, b).reply == Done || MarkEntered(reg, a, r, b).reply == Raised(AssertionError)
    ensures SeenInside(reg, a, r, b) == MarkEntered(reg, a, r, b)
  {
  }

  lemma EnteringIngest(reg: Registry, s: System, rep: Report, b: BlockId)
    requires s.arbiter.Shaped(reg) && BlockOf(s.robots, rep.robot) == None && SeenBlock(rep) == Some(b)
    requires SeenInside(reg, s.arbiter, rep.robot, b).Ok()
    ensures Ingest(reg, s, rep)
         == Response(s.(arbiter := SeenInside(reg, s.arbiter, rep.robot, b).state,
                        robots := s.robots[rep.robot := TelemetryAfter(s.robots, rep)]), Okay)
    ensures TelemetryAfter(s.robots, rep).block == Some(b)
  {
  }

  /** The job of a robot that may enter: admitted, sent, and at the source. */
  lemma EnteringJob(reg: Registry, s: System, r: RobotId, b: BlockId) returns (j: nat)
    requires Sound(reg) && Good(reg, s) && Key(r, b) in s.arbiter.grants
    requires forall i :: 0 <= i < |s.jobs| && s.jobs[i].robot == r ==> !s.jobs[i].status.WAITING?
    ensures j < |s.jobs| && s.jobs[j].robot == r && s.jobs[j].status.ACTIVE? && JobOk(reg, s.jobs[j])
    ensures s.jobs[j].HasStep() && s.jobs[j].Current().block == b && Admitted(s.arbiter, s.jobs[j])
    ensures StepOk(reg, s.jobs[j].Current()) && s.arbiter.grants[Key(r, b)].source == s.jobs[j].Current().source
    ensures At(reg, s.arbiter, s.robots, r, s.jobs[j].Current().source.value)
  {
    GoodShaped(reg, s);
    GrantedKey(reg, s.arbiter, r, b);
    var x := s.arbiter.grants[Key(r, b)];
    j :| 0 <= j < |s.jobs| && Owns(s.jobs[j], x);
    assert JobOk(reg, s.jobs[j]) && Serviced(reg, s.arbiter, s.robots, s.jobs[j]);
    hide ArbiterInOrder, Claims, OnePlace, Tracked, SafeNode, StandsIn, State.Shaped, Asks;
  }

  lemma AdmittedStays(reg: Registry, a: State, c: State, job: Job)
    requires a.Shaped(reg) && c.Shaped(reg) && job.HasStep() && Admitted(a, job)
    requires forall x :: Granted(a.grants, x) ==> Granted(c.grants, x)
    ensures Admitted(c, job)
  {
    hide QueuesShaped, Registry.WellFormed, State.Keyed;
    GrantedKey(reg, a, job.robot, job.Current().block);
    GrantedKey(reg, c, job.robot, job.Current().block);
  }

  lemma AdmittedServiced(reg: Registry, a: State, robots: map<RobotId, Telemetry>, job: Job)
    requires JobOk(reg, job) && job.status.ACTIVE? && job.HasStep() && Admitted(a, job)
    requires At(reg, a, robots, job.robot, job.Current().source.value)
    ensures Serviced(reg, a, robots, job)
  {
  }

  lemma ClosedServiced(reg: Registry, a: State, robots: map<RobotId, Telemetry>, job: Job)
    requires JobOk(reg, job)
    ensures !job.Open() ==> Serviced(reg, a, robots, job)
  {
  }

  lemma EnteredServiced(reg: Registry, s: System, t: System, j: nat, i: nat)
    requires Good(reg, s) && j < |s.jobs| && i < |s.jobs| && t.jobs == s.jobs && t.arbiter.Shaped(reg)
    requires s.jobs[j].status.ACTIVE? && s.jobs[j].HasStep() && Admitted(s.arbiter, s.jobs[j])
    requires At(reg, s.arbiter, s.robots, s.jobs[j].robot, s.jobs[j].Current().source.value)
    requires s.jobs[i].robot == s.jobs[j].robot
    requires forall x :: Granted(s.arbiter.grants, x) ==> Granted(t.arbiter.grants, x)
    requires forall h :: !StandsIn(t.arbiter, s.jobs[j].robot, h)
    requires SafeNode(reg, t.robots, s.jobs[j].robot) == None
    ensures JobOk(reg, t.jobs[i]) && Serviced(reg, t.arbiter, t.robots, t.jobs[i])
  {
    hide ArbiterInOrder, Claims, OnePlace, Tracked, StandsIn, State.Shaped, Asks, SafeNode, Serviced, RouteOk, Granted;
    assert JobOk(reg, s.jobs[i]) && JobOk(reg, s.jobs[j]);
    GoodShaped(reg, s);
    var job := s.jobs[j];
    AdmittedStays(reg, s.arbiter, t.arbiter, job);
    if s.jobs[i].Open() {
      assert i == j;
      AdmittedServiced(reg, t.arbiter, t.robots, job);
    }
    ClosedServiced(reg, t.arbiter, t.robots, s.jobs[i]);
  }

  lemma EnteredOthers(reg: Registry, s: System, t: System, r: RobotId, b: BlockId)
    requires t.jobs == s.jobs && t.log == s.log
    requires forall q :: q != r ==> (q in t.robots <==> q in s.robots)
    requires forall q :: q != r && q in s.robots ==> t.robots[q] == s.robots[q]
    requires forall x :: Asks(t.arbiter, x) <==> Asks(s.arbiter, x)
    requires forall x :: Granted(s.arbiter.grants, x) ==> Granted(t.arbiter.grants, x)
    requires forall q, k :: Inside(t.arbiter, q, k) <==> Inside(s.arbiter, q, k) || (q == r && k == b)
    requires forall q, k :: StandsIn(t.arbiter, q, k) <==> StandsIn(s.arbiter, q, k) && q != r
    ensures OthersSame(reg, s, t, r)
  {
    hide Asks, Granted, StandsIn, Inside, Outside;
    forall q | q != r ensures SameFor(reg, s.arbiter, t.arbiter, q) {
      SameInside(s.arbiter, t.arbiter, q);
    }
  }

  lemma EnteringGood(reg: Registry, s: System, rep: Report)
    requires Sound(reg) && Good(reg, s) && Truthful(reg, s, rep)
    requires BlockOf(s.robots, rep.robot).None? && SeenBlock(rep).Some?
    ensures var r := Ingest(reg, s, rep); r.verdict == Okay && Good(reg, r.system)
  {
    hide ArbiterInOrder, Ingest, Asks, Granted, RouteOk, Outside, State.Shaped, Crossed, TelemetryAfter, SeenInside,
      JobsOk, Claims, OnePlace, Serviced;
    var r, b := rep.robot, SeenBlock(rep).value;
    GoodShaped(reg, s);
    TelemetryKnown(reg, s, rep);
    var j := EnteringJob(reg, s, r, b);
    assert forall k :: !Inside(s.arbiter, r, k);
    hide Inside, StandsIn;
    EnteringArbiter(reg, s.arbiter, r, b, s.jobs[j].Current().source.value);
    EnteringIngest(reg, s, rep, b);
    var t := Ingest(reg, s, rep).system;
    InOrderShaped(reg, t.arbiter);
    forall i | 0 <= i < |t.jobs| && t.jobs[i].robot == r
      ensures JobOk(reg, t.jobs[i]) && Serviced(reg, t.arbiter, t.robots, t.jobs[i])
    {
      EnteredServiced(reg, s, t, j, i);
    }
    EnteredOthers(reg, s, t, r, b);
    OneRobotGood(reg, s, t, r);
  }

  // ----- The robot is outside the blocks -------------------------------------------------------------

  lemma OutsideIngest(reg: Registry, s: System, rep: Report)
    requires s.arbiter.Shaped(reg) && BlockOf(s.robots, rep.robot) == None && SeenBlock(rep).None?
    requires SeenBay(rep).Some? ==> OccupyBay(reg, s.arbiter, SeenBay(rep).value, rep.robot).Ok()
    ensures var after := s.robots[rep.robot := TelemetryAfter(s.robots, rep)];
            Ingest(reg, s, rep)
            == if SeenBay(rep).Some?
               then Response(s.(arbiter := OccupyBay(reg, s.arbiter, SeenBay(rep).value, rep.robot).state, robots := after), Okay)
               else Response(s.(robots := after), Okay)
    ensures TelemetryAfter(s.robots, rep).block == None
    ensures SeenBay(rep).Some? ==> TelemetryAfter(s.robots, rep).bay == SeenBay(rep)
  {
  }

  lemma SeenAtHome(reg: Registry, s: System, t: System, j: nat)
    requires Sound(reg) && j < |s.jobs| && JobOk(reg, s.jobs[j]) && s.jobs[j].Open()
    requires At(reg, s.arbiter, s.robots, s.jobs[j].robot, Home(s.arbiter, s.jobs[j]))
    requires OnlySeenAt(reg, s, s.jobs[j].robot, SafeNode(reg, t.robots, s.jobs[j].robot))
    requires t.arbiter.grants == s.arbiter.grants
    requires forall h :: StandsIn(t.arbiter, s.jobs[j].robot, h) && !StandsIn(s.arbiter, s.jobs[j].robot, h) ==>
               h in reg.bays && SafeNode(reg, t.robots, s.jobs[j].robot) == Some(reg.bays[h].node)
    ensures Home(t.arbiter, s.jobs[j]) == Home(s.arbiter, s.jobs[j])
    ensures At(reg, t.arbiter, t.robots, s.jobs[j].robot, Home(s.arbiter, s.jobs[j]))
  {
  }

  /** The robot is known to be in bay `h`, or in none, and its node does not contradict it. */
  lemma SeenServiced(reg: Registry, s: System, t: System, j: nat)
    requires Sound(reg) && Good(reg, s) && j < |s.jobs| && t.jobs == s.jobs && t.arbiter.Shaped(reg)
    requires OnlySeenAt(reg, s, s.jobs[j].robot, SafeNode(reg, t.robots, s.jobs[j].robot))
    requires forall x :: Asks(t.arbiter, x) <==> Asks(s.arbiter, x)
    requires t.arbiter.grants == s.arbiter.grants && t.arbiter.blocks == s.arbiter.blocks
    requires forall h :: StandsIn(s.arbiter, s.jobs[j].robot, h) ==> StandsIn(t.arbiter, s.jobs[j].robot, h)
    requires forall h :: StandsIn(t.arbiter, s.jobs[j].robot, h) && !StandsIn(s.arbiter, s.jobs[j].robot, h) ==>
               h in reg.bays && SafeNode(reg, t.robots, s.jobs[j].robot) == Some(reg.bays[h].node)
    ensures JobOk(reg, t.jobs[j]) && Serviced(reg, t.arbiter, t.robots, t.jobs[j])
  {
    hide ArbiterInOrder, Claims, OnePlace, Tracked, StandsIn, State.Shaped, Asks, SafeNode, Granted;
    var job := s.jobs[j];
    assert JobOk(reg, job) && Serviced(reg, s.arbiter, s.robots, job);
    if job.Open() {
      SeenAtHome(reg, s, t, j);
      assert Outside(t.arbiter, job.robot) == Outside(s.arbiter, job.robot);
      if job.status.WAITING? {
        var x: Reservation :| x.robot == job.robot && Asks(s.arbiter, x);
        assert Asks(t.arbiter, x);
      }
    }
  }

  lemma SeenOthers(reg: Registry, s: System, t: System, r: RobotId)
    requires t.jobs == s.jobs && t.log == s.log
    requires forall q :: q != r ==> (q in t.robots <==> q in s.robots)
    requires forall q :: q != r && q in s.robots ==> t.robots[q] == s.robots[q]
    requires forall x :: Asks(t.arbiter, x) <==> Asks(s.arbiter, x)
    requires t.arbiter.grants == s.arbiter.grants && t.arbiter.blocks == s.arbiter.blocks
    requires forall q, k :: q != r ==> (StandsIn(t.arbiter, q, k) <==> StandsIn(s.arbiter, q, k))
    ensures OthersSame(reg, s, t, r)
  {
  }

  /** A sighting in a bay, or of nothing, by a robot outside the blocks. */
  lemma OutsideArbiter(reg: Registry, s: System, rep: Report)
    requires Sound(reg) && Good(reg, s) && Truthful(reg, s, rep)
    requires BlockOf(s.robots, rep.robot).None? && SeenBlock(rep).None? && SeenBay(rep).Some?
    ensures var h := SeenBay(rep).value;
            && h in s.arbiter.bays && (forall k :: StandsIn(s.arbiter, rep.robot, k) ==> k == h)
            && (StandsIn(s.arbiter, rep.robot, h) || |s.arbiter.bays[h].Used()| < reg.bays[h].capacity)
            && SafeNode(reg, s.robots[rep.robot := TelemetryAfter(s.robots, rep)], rep.robot) == Some(reg.bays[h].node)
  {
    var h := SeenBay(rep).value;
    GoodShaped(reg, s);
    hide Claims, OnePlace, Tracked, Asks, JobsOk, Serviced, Core, Tidy, AllSettled, BaysBacked, QueuesShaped, GrantsShaped;
    forall k | StandsIn(s.arbiter, rep.robot, k) ensures k == h {
      assert k in reg.bays;
    }
  }

  lemma OutsideGood(reg: Registry, s: System, rep: Report)
    requires Sound(reg) && Good(reg, s) && Truthful(reg, s, rep)
    requires BlockOf(s.robots, rep.robot).None? && SeenBlock(rep).None?
    ensures var r := Ingest(reg, s, rep); r.verdict == Okay && Good(reg, r.system)
  {
    hide ArbiterInOrder, Ingest, Asks, Granted, RouteOk, Outside, State.Shaped, Crossed, TelemetryAfter, OccupyBay,
      JobsOk, Claims, OnePlace, Serviced;
    var r := rep.robot;
    GoodShaped(reg, s);
    TelemetryKnown(reg, s, rep);
    if SeenBay(rep).Some? {
      OutsideArbiter(reg, s, rep);
      OccupiedInOrder(reg, s.arbiter, SeenBay(rep).value, r);
    }
    OutsideIngest(reg, s, rep);
    var t := Ingest(reg, s, rep).system;
    InOrderShaped(reg, t.arbiter);
    assert forall b :: Inside(t.arbiter, r, b) <==> Inside(s.arbiter, r, b);
    OutsidePlaces(reg, s, t, r);
    hide Inside, StandsIn;
    forall j | 0 <= j < |t.jobs| && t.jobs[j].robot == r
      ensures JobOk(reg, t.jobs[j]) && Serviced(reg, t.arbiter, t.robots, t.jobs[j])
    {
      SeenServiced(reg, s, t, j);
    }
    SeenOthers(reg, s, t, r);
    OneRobotGood(reg, s, t, r);
  }

  lemma OutsidePlaces(reg: Registry, s: System, t: System, r: RobotId)
    requires t.arbiter.Shaped(reg) && OnlySeenAt(reg, s, r, SafeNode(reg, t.robots, r)) && Sound(reg)
    requires OnePlace(reg, s.arbiter, s.robots)
    requires (forall h :: StandsIn(t.arbiter, r, h) <==> StandsIn(s.arbiter, r, h))
             || exists h :: h in reg.bays && SafeNode(reg, t.robots, r) == Some(reg.bays[h].node)
                            && forall k :: StandsIn(t.arbiter, r, k) <==> k == h
    ensures forall h :: StandsIn(t.arbiter, r, h) ==> At(reg, t.arbiter, t.robots, r, h)
  {
  }

  /** A truthful report keeps everything in order and never raises. */
  lemma ReportGood(reg: Registry, s: System, rep: Report)
    requires Sound(reg) && Good(reg, s) && s.arbiter.Keyed(reg) && Truthful(reg, s, rep)
    ensures s.arbiter.Shaped(reg)
    ensures var r := Ingest(reg, s, rep); r.verdict == Okay && Good(reg, r.system)
  {
    GoodShaped(reg, s);
    hide Good, Ingest, State.Shaped, Truthful, Sound;
    if BlockOf(s.robots, rep.robot).Some? {
      if SeenBlock(rep).None? && SeenBay(rep).Some? {
        LeavingGood(reg, s, rep);
      } else {
        StayingGood(reg, s, rep);
      }
    } else if SeenBlock(rep).Some? {
      EnteringGood(reg, s, rep);
    } else {
      OutsideGood(reg, s, rep);
    }
  }
}
