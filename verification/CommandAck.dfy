/** The command queue of one robot: one command at a time is sent, waited for and
    acknowledged. What the API answers, what the clock shows and what the robot reports
    are inputs; callbacks do not call back into the queue. Times are real numbers. */
module CommandAck {
  import opened Models

  // ----- Commands and what acknowledges them -----------------------------------------------

  datatype Kind = CancelOrder | CancelAction | SendOrder | SendAction | Pause | Generic {
    predicate IsCancel() {
      CancelOrder? || CancelAction?
    }
  }

  datatype ActionState = ActionState(action: int, finished: bool)

  datatype Snapshot = Snapshot(
    receivedAt: real, nodeStates: nat, edgeStates: nat, driving: bool,
    actions: seq<ActionState>, order: int, update: int)

  /** The conditions of the module; `NoOrder` and the like name what they wait for. */
  datatype Guard = NoOrder | NoAction(action: int) | HasOrder(order: int, update: int) | ActionDone(action: int)

  /** The first reported state of the action, if there is one. */
  function FirstOf(actions: seq<ActionState>, action: int): Option<ActionState> {
    if actions == [] then None
    else if actions[0].action == action then Some(actions[0])
    else FirstOf(actions[1..], action)
  }

  predicate Satisfied(guard: Guard, s: Snapshot, sentAt: real) {
    s.receivedAt >= sentAt
    && match guard
       case NoOrder => s.nodeStates == 0 && s.edgeStates == 0 && !s.driving
       case NoAction(action) => forall a | a in s.actions :: a.action != action
       case HasOrder(order, update) => s.order == order && s.update >= update
       case ActionDone(action) =>
         FirstOf(s.actions, action).Some? && FirstOf(s.actions, action).value.finished
  }

  /** The part of a command that does not change. */
  datatype Spec = Spec(
    event: int, kind: Kind, guard: Option<Guard>, retryInterval: real, ackTimeout: real, resend: bool,
    settles: bool, settleAfter: real, settleStates: nat, settleStopped: bool, blockAfter: real)

  datatype Command = Command(
    spec: Spec, sentAt: Option<real>, lastAttempt: real, attempts: nat, seen: set<real>, timedOut: bool)

  function NewCommand(spec: Spec): Command {
    Command(spec, None, 0.0, 0, {}, false)
  }

  datatype TopState = Available | TopBlocked | Faulted | Decommissioned

  datatype CommandState = Idle | SendingCancel | WaitCancelAck | SendingOrder | WaitOrderAck | SendingAction | WaitActionAck

  function SendingState(kind: Kind): CommandState {
    if kind.IsCancel() then SendingCancel else if kind == SendOrder then SendingOrder else SendingAction
  }

  function WaitingState(kind: Kind): CommandState {
    if kind.IsCancel() then WaitCancelAck
    else if kind == SendOrder then WaitOrderAck
    else if kind == SendAction then WaitActionAck
    else Idle
  }

  // ----- The machine ---------------------------------------------------------------------------

  datatype Result = Success | Retry | Impossible | Unexpected

  /** What one round of the loop meets: three clock readings and the answer to a send. */
  datatype Turn = Turn(now: real, sentAt: real, later: real, result: Result)

  /** What one call meets: the snapshot, if the API has one and offers it, and the
      availability it implies. */
  datatype Env = Env(force: bool, supported: bool, snapshot: Option<Snapshot>, top: TopState, turns: seq<Turn>)

  datatype Attempt = Attempt(spec: Spec, number: nat, at: real, forced: bool, sentAt: Option<real>)

  datatype Evidence = Unguarded | Unsupported | Guarded(state: Snapshot) | Settled(state: Snapshot, seen: set<real>, now: real)

  /** A command acknowledged, the time of the send it answers, why, and how many sends there
      had been by then. */
  datatype Ack = Ack(spec: Spec, sentAt: real, evidence: Evidence, sends: nat)

  /** The queue, with the history of its sends and acknowledgements. `since` counts the
      acknowledgements before the last cancellation of everything. */
  datatype Machine = Machine(
    queue: seq<Command>, active: Option<Command>, top: TopState, state: CommandState,
    acks: seq<Ack>, attempts: seq<Attempt>, since: nat)

  const MAX_STEPS := 8

  datatype Step = Continue(machine: Machine) | Stop(machine: Machine)

  function Acknowledge(m: Machine, c: Command, sentAt: real, evidence: Evidence): Machine {
    m.(active := None, state := Idle, acks := m.acks + [Ack(c.spec, sentAt, evidence, |m.attempts|)])
  }

  /** The oldest command becomes the active one. */
  function Activate(m: Machine): Machine {
    if m.active.Some? || m.queue == [] then m else m.(active := Some(m.queue[0]), queue := m.queue[1..])
  }

  predicate TooEarly(c: Command, force: bool, now: real) {
    c.lastAttempt > 0.0 && !force && now - c.lastAttempt < c.spec.retryInterval
  }

  /** An unsent command is sent, unless it was tried too recently. */
  function Send(m: Machine, c: Command, env: Env, t: Turn): Step {
    if TooEarly(c, env.force, t.now) then Stop(m)
    else
      var tried := c.(lastAttempt := t.now, attempts := c.attempts + 1);
      var sent := if t.result.Success? then Some(t.sentAt) else None;
      var n := m.(active := Some(tried), state := SendingState(c.spec.kind),
                  attempts := m.attempts + [Attempt(c.spec, c.attempts + 1, t.now, env.force, sent)]);
      match t.result
      case Impossible => Stop(n.(top := TopBlocked))
      case Retry => Stop(n)
      case Unexpected => Stop(n)
      case Success =>
        var done := tried.(sentAt := sent, seen := {}, timedOut := false);
        var w := n.(active := Some(done));
        if c.spec.guard.None? then Continue(Acknowledge(w, done, t.sentAt, Unguarded))
        else if !env.supported then Continue(Acknowledge(w, done, t.sentAt, Unsupported))
        else if env.snapshot.Some? && Satisfied(c.spec.guard.value, env.snapshot.value, t.sentAt)
        then Continue(Acknowledge(w, done, t.sentAt, Guarded(env.snapshot.value)))
        else Stop(w.(state := WaitingState(c.spec.kind)))
  }

  function RecordFresh(c: Command, s: Snapshot): Command {
    if c.sentAt.Some? && s.receivedAt >= c.sentAt.value then c.(seen := c.seen + {s.receivedAt}) else c
  }

  predicate MaySettle(c: Command) {
    c.spec.settles && c.spec.kind.IsCancel() && c.sentAt.Some?
  }

  /** Enough time has passed and enough seen reports have come in since the send. */
  predicate HasSettled(c: Command, s: Snapshot, now: real)
    requires c.sentAt.Some?
  {
    && now - c.sentAt.value >= c.spec.settleAfter
    && |c.seen| >= c.spec.settleStates
    && (c.spec.settleStopped ==> !s.driving)
  }

  predicate SettleFails(c: Command, now: real)
    requires c.sentAt.Some?
  {
    c.spec.blockAfter > 0.0 && now - c.sentAt.value >= c.spec.blockAfter
  }

  /** A command nobody has answered in time is due again, or just noted. */
  function Expire(m: Machine, c: Command, t: Turn): Machine
    requires c.sentAt.Some?
  {
    if !(c.spec.ackTimeout > 0.0 && t.later - c.sentAt.value >= c.spec.ackTimeout) then m
    else if c.spec.resend then m.(active := Some(c.(sentAt := None, timedOut := false)))
    else m.(active := Some(c.(timedOut := true)))
  }

  /** A sent command waits for its acknowledgement. */
  function Await(m: Machine, c: Command, env: Env, t: Turn): Step
    requires c.sentAt.Some?
  {
    var w := m.(state := WaitingState(c.spec.kind));
    var sentAt := c.sentAt.value;
    if !env.supported then Continue(Acknowledge(w, c, sentAt, Unsupported))
    else if env.snapshot.None? then Stop(Expire(w, c, t))
    else
      var s := env.snapshot.value;
      if c.spec.guard.Some? && Satisfied(c.spec.guard.value, s, sentAt) then
        Continue(Acknowledge(w, c, sentAt, Guarded(s)))
      else if !MaySettle(c) then Stop(Expire(w, c, t))
      else
        var d := RecordFresh(c, s);
        var x := w.(active := Some(d));
        if HasSettled(d, s, t.now) then Continue(Acknowledge(x, d, sentAt, Settled(s, d.seen, t.now)))
        else if SettleFails(d, t.now) then Stop(x.(top := TopBlocked))
        else Stop(Expire(x, d, t))
  }

  /** One round of the loop. */
  function Round(m: Machine, env: Env, t: Turn): Step {
    var a := Activate(m);
    if a.active.None? then Stop(m.(state := Idle))
    else if a.active.value.sentAt.None? then Send(a, a.active.value, env, t)
    else Await(a, a.active.value, env, t)
  }

  function Rounds(m: Machine, env: Env, k: nat): Machine
    requires k <= MAX_STEPS <= |env.turns|
    decreases MAX_STEPS - k
  {
    if k == MAX_STEPS then m
    else
      match Round(m, env, env.turns[k])
      case Stop(n) => n
      case Continue(n) => Rounds(n, env, k + 1)
  }

  /** Only cancellations may go out while the robot is faulty or in manual mode, and nothing
      while it is offline. */
  predicate Allowed(top: TopState, candidate: Option<Command>) {
    || top == Available
    || (candidate.Some? && candidate.value.spec.kind.IsCancel() && (top == Decommissioned || top == Faulted))
  }

  function Candidate(m: Machine): Option<Command> {
    if m.active.Some? then m.active else if m.queue == [] then None else Some(m.queue[0])
  }

  function Pumped(m: Machine, env: Env): Machine
    requires MAX_STEPS <= |env.turns|
  {
    var n := m.(top := env.top);
    if Allowed(n.top, Candidate(n)) then Rounds(n, env, 0) else n
  }

  function Enqueued(m: Machine, spec: Spec, env: Env): Machine
    requires MAX_STEPS <= |env.turns|
  {
    Pumped(m.(queue := m.queue + [NewCommand(spec)]), env)
  }

  function AllCancelled(m: Machine): Machine {
    m.(active := None, queue := [], state := Idle, since := |m.acks|)
  }

  function Empty(): Machine {
    Machine([], None, Available, Idle, [], [], 0)
  }

  // ----- First in, first out ---------------------------------------------------------------------

  function Specs(commands: seq<Command>): seq<Spec> {
    if commands == [] then [] else [commands[0].spec] + Specs(commands[1..])
  }

  function Acked(acks: seq<Ack>): seq<Spec> {
    if acks == [] then [] else Acked(acks[..|acks| - 1]) + [acks[|acks| - 1].spec]
  }

  function InHand(active: Option<Command>): seq<Spec> {
    if active.Some? then [active.value.spec] else []
  }

  /** Everything since the last cancellation: acknowledged, in hand, waiting. */
  function Line(m: Machine): seq<Spec>
    requires m.since <= |m.acks|
  {
    Acked(m.acks[m.since..]) + InHand(m.active) + Specs(m.queue)
  }

  lemma AckedSnoc(acks: seq<Ack>, a: Ack, since: nat)
    requires since <= |acks|
    ensures Acked((acks + [a])[since..]) == Acked(acks[since..]) + [a.spec]
  {
    var all := (acks + [a])[since..];
    assert all == acks[since..] + [a] && all[..|all| - 1] == acks[since..];
  }

  lemma SpecsSnoc(commands: seq<Command>, c: Command)
    ensures Specs(commands + [c]) == Specs(commands) + [c.spec]
  {
    if commands != [] {
      SpecsSnoc(commands[1..], c);
      assert (commands + [c])[1..] == commands[1..] + [c];
    }
  }

  /** The active command is still in hand, or has just been acknowledged. */
  ghost predicate Keeps(a: Machine, n: Machine) {
    && a.active.Some? && n.queue == a.queue && n.since == a.since
    && (if n.active.Some? then n.active.value.spec == a.active.value.spec && n.acks == a.acks
        else |n.acks| == |a.acks| + 1 && n.acks == a.acks + [n.acks[|a.acks|]] && n.acks[|a.acks|].spec == a.active.value.spec)
  }

  lemma SendKeeps(m: Machine, c: Command, env: Env, t: Turn)
    requires m.active == Some(c)
    ensures Keeps(m, Send(m, c, env, t).machine)
    ensures Send(m, c, env, t).Continue? <==> Send(m, c, env, t).machine.active.None?
  {
  }

  lemma AwaitKeeps(m: Machine, c: Command, env: Env, t: Turn)
    requires m.active == Some(c) && c.sentAt.Some?
    ensures Keeps(m, Await(m, c, env, t).machine)
    ensures Await(m, c, env, t).Continue? <==> Await(m, c, env, t).machine.active.None?
  {
  }

  lemma KeepsLine(a: Machine, n: Machine)
    requires Keeps(a, n) && a.since <= |a.acks|
    ensures n.since <= |n.acks| && Line(n) == Line(a)
  {
    if n.active.None? {
      AckedSnoc(a.acks, n.acks[|a.acks|], a.since);
    }
  }

  lemma ActivateKeepsLine(m: Machine)
    requires m.since <= |m.acks|
    ensures Activate(m).since == m.since && Activate(m).acks == m.acks && Line(Activate(m)) == Line(m)
    ensures Activate(m).active.None? ==> m.active.None? && m.queue == []
  {
  }

  /** A round keeps the line: commands move through it, none is lost, doubled or overtaken. */
  lemma RoundKeepsLine(m: Machine, env: Env, t: Turn)
    requires m.since <= |m.acks|
    ensures var n := Round(m, env, t).machine;
            n.since == m.since <= |n.acks| && m.acks <= n.acks && Line(n) == Line(m)
  {
    hide Line;
    var a := Activate(m);
    ActivateKeepsLine(m);
    if a.active.Some? {
      var c := a.active.value;
      if c.sentAt.None? {
        SendKeeps(a, c, env, t);
      } else {
        AwaitKeeps(a, c, env, t);
      }
      hide Send, Await;
      KeepsLine(a, Round(m, env, t).machine);
    } else {
      SameLine(m, m.(state := Idle));
    }
  }

  lemma SameLine(m: Machine, n: Machine)
    requires m.since <= |m.acks| && n.since == m.since && n.acks == m.acks && n.active == m.active && n.queue == m.queue
    ensures Line(n) == Line(m)
  {
  }

  lemma {:induction false} RoundsKeepLine(m: Machine, env: Env, k: nat)
    requires k <= MAX_STEPS <= |env.turns| && m.since <= |m.acks|
    ensures var n := Rounds(m, env, k);
            n.since == m.since <= |n.acks| && m.acks <= n.acks && Line(n) == Line(m)
    decreases MAX_STEPS - k
  {
    hide Round, Line;
    if k < MAX_STEPS {
      RoundKeepsLine(m, env, env.turns[k]);
      var step := Round(m, env, env.turns[k]);
      if step.Continue? {
        RoundsKeepLine(step.machine, env, k + 1);
      }
    }
  }

  lemma PumpKeepsLine(m: Machine, env: Env)
    requires MAX_STEPS <= |env.turns| && m.since <= |m.acks|
    ensures var n := Pumped(m, env); n.since == m.since <= |n.acks| && m.acks <= n.acks && Line(n) == Line(m)
  {
    hide Rounds, Line;
    var n := m.(top := env.top);
    SameLine(m, n);
    RoundsKeepLine(n, env, 0);
  }

  lemma EnqueueExtendsLine(m: Machine, spec: Spec, env: Env)
    requires MAX_STEPS <= |env.turns| && m.since <= |m.acks|
    ensures var n := Enqueued(m, spec, env);
            n.since == m.since <= |n.acks| && m.acks <= n.acks && Line(n) == Line(m) + [spec]
  {
    hide Pumped;
    SpecsSnoc(m.queue, NewCommand(spec));
    var q := m.(queue := m.queue + [NewCommand(spec)]);
    assert Line(q) == Line(m) + [spec];
    PumpKeepsLine(q, env);
  }

  // ----- What a report shows -----------------------------------------------------------------------

  /** The report, received at or after the send, shows what the command waits for: an empty robot at rest,
      the action gone, the order at least as new as asked for, or the action, by its first
      entry, finished. */
  ghost predicate Shows(s: Snapshot, guard: Guard, sentAt: real) {
    && s.receivedAt >= sentAt
    && (guard == NoOrder ==> s.nodeStates == 0 && s.edgeStates == 0 && !s.driving)
    && (guard.NoAction? ==> forall i :: 0 <= i < |s.actions| ==> s.actions[i].action != guard.action)
    && (guard.HasOrder? ==> s.order == guard.order && guard.update <= s.update)
    && (guard.ActionDone? ==>
        exists i :: 0 <= i < |s.actions| && s.actions[i] == ActionState(guard.action, true)
                    && forall k :: 0 <= k < i ==> s.actions[k].action != guard.action)
  }

  lemma {:induction false} FirstOfExactly(actions: seq<ActionState>, action: int)
    ensures match FirstOf(actions, action)
            case None => forall i :: 0 <= i < |actions| ==> actions[i].action != action
            case Some(a) =>
              && a.action == action
              && exists i :: 0 <= i < |actions| && actions[i] == a && forall k :: 0 <= k < i ==> actions[k].action != action
  {
    if actions != [] {
      var rest := actions[1..];
      FirstOfExactly(rest, action);
      assert forall i :: 0 < i < |actions| ==> actions[i] == rest[i - 1];
      if actions[0].action == action {
        assert actions[0] == FirstOf(actions, action).value;
      } else if FirstOf(rest, action).Some? {
        var a := FirstOf(rest, action).value;
        var i :| 0 <= i < |rest| && rest[i] == a && forall k :: 0 <= k < i ==> rest[k].action != action;
        assert actions[i + 1] == a;
      }
    }
  }

  /** A condition is satisfied exactly by the reports that show what it waits for. */
  lemma ShowsExactly(s: Snapshot, guard: Guard, sentAt: real)
    ensures Satisfied(guard, s, sentAt) <==> Shows(s, guard, sentAt)
  {
    match guard
    case ActionDone(action) =>
      FirstOfExactly(s.actions, action);
      if Shows(s, guard, sentAt) {
        var i :| 0 <= i < |s.actions| && s.actions[i] == ActionState(action, true)
                 && forall k :: 0 <= k < i ==> s.actions[k].action != action;
        assert s.actions[i].action == action;
      }
    case _ =>
  }

  // ----- Evidence and spacing --------------------------------------------------------------------

  /** Why the command was acknowledged, and that it was its latest send that was answered. */
  ghost predicate Justified(a: Ack, attempts: seq<Attempt>) {
    && 0 < a.sends <= |attempts|
    && attempts[a.sends - 1].spec == a.spec && attempts[a.sends - 1].sentAt == Some(a.sentAt)
    && match a.evidence
       case Unguarded => a.spec.guard.None?
       case Unsupported => true
       case Guarded(s) => a.spec.guard.Some? && Satisfied(a.spec.guard.value, s, a.sentAt)
       case Settled(s, seen, now) =>
         && a.spec.settles && a.spec.kind.IsCancel()
         && now - a.sentAt >= a.spec.settleAfter
         && |seen| >= a.spec.settleStates && (forall x :: x in seen ==> x >= a.sentAt)
         && (a.spec.settleStopped ==> !s.driving)
  }

  /** Attempts are numbered from 1 for each command, follow each other directly, and keep
      the retry interval unless forced, or unless the clock had shown no positive time. */
  ghost predicate Spaced(attempts: seq<Attempt>) {
    forall i :: 0 <= i < |attempts| && attempts[i].number > 1 ==> i > 0 && Follows(attempts[i - 1], attempts[i])
  }

  predicate Follows(before: Attempt, after: Attempt) {
    && before.spec == after.spec && before.number == after.number - 1
    && (after.forced || before.at <= 0.0 || after.at - before.at >= after.spec.retryInterval)
  }

  /** The active command remembers its latest attempt. */
  ghost predicate Linked(c: Command, attempts: seq<Attempt>) {
    && (c.attempts == 0 ==> c == NewCommand(c.spec))
    && (c.attempts > 0 ==>
        && attempts != []
        && var last := attempts[|attempts| - 1];
           && last.spec == c.spec && last.number == c.attempts && last.at == c.lastAttempt
           && (c.sentAt.Some? ==> last.sentAt == c.sentAt && forall x :: x in c.seen ==> x >= c.sentAt.value))
  }

  ghost predicate Consistent(m: Machine) {
    && m.since <= |m.acks|
    && (forall c :: c in m.queue ==> c == NewCommand(c.spec))
    && (m.active.Some? ==> Linked(m.active.value, m.attempts))
    && (forall a :: a in m.acks ==> Justified(a, m.attempts))
    && Spaced(m.attempts)
  }

  lemma ActivateConsistent(m: Machine)
    requires Consistent(m)
    ensures Consistent(Activate(m))
  {
  }

  /** One more attempt on record. */
  lemma AttemptRecorded(m: Machine, c: Command, x: Attempt)
    requires Consistent(m) && m.active == Some(c) && c.sentAt.None?
    requires x.spec == c.spec && x.number == c.attempts + 1 && !TooEarly(c, x.forced, x.at)
    ensures Spaced(m.attempts + [x]) && forall a :: a in m.acks ==> Justified(a, m.attempts + [x])
  {
  }

  /** The history is fine, and so will it be whatever happens to the active command. */
  ghost predicate Ledger(m: Machine, attempts: seq<Attempt>) {
    && m.since <= |m.acks| && (forall c :: c in m.queue ==> c == NewCommand(c.spec))
    && (forall a :: a in m.acks ==> Justified(a, attempts)) && Spaced(attempts)
  }

  lemma StillActive(m: Machine, n: Machine, c: Command)
    requires Ledger(m, n.attempts) && n.queue == m.queue && n.acks == m.acks && n.since == m.since
    requires n.active == Some(c) && Linked(c, n.attempts)
    ensures Consistent(n) && forall env :: Answered(m, n, env)
  {
  }

  lemma NowAcked(m: Machine, w: Machine, c: Command, sentAt: real, evidence: Evidence, env: Env)
    requires Ledger(m, w.attempts) && w.queue == m.queue && w.acks == m.acks && w.since == m.since
    requires Justified(Ack(c.spec, sentAt, evidence, |w.attempts|), w.attempts)
    requires env.supported ==>
               evidence.Unguarded? || ((evidence.Guarded? || evidence.Settled?) && env.snapshot == Some(evidence.state))
    ensures Consistent(Acknowledge(w, c, sentAt, evidence)) && Answered(m, Acknowledge(w, c, sentAt, evidence), env)
  {
  }

  lemma SendConsistent(m: Machine, c: Command, env: Env, t: Turn)
    requires Consistent(m) && m.active == Some(c) && c.sentAt.None?
    ensures Consistent(Send(m, c, env, t).machine)
    ensures Answered(m, Send(m, c, env, t).machine, env)
  {
    hide Satisfied, Spaced, Justified, Linked;
    if TooEarly(c, env.force, t.now) {
      StillActive(m, m, c);
    } else {
      var sent := if t.result.Success? then Some(t.sentAt) else None;
      var x := Attempt(c.spec, c.attempts + 1, t.now, env.force, sent);
      AttemptRecorded(m, c, x);
      hide TooEarly;
      var tried := c.(lastAttempt := t.now, attempts := c.attempts + 1);
      LinkedTo(tried, m.attempts, x);
      var n := m.(active := Some(tried), state := SendingState(c.spec.kind), attempts := m.attempts + [x]);
      StillActive(m, n, tried);
      StillActive(m, n.(top := TopBlocked), tried);
      if t.result.Success? {
        var done := tried.(sentAt := sent, seen := {}, timedOut := false);
        LinkedTo(done, m.attempts, x);
        SentAnswered(m, n.(active := Some(done)), done, env, x, t.sentAt);
      }
    }
  }

  lemma LinkedTo(c: Command, attempts: seq<Attempt>, x: Attempt)
    requires c.attempts > 0 && x.spec == c.spec && x.number == c.attempts && x.at == c.lastAttempt
    requires c.sentAt.Some? ==> x.sentAt == c.sentAt && c.seen == {}
    ensures Linked(c, attempts + [x])
  {
  }

  /** A command that has just been sent. */
  lemma SentAnswered(m: Machine, w: Machine, c: Command, env: Env, x: Attempt, sentAt: real)
    requires Ledger(m, w.attempts) && w.queue == m.queue && w.acks == m.acks && w.since == m.since
    requires w.active == Some(c) && Linked(c, w.attempts) && w.attempts != [] && w.attempts[|w.attempts| - 1] == x
    requires x.spec == c.spec && x.sentAt == Some(sentAt)
    ensures c.spec.guard.None? ==>
              var n := Acknowledge(w, c, sentAt, Unguarded); Consistent(n) && Answered(m, n, env)
    ensures !env.supported ==>
              var n := Acknowledge(w, c, sentAt, Unsupported); Consistent(n) && Answered(m, n, env)
    ensures c.spec.guard.Some? && env.snapshot.Some? && Satisfied(c.spec.guard.value, env.snapshot.value, sentAt) ==>
              var n := Acknowledge(w, c, sentAt, Guarded(env.snapshot.value)); Consistent(n) && Answered(m, n, env)
    ensures forall state :: Consistent(w.(state := state)) && Answered(m, w.(state := state), env)
  {
  }

  /** Waiting on: the command may note a timeout or be due again. */
  lemma ExpireConsistent(m: Machine, w: Machine, c: Command, env: Env, t: Turn)
    requires Ledger(m, w.attempts) && w.queue == m.queue && w.acks == m.acks && w.since == m.since
    requires w.active == Some(c) && Linked(c, w.attempts) && c.sentAt.Some?
    ensures Consistent(Expire(w, c, t)) && Answered(m, Expire(w, c, t), env)
  {
  }

  lemma FreshLinked(c: Command, s: Snapshot, attempts: seq<Attempt>)
    requires Linked(c, attempts) && c.sentAt.Some?
    ensures Linked(RecordFresh(c, s), attempts) && RecordFresh(c, s).sentAt == c.sentAt && RecordFresh(c, s).spec == c.spec
    ensures forall x :: x in RecordFresh(c, s).seen ==> x >= c.sentAt.value
    ensures attempts != [] && attempts[|attempts| - 1].spec == c.spec && attempts[|attempts| - 1].sentAt == c.sentAt
  {
  }

  lemma AwaitConsistent(m: Machine, c: Command, env: Env, t: Turn)
    requires Consistent(m) && m.active == Some(c) && c.sentAt.Some?
    ensures Consistent(Await(m, c, env, t).machine)
    ensures Answered(m, Await(m, c, env, t).machine, env)
  {
    hide Satisfied, Spaced, Linked, Answered;
    var w := m.(state := WaitingState(c.spec.kind));
    var sentAt := c.sentAt.value;
    var s := if env.snapshot.Some? then env.snapshot.value else Snapshot(0.0, 0, 0, false, [], 0, 0);
    FreshLinked(c, s, m.attempts);
    var d := RecordFresh(c, s);
    var x := w.(active := Some(d));
    assert Ledger(m, m.attempts);
    hide Consistent, Ledger, RecordFresh, Expire;
    SentAnswered(m, w, c, env, m.attempts[|m.attempts| - 1], sentAt);
    ExpireConsistent(m, w, c, env, t);
    ExpireConsistent(m, x, d, env, t);
    StillActive(m, x.(top := TopBlocked), d);
    if env.snapshot.Some? && MaySettle(c) && HasSettled(d, s, t.now) {
      NowAcked(m, x, d, sentAt, Settled(s, d.seen, t.now), env);
    }
  }

  /** If the API reports command states, whatever was newly acknowledged is a command
      without a condition, or one whose condition this very snapshot meets, or a
      cancellation that has settled. */
  ghost predicate Answered(m: Machine, n: Machine, env: Env) {
    forall a :: a in n.acks && a !in m.acks && env.supported ==>
      match a.evidence
      case Unguarded => true
      case Unsupported => false
      case Guarded(s) => env.snapshot == Some(s)
      case Settled(s, _, _) => env.snapshot == Some(s)
  }

  lemma RoundConsistent(m: Machine, env: Env, t: Turn)
    requires Consistent(m)
    ensures Consistent(Round(m, env, t).machine) && Answered(m, Round(m, env, t).machine, env)
  {
    hide Justified, Linked, Spaced, Send, Await;
    ActivateConsistent(m);
    var a := Activate(m);
    if a.active.Some? {
      var c := a.active.value;
      if c.sentAt.None? {
        SendConsistent(a, c, env, t);
      } else {
        AwaitConsistent(a, c, env, t);
      }
    }
  }

  lemma {:induction false} RoundsConsistent(m: Machine, env: Env, k: nat)
    requires k <= MAX_STEPS <= |env.turns| && Consistent(m)
    ensures Consistent(Rounds(m, env, k)) && Answered(m, Rounds(m, env, k), env)
    decreases MAX_STEPS - k
  {
    hide Round, Consistent;
    if k < MAX_STEPS {
      RoundConsistent(m, env, env.turns[k]);
      var step := Round(m, env, env.turns[k]);
      if step.Continue? {
        RoundsConsistent(step.machine, env, k + 1);
      }
    }
  }

  lemma PumpConsistent(m: Machine, env: Env)
    requires MAX_STEPS <= |env.turns| && Consistent(m)
    ensures Consistent(Pumped(m, env)) && Answered(m, Pumped(m, env), env)
  {
    hide Rounds, Justified, Linked, Spaced;
    RoundsConsistent(m.(top := env.top), env, 0);
  }

  // ----- Over whole runs ----------------------------------------------------------------------------

  datatype Call = Enqueue(spec: Spec, env: Env) | Pump(env: Env) | CancelPending

  predicate Served(c: Call) {
    !c.CancelPending? ==> MAX_STEPS <= |c.env.turns|
  }

  function After(m: Machine, c: Call): Machine
    requires Served(c)
  {
    match c
    case Enqueue(spec, env) => Enqueued(m, spec, env)
    case Pump(env) => Pumped(m, env)
    case CancelPending => AllCancelled(m)
  }

  ghost predicate AllServed(calls: seq<Call>) {
    forall i :: 0 <= i < |calls| ==> Served(calls[i])
  }

  ghost function Ran(calls: seq<Call>): Machine
    requires AllServed(calls)
  {
    if calls == [] then Empty() else After(Ran(calls[..|calls| - 1]), calls[|calls| - 1])
  }

  /** The commands enqueued since everything was last cancelled. */
  function Wanted(calls: seq<Call>): seq<Spec> {
    if calls == [] then []
    else
      match calls[|calls| - 1]
      case Enqueue(spec, env) => Wanted(calls[..|calls| - 1]) + [spec]
      case Pump(env) => Wanted(calls[..|calls| - 1])
      case CancelPending => []
  }

  /** The queue over any run of calls: what was enqueued since the last cancellation is what
      has been acknowledged, is in hand, or still waits, in that order; and every
      acknowledgement has its evidence and every retry its distance. */
  lemma {:induction false} QueueKeepsItsPromise(calls: seq<Call>)
    requires AllServed(calls)
    ensures Consistent(Ran(calls)) && Line(Ran(calls)) == Wanted(calls)
    decreases |calls|
  {
    if calls != [] {
      var before := calls[..|calls| - 1];
      QueueKeepsItsPromise(before);
      hide Enqueued, Pumped, Justified, Linked, Spaced;
      var m := Ran(before);
      match calls[|calls| - 1]
      case Enqueue(spec, env) =>
        EnqueueExtendsLine(m, spec, env);
        EnqueueConsistent(m, spec, env);
      case Pump(env) =>
        PumpKeepsLine(m, env);
        PumpConsistent(m, env);
      case CancelPending => CancelStartsOver(m);
    }
  }

  lemma EnqueueConsistent(m: Machine, spec: Spec, env: Env)
    requires MAX_STEPS <= |env.turns| && Consistent(m)
    ensures Consistent(Enqueued(m, spec, env)) && Answered(m, Enqueued(m, spec, env), env)
  {
    hide Pumped, Justified, Linked, Spaced;
    var q := m.(queue := m.queue + [NewCommand(spec)]);
    assert Consistent(q);
    PumpConsistent(q, env);
  }

  /** Cancelling everything forgets the commands and nothing else. */
  lemma CancelStartsOver(m: Machine)
    requires Consistent(m)
    ensures Consistent(AllCancelled(m)) && Line(AllCancelled(m)) == []
    ensures var n := AllCancelled(m);
            && n.active == None && n.queue == [] && n.state == Idle
            && n.acks == m.acks && n.attempts == m.attempts && n.top == m.top
  {
  }

  /** As long as the API reports command states, no condition is ever waived: a command that
      has one is acknowledged on a report received at or after its latest send that meets
      the condition, or, being a cancellation, after it has settled. */
  lemma {:induction false} ConditionsAreMet(calls: seq<Call>)
    requires AllServed(calls) && forall c :: c in calls && !c.CancelPending? ==> c.env.supported
    ensures forall a :: a in Ran(calls).acks && a.spec.guard.Some? ==>
              || (a.evidence.Guarded? && Shows(a.evidence.state, a.spec.guard.value, a.sentAt))
              || (a.evidence.Settled? && a.spec.settles && a.spec.kind.IsCancel()
                  && a.evidence.now - a.sentAt >= a.spec.settleAfter
                  && |a.evidence.seen| >= a.spec.settleStates && (forall x :: x in a.evidence.seen ==> x >= a.sentAt)
                  && (a.spec.settleStopped ==> !a.evidence.state.driving))
  {
    QueueKeepsItsPromise(calls);
    NothingWaived(calls);
    hide Ran, Spaced, Linked, Line, Shows, Satisfied;
    forall a | a in Ran(calls).acks ensures Justified(a, Ran(calls).attempts) && !a.evidence.Unsupported? {
    }
    forall a | a in Ran(calls).acks && a.spec.guard.Some? && a.evidence.Guarded?
      ensures Shows(a.evidence.state, a.spec.guard.value, a.sentAt)
    {
      ShowsExactly(a.evidence.state, a.spec.guard.value, a.sentAt);
    }
  }

  lemma {:induction false} NothingWaived(calls: seq<Call>)
    requires AllServed(calls) && forall c :: c in calls && !c.CancelPending? ==> c.env.supported
    ensures forall a :: a in Ran(calls).acks ==> !a.evidence.Unsupported?
    decreases |calls|
  {
    hide Enqueued, Pumped, Consistent, Line;
    if calls != [] {
      var before := calls[..|calls| - 1];
      var last := calls[|calls| - 1];
      NothingWaived(before);
      QueueKeepsItsPromise(before);
      assert last in calls;
      match last
      case Enqueue(spec, env) => EnqueueConsistent(Ran(before), spec, env);
      case Pump(env) => PumpConsistent(Ran(before), env);
      case CancelPending =>
    }
  }

  // ----- The queue as an object ----------------------------------------------------------------------

  class CommandAckHsm {
    var queue: seq<Command>
    var active: Option<Command>
    var top: TopState
    var state: CommandState
    ghost var acks: seq<Ack>
    ghost var attempts: seq<Attempt>
    ghost var since: nat

    ghost function View(): Machine
      reads this
    {
      Machine(queue, active, top, state, acks, attempts, since)
    }

    constructor ()
      ensures View() == Empty()
    {
      queue, active, top, state := [], None, Available, Idle;
      acks, attempts, since := [], [], 0;
    }

    method EnqueueCommand(spec: Spec, env: Env)
      requires MAX_STEPS <= |env.turns|
      modifies this
      ensures View() == Enqueued(old(View()), spec, env)
    {
      hide Pumped;
      queue := queue + [NewCommand(spec)];
      PumpQueue(env);
    }

    method PumpQueue(env: Env)
      requires MAX_STEPS <= |env.turns|
      modifies this
      ensures View() == Pumped(old(View()), env)
    {
      hide Round;
      top := env.top;
      var candidate := if active.Some? then active else if queue == [] then None else Some(queue[0]);
      if !Allowed(top, candidate) {
        return;
      }
      ghost var goal := Rounds(View(), env, 0);
      var steps := 0;
      while steps < MAX_STEPS
        invariant 0 <= steps <= MAX_STEPS && Rounds(View(), env, steps) == goal
      {
        steps := steps + 1;
        var more := PumpRound(env, env.turns[steps - 1]);
        if !more {
          return;
        }
      }
    }

    method PumpRound(env: Env, t: Turn) returns (more: bool)
      modifies this
      ensures (if more then Continue(View()) else Stop(View())) == Round(old(View()), env, t)
    {
      hide Send, Await;
      if active.None? {
        if queue == [] {
          state := Idle;
          return false;
        }
        active, queue := Some(queue[0]), queue[1..];
      }
      if active.value.sentAt.None? {
        more := SendActive(env, t);
      } else {
        more := AwaitActive(env, t);
      }
    }

    method AcknowledgeActive(sentAt: real, ghost evidence: Evidence)
      requires active.Some?
      modifies `active, `state, `acks
      ensures View() == Acknowledge(old(View()), old(active).value, sentAt, evidence)
    {
      acks := acks + [Ack(active.value.spec, sentAt, evidence, |attempts|)];
      active, state := None, Idle;
    }

    method SendActive(env: Env, t: Turn) returns (more: bool)
      requires active.Some? && active.value.sentAt.None?
      modifies this
      ensures (if more then Continue(View()) else Stop(View())) == Send(old(View()), old(active).value, env, t)
    {
      hide Satisfied, Acknowledge;
      var c := active.value;
      if TooEarly(c, env.force, t.now) {
        return false;
      }
      state := SendingState(c.spec.kind);
      active := Some(c.(lastAttempt := t.now, attempts := c.attempts + 1));
      attempts := attempts
        + [Attempt(c.spec, c.attempts + 1, t.now, env.force, if t.result.Success? then Some(t.sentAt) else None)];
      if t.result.Impossible? {
        top := TopBlocked;
        return false;
      }
      if !t.result.Success? {
        return false;
      }
      active := Some(active.value.(sentAt := Some(t.sentAt), seen := {}, timedOut := false));
      if c.spec.guard.None? {
        AcknowledgeActive(t.sentAt, Unguarded);
        return true;
      }
      if !env.supported {
        AcknowledgeActive(t.sentAt, Unsupported);
        return true;
      }
      if env.snapshot.Some? && Satisfied(c.spec.guard.value, env.snapshot.value, t.sentAt) {
        AcknowledgeActive(t.sentAt, Guarded(env.snapshot.value));
        return true;
      }
      state := WaitingState(c.spec.kind);
      return false;
    }

    method AwaitActive(env: Env, t: Turn) returns (more: bool)
      requires active.Some? && active.value.sentAt.Some?
      modifies this
      ensures (if more then Continue(View()) else Stop(View())) == Await(old(View()), old(active).value, env, t)
    {
      hide Satisfied, Acknowledge, HasSettled, SettleFails, MaySettle;
      var c := active.value;
      state := WaitingState(c.spec.kind);
      if !env.supported {
        AcknowledgeActive(c.sentAt.value, Unsupported);
        return true;
      }
      if env.snapshot.Some? {
        var s := env.snapshot.value;
        if c.spec.guard.Some? && Satisfied(c.spec.guard.value, s, c.sentAt.value) {
          AcknowledgeActive(c.sentAt.value, Guarded(s));
          return true;
        }
        if MaySettle(c) {
          active := Some(RecordFresh(c, s));
          if HasSettled(active.value, s, t.now) {
            AcknowledgeActive(c.sentAt.value, Settled(s, active.value.seen, t.now));
            return true;
          }
          if SettleFails(active.value, t.now) {
            top := TopBlocked;
            return false;
          }
        }
      }
      NoteTimeout(t);
      return false;
    }

    method NoteTimeout(t: Turn)
      requires active.Some? && active.value.sentAt.Some?
      modifies `active
      ensures View() == Expire(old(View()), old(active).value, t)
    {
      var c := active.value;
      if c.spec.ackTimeout > 0.0 && t.later - c.sentAt.value >= c.spec.ackTimeout {
        if c.spec.resend {
          active := Some(c.(sentAt := None, timedOut := false));
        } else {
          active := Some(c.(timedOut := true));
        }
      }
    }

    method CancelPendingCommands()
      modifies this
      ensures View() == AllCancelled(old(View()))
    {
      active, queue, state := None, [], Idle;
      since := |acks|;
    }
  }
}
