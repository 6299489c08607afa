/** What one pump of the command queue comes to for the command at its head: when it is sent,
    what acknowledges it, when it is due again, and when the robot counts as blocked. */
module CommandProgress {
  import opened Models
  import opened CommandAck

  // ----- Who may act -------------------------------------------------------------------------

  /** The command at the head: the active one, or the oldest in the queue. */
  ghost predicate AtHead(m: Machine, c: Command) {
    m.active == Some(c) || (m.active == None && m.queue != [] && m.queue[0] == c)
  }

  ghost predicate IsCancellation(spec: Spec) {
    spec.kind in {CancelOrder, CancelAction}
  }

  /** A robot that is available may be sent anything, one that is faulty or in manual mode a cancellation, and
      a blocked one nothing. */
  ghost predicate MayAct(top: TopState, spec: Spec) {
    top == Available || (top != TopBlocked && IsCancellation(spec))
  }

  /** The queue behind the command at the head. */
  ghost function Behind(m: Machine): seq<Command>
    requires m.active.Some? || m.queue != []
  {
    if m.active.Some? then m.queue else m.queue[1..]
  }

  /** The command is acknowledged before anything else happens in the pump, and then the next ones may follow. */
  ghost predicate AckedFirst(m: Machine, n: Machine, ack: Ack) {
    m.acks + [ack] <= n.acks
  }

  /** The command is still at hand, as `c`, and nothing was acknowledged. */
  ghost predicate Holds(m: Machine, n: Machine, c: Command, top: TopState)
    requires m.active.Some? || m.queue != []
  {
    n.acks == m.acks && n.active == Some(c) && n.queue == Behind(m) && n.top == top && n.since == m.since
  }

  // ----- A command that has not been sent ---------------------------------------------------------

  /** It was tried less than the retry interval ago, and the pump is not forced. */
  ghost predicate TooSoon(c: Command, force: bool, now: real) {
    0.0 < c.lastAttempt && now < c.lastAttempt + c.spec.retryInterval && !force
  }

  /** What the pump should do with an unsent command at the head. */
  ghost predicate SendRight(m: Machine, n: Machine, c: Command, env: Env, t: Turn)
    requires m.active.Some? || m.queue != []
  {
    if TooSoon(c, env.force, t.now) then Holds(m, n, c, env.top) && n.attempts == m.attempts
    else
      var sent := if t.result == Success then Some(t.sentAt) else None;
      var tried := c.(lastAttempt := t.now, attempts := c.attempts + 1);
      && m.attempts + [Attempt(c.spec, c.attempts + 1, t.now, env.force, sent)] <= n.attempts
      && match t.result
         case Impossible => Holds(m, n, tried, TopBlocked)
         case Retry => Holds(m, n, tried, env.top)
         case Unexpected => Holds(m, n, tried, env.top)
         case Success =>
           if c.spec.guard == None then AckedFirst(m, n, Ack(c.spec, t.sentAt, Unguarded, |m.attempts| + 1))
           else if !env.supported then AckedFirst(m, n, Ack(c.spec, t.sentAt, Unsupported, |m.attempts| + 1))
           else if env.snapshot.Some? && Shows(env.snapshot.value, c.spec.guard.value, t.sentAt)
           then AckedFirst(m, n, Ack(c.spec, t.sentAt, Guarded(env.snapshot.value), |m.attempts| + 1))
           else Holds(m, n, tried.(sentAt := sent, seen := {}, timedOut := false), env.top)
  }

  // ----- A command that waits for its acknowledgement ---------------------------------------------

  /** A cancellation that may be taken for granted after a while. */
  ghost predicate Settles(spec: Spec) {
    spec.settles && IsCancellation(spec)
  }

  /** The reports seen since the send, with this one. */
  ghost function SeenNow(c: Command, s: Snapshot, sentAt: real): set<real> {
    if Settles(c.spec) && sentAt <= s.receivedAt then c.seen + {s.receivedAt} else c.seen
  }

  ghost predicate SettledNow(c: Command, s: Snapshot, sentAt: real, now: real) {
    && Settles(c.spec) && sentAt + c.spec.settleAfter <= now && c.spec.settleStates <= |SeenNow(c, s, sentAt)|
    && !(c.spec.settleStopped && s.driving)
  }

  ghost predicate GivenUp(c: Command, sentAt: real, now: real) {
    Settles(c.spec) && 0.0 < c.spec.blockAfter && sentAt + c.spec.blockAfter <= now
  }

  /** The command as it goes on waiting: without an answer for the acknowledgement timeout it is to be sent
      again, or its lateness is noted. */
  ghost function Lapsed(c: Command, sentAt: real, later: real): Command {
    if c.spec.ackTimeout <= 0.0 || later < sentAt + c.spec.ackTimeout then c
    else if c.spec.resend then c.(sentAt := None, timedOut := false)
    else c.(timedOut := true)
  }

  /** What the pump should do with a command that has been sent. */
  ghost predicate WaitRight(m: Machine, n: Machine, c: Command, sentAt: real, env: Env, t: Turn)
    requires m.active.Some? || m.queue != []
  {
    if !env.supported then AckedFirst(m, n, Ack(c.spec, sentAt, Unsupported, |m.attempts|))
    else if env.snapshot == None then Holds(m, n, Lapsed(c, sentAt, t.later), env.top) && n.attempts == m.attempts
    else
      var s := env.snapshot.value;
      var d := c.(seen := SeenNow(c, s, sentAt));
      if c.spec.guard.Some? && Shows(s, c.spec.guard.value, sentAt)
      then AckedFirst(m, n, Ack(c.spec, sentAt, Guarded(s), |m.attempts|))
      else if SettledNow(c, s, sentAt, t.now)
      then AckedFirst(m, n, Ack(c.spec, sentAt, Settled(s, d.seen, t.now), |m.attempts|))
      else if GivenUp(c, sentAt, t.now) then Holds(m, n, d, TopBlocked) && n.attempts == m.attempts
      else Holds(m, n, Lapsed(d, sentAt, t.later), env.top) && n.attempts == m.attempts
  }

  // ----- The pump ---------------------------------------------------------------------------------------

  /** Further rounds only add to what has been acknowledged and sent. */
  lemma {:induction false} RoundsExtend(m: Machine, env: Env, k: nat)
    requires k <= MAX_STEPS <= |env.turns|
    ensures m.acks <= Rounds(m, env, k).acks && m.attempts <= Rounds(m, env, k).attempts
    decreases MAX_STEPS - k
  {
    hide Round;
    if k < MAX_STEPS {
      var step := Round(m, env, env.turns[k]);
      RoundExtends(m, env, env.turns[k]);
      if step.Continue? {
        RoundsExtend(step.machine, env, k + 1);
      }
    }
  }

  lemma RoundExtends(m: Machine, env: Env, t: Turn)
    ensures m.acks <= Round(m, env, t).machine.acks && m.attempts <= Round(m, env, t).machine.attempts
  {
    hide Satisfied, HasSettled, TooEarly, SettleFails;
  }

  lemma FirstRound(m: Machine, env: Env)
    requires MAX_STEPS <= |env.turns|
    ensures var step := Round(m, env, env.turns[0]);
            && (step.Stop? ==> Rounds(m, env, 0) == step.machine)
            && (step.Continue? ==> step.machine.acks <= Rounds(m, env, 0).acks && step.machine.attempts <= Rounds(m, env, 0).attempts)
  {
    hide Round;
    var step := Round(m, env, env.turns[0]);
    if step.Continue? {
      RoundsExtend(step.machine, env, 1);
    }
  }

  lemma SendExactly(m: Machine, c: Command, env: Env, t: Turn)
    requires m.active == Some(c) && c.sentAt == None && m.top == env.top
    ensures SendRight(m, Send(m, c, env, t).machine, c, env, t)
    ensures Send(m, c, env, t).Continue? ==> |Send(m, c, env, t).machine.acks| > |m.acks|
  {
    hide Satisfied, Shows;
    if c.spec.guard.Some? && env.snapshot.Some? {
      ShowsExactly(env.snapshot.value, c.spec.guard.value, t.sentAt);
    }
  }

  lemma AwaitExactly(m: Machine, c: Command, env: Env, t: Turn)
    requires m.active == Some(c) && c.sentAt.Some? && m.top == env.top
    ensures WaitRight(m, Await(m, c, env, t).machine, c, c.sentAt.value, env, t)
    ensures Await(m, c, env, t).Continue? ==> |Await(m, c, env, t).machine.acks| > |m.acks|
  {
    hide Satisfied, Shows;
    if c.spec.guard.Some? && env.snapshot.Some? {
      ShowsExactly(env.snapshot.value, c.spec.guard.value, c.sentAt.value);
    }
  }

  /** `n` is `w`, or what has become of it after the acknowledgement of the command at its head. */
  ghost predicate Later(m: Machine, w: Machine, n: Machine) {
    n == w || (|w.acks| > |m.acks| && w.acks <= n.acks && w.attempts <= n.attempts)
  }

  ghost predicate SameHead(m: Machine, a: Machine) {
    && (m.active.Some? || m.queue != []) && (a.active.Some? || a.queue != [])
    && Behind(a) == Behind(m) && a.acks == m.acks && a.attempts == m.attempts && a.since == m.since
  }

  lemma SendLater(m: Machine, a: Machine, w: Machine, n: Machine, c: Command, env: Env, t: Turn)
    requires SameHead(m, a) && SendRight(a, w, c, env, t) && Later(a, w, n)
    ensures SendRight(m, n, c, env, t)
  {
    hide Shows, TooSoon;
  }

  lemma WaitLater(m: Machine, a: Machine, w: Machine, n: Machine, c: Command, sentAt: real, env: Env, t: Turn)
    requires SameHead(m, a) && WaitRight(a, w, c, sentAt, env, t) && Later(a, w, n)
    ensures WaitRight(m, n, c, sentAt, env, t)
  {
    hide Shows, SettledNow, GivenUp, SeenNow, Lapsed;
  }

  /** What a pump comes to for the command at the head. Unless it may not be sent in the state the robot is in, an
      unsent command that is not tried too soon is sent in this pump, and one that has been sent is acknowledged
      in this pump by the evidence it waits for, or by having settled; otherwise it stays at
      hand, and is due again once it has waited too long. */
  lemma PumpAnswers(m: Machine, env: Env, c: Command)
    requires MAX_STEPS <= |env.turns| && AtHead(m, c)
    ensures var n := Pumped(m, env);
            if !MayAct(env.top, c.spec) then n == m.(top := env.top)
            else if c.sentAt == None then SendRight(m, n, c, env, env.turns[0])
            else WaitRight(m, n, c, c.sentAt.value, env, env.turns[0])
  {
    hide Rounds, Send, Await, SendRight, WaitRight;
    var b := m.(top := env.top);
    var a := Activate(b);
    var t := env.turns[0];
    FirstRound(b, env);
    if c.sentAt == None {
      SendExactly(a, c, env, t);
      if MayAct(env.top, c.spec) {
        SendLater(m, a, Send(a, c, env, t).machine, Pumped(m, env), c, env, t);
      }
    } else {
      AwaitExactly(a, c, env, t);
      if MayAct(env.top, c.spec) {
        WaitLater(m, a, Await(a, c, env, t).machine, Pumped(m, env), c, c.sentAt.value, env, t);
      }
    }
  }

  /** Without a command a pump only learns the state of the robot. */
  lemma EmptyPump(m: Machine, env: Env)
    requires MAX_STEPS <= |env.turns| && m.active == None && m.queue == []
    ensures Pumped(m, env) == m.(top := env.top, state := if env.top == Available then Idle else m.state)
  {
  }

  /** Evidence acknowledges: a command that has been sent is acknowledged by the first pump whose report shows what
      it waits for. */
  lemma EvidenceAcknowledges(m: Machine, env: Env, c: Command, guard: Guard, s: Snapshot)
    requires MAX_STEPS <= |env.turns| && m.active == Some(c) && c.sentAt.Some? && MayAct(env.top, c.spec)
    requires env.supported && env.snapshot == Some(s) && c.spec.guard == Some(guard) && Shows(s, guard, c.sentAt.value)
    ensures m.acks + [Ack(c.spec, c.sentAt.value, Guarded(s), |m.attempts|)] <= Pumped(m, env).acks
  {
    hide Pumped, Shows, SettledNow, GivenUp;
    PumpAnswers(m, env, c);
  }

  /** A command that is due is sent: the pump records an attempt at it before any other. */
  lemma DueIsSent(m: Machine, env: Env, c: Command)
    requires MAX_STEPS <= |env.turns| && AtHead(m, c) && c.sentAt == None && MayAct(env.top, c.spec)
    requires c.lastAttempt <= 0.0 || env.force || env.turns[0].now - c.lastAttempt >= c.spec.retryInterval
    ensures var n := Pumped(m, env);
            && |n.attempts| > |m.attempts| && m.attempts <= n.attempts
            && n.attempts[|m.attempts|].spec == c.spec && n.attempts[|m.attempts|].number == c.attempts + 1
            && n.attempts[|m.attempts|].at == env.turns[0].now
  {
    hide Pumped, Shows, Holds;
    PumpAnswers(m, env, c);
    var n := Pumped(m, env);
    var x := Attempt(c.spec, c.attempts + 1, env.turns[0].now, env.force,
                     if env.turns[0].result == Success then Some(env.turns[0].sentAt) else None);
    assert m.attempts + [x] <= n.attempts;
    assert (m.attempts + [x])[|m.attempts|] == x;
  }

  // ----- How far one pump goes ---------------------------------------------------------------------------------

  /** Nothing holds the command back: it is new, and any answer will do. */
  ghost predicate Plain(c: Command) {
    c == NewCommand(c.spec) && c.spec.guard == None
  }

  lemma PlainRound(m: Machine, env: Env, t: Turn)
    requires m.active == None && m.queue != [] && Plain(m.queue[0]) && t.result == Success
    ensures Round(m, env, t).Continue?
    ensures var n := Round(m, env, t).machine; n.active == None && n.queue == m.queue[1..] && |n.acks| == |m.acks| + 1
  {
  }

  lemma {:induction false} PlainRounds(m: Machine, env: Env, k: nat)
    requires k <= MAX_STEPS <= |env.turns| && m.active == None && (forall c :: c in m.queue ==> Plain(c))
    requires forall i :: 0 <= i < MAX_STEPS ==> env.turns[i].result == Success
    ensures |Rounds(m, env, k).acks| == |m.acks| + if |m.queue| <= MAX_STEPS - k then |m.queue| else MAX_STEPS - k
    decreases MAX_STEPS - k
  {
    hide Round;
    if k < MAX_STEPS {
      if m.queue == [] {
        NothingToDo(m, env, env.turns[k]);
      } else {
        assert m.queue[0] in m.queue;
        PlainRound(m, env, env.turns[k]);
        PlainRounds(Round(m, env, env.turns[k]).machine, env, k + 1);
      }
    }
  }

  lemma NothingToDo(m: Machine, env: Env, t: Turn)
    requires m.active == None && m.queue == []
    ensures Round(m, env, t) == Stop(m.(state := Idle))
  {
  }

  /** One pump serves up to eight commands, one after the other. Whether the state of the robot allows them is asked for
      the first one only: behind a cancellation even a faulty robot is sent whatever is next. */
  lemma PumpServesEight(m: Machine, env: Env)
    requires MAX_STEPS <= |env.turns| && m.active == None && (forall c :: c in m.queue ==> Plain(c))
    requires m.queue != [] ==> MayAct(env.top, m.queue[0].spec)
    requires forall i :: 0 <= i < MAX_STEPS ==> env.turns[i].result == Success
    ensures |Pumped(m, env).acks| == |m.acks| + if |m.queue| <= 8 then |m.queue| else 8
  {
    hide Rounds;
    PlainRounds(m.(top := env.top), env, 0);
  }

  // ----- The state that is shown -----------------------------------------------------------------------------------

  ghost predicate ShowsSending(state: CommandState, kind: Kind) {
    match state
    case SendingCancel => kind in {CancelOrder, CancelAction}
    case SendingOrder => kind == SendOrder
    case SendingAction => kind in {SendAction, Pause, Generic}
    case _ => false
  }

  ghost predicate ShowsWaiting(state: CommandState, kind: Kind) {
    match state
    case WaitCancelAck => kind in {CancelOrder, CancelAction}
    case WaitOrderAck => kind == SendOrder
    case WaitActionAck => kind == SendAction
    case Idle => kind in {Pause, Generic}
    case _ => false
  }

  /** While a command stays at hand the queue shows what it is doing: sending it, if this pump tried in vain, or waiting
      for its acknowledgement. */
  lemma StateIsShown(m: Machine, env: Env, c: Command)
    requires MAX_STEPS <= |env.turns| && AtHead(m, c) && MayAct(env.top, c.spec)
    ensures var n, t := Pumped(m, env), env.turns[0];
            n.acks == m.acks ==>
              if c.sentAt == None && TooSoon(c, env.force, t.now) then n.state == m.state
              else if c.sentAt == None && t.result != Success then ShowsSending(n.state, c.spec.kind)
              else ShowsWaiting(n.state, c.spec.kind)
  {
    hide Rounds, Satisfied, HasSettled, SettleFails;
    var b := m.(top := env.top);
    var a := Activate(b);
    FirstRound(b, env);
    if c.sentAt == None {
      SendExactly(a, c, env, env.turns[0]);
    } else {
      AwaitExactly(a, c, env, env.turns[0]);
    }
    hide SendRight, WaitRight;
  }

  lemma {:induction false} IdleInTheEnd(m: Machine, env: Env, k: nat)
    requires k <= MAX_STEPS <= |env.turns| && Rounds(m, env, k).active == None && k < MAX_STEPS
    ensures Rounds(m, env, k).state == Idle
    decreases MAX_STEPS - k
  {
    hide Satisfied, HasSettled, SettleFails, TooEarly;
    var step := Round(m, env, env.turns[k]);
    if step.Continue? && k + 1 < MAX_STEPS {
      IdleInTheEnd(step.machine, env, k + 1);
    }
  }

  lemma IdleWhenDone(m: Machine, env: Env, c: Command)
    requires MAX_STEPS <= |env.turns| && AtHead(m, c) && MayAct(env.top, c.spec) && Pumped(m, env).active == None
    ensures Pumped(m, env).state == Idle
  {
    hide Rounds;
    IdleInTheEnd(m.(top := env.top), env, 0);
  }
}
