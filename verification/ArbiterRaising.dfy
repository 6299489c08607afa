/** What a raising round leaves behind. The first domain that can grant does so once and keeps
    its batch open, the domains before it have been served, and those after it have not. */
module ArbiterRaising {
  import opened Models
  import opened ArbiterSpec
  import opened ArbiterSteps
  import opened ArbiterSafety
  import opened ArbiterProgress
  import opened ArbiterRuns
  import opened ArbiterChecks
  import opened ArbiterOrder

  /** The round raises in the domain at position `i`. */
  ghost predicate RaisesAt(reg: Registry, u: State, order: seq<DomainId>, i: nat)
    requires u.Shaped(reg) && forall d :: d in order ==> d in u.domains
  {
    && i < |order| && !BaysWithin(reg, u.bays) && CanGrant(reg, u, order[i])
    && forall j :: 0 <= j < i ==> !CanGrant(reg, u, order[j])
  }

  /** A round that does not go through raises in one of its domains. */
  lemma {:induction false} RaisesSomewhere(reg: Registry, u: State, order: seq<DomainId>)
    requires u.Shaped(reg) && (forall d :: d in order ==> d in u.domains) && !GoesThrough(reg, u, order)
    ensures exists i :: RaisesAt(reg, u, order, i)
    decreases |order|
  {
    hide CanGrant, BaysWithin, State.Shaped;
    assert order != [];
    if CanGrant(reg, u, order[0]) {
      assert RaisesAt(reg, u, order, 0);
    } else {
      assert forall d :: d in order <==> d == order[0] || d in order[1..];
      RaisesSomewhere(reg, u, order[1..]);
      var i: nat :| RaisesAt(reg, u, order[1..], i);
      assert forall j :: 0 <= j < i + 1 ==> order[j] == (if j == 0 then order[0] else order[1..][j - 1]);
      assert RaisesAt(reg, u, order, i + 1);
    }
  }

  lemma SameDomainWaiting(reg: Registry, s: State, t: State, domain: DomainId, d: Direction)
    requires s.Shaped(reg) && t.Shaped(reg) && t.waiting == s.waiting
    ensures DomainWaiting(reg, t, domain, d) == DomainWaiting(reg, s, domain, d)
  {
    SameQueue(reg, s, t, domain, d, reg.blockOrder);
    hide Collect, SortByTime;
  }

  lemma SameSome(reg: Registry, s: State, t: State, q: seq<Reservation>)
    requires s.Keyed(reg) && t.Keyed(reg) && t == s.(domains := t.domains)
    requires forall x :: x in q ==> x.block in reg.blocks && x.destination in reg.bays
    ensures SomeAvailable(reg, t, q) == SomeAvailable(reg, s, q)
  {
    assert forall x :: x in q ==> Available(reg, s, x) == Available(reg, t, x);
  }

  lemma SameChoice(reg: Registry, s: State, t: State, domain: DomainId)
    requires s.Shaped(reg) && t.Shaped(reg) && t == s.(domains := t.domains)
    requires domain in s.domains && domain in t.domains && t.domains[domain] == s.domains[domain]
    ensures Choose(reg, t, domain) == Choose(reg, s, domain)
  {
    hide DomainWaiting, SomeAvailable, QueuesShaped, GrantsShaped, Registry.WellFormed;
    CollectedItems(reg, s, domain);
    SameDomainWaiting(reg, s, t, domain, AToB);
    SameDomainWaiting(reg, s, t, domain, BToA);
    SameSome(reg, s, t, DomainWaiting(reg, s, domain, AToB));
    SameSome(reg, s, t, DomainWaiting(reg, s, domain, BToA));
  }

  lemma SameDirection(reg: Registry, s: State, t: State, quiet: DomainId, domain: DomainId)
    requires s.Shaped(reg) && t.Shaped(reg) && t == s.(domains := t.domains)
    requires domain in s.domains && domain in t.domains && t.domains[domain] == s.domains[domain] && domain != quiet
    requires CanGrant(reg, s, domain)
    ensures CanGrant(reg, t, domain) && GrantDirection(reg, t, domain) == GrantDirection(reg, s, domain)
  {
    hide CanGrant, Choose, State.Shaped;
    SameGrants(reg, s, t, quiet, domain);
    SameChoice(reg, s, t, domain);
  }

  /** The domain in which a grant raises works in the direction of the grant, with its batch open. */
  lemma RaisingReconcile(reg: Registry, s: State, domain: DomainId)
    requires Core(reg, s) && !BaysWithin(reg, s.bays) && domain in s.domains && CanGrant(reg, s, domain)
    ensures var pass, d := Reconcile(reg, s, domain), GrantDirection(reg, s, domain);
            && !pass.ok && Core(reg, pass.state) && Moved(reg, s, pass.state, {domain})
            && domain in pass.state.domains && pass.state.domains[domain] == Domain(Some(d), false)
            && Busy(reg, pass.state.blocks, domain)
            && (HasWaiting(reg, pass.state, domain, d.Opposite()) <==> HasWaiting(reg, s, domain, d.Opposite()))
  {
    hide BaysWithin, Reconcile, Prepare, Serve, GrantsHeld, QueuesDistinct, WithinCapacity, OneDirection, QueuesShaped,
      GrantsShaped, Registry.WellFormed, CanGrant, GrantDirection, NoneAvailable, Moved, Settled, Busy, HasWaiting, Serving;
    ReconcileRaises(reg, s, domain);
    ReconcileSettles(reg, s, domain);
    ServingIs(reg, s, domain);
    var p, d := Serving(reg, s, domain), GrantDirection(reg, s, domain);
    ServingDiffers(reg, s, domain);
    RaisingServe(reg, p, domain, d);
    SameWaiting(reg, s, p, domain);
  }

  lemma ServingDiffers(reg: Registry, s: State, domain: DomainId)
    requires s.Shaped(reg) && domain in s.domains && CanGrant(reg, s, domain)
    ensures Serving(reg, s, domain) == s.(domains := Serving(reg, s, domain).domains)
    ensures domain in Serving(reg, s, domain).domains
    ensures Serving(reg, s, domain).domains[domain] == Domain(Some(GrantDirection(reg, s, domain)), false)
  {
    hide GrantDirection, CanGrant;
  }

  lemma RaisingServe(reg: Registry, p: State, domain: DomainId, d: Direction)
    requires Core(reg, p) && domain in p.domains && p.domains[domain] == Domain(Some(d), false)
    requires !NoneAvailable(reg, p, domain, d) && !Serve(reg, p, domain, d).ok
    ensures var t := Serve(reg, p, domain, d).state;
            && t.Shaped(reg) && t.domains == p.domains && Busy(reg, t.blocks, domain)
            && (HasWaiting(reg, t, domain, d.Opposite()) <==> HasWaiting(reg, p, domain, d.Opposite()))
  {
    DomainPending(reg, p, domain, d);
    CollectedItems(reg, p, domain);
    var b, x :| reg.InDomain(b, domain) && x in p.waiting[b].Of(d) && Available(reg, p, x);
    assert x.block == b;
    var items := DomainWaiting(reg, p, domain, d);
    var t := GrantPass(reg, p, items, d).state;
    hide GrantsHeld, QueuesDistinct, WithinCapacity, OneDirection, QueuesShaped, GrantsShaped, Registry.WellFormed,
      Available, DomainWaiting, Pending, GrantPass, NoneAvailable, Busy, Moved;
    PassMoves(reg, p, domain, items, d);
    PassGrants(reg, p, domain, items, d, x);
    SameOtherQueue(reg, p, t, domain, d.Opposite());
  }

  lemma SameOtherQueue(reg: Registry, s: State, t: State, domain: DomainId, d: Direction)
    requires s.Shaped(reg) && t.Shaped(reg) && forall b :: b in s.waiting ==> t.waiting[b].Of(d) == s.waiting[b].Of(d)
    ensures HasWaiting(reg, t, domain, d) <==> HasWaiting(reg, s, domain, d)
  {
    if HasWaiting(reg, t, domain, d) {
      var b, x :| reg.InDomain(b, domain) && x in t.waiting[b].Of(d);
      assert x in s.waiting[b].Of(d);
    }
    if HasWaiting(reg, s, domain, d) {
      var b, x :| reg.InDomain(b, domain) && x in s.waiting[b].Of(d);
      assert x in t.waiting[b].Of(d);
    }
  }

  // ----- The round as a whole ---------------------------------------------------------------------------

  /** Up to the raising domain nothing but directions and batches has changed. */
  lemma RoundUpTo(reg: Registry, u: State, order: seq<DomainId>, i: nat)
    requires Core(reg, u) && (forall d :: d in order ==> d in u.domains) && RaisesAt(reg, u, order, i)
    ensures forall d :: d in order[..i] ==> d in u.domains
    ensures var before := ReconcileEach(reg, u, order[..i]);
            && before.ok && Core(reg, before.state) && before.state == u.(domains := before.state.domains)
            && order[i] !in order[..i] && order[i] in before.state.domains
            && (forall d :: d in u.domains <==> d in before.state.domains)
            && (forall d :: d in u.domains && d !in order[..i] ==> before.state.domains[d] == u.domains[d])
            && CanGrant(reg, before.state, order[i])
            && GrantDirection(reg, before.state, order[i]) == GrantDirection(reg, u, order[i])
            && ReconcileEach(reg, u, order).state == Reconcile(reg, before.state, order[i]).state
  {
    hide Reconcile, ReconcileEach, CanGrant, GrantDirection, BaysWithin, Moved, GrantsHeld, QueuesDistinct, WithinCapacity,
      OneDirection, QueuesShaped, GrantsShaped, Registry.WellFormed;
    var before := order[..i];
    forall d | d in before ensures d in u.domains && !CanGrant(reg, u, d) {
      var j :| 0 <= j < i && order[j] == d;
    }
    QuietRound(reg, u, before);
    EachMoves(reg, u, before);
    RoundSplits(reg, u, order, i);
    var v := ReconcileEach(reg, u, before).state;
    SameDirection(reg, u, v, if i > 0 then order[0] else order[i] + 1, order[i]);
    ReconcileRaises(reg, v, order[i]);
    FirstRaises(reg, v, order[i..]);
  }

  lemma FirstRaises(reg: Registry, s: State, order: seq<DomainId>)
    requires s.Shaped(reg) && order != [] && (forall d :: d in order ==> d in s.domains)
    requires !Reconcile(reg, s, order[0]).ok
    ensures ReconcileEach(reg, s, order) == Reconcile(reg, s, order[0])
  {
    hide Reconcile;
  }

  /** A raising round leaves the domains orderly exactly if nobody waits against the direction of the
      grant in the raising domain, and every domain not yet visited was orderly before the round. */
  ghost predicate RaisesInOrder(reg: Registry, u: State, order: seq<DomainId>, i: nat)
    requires u.Shaped(reg) && (forall d :: d in order ==> d in u.domains) && RaisesAt(reg, u, order, i)
  {
    && !HasWaiting(reg, u, order[i], GrantDirection(reg, u, order[i]).Opposite())
    && forall d :: d in u.domains && d !in order[..i + 1] ==> Orderly(reg, u, d)
  }

  lemma RaisingDomainOrder(reg: Registry, u: State, order: seq<DomainId>, i: nat)
    requires Core(reg, u) && (forall d :: d in order ==> d in u.domains) && RaisesAt(reg, u, order, i)
    ensures var t := ReconcileEach(reg, u, order).state;
            && t.Shaped(reg) && order[i] in t.domains
            && (Orderly(reg, t, order[i]) <==> !HasWaiting(reg, u, order[i], GrantDirection(reg, u, order[i]).Opposite()))
  {
    hide Reconcile, ReconcileEach, CanGrant, GrantDirection, BaysWithin, Moved, GrantsHeld, QueuesDistinct, WithinCapacity,
      OneDirection, QueuesShaped, GrantsShaped, Registry.WellFormed, HasWaiting, Busy, Faulted;
    RoundUpTo(reg, u, order, i);
    var v := ReconcileEach(reg, u, order[..i]).state;
    RaisingReconcile(reg, v, order[i]);
    SameWaiting(reg, u, v, order[i]);
  }

  /** Every other domain is as it was before the round, or settled. */
  lemma OtherDomainOrder(reg: Registry, u: State, order: seq<DomainId>, i: nat, d: DomainId)
    requires Core(reg, u) && (forall e :: e in order ==> e in u.domains) && RaisesAt(reg, u, order, i)
    requires d in u.domains && d != order[i] && (Faulted(reg, u.blocks, d) ==> Orderly(reg, u, d))
    ensures var t := ReconcileEach(reg, u, order).state;
            && t.Shaped(reg) && d in t.domains
            && (Orderly(reg, t, d) <==> d in order[..i] || Orderly(reg, u, d))
  {
    hide Reconcile, ReconcileEach, CanGrant, GrantDirection, BaysWithin, BlocksMoved, QueuesMoved, GrantsMoved, BaysMoved,
      GrantsHeld, QueuesDistinct, WithinCapacity, OneDirection, QueuesShaped, GrantsShaped, Registry.WellFormed, HasWaiting, Busy,
      Faulted, Orderly, Settled;
    RoundUpTo(reg, u, order, i);
    var v := ReconcileEach(reg, u, order[..i]).state;
    var t := ReconcileEach(reg, u, order).state;
    RaisingOthers(reg, v, order[i], d);
    if d in order[..i] {
      if Faulted(reg, u.blocks, d) {
        EachMoves(reg, u, order[..i]);
        MovedUntouched(reg, u, v, HealthyOf(reg, u.blocks, order[..i]), d);
        UntouchedOrderly(reg, u, v, d);
      } else {
        EachSettles(reg, u, order[..i], d);
        SettledOrderly(reg, v, d);
      }
      UntouchedOrderly(reg, v, t, d);
    } else {
      DomainUntouched(reg, u, v, d);
      OrderlyUntouched(reg, u, v, d);
      OrderlyUntouched(reg, v, t, d);
    }
  }

  lemma RaisingOthers(reg: Registry, v: State, domain: DomainId, d: DomainId)
    requires Core(reg, v) && domain in v.domains && d in v.domains && d != domain
    ensures var t := Reconcile(reg, v, domain).state; t.Shaped(reg) && Untouched(reg, v, t, d)
  {
    hide Reconcile, BlocksMoved, QueuesMoved, GrantsMoved, BaysMoved, GrantsHeld, QueuesDistinct, WithinCapacity, OneDirection,
      QueuesShaped, GrantsShaped, Registry.WellFormed, Settled, Untouched;
    ReconcileSettles(reg, v, domain);
    MovedUntouched(reg, v, Reconcile(reg, v, domain).state, {domain}, d);
  }

  lemma DomainUntouched(reg: Registry, s: State, t: State, d: DomainId)
    requires s.Keyed(reg) && t.Keyed(reg) && t == s.(domains := t.domains)
    requires d in s.domains && d in t.domains && t.domains[d] == s.domains[d]
    ensures Untouched(reg, s, t, d)
  {
  }

  lemma OrderlyUntouched(reg: Registry, s: State, t: State, d: DomainId)
    requires s.Shaped(reg) && t.Shaped(reg) && Untouched(reg, s, t, d)
    ensures Orderly(reg, t, d) <==> Orderly(reg, s, d)
  {
    assert d in s.domains && d in t.domains;
    hide QueuesShaped, GrantsShaped, Registry.WellFormed, Orderly, Untouched;
    if Orderly(reg, s, d) {
      UntouchedOrderly(reg, s, t, d);
    }
    if Orderly(reg, t, d) {
      UntouchedBack(reg, s, t, d);
      UntouchedOrderly(reg, t, s, d);
    }
  }

  lemma UntouchedBack(reg: Registry, s: State, t: State, d: DomainId)
    requires s.Keyed(reg) && t.Keyed(reg) && Untouched(reg, s, t, d)
    ensures Untouched(reg, t, s, d)
  {
  }

  /** Order after a raising round, domain by domain. */
  lemma RaisingRoundOrder(reg: Registry, u: State, order: seq<DomainId>, i: nat)
    requires Core(reg, u) && (forall d :: d in order ==> d in u.domains) && RaisesAt(reg, u, order, i)
    requires forall d :: d in u.domains && Faulted(reg, u.blocks, d) ==> Orderly(reg, u, d)
    ensures var t := ReconcileEach(reg, u, order).state;
            t.Shaped(reg) && (AllOrderly(reg, t) <==> RaisesInOrder(reg, u, order, i))
  {
    hide Reconcile, Busy, NoneAvailable, ReconcileEach, CanGrant, GrantDirection, BaysWithin, BlocksMoved, QueuesMoved, GrantsMoved, BaysMoved,
      GrantsHeld, QueuesDistinct, WithinCapacity, OneDirection, QueuesShaped, GrantsShaped, Registry.WellFormed, HasWaiting,
      Faulted, Orderly;
    var t := ReconcileEach(reg, u, order).state;
    EachMoves(reg, u, order);
    assert order[..i + 1] == order[..i] + [order[i]];
    RaisingDomainOrder(reg, u, order, i);
    forall d | d in u.domains && d != order[i]
      ensures d in t.domains && (Orderly(reg, t, d) <==> d in order[..i] || Orderly(reg, u, d))
    {
      OtherDomainOrder(reg, u, order, i, d);
    }
    assert forall d :: d in t.domains <==> d in u.domains;
  }

  lemma FaultedStaysOrderly(reg: Registry, s: State, e: Event)
    requires Core(reg, s) && Feasible(reg, e) && AllOrderly(reg, s) && Prelude(reg, s, e).Shaped(reg)
    ensures var u := Prelude(reg, s, e);
            && (forall d :: d in u.domains <==> d in s.domains)
            && forall d :: d in u.domains && Faulted(reg, u.blocks, d) ==> Orderly(reg, u, d)
  {
    hide Prelude, Orderly, Faulted, QueuesShaped, GrantsShaped, GrantsHeld, QueuesDistinct, WithinCapacity, OneDirection;
    var u := Prelude(reg, s, e);
    assert forall d :: d in u.domains <==> d in s.domains;
    forall d | d in u.domains && Faulted(reg, u.blocks, d) ensures Orderly(reg, u, d) {
      PreludeOrderly(reg, s, e, d);
    }
  }

  /** Work conservation and batch closure survive a step exactly if its reconciliations go through, or
      the raising domain has nobody waiting against the grant and no domain that the round has not
      reached was left working without a robot. */
  lemma StepKeepsOrderExactly(reg: Registry, s: State, e: Event)
    requires Core(reg, s) && Feasible(reg, e) && AllOrderly(reg, s)
    ensures Prelude(reg, s, e).Shaped(reg) && forall d :: d in Visited(reg, s, e) ==> d in Prelude(reg, s, e).domains
    ensures var u, order, t := Prelude(reg, s, e), Visited(reg, s, e), Step(reg, s, e).state;
            && t.Shaped(reg)
            && (AllOrderly(reg, t) <==>
                StepGoesThrough(reg, s, e) || exists i :: RaisesAt(reg, u, order, i) && RaisesInOrder(reg, u, order, i))
  {
    hide Step, Prelude, Visited, ReconcileEach, GoesThrough, RaisesAt, RaisesInOrder, AllOrderly, Faulted, QueuesShaped, GrantsShaped,
      Registry.WellFormed, GrantsHeld, QueuesDistinct, WithinCapacity, OneDirection, Orderly;
    var u, order := Prelude(reg, s, e), Visited(reg, s, e);
    StepSplits(reg, s, e);
    PreludeKeepsCore(reg, s, e);
    StepKeepsCore(reg, s, e);
    FaultedStaysOrderly(reg, s, e);
    if StepGoesThrough(reg, s, e) {
      StepKeepsOrder(reg, s, e);
    } else {
      RaisesSomewhere(reg, u, order);
      forall i | RaisesAt(reg, u, order, i)
        ensures AllOrderly(reg, Step(reg, s, e).state) <==> RaisesInOrder(reg, u, order, i)
      {
        RaisingRoundOrder(reg, u, order, i);
      }
    }
  }

  // ----- Wake-ups after a raising round ----------------------------------------------------------------

  /** The domains served before the raising one are settled, and no other settled domain is
      unsettled. */
  lemma RaisingRoundSettles(reg: Registry, u: State, order: seq<DomainId>, i: nat, d: DomainId)
    requires Core(reg, u) && (forall e :: e in order ==> e in u.domains) && RaisesAt(reg, u, order, i)
    requires d in u.domains && !Faulted(reg, u.blocks, d) && d != order[i]
    requires d in order[..i] || Settled(reg, u, d)
    ensures var t := ReconcileEach(reg, u, order).state; t.Shaped(reg) && d in t.domains && Settled(reg, t, d)
  {
    hide Reconcile, ReconcileEach, CanGrant, GrantDirection, BaysWithin, BlocksMoved, QueuesMoved, GrantsMoved, BaysMoved,
      GrantsHeld, QueuesDistinct, WithinCapacity, OneDirection, QueuesShaped, GrantsShaped, Registry.WellFormed, HasWaiting, Busy,
      Faulted, Settled;
    RoundUpTo(reg, u, order, i);
    var v := ReconcileEach(reg, u, order[..i]).state;
    EachSettles(reg, u, order[..i], d);
    ReconcileSettles(reg, v, order[i]);
    SettledStays(reg, v, ReconcileEach(reg, u, order).state, {order[i]}, d);
  }
}
