/** Who is served. A domain serves the requests of one direction by age: a request is
    admitted exactly if it is available when its turn comes, and when its turn comes only
    requests ahead of it have been looked at. */
module ArbiterService {
  import opened Models
  import opened ArbiterSpec
  import opened ArbiterSteps
  import opened ArbiterSafety
  import opened ArbiterProgress
  import opened ArbiterRuns
  import opened ArbiterChecks

  // ----- Who is ahead of whom ------------------------------------------------------------

  ghost predicate Leads<T>(q: seq<T>, x: T, y: T) {
    exists i, j :: 0 <= i < j < |q| && q[i] == x && q[j] == y
  }

  /** `x` was requested earlier than `y`, or at the same time and further ahead in the
      same queue, or in front of a block that was configured earlier. */
  ghost predicate Ahead(reg: Registry, s: State, x: Reservation, y: Reservation) {
    x.time < y.time || (x.time == y.time && QueuedAhead(reg, s.waiting, x, y))
  }

  ghost predicate QueuedAhead(reg: Registry, waiting: map<BlockId, Queues>, x: Reservation, y: Reservation) {
    if x.block == y.block
    then x.block in waiting && Leads(waiting[x.block].Of(x.direction), x, y)
    else Leads(reg.blockOrder, x.block, y.block)
  }

  lemma LeadsCons<T>(a: T, q: seq<T>, x: T, y: T)
    ensures Leads([a] + q, x, y) <==> (x == a && y in q) || Leads(q, x, y)
  {
    var r := [a] + q;
    if Leads(r, x, y) {
      var i, j :| 0 <= i < j < |r| && r[i] == x && r[j] == y;
      assert q[j - 1] == y;
      if i > 0 {
        assert q[i - 1] == x;
      }
    }
    if x == a && y in q {
      var j :| 0 <= j < |q| && q[j] == y;
      assert r[0] == x && r[j + 1] == y;
    }
    if Leads(q, x, y) {
      var i, j :| 0 <= i < j < |q| && q[i] == x && q[j] == y;
      assert r[i + 1] == x && r[j + 1] == y;
    }
  }

  lemma LeadsConcat<T>(p: seq<T>, q: seq<T>, x: T, y: T)
    requires Leads(p + q, x, y)
    ensures Leads(p, x, y) || Leads(q, x, y) || (x in p && y in q)
  {
    var i, j :| 0 <= i < j < |p + q| && (p + q)[i] == x && (p + q)[j] == y;
    if j >= |p| {
      assert q[j - |p|] == y;
      if i >= |p| {
        assert q[i - |p|] == x;
      }
    }
  }

  lemma {:induction false} InsertLeads(a: Reservation, q: seq<Reservation>, x: Reservation, y: Reservation)
    requires InTimeOrder(q) && Leads(InsertByTime(a, q), x, y)
    ensures Leads(q, x, y) || (x == a && y in q && a.time <= y.time) || (y == a && x in q && x.time < a.time)
  {
    if q == [] || a.time <= q[0].time {
      LeadsCons(a, q, x, y);
    } else {
      var rest := InsertByTime(a, q[1..]);
      assert q == [q[0]] + q[1..];
      LeadsCons(q[0], rest, x, y);
      LeadsCons(q[0], q[1..], x, y);
      InsertedItems(a, q[1..]);
      if Leads(rest, x, y) {
        InsertLeads(a, q[1..], x, y);
      }
    }
  }

  /** Sorting puts nobody ahead of anybody except by age. */
  lemma {:induction false} SortLeads(q: seq<Reservation>, x: Reservation, y: Reservation)
    requires Leads(SortByTime(q), x, y)
    ensures x.time < y.time || (x.time == y.time && Leads(q, x, y))
  {
    if q != [] {
      var rest := SortByTime(q[1..]);
      SortIsStable(q[1..], 0);
      SortedItems(q[1..]);
      InsertLeads(q[0], rest, x, y);
      assert q == [q[0]] + q[1..];
      LeadsCons(q[0], q[1..], x, y);
      if Leads(rest, x, y) {
        SortLeads(q[1..], x, y);
      }
    }
  }

  lemma {:induction false} CollectLeads(
    reg: Registry, s: State, domain: DomainId, d: Direction, order: seq<BlockId>, x: Reservation, y: Reservation)
    requires QueuesShaped(reg, s.waiting) && forall b :: b in order ==> b in s.waiting
    requires forall i, j :: 0 <= i < j < |order| ==> order[i] != order[j]
    requires Leads(Collect(reg, s, domain, d, order), x, y)
    ensures x.direction == d && x.block in s.waiting
    ensures if x.block == y.block then Leads(s.waiting[x.block].Of(d), x, y) else Leads(order, x.block, y.block)
  {
    if order != [] {
      assert order[0] in order;
      var first := if reg.InDomain(order[0], domain) then s.waiting[order[0]].Of(d) else [];
      var rest := Collect(reg, s, domain, d, order[1..]);
      CollectItems(reg, s, domain, d, order[1..]);
      LeadsConcat(first, rest, x, y);
      assert order == [order[0]] + order[1..];
      LeadsCons(order[0], order[1..], x.block, y.block);
      if Leads(rest, x, y) {
        CollectLeads(reg, s, domain, d, order[1..], x, y);
      } else if Leads(first, x, y) {
        assert x in first && y in first;
      }
    }
  }

  /** The queue of a domain has the requests ahead of others before them. */
  lemma QueueLeads(reg: Registry, s: State, domain: DomainId, d: Direction, x: Reservation, y: Reservation)
    requires s.Shaped(reg) && Leads(DomainWaiting(reg, s, domain, d), x, y)
    ensures Ahead(reg, s, x, y)
  {
    SortLeads(Collect(reg, s, domain, d, reg.blockOrder), x, y);
    if x.time == y.time {
      CollectLeads(reg, s, domain, d, reg.blockOrder, x, y);
    }
  }

  lemma LeadsAsym<T>(q: seq<T>, x: T, y: T)
    requires Leads(q, x, y) && forall i, j :: 0 <= i < j < |q| ==> q[i] != q[j]
    ensures !Leads(q, y, x)
  {
  }

  /** Being ahead is one-sided. */
  lemma AheadAsym(reg: Registry, s: State, x: Reservation, y: Reservation)
    requires Core(reg, s) && x.block in reg.blocks && x.direction == y.direction && Ahead(reg, s, x, y)
    ensures !Ahead(reg, s, y, x)
  {
    if x.time == y.time {
      if x.block == y.block {
        LeadsAsym(s.waiting[x.block].Of(x.direction), x, y);
      } else {
        LeadsAsym(reg.blockOrder, x.block, y.block);
      }
    }
  }

  // ----- A pass looks at its items one after the other -----------------------------------------

  lemma AdmitGrants(reg: Registry, s: State, x: Reservation, d: Direction)
    requires s.Keyed(reg) && x.block in reg.blocks && x.destination in reg.bays
    ensures var t := Grant(Dequeue(s, x, d), x); t.Keyed(reg) && t.grants == s.grants[Key(x.robot, x.block) := x]
  {
  }

  lemma {:induction false} PassAdmitsItems(reg: Registry, s: State, items: seq<Reservation>, d: Direction)
    requires s.Keyed(reg) && forall x :: x in items ==> x.block in reg.blocks && x.destination in reg.bays
    ensures var t := GrantPass(reg, s, items, d).state;
            t.Keyed(reg) && forall k :: k in t.grants && (k !in s.grants || t.grants[k] != s.grants[k]) ==> t.grants[k] in items
    decreases |items|
  {
    hide Available, ChecksPass, Grant;
    if items != [] {
      assert items[0] in items;
      AdmitGrants(reg, s, items[0], d);
      if !Available(reg, s, items[0]) {
        PassAdmitsItems(reg, s, items[1..], d);
      } else {
        AdmitGrants(reg, s, items[0], d);
        var t := Grant(Dequeue(s, items[0], d), items[0]);
        if ChecksPass(reg, t) {
          PassAdmitsItems(reg, t, items[1..], d);
        }
      }
    }
  }

  lemma {:induction false} PassSplits(reg: Registry, s: State, p: seq<Reservation>, q: seq<Reservation>, d: Direction)
    requires s.Keyed(reg) && forall x :: x in p || x in q ==> x.block in reg.blocks && x.destination in reg.bays
    ensures var first := GrantPass(reg, s, p, d);
            && first.state.Keyed(reg)
            && GrantPass(reg, s, p + q, d) == if first.ok then GrantPass(reg, first.state, q, d) else first
    decreases |p|
  {
    hide Available, ChecksPass;
    if p == [] {
      assert p + q == q;
    } else {
      assert p[0] in p && (p + q)[1..] == p[1..] + q;
      if !Available(reg, s, p[0]) {
        PassSplits(reg, s, p[1..], q, d);
      } else {
        var t := Grant(Dequeue(s, p[0], d), p[0]);
        if ChecksPass(reg, t) {
          PassSplits(reg, t, p[1..], q, d);
        }
      }
    }
  }

  /** What a pass has not looked at is still waiting. */
  lemma {:induction false} RestPending(
    reg: Registry, s: State, domain: DomainId, p: seq<Reservation>, q: seq<Reservation>, d: Direction)
    requires Core(reg, s) && domain in s.domains && s.domains[domain].active == Some(d)
    requires Pending(reg, s, domain, p + q, d)
    ensures Pending(reg, s, domain, p, d)
    ensures GrantPass(reg, s, p, d).state.Keyed(reg) && Pending(reg, GrantPass(reg, s, p, d).state, domain, q, d)
    decreases |p|
  {
    FrontPending(reg, s, domain, p, q, d);
    hide Available, ChecksPass, GrantsHeld, QueuesDistinct, WithinCapacity, OneDirection, QueuesShaped, GrantsShaped,
      Registry.WellFormed, DistinctKeys;
    if p == [] {
      assert p + q == q;
    } else {
      var x := p[0];
      assert x in p + q && (p + q)[0] == x && (p + q)[1..] == p[1..] + q;
      PendingTail(reg, s, domain, p + q, d);
      if !Available(reg, s, x) {
        RestPending(reg, s, domain, p[1..], q, d);
      } else {
        var t := Grant(Dequeue(s, x, d), x);
        AdmitKeepsCore(reg, s, x, d);
        PendingAfterAdmit(reg, s, domain, p + q, d);
        if ChecksPass(reg, t) {
          RestPending(reg, t, domain, p[1..], q, d);
        } else {
          BackPending(reg, t, domain, p[1..], q, d);
        }
      }
    }
  }

  lemma FrontPending(reg: Registry, s: State, domain: DomainId, p: seq<Reservation>, q: seq<Reservation>, d: Direction)
    requires s.Keyed(reg) && Pending(reg, s, domain, p + q, d)
    ensures Pending(reg, s, domain, p, d)
  {
    assert forall i :: 0 <= i < |p| ==> (p + q)[i] == p[i];
    assert forall x :: x in p ==> x in p + q;
  }

  lemma BackPending(reg: Registry, s: State, domain: DomainId, p: seq<Reservation>, q: seq<Reservation>, d: Direction)
    requires s.Keyed(reg) && Pending(reg, s, domain, p + q, d)
    ensures Pending(reg, s, domain, q, d)
  {
    assert forall i :: 0 <= i < |q| ==> (p + q)[|p| + i] == q[i];
    assert forall x :: x in q ==> x in p + q;
  }

  lemma FirstOfPass(reg: Registry, s: State, domain: DomainId, x: Reservation, q: seq<Reservation>, d: Direction)
    requires Core(reg, s) && domain in s.domains && s.domains[domain].active == Some(d)
    requires Pending(reg, s, domain, [x] + q, d)
    ensures Granted(GrantPass(reg, s, [x] + q, d).state.grants, x) <==> Available(reg, s, x)
  {
    hide Available, ChecksPass, GrantsHeld, WithinCapacity, OneDirection, QueuesShaped, GrantsShaped, Registry.WellFormed,
      BlocksMoved, QueuesMoved, BaysMoved, QueuesDistinct, DistinctKeys, Pending;
    var items := [x] + q;
    assert x in items && items[1..] == q;
    FirstIsWaiting(reg, s, domain, x, q, d);
    if Available(reg, s, x) {
      var t := Grant(Dequeue(s, x, d), x);
      AdmitKeepsCore(reg, s, x, d);
      AdmitGrants(reg, s, x, d);
      PendingAfterAdmit(reg, s, domain, items, d);
      if ChecksPass(reg, t) {
        PassMoves(reg, t, domain, q, d);
      }
    } else {
      PassAdmitsItems(reg, s, q, d);
    }
  }

  lemma FirstIsWaiting(reg: Registry, s: State, domain: DomainId, x: Reservation, q: seq<Reservation>, d: Direction)
    requires Core(reg, s) && Pending(reg, s, domain, [x] + q, d)
    ensures x.block in reg.blocks && x.destination in reg.bays && x in s.waiting[x.block].Of(d) && reg.InDomain(x.block, domain)
    ensures Key(x.robot, x.block) !in s.grants && x !in q
    ensures forall y :: y in q ==> y.block in reg.blocks && y.destination in reg.bays
  {
    hide GrantsHeld, WithinCapacity, OneDirection, GrantsShaped, Registry.WellFormed;
    assert x in [x] + q;
    BackPending(reg, s, domain, [x], q, d);
    assert s.waiting[x.block].Has(x.robot) by {
      assert x.robot in Robots(s.waiting[x.block].Of(d));
    }
    forall i | 0 <= i < |q| ensures q[i] != x {
      assert ([x] + q)[0] == x && ([x] + q)[i + 1] == q[i];
    }
    hide QueuesDistinct;
  }

  /** A request is admitted in a pass exactly if it is available when the pass comes to it;
      what is admitted up to there comes before it, and what is admitted later, after it. */
  lemma PassInTurn(reg: Registry, s: State, domain: DomainId, p: seq<Reservation>, x: Reservation, q: seq<Reservation>, d: Direction)
    requires Core(reg, s) && domain in s.domains && s.domains[domain].active == Some(d)
    requires Pending(reg, s, domain, p + ([x] + q), d) && GrantPass(reg, s, p, d).ok
    ensures var u, t := GrantPass(reg, s, p, d).state, GrantPass(reg, s, p + ([x] + q), d).state;
            && Core(reg, u) && Core(reg, t) && Moved(reg, s, u, {domain}) && Moved(reg, u, t, {domain})
            && (forall k :: k in u.grants && k !in s.grants ==> u.grants[k] in p)
            && (forall k :: k in t.grants && k !in u.grants ==> t.grants[k] in [x] + q)
            && x.block in reg.blocks && x.destination in reg.bays
            && (Granted(t.grants, x) <==> Available(reg, u, x))
  {
    hide Available, ChecksPass, GrantsHeld, QueuesDistinct, WithinCapacity, OneDirection, QueuesShaped, GrantsShaped,
      Registry.WellFormed, DistinctKeys, Moved, GrantPass;
    RestPending(reg, s, domain, p, [x] + q, d);
    assert x in [x] + q;
    var u := GrantPass(reg, s, p, d).state;
    PassMoves(reg, s, domain, p, d);
    PassSplits(reg, s, p, [x] + q, d);
    PassMoves(reg, u, domain, [x] + q, d);
    PassAdmitsItems(reg, s, p, d);
    PassAdmitsItems(reg, u, [x] + q, d);
    FirstOfPass(reg, u, domain, x, q, d);
  }

  // ----- Serving a domain ------------------------------------------------------------------------

  ghost predicate WaitsIn(reg: Registry, s: State, domain: DomainId, d: Direction, x: Reservation)
    requires s.Keyed(reg)
  {
    reg.InDomain(x.block, domain) && x.destination in reg.bays && x in s.waiting[x.block].Of(d)
  }

  /** Waiting, with everything it needs free. */
  ghost predicate CanGo(reg: Registry, s: State, domain: DomainId, d: Direction, x: Reservation)
    requires s.Keyed(reg)
  {
    WaitsIn(reg, s, domain, d, x) && Available(reg, s, x)
  }

  /** No other request that can go is ahead of `x`, which can. */
  ghost predicate NextToGo(reg: Registry, s: State, domain: DomainId, d: Direction, x: Reservation)
    requires s.Keyed(reg)
  {
    && CanGo(reg, s, domain, d, x)
    && forall y :: CanGo(reg, s, domain, d, y) && y != x ==> Ahead(reg, s, x, y)
  }

  /** `u` is the state on the way from `s` to `t` in which it is the turn of `x`. */
  ghost predicate TurnOf(reg: Registry, s: State, u: State, t: State, domain: DomainId, x: Reservation) {
    && Core(reg, u) && s.Keyed(reg) && t.Keyed(reg) && Moved(reg, s, u, {domain}) && Moved(reg, u, t, {domain})
    && (forall k :: k in u.grants && k !in s.grants ==> Ahead(reg, s, u.grants[k], x))
    && (forall k :: k in t.grants && k !in u.grants ==> t.grants[k] == x || Ahead(reg, s, x, t.grants[k]))
  }

  lemma SameService(reg: Registry, s: State, p: State, domain: DomainId, d: Direction)
    requires s.Shaped(reg) && p.Shaped(reg) && p == s.(domains := p.domains)
    ensures forall x, y :: Ahead(reg, p, x, y) == Ahead(reg, s, x, y)
    ensures forall x :: CanGo(reg, p, domain, d, x) == CanGo(reg, s, domain, d, x)
    ensures forall x :: WaitsIn(reg, p, domain, d, x) == WaitsIn(reg, s, domain, d, x)
  {
  }

  /** An open batch is served by one pass over the queue of its domain. */
  lemma ServePasses(reg: Registry, s: State, domain: DomainId, d: Direction)
    requires Core(reg, s) && domain in s.domains && s.domains[domain] == Domain(Some(d), false)
    ensures var items, pass := DomainWaiting(reg, s, domain, d), Serve(reg, s, domain, d);
            && Pending(reg, s, domain, items, d)
            && (forall x :: x in items <==> WaitsIn(reg, s, domain, d, x))
            && GrantPass(reg, s, items, d) == Pass(pass.state.(domains := s.domains), pass.ok)
            && pass.state.Keyed(reg) && domain in pass.state.domains && pass.state.domains[domain].active == Some(d)
            && (forall e :: e in pass.state.domains <==> e in s.domains)
            && (forall e :: e in s.domains && e != domain ==> pass.state.domains[e] == s.domains[e])
  {
    hide GrantPass, DomainWaiting, GrantsHeld, QueuesDistinct, WithinCapacity, OneDirection, Pending, QueuesShaped,
      GrantsShaped, Registry.WellFormed, CloseIfOpposed;
    DomainPending(reg, s, domain, d);
    CollectedItems(reg, s, domain);
    var items := DomainWaiting(reg, s, domain, d);
    GrantPassShape(reg, s, items, d);
    CloseChanges(reg, GrantPass(reg, s, items, d).state, domain, d);
  }

  lemma CloseChanges(reg: Registry, s: State, domain: DomainId, d: Direction)
    requires s.Shaped(reg) && domain in s.domains
    ensures var t := CloseIfOpposed(reg, s, domain, d);
            && t == s.(domains := t.domains) && (forall e :: e in t.domains <==> e in s.domains)
            && t.domains[domain].active == s.domains[domain].active
            && forall e :: e in s.domains && e != domain ==> t.domains[e] == s.domains[e]
  {
    hide SortByTime, Collect;
  }

  lemma SplitAt(reg: Registry, s: State, domain: DomainId, d: Direction, x: Reservation)
      returns (p: seq<Reservation>, q: seq<Reservation>)
    requires s.Shaped(reg) && x in DomainWaiting(reg, s, domain, d)
    ensures DomainWaiting(reg, s, domain, d) == p + ([x] + q)
    ensures forall y :: y in p ==> Ahead(reg, s, y, x)
    ensures forall y :: y in q ==> Ahead(reg, s, x, y)
  {
    hide DomainWaiting, Ahead, State.Shaped;
    var items := DomainWaiting(reg, s, domain, d);
    var i :| 0 <= i < |items| && items[i] == x;
    p, q := items[..i], items[i + 1..];
    assert items == p + ([x] + q);
    forall y | y in p ensures Ahead(reg, s, y, x) {
      var k :| 0 <= k < i && items[k] == y;
      assert Leads(items, y, x);
      QueueLeads(reg, s, domain, d, y, x);
    }
    forall y | y in q ensures Ahead(reg, s, x, y) {
      var k :| 0 <= k < |q| && q[k] == y;
      assert items[i + 1 + k] == y;
      assert Leads(items, x, y);
      QueueLeads(reg, s, domain, d, x, y);
    }
  }

  lemma OnlyBehind(reg: Registry, s: State, domain: DomainId, d: Direction, x: Reservation, y: Reservation)
    requires Core(reg, s) && NextToGo(reg, s, domain, d, x) && WaitsIn(reg, s, domain, d, y) && Ahead(reg, s, y, x)
    ensures y.block in reg.blocks && y.destination in reg.bays && !Available(reg, s, y)
  {
    hide Available, GrantsHeld, QueuesDistinct, WithinCapacity, OneDirection, GrantsShaped, Registry.WellFormed, Ahead;
    assert y.direction == d && x.direction == d;
    AheadAsym(reg, s, y, x);
  }

  lemma ServesNext(reg: Registry, s: State, domain: DomainId, d: Direction, x: Reservation)
    requires Core(reg, s) && domain in s.domains && s.domains[domain] == Domain(Some(d), false)
    requires NextToGo(reg, s, domain, d, x)
    ensures Granted(Serve(reg, s, domain, d).state.grants, x)
  {
    hide GrantPass, Serve, DomainWaiting, Available, GrantsHeld, QueuesDistinct, WithinCapacity, OneDirection, GrantsShaped,
      QueuesShaped, Registry.WellFormed, Ahead, Moved, Pending;
    ServePasses(reg, s, domain, d);
    var p, q := SplitAt(reg, s, domain, d, x);
    forall y | y in p ensures y.block in reg.blocks && y.destination in reg.bays && !Available(reg, s, y) {
      assert y in p + ([x] + q);
      OnlyBehind(reg, s, domain, d, x, y);
    }
    NothingToGrant(reg, s, p, d);
    PassInTurn(reg, s, domain, p, x, q, d);
  }

  lemma ServesInTurn(reg: Registry, s: State, domain: DomainId, d: Direction, x: Reservation) returns (u: State)
    requires Core(reg, s) && domain in s.domains && s.domains[domain] == Domain(Some(d), false)
    requires WaitsIn(reg, s, domain, d, x) && Serve(reg, s, domain, d).ok
    ensures TurnOf(reg, s, u, Serve(reg, s, domain, d).state, domain, x)
    ensures Granted(Serve(reg, s, domain, d).state.grants, x) <==> Available(reg, u, x)
  {
    hide GrantPass, Serve, DomainWaiting, Available, GrantsHeld, QueuesDistinct, WithinCapacity, OneDirection, GrantsShaped,
      QueuesShaped, Registry.WellFormed, Ahead, BlocksMoved, QueuesMoved, GrantsMoved, BaysMoved, Pending;
    ServePasses(reg, s, domain, d);
    var p, q := SplitAt(reg, s, domain, d, x);
    var items := p + ([x] + q);
    assert forall y :: y in p ==> y in items;
    assert forall y :: y in [x] + q ==> y in items;
    PassSplits(reg, s, p, [x] + q, d);
    PassInTurn(reg, s, domain, p, x, q, d);
    u := GrantPass(reg, s, p, d).state;
    var t := Serve(reg, s, domain, d).state;
    MovedThenDomains(reg, u, GrantPass(reg, s, items, d).state, t, domain);
  }

  // ----- Reconciling a domain ---------------------------------------------------------------------

  /** Reconciling the healthy domain serves direction `d`: it is working that way with an
      open batch, or it is idle and takes up that direction. */
  ghost predicate TakesUp(reg: Registry, s: State, domain: DomainId, d: Direction)
    requires s.Shaped(reg) && domain in s.domains
  {
    && !Faulted(reg, s.blocks, domain)
    && (if Busy(reg, s.blocks, domain) then s.domains[domain] == Domain(Some(d), false)
        else var t := Reconcile(reg, s, domain).state; domain in t.domains && t.domains[domain].active == Some(d))
  }

  lemma ReconcileServes(reg: Registry, s: State, domain: DomainId, d: Direction)
    requires Core(reg, s) && domain in s.domains && TakesUp(reg, s, domain, d)
    ensures var p := s.(domains := s.domains[domain := Domain(Some(d), false)]);
            Core(reg, p) && Reconcile(reg, s, domain) == Serve(reg, p, domain, d)
  {
    hide GrantsHeld, QueuesDistinct, WithinCapacity, OneDirection, QueuesShaped, GrantsShaped, Registry.WellFormed,
      Faulted, Busy, Choose, Serve;
    var p := s.(domains := s.domains[domain := Domain(Some(d), false)]);
    PrepareShape(reg, s, domain);
    PrepareKeepsCore(reg, s, domain);
    if Busy(reg, s.blocks, domain) {
      assert s.domains[domain := s.domains[domain]] == s.domains;
    } else {
      var c := Choose(reg, s, domain);
      assert c.Some?;
      ServePasses(reg, Prepare(reg, s, domain), domain, c.value);
    }
  }

  /** Of the requests of the served direction that can go, over all blocks of the domain, the
      one ahead of all others is admitted. */
  lemma NextIsServed(reg: Registry, s: State, domain: DomainId, d: Direction, x: Reservation)
    requires Core(reg, s) && domain in s.domains && TakesUp(reg, s, domain, d) && NextToGo(reg, s, domain, d, x)
    ensures Granted(Reconcile(reg, s, domain).state.grants, x)
  {
    var p := s.(domains := s.domains[domain := Domain(Some(d), false)]);
    hide GrantsHeld, QueuesDistinct, WithinCapacity, OneDirection, QueuesShaped, GrantsShaped, Registry.WellFormed,
      TakesUp, Serve, Reconcile, Ahead, CanGo;
    ReconcileServes(reg, s, domain, d);
    SameService(reg, s, p, domain, d);
    ServesNext(reg, p, domain, d, x);
  }

  /** A request is admitted exactly if it is available when its turn comes: after every
      request admitted before it that is ahead of it, and before everything that is not. */
  lemma ServedExactly(reg: Registry, s: State, domain: DomainId, d: Direction, x: Reservation)
    requires Core(reg, s) && domain in s.domains && TakesUp(reg, s, domain, d)
    requires WaitsIn(reg, s, domain, d, x) && Reconcile(reg, s, domain).ok
    ensures var t := Reconcile(reg, s, domain).state;
            exists u :: TurnOf(reg, s, u, t, domain, x) && (Granted(t.grants, x) <==> Available(reg, u, x))
  {
    var p := s.(domains := s.domains[domain := Domain(Some(d), false)]);
    hide GrantsHeld, QueuesDistinct, WithinCapacity, OneDirection, QueuesShaped, GrantsShaped, Registry.WellFormed,
      TakesUp, Serve, Reconcile, Ahead, CanGo, BlocksMoved, QueuesMoved, GrantsMoved, BaysMoved, Available;
    ReconcileServes(reg, s, domain, d);
    SameService(reg, s, p, domain, d);
    var u := ServesInTurn(reg, p, domain, d, x);
  }

  // ----- Direction and batch ------------------------------------------------------------------------

  /** Somebody waiting in direction `d` asked before everybody who waits the other way; at
      the same time A_TO_B goes first. */
  ghost predicate AskedFirst(reg: Registry, s: State, domain: DomainId, d: Direction)
    requires s.Keyed(reg)
  {
    exists x :: WaitsIn(reg, s, domain, d, x) && forall y :: WaitsIn(reg, s, domain, d.Opposite(), y) ==>
      x.time < y.time || (x.time == y.time && d == AToB)
  }

  /** An idle domain should turn to `d`: somebody can go that way and, if the other way is
      possible too, its closed batch went the other way or, without a closed batch, the
      first to ask wants to go this way. */
  ghost predicate TurnsTo(reg: Registry, s: State, domain: DomainId, d: Direction)
    requires s.Shaped(reg) && domain in s.domains
  {
    && !NoneAvailable(reg, s, domain, d)
    && (NoneAvailable(reg, s, domain, d.Opposite())
        || (var was := s.domains[domain];
            if was.closed && was.active.Some? then was.active == Some(d.Opposite()) else AskedFirst(reg, s, domain, d)))
  }

  lemma HeadIsFirst(reg: Registry, s: State, domain: DomainId, d: Direction)
    requires Core(reg, s) && !NoneAvailable(reg, s, domain, d)
    ensures var q := DomainWaiting(reg, s, domain, d);
            && q != [] && WaitsIn(reg, s, domain, d, q[0])
            && forall x :: WaitsIn(reg, s, domain, d, x) ==> q[0].time <= x.time
  {
    hide GrantsHeld, QueuesDistinct, WithinCapacity, OneDirection, Available;
    DomainPending(reg, s, domain, d);
    CollectedItems(reg, s, domain);
    SortIsStable(Collect(reg, s, domain, d, reg.blockOrder), 0);
    var q := DomainWaiting(reg, s, domain, d);
    hide QueuesShaped, GrantsShaped, Registry.WellFormed, DomainWaiting;
    var b, x :| reg.InDomain(b, domain) && x in s.waiting[b].Of(d);
    assert x in q;
    forall y | WaitsIn(reg, s, domain, d, y) ensures q[0].time <= y.time {
      assert y in q;
    }
  }

  lemma AvailableWaits(reg: Registry, s: State, domain: DomainId, d: Direction)
    requires Core(reg, s)
    ensures forall x :: x in DomainWaiting(reg, s, domain, d) ==> x.block in reg.blocks && x.destination in reg.bays
    ensures SomeAvailable(reg, s, DomainWaiting(reg, s, domain, d)) <==> !NoneAvailable(reg, s, domain, d)
  {
    hide GrantsHeld, QueuesDistinct, WithinCapacity, OneDirection, Available;
    DomainPending(reg, s, domain, d);
    CollectedItems(reg, s, domain);
    hide GrantsShaped, Registry.WellFormed, DomainWaiting;
  }

  lemma HeadDecides(reg: Registry, s: State, domain: DomainId, d: Direction)
    requires Core(reg, s) && !NoneAvailable(reg, s, domain, AToB) && !NoneAvailable(reg, s, domain, BToA)
    ensures var ab, ba := DomainWaiting(reg, s, domain, AToB), DomainWaiting(reg, s, domain, BToA);
            && ab != [] && ba != []
            && (AskedFirst(reg, s, domain, d) <==> (d == if ab[0].time <= ba[0].time then AToB else BToA))
  {
    hide QueuesShaped, GrantsShaped, Registry.WellFormed, GrantsHeld, QueuesDistinct, WithinCapacity, OneDirection,
      NoneAvailable, WaitsIn, DomainWaiting;
    HeadIsFirst(reg, s, domain, AToB);
    HeadIsFirst(reg, s, domain, BToA);
    if AskedFirst(reg, s, domain, d) {
      var x :| WaitsIn(reg, s, domain, d, x) && forall y :: WaitsIn(reg, s, domain, d.Opposite(), y) ==>
        x.time < y.time || (x.time == y.time && d == AToB);
    }
  }

  lemma ChoosesExactly(reg: Registry, s: State, domain: DomainId, d: Direction)
    requires Core(reg, s) && domain in s.domains
    ensures Choose(reg, s, domain) == Some(d) <==> TurnsTo(reg, s, domain, d)
  {
    hide DomainWaiting, NoneAvailable, WaitsIn, SomeAvailable, AskedFirst, State.Shaped, GrantsHeld, QueuesDistinct,
      WithinCapacity, OneDirection;
    AvailableWaits(reg, s, domain, AToB);
    AvailableWaits(reg, s, domain, BToA);
    CollectedItems(reg, s, domain);
    assert d == AToB || d == BToA;
    if !NoneAvailable(reg, s, domain, AToB) && !NoneAvailable(reg, s, domain, BToA) {
      HeadDecides(reg, s, domain, AToB);
      HeadDecides(reg, s, domain, BToA);
      var active := s.domains[domain].active;
      assert active.Some? ==> active.value == AToB || active.value == BToA;
    }
  }

  /** An idle domain takes up exactly the direction it should turn to. */
  lemma TurnsExactly(reg: Registry, s: State, domain: DomainId, d: Direction)
    requires Core(reg, s) && domain in s.domains && !Faulted(reg, s.blocks, domain) && !Busy(reg, s.blocks, domain)
    ensures var t := Reconcile(reg, s, domain).state;
            domain in t.domains && (t.domains[domain].active == Some(d) <==> TurnsTo(reg, s, domain, d))
  {
    hide GrantsHeld, QueuesDistinct, WithinCapacity, OneDirection, QueuesShaped, GrantsShaped, Registry.WellFormed,
      Faulted, Busy, Choose, Serve, TurnsTo;
    ReconcileShape(reg, s, domain);
    PrepareShape(reg, s, domain);
    PrepareKeepsCore(reg, s, domain);
    ChoosesExactly(reg, s, domain, d);
    var c := Choose(reg, s, domain);
    if c.Some? {
      ServePasses(reg, Prepare(reg, s, domain), domain, c.value);
    }
  }

  /** After a reconciliation the batch is closed exactly if somebody waits the other way or
      it was closed before and the domain has been working since. */
  lemma BatchClosedExactly(reg: Registry, s: State, domain: DomainId, d: Direction)
    requires Core(reg, s) && domain in s.domains && !Faulted(reg, s.blocks, domain) && Reconcile(reg, s, domain).ok
    requires var t := Reconcile(reg, s, domain).state; domain in t.domains && t.domains[domain].active == Some(d)
    ensures var t := Reconcile(reg, s, domain).state;
            && t.Shaped(reg)
            && (t.domains[domain].closed <==>
                HasWaiting(reg, t, domain, d.Opposite()) || (s.domains[domain].closed && Busy(reg, s.blocks, domain)))
  {
    hide GrantsHeld, QueuesDistinct, WithinCapacity, OneDirection, QueuesShaped, GrantsShaped, Registry.WellFormed,
      Faulted, Busy, Choose, HasWaiting, CloseIfOpposed, GrantPass, Available, DomainWaiting, BlocksMoved, QueuesMoved, BaysMoved,
      GrantsMoved, Pending;
    PrepareShape(reg, s, domain);
    PrepareKeepsCore(reg, s, domain);
    var p := Prepare(reg, s, domain);
    var c := p.domains[domain].active;
    if c.Some? {
      CollectedItems(reg, p, domain);
      DomainPending(reg, p, domain, c.value);
      var items := RoundItems(reg, p, domain, c.value);
      PassMoves(reg, p, domain, items, c.value);
      var u := GrantPass(reg, p, items, c.value).state;
      CloseReason(reg, u, domain, c.value);
      SameWaiting(reg, u, CloseIfOpposed(reg, u, domain, c.value), domain);
    }
  }

  // ----- Resources and arrivals ---------------------------------------------------------------------

  /** A request of a newcomer is available exactly if admitting it keeps the rules: a healthy
      block used one way and within its capacity, and a bay within its capacity. */
  lemma AvailableExactly(reg: Registry, s: State, x: Reservation)
    requires s.Keyed(reg) && x.block in reg.blocks && x.destination in reg.bays
    requires x.robot !in s.blocks[x.block].occupants && x.robot !in s.blocks[x.block].reservations
    ensures var block, bay := Grant(s, x).blocks[x.block], Grant(s, x).bays[x.destination];
            Available(reg, s, x) <==>
            && !block.faulted && block.OneWay(x.direction)
            && |block.occupants.Keys| + |block.reservations.Keys| <= reg.blocks[x.block].capacity
            && |bay.Used()| <= reg.bays[x.destination].capacity
  {
    var was, block, bay := s.blocks[x.block], Grant(s, x).blocks[x.block], Grant(s, x).bays[x.destination];
    assert block.reservations.Keys == was.reservations.Keys + {x.robot};
    assert bay.Used() == (s.bays[x.destination].Used() - {x.robot}) + {x.robot};
    forall r | r in was.reservations ensures r in block.reservations && block.reservations[r] == was.reservations[r] {
    }
  }

  // ----- Queues are first in, first out ----------------------------------------------------------------

  /** Whoever is behind somebody in a queue of `t` was behind them in `s`. */
  ghost predicate SameOrder(s: map<BlockId, Queues>, t: map<BlockId, Queues>) {
    forall b, d, x, y :: b in s && b in t && Leads(t[b].Of(d), x, y) ==> Leads(s[b].Of(d), x, y)
  }

  lemma {:induction false} RemovalLeads(q: seq<Reservation>, z: Reservation, x: Reservation, y: Reservation)
    requires Leads(RemoveFirst(q, z), x, y)
    ensures Leads(q, x, y)
  {
    if q != [] {
      assert q == [q[0]] + q[1..];
      LeadsCons(q[0], q[1..], x, y);
      if q[0] != z {
        LeadsCons(q[0], RemoveFirst(q[1..], z), x, y);
        RemainingItems(q[1..], z);
        if Leads(RemoveFirst(q[1..], z), x, y) {
          RemovalLeads(q[1..], z, x, y);
        }
      }
    }
  }

  lemma {:induction false} WithdrawalLeads(q: seq<Reservation>, r: RobotId, x: Reservation, y: Reservation)
    requires Leads(WithoutRobot(q, r), x, y)
    ensures Leads(q, x, y)
  {
    if q != [] {
      assert q == [q[0]] + q[1..];
      LeadsCons(q[0], q[1..], x, y);
      WithoutRobotItems(q[1..], r);
      if q[0].robot != r {
        LeadsCons(q[0], WithoutRobot(q[1..], r), x, y);
      }
      if Leads(WithoutRobot(q[1..], r), x, y) {
        WithdrawalLeads(q[1..], r, x, y);
      }
    }
  }

  lemma AdmitOrder(reg: Registry, s: State, z: Reservation, d: Direction)
    requires s.Keyed(reg) && z.block in reg.blocks && z.destination in reg.bays
    ensures SameOrder(s.waiting, Grant(Dequeue(s, z, d), z).waiting)
  {
    var t := Grant(Dequeue(s, z, d), z);
    hide Leads, RemoveFirst;
    forall b, e, x, y | b in s.waiting && b in t.waiting && Leads(t.waiting[b].Of(e), x, y)
      ensures Leads(s.waiting[b].Of(e), x, y)
    {
      if b == z.block && e == d {
        RemovalLeads(s.waiting[b].Of(e), z, x, y);
      }
    }
  }

  lemma SameOrderTransitive(s: map<BlockId, Queues>, t: map<BlockId, Queues>, u: map<BlockId, Queues>)
    requires SameOrder(s, t) && SameOrder(t, u) && forall b :: b in s ==> b in t
    ensures SameOrder(s, u)
  {
    hide Leads;
  }

  lemma {:induction false} PassOrder(reg: Registry, s: State, items: seq<Reservation>, d: Direction)
    requires s.Keyed(reg) && forall x :: x in items ==> x.block in reg.blocks && x.destination in reg.bays
    ensures var t := GrantPass(reg, s, items, d).state; t.Keyed(reg) && SameOrder(s.waiting, t.waiting)
    decreases |items|
  {
    hide Available, ChecksPass, Grant, SameOrder;
    if items == [] {
      SameOrderReflexive(s.waiting);
    } else {
      assert items[0] in items;
      AdmitGrants(reg, s, items[0], d);
      if !Available(reg, s, items[0]) {
        PassOrder(reg, s, items[1..], d);
      } else {
        var t := Grant(Dequeue(s, items[0], d), items[0]);
        AdmitOrder(reg, s, items[0], d);
        if ChecksPass(reg, t) {
          PassOrder(reg, t, items[1..], d);
          SameOrderTransitive(s.waiting, t.waiting, GrantPass(reg, t, items[1..], d).state.waiting);
        }
      }
    }
  }

  lemma SameOrderReflexive(s: map<BlockId, Queues>)
    ensures SameOrder(s, s)
  {
  }

  lemma ReconcileOrder(reg: Registry, s: State, domain: DomainId)
    requires s.Shaped(reg) && domain in s.domains
    ensures SameOrder(s.waiting, Reconcile(reg, s, domain).state.waiting)
  {
    hide SameOrder, Faulted, GrantPass, CloseIfOpposed, Prepare, QueuesShaped, GrantsShaped, Registry.WellFormed, DomainWaiting;
    SameOrderReflexive(s.waiting);
    PrepareShape(reg, s, domain);
    var p := Prepare(reg, s, domain);
    if p.domains[domain].active.Some? {
      var d := p.domains[domain].active.value;
      CollectedItems(reg, p, domain);
      var items := if p.domains[domain].closed then [] else DomainWaiting(reg, p, domain, d);
      PassOrder(reg, p, items, d);
      GrantPassShape(reg, p, items, d);
      CloseChanges(reg, GrantPass(reg, p, items, d).state, domain, d);
    }
  }

  lemma {:induction false} EachOrder(reg: Registry, s: State, order: seq<DomainId>)
    requires s.Shaped(reg) && forall d :: d in order ==> d in s.domains
    ensures SameOrder(s.waiting, ReconcileEach(reg, s, order).state.waiting)
    decreases |order|
  {
    hide SameOrder, Reconcile, QueuesShaped, GrantsShaped, Registry.WellFormed;
    if order == [] {
      SameOrderReflexive(s.waiting);
    } else {
      var first := Reconcile(reg, s, order[0]);
      ReconcileShape(reg, s, order[0]);
      ReconcileOrder(reg, s, order[0]);
      if first.ok {
        EachOrder(reg, first.state, order[1..]);
        SameOrderTransitive(s.waiting, first.state.waiting, ReconcileEach(reg, first.state, order[1..]).state.waiting);
      }
    }
  }

  lemma EnqueueOrder(s: State, z: Reservation, b: BlockId, d: Direction, x: Reservation, y: Reservation)
    requires z.block in s.waiting && b in s.waiting && Leads(Enqueue(s, z).waiting[b].Of(d), x, y)
    ensures Leads(s.waiting[b].Of(d), x, y) || (y == z && x in s.waiting[b].Of(d))
  {
    var q := s.waiting[b].Of(d);
    if b == z.block && d == z.direction && z.robot !in Robots(q) {
      LeadsConcat(q, [z], x, y);
    }
  }

  /** Nobody is queued twice, whoever asks. */
  lemma EnqueueOnce(s: State, z: Reservation)
    requires z.block in s.waiting && Unique(s.waiting[z.block].Of(z.direction))
    ensures Unique(Enqueue(s, z).waiting[z.block].Of(z.direction))
  {
    var q := s.waiting[z.block].Of(z.direction);
    if z.robot !in Robots(q) {
      forall i | 0 <= i < |q| ensures q[i].robot != z.robot {
        assert q[i] in q;
      }
      assert Enqueue(s, z).waiting[z.block].Of(z.direction) == q + [z];
    }
  }

  lemma WithdrawOrder(s: State, r: RobotId, targets: seq<BlockId>)
    ensures SameOrder(s.waiting, Withdraw(s, r, targets).waiting)
  {
    var t := Withdraw(s, r, targets);
    hide Leads, WithoutRobot, HoldsOneTo;
    forall b, d, x, y | b in s.waiting && b in t.waiting && Leads(t.waiting[b].Of(d), x, y)
      ensures Leads(s.waiting[b].Of(d), x, y)
    {
      if b in targets {
        WithdrawalLeads(s.waiting[b].Of(d), r, x, y);
      }
    }
  }

  lemma PreludeOrder(reg: Registry, s: State, e: Event, b: BlockId, d: Direction, x: Reservation, y: Reservation)
    requires Core(reg, s) && Feasible(reg, e) && b in s.waiting && b in Prelude(reg, s, e).waiting
    requires Leads(Prelude(reg, s, e).waiting[b].Of(d), x, y)
    ensures Leads(s.waiting[b].Of(d), x, y) || (e == Requested(y) && x in s.waiting[b].Of(d))
  {
    hide Leads, Enqueue, Withdraw, FirstOccupied, Available, GrantsHeld, QueuesDistinct, WithinCapacity, OneDirection,
      QueuesShaped, GrantsShaped, Registry.WellFormed, Queues.Has, Queues.Of;
    match e
    case Requested(z) =>
      if IsNewRequest(reg, s, z) {
        RequestOrder(reg, s, z, b, d, x, y);
      }
    case Cancelled(r, target, visit) => WithdrawOrder(s, r, Targets(reg, target));
    case FaultedAt(r, visit) => WithdrawOrder(s, r, reg.blockOrder);
    case WasReset(force) => EmptyOrder(reg, b, d, x, y);
    case _ =>
  }

  lemma EmptyOrder(reg: Registry, b: BlockId, d: Direction, x: Reservation, y: Reservation)
    ensures b in Initial(reg).waiting ==> !Leads(Initial(reg).waiting[b].Of(d), x, y)
  {
  }

  lemma RequestOrder(reg: Registry, s: State, z: Reservation, b: BlockId, d: Direction, x: Reservation, y: Reservation)
    requires s.Shaped(reg) && IsNewRequest(reg, s, z) && b in s.waiting && b in Prelude(reg, s, Requested(z)).waiting
    requires Leads(Prelude(reg, s, Requested(z)).waiting[b].Of(d), x, y)
    ensures Leads(s.waiting[b].Of(d), x, y) || (y == z && x in s.waiting[b].Of(d))
  {
    assert reg.blocks[z.block].domain in s.domains;
    hide Leads, Enqueue, Available, QueuesShaped, GrantsShaped, Registry.WellFormed, Queues.Has, Queues.Of;
    var v := CloseBatch(s, reg.blocks[z.block].domain);
    if AdmitsAtOnce(reg, s, z) {
      assert Prelude(reg, s, Requested(z)).waiting == s.waiting;
    } else if Prelude(reg, s, Requested(z)) == Enqueue(v, z) {
      EnqueueOrder(v, z, b, d, x, y);
    } else {
      EnqueueOrder(s, z, b, d, x, y);
    }
  }

  /** Queues are first in, first out: in no step does anybody get ahead of somebody they were
      not ahead of, except of a request that arrives in this very step. */
  lemma NobodyJumpsTheQueue(reg: Registry, s: State, e: Event, b: BlockId, d: Direction, x: Reservation, y: Reservation)
    requires Core(reg, s) && Feasible(reg, e) && b in reg.blocks
    requires b in Step(reg, s, e).state.waiting && Leads(Step(reg, s, e).state.waiting[b].Of(d), x, y)
    ensures Leads(s.waiting[b].Of(d), x, y) || (e == Requested(y) && x in s.waiting[b].Of(d))
  {
    hide Step, Prelude, Visited, ReconcileEach, Leads, GrantsHeld, QueuesDistinct, WithinCapacity, OneDirection,
      QueuesShaped, GrantsShaped, Registry.WellFormed;
    StepSplits(reg, s, e);
    PreludeKeepsCore(reg, s, e);
    var u := Prelude(reg, s, e);
    EachOrder(reg, u, Visited(reg, s, e));
    PreludeOrder(reg, s, e, b, d, x, y);
  }
}
