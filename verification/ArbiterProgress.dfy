/** What reconciliation does: it only ever turns waiting requests into grants,
    it never loses one, and it leaves nothing grantable behind. */
module ArbiterProgress {
  import opened Models
  import opened ArbiterSpec
  import opened ArbiterSafety

  ghost predicate Granted(grants: map<Key, Reservation>, x: Reservation) {
    Key(x.robot, x.block) in grants && grants[Key(x.robot, x.block)] == x
  }

  // ----- Movement from queues to grants -------------------------------------------------

  /** From `s` to `t`, some requests waiting in the domains `ds` were admitted and
      nothing else happened: nobody entered, left or was faulted, no grant or bay
      place was given up, and every request is still waiting or is now granted. */
  ghost predicate Moved(reg: Registry, s: State, t: State, ds: set<DomainId>)
    requires s.Keyed(reg) && t.Keyed(reg)
  {
    && BlocksMoved(reg, s.blocks, t.blocks, ds)
    && QueuesMoved(reg, s.waiting, t.waiting, t.grants, ds)
    && BaysMoved(s.bays, t.bays)
    && GrantsMoved(s.waiting, s.grants, t.grants)
    && (forall d :: d in s.domains <==> d in t.domains)
    && (forall d :: d in s.domains && d !in ds ==> t.domains[d] == s.domains[d])
  }

  ghost predicate BlocksMoved(
    reg: Registry, s: map<BlockId, Block>, t: map<BlockId, Block>, ds: set<DomainId>)
    requires forall b :: b in s ==> b in t && b in reg.blocks
  {
    && (forall b :: b in s ==> t[b].occupants == s[b].occupants && t[b].faulted == s[b].faulted)
    && (forall b, r :: b in s && r in s[b].reservations ==>
        r in t[b].reservations && t[b].reservations[r] == s[b].reservations[r])
    && (forall b :: b in s && reg.blocks[b].domain !in ds ==> t[b] == s[b])
  }

  ghost predicate QueuesMoved(
    reg: Registry, s: map<BlockId, Queues>, t: map<BlockId, Queues>, grants: map<Key, Reservation>,
    ds: set<DomainId>)
    requires forall b :: b in s ==> b in t && b in reg.blocks
  {
    && (forall b, d, x :: b in s && x in t[b].Of(d) ==> x in s[b].Of(d))
    && (forall b, d, x :: b in s && x in s[b].Of(d) ==> x in t[b].Of(d) || Granted(grants, x))
    && (forall b :: b in s && reg.blocks[b].domain !in ds ==> t[b] == s[b])
  }

  ghost predicate BaysMoved(s: map<BayId, Bay>, t: map<BayId, Bay>) {
    forall h :: h in s && h in t ==>
      t[h].occupants == s[h].occupants && s[h].reservations <= t[h].reservations
  }

  ghost predicate GrantsMoved(
    waiting: map<BlockId, Queues>, s: map<Key, Reservation>, t: map<Key, Reservation>)
  {
    && (forall k :: k in s ==> k in t && t[k] == s[k])
    && (forall k :: k in t && k !in s ==>
        k.block in waiting && t[k] in waiting[k.block].Of(t[k].direction))
  }

  lemma QueuesMovedTransitive(
    reg: Registry, s: map<BlockId, Queues>, t: map<BlockId, Queues>, u: map<BlockId, Queues>,
    g: map<Key, Reservation>, h: map<Key, Reservation>, ds: set<DomainId>, es: set<DomainId>)
    requires forall b :: b in s ==> b in t && b in reg.blocks
    requires forall b :: b in t ==> b in u && b in reg.blocks
    requires QueuesMoved(reg, s, t, g, ds) && QueuesMoved(reg, t, u, h, es)
    requires forall k :: k in g ==> k in h && h[k] == g[k]
    ensures QueuesMoved(reg, s, u, h, ds + es)
  {
    forall b, d, x | b in s && x in s[b].Of(d)
      ensures x in u[b].Of(d) || Granted(h, x)
    {
      assert x in t[b].Of(d) || Granted(g, x);
    }
    forall b, d, x | b in s && x in u[b].Of(d)
      ensures x in s[b].Of(d)
    {
      assert x in t[b].Of(d);
    }
  }

  lemma BlocksMovedTransitive(
    reg: Registry, s: map<BlockId, Block>, t: map<BlockId, Block>, u: map<BlockId, Block>,
    ds: set<DomainId>, es: set<DomainId>)
    requires forall b :: b in s ==> b in t && b in reg.blocks
    requires forall b :: b in t ==> b in u && b in reg.blocks
    requires BlocksMoved(reg, s, t, ds) && BlocksMoved(reg, t, u, es)
    ensures BlocksMoved(reg, s, u, ds + es)
  {
  }

  lemma GrantsMovedTransitive(
    reg: Registry, s: State, t: State, u: State, ds: set<DomainId>)
    requires s.Keyed(reg) && t.Keyed(reg) && u.Keyed(reg)
    requires QueuesMoved(reg, s.waiting, t.waiting, t.grants, ds)
    requires GrantsMoved(s.waiting, s.grants, t.grants) && GrantsMoved(t.waiting, t.grants, u.grants)
    ensures GrantsMoved(s.waiting, s.grants, u.grants)
  {
  }

  lemma MovedTransitive(reg: Registry, s: State, t: State, u: State, ds: set<DomainId>, es: set<DomainId>)
    requires s.Keyed(reg) && t.Keyed(reg) && u.Keyed(reg)
    requires Moved(reg, s, t, ds) && Moved(reg, t, u, es)
    ensures Moved(reg, s, u, ds + es)
  {
    GrantsMovedTransitive(reg, s, t, u, ds);
    QueuesMovedTransitive(reg, s.waiting, t.waiting, u.waiting, t.grants, u.grants, ds, es);
    BlocksMovedTransitive(reg, s.blocks, t.blocks, u.blocks, ds, es);
    hide QueuesMoved, BlocksMoved, GrantsMoved;
  }

  lemma AdmitMovesQueues(reg: Registry, s: State, x: Reservation, d: Direction)
    requires s.Keyed(reg) && x.block in s.blocks && x.destination in s.bays && x.direction == d
    ensures var t := Grant(Dequeue(s, x, d), x);
            t.Keyed(reg) && QueuesMoved(reg, s.waiting, t.waiting, t.grants, {reg.blocks[x.block].domain})
  {
    RemainingItems(s.waiting[x.block].Of(d), x);
    var t := Grant(Dequeue(s, x, d), x);
    forall b, e, y | b in s.waiting && y in s.waiting[b].Of(e)
      ensures y in t.waiting[b].Of(e) || Granted(t.grants, y)
    {
      if b == x.block && e == d && y == x {
        assert Granted(t.grants, x);
      }
    }
  }

  lemma AdmitMoves(reg: Registry, s: State, x: Reservation, d: Direction)
    requires s.Keyed(reg) && x.block in s.blocks && x.destination in s.bays && x.direction == d
    requires x in s.waiting[x.block].Of(d)
    requires Key(x.robot, x.block) !in s.grants && x.robot !in s.blocks[x.block].reservations
    ensures var t := Grant(Dequeue(s, x, d), x);
            t.Keyed(reg) && Moved(reg, s, t, {reg.blocks[x.block].domain})
  {
    AdmitMovesQueues(reg, s, x, d);
    hide QueuesMoved, RemoveFirst;
  }

  // ----- A pass over a domain's queue -----------------------------------------------------

  ghost predicate DistinctKeys(q: seq<Reservation>) {
    forall i, j :: 0 <= i < j < |q| ==> Key(q[i].robot, q[i].block) != Key(q[j].robot, q[j].block)
  }

  lemma DistinctCons(x: Reservation, q: seq<Reservation>)
    requires DistinctKeys(q) && forall y :: y in q ==> Key(y.robot, y.block) != Key(x.robot, x.block)
    ensures DistinctKeys([x] + q)
  {
  }

  lemma InsertDistinct(x: Reservation, q: seq<Reservation>)
    requires DistinctKeys(q) && forall y :: y in q ==> Key(y.robot, y.block) != Key(x.robot, x.block)
    ensures DistinctKeys(InsertByTime(x, q))
  {
    if q == [] || x.time <= q[0].time {
      DistinctCons(x, q);
    } else {
      InsertDistinct(x, q[1..]);
      InsertedItems(x, q[1..]);
      assert forall i :: 0 <= i < |q[1..]| ==> q[1..][i] == q[i + 1];
      DistinctCons(q[0], InsertByTime(x, q[1..]));
    }
  }

  lemma SortDistinct(q: seq<Reservation>)
    requires DistinctKeys(q)
    ensures DistinctKeys(SortByTime(q))
  {
    if q != [] {
      SortDistinct(q[1..]);
      SortedItems(q[1..]);
      InsertDistinct(q[0], SortByTime(q[1..]));
    }
  }

  lemma CollectDistinct(reg: Registry, s: State, domain: DomainId, d: Direction, order: seq<BlockId>)
    requires QueuesShaped(reg, s.waiting) && forall b :: b in order ==> b in s.waiting
    requires forall b :: b in s.waiting ==> Unique(s.waiting[b].Of(d))
    requires forall i, j :: 0 <= i < j < |order| ==> order[i] != order[j]
    ensures DistinctKeys(Collect(reg, s, domain, d, order))
  {
    if order != [] {
      assert order[0] in order;
      var rest := Collect(reg, s, domain, d, order[1..]);
      CollectDistinct(reg, s, domain, d, order[1..]);
      CollectItems(reg, s, domain, d, order[1..]);
      assert forall y :: y in rest ==> y.block != order[0];
      var first := s.waiting[order[0]].Of(d);
      assert forall y :: y in first ==> y.block == order[0];
      assert forall i :: 0 <= i < |first| ==> first[i] in first;
      assert forall i :: 0 <= i < |rest| ==> rest[i] in rest;
    }
  }

  lemma WaitingDistinct(reg: Registry, s: State, domain: DomainId, d: Direction)
    requires s.Shaped(reg) && QueuesDistinct(s.waiting, s.blocks, s.grants)
    ensures DistinctKeys(DomainWaiting(reg, s, domain, d))
  {
    CollectDistinct(reg, s, domain, d, reg.blockOrder);
    SortDistinct(Collect(reg, s, domain, d, reg.blockOrder));
  }

  /** `items` is what is left to look at of the queue of a domain. */
  ghost predicate Pending(reg: Registry, s: State, domain: DomainId, items: seq<Reservation>, d: Direction)
    requires s.Keyed(reg)
  {
    && DistinctKeys(items)
    && forall x :: x in items ==>
         && reg.InDomain(x.block, domain) && x.destination in reg.bays
         && x in s.waiting[x.block].Of(d)
  }

  lemma PendingTail(reg: Registry, s: State, domain: DomainId, items: seq<Reservation>, d: Direction)
    requires s.Keyed(reg) && items != [] && Pending(reg, s, domain, items, d)
    ensures Pending(reg, s, domain, items[1..], d)
  {
  }

  lemma PendingAfterAdmit(reg: Registry, s: State, domain: DomainId, items: seq<Reservation>, d: Direction)
    requires s.Keyed(reg) && items != [] && Pending(reg, s, domain, items, d)
    ensures var t := Grant(Dequeue(s, items[0], d), items[0]);
            t.Keyed(reg) && Pending(reg, t, domain, items[1..], d)
  {
    var t := Grant(Dequeue(s, items[0], d), items[0]);
    assert t.Keyed(reg);
    forall x | x in items[1..] ensures x.block in t.waiting && x in t.waiting[x.block].Of(d) {
      RemainingItems(s.waiting[items[0].block].Of(d), items[0]);
      assert x in items && x != items[0];
    }
  }

  lemma MovedReflexive(reg: Registry, s: State, ds: set<DomainId>)
    requires s.Keyed(reg)
    ensures Moved(reg, s, s, ds)
  {
  }

  /** A pass keeps the core, moves requests only, and never touches the other queue. */
  lemma PassMoves(reg: Registry, s: State, domain: DomainId, items: seq<Reservation>, d: Direction)
    requires Core(reg, s) && domain in s.domains && s.domains[domain].active == Some(d)
    requires Pending(reg, s, domain, items, d)
    ensures var t := GrantPass(reg, s, items, d).state;
            && Core(reg, t) && t.domains == s.domains && Moved(reg, s, t, {domain})
            && forall b :: b in s.waiting ==> t.waiting[b].Of(d.Opposite()) == s.waiting[b].Of(d.Opposite())
    decreases |items|
  {
    hide Available, ChecksPass, BlocksMoved, QueuesMoved, BaysMoved, GrantsMoved, GrantsHeld, QueuesDistinct,
      WithinCapacity, OneDirection, QueuesShaped, GrantsShaped, Registry.WellFormed, DistinctKeys;
    if items == [] {
      MovedReflexive(reg, s, {domain});
    } else if !Available(reg, s, items[0]) {
      PendingTail(reg, s, domain, items, d);
      PassMoves(reg, s, domain, items[1..], d);
    } else {
      var x := items[0];
      var t := Grant(Dequeue(s, x, d), x);
      AdmitKeepsCore(reg, s, x, d);
      AdmitWaiting(reg, s, x, d);
      if ChecksPass(reg, t) {
        PendingAfterAdmit(reg, s, domain, items, d);
        PassMoves(reg, t, domain, items[1..], d);
        MovedTransitive(reg, s, t, GrantPass(reg, t, items[1..], d).state, {domain}, {domain});
        assert {domain} + {domain} == {domain};
      }
    }
  }

  lemma AdmitWaiting(reg: Registry, s: State, x: Reservation, d: Direction)
    requires Core(reg, s) && x.block in reg.blocks && x in s.waiting[x.block].Of(d) && x.destination in reg.bays
    ensures var t := Grant(Dequeue(s, x, d), x);
            && t.Keyed(reg) && Moved(reg, s, t, {reg.blocks[x.block].domain}) && t.domains == s.domains
            && forall b :: b in s.waiting ==> t.waiting[b].Of(d.Opposite()) == s.waiting[b].Of(d.Opposite())
  {
    DequeueDistinct(s, x, d);
    assert x.direction == d;
    AdmitMoves(reg, s, x, d);
    hide Moved;
  }

  // ----- Availability only shrinks ------------------------------------------------------------

  lemma SubsetSize<T>(a: set<T>, b: set<T>)
    requires a <= b
    ensures |a| <= |b|
  {
    if a != {} {
      var x :| x in a;
      SubsetSize(a - {x}, b - {x});
    }
  }

  /** Admitting others never makes a refused request grantable. */
  lemma UnavailableStays(reg: Registry, s: State, t: State, ds: set<DomainId>, x: Reservation)
    requires s.Keyed(reg) && t.Keyed(reg)
    requires BlocksMoved(reg, s.blocks, t.blocks, ds) && BaysMoved(s.bays, t.bays)
    requires x.block in reg.blocks && x.destination in reg.bays
    requires !Available(reg, s, x)
    ensures !Available(reg, t, x)
  {
    var a, b := s.blocks[x.block], t.blocks[x.block];
    forall r | r in a.reservations.Keys ensures r in b.reservations.Keys {
      assert r in s.blocks[x.block].reservations;
    }
    SubsetSize(a.reservations.Keys, b.reservations.Keys);
    var v, w := s.bays[x.destination], t.bays[x.destination];
    assert v.reservations <= w.reservations;
    SubsetSize(v.Used() - {x.robot}, w.Used() - {x.robot});
  }

  ghost predicate NoneAvailable(reg: Registry, s: State, domain: DomainId, d: Direction)
    requires s.Shaped(reg)
  {
    forall b, x :: reg.InDomain(b, domain) && x in s.waiting[b].Of(d) ==> !Available(reg, s, x)
  }

  lemma NoneAvailableStays(reg: Registry, s: State, t: State, ds: set<DomainId>, domain: DomainId, d: Direction)
    requires s.Shaped(reg) && t.Shaped(reg) && Moved(reg, s, t, ds)
    requires NoneAvailable(reg, s, domain, d)
    ensures NoneAvailable(reg, t, domain, d)
  {
    forall b, x | reg.InDomain(b, domain) && x in t.waiting[b].Of(d) ensures !Available(reg, t, x) {
      assert x in s.waiting[b].Of(d);
      UnavailableStays(reg, s, t, ds, x);
    }
  }

  /** After a pass nothing it looked at is both still waiting and grantable. */
  lemma PassExhausts(reg: Registry, s: State, domain: DomainId, items: seq<Reservation>, d: Direction)
    requires Core(reg, s) && domain in s.domains && s.domains[domain].active == Some(d)
    requires Pending(reg, s, domain, items, d)
    requires GrantPass(reg, s, items, d).ok
    ensures var t := GrantPass(reg, s, items, d).state;
            t.Keyed(reg) && forall x :: x in items && x in t.waiting[x.block].Of(d) ==> !Available(reg, t, x)
    decreases |items|
  {
    if items != [] {
      var x := items[0];
      var t := GrantPass(reg, s, items, d).state;
      PassMoves(reg, s, domain, items, d);
      assert x in items;
      hide Available, ChecksPass, BlocksMoved, BaysMoved, GrantsMoved, GrantsHeld, QueuesDistinct,
        WithinCapacity, OneDirection, QueuesShaped, GrantsShaped, Registry.WellFormed, DistinctKeys;
      if !Available(reg, s, x) {
        PendingTail(reg, s, domain, items, d);
        PassExhausts(reg, s, domain, items[1..], d);
        UnavailableStays(reg, s, t, {domain}, x);
      } else {
        var u := Grant(Dequeue(s, x, d), x);
        AdmitKeepsCore(reg, s, x, d);
        PendingAfterAdmit(reg, s, domain, items, d);
        PassExhausts(reg, u, domain, items[1..], d);
        PassMoves(reg, u, domain, items[1..], d);
        AdmittedLeavesQueue(reg, s, x, d);
        assert x !in u.waiting[x.block].Of(d);
      }
    }
  }

  lemma AdmittedLeavesQueue(reg: Registry, s: State, x: Reservation, d: Direction)
    requires Core(reg, s) && x.block in reg.blocks && x in s.waiting[x.block].Of(d) && x.destination in reg.bays
    ensures x !in Grant(Dequeue(s, x, d), x).waiting[x.block].Of(d)
  {
    DequeueDistinct(s, x, d);
  }

  lemma NonemptyGrows<K, V>(m: map<K, V>, n: map<K, V>)
    requires forall k :: k in m ==> k in n
    ensures m != map[] ==> n != map[]
  {
  }

  lemma BusyStays(reg: Registry, s: State, t: State, ds: set<DomainId>, domain: DomainId)
    requires s.Keyed(reg) && t.Keyed(reg) && Moved(reg, s, t, ds) && Busy(reg, s.blocks, domain)
    ensures Busy(reg, t.blocks, domain)
  {
    var b :| b in reg.blocks && reg.blocks[b].domain == domain && s.blocks[b].InUse();
    forall r | r in s.blocks[b].reservations ensures r in t.blocks[b].reservations {
    }
    NonemptyGrows(s.blocks[b].reservations, t.blocks[b].reservations);
  }

  /** A pass over a queue with a grantable request grants something. */
  lemma PassGrants(reg: Registry, s: State, domain: DomainId, items: seq<Reservation>, d: Direction, x: Reservation)
    requires Core(reg, s) && domain in s.domains && s.domains[domain].active == Some(d)
    requires Pending(reg, s, domain, items, d)
    requires x in items && Available(reg, s, x)
    ensures GrantPass(reg, s, items, d).state.Keyed(reg)
    ensures Busy(reg, GrantPass(reg, s, items, d).state.blocks, domain)
    decreases |items|
  {
    var y := items[0];
    assert y in items;
    hide Available, ChecksPass, Moved, GrantsHeld, QueuesDistinct,
      WithinCapacity, OneDirection, QueuesShaped, GrantsShaped, Registry.WellFormed, DistinctKeys;
    if !Available(reg, s, y) {
      PendingTail(reg, s, domain, items, d);
      PassGrants(reg, s, domain, items[1..], d, x);
    } else {
      var u := Grant(Dequeue(s, y, d), y);
      AdmitKeepsCore(reg, s, y, d);
      assert y.robot in u.blocks[y.block].reservations;
      assert Busy(reg, u.blocks, domain);
      if ChecksPass(reg, u) {
        PendingAfterAdmit(reg, s, domain, items, d);
        PassMoves(reg, u, domain, items[1..], d);
        BusyStays(reg, u, GrantPass(reg, u, items[1..], d).state, {domain}, domain);
      }
    }
  }

  lemma NothingToGrant(reg: Registry, s: State, items: seq<Reservation>, d: Direction)
    requires s.Keyed(reg)
    requires forall x :: x in items ==> x.block in reg.blocks && x.destination in reg.bays && !Available(reg, s, x)
    ensures GrantPass(reg, s, items, d) == Pass(s, true)
    decreases |items|
  {
  }

  // ----- Reconciling one domain -------------------------------------------------------------------

  /** Nothing is left to do for a healthy domain: it is working exactly when it has
      a direction; a closed batch has a reason to wait, and an open one, or an
      idle domain, has no grantable request; and a request the other way closes the batch. */
  ghost predicate Settled(reg: Registry, s: State, domain: DomainId)
    requires s.Shaped(reg) && domain in s.domains
  {
    match s.domains[domain].active
    case None =>
      && !Busy(reg, s.blocks, domain)
      && NoneAvailable(reg, s, domain, AToB) && NoneAvailable(reg, s, domain, BToA)
    case Some(d) =>
      && Busy(reg, s.blocks, domain)
      && (s.domains[domain].closed || NoneAvailable(reg, s, domain, d))
      && (HasWaiting(reg, s, domain, d.Opposite()) ==> s.domains[domain].closed)
  }

  ghost predicate HasWaiting(reg: Registry, s: State, domain: DomainId, d: Direction)
    requires s.Shaped(reg)
  {
    exists b, x :: reg.InDomain(b, domain) && x in s.waiting[b].Of(d)
  }

  lemma IdleHasNoGrants(reg: Registry, s: State, domain: DomainId)
    requires Core(reg, s) && !Busy(reg, s.blocks, domain)
    ensures forall k :: k in s.grants ==> reg.blocks[k.block].domain != domain
    ensures forall b :: reg.InDomain(b, domain) ==> s.blocks[b].occupants == map[] && s.blocks[b].reservations == map[]
  {
  }

  lemma UndirectedIsIdle(reg: Registry, s: State, domain: DomainId)
    requires Core(reg, s) && domain in s.domains
    requires s.domains[domain].active == None && !Faulted(reg, s.blocks, domain)
    ensures !Busy(reg, s.blocks, domain)
  {
    forall b | b in reg.blocks && reg.blocks[b].domain == domain ensures !s.blocks[b].InUse() {
      assert forall r :: r in s.blocks[b].reservations ==> Key(r, b) in s.grants;
      assert forall r :: r !in s.blocks[b].reservations;
      assert forall r :: r !in s.blocks[b].occupants;
    }
  }

  lemma PrepareKeepsCore(reg: Registry, s: State, domain: DomainId)
    requires Core(reg, s) && domain in s.domains
    ensures Core(reg, Prepare(reg, s, domain))
  {
    PrepareShape(reg, s, domain);
    var p := Prepare(reg, s, domain);
    assert s.Keyed(reg);
    hide Choose, Busy, Faulted, QueuesDistinct, WithinCapacity, GrantsHeld, State.Shaped;
    if !Busy(reg, s.blocks, domain) {
      IdleHasNoGrants(reg, s, domain);
    }
  }

  /** An idle domain that takes a direction has a grantable request that way, and one
      that takes none has no grantable request at all. */
  lemma ChosenCanGo(reg: Registry, s: State, domain: DomainId)
    requires s.Shaped(reg) && domain in s.domains
    ensures Choose(reg, s, domain) == None ==>
              NoneAvailable(reg, s, domain, AToB) && NoneAvailable(reg, s, domain, BToA)
    ensures var c := Choose(reg, s, domain);
            c.Some? ==> exists x :: x in DomainWaiting(reg, s, domain, c.value)
                                    && reg.InDomain(x.block, domain) && x.destination in reg.bays
                                    && Available(reg, s, x)
  {
    CollectedItems(reg, s, domain);
    hide Available, DomainWaiting, Registry.WellFormed, GrantsShaped;
  }

  /** Closing batches is invisible to the core. */
  lemma SameDirections(reg: Registry, s: State, t: State)
    requires Core(reg, s) && t == s.(domains := t.domains)
    requires forall e :: e in t.domains <==> e in s.domains
    requires forall e :: e in s.domains ==> t.domains[e].active == s.domains[e].active
    ensures Core(reg, t)
  {
  }

  lemma MovedThenDomains(reg: Registry, s: State, t: State, u: State, domain: DomainId)
    requires s.Keyed(reg) && t.Keyed(reg) && Moved(reg, s, t, {domain})
    requires u == t.(domains := u.domains)
    requires forall e :: e in u.domains <==> e in t.domains
    requires forall e :: e in t.domains && e != domain ==> u.domains[e] == t.domains[e]
    ensures u.Keyed(reg) && Moved(reg, s, u, {domain})
  {
  }

  lemma CloseReason(reg: Registry, s: State, domain: DomainId, d: Direction)
    requires Core(reg, s) && domain in s.domains && s.domains[domain].active == Some(d)
    ensures var t := CloseIfOpposed(reg, s, domain, d);
            && Core(reg, t) && t == s.(domains := t.domains)
            && (forall e :: e in t.domains <==> e in s.domains)
            && (forall e :: e in s.domains && e != domain ==> t.domains[e] == s.domains[e])
            && t.domains[domain].active == Some(d)
            && t.domains[domain].closed == (s.domains[domain].closed || HasWaiting(reg, s, domain, d.Opposite()))
  {
    CloseShape(reg, s, domain, d);
    CollectedItems(reg, s, domain);
    var q := DomainWaiting(reg, s, domain, d.Opposite());
    if q != [] {
      var x := q[0];
      assert x in q;
      assert reg.InDomain(x.block, domain) && x in s.waiting[x.block].Of(d.Opposite());
      assert HasWaiting(reg, s, domain, d.Opposite());
    }
    var t := CloseIfOpposed(reg, s, domain, d);
    SameDirections(reg, s, t);
    hide QueuesDistinct, GrantsHeld, WithinCapacity, OneDirection, SortByTime, Collect, State.Shaped;
  }

  lemma DomainPending(reg: Registry, s: State, domain: DomainId, d: Direction)
    requires Core(reg, s)
    ensures Pending(reg, s, domain, DomainWaiting(reg, s, domain, d), d)
    ensures Pending(reg, s, domain, [], d)
    ensures forall b, x :: reg.InDomain(b, domain) && x in s.waiting[b].Of(d) ==> x in DomainWaiting(reg, s, domain, d)
  {
    CollectedItems(reg, s, domain);
    WaitingDistinct(reg, s, domain, d);
    hide DomainWaiting;
  }

  /** The admissions of one round, before the batch may be closed. */
  lemma RoundSettles(reg: Registry, s: State, domain: DomainId, d: Direction)
    requires Core(reg, s) && domain in s.domains && s.domains[domain].active == Some(d)
    requires forall x :: x in RoundItems(reg, s, domain, d) ==> x.block in reg.blocks && x.destination in reg.bays
    requires Busy(reg, s.blocks, domain)
             || exists x :: x in RoundItems(reg, s, domain, d) && Available(reg, s, x)
    ensures var pass := GrantPass(reg, s, RoundItems(reg, s, domain, d), d);
            && Core(reg, pass.state) && Moved(reg, s, pass.state, {domain})
            && pass.state.domains == s.domains
            && Busy(reg, pass.state.blocks, domain)
            && (pass.ok ==> s.domains[domain].closed || NoneAvailable(reg, pass.state, domain, d))
  {
    DomainPending(reg, s, domain, d);
    var items := RoundItems(reg, s, domain, d);
    var pass := GrantPass(reg, s, items, d);
    hide GrantPass, Pending, DomainWaiting, Busy, Available, BlocksMoved, BaysMoved, GrantsMoved,
      GrantsHeld, QueuesDistinct, WithinCapacity, OneDirection, Registry.WellFormed;
    PassMoves(reg, s, domain, items, d);
    if Busy(reg, s.blocks, domain) {
      BusyStays(reg, s, pass.state, {domain}, domain);
    } else {
      var x :| x in items && Available(reg, s, x);
      PassGrants(reg, s, domain, items, d, x);
    }
    if pass.ok && !s.domains[domain].closed {
      PassExhausts(reg, s, domain, items, d);
      forall b, x | reg.InDomain(b, domain) && x in pass.state.waiting[b].Of(d)
        ensures !Available(reg, pass.state, x)
      {
        assert x in s.waiting[b].Of(d);
      }
    }
  }

  ghost function RoundItems(reg: Registry, s: State, domain: DomainId, d: Direction): seq<Reservation>
    requires s.Shaped(reg) && domain in s.domains
  {
    if s.domains[domain].closed then [] else DomainWaiting(reg, s, domain, d)
  }

  lemma ServeSettles(reg: Registry, s: State, domain: DomainId, d: Direction)
    requires Core(reg, s) && domain in s.domains && s.domains[domain].active == Some(d)
    requires forall x :: x in RoundItems(reg, s, domain, d) ==> x.block in reg.blocks && x.destination in reg.bays
    requires Busy(reg, s.blocks, domain)
             || exists x :: x in RoundItems(reg, s, domain, d) && Available(reg, s, x)
    ensures var pass := Serve(reg, s, domain, d);
            && Core(reg, pass.state) && Moved(reg, s, pass.state, {domain})
            && pass.state.domains[domain].active == Some(d)
            && (pass.ok ==> Settled(reg, pass.state, domain))
  {
    RoundSettles(reg, s, domain, d);
    var pass := GrantPass(reg, s, RoundItems(reg, s, domain, d), d);
    CloseReason(reg, pass.state, domain, d);
    if pass.ok {
      var t := CloseIfOpposed(reg, pass.state, domain, d);
      SameWaiting(reg, pass.state, t, domain);
      MovedThenDomains(reg, s, pass.state, t, domain);
    }
    hide GrantPass, Available, Moved, CloseIfOpposed, NoneAvailable, HasWaiting,
      GrantsHeld, QueuesDistinct, WithinCapacity, OneDirection, State.Shaped, Busy, DomainWaiting;
  }

  lemma SameWaiting(reg: Registry, s: State, t: State, domain: DomainId)
    requires s.Shaped(reg) && t.Shaped(reg) && t == s.(domains := t.domains)
    ensures forall d :: NoneAvailable(reg, s, domain, d) == NoneAvailable(reg, t, domain, d)
    ensures forall d :: HasWaiting(reg, s, domain, d) == HasWaiting(reg, t, domain, d)
  {
    assert forall x: Reservation :: x.block in reg.blocks && x.destination in reg.bays ==> Available(reg, s, x) == Available(reg, t, x);
  }

  /** Reconciling a domain keeps the core, only moves requests of that domain, and
      leaves the domain settled; a faulted domain is left alone. */
  lemma ReconcileSettles(reg: Registry, s: State, domain: DomainId)
    requires Core(reg, s) && domain in s.domains
    ensures var pass := Reconcile(reg, s, domain);
            && Core(reg, pass.state) && Moved(reg, s, pass.state, {domain})
            && (Faulted(reg, s.blocks, domain) ==> pass == Pass(s, true))
            && (!Faulted(reg, s.blocks, domain) && pass.ok ==> Settled(reg, pass.state, domain))
  {
    if Faulted(reg, s.blocks, domain) {
      MovedReflexive(reg, s, {domain});
    } else {
      PrepareShape(reg, s, domain);
      PrepareKeepsCore(reg, s, domain);
      PreparedMoves(reg, s, domain);
      PreparedCanGo(reg, s, domain);
      var p := Prepare(reg, s, domain);
      if p.domains[domain].active.Some? {
        var d := p.domains[domain].active.value;
        ServeSettles(reg, p, domain, d);
        MovedTransitive(reg, s, p, Serve(reg, p, domain, d).state, {domain}, {domain});
        assert {domain} + {domain} == {domain};
      }
    }
    hide Moved, Prepare, Serve, Core, Busy, NoneAvailable;
  }

  lemma PreparedMoves(reg: Registry, s: State, domain: DomainId)
    requires s.Shaped(reg) && domain in s.domains
    ensures var p := Prepare(reg, s, domain); p.Keyed(reg) && Moved(reg, s, p, {domain})
  {
    PrepareShape(reg, s, domain);
    MovedReflexive(reg, s, {domain});
    MovedThenDomains(reg, s, s, Prepare(reg, s, domain), domain);
  }

  /** A healthy domain that is ready to serve is working or has a grantable request;
      one that is not ready is settled. */
  lemma PreparedCanGo(reg: Registry, s: State, domain: DomainId)
    requires Core(reg, s) && domain in s.domains && !Faulted(reg, s.blocks, domain)
    ensures var p := Prepare(reg, s, domain);
            && p.Shaped(reg) && domain in p.domains
            && (p.domains[domain].active == None ==> Settled(reg, p, domain))
            && (p.domains[domain].active.Some? ==>
                var items := RoundItems(reg, p, domain, p.domains[domain].active.value);
                && (forall x :: x in items ==> x.block in reg.blocks && x.destination in reg.bays)
                && (Busy(reg, p.blocks, domain) || exists x :: x in items && Available(reg, p, x)))
  {
    PrepareShape(reg, s, domain);
    var p := Prepare(reg, s, domain);
    CollectedItems(reg, p, domain);
    SameWaiting(reg, s, p, domain);
    if Busy(reg, s.blocks, domain) {
      if s.domains[domain].active == None {
        UndirectedIsIdle(reg, s, domain);
        assert false;
      }
    } else {
      ChosenCanGo(reg, s, domain);
      var c := Choose(reg, s, domain);
      if c.Some? {
        var x :| x in DomainWaiting(reg, s, domain, c.value) && reg.InDomain(x.block, domain)
                 && x.destination in reg.bays && Available(reg, s, x);
        assert DomainWaiting(reg, p, domain, c.value) == DomainWaiting(reg, s, domain, c.value) by {
          SameQueue(reg, s, p, domain, c.value, reg.blockOrder);
        }
        assert x in RoundItems(reg, p, domain, c.value) && Available(reg, p, x);
      }
    }
  }

  lemma SameQueue(reg: Registry, s: State, t: State, domain: DomainId, d: Direction, order: seq<BlockId>)
    requires forall b :: b in order ==> b in s.waiting
    requires t.waiting == s.waiting
    ensures Collect(reg, s, domain, d, order) == Collect(reg, t, domain, d, order)
  {
  }

  /** Reconciling one domain does not unsettle another: what was refused stays refused. */
  lemma SettledStays(reg: Registry, s: State, t: State, ds: set<DomainId>, domain: DomainId)
    requires s.Shaped(reg) && t.Shaped(reg) && Moved(reg, s, t, ds)
    requires domain in s.domains && domain !in ds && Settled(reg, s, domain)
    ensures Settled(reg, t, domain)
  {
    SameBlocksInDomain(reg, s, t, ds, domain);
    assert t.domains[domain] == s.domains[domain];
    forall d | NoneAvailable(reg, s, domain, d) ensures NoneAvailable(reg, t, domain, d) {
      NoneAvailableStays(reg, s, t, ds, domain, d);
    }
    forall d | HasWaiting(reg, t, domain, d) ensures HasWaiting(reg, s, domain, d) {
      var b, x :| reg.InDomain(b, domain) && x in t.waiting[b].Of(d);
      assert x in s.waiting[b].Of(d);
    }
    hide Busy, NoneAvailable, HasWaiting, Moved;
  }

  lemma SameBlocksInDomain(reg: Registry, s: State, t: State, ds: set<DomainId>, domain: DomainId)
    requires s.Keyed(reg) && t.Keyed(reg) && Moved(reg, s, t, ds) && domain !in ds
    ensures Busy(reg, t.blocks, domain) == Busy(reg, s.blocks, domain)
  {
  }

  /** The faults of a domain are not changed by admissions. */
  lemma SameFaultsMoved(reg: Registry, s: State, t: State, ds: set<DomainId>)
    requires s.Keyed(reg) && t.Keyed(reg) && Moved(reg, s, t, ds)
    ensures forall d :: Faulted(reg, t.blocks, d) == Faulted(reg, s.blocks, d)
  {
  }

  ghost function HealthyOf(reg: Registry, blocks: map<BlockId, Block>, order: seq<DomainId>): set<DomainId>
    requires forall b :: b in reg.blocks ==> b in blocks
  {
    set d | d in order && !Faulted(reg, blocks, d)
  }

  lemma HealthySplit(reg: Registry, s: map<BlockId, Block>, t: map<BlockId, Block>, order: seq<DomainId>)
    requires forall b :: b in reg.blocks ==> b in s && b in t
    requires forall d :: Faulted(reg, s, d) == Faulted(reg, t, d)
    requires order != []
    ensures HealthyOf(reg, s, order) ==
              (if Faulted(reg, s, order[0]) then {} else {order[0]}) + HealthyOf(reg, t, order[1..])
  {
  }

  /** Only healthy domains are changed by a round of reconciliations. */
  lemma EachMoves(reg: Registry, s: State, order: seq<DomainId>)
    requires Core(reg, s) && forall d :: d in order ==> d in s.domains
    ensures var pass := ReconcileEach(reg, s, order);
            Core(reg, pass.state) && Moved(reg, s, pass.state, HealthyOf(reg, s.blocks, order))
    decreases |order|
  {
    if order == [] {
      MovedReflexive(reg, s, HealthyOf(reg, s.blocks, order));
    } else {
      var first := Reconcile(reg, s, order[0]);
      ReconcileMoves(reg, s, order[0]);
      var ds := if Faulted(reg, s.blocks, order[0]) then {} else {order[0]};
      SameFaultsMoved(reg, s, first.state, ds);
      assert forall d :: d in first.state.domains <==> d in s.domains;
      HealthySplit(reg, s.blocks, first.state.blocks, order);
      hide Reconcile, Faulted, HealthyOf, BlocksMoved, QueuesMoved, BaysMoved, GrantsMoved,
        GrantsHeld, QueuesDistinct, WithinCapacity, OneDirection, QueuesShaped, GrantsShaped, Registry.WellFormed;
      if first.ok {
        EachMoves(reg, first.state, order[1..]);
        MovedTransitive(reg, s, first.state, ReconcileEach(reg, first.state, order[1..]).state,
          ds, HealthyOf(reg, first.state.blocks, order[1..]));
      } else {
        MovedWiden(reg, s, first.state, ds, HealthyOf(reg, s.blocks, order));
      }
    }
  }

  lemma ReconcileMoves(reg: Registry, s: State, domain: DomainId)
    requires Core(reg, s) && domain in s.domains
    ensures var pass := Reconcile(reg, s, domain);
            && Core(reg, pass.state)
            && Moved(reg, s, pass.state, if Faulted(reg, s.blocks, domain) then {} else {domain})
  {
    ReconcileSettles(reg, s, domain);
    MovedReflexive(reg, s, {});
    hide Moved, Core, Settled, Reconcile;
  }

  /** Visiting domains one by one, in any order and with repetitions, settles every
      healthy domain that is visited and keeps every other settled domain settled. */
  lemma EachSettles(reg: Registry, s: State, order: seq<DomainId>, domain: DomainId)
    requires Core(reg, s) && forall d :: d in order ==> d in s.domains
    requires domain in s.domains && !Faulted(reg, s.blocks, domain)
    requires domain in order || Settled(reg, s, domain)
    requires ReconcileEach(reg, s, order).ok
    ensures var t := ReconcileEach(reg, s, order).state;
            t.Shaped(reg) && domain in t.domains && Settled(reg, t, domain)
    decreases |order|
  {
    if order != [] {
      var first := Reconcile(reg, s, order[0]);
      ReconcileSettles(reg, s, order[0]);
      SameFaultsMoved(reg, s, first.state, {order[0]});
      hide Reconcile, Faulted, Settled, BlocksMoved, QueuesMoved, BaysMoved, GrantsMoved,
        GrantsHeld, QueuesDistinct, WithinCapacity, OneDirection, QueuesShaped, GrantsShaped, Registry.WellFormed;
      if domain != order[0] && Settled(reg, s, domain) {
        SettledStays(reg, s, first.state, {order[0]}, domain);
      }
      assert forall d :: d in first.state.domains <==> d in s.domains;
      EachSettles(reg, first.state, order[1..], domain);
    }
  }

  lemma MovedWiden(reg: Registry, s: State, t: State, ds: set<DomainId>, es: set<DomainId>)
    requires s.Keyed(reg) && t.Keyed(reg) && Moved(reg, s, t, ds) && ds <= es
    ensures Moved(reg, s, t, es)
  {
  }

  /** A round of reconciliations is one up to any point, and one from there on. */
  lemma {:induction false} RoundSplits(reg: Registry, s: State, order: seq<DomainId>, i: nat)
    requires s.Shaped(reg) && (forall d :: d in order ==> d in s.domains) && i <= |order|
    ensures forall d :: d in order[..i] ==> d in s.domains
    ensures var before := ReconcileEach(reg, s, order[..i]);
            && before.state.Shaped(reg) && (forall d :: d in order[i..] ==> d in before.state.domains)
            && ReconcileEach(reg, s, order) == if before.ok then ReconcileEach(reg, before.state, order[i..]) else before
    decreases |order|
  {
    hide Reconcile, State.Shaped;
    assert forall d :: d in order[..i] ==> d in order;
    assert forall d :: d in order[i..] ==> d in order;
    ReconcileEachShape(reg, s, order[..i]);
    if i > 0 {
      ReconcileShape(reg, s, order[0]);
      assert order[..i][1..] == order[1..][..i - 1] && order[1..][i - 1..] == order[i..];
      if Reconcile(reg, s, order[0]).ok {
        RoundSplits(reg, Reconcile(reg, s, order[0]).state, order[1..], i - 1);
      }
    } else {
      assert order[..0] == [] && order[0..] == order;
    }
  }
}
