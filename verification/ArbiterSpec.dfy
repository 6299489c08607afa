/** The admission state machine on values: what every public operation of the
    direction arbiter does to its state and what it answers. The class in
    DirectionArbiter.dfy is proved to compute exactly these functions. */
module ArbiterSpec {
  import opened Models

  datatype Block = Block(
    occupants: map<RobotId, Direction>, reservations: map<RobotId, Reservation>, faulted: bool)
  {
    predicate InUse() {
      occupants != map[] || reservations != map[]
    }

    /** Every robot in the block, and every robot admitted to it, goes one way. */
    predicate OneWay(d: Direction) {
      && (forall r | r in occupants :: occupants[r] == d)
      && (forall r | r in reservations :: reservations[r].direction == d)
    }
  }

  datatype Bay = Bay(occupants: set<RobotId>, reservations: set<RobotId>) {
    function Used(): set<RobotId> {
      occupants + reservations
    }

    function Drop(r: RobotId): Bay {
      Bay(occupants - {r}, reservations - {r})
    }
  }

  datatype Domain = Domain(active: Option<Direction>, closed: bool)

  datatype Queues = Queues(aToB: seq<Reservation>, bToA: seq<Reservation>) {
    function Of(d: Direction): seq<Reservation> {
      if d == AToB then aToB else bToA
    }

    predicate Has(r: RobotId) {
      r in Robots(aToB) || r in Robots(bToA)
    }

    function With(d: Direction, q: seq<Reservation>): Queues {
      if d == AToB then this.(aToB := q) else this.(bToA := q)
    }
  }

  datatype Key = Key(robot: RobotId, block: BlockId)

  datatype State = State(
    domains: map<DomainId, Domain>,
    waiting: map<BlockId, Queues>,
    grants: map<Key, Reservation>,
    blocks: map<BlockId, Block>,
    bays: map<BayId, Bay>)
  {
    /** The dictionaries have the keys the registry gave them, and everything
        queued or granted names a configured block and bay. */
    ghost predicate Shaped(reg: Registry) {
      && reg.WellFormed()
      && Keyed(reg)
      && (forall d :: d in domains <==> d in reg.domainOrder)
      && QueuesShaped(reg, waiting)
      && GrantsShaped(reg, grants)
    }

    ghost predicate Keyed(reg: Registry) {
      && (forall b :: b in blocks <==> b in reg.blocks)
      && (forall b :: b in waiting <==> b in reg.blocks)
      && (forall h :: h in bays <==> h in reg.bays)
    }
  }

  ghost predicate QueuesShaped(reg: Registry, waiting: map<BlockId, Queues>) {
    forall b, d, x :: b in waiting && x in waiting[b].Of(d) ==>
      x.block == b && x.direction == d && x.destination in reg.bays
  }

  ghost predicate GrantsShaped(reg: Registry, grants: map<Key, Reservation>) {
    forall k :: k in grants ==>
      && k.block in reg.blocks && k == Key(grants[k].robot, grants[k].block)
      && grants[k].destination in reg.bays
  }

  datatype Reply = Done | Answer(decision: Decision) | Flag(value: bool) | Raised(error: Error)

  datatype Effect = Effect(state: State, reply: Reply) {
    predicate Ok() {
      !reply.Raised?
    }

    /** No runtime consistency check of the arbiter failed. */
    predicate Unchecked() {
      reply != Raised(AssertionError)
    }
  }

  // ----- Queues ---------------------------------------------------------------

  function Robots(q: seq<Reservation>): set<RobotId> {
    set x | x in q :: x.robot
  }

  function RemoveFirst(q: seq<Reservation>, x: Reservation): seq<Reservation> {
    if q == [] then []
    else if q[0] == x then q[1..]
    else [q[0]] + RemoveFirst(q[1..], x)
  }

  function WithoutRobot(q: seq<Reservation>, r: RobotId): seq<Reservation> {
    if q == [] then []
    else if q[0].robot == r then WithoutRobot(q[1..], r)
    else [q[0]] + WithoutRobot(q[1..], r)
  }

  /** Stable insertion: `x` was queued before everything in `q`. */
  function InsertByTime(x: Reservation, q: seq<Reservation>): seq<Reservation> {
    if q == [] || x.time <= q[0].time then [x] + q
    else [q[0]] + InsertByTime(x, q[1..])
  }

  function SortByTime(q: seq<Reservation>): seq<Reservation> {
    if q == [] then [] else InsertByTime(q[0], SortByTime(q[1..]))
  }

  function Collect(reg: Registry, s: State, domain: DomainId, d: Direction, order: seq<BlockId>): seq<Reservation>
    requires forall b :: b in order ==> b in s.waiting
  {
    if order == [] then []
    else (if reg.InDomain(order[0], domain) then s.waiting[order[0]].Of(d) else [])
         + Collect(reg, s, domain, d, order[1..])
  }

  /** The requests of one direction waiting in a domain, oldest first. */
  function DomainWaiting(reg: Registry, s: State, domain: DomainId, d: Direction): seq<Reservation>
    requires s.Shaped(reg)
  {
    SortByTime(Collect(reg, s, domain, d, reg.blockOrder))
  }

  predicate IsWaiting(s: State, r: RobotId, b: BlockId)
    requires b in s.waiting
  {
    s.waiting[b].Has(r)
  }

  function Enqueue(s: State, x: Reservation): State
    requires x.block in s.waiting
  {
    var q := s.waiting[x.block].Of(x.direction);
    if x.robot in Robots(q) then s
    else s.(waiting := s.waiting[x.block := s.waiting[x.block].With(x.direction, q + [x])])
  }

  function Dequeue(s: State, x: Reservation, d: Direction): State
    requires x.block in s.waiting
  {
    var q := RemoveFirst(s.waiting[x.block].Of(d), x);
    s.(waiting := s.waiting[x.block := s.waiting[x.block].With(d, q)])
  }

  // ----- Resources ------------------------------------------------------------

  /** The block has room, nobody is in it or admitted to it the other way, it is not
      faulted, and the destination bay has room for the robot. */
  predicate Available(reg: Registry, s: State, x: Reservation)
    requires x.block in reg.blocks && x.block in s.blocks
    requires x.destination in reg.bays && x.destination in s.bays
  {
    var block := s.blocks[x.block];
    && !block.faulted
    && |block.occupants.Keys| + |block.reservations.Keys| < reg.blocks[x.block].capacity
    && block.OneWay(x.direction)
    && |s.bays[x.destination].Used() - {x.robot}| < reg.bays[x.destination].capacity
  }

  function Grant(s: State, x: Reservation): State
    requires x.block in s.blocks && x.destination in s.bays
  {
    var block := s.blocks[x.block];
    var bay := s.bays[x.destination];
    s.(blocks := s.blocks[x.block := block.(reservations := block.reservations[x.robot := x])],
       bays := s.bays[x.destination := bay.(reservations := bay.reservations + {x.robot})],
       grants := s.grants[Key(x.robot, x.block) := x])
  }

  /** The arbiter's own runtime check: no block is used both ways and no bay is
      over its capacity. */
  predicate ChecksPass(reg: Registry, s: State)
    requires s.Keyed(reg)
  {
    && (forall b | b in s.blocks :: s.blocks[b].OneWay(AToB) || s.blocks[b].OneWay(BToA))
    && (forall h | h in s.bays :: |s.bays[h].Used()| <= reg.bays[h].capacity)
  }

  // ----- Reconciliation -------------------------------------------------------

  predicate Busy(reg: Registry, blocks: map<BlockId, Block>, domain: DomainId)
    requires forall b :: b in reg.blocks ==> b in blocks
  {
    exists b | b in reg.blocks :: reg.blocks[b].domain == domain && blocks[b].InUse()
  }

  predicate Faulted(reg: Registry, blocks: map<BlockId, Block>, domain: DomainId)
    requires forall b :: b in reg.blocks ==> b in blocks
  {
    exists b | b in reg.blocks :: reg.blocks[b].domain == domain && blocks[b].faulted
  }

  predicate SomeAvailable(reg: Registry, s: State, q: seq<Reservation>)
    requires s.Keyed(reg)
    requires forall x :: x in q ==> x.block in reg.blocks && x.destination in reg.bays
  {
    exists x | x in q :: Available(reg, s, x)
  }

  /** The direction an idle domain takes next: the other one if its batch was
      closed and the other one can go; otherwise the one with the oldest request
      among those that can go; none if nobody can go. */
  function Choose(reg: Registry, s: State, domain: DomainId): Option<Direction>
    requires s.Shaped(reg) && domain in s.domains
  {
    CollectedItems(reg, s, domain);
    var was := s.domains[domain];
    var ab, ba := DomainWaiting(reg, s, domain, AToB), DomainWaiting(reg, s, domain, BToA);
    var goAB, goBA := SomeAvailable(reg, s, ab), SomeAvailable(reg, s, ba);
    if !goAB && !goBA then None
    else if was.closed && was.active == Some(BToA) && goAB then Some(AToB)
    else if was.closed && was.active == Some(AToB) && goBA then Some(BToA)
    else if !goBA then Some(AToB)
    else if !goAB then Some(BToA)
    else if ab[0].time <= ba[0].time then Some(AToB)
    else Some(BToA)
  }

  /** The domain after an idle domain has picked its direction. */
  function Prepare(reg: Registry, s: State, domain: DomainId): State
    requires s.Shaped(reg) && domain in s.domains
  {
    if Busy(reg, s.blocks, domain) then s
    else
      var choice := Choose(reg, s, domain);
      var next := if choice == None then s.domains[domain].(active := None) else Domain(choice, false);
      s.(domains := s.domains[domain := next])
  }

  datatype Pass = Pass(state: State, ok: bool)

  /** Admit, oldest first, every request whose resources are still free. */
  function GrantPass(reg: Registry, s: State, items: seq<Reservation>, d: Direction): Pass
    requires s.Keyed(reg)
    requires forall x :: x in items ==> x.block in reg.blocks && x.destination in reg.bays
    decreases |items|
  {
    if items == [] then Pass(s, true)
    else if !Available(reg, s, items[0]) then GrantPass(reg, s, items[1..], d)
    else
      var t := Grant(Dequeue(s, items[0], d), items[0]);
      if ChecksPass(reg, t) then GrantPass(reg, t, items[1..], d) else Pass(t, false)
  }

  function CloseIfOpposed(reg: Registry, s: State, domain: DomainId, d: Direction): State
    requires s.Shaped(reg) && domain in s.domains
  {
    if SortByTime(Collect(reg, s, domain, d.Opposite(), reg.blockOrder)) == [] then s
    else s.(domains := s.domains[domain := s.domains[domain].(closed := true)])
  }

  /** One round of admissions for a domain that has an active direction: unless its
      batch is closed, and closing it as soon as somebody waits the other way. */
  function Serve(reg: Registry, s: State, domain: DomainId, d: Direction): Pass
    requires s.Shaped(reg) && domain in s.domains
  {
    CollectedItems(reg, s, domain);
    var items := if s.domains[domain].closed then [] else DomainWaiting(reg, s, domain, d);
    var pass := GrantPass(reg, s, items, d);
    GrantPassShape(reg, s, items, d);
    if pass.ok then Pass(CloseIfOpposed(reg, pass.state, domain, d), true) else pass
  }

  function Reconcile(reg: Registry, s: State, domain: DomainId): Pass
    requires s.Shaped(reg) && domain in s.domains
  {
    if Faulted(reg, s.blocks, domain) then Pass(s, true)
    else
      PrepareShape(reg, s, domain);
      var p := Prepare(reg, s, domain);
      if p.domains[domain].active == None then Pass(p, true)
      else Serve(reg, p, domain, p.domains[domain].active.value)
  }

  /** Reconcile the given domains one after the other; a failing check stops it. */
  function ReconcileEach(reg: Registry, s: State, order: seq<DomainId>): Pass
    requires s.Shaped(reg) && forall d :: d in order ==> d in s.domains
    decreases |order|
  {
    if order == [] then Pass(s, true)
    else
      var pass := Reconcile(reg, s, order[0]);
      ReconcileShape(reg, s, order[0]);
      if pass.ok then ReconcileEach(reg, pass.state, order[1..]) else pass
  }

  // ----- Facts the definitions above rely on -------------------------------------

  lemma InsertedItems(x: Reservation, q: seq<Reservation>)
    ensures forall y :: y in InsertByTime(x, q) <==> y == x || y in q
  {
  }

  lemma SortedItems(q: seq<Reservation>)
    ensures forall y :: y in SortByTime(q) <==> y in q
  {
    if q != [] {
      SortedItems(q[1..]);
      InsertedItems(q[0], SortByTime(q[1..]));
    }
  }

  ghost predicate InTimeOrder(q: seq<Reservation>) {
    forall i, j :: 0 <= i < j < |q| ==> q[i].time <= q[j].time
  }

  /** The requests made at the given time, in their order. */
  function MadeAt(q: seq<Reservation>, time: int): seq<Reservation> {
    if q == [] then []
    else (if q[0].time == time then [q[0]] else []) + MadeAt(q[1..], time)
  }

  lemma {:induction false} InsertInOrder(x: Reservation, q: seq<Reservation>)
    requires InTimeOrder(q)
    ensures InTimeOrder(InsertByTime(x, q))
  {
    if q != [] && x.time > q[0].time {
      var rest := InsertByTime(x, q[1..]);
      InsertInOrder(x, q[1..]);
      InsertedItems(x, q[1..]);
      hide InsertByTime;
      forall i | 0 <= i < |rest| ensures q[0].time <= rest[i].time {
        assert rest[i] in rest;
      }
    }
  }

  lemma {:induction false} InsertKeepsAll(x: Reservation, q: seq<Reservation>)
    ensures multiset(InsertByTime(x, q)) == multiset{x} + multiset(q)
  {
    if q != [] && x.time > q[0].time {
      InsertKeepsAll(x, q[1..]);
      assert q == [q[0]] + q[1..];
      assert multiset(InsertByTime(x, q)) == multiset{q[0]} + multiset(InsertByTime(x, q[1..]));
    }
  }

  lemma MadeAtCons(x: Reservation, q: seq<Reservation>, time: int)
    ensures MadeAt([x] + q, time) == (if x.time == time then [x] else []) + MadeAt(q, time)
  {
    assert ([x] + q)[1..] == q;
  }

  lemma {:induction false} InsertIsStable(x: Reservation, q: seq<Reservation>, time: int)
    ensures MadeAt(InsertByTime(x, q), time) == (if x.time == time then [x] else []) + MadeAt(q, time)
  {
    MadeAtCons(x, q, time);
    if q != [] && x.time > q[0].time {
      InsertIsStable(x, q[1..], time);
      MadeAtCons(q[0], q[1..], time);
      MadeAtCons(q[0], InsertByTime(x, q[1..]), time);
      assert q == [q[0]] + q[1..];
      hide MadeAt;
    }
  }

  /** Waiting requests are served by age, and in the order of the queues among equals. */
  lemma {:induction false} SortIsStable(q: seq<Reservation>, time: int)
    ensures InTimeOrder(SortByTime(q)) && multiset(SortByTime(q)) == multiset(q)
    ensures MadeAt(SortByTime(q), time) == MadeAt(q, time)
  {
    if q != [] {
      SortIsStable(q[1..], time);
      InsertInOrder(q[0], SortByTime(q[1..]));
      InsertKeepsAll(q[0], SortByTime(q[1..]));
      InsertIsStable(q[0], SortByTime(q[1..]), time);
      assert q == [q[0]] + q[1..];
    }
  }

  lemma CollectItems(reg: Registry, s: State, domain: DomainId, d: Direction, order: seq<BlockId>)
    requires forall b :: b in order ==> b in s.waiting
    ensures forall x :: x in Collect(reg, s, domain, d, order) <==>
              exists b :: b in order && reg.InDomain(b, domain) && x in s.waiting[b].Of(d)
  {
  }

  /** What waits in a domain is exactly what waits in front of its blocks. */
  lemma CollectedItems(reg: Registry, s: State, domain: DomainId)
    requires s.Shaped(reg)
    ensures forall d, x :: x in DomainWaiting(reg, s, domain, d) <==>
              reg.InDomain(x.block, domain) && x in s.waiting[x.block].Of(d)
    ensures forall d, x :: x in DomainWaiting(reg, s, domain, d) ==>
              x.block in reg.blocks && x.destination in reg.bays && x.direction == d
  {
    forall d, x
      ensures x in DomainWaiting(reg, s, domain, d) <==>
                reg.InDomain(x.block, domain) && x in s.waiting[x.block].Of(d)
      ensures x in DomainWaiting(reg, s, domain, d) ==>
              x.block in reg.blocks && x.destination in reg.bays && x.direction == d
    {
      CollectItems(reg, s, domain, d, reg.blockOrder);
      SortedItems(Collect(reg, s, domain, d, reg.blockOrder));
    }
  }

  lemma CountConcat(p: seq<Reservation>, q: seq<Reservation>, x: Reservation)
    ensures multiset(p + q)[x] == multiset(p)[x] + multiset(q)[x]
  {
    assert multiset(p + q) == multiset(p) + multiset(q);
  }

  lemma {:induction false} CollectCounts(
    reg: Registry, s: State, domain: DomainId, d: Direction, order: seq<BlockId>, x: Reservation)
    requires QueuesShaped(reg, s.waiting) && forall b :: b in order ==> b in s.waiting
    requires forall i, j :: 0 <= i < j < |order| ==> order[i] != order[j]
    ensures multiset(Collect(reg, s, domain, d, order))[x] ==
              if x.block in order && reg.InDomain(x.block, domain) then multiset(s.waiting[x.block].Of(d))[x] else 0
  {
    if order != [] {
      assert order[0] in order;
      var first := if reg.InDomain(order[0], domain) then s.waiting[order[0]].Of(d) else [];
      CountConcat(first, Collect(reg, s, domain, d, order[1..]), x);
      CollectCounts(reg, s, domain, d, order[1..], x);
      if order[0] != x.block {
        assert x !in first;
      }
    }
  }

  /** The queue of a domain is sorted by age and holds everything that waits in front of its
      blocks as often as it waits there. */
  lemma DomainQueue(reg: Registry, s: State, domain: DomainId, d: Direction)
    requires s.Shaped(reg)
    ensures InTimeOrder(DomainWaiting(reg, s, domain, d))
    ensures forall x :: multiset(DomainWaiting(reg, s, domain, d))[x] ==
              if reg.InDomain(x.block, domain) then multiset(s.waiting[x.block].Of(d))[x] else 0
  {
    SortIsStable(Collect(reg, s, domain, d, reg.blockOrder), 0);
    forall x
      ensures multiset(Collect(reg, s, domain, d, reg.blockOrder))[x] ==
                if reg.InDomain(x.block, domain) then multiset(s.waiting[x.block].Of(d))[x] else 0
    {
      CollectCounts(reg, s, domain, d, reg.blockOrder, x);
    }
  }

  lemma RemainingItems(q: seq<Reservation>, x: Reservation)
    ensures forall y :: y in RemoveFirst(q, x) ==> y in q
    ensures forall y :: y in q && y != x ==> y in RemoveFirst(q, x)
  {
  }

  lemma DequeueShape(reg: Registry, s: State, x: Reservation, d: Direction)
    requires s.Shaped(reg) && x.block in reg.blocks
    ensures Dequeue(s, x, d).Shaped(reg)
  {
    DequeueSubset(reg, s, x, d);
    hide QueuesShaped, GrantsShaped, Registry.WellFormed;
  }

  lemma DequeueSubset(reg: Registry, s: State, x: Reservation, d: Direction)
    requires QueuesShaped(reg, s.waiting) && x.block in s.waiting
    ensures QueuesShaped(reg, Dequeue(s, x, d).waiting)
  {
    var t := Dequeue(s, x, d);
    forall b, e, y | b in t.waiting && y in t.waiting[b].Of(e)
      ensures y.block == b && y.direction == e && y.destination in reg.bays
    {
      RemainingItems(s.waiting[b].Of(e), x);
      assert y in s.waiting[b].Of(e);
    }
  }

  lemma DirectGrantShape(reg: Registry, s: State, x: Reservation)
    requires s.Shaped(reg) && x.block in reg.blocks && x.destination in reg.bays
    ensures Grant(s, x).Shaped(reg)
  {
    hide QueuesShaped, Registry.WellFormed;
  }

  lemma GrantShape(reg: Registry, s: State, x: Reservation, d: Direction)
    requires s.Shaped(reg) && x.block in reg.blocks && x.destination in reg.bays
    ensures Grant(Dequeue(s, x, d), x).Shaped(reg)
  {
    DequeueShape(reg, s, x, d);
    DirectGrantShape(reg, Dequeue(s, x, d), x);
  }

  lemma GrantPassShape(reg: Registry, s: State, items: seq<Reservation>, d: Direction)
    requires s.Shaped(reg) && forall x :: x in items ==> x.block in reg.blocks && x.destination in reg.bays
    ensures GrantPass(reg, s, items, d).state.Shaped(reg)
    ensures GrantPass(reg, s, items, d).state.domains == s.domains
    decreases |items|
  {
    hide QueuesShaped, GrantsShaped, Registry.WellFormed, Available, ChecksPass;
    if items != [] {
      if Available(reg, s, items[0]) {
        GrantShape(reg, s, items[0], d);
        var t := Grant(Dequeue(s, items[0], d), items[0]);
        if ChecksPass(reg, t) {
          GrantPassShape(reg, t, items[1..], d);
        }
      } else {
        GrantPassShape(reg, s, items[1..], d);
      }
    }
  }

  lemma DomainsShape(reg: Registry, s: State, t: State)
    requires s.Shaped(reg) && t == s.(domains := t.domains)
    requires forall d :: d in t.domains <==> d in s.domains
    ensures t.Shaped(reg)
  {
  }

  lemma PrepareShape(reg: Registry, s: State, domain: DomainId)
    requires s.Shaped(reg) && domain in s.domains
    ensures Prepare(reg, s, domain).Shaped(reg) && Prepare(reg, s, domain).Keyed(reg)
    ensures Prepare(reg, s, domain) == s.(domains := Prepare(reg, s, domain).domains)
    ensures forall d :: d in Prepare(reg, s, domain).domains <==> d in s.domains
    ensures forall d :: d in s.domains && d != domain ==> Prepare(reg, s, domain).domains[d] == s.domains[d]
  {
    hide Choose, Busy, State.Shaped;
    DomainsShape(reg, s, Prepare(reg, s, domain));
  }

  lemma CloseShape(reg: Registry, s: State, domain: DomainId, d: Direction)
    requires s.Shaped(reg) && domain in s.domains
    ensures CloseIfOpposed(reg, s, domain, d).Shaped(reg)
    ensures forall e :: e in CloseIfOpposed(reg, s, domain, d).domains <==> e in s.domains
  {
  }

  lemma ServeShape(reg: Registry, s: State, domain: DomainId, d: Direction)
    requires s.Shaped(reg) && domain in s.domains
    ensures Serve(reg, s, domain, d).state.Shaped(reg)
    ensures forall e :: e in Serve(reg, s, domain, d).state.domains <==> e in s.domains
  {
    CollectedItems(reg, s, domain);
    var items := if s.domains[domain].closed then [] else DomainWaiting(reg, s, domain, d);
    GrantPassShape(reg, s, items, d);
    CloseShape(reg, GrantPass(reg, s, items, d).state, domain, d);
    hide GrantPass, CloseIfOpposed, DomainWaiting, QueuesShaped, GrantsShaped, Registry.WellFormed, State.Shaped;
  }

  lemma ReconcileShape(reg: Registry, s: State, domain: DomainId)
    requires s.Shaped(reg) && domain in s.domains
    ensures Reconcile(reg, s, domain).state.Shaped(reg)
    ensures forall d :: d in Reconcile(reg, s, domain).state.domains <==> d in s.domains
  {
    PrepareShape(reg, s, domain);
    var p := Prepare(reg, s, domain);
    if p.domains[domain].active.Some? {
      ServeShape(reg, p, domain, p.domains[domain].active.value);
    }
    hide Prepare, Serve, Faulted, State.Shaped, QueuesShaped, GrantsShaped, Registry.WellFormed;
  }

  lemma ReconcileEachShape(reg: Registry, s: State, order: seq<DomainId>)
    requires s.Shaped(reg) && forall d :: d in order ==> d in s.domains
    ensures ReconcileEach(reg, s, order).state.Shaped(reg)
    ensures forall d :: d in ReconcileEach(reg, s, order).state.domains <==> d in s.domains
    decreases |order|
  {
    hide Reconcile, State.Shaped;
    if order != [] {
      ReconcileShape(reg, s, order[0]);
      var pass := Reconcile(reg, s, order[0]);
      if pass.ok {
        ReconcileEachShape(reg, pass.state, order[1..]);
      }
    }
  }
}
