/** Safety of the admission protocol: what holds in every state the arbiter can
    reach, whatever it is called with and even when a call raises. */
module ArbiterSafety {
  import opened Models
  import opened ArbiterSpec
  import opened ArbiterSteps

  ghost predicate Unique(q: seq<Reservation>) {
    forall i, j :: 0 <= i < j < |q| ==> q[i].robot != q[j].robot
  }

  /** Reservations are live grants; every grant is a reservation or an occupancy;
      in a healthy block every occupant entered on a grant of its direction. */
  ghost predicate GrantsHeld(blocks: map<BlockId, Block>, grants: map<Key, Reservation>) {
    && (forall b, r :: b in blocks && r in blocks[b].reservations ==>
        Key(r, b) in grants && grants[Key(r, b)] == blocks[b].reservations[r])
    && (forall k :: k in grants ==>
        && k.block in blocks
        && (k.robot in blocks[k.block].reservations || k.robot in blocks[k.block].occupants))
    && (forall b, r :: b in blocks && !blocks[b].faulted && r in blocks[b].occupants ==>
        && Key(r, b) in grants && grants[Key(r, b)].direction == blocks[b].occupants[r]
        && r !in blocks[b].reservations)
  }

  ghost predicate QueueDistinct(q: Queues) {
    Unique(q.aToB) && Unique(q.bToA) && Robots(q.aToB) !! Robots(q.bToA)
  }

  /** Nobody is queued twice for a block, or queued while admitted or inside. */
  ghost predicate QueuesDistinct(
    waiting: map<BlockId, Queues>, blocks: map<BlockId, Block>, grants: map<Key, Reservation>)
  {
    && (forall b :: b in waiting ==> QueueDistinct(waiting[b]))
    && (forall b, r :: b in waiting && waiting[b].Has(r) ==> Key(r, b) !in grants)
    && (forall b, r :: b in waiting && b in blocks && !blocks[b].faulted && waiting[b].Has(r) ==>
        r !in blocks[b].occupants)
  }

  ghost predicate WithinCapacity(reg: Registry, blocks: map<BlockId, Block>) {
    forall b :: b in blocks && b in reg.blocks && !blocks[b].faulted ==>
      |blocks[b].occupants.Keys| + |blocks[b].reservations.Keys| <= reg.blocks[b].capacity
  }

  /** One direction at a time per domain. With an active direction everything admitted to
      the domain, and everyone inside it, goes that way; without one nothing is
      admitted, and anyone inside was put there by a fault. */
  ghost predicate OneDirection(
    reg: Registry, domains: map<DomainId, Domain>, blocks: map<BlockId, Block>, grants: map<Key, Reservation>)
    requires forall b :: b in reg.blocks ==> b in blocks
  {
    && (forall k :: k in grants && k.block in reg.blocks ==>
        && reg.blocks[k.block].domain in domains
        && domains[reg.blocks[k.block].domain].active == Some(grants[k].direction))
    && (forall b, r :: b in reg.blocks && reg.blocks[b].domain in domains && r in blocks[b].occupants ==>
        var active := domains[reg.blocks[b].domain].active;
        if active == None then blocks[b].occupants[r] == AToB && Faulted(reg, blocks, reg.blocks[b].domain)
        else blocks[b].occupants[r] == active.value)
  }

  ghost predicate Core(reg: Registry, s: State) {
    && s.Shaped(reg)
    && GrantsHeld(s.blocks, s.grants)
    && QueuesDistinct(s.waiting, s.blocks, s.grants)
    && WithinCapacity(reg, s.blocks)
    && OneDirection(reg, s.domains, s.blocks, s.grants)
  }

  // ----- Queue facts ----------------------------------------------------------------

  lemma RobotsSplit(q: seq<Reservation>)
    requires q != []
    ensures Robots(q) == {q[0].robot} + Robots(q[1..])
    ensures Unique(q) ==> Unique(q[1..]) && q[0].robot !in Robots(q[1..])
  {
  }

  lemma RobotsOfRemaining(q: seq<Reservation>, x: Reservation)
    requires Unique(q) && x in q
    ensures Unique(RemoveFirst(q, x))
    ensures Robots(RemoveFirst(q, x)) == Robots(q) - {x.robot}
  {
    RobotsSplit(q);
    if q[0] != x {
      RobotsOfRemaining(q[1..], x);
      UniqueCons(q[0], RemoveFirst(q[1..], x));
    }
  }

  lemma UniqueCons(x: Reservation, q: seq<Reservation>)
    requires Unique(q) && x.robot !in Robots(q)
    ensures Unique([x] + q) && Robots([x] + q) == {x.robot} + Robots(q)
  {
  }

  lemma RobotsWithout(q: seq<Reservation>, r: RobotId)
    requires Unique(q)
    ensures Unique(WithoutRobot(q, r))
    ensures Robots(WithoutRobot(q, r)) == Robots(q) - {r}
  {
    if q != [] {
      RobotsSplit(q);
      RobotsWithout(q[1..], r);
      if q[0].robot != r {
        UniqueCons(q[0], WithoutRobot(q[1..], r));
      }
    }
  }

  // ----- Every mutation keeps the core ------------------------------------------------


  lemma GrantGrantsHeld(s: State, x: Reservation)
    requires GrantsHeld(s.blocks, s.grants) && x.block in s.blocks && x.destination in s.bays
    requires x.robot !in s.blocks[x.block].occupants
    ensures GrantsHeld(Grant(s, x).blocks, Grant(s, x).grants)
  {
  }

  lemma GrantQueuesDistinct(s: State, x: Reservation)
    requires QueuesDistinct(s.waiting, s.blocks, s.grants)
    requires x.block in s.blocks && x.destination in s.bays && x.block in s.waiting
    requires !s.waiting[x.block].Has(x.robot)
    ensures QueuesDistinct(s.waiting, Grant(s, x).blocks, Grant(s, x).grants)
  {
  }

  lemma GrantWithinCapacity(reg: Registry, s: State, x: Reservation)
    requires s.Keyed(reg) && WithinCapacity(reg, s.blocks) && x.block in s.blocks && x.destination in s.bays
    requires Available(reg, s, x)
    ensures WithinCapacity(reg, Grant(s, x).blocks)
  {
  }

  /** Faults are all that the direction rule reads of a block beside its occupants. */
  lemma SameFaults(reg: Registry, a: map<BlockId, Block>, b: map<BlockId, Block>)
    requires forall k :: k in reg.blocks ==> k in a && k in b && a[k].faulted == b[k].faulted
    ensures forall d :: Faulted(reg, a, d) == Faulted(reg, b, d)
  {
  }

  lemma GrantOneDirection(reg: Registry, s: State, x: Reservation)
    requires s.Keyed(reg) && OneDirection(reg, s.domains, s.blocks, s.grants)
    requires x.block in s.blocks && x.destination in s.bays && reg.blocks[x.block].domain in s.domains
    requires s.domains[reg.blocks[x.block].domain].active == Some(x.direction)
    ensures forall b :: b in reg.blocks ==> b in Grant(s, x).blocks
    ensures OneDirection(reg, s.domains, Grant(s, x).blocks, Grant(s, x).grants)
  {
  }

  lemma GrantKeepsCore(reg: Registry, s: State, x: Reservation)
    requires Core(reg, s) && x.block in s.blocks && x.destination in s.bays
    requires Available(reg, s, x) && !s.waiting[x.block].Has(x.robot)
    requires x.robot !in s.blocks[x.block].occupants
    requires reg.blocks[x.block].domain in s.domains
    requires s.domains[reg.blocks[x.block].domain].active == Some(x.direction)
    ensures Core(reg, Grant(s, x))
  {
    DirectGrantShape(reg, s, x);
    GrantGrantsHeld(s, x);
    GrantQueuesDistinct(s, x);
    GrantWithinCapacity(reg, s, x);
    GrantOneDirection(reg, s, x);
    hide Available, GrantsHeld, QueuesDistinct, WithinCapacity, OneDirection, State.Shaped;
  }

  /** The core is about blocks, grants and domains; queues and bays may change
      freely as long as the queues stay distinct. */
  lemma FrameCore(reg: Registry, s: State, t: State)
    requires Core(reg, s) && t.Shaped(reg)
    requires QueuesDistinct(t.waiting, t.blocks, t.grants)
    requires t.blocks == s.blocks && t.grants == s.grants && t.domains == s.domains
    ensures Core(reg, t)
  {
  }

  lemma QueueRemaining(q: Queues, x: Reservation, d: Direction)
    requires QueueDistinct(q) && x in q.Of(d)
    ensures var p := q.With(d, RemoveFirst(q.Of(d), x));
            && QueueDistinct(p) && !p.Has(x.robot)
            && forall r :: p.Has(r) ==> q.Has(r)
    ensures q.Has(x.robot)
  {
    RobotsOfRemaining(q.Of(d), x);
    assert x.robot in Robots(q.Of(d));
  }

  lemma DequeueDistinct(s: State, x: Reservation, d: Direction)
    requires QueuesDistinct(s.waiting, s.blocks, s.grants)
    requires x.block in s.waiting && x in s.waiting[x.block].Of(d)
    ensures QueuesDistinct(Dequeue(s, x, d).waiting, s.blocks, s.grants)
    ensures !Dequeue(s, x, d).waiting[x.block].Has(x.robot)
    ensures s.waiting[x.block].Has(x.robot)
  {
    QueueRemaining(s.waiting[x.block], x, d);
    hide QueueDistinct, Queues.Has;
  }

  lemma UniqueSnoc(q: seq<Reservation>, x: Reservation)
    requires Unique(q) && x.robot !in Robots(q)
    ensures Unique(q + [x]) && Robots(q + [x]) == Robots(q) + {x.robot}
  {
  }

  lemma EnqueuedWaits(s: State, x: Reservation)
    requires x.block in s.waiting && !s.waiting[x.block].Has(x.robot)
    requires QueueDistinct(s.waiting[x.block])
    ensures forall r, b :: b in s.waiting ==>
              Enqueue(s, x).waiting[b].Has(r) == (s.waiting[b].Has(r) || (r == x.robot && b == x.block))
    ensures QueueDistinct(Enqueue(s, x).waiting[x.block])
  {
    UniqueSnoc(s.waiting[x.block].Of(x.direction), x);
  }

  lemma EnqueueDistinct(s: State, x: Reservation)
    requires QueuesDistinct(s.waiting, s.blocks, s.grants) && x.block in s.waiting && x.block in s.blocks
    requires !s.waiting[x.block].Has(x.robot)
    requires Key(x.robot, x.block) !in s.grants && x.robot !in s.blocks[x.block].occupants
    ensures QueuesDistinct(Enqueue(s, x).waiting, s.blocks, s.grants)
  {
  }

  lemma EnqueueKeepsCore(reg: Registry, s: State, x: Reservation)
    requires Core(reg, s) && x.block in reg.blocks && x.destination in reg.bays
    requires !s.waiting[x.block].Has(x.robot)
    requires Key(x.robot, x.block) !in s.grants && x.robot !in s.blocks[x.block].occupants
    ensures Core(reg, Enqueue(s, x))
  {
    EnqueueShape(reg, s, x);
    EnqueueDistinct(s, x);
    FrameCore(reg, s, Enqueue(s, x));
  }

  /** Admitting a waiting request of the active direction. */
  lemma AdmitKeepsCore(reg: Registry, s: State, x: Reservation, d: Direction)
    requires Core(reg, s) && x.block in reg.blocks && x in s.waiting[x.block].Of(d)
    requires x.destination in reg.bays && Available(reg, s, x)
    requires s.domains[reg.blocks[x.block].domain].active == Some(d)
    ensures Core(reg, Grant(Dequeue(s, x, d), x))
  {
    var t := Dequeue(s, x, d);
    DequeueDistinct(s, x, d);
    DequeueShape(reg, s, x, d);
    FrameCore(reg, s, t);
    assert x.direction == d;
    GrantKeepsCore(reg, t, x);
  }
}
