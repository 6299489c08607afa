/** The arbiter as the object it is: dictionaries updated in place by loops, each
    public operation one atomic method. Every method is proved to compute the
    specification function of the same name, so what the other modules prove of
    those functions holds of this object. */
module DirectionArbiters {
  import opened Models
  import opened ArbiterSpec
  import opened ArbiterSteps
  import opened ArbiterProgress
  import opened ArbiterRuns

  lemma MovedToBay(s: State, others: map<BayId, Bay>, h: BayId, r: RobotId)
    requires h in s.bays && forall k :: k in others <==> k in s.bays
    requires forall k :: k in s.bays ==>
      others[k] == if k != h then s.bays[k].(occupants := s.bays[k].occupants - {r}) else s.bays[k]
    ensures MoveToBay(s, h, r) == s.(bays := others[h := others[h].(occupants := others[h].occupants + {r})])
  {
    var t, bays := MoveToBay(s, h, r), others[h := others[h].(occupants := others[h].occupants + {r})];
    assert forall k :: k in t.bays <==> k in bays;
    forall k | k in s.bays ensures t.bays[k] == bays[k] {
    }
    assert t.bays == bays;
  }

  lemma LeaveIs(s: State, t: State, r: RobotId, b: BlockId)
    requires b in s.blocks && (Key(r, b) in s.grants ==> s.grants[Key(r, b)].destination in s.bays)
    requires t.domains == s.domains && t.waiting == s.waiting
    requires t.blocks == s.blocks[b := s.blocks[b].(
      occupants := s.blocks[b].occupants - {r}, reservations := s.blocks[b].reservations - {r})]
    requires t.grants == if Key(r, b) in s.grants then s.grants - {Key(r, b)} else s.grants
    requires t.bays == if Key(r, b) !in s.grants then s.bays
                       else
                         var h := s.grants[Key(r, b)].destination;
                         s.bays[h := Bay(s.bays[h].occupants + {r}, s.bays[h].reservations - {r})]
    ensures t == Leave(s, r, b)
  {
    assert Key(r, b) !in s.grants ==> s.grants - {Key(r, b)} == s.grants;
  }

  // ----- Withdrawing block by block ----------------------------------------------------

  lemma ShorterWithout(q: seq<Reservation>, r: RobotId)
    ensures |WithoutRobot(q, r)| <= |q|
    ensures |WithoutRobot(q, r)| == |q| <==> r !in Robots(q)
  {
    if q != [] {
      ShorterWithout(q[1..], r);
      assert Robots(q) == {q[0].robot} + Robots(q[1..]);
    }
  }

  lemma WithoutTwice(q: seq<Reservation>, r: RobotId)
    ensures WithoutRobot(WithoutRobot(q, r), r) == WithoutRobot(q, r)
  {
    if q != [] {
      WithoutTwice(q[1..], r);
    }
  }

  lemma WithdrawnQueues(s: State, r: RobotId, b: BlockId)
    requires b in s.waiting
    ensures Withdraw(s, r, [b]).waiting
         == s.waiting[b := Queues(WithoutRobot(s.waiting[b].aToB, r), WithoutRobot(s.waiting[b].bToA, r))]
  {
    hide HoldsOneTo, WithoutRobot;
  }

  lemma WithdrawnBlocks(s: State, r: RobotId, b: BlockId)
    requires b in s.blocks
    ensures Withdraw(s, r, [b]).domains == s.domains
    ensures Withdraw(s, r, [b]).blocks
         == s.blocks[b := s.blocks[b].(reservations := s.blocks[b].reservations - {r})]
    ensures Withdraw(s, r, [b]).grants == s.grants - {Key(r, b)}
  {
    hide HoldsOneTo, WithoutRobot;
  }

  lemma WithdrawnBays(s: State, r: RobotId, b: BlockId)
    requires Key(r, b) in s.grants ==> s.grants[Key(r, b)].destination in s.bays
    ensures Withdraw(s, r, [b]).bays
         == if Key(r, b) !in s.grants then s.bays
            else
              var h := s.grants[Key(r, b)].destination;
              s.bays[h := s.bays[h].(reservations := s.bays[h].reservations - {r})]
  {
    hide WithoutRobot;
    assert forall h :: HoldsOneTo(s, r, [b], h) <==> Key(r, b) in s.grants && s.grants[Key(r, b)].destination == h;
    hide HoldsOneTo;
  }

  lemma WithdrawHolds(s: State, r: RobotId, done: seq<BlockId>, b: BlockId)
    ensures forall h :: HoldsOneTo(s, r, done + [b], h) <==>
              (HoldsOneTo(s, r, done, h) || HoldsOneTo(Withdraw(s, r, done), r, [b], h))
  {
    var t := Withdraw(s, r, done);
    forall h
      ensures HoldsOneTo(s, r, done + [b], h) <==> (HoldsOneTo(s, r, done, h) || HoldsOneTo(t, r, [b], h))
    {
      assert forall c :: c in done + [b] <==> c in done || c == b;
    }
  }

  lemma WithdrawStepQueues(s: State, r: RobotId, done: seq<BlockId>, b: BlockId)
    ensures Withdraw(Withdraw(s, r, done), r, [b]).waiting == Withdraw(s, r, done + [b]).waiting
  {
    var u, v := Withdraw(Withdraw(s, r, done), r, [b]), Withdraw(s, r, done + [b]);
    forall c | c in s.waiting ensures u.waiting[c] == v.waiting[c] {
      WithoutTwice(s.waiting[c].aToB, r);
      WithoutTwice(s.waiting[c].bToA, r);
      assert c in done + [b] <==> c in done || c == b;
    }
  }

  lemma WithdrawStepBlocks(s: State, r: RobotId, done: seq<BlockId>, b: BlockId)
    ensures Withdraw(Withdraw(s, r, done), r, [b]).blocks == Withdraw(s, r, done + [b]).blocks
    ensures Withdraw(Withdraw(s, r, done), r, [b]).grants == Withdraw(s, r, done + [b]).grants
  {
    hide WithoutRobot, HoldsOneTo;
    var u, v := Withdraw(Withdraw(s, r, done), r, [b]), Withdraw(s, r, done + [b]);
    assert forall c :: c in done + [b] <==> c in done || c == b;
    assert forall c :: c in s.blocks ==> u.blocks[c] == v.blocks[c];
    assert forall k :: k in u.grants <==> k in v.grants;
  }

  lemma WithdrawStepBays(s: State, r: RobotId, done: seq<BlockId>, b: BlockId)
    ensures Withdraw(Withdraw(s, r, done), r, [b]).bays == Withdraw(s, r, done + [b]).bays
  {
    WithdrawHolds(s, r, done, b);
    hide WithoutRobot, HoldsOneTo;
    var u, v := Withdraw(Withdraw(s, r, done), r, [b]), Withdraw(s, r, done + [b]);
    assert forall h :: h in s.bays ==> u.bays[h] == v.bays[h];
  }

  /** Withdrawing block by block is withdrawing from all of them. */
  lemma WithdrawStep(s: State, r: RobotId, done: seq<BlockId>, b: BlockId)
    ensures Withdraw(Withdraw(s, r, done), r, [b]) == Withdraw(s, r, done + [b])
  {
    WithdrawStepQueues(s, r, done, b);
    WithdrawStepBlocks(s, r, done, b);
    WithdrawStepBays(s, r, done, b);
    hide WithoutRobot, HoldsOneTo;
  }

  lemma WithdrawNothing(s: State, r: RobotId)
    ensures Withdraw(s, r, []) == s
  {
    assert Withdraw(s, r, []).bays == s.bays;
    assert Withdraw(s, r, []).waiting == s.waiting;
    assert Withdraw(s, r, []).blocks == s.blocks;
    assert Withdraw(s, r, []).grants == s.grants;
  }

  lemma StillThere(s: State, r: RobotId, done: seq<BlockId>, b: BlockId)
    requires b in s.waiting
    ensures HasRequest(Withdraw(s, r, done), r, b) <==> b !in done && HasRequest(s, r, b)
  {
    WithoutRobotItems(s.waiting[b].aToB, r);
    WithoutRobotItems(s.waiting[b].bToA, r);
    var q := s.waiting[b];
    assert r !in Robots(WithoutRobot(q.aToB, r)) && r !in Robots(WithoutRobot(q.bToA, r));
    hide HoldsOneTo, WithoutRobot;
  }

  /** Which direction is chosen, once it is known who can go. */
  lemma ChooseCases(reg: Registry, s: State, domain: DomainId, goAB: bool, goBA: bool)
    requires s.Shaped(reg) && domain in s.domains
    requires forall x :: (x in DomainWaiting(reg, s, domain, AToB) || x in DomainWaiting(reg, s, domain, BToA)) ==>
               x.block in reg.blocks && x.destination in reg.bays
    requires goAB == SomeAvailable(reg, s, DomainWaiting(reg, s, domain, AToB))
    requires goBA == SomeAvailable(reg, s, DomainWaiting(reg, s, domain, BToA))
    ensures var ab, ba := DomainWaiting(reg, s, domain, AToB), DomainWaiting(reg, s, domain, BToA);
            var was := s.domains[domain];
            && (goAB ==> ab != []) && (goBA ==> ba != [])
            && Choose(reg, s, domain) ==
               if !goAB && !goBA then None
               else if was.closed && was.active.Some? && (if was.active.value.Opposite() == AToB then goAB else goBA)
               then Some(was.active.value.Opposite())
               else if goAB && (!goBA || ab[0].time <= ba[0].time) then Some(AToB)
               else Some(BToA)
  {
    hide DomainWaiting, Available, State.Shaped;
    var was: Domain := s.domains[domain];
    assert was.active.Some? ==> was.active.value == AToB || was.active.value == BToA;
  }

  // ----- Gathering queues -------------------------------------------------------------------

  lemma CollectNothing(reg: Registry, s: State, domain: DomainId, d: Direction)
    ensures Collect(reg, s, domain, d, []) == []
  {
  }

  lemma {:induction false} CollectSnoc(reg: Registry, s: State, domain: DomainId, d: Direction, order: seq<BlockId>, b: BlockId)
    requires b in s.waiting && forall c :: c in order ==> c in s.waiting
    ensures Collect(reg, s, domain, d, order + [b])
         == Collect(reg, s, domain, d, order) + (if reg.InDomain(b, domain) then s.waiting[b].Of(d) else [])
  {
    if order == [] {
      assert [] + [b] == [b];
    } else {
      var head := if reg.InDomain(order[0], domain) then s.waiting[order[0]].Of(d) else [];
      var last := if reg.InDomain(b, domain) then s.waiting[b].Of(d) else [];
      var rest := Collect(reg, s, domain, d, order[1..]);
      CollectSnoc(reg, s, domain, d, order[1..], b);
      assert (order + [b])[1..] == order[1..] + [b] && (order + [b])[0] == order[0];
      assert Collect(reg, s, domain, d, order) == head + rest;
      assert Collect(reg, s, domain, d, order + [b]) == head + Collect(reg, s, domain, d, order[1..] + [b]);
      hide Collect, Registry.InDomain, Queues.Of;
      assert head + (rest + last) == (head + rest) + last;
    }
  }

  // ----- Iterating over a set -------------------------------------------------------------

  method ListOf<T(==)>(items: set<T>) returns (order: seq<T>)
    ensures forall d :: d in order <==> d in items
    ensures |order| == |items|
  {
    order := [];
    var rest := items;
    while rest != {}
      invariant forall d :: d in items <==> d in order || d in rest
      invariant |order| + |rest| == |items|
      decreases rest
    {
      var d :| d in rest;
      rest := rest - {d};
      order := order + [d];
    }
  }

  /** A cancellation at one block visits its one domain. */
  lemma SingleVisit(reg: Registry, b: BlockId, visit: seq<DomainId>)
    requires b in reg.blocks && |visit| == 1 && VisitsTargets(reg, Some(b), visit)
    ensures visit == [reg.blocks[b].domain]
  {
    assert b in Targets(reg, Some(b)) && reg.InDomain(b, reg.blocks[b].domain);
    assert reg.blocks[b].domain in visit;
  }

  lemma SingleDomain(reg: Registry, b: BlockId, ds: set<DomainId>)
    requires b in reg.blocks && DomainsOf(reg, [b], ds)
    ensures ds == {reg.blocks[b].domain}
  {
    assert b in [b] && reg.InDomain(b, reg.blocks[b].domain);
    forall d | d in ds ensures d == reg.blocks[b].domain {
      var c :| c in [b] && reg.InDomain(c, d);
    }
  }

  /** `ds` are the domains of the blocks `bs`. */
  ghost predicate DomainsOf(reg: Registry, bs: seq<BlockId>, ds: set<DomainId>) {
    forall d :: d in ds <==> exists b :: b in bs && reg.InDomain(b, d)
  }

  lemma DomainsSnoc(reg: Registry, bs: seq<BlockId>, ds: set<DomainId>, b: BlockId)
    requires DomainsOf(reg, bs, ds) && b in reg.blocks
    ensures DomainsOf(reg, bs + [b], ds + {reg.blocks[b].domain})
  {
    forall d
      ensures d in ds + {reg.blocks[b].domain} <==> exists c :: c in bs + [b] && reg.InDomain(c, d)
    {
      if d in ds {
        var c :| c in bs && reg.InDomain(c, d);
        assert c in bs + [b];
      } else if d == reg.blocks[b].domain {
        assert b in bs + [b] && reg.InDomain(b, d);
      }
      if c :| c in bs + [b] && reg.InDomain(c, d) {
        assert c in bs || c == b;
      }
    }
  }

  lemma SomeVisit(reg: Registry, targets: seq<BlockId>) returns (visit: seq<DomainId>)
    requires forall b :: b in targets ==> b in reg.blocks
    ensures forall d :: d in visit <==> exists b :: b in targets && reg.InDomain(b, d)
    ensures |visit| == |targets|
  {
    visit := [];
    var ds: set<DomainId> := {};
    for i := 0 to |targets|
      invariant |visit| == i
      invariant DomainsOf(reg, targets[..i], ds)
      invariant forall d :: d in visit <==> d in ds
    {
      assert targets[i] in targets && targets[..i + 1] == targets[..i] + [targets[i]];
      DomainsSnoc(reg, targets[..i], ds, targets[i]);
      visit := visit + [reg.blocks[targets[i]].domain];
      ds := ds + {reg.blocks[targets[i]].domain};
    }
    assert targets[..|targets|] == targets;
  }

  /** The cases of a cancellation, with its conditions already evaluated. */
  lemma CancelCases(reg: Registry, s: State, r: RobotId, target: Option<BlockId>, visit: seq<DomainId>, inside: bool, changed: bool)
    requires s.Shaped(reg) && forall d :: d in visit ==> d in s.domains
    requires target.Some? ==> target.value in reg.blocks
    requires forall b :: b in Targets(reg, target) ==> b in s.blocks && b in s.waiting
    requires inside <==> exists b :: b in Targets(reg, target) && r in s.blocks[b].occupants
    requires !inside ==> (changed <==> exists b :: b in Targets(reg, target) && HasRequest(s, r, b))
    ensures inside ==> Cancel(reg, s, r, target, visit) == Effect(s, Flag(false))
    ensures !inside ==>
              var u := Withdraw(s, r, Targets(reg, target));
              u.Shaped(reg) && u.domains == s.domains
              && var pass := ReconcileEach(reg, u, visit);
              Cancel(reg, s, r, target, visit)
              == Effect(pass.state, if pass.ok then Flag(changed) else Raised(AssertionError))
  {
    WithdrawShape(reg, s, r, Targets(reg, target));
    hide HasRequest, ReconcileEach, QueuesShaped, GrantsShaped, Registry.WellFormed, HoldsOneTo, WithoutRobot, Targets;
  }

  lemma TargetIs(reg: Registry, target: Option<BlockId>)
    requires target.Some?
    ensures Targets(reg, target) == [target.value]
  {
  }

  lemma VisitKnown(reg: Registry, s: State, target: Option<BlockId>, visit: seq<DomainId>)
    requires s.Shaped(reg) && VisitsTargets(reg, target, visit)
    ensures forall d :: d in visit ==> d in s.domains
  {
  }

  class DirectionArbiter {
    const reg: Registry
    var domains: map<DomainId, Domain>
    var waiting: map<BlockId, Queues>
    var grants: map<Key, Reservation>
    var blocks: map<BlockId, Block>
    var bays: map<BayId, Bay>

    ghost function View(): State
      reads this
    {
      State(domains, waiting, grants, blocks, bays)
    }

    ghost predicate Valid()
      reads this
    {
      View().Shaped(reg)
    }

    constructor (reg: Registry)
      requires reg.WellFormed()
      ensures Valid() && this.reg == reg && View() == Initial(reg)
    {
      InitialShape(reg);
      this.reg := reg;
      domains := map d | d in reg.domainOrder :: Domain(None, false);
      waiting := map b | b in reg.blocks :: Queues([], []);
      grants := map[];
      blocks := map b | b in reg.blocks :: Block(map[], map[], false);
      bays := map h | h in reg.bays :: Bay({}, {});
    }

    // ----- Looking ------------------------------------------------------------------

    method FindWaiting(r: RobotId, b: BlockId) returns (found: bool)
      requires Valid() && b in reg.blocks
      ensures found == IsWaiting(View(), r, b)
    {
      for turn := 0 to 2
        invariant turn > 0 ==> r !in Robots(waiting[b].aToB)
        invariant turn > 1 ==> r !in Robots(waiting[b].bToA)
      {
        var queue := if turn == 0 then waiting[b].aToB else waiting[b].bToA;
        for i := 0 to |queue|
          invariant forall j :: 0 <= j < i ==> queue[j].robot != r
        {
          if queue[i].robot == r {
            assert r in Robots(queue);
            return true;
          }
        }
      }
      return false;
    }

    method ResourcesAvailable(x: Reservation) returns (yes: bool)
      requires Valid() && x.block in reg.blocks && x.destination in reg.bays
      ensures yes == Available(reg, View(), x)
    {
      var block := blocks[x.block];
      if block.faulted {
        return false;
      }
      if |block.occupants.Keys| + |block.reservations.Keys| >= reg.blocks[x.block].capacity {
        return false;
      }
      var directions := (set r | r in block.occupants :: block.occupants[r])
        + (set r | r in block.reservations :: block.reservations[r].direction);
      if directions != {} && directions != {x.direction} {
        DirectionsOf(block, directions, x.direction);
        return false;
      }
      DirectionsOf(block, directions, x.direction);
      var used := bays[x.destination].Used() - {x.robot};
      return |used| < reg.bays[x.destination].capacity;
    }

    static lemma DirectionsOf(block: Block, directions: set<Direction>, d: Direction)
      requires directions == (set r | r in block.occupants :: block.occupants[r])
                 + (set r | r in block.reservations :: block.reservations[r].direction)
      ensures block.OneWay(d) <==> directions == {} || directions == {d}
    {
      if block.OneWay(d) {
        assert forall e :: e in directions ==> e == d;
        if directions != {} {
          var e :| e in directions;
          assert directions == {d};
        }
      } else {
        assert forall r :: r in block.occupants ==> block.occupants[r] in directions;
        assert forall r :: r in block.reservations ==> block.reservations[r].direction in directions;
      }
    }

    method DomainBusy(domain: DomainId) returns (busy: bool)
      requires Valid()
      ensures busy == Busy(reg, blocks, domain)
    {
      for i := 0 to |reg.blockOrder|
        invariant forall b :: b in reg.blockOrder[..i] && reg.InDomain(b, domain) ==> !blocks[b].InUse()
      {
        var b := reg.blockOrder[i];
        assert b in reg.blockOrder && b in reg.blocks;
        if reg.blocks[b].domain == domain && (blocks[b].occupants != map[] || blocks[b].reservations != map[]) {
          return true;
        }
      }
      return false;
    }

    method DomainFaulted(domain: DomainId) returns (faulted: bool)
      requires Valid()
      ensures faulted == Faulted(reg, blocks, domain)
    {
      for i := 0 to |reg.blockOrder|
        invariant forall b :: b in reg.blockOrder[..i] && reg.InDomain(b, domain) ==> !blocks[b].faulted
      {
        var b := reg.blockOrder[i];
        assert b in reg.blockOrder && b in reg.blocks;
        if reg.blocks[b].domain == domain && blocks[b].faulted {
          return true;
        }
      }
      return false;
    }

    method WaitingIn(domain: DomainId, d: Direction) returns (queue: seq<Reservation>)
      requires Valid()
      ensures queue == DomainWaiting(reg, View(), domain, d)
      ensures InTimeOrder(queue)
      ensures forall x :: multiset(queue)[x] ==
                if reg.InDomain(x.block, domain) then multiset(waiting[x.block].Of(d))[x] else 0
    {
      DomainQueue(reg, View(), domain, d);
      var all := Gather(domain, d, reg.blockOrder);
      queue := SortByTime(all);
    }

    method Gather(domain: DomainId, d: Direction, order: seq<BlockId>) returns (all: seq<Reservation>)
      requires forall b :: b in order ==> b in waiting && b in reg.blocks
      ensures all == Collect(reg, View(), domain, d, order)
    {
      all := [];
      hide Collect;
      CollectNothing(reg, View(), domain, d);
      for i := 0 to |order|
        invariant all == Collect(reg, View(), domain, d, order[..i])
      {
        assert order[i] in order && order[..i + 1] == order[..i] + [order[i]];
        CollectSnoc(reg, View(), domain, d, order[..i], order[i]);
        if reg.blocks[order[i]].domain == domain {
          all := all + waiting[order[i]].Of(d);
        }
      }
      assert order[..|order|] == order;
    }

    method AnyAvailable(items: seq<Reservation>) returns (any: bool)
      requires Valid() && forall x :: x in items ==> x.block in reg.blocks && x.destination in reg.bays
      ensures any == SomeAvailable(reg, View(), items)
    {
      hide Available, QueuesShaped, GrantsShaped, Registry.WellFormed;
      for i := 0 to |items|
        invariant forall j :: 0 <= j < i ==> !Available(reg, View(), items[j])
      {
        var yes := ResourcesAvailable(items[i]);
        if yes {
          return true;
        }
      }
      return false;
    }

    /** The runtime check: false means that it raises. */
    method AssertInvariants() returns (ok: bool)
      requires Valid()
      ensures ok == ChecksPass(reg, View())
    {
      for i := 0 to |reg.blockOrder|
        invariant forall b :: b in reg.blockOrder[..i] && b in blocks ==>
          blocks[b].OneWay(AToB) || blocks[b].OneWay(BToA)
      {
        var b := reg.blockOrder[i];
        assert b in reg.blockOrder && b in reg.blocks;
        var block := blocks[b];
        if !block.OneWay(AToB) && !block.OneWay(BToA) {
          return false;
        }
      }
      for i := 0 to |reg.bayOrder|
        invariant forall h :: h in reg.bayOrder[..i] && h in bays && h in reg.bays ==>
          |bays[h].Used()| <= reg.bays[h].capacity
      {
        var h := reg.bayOrder[i];
        assert h in reg.bayOrder;
        assert h in reg.bays;
        if |bays[h].Used()| > reg.bays[h].capacity {
          return false;
        }
      }
      return true;
    }

    // ----- Admission ------------------------------------------------------------------

    method EnqueueRequest(x: Reservation)
      requires Valid() && x.block in reg.blocks && x.destination in reg.bays
      modifies this
      ensures Valid() && View() == Enqueue(old(View()), x)
    {
      EnqueueShape(reg, View(), x);
      var queue := waiting[x.block].Of(x.direction);
      for i := 0 to |queue|
        invariant forall j :: 0 <= j < i ==> queue[j].robot != x.robot
        invariant View() == old(View())
      {
        if queue[i].robot == x.robot {
          assert x.robot in Robots(queue);
          return;
        }
      }
      waiting := waiting[x.block := waiting[x.block].With(x.direction, queue + [x])];
    }

    method GrantRequest(x: Reservation) returns (ok: bool)
      requires Valid() && x.block in reg.blocks && x.destination in reg.bays
      modifies this
      ensures Valid() && View() == Grant(old(View()), x) && ok == ChecksPass(reg, View())
    {
      DirectGrantShape(reg, View(), x);
      var block, bay := blocks[x.block], bays[x.destination];
      blocks := blocks[x.block := block.(reservations := block.reservations[x.robot := x])];
      bays := bays[x.destination := bay.(reservations := bay.reservations + {x.robot})];
      grants := grants[Key(x.robot, x.block) := x];
      ok := AssertInvariants();
    }

    /** The direction an idle domain takes, given its two queues. */
    method PickDirection(domain: DomainId, ab: seq<Reservation>, ba: seq<Reservation>)
      returns (choice: Option<Direction>)
      requires Valid() && domain in domains
      requires ab == DomainWaiting(reg, View(), domain, AToB) && ba == DomainWaiting(reg, View(), domain, BToA)
      ensures choice == Choose(reg, View(), domain)
    {
      CollectedItems(reg, View(), domain);
      hide State.Shaped, DomainWaiting, SomeAvailable, Choose;
      var goAB := AnyAvailable(ab);
      var goBA := AnyAvailable(ba);
      ChooseCases(reg, View(), domain, goAB, goBA);
      if !goAB && !goBA {
        return None;
      }
      var was := domains[domain];
      if was.closed && was.active.Some?
         && (if was.active.value.Opposite() == AToB then goAB else goBA) {
        return Some(was.active.value.Opposite());
      }
      if goAB && (!goBA || ab[0].time <= ba[0].time) {
        return Some(AToB);
      }
      return Some(BToA);
    }

    method GrantAll(items: seq<Reservation>, d: Direction) returns (ok: bool)
      requires Valid() && forall x :: x in items ==> x.block in reg.blocks && x.destination in reg.bays
      modifies this
      ensures Valid() && Pass(View(), ok) == GrantPass(reg, old(View()), items, d)
    {
      ghost var goal := GrantPass(reg, View(), items, d);
      hide Available, QueuesShaped, GrantsShaped, Registry.WellFormed, ChecksPass;
      for i := 0 to |items|
        invariant Valid() && GrantPass(reg, View(), items[i..], d) == goal
      {
        var x := items[i];
        assert x == items[i..][0] && items[i..][1..] == items[i + 1..];
        var yes := ResourcesAvailable(x);
        if yes {
          ghost var s := View();
          DequeueShape(reg, s, x, d);
          var queue := RemoveFirst(waiting[x.block].Of(d), x);
          waiting := waiting[x.block := waiting[x.block].With(d, queue)];
          var passed := GrantRequest(x);
          if !passed {
            return false;
          }
        }
      }
      return true;
    }

    method ReconcileDomain(domain: DomainId) returns (ok: bool)
      requires Valid() && domain in domains
      modifies this
      ensures Valid() && Pass(View(), ok) == Reconcile(reg, old(View()), domain)
      ensures forall d :: d in domains <==> d in old(domains)
    {
      ghost var s := View();
      ReconcileShape(reg, s, domain);
      hide QueuesShaped, GrantsShaped, Registry.WellFormed, Faulted, Busy, Choose, Serve;
      var faulted := DomainFaulted(domain);
      if faulted {
        return true;
      }
      var ab := WaitingIn(domain, AToB);
      var ba := WaitingIn(domain, BToA);
      var busy := DomainBusy(domain);
      PrepareShape(reg, s, domain);
      if !busy {
        var choice := PickDirection(domain, ab, ba);
        if choice == None {
          domains := domains[domain := domains[domain].(active := None)];
          return true;
        }
        domains := domains[domain := Domain(choice, false)];
      }
      assert View() == Prepare(reg, s, domain);
      if domains[domain].active == None {
        return true;
      }
      var d := domains[domain].active.value;
      SameQueue(reg, s, View(), domain, d, reg.blockOrder);
      ok := ServeDomain(domain, d, if d == AToB then ab else ba);
    }

    method ServeDomain(domain: DomainId, d: Direction, queue: seq<Reservation>) returns (ok: bool)
      requires Valid() && domain in domains && queue == DomainWaiting(reg, View(), domain, d)
      modifies this
      ensures Valid() && Pass(View(), ok) == Serve(reg, old(View()), domain, d)
    {
      ghost var s := View();
      CollectedItems(reg, s, domain);
      var items := if domains[domain].closed then [] else queue;
      GrantPassShape(reg, s, items, d);
      ok := GrantAll(items, d);
      if ok {
        CloseShape(reg, View(), domain, d);
        var opposed := WaitingIn(domain, d.Opposite());
        if opposed != [] {
          domains := domains[domain := domains[domain].(closed := true)];
        }
      }
    }

    method ReconcileAll(order: seq<DomainId>) returns (ok: bool)
      requires Valid() && forall d :: d in order ==> d in domains
      modifies this
      ensures Valid() && Pass(View(), ok) == ReconcileEach(reg, old(View()), order)
    {
      ghost var goal := ReconcileEach(reg, View(), order);
      for i := 0 to |order|
        invariant Valid() && (forall d :: d in order ==> d in domains)
        invariant ReconcileEach(reg, View(), order[i..]) == goal
      {
        assert order[i] == order[i..][0] && order[i..][1..] == order[i + 1..];
        assert order[i] in order;
        var passed := ReconcileDomain(order[i]);
        if !passed {
          return false;
        }
      }
      return true;
    }

    // ----- Public operations ---------------------------------------------------------------

    method AskDecision(r: RobotId, b: BlockId) returns (reply: Reply)
      requires Valid()
      ensures reply == DecisionFor(reg, View(), r, b)
    {
      if b !in reg.blocks {
        return Raised(KeyError);
      }
      if blocks[b].faulted {
        return Answer(Blocked);
      }
      if Key(r, b) in grants || r in blocks[b].occupants {
        return Answer(Admit);
      }
      return Answer(Wait);
    }

    method QueueAndReconcile(x: Reservation) returns (reply: Reply)
      requires Valid() && x.block in reg.blocks && x.destination in reg.bays
      modifies this
      ensures Valid() && Effect(View(), reply) == EnqueueAndReconcile(reg, old(View()), x)
    {
      EnqueueRequest(x);
      var ok := ReconcileDomain(reg.blocks[x.block].domain);
      if !ok {
        return Raised(AssertionError);
      }
      reply := AskDecision(x.robot, x.block);
    }

    method RequestEntry(x: Reservation) returns (reply: Reply)
      requires Valid()
      modifies this
      ensures Valid() && Effect(View(), reply) == Request(reg, old(View()), x)
    {
      if x.block !in reg.blocks || x.destination !in reg.bays {
        return Raised(KeyError);
      }
      if Key(x.robot, x.block) in grants || x.robot in blocks[x.block].occupants {
        return Answer(Admit);
      }
      if blocks[x.block].faulted {
        return Answer(Blocked);
      }
      var queued := FindWaiting(x.robot, x.block);
      if queued {
        return Answer(Wait);
      }
      var domain := reg.blocks[x.block].domain;
      if domains[domain].active == None {
        reply := QueueAndReconcile(x);
        return;
      }
      if domains[domain].active.value != x.direction {
        CloseBatchShape(reg, View(), domain);
        domains := domains[domain := domains[domain].(closed := true)];
        reply := QueueAndReconcile(x);
        return;
      }
      var free := ResourcesAvailable(x);
      if domains[domain].closed || !free {
        EnqueueRequest(x);
        return Answer(Wait);
      }
      var ok := GrantRequest(x);
      return if ok then Answer(Admit) else Raised(AssertionError);
    }

    method RobotEntered(r: RobotId, b: BlockId) returns (reply: Reply)
      requires Valid()
      modifies this
      ensures Valid() && Effect(View(), reply) == MarkEntered(reg, old(View()), r, b)
    {
      if b !in reg.blocks {
        return Raised(KeyError);
      }
      if Key(r, b) !in grants {
        return if r in blocks[b].occupants then Done else Raised(ValueError);
      }
      var x := grants[Key(r, b)];
      EnterShape(reg, View(), x);
      var block := blocks[b];
      blocks := blocks[b := block.(
        reservations := block.reservations - {r}, occupants := block.occupants[r := x.direction])];
      if x.source.Some? {
        if x.source.value !in bays {
          return Raised(KeyError);
        }
        bays := bays[x.source.value := bays[x.source.value].Drop(r)];
      }
      assert View() == LeaveSource(Enter(old(View()), x), x);
      var ok := ReconcileAll(reg.domainOrder);
      if ok {
        ok := AssertInvariants();
      }
      return if ok then Done else Raised(AssertionError);
    }

    method RobotExited(r: RobotId, b: BlockId) returns (reply: Reply)
      requires Valid()
      modifies this
      ensures Valid() && Effect(View(), reply) == MarkExited(reg, old(View()), r, b)
    {
      if b !in reg.blocks {
        return Raised(KeyError);
      }
      LeaveShape(reg, View(), r, b);
      hide QueuesShaped, Registry.WellFormed, ChecksPass, ReconcileEach;
      var block := blocks[b];
      blocks := blocks[b := block.(occupants := block.occupants - {r}, reservations := block.reservations - {r})];
      if Key(r, b) in grants {
        var h := grants[Key(r, b)].destination;
        grants := grants - {Key(r, b)};
        bays := bays[h := Bay(bays[h].occupants + {r}, bays[h].reservations - {r})];
      }
      LeaveIs(old(View()), View(), r, b);
      var ok := ReconcileAll([reg.blocks[b].domain]);
      if ok {
        ok := AssertInvariants();
      }
      return if ok then Done else Raised(AssertionError);
    }

    /** A robot seen in bay `h` is in no other bay. */
    static method DiscardElsewhere(was: map<BayId, Bay>, order: seq<BayId>, h: BayId, r: RobotId)
      returns (bays: map<BayId, Bay>)
      requires forall k :: k in order <==> k in was
      ensures forall k :: k in bays <==> k in was
      ensures forall k :: k in was ==>
        bays[k] == if k != h then was[k].(occupants := was[k].occupants - {r}) else was[k]
    {
      bays := was;
      for i := 0 to |order|
        invariant forall k :: k in bays <==> k in was
        invariant forall k :: k in was ==>
          bays[k] == if k in order[..i] && k != h then was[k].(occupants := was[k].occupants - {r}) else was[k]
      {
        var k := order[i];
        assert k in order;
        if k != h {
          bays := bays[k := bays[k].(occupants := bays[k].occupants - {r})];
        }
      }
    }

    method OccupyHoldingBay(h: BayId, r: RobotId) returns (reply: Reply)
      requires Valid()
      modifies this
      ensures Valid() && Effect(View(), reply) == OccupyBay(reg, old(View()), h, r)
    {
      ghost var s := View();
      OccupyShape(reg, s, h, r);
      if h !in reg.bays {
        return Raised(KeyError);
      }
      if r !in bays[h].occupants && |bays[h].occupants| >= reg.bays[h].capacity {
        return Raised(ValueError);
      }
      assert forall k :: k in reg.bayOrder <==> k in bays;
      hide State.Shaped;
      var others := DiscardElsewhere(bays, reg.bayOrder, h, r);
      bays := others[h := others[h].(occupants := others[h].occupants + {r})];
      MovedToBay(s, others, h, r);
      return Done;
    }

    method ReleaseHoldingBay(h: BayId, r: RobotId) returns (reply: Reply)
      requires Valid()
      modifies this
      ensures Valid() && Effect(View(), reply) == ReleaseBay(reg, old(View()), h, r)
    {
      if h !in reg.bays {
        return Raised(KeyError);
      }
      bays := bays[h := bays[h].Drop(r)];
      var ok := ReconcileAll(reg.domainOrder);
      return if ok then Done else Raised(AssertionError);
    }

    /** Take the robot out of the queues of one block and give up its grant there. */
    method WithdrawAt(r: RobotId, b: BlockId) returns (changed: bool)
      requires Valid() && b in reg.blocks
      modifies this
      ensures Valid() && View() == Withdraw(old(View()), r, [b])
      ensures changed == HasRequest(old(View()), r, b)
    {
      ghost var s := View();
      WithdrawShape(reg, s, r, [b]);
      WithdrawnQueues(s, r, b);
      WithdrawnBlocks(s, r, b);
      WithdrawnBays(s, r, b);
      ShorterWithout(waiting[b].aToB, r);
      ShorterWithout(waiting[b].bToA, r);
      assert b in waiting && b in blocks && (Key(r, b) in grants ==> grants[Key(r, b)].destination in bays);
      hide Withdraw, WithoutRobot, State.Shaped, Robots;
      var q := Queues(WithoutRobot(waiting[b].aToB, r), WithoutRobot(waiting[b].bToA, r));
      changed := |q.aToB| != |waiting[b].aToB| || |q.bToA| != |waiting[b].bToA|;
      waiting := waiting[b := q];
      var popped := if Key(r, b) in grants then Some(grants[Key(r, b)]) else None;
      grants := grants - {Key(r, b)};
      blocks := blocks[b := blocks[b].(reservations := blocks[b].reservations - {r})];
      if popped.Some? {
        var h := popped.value.destination;
        bays := bays[h := bays[h].(reservations := bays[h].reservations - {r})];
        changed := true;
      }
    }

    method InsideAny(r: RobotId, targets: seq<BlockId>) returns (inside: bool)
      requires Valid() && forall b :: b in targets ==> b in blocks
      ensures inside <==> exists b :: b in targets && r in blocks[b].occupants
    {
      for i := 0 to |targets|
        invariant forall b :: b in targets[..i] ==> r !in blocks[b].occupants
      {
        var b := targets[i];
        assert b in targets;
        if r in blocks[b].occupants {
          return true;
        }
      }
      return false;
    }

    /** Withdraw the robot from every target; `affected` are their domains. */
    method WithdrawFrom(r: RobotId, targets: seq<BlockId>) returns (changed: bool, affected: set<DomainId>)
      requires Valid() && forall b :: b in targets ==> b in reg.blocks && b in waiting
      modifies this
      ensures Valid() && View() == Withdraw(old(View()), r, targets)
      ensures changed <==> exists b :: b in targets && HasRequest(old(View()), r, b)
      ensures DomainsOf(reg, targets, affected)
    {
      ghost var s := View();
      hide State.Shaped, Withdraw, HasRequest;
      changed, affected := false, {};
      WithdrawNothing(s, r);
      for i := 0 to |targets|
        invariant Valid() && View() == Withdraw(s, r, targets[..i])
        invariant changed <==> exists b :: b in targets[..i] && HasRequest(s, r, b)
        invariant DomainsOf(reg, targets[..i], affected)
      {
        var b := targets[i];
        assert b in targets && targets[..i + 1] == targets[..i] + [b];
        var here := WithdrawAt(r, b);
        WithdrawStep(s, r, targets[..i], b);
        StillThere(s, r, targets[..i], b);
        DomainsSnoc(reg, targets[..i], affected, b);
        changed := changed || here;
        affected := affected + {reg.blocks[b].domain};
      }
      assert targets[..|targets|] == targets;
    }

    /** Cancel everything the robot has at one block, or at all of them. `visit` is
        the order in which the affected domains were reconciled. */
    method CancelRequests(r: RobotId, target: Option<BlockId>) returns (reply: Reply, ghost visit: seq<DomainId>)
      requires Valid()
      modifies this
      ensures Valid() && VisitsTargets(reg, target, visit)
      ensures forall d :: d in visit ==> d in old(domains)
      ensures target.Some? && target.value in reg.blocks ==> visit == [reg.blocks[target.value].domain]
      ensures Effect(View(), reply) == Cancel(reg, old(View()), r, target, visit)
    {
      ghost var s := View();
      if target.Some? && target.value !in reg.blocks {
        return Raised(KeyError), [];
      }
      assert forall b :: b in Targets(reg, target) ==> b in reg.blocks && b in blocks && b in waiting;
      hide Cancel, State.Shaped, HasRequest, Targets;
      reply, visit := CancelKnown(r, target, if target == None then reg.blockOrder else [target.value]);
    }

    method CancelKnown(r: RobotId, ghost target: Option<BlockId>, targets: seq<BlockId>)
      returns (reply: Reply, ghost visit: seq<DomainId>)
      requires Valid() && targets == Targets(reg, target) && (target.Some? ==> target.value in reg.blocks)
      requires forall b :: b in targets ==> b in reg.blocks && b in blocks && b in waiting
      modifies this
      ensures Valid() && VisitsTargets(reg, target, visit)
      ensures forall d :: d in visit ==> d in old(domains)
      ensures target.Some? && target.value in reg.blocks ==> visit == [reg.blocks[target.value].domain]
      ensures Effect(View(), reply) == Cancel(reg, old(View()), r, target, visit)
    {
      ghost var s := View();
      hide Cancel, Withdraw, State.Shaped, HasRequest, ReconcileEach, Targets, Registry.InDomain;
      var inside := InsideAny(r, targets);
      if inside {
        visit := SomeVisit(reg, targets);
        VisitKnown(reg, s, target, visit);
        if target.Some? {
          TargetIs(reg, target);
          SingleVisit(reg, target.value, visit);
        }
        CancelCases(reg, s, r, target, visit, true, false);
        return Flag(false), visit;
      }
      var changed, affected := WithdrawFrom(r, targets);
      var order := ListOf(affected);
      visit := order;
      VisitKnown(reg, s, target, visit);
      if target.Some? {
        TargetIs(reg, target);
        SingleDomain(reg, target.value, affected);
        SingleVisit(reg, target.value, visit);
      }
      CancelCases(reg, s, r, target, visit, false, changed);
      var ok := ReconcileAll(order);
      return (if ok then Flag(changed) else Raised(AssertionError)), visit;
    }

    method ReportFault(r: RobotId) returns (reply: Reply, ghost visit: seq<DomainId>)
      requires Valid()
      modifies this
      ensures Valid() && VisitsTargets(reg, None, visit)
      ensures forall d :: d in visit ==> d in old(domains)
      ensures Effect(View(), reply) == Fault(reg, old(View()), r, visit)
    {
      ghost var s := View();
      var inside := FindOccupied(r);
      if inside.Some? {
        visit := SomeVisit(reg, reg.blockOrder);
        VisitKnown(reg, s, None, visit);
        FaultShape(reg, s, r, visit);
        hide State.Shaped;
        blocks := blocks[inside.value := blocks[inside.value].(faulted := true)];
        return Done, visit;
      }
      reply, visit := CancelRequests(r, None);
      FaultShape(reg, s, r, visit);
      hide Cancel, State.Shaped;
      if !reply.Raised? {
        reply := Done;
      }
    }

    method FindOccupied(r: RobotId) returns (found: Option<BlockId>)
      requires Valid()
      ensures found == FirstOccupied(View(), r, reg.blockOrder)
      ensures found.Some? ==> found.value in reg.blocks && found.value in blocks
    {
      for i := 0 to |reg.blockOrder|
        invariant FirstOccupied(View(), r, reg.blockOrder[i..]) == FirstOccupied(View(), r, reg.blockOrder)
      {
        var b := reg.blockOrder[i];
        assert b in reg.blockOrder && b in reg.blocks;
        if r in blocks[b].occupants {
          return Some(b);
        }
        assert reg.blockOrder[i..][1..] == reg.blockOrder[i + 1..];
      }
      return None;
    }

    method ReportUnexpectedOccupancy(r: RobotId, b: BlockId) returns (reply: Reply)
      requires Valid()
      modifies this
      ensures Valid() && Effect(View(), reply) == ReportUnexpected(reg, old(View()), r, b)
    {
      UnexpectedShape(reg, View(), r, b);
      if b !in reg.blocks {
        return Raised(KeyError);
      }
      var domain := domains[reg.blocks[b].domain];
      var d := if domain.active == None then AToB else domain.active.value;
      blocks := blocks[b := blocks[b].(occupants := blocks[b].occupants[r := d], faulted := true)];
      return Done;
    }

    method ResetAll(force: bool) returns (reply: Reply)
      requires Valid()
      modifies this
      ensures Valid() && Effect(View(), reply) == Reset(reg, old(View()), force)
    {
      InitialShape(reg);
      if !force {
        var occupied := AnyOccupied();
        if occupied {
          return Flag(false);
        }
      }
      blocks := map b | b in reg.blocks :: Block(map[], map[], false);
      bays := map h | h in reg.bays :: Bay({}, {});
      waiting := map b | b in reg.blocks :: Queues([], []);
      domains := map d | d in reg.domainOrder :: Domain(None, false);
      grants := map[];
      return Flag(true);
    }

    method AnyOccupied() returns (any: bool)
      requires Valid()
      ensures any <==> exists b :: b in blocks && blocks[b].occupants != map[]
    {
      for i := 0 to |reg.blockOrder|
        invariant forall b :: b in reg.blockOrder[..i] && b in blocks ==> blocks[b].occupants == map[]
      {
        var b := reg.blockOrder[i];
        assert b in reg.blockOrder && b in reg.blocks;
        if blocks[b].occupants != map[] {
          return true;
        }
      }
      return false;
    }
  }
}
