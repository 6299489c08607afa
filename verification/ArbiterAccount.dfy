/** The account of every step: who is in which block and in which way, which blocks are
    faulted, who is in which bay and for whom a place is kept, and what is granted and what
    is waiting after any operation, in terms of the state before it. Only admissions are
    left to the reconciliations, and those keep exactly the places they need. */
module ArbiterAccount {
  import opened Models
  import opened ArbiterSpec
  import opened ArbiterSteps
  import opened ArbiterSafety
  import opened ArbiterProgress
  import opened ArbiterRuns
  import ArbiterGuarantees

  // ----- What the events mean --------------------------------------------------------------

  ghost predicate InsideOf(s: State, r: RobotId, b: BlockId) {
    b in s.blocks && r in s.blocks[b].occupants
  }

  ghost predicate Nowhere(s: State, r: RobotId) {
    forall b :: !InsideOf(s, r, b)
  }

  /** Of the blocks the robot is in, `b` was configured first. */
  ghost predicate FirstBlock(reg: Registry, s: State, r: RobotId, b: BlockId) {
    exists i :: 0 <= i < |reg.blockOrder| && reg.blockOrder[i] == b && InsideOf(s, r, b)
                && forall k :: 0 <= k < i ==> !InsideOf(s, r, reg.blockOrder[k])
  }

  /** A reset goes ahead if it is forced or nobody is in any block. */
  ghost predicate Clears(s: State, e: Event) {
    e.WasReset? && (e.force || forall r :: Nowhere(s, r))
  }

  /** The grant on which the robot enters or leaves the block. */
  ghost predicate On(s: State, r: RobotId, b: BlockId, x: Reservation) {
    Key(r, b) in s.grants && s.grants[Key(r, b)] == x
  }

  /** The robot's requests at the block are withdrawn. */
  ghost predicate Withdraws(reg: Registry, s: State, e: Event, r: RobotId, b: BlockId) {
    match e
    case Cancelled(q, None, _) => q == r && Nowhere(s, r)
    case Cancelled(q, Some(c), _) => q == r && c == b && c in reg.blocks && !InsideOf(s, r, c)
    case FaultedAt(q, _) => q == r && Nowhere(s, r)
    case _ => false
  }

  // ----- Occupants and faults ----------------------------------------------------------------

  /** The direction in which the robot is counted in the block after the step. */
  ghost function OccupantAfter(reg: Registry, s: State, e: Event, b: BlockId, r: RobotId): Option<Direction>
    requires s.Shaped(reg) && b in reg.blocks
  {
    var now := if r in s.blocks[b].occupants then Some(s.blocks[b].occupants[r]) else None;
    match e
    case Entered(q, c) => if q == r && c == b && Key(r, b) in s.grants then Some(s.grants[Key(r, b)].direction) else now
    case Exited(q, c) => if q == r && c == b then None else now
    case SeenUnexpectedly(q, c) =>
      if q != r || c != b then now
      else if s.domains[reg.blocks[b].domain].active == None then Some(AToB)
      else s.domains[reg.blocks[b].domain].active
    case WasReset(_) => if Clears(s, e) then None else now
    case _ => now
  }

  ghost predicate FaultAfter(reg: Registry, s: State, e: Event, b: BlockId)
    requires s.Shaped(reg) && b in reg.blocks
  {
    match e
    case FaultedAt(r, _) => s.blocks[b].faulted || FirstBlock(reg, s, r, b)
    case SeenUnexpectedly(_, c) => s.blocks[b].faulted || c == b
    case WasReset(_) => s.blocks[b].faulted && !Clears(s, e)
    case _ => s.blocks[b].faulted
  }

  /** The blocks of `t` are those that the step should leave. */
  ghost predicate BlocksRight(reg: Registry, s: State, t: map<BlockId, Block>, e: Event)
    requires s.Shaped(reg)
  {
    forall b :: b in reg.blocks ==>
      && b in t && (t[b].faulted <==> FaultAfter(reg, s, e, b))
      && forall r :: (if r in t[b].occupants then Some(t[b].occupants[r]) else None) == OccupantAfter(reg, s, e, b, r)
  }

  lemma FirstOccupiedBlock(reg: Registry, s: State, r: RobotId)
    requires s.Shaped(reg)
    ensures FirstOccupied(s, r, reg.blockOrder) == None <==> Nowhere(s, r)
    ensures forall b :: FirstOccupied(s, r, reg.blockOrder) == Some(b) <==> FirstBlock(reg, s, r, b)
  {
    FirstInOrder(s, r, reg.blockOrder);
    FirstOccupiedIsFirst(s, r, reg.blockOrder);
    hide QueuesShaped, GrantsShaped, FirstOccupied;
    forall b | FirstBlock(reg, s, r, b) ensures FirstOccupied(s, r, reg.blockOrder) == Some(b) {
      var i :| 0 <= i < |reg.blockOrder| && reg.blockOrder[i] == b && InsideOf(s, r, b)
               && forall k :: 0 <= k < i ==> !InsideOf(s, r, reg.blockOrder[k]);
    }
  }

  lemma {:induction false} FirstInOrder(s: State, r: RobotId, order: seq<BlockId>)
    ensures match FirstOccupied(s, r, order)
            case None => forall k :: 0 <= k < |order| ==> !InsideOf(s, r, order[k])
            case Some(b) => exists i :: 0 <= i < |order| && order[i] == b && InsideOf(s, r, b)
                                        && forall k :: 0 <= k < i ==> !InsideOf(s, r, order[k])
  {
    if order != [] {
      FirstInOrder(s, r, order[1..]);
      if !InsideOf(s, r, order[0]) {
        assert forall k :: 0 < k < |order| ==> order[k] == order[1..][k - 1];
        if FirstOccupied(s, r, order[1..]).Some? {
          var b := FirstOccupied(s, r, order[1..]).value;
          var i :| 0 <= i < |order[1..]| && order[1..][i] == b && InsideOf(s, r, b)
                   && forall k :: 0 <= k < i ==> !InsideOf(s, r, order[1..][k]);
          assert order[i + 1] == b;
        }
      } else {
        assert order[0] == FirstOccupied(s, r, order).value;
      }
    }
  }

  /** Nobody is in any block exactly if all blocks are empty. */
  lemma NobodyInside(s: State)
    ensures (forall r :: Nowhere(s, r)) <==> forall b :: b in s.blocks ==> s.blocks[b].occupants == map[]
  {
    if forall r :: Nowhere(s, r) {
      forall b | b in s.blocks ensures s.blocks[b].occupants == map[] {
        if s.blocks[b].occupants != map[] {
          var r := ArbiterGuarantees.AnyKey(s.blocks[b].occupants);
          assert Nowhere(s, r) && InsideOf(s, r, b);
        }
      }
    }
  }

  lemma ClearsExactly(reg: Registry, s: State, force: bool)
    requires s.Shaped(reg)
    ensures Reset(reg, s, force) == if Clears(s, WasReset(force)) then Effect(Initial(reg), Flag(true)) else Effect(s, Flag(false))
  {
    hide State.Shaped, Nowhere, Initial;
    NobodyInside(s);
  }

  lemma FaultBlocks(reg: Registry, s: State, r: RobotId, visit: seq<DomainId>)
    requires s.Shaped(reg)
    ensures BlocksRight(reg, s, Prelude(reg, s, FaultedAt(r, visit)).blocks, FaultedAt(r, visit))
  {
    hide QueuesShaped, GrantsShaped, HoldsOneTo, WithoutRobot, FirstOccupied, FirstBlock, Nowhere;
    FirstOccupiedBlock(reg, s, r);
    FirstOccupiedIsFirst(s, r, reg.blockOrder);
  }

  lemma ResetBlocks(reg: Registry, s: State, force: bool)
    requires s.Shaped(reg)
    ensures BlocksRight(reg, s, Prelude(reg, s, WasReset(force)).blocks, WasReset(force))
  {
    hide QueuesShaped, GrantsShaped, Clears, Reset;
    ClearsExactly(reg, s, force);
  }

  lemma EnteredBlocks(reg: Registry, s: State, r: RobotId, b: BlockId)
    requires s.Shaped(reg)
    ensures BlocksRight(reg, s, Prelude(reg, s, Entered(r, b)).blocks, Entered(r, b))
  {
    hide QueuesShaped, Registry.WellFormed;
    if Key(r, b) in s.grants {
      assert s.grants[Key(r, b)].block == b && s.grants[Key(r, b)].robot == r;
    }
    hide GrantsShaped;
  }

  lemma ExitedBlocks(reg: Registry, s: State, r: RobotId, b: BlockId)
    requires s.Shaped(reg)
    ensures BlocksRight(reg, s, Prelude(reg, s, Exited(r, b)).blocks, Exited(r, b))
  {
    hide QueuesShaped, Registry.WellFormed, Leave;
    if b in reg.blocks {
      LeaveGone(s, r, b);
    }
    hide GrantsShaped;
  }

  lemma SeenBlocks(reg: Registry, s: State, r: RobotId, b: BlockId)
    requires s.Shaped(reg)
    ensures BlocksRight(reg, s, Prelude(reg, s, SeenUnexpectedly(r, b)).blocks, SeenUnexpectedly(r, b))
  {
    hide QueuesShaped, Registry.WellFormed, GrantsShaped;
  }

  ghost predicate SameRobots(s: map<BlockId, Block>, t: map<BlockId, Block>) {
    forall b :: b in s ==> b in t && t[b].occupants == s[b].occupants && t[b].faulted == s[b].faulted
  }

  lemma RequestedBlocks(reg: Registry, s: State, x: Reservation)
    requires s.Shaped(reg)
    ensures SameRobots(s.blocks, Prelude(reg, s, Requested(x)).blocks)
  {
    hide QueuesShaped, GrantsShaped, Registry.WellFormed, Queues.Has, Available;
  }

  lemma OtherBlocks(reg: Registry, s: State, e: Event)
    requires s.Shaped(reg) && Feasible(reg, e) && (e.Occupied? || e.Released? || e.Cancelled?)
    ensures SameRobots(s.blocks, Prelude(reg, s, e).blocks)
  {
    hide QueuesShaped, GrantsShaped, Registry.WellFormed, HoldsOneTo, WithoutRobot;
  }

  lemma SameBlocksRight(reg: Registry, s: State, t: map<BlockId, Block>, e: Event)
    requires s.Shaped(reg) && SameRobots(s.blocks, t) && (e.Requested? || e.Occupied? || e.Released? || e.Cancelled?)
    ensures BlocksRight(reg, s, t, e)
  {
  }

  lemma PreludeBlocks(reg: Registry, s: State, e: Event)
    requires Core(reg, s) && Feasible(reg, e)
    ensures BlocksRight(reg, s, Prelude(reg, s, e).blocks, e)
  {
    hide State.Shaped, GrantsHeld, QueuesDistinct, WithinCapacity, OneDirection, BlocksRight, Prelude, SameRobots;
    match e
    case Entered(r, b) => EnteredBlocks(reg, s, r, b);
    case Exited(r, b) => ExitedBlocks(reg, s, r, b);
    case SeenUnexpectedly(r, b) => SeenBlocks(reg, s, r, b);
    case FaultedAt(r, visit) => FaultBlocks(reg, s, r, visit);
    case WasReset(force) => ResetBlocks(reg, s, force);
    case Requested(x) =>
      RequestedBlocks(reg, s, x);
      SameBlocksRight(reg, s, Prelude(reg, s, e).blocks, e);
    case _ =>
      OtherBlocks(reg, s, e);
      SameBlocksRight(reg, s, Prelude(reg, s, e).blocks, e);
  }

  lemma MovedBlocksRight(reg: Registry, s: State, u: map<BlockId, Block>, t: map<BlockId, Block>, e: Event)
    requires s.Shaped(reg) && BlocksRight(reg, s, u, e) && SameRobots(u, t)
    ensures BlocksRight(reg, s, t, e)
  {
  }

  /** Who is in which block, in which direction, and which blocks are faulted after any step. */
  lemma StepBlocks(reg: Registry, s: State, e: Event)
    requires Core(reg, s) && Feasible(reg, e)
    ensures BlocksRight(reg, s, Step(reg, s, e).state.blocks, e)
  {
    hide Step, Prelude, Visited, ReconcileEach, GrantsHeld, QueuesDistinct, WithinCapacity, OneDirection, QueuesShaped,
      GrantsShaped, Registry.WellFormed, QueuesMoved, GrantsMoved, BaysMoved, BlocksRight;
    StepSplits(reg, s, e);
    PreludeKeepsCore(reg, s, e);
    PreludeBlocks(reg, s, e);
    var u := Prelude(reg, s, e);
    EachMoves(reg, u, Visited(reg, s, e));
    MovedBlocksRight(reg, s, u.blocks, Step(reg, s, e).state.blocks, e);
  }

  // ----- Requests and grants ----------------------------------------------------------------------

  /** The request is put on record by this step: it is a known robot's first at the block,
      which is healthy. */
  ghost predicate Joins(reg: Registry, s: State, e: Event, x: Reservation)
    requires s.Shaped(reg)
  {
    && e == Requested(x) && x.block in reg.blocks && x.destination in reg.bays && !s.blocks[x.block].faulted
    && Key(x.robot, x.block) !in s.grants && !InsideOf(s, x.robot, x.block)
    && forall d, y :: y in s.waiting[x.block].Of(d) ==> y.robot != x.robot
  }

  /** The grant of the robot at the block ends with this step. */
  ghost predicate EndsGrant(reg: Registry, s: State, e: Event, r: RobotId, b: BlockId) {
    (e == Exited(r, b) && b in reg.blocks) || Withdraws(reg, s, e, r, b) || Clears(s, e)
  }

  /** A grant ends only if the step ends it, and a new one goes to somebody who waited or is
      just asking. */
  ghost predicate GrantRight(reg: Registry, s: State, grants: map<Key, Reservation>, e: Event, k: Key)
    requires s.Shaped(reg)
  {
    && (k in s.grants ==>
        (k in grants <==> !EndsGrant(reg, s, e, k.robot, k.block)) && (k in grants ==> grants[k] == s.grants[k]))
    && (k !in s.grants && k in grants ==>
        k.block in reg.blocks && (grants[k] in s.waiting[k.block].Of(grants[k].direction) || Joins(reg, s, e, grants[k])))
  }

  /** Who waits after the step waited before it or has just asked, and was neither withdrawn nor
      admitted. */
  ghost predicate WaiterRight(
    reg: Registry, s: State, waiting: map<BlockId, Queues>, grants: map<Key, Reservation>, e: Event,
    b: BlockId, d: Direction, x: Reservation)
    requires s.Shaped(reg) && b in reg.blocks && b in waiting
  {
    x in waiting[b].Of(d) <==>
    && (x in s.waiting[b].Of(d) || (Joins(reg, s, e, x) && x.block == b && x.direction == d))
    && !Withdraws(reg, s, e, x.robot, b) && !Clears(s, e) && !Granted(grants, x)
  }

  ghost predicate RecordsRight(reg: Registry, s: State, t: State, e: Event)
    requires s.Shaped(reg) && t.Keyed(reg)
  {
    && (forall k :: GrantRight(reg, s, t.grants, e, k))
    && (forall b, d, x :: b in reg.blocks ==> WaiterRight(reg, s, t.waiting, t.grants, e, b, d, x))
  }

  lemma JoinsExactly(reg: Registry, s: State, x: Reservation)
    requires s.Shaped(reg)
    ensures IsNewRequest(reg, s, x) <==> Joins(reg, s, Requested(x), x)
  {
    hide QueuesShaped, GrantsShaped, Registry.WellFormed;
    if x.block in reg.blocks {
      QueuedRobot(s.waiting[x.block], x.robot);
    }
  }

  lemma QueuedRobot(q: Queues, r: RobotId)
    ensures q.Has(r) <==> exists d, y :: y in q.Of(d) && y.robot == r
  {
    if r in Robots(q.aToB) {
      var y :| y in q.Of(AToB) && y.robot == r;
    }
    if r in Robots(q.bToA) {
      var y :| y in q.Of(BToA) && y.robot == r;
    }
  }

  lemma EnqueuedItems(s: State, z: Reservation)
    requires z.block in s.waiting && !s.waiting[z.block].Has(z.robot)
    ensures var t := Enqueue(s, z);
            && t == s.(waiting := t.waiting) && (forall b :: b in s.waiting <==> b in t.waiting)
            && forall b, d, x :: b in s.waiting ==>
                 (x in t.waiting[b].Of(d) <==> x in s.waiting[b].Of(d) || (x == z && b == z.block && d == z.direction))
  {
    var t := Enqueue(s, z);
    assert z.robot !in Robots(s.waiting[z.block].Of(z.direction));
    forall b, d, x | b in s.waiting
      ensures x in t.waiting[b].Of(d) <==> x in s.waiting[b].Of(d) || (x == z && b == z.block && d == z.direction)
    {
      if b == z.block && d == z.direction {
        assert t.waiting[b].Of(d) == s.waiting[b].Of(d) + [z];
      }
    }
  }

  lemma WaitingUngranted(reg: Registry, s: State, b: BlockId, d: Direction, x: Reservation)
    requires Core(reg, s) && b in reg.blocks && x in s.waiting[b].Of(d)
    ensures x.block == b && x.direction == d && Key(x.robot, b) !in s.grants
  {
    assert x.robot in Robots(s.waiting[b].Of(d));
    assert s.waiting[b].Has(x.robot);
  }

  lemma NothingRecorded(reg: Registry, s: State, e: Event)
    requires Core(reg, s) && (forall x :: !Joins(reg, s, e, x))
    requires forall r, b :: !EndsGrant(reg, s, e, r, b)
    ensures RecordsRight(reg, s, s, e)
  {
    hide GrantsHeld, QueuesDistinct, WithinCapacity, OneDirection, QueuesShaped, GrantsShaped, Registry.WellFormed,
      Joins, Clears, Withdraws;
    forall b, d, x | b in reg.blocks ensures WaiterRight(reg, s, s.waiting, s.grants, e, b, d, x) {
      assert !EndsGrant(reg, s, e, x.robot, b);
      if x in s.waiting[b].Of(d) {
        WaitingUngranted(reg, s, b, d, x);
      }
    }
  }

  lemma RequestedEndsNothing(reg: Registry, s: State, z: Reservation)
    requires s.Shaped(reg)
    ensures forall x :: Joins(reg, s, Requested(z), x) ==> x == z
    ensures forall r, b :: !EndsGrant(reg, s, Requested(z), r, b)
  {
  }

  lemma GrantRecorded(reg: Registry, s: State, z: Reservation)
    requires Core(reg, s) && Joins(reg, s, Requested(z), z) && Grant(s, z).Keyed(reg)
    ensures RecordsRight(reg, s, Grant(s, z), Requested(z))
  {
    hide GrantsHeld, QueuesDistinct, WithinCapacity, OneDirection, QueuesShaped, GrantsShaped, Registry.WellFormed;
    RequestedEndsNothing(reg, s, z);
    var e, t := Requested(z), Grant(s, z);
    assert t.grants == s.grants[Key(z.robot, z.block) := z] && t.waiting == s.waiting;
    hide Grant, Queues.Of;
    forall k ensures GrantRight(reg, s, t.grants, e, k) {
    }
    forall b, d, x | b in reg.blocks ensures WaiterRight(reg, s, t.waiting, t.grants, e, b, d, x) {
      assert !EndsGrant(reg, s, e, x.robot, b);
      if x in s.waiting[b].Of(d) {
        WaitingUngranted(reg, s, b, d, x);
      }
    }
  }

  lemma QueueingRecorded(reg: Registry, s: State, u: State, z: Reservation)
    requires Core(reg, s) && Joins(reg, s, Requested(z), z) && u.grants == s.grants && u.Keyed(reg)
    requires forall b, d, x :: b in s.waiting ==>
      (x in u.waiting[b].Of(d) <==> x in s.waiting[b].Of(d) || (x == z && b == z.block && d == z.direction))
    ensures RecordsRight(reg, s, u, Requested(z))
  {
    hide GrantsHeld, QueuesDistinct, WithinCapacity, OneDirection, QueuesShaped, GrantsShaped, Registry.WellFormed, Queues.Of;
    RequestedEndsNothing(reg, s, z);
    var e := Requested(z);
    forall b, d, x | b in reg.blocks ensures WaiterRight(reg, s, u.waiting, u.grants, e, b, d, x) {
      assert !EndsGrant(reg, s, e, x.robot, b);
      if x in s.waiting[b].Of(d) {
        WaitingUngranted(reg, s, b, d, x);
      }
    }
  }

  lemma RequestedRecords(reg: Registry, s: State, z: Reservation)
    requires Core(reg, s) && Prelude(reg, s, Requested(z)).Keyed(reg)
    ensures RecordsRight(reg, s, Prelude(reg, s, Requested(z)), Requested(z))
  {
    assert reg.WellFormed();
    assert z.block in reg.blocks ==> reg.blocks[z.block].domain in s.domains;
    hide GrantsHeld, QueuesDistinct, WithinCapacity, OneDirection, QueuesShaped, GrantsShaped, Registry.WellFormed, Available,
      Enqueue, Queues.Has, Joins, Queues.Of, RecordsRight, Grant, EndsGrant;
    JoinsExactly(reg, s, z);
    RequestedEndsNothing(reg, s, z);
    if IsNewRequest(reg, s, z) {
      if AdmitsAtOnce(reg, s, z) {
        GrantRecorded(reg, s, z);
      } else {
        EnqueuedItems(s, z);
        EnqueuedItems(CloseBatch(s, reg.blocks[z.block].domain), z);
        QueueingRecorded(reg, s, Prelude(reg, s, Requested(z)), z);
      }
    } else {
      NothingRecorded(reg, s, Requested(z));
    }
  }

  /** Events that put nothing on record and end no grant. */
  ghost predicate Recordless(reg: Registry, s: State, e: Event)
    requires s.Shaped(reg)
  {
    match e
    case Requested(_) => false
    case Exited(_, b) => b !in reg.blocks
    case Cancelled(r, target, _) => !MayCancel(reg, s, r, target)
    case FaultedAt(r, _) => !Nowhere(s, r)
    case WasReset(_) => !Clears(s, e)
    case _ => true
  }

  lemma RecordlessEndsNothing(reg: Registry, s: State, e: Event)
    requires s.Shaped(reg) && Recordless(reg, s, e)
    ensures forall x :: !Joins(reg, s, e, x)
    ensures forall r, b :: !EndsGrant(reg, s, e, r, b)
  {
    hide QueuesShaped, GrantsShaped;
    if e.Cancelled? {
      CancelsExactly(reg, s, e.robot, e.target);
    }
  }

  lemma CancelsExactly(reg: Registry, s: State, r: RobotId, target: Option<BlockId>)
    requires s.Shaped(reg)
    ensures MayCancel(reg, s, r, target) <==>
              if target == None then Nowhere(s, r) else target.value in reg.blocks && !InsideOf(s, r, target.value)
  {
    hide QueuesShaped, GrantsShaped;
    if target.Some? {
      var b := target.value;
      assert b in Targets(reg, target);
    } else if MayCancel(reg, s, r, target) {
      forall b ensures !InsideOf(s, r, b) {
        assert b in s.blocks ==> b in reg.blocks && b in reg.blockOrder && b in Targets(reg, target);
      }
    } else {
      var b :| b in Targets(reg, target) && b in s.blocks && r in s.blocks[b].occupants;
      assert InsideOf(s, r, b);
    }
  }

  lemma SameRecords(reg: Registry, s: State, t: State, e: Event)
    requires s.Shaped(reg) && t.Keyed(reg) && t.waiting == s.waiting && t.grants == s.grants && RecordsRight(reg, s, s, e)
    ensures RecordsRight(reg, s, t, e)
  {
  }

  lemma RecordlessPrelude(reg: Registry, s: State, e: Event)
    requires s.Shaped(reg) && Feasible(reg, e) && Recordless(reg, s, e)
    ensures Prelude(reg, s, e).waiting == s.waiting && Prelude(reg, s, e).grants == s.grants
  {
    hide QueuesShaped, GrantsShaped, Registry.WellFormed, Nowhere, Clears, FirstOccupied, Reset, Withdraw;
    match e
    case FaultedAt(r, _) => FirstOccupiedBlock(reg, s, r);
    case WasReset(force) => ClearsExactly(reg, s, force);
    case _ =>
  }

  lemma RecordlessRecords(reg: Registry, s: State, e: Event)
    requires Core(reg, s) && Feasible(reg, e) && Recordless(reg, s, e) && Prelude(reg, s, e).Keyed(reg)
    ensures RecordsRight(reg, s, Prelude(reg, s, e), e)
  {
    hide GrantsHeld, QueuesDistinct, WithinCapacity, OneDirection, QueuesShaped, GrantsShaped, Registry.WellFormed, Recordless,
      Prelude, Joins, EndsGrant, RecordsRight;
    RecordlessEndsNothing(reg, s, e);
    RecordlessPrelude(reg, s, e);
    NothingRecorded(reg, s, e);
    SameRecords(reg, s, Prelude(reg, s, e), e);
  }

  lemma ExitedRecords(reg: Registry, s: State, r: RobotId, b: BlockId)
    requires Core(reg, s) && b in reg.blocks && Leave(s, r, b).Keyed(reg)
    ensures RecordsRight(reg, s, Leave(s, r, b), Exited(r, b))
  {
    hide GrantsHeld, QueuesDistinct, WithinCapacity, OneDirection, QueuesShaped, Registry.WellFormed, Leave;
    LeaveGone(s, r, b);
    var e, t := Exited(r, b), Leave(s, r, b);
    assert t.waiting == s.waiting by {
      LeaveWaiting(s, r, b);
    }
    forall k ensures GrantRight(reg, s, t.grants, e, k) {
    }
    forall c, d, x | c in reg.blocks ensures WaiterRight(reg, s, t.waiting, t.grants, e, c, d, x) {
      if x in s.waiting[c].Of(d) {
        WaitingUngranted(reg, s, c, d, x);
      }
    }
  }

  lemma LeaveWaiting(s: State, r: RobotId, b: BlockId)
    requires b in s.blocks && (Key(r, b) in s.grants ==> s.grants[Key(r, b)].destination in s.bays)
    ensures Leave(s, r, b).waiting == s.waiting
  {
  }

  lemma WithdrawnItems(s: State, r: RobotId, targets: seq<BlockId>, b: BlockId, d: Direction, x: Reservation)
    requires b in s.waiting
    ensures var u := Withdraw(s, r, targets);
            b in u.waiting && (x in u.waiting[b].Of(d) <==> x in s.waiting[b].Of(d) && !(b in targets && x.robot == r))
  {
    hide HoldsOneTo, WithoutRobot;
    WithoutRobotItems(s.waiting[b].Of(d), r);
  }

  lemma WithdrawnGrant(s: State, r: RobotId, targets: seq<BlockId>, k: Key)
    ensures var t := Withdraw(s, r, targets).grants;
            && (k in t <==> k in s.grants && !(k.robot == r && k.block in targets)) && (k in t ==> t[k] == s.grants[k])
  {
  }

  lemma WithdrawalRecords(reg: Registry, s: State, e: Event, r: RobotId, targets: seq<BlockId>)
    requires Core(reg, s) && (forall x :: !Joins(reg, s, e, x)) && !Clears(s, e) && !e.Exited?
    requires forall b :: b in targets ==> b in reg.blocks
    requires forall q, b :: b in reg.blocks ==> (Withdraws(reg, s, e, q, b) <==> q == r && b in targets)
    requires Withdraw(s, r, targets).Keyed(reg)
    ensures RecordsRight(reg, s, Withdraw(s, r, targets), e)
  {
    hide GrantsHeld, QueuesDistinct, WithinCapacity, OneDirection, QueuesShaped, Registry.WellFormed,
      Joins, Clears, Withdraws, Queues.Of, Withdraw;
    var t := Withdraw(s, r, targets);
    forall k ensures GrantRight(reg, s, t.grants, e, k) {
      WithdrawnGrant(s, r, targets, k);
      assert k in s.grants ==> k.block in reg.blocks;
    }
    forall b, d, x | b in reg.blocks ensures WaiterRight(reg, s, t.waiting, t.grants, e, b, d, x) {
      WithdrawnItems(s, r, targets, b, d, x);
      WithdrawnGrant(s, r, targets, Key(x.robot, x.block));
      if x in s.waiting[b].Of(d) {
        WaitingUngranted(reg, s, b, d, x);
      }
    }
  }

  lemma ClearedRecords(reg: Registry, s: State, force: bool)
    requires s.Shaped(reg) && Clears(s, WasReset(force)) && Initial(reg).Keyed(reg)
    ensures RecordsRight(reg, s, Initial(reg), WasReset(force))
  {
    hide QueuesShaped, GrantsShaped, Registry.WellFormed, Clears;
  }

  lemma CancelledRecords(reg: Registry, s: State, r: RobotId, target: Option<BlockId>, visit: seq<DomainId>)
    requires Core(reg, s) && MayCancel(reg, s, r, target) && Withdraw(s, r, Targets(reg, target)).Keyed(reg)
    ensures RecordsRight(reg, s, Withdraw(s, r, Targets(reg, target)), Cancelled(r, target, visit))
  {
    hide GrantsHeld, QueuesDistinct, WithinCapacity, OneDirection, QueuesShaped, GrantsShaped, Withdraw, MayCancel, Nowhere;
    var e := Cancelled(r, target, visit);
    CancelsExactly(reg, s, r, target);
    assert forall b :: b in Targets(reg, target) ==> b in reg.blocks;
    assert forall b :: b in reg.blocks ==> b in reg.blockOrder;
    hide Registry.WellFormed;
    WithdrawalRecords(reg, s, e, r, Targets(reg, target));
  }

  lemma FaultedRecords(reg: Registry, s: State, r: RobotId, visit: seq<DomainId>)
    requires Core(reg, s) && Nowhere(s, r) && Withdraw(s, r, reg.blockOrder).Keyed(reg)
    ensures RecordsRight(reg, s, Withdraw(s, r, reg.blockOrder), FaultedAt(r, visit))
  {
    hide GrantsHeld, QueuesDistinct, WithinCapacity, OneDirection, QueuesShaped, GrantsShaped, Withdraw, Nowhere;
    assert forall b :: b in reg.blocks <==> b in reg.blockOrder;
    hide Registry.WellFormed;
    WithdrawalRecords(reg, s, FaultedAt(r, visit), r, reg.blockOrder);
  }

  lemma PreludeRecords(reg: Registry, s: State, e: Event)
    requires Core(reg, s) && Feasible(reg, e) && Prelude(reg, s, e).Keyed(reg)
    ensures RecordsRight(reg, s, Prelude(reg, s, e), e)
  {
    hide GrantsHeld, QueuesDistinct, WithinCapacity, OneDirection, QueuesShaped, GrantsShaped, Registry.WellFormed,
      RecordsRight, Nowhere, FirstOccupied, MayCancel, Withdraw, Leave, Reset, Initial;
    if Recordless(reg, s, e) {
      RecordlessRecords(reg, s, e);
    } else {
      match e
      case Requested(x) => RequestedRecords(reg, s, x);
      case Exited(r, b) => ExitedRecords(reg, s, r, b);
      case Cancelled(r, target, visit) => CancelledRecords(reg, s, r, target, visit);
      case FaultedAt(r, visit) =>
        FirstOccupiedBlock(reg, s, r);
        FaultedRecords(reg, s, r, visit);
      case WasReset(force) =>
        ClearsExactly(reg, s, force);
        ClearedRecords(reg, s, force);
    }
  }

  lemma MovedGrantRight(reg: Registry, s: State, u: State, t: State, ds: set<DomainId>, e: Event, k: Key)
    requires Core(reg, s) && Core(reg, u) && Core(reg, t) && Moved(reg, u, t, ds) && RecordsRight(reg, s, u, e)
    ensures GrantRight(reg, s, t.grants, e, k)
  {
    hide GrantsHeld, QueuesDistinct, WithinCapacity, OneDirection, QueuesShaped, Registry.WellFormed, BlocksMoved, QueuesMoved,
      BaysMoved, EndsGrant, Withdraws, Clears;
    assert GrantRight(reg, s, u.grants, e, k);
    if k in t.grants && k !in u.grants {
      var b, d, x := k.block, t.grants[k].direction, t.grants[k];
      assert x in u.waiting[b].Of(d) && b in reg.blocks;
      assert WaiterRight(reg, s, u.waiting, u.grants, e, b, d, x);
      if x in s.waiting[b].Of(d) {
        WaitingUngranted(reg, s, b, d, x);
      }
    }
  }

  lemma MovedWaiterRight(
    reg: Registry, s: State, u: State, t: State, ds: set<DomainId>, e: Event, b: BlockId, d: Direction, x: Reservation)
    requires Core(reg, s) && Core(reg, u) && Core(reg, t) && Moved(reg, u, t, ds) && RecordsRight(reg, s, u, e) && b in reg.blocks
    ensures WaiterRight(reg, s, t.waiting, t.grants, e, b, d, x)
  {
    hide GrantsHeld, QueuesDistinct, WithinCapacity, OneDirection, QueuesShaped, GrantsShaped, Registry.WellFormed, BlocksMoved,
      BaysMoved, EndsGrant, Joins, Withdraws, Clears;
    assert WaiterRight(reg, s, u.waiting, u.grants, e, b, d, x);
    if x in t.waiting[b].Of(d) {
      WaitingUngranted(reg, t, b, d, x);
    }
  }

  /** What is granted and what is waiting after any step: a grant ends exactly if the step ends it,
      and a request waits exactly if it waited or has just been made and was neither
      withdrawn nor admitted. */
  lemma StepRecords(reg: Registry, s: State, e: Event)
    requires Core(reg, s) && Feasible(reg, e)
    ensures Step(reg, s, e).state.Keyed(reg) && RecordsRight(reg, s, Step(reg, s, e).state, e)
  {
    hide Step, Prelude, Visited, ReconcileEach, GrantsHeld, QueuesDistinct, WithinCapacity, OneDirection, QueuesShaped,
      GrantsShaped, Registry.WellFormed, Moved, GrantRight, WaiterRight;
    StepSplits(reg, s, e);
    PreludeKeepsCore(reg, s, e);
    PreludeRecords(reg, s, e);
    var u, t := Prelude(reg, s, e), Step(reg, s, e).state;
    EachMoves(reg, u, Visited(reg, s, e));
    var ds := HealthyOf(reg, u.blocks, Visited(reg, s, e));
    forall k ensures GrantRight(reg, s, t.grants, e, k) {
      MovedGrantRight(reg, s, u, t, ds, e, k);
    }
    forall b, d, x | b in reg.blocks ensures WaiterRight(reg, s, t.waiting, t.grants, e, b, d, x) {
      MovedWaiterRight(reg, s, u, t, ds, e, b, d, x);
    }
  }

  // ----- Bays -------------------------------------------------------------------------------------------

  /** The sighting is accepted: the robot is in the bay already, or there is room. */
  ghost predicate Sighted(reg: Registry, s: State, h: BayId, r: RobotId) {
    h in reg.bays && h in s.bays && (r in s.bays[h].occupants || |s.bays[h].occupants| < reg.bays[h].capacity)
  }

  ghost predicate InBay(s: State, r: RobotId, h: BayId) {
    h in s.bays && r in s.bays[h].occupants
  }

  ghost predicate PlaceKept(s: State, r: RobotId, h: BayId) {
    h in s.bays && r in s.bays[h].reservations
  }

  /** The robot goes from bay `h` into a block on its grant, or is reported to have gone. */
  ghost predicate LeavesBay(s: State, e: Event, r: RobotId, h: BayId) {
    match e
    case Entered(q, b) => q == r && Key(q, b) in s.grants && s.grants[Key(q, b)].source == Some(h)
    case Released(k, q) => q == r && k == h
    case _ => false
  }

  /** The robot comes out of a block into the bay of its grant. */
  ghost predicate Arrives(reg: Registry, s: State, e: Event, r: RobotId, h: BayId) {
    match e
    case Exited(q, b) => q == r && b in reg.blocks && Key(q, b) in s.grants && s.grants[Key(q, b)].destination == h
    case _ => false
  }

  ghost predicate InBayAfter(reg: Registry, s: State, e: Event, r: RobotId, h: BayId) {
    if Clears(s, e) then false
    else if e.Occupied? && e.robot == r && Sighted(reg, s, e.bay, r) then e.bay == h
    else Arrives(reg, s, e, r, h) || (InBay(s, r, h) && !LeavesBay(s, e, r, h))
  }

  /** The place kept for the robot is given up: it arrives, it goes elsewhere, or a request that
      leads there is withdrawn. */
  ghost predicate GivesUpPlace(reg: Registry, s: State, e: Event, r: RobotId, h: BayId) {
    || Clears(s, e) || LeavesBay(s, e, r, h) || Arrives(reg, s, e, r, h)
    || exists b :: Withdraws(reg, s, e, r, b) && Key(r, b) in s.grants && s.grants[Key(r, b)].destination == h
  }

  /** The robot has been admitted to a block from which it will come out in bay `h`. */
  ghost predicate NewlyBound(s: map<Key, Reservation>, t: map<Key, Reservation>, r: RobotId, h: BayId) {
    exists b :: Key(r, b) in t && Key(r, b) !in s && t[Key(r, b)].destination == h
  }

  ghost predicate PlaceRight(reg: Registry, s: State, t: State, e: Event, r: RobotId, h: BayId) {
    && (InBay(t, r, h) <==> InBayAfter(reg, s, e, r, h))
    && (PlaceKept(t, r, h) <==>
        (PlaceKept(s, r, h) && !GivesUpPlace(reg, s, e, r, h)) || NewlyBound(s.grants, t.grants, r, h))
  }

  lemma SameBaysRight(reg: Registry, s: State, t: State, e: Event, r: RobotId, h: BayId)
    requires s.Shaped(reg) && t.bays == s.bays && t.grants == s.grants && Recordless(reg, s, e)
    requires e.Occupied? ==> !Sighted(reg, s, e.bay, e.robot)
    requires forall q, k :: !LeavesBay(s, e, q, k)
    ensures PlaceRight(reg, s, t, e, r, h)
  {
    RecordlessEndsNothing(reg, s, e);
    hide State.Shaped, Recordless, Sighted;
    forall b ensures !Withdraws(reg, s, e, r, b) && !Clears(s, e) {
      assert !EndsGrant(reg, s, e, r, b);
    }
  }

  lemma EnteredPlace(reg: Registry, s: State, q: RobotId, b: BlockId, r: RobotId, h: BayId)
    requires s.Shaped(reg)
    ensures PlaceRight(reg, s, Prelude(reg, s, Entered(q, b)), Entered(q, b), r, h)
  {
    hide QueuesShaped, Registry.WellFormed;
    var e := Entered(q, b);
    if Key(q, b) in s.grants {
      assert s.grants[Key(q, b)].robot == q;
    }
    hide GrantsShaped;
  }

  lemma ExitedPlace(reg: Registry, s: State, q: RobotId, b: BlockId, r: RobotId, h: BayId)
    requires s.Shaped(reg)
    ensures PlaceRight(reg, s, Prelude(reg, s, Exited(q, b)), Exited(q, b), r, h)
  {
    hide QueuesShaped, Registry.WellFormed;
    if Key(q, b) in s.grants {
      assert s.grants[Key(q, b)].destination in s.bays;
    }
    hide GrantsShaped;
  }

  lemma OccupiedPlace(reg: Registry, s: State, k: BayId, q: RobotId, r: RobotId, h: BayId)
    requires s.Shaped(reg)
    ensures PlaceRight(reg, s, Prelude(reg, s, Occupied(k, q)), Occupied(k, q), r, h)
  {
    hide QueuesShaped, GrantsShaped, Registry.WellFormed;
  }

  lemma ReleasedPlace(reg: Registry, s: State, k: BayId, q: RobotId, r: RobotId, h: BayId)
    requires s.Shaped(reg)
    ensures PlaceRight(reg, s, Prelude(reg, s, Released(k, q)), Released(k, q), r, h)
  {
    hide QueuesShaped, GrantsShaped, Registry.WellFormed;
  }

  lemma RequestedPlace(reg: Registry, s: State, x: Reservation, r: RobotId, h: BayId)
    requires s.Shaped(reg)
    ensures PlaceRight(reg, s, Prelude(reg, s, Requested(x)), Requested(x), r, h)
  {
    hide QueuesShaped, GrantsShaped, Registry.WellFormed, Available, Queues.Has;
  }

  lemma WithdrawnPlace(reg: Registry, s: State, e: Event, q: RobotId, targets: seq<BlockId>, r: RobotId, h: BayId)
    requires s.Shaped(reg) && (e.Cancelled? || e.FaultedAt?)
    requires forall p, b :: b in reg.blocks ==> (Withdraws(reg, s, e, p, b) <==> p == q && b in targets)
    ensures PlaceRight(reg, s, Withdraw(s, q, targets), e, r, h)
  {
    hide QueuesShaped, Registry.WellFormed, Withdraws, WithoutRobot;
    forall b | Key(r, b) in s.grants ensures b in reg.blocks {
    }
    hide GrantsShaped;
  }

  lemma ClearedPlace(reg: Registry, s: State, force: bool, r: RobotId, h: BayId)
    requires s.Shaped(reg) && Clears(s, WasReset(force))
    ensures PlaceRight(reg, s, Initial(reg), WasReset(force), r, h)
  {
    hide QueuesShaped, GrantsShaped, Registry.WellFormed, Clears;
  }

  /** From `s` to `t` robots were admitted, a place was kept for each of them, and no place else. */
  ghost predicate Binds(s: State, t: State) {
    && SubGrants(t.grants, s.grants)
    && forall r, h :: PlaceKept(t, r, h) <==> PlaceKept(s, r, h) || NewlyBound(s.grants, t.grants, r, h)
  }

  lemma BindsTransitive(s: State, t: State, u: State)
    requires Binds(s, t) && Binds(t, u)
    ensures Binds(s, u)
  {
    hide PlaceKept;
    forall r, h ensures NewlyBound(s.grants, u.grants, r, h) <==> NewlyBound(s.grants, t.grants, r, h) || NewlyBound(t.grants, u.grants, r, h) {
      if b :| Key(r, b) in u.grants && Key(r, b) !in s.grants && u.grants[Key(r, b)].destination == h {
        assert Key(r, b) in t.grants || Key(r, b) !in t.grants;
      }
      if b :| Key(r, b) in t.grants && Key(r, b) !in s.grants && t.grants[Key(r, b)].destination == h {
        assert Key(r, b) in u.grants;
      }
    }
  }

  lemma BindsReflexive(s: State, t: State)
    requires t.grants == s.grants && t.bays == s.bays
    ensures Binds(s, t)
  {
  }

  lemma AdmitBinds(reg: Registry, s: State, x: Reservation, d: Direction)
    requires s.Keyed(reg) && x.block in reg.blocks && x.destination in reg.bays && Key(x.robot, x.block) !in s.grants
    ensures Binds(s, Grant(Dequeue(s, x, d), x))
  {
    var t := Grant(Dequeue(s, x, d), x);
    assert t.grants == s.grants[Key(x.robot, x.block) := x];
    assert t.bays == s.bays[x.destination := s.bays[x.destination].(reservations := s.bays[x.destination].reservations + {x.robot})];
    hide Grant, Dequeue;
  }

  lemma PassBinds(reg: Registry, s: State, domain: DomainId, items: seq<Reservation>, d: Direction)
    requires Core(reg, s) && domain in s.domains && s.domains[domain].active == Some(d)
    requires Pending(reg, s, domain, items, d)
    ensures Binds(s, GrantPass(reg, s, items, d).state)
    decreases |items|
  {
    hide Available, ChecksPass, GrantsHeld, QueuesDistinct, Binds,
      WithinCapacity, OneDirection, QueuesShaped, GrantsShaped, Registry.WellFormed, DistinctKeys;
    if items == [] {
      BindsReflexive(s, s);
    } else {
      var x := items[0];
      assert x in items;
      if !Available(reg, s, x) {
        PendingTail(reg, s, domain, items, d);
        PassBinds(reg, s, domain, items[1..], d);
      } else {
        var t := Grant(Dequeue(s, x, d), x);
        AdmitKeepsCore(reg, s, x, d);
        WaitingUngranted(reg, s, x.block, d, x);
        AdmitBinds(reg, s, x, d);
        if ChecksPass(reg, t) {
          PendingAfterAdmit(reg, s, domain, items, d);
          PassBinds(reg, t, domain, items[1..], d);
          BindsTransitive(s, t, GrantPass(reg, t, items[1..], d).state);
        }
      }
    }
  }

  lemma ReconcileBinds(reg: Registry, s: State, domain: DomainId)
    requires Core(reg, s) && domain in s.domains
    ensures Binds(s, Reconcile(reg, s, domain).state)
  {
    hide Faulted, GrantsHeld, QueuesDistinct, WithinCapacity, OneDirection, QueuesShaped, GrantsShaped, Registry.WellFormed,
      Binds, GrantPass, CloseIfOpposed, DomainWaiting, Pending, Choose, Busy;
    BindsReflexive(s, s);
    if !Faulted(reg, s.blocks, domain) {
      PrepareShape(reg, s, domain);
      PrepareKeepsCore(reg, s, domain);
      var p := Prepare(reg, s, domain);
      BindsReflexive(s, p);
      if p.domains[domain].active.Some? {
        var d := p.domains[domain].active.value;
        var items := RoundItems(reg, p, domain, d);
        DomainPending(reg, p, domain, d);
        CollectedItems(reg, p, domain);
        PassBinds(reg, p, domain, items, d);
        GrantPassShape(reg, p, items, d);
        var v := GrantPass(reg, p, items, d).state;
        BindsTransitive(s, p, v);
        CloseBinds(reg, v, domain, d);
        BindsTransitive(s, v, CloseIfOpposed(reg, v, domain, d));
      }
    }
  }

  lemma CloseBinds(reg: Registry, s: State, domain: DomainId, d: Direction)
    requires s.Shaped(reg) && domain in s.domains
    ensures Binds(s, CloseIfOpposed(reg, s, domain, d))
  {
    hide SortByTime, Collect, State.Shaped;
  }

  lemma {:induction false} EachBinds(reg: Registry, s: State, order: seq<DomainId>)
    requires Core(reg, s) && forall d :: d in order ==> d in s.domains
    ensures Binds(s, ReconcileEach(reg, s, order).state)
    decreases |order|
  {
    hide Reconcile, BlocksMoved, BaysMoved, QueuesMoved, GrantsMoved, GrantsHeld, QueuesDistinct, WithinCapacity,
      OneDirection, QueuesShaped, GrantsShaped, Registry.WellFormed, Binds;
    if order == [] {
      BindsReflexive(s, s);
    } else {
      var first := Reconcile(reg, s, order[0]);
      ReconcileBinds(reg, s, order[0]);
      ReconcileMoves(reg, s, order[0]);
      if first.ok {
        EachBinds(reg, first.state, order[1..]);
        BindsTransitive(s, first.state, ReconcileEach(reg, first.state, order[1..]).state);
      }
    }
  }

  lemma RecordlessPlace(reg: Registry, s: State, e: Event, r: RobotId, h: BayId)
    requires Core(reg, s) && Feasible(reg, e) && Recordless(reg, s, e)
    requires !e.Occupied? && !e.Released? && !e.Entered?
    ensures PlaceRight(reg, s, Prelude(reg, s, e), e, r, h)
  {
    hide GrantsHeld, QueuesDistinct, WithinCapacity, OneDirection, QueuesShaped, GrantsShaped, Registry.WellFormed,
      PlaceRight, Recordless, Nowhere, FirstOccupied, Reset, Withdraw;
    RecordlessPrelude(reg, s, e);
    assert Prelude(reg, s, e).bays == s.bays by {
      RecordlessBays(reg, s, e);
    }
    SameBaysRight(reg, s, Prelude(reg, s, e), e, r, h);
  }

  lemma RecordlessBays(reg: Registry, s: State, e: Event)
    requires s.Shaped(reg) && Feasible(reg, e) && Recordless(reg, s, e) && !e.Occupied? && !e.Released? && !e.Entered?
    ensures Prelude(reg, s, e).bays == s.bays
  {
    hide QueuesShaped, GrantsShaped, Registry.WellFormed, Nowhere, Clears, FirstOccupied, Reset, Withdraw;
    match e
    case FaultedAt(r, _) => FirstOccupiedBlock(reg, s, r);
    case WasReset(force) => ClearsExactly(reg, s, force);
    case _ =>
  }

  lemma PreludePlace(reg: Registry, s: State, e: Event, r: RobotId, h: BayId)
    requires Core(reg, s) && Feasible(reg, e)
    ensures PlaceRight(reg, s, Prelude(reg, s, e), e, r, h)
  {
    hide GrantsHeld, QueuesDistinct, WithinCapacity, OneDirection, QueuesShaped, GrantsShaped, PlaceRight, Nowhere,
      FirstOccupied, MayCancel, Withdraw, Leave, Reset, Initial;
    assert forall b :: b in reg.blocks <==> b in reg.blockOrder;
    hide Registry.WellFormed;
    match e
    case Entered(q, b) => EnteredPlace(reg, s, q, b, r, h);
    case Exited(q, b) => ExitedPlace(reg, s, q, b, r, h);
    case Occupied(k, q) => OccupiedPlace(reg, s, k, q, r, h);
    case Released(k, q) => ReleasedPlace(reg, s, k, q, r, h);
    case Requested(x) => RequestedPlace(reg, s, x, r, h);
    case Cancelled(q, target, visit) =>
      if MayCancel(reg, s, q, target) {
        CancelsExactly(reg, s, q, target);
        WithdrawnPlace(reg, s, e, q, Targets(reg, target), r, h);
      } else {
        RecordlessPlace(reg, s, e, r, h);
      }
    case FaultedAt(q, visit) =>
      FirstOccupiedBlock(reg, s, q);
      if Nowhere(s, q) {
        WithdrawnPlace(reg, s, e, q, reg.blockOrder, r, h);
      } else {
        RecordlessPlace(reg, s, e, r, h);
      }
    case SeenUnexpectedly(q, b) => RecordlessPlace(reg, s, e, r, h);
    case WasReset(force) =>
      ClearsExactly(reg, s, force);
      if Clears(s, e) {
        ClearedPlace(reg, s, force, r, h);
      } else {
        RecordlessPlace(reg, s, e, r, h);
      }
  }

  lemma BoundAcross(reg: Registry, s: State, u: State, t: State, ds: set<DomainId>, e: Event, r: RobotId, h: BayId)
    requires Core(reg, s) && Core(reg, u) && Core(reg, t) && Moved(reg, u, t, ds) && RecordsRight(reg, s, u, e) && Binds(u, t)
    ensures NewlyBound(s.grants, t.grants, r, h) <==> NewlyBound(s.grants, u.grants, r, h) || NewlyBound(u.grants, t.grants, r, h)
  {
    hide GrantsHeld, QueuesDistinct, WithinCapacity, OneDirection, QueuesShaped, GrantsShaped, Registry.WellFormed, PlaceKept,
      Moved, EndsGrant, WaiterRight;
    forall b | Key(r, b) in t.grants && Key(r, b) !in u.grants ensures Key(r, b) !in s.grants {
      MovedGrantRight(reg, s, u, t, ds, e, Key(r, b));
      assert GrantRight(reg, s, u.grants, e, Key(r, b));
    }
    if b :| Key(r, b) in u.grants && Key(r, b) !in s.grants && u.grants[Key(r, b)].destination == h {
      assert Key(r, b) in t.grants;
    }
    if b :| Key(r, b) in t.grants && Key(r, b) !in u.grants && t.grants[Key(r, b)].destination == h {
      assert Key(r, b) !in s.grants;
    }
  }

  /** Who is in which bay, and for whom a place is kept there, after any step. */
  lemma StepBays(reg: Registry, s: State, e: Event, r: RobotId, h: BayId)
    requires Core(reg, s) && Feasible(reg, e) && h in reg.bays
    ensures PlaceRight(reg, s, Step(reg, s, e).state, e, r, h)
  {
    hide Step, Prelude, Visited, ReconcileEach, GrantsHeld, QueuesDistinct, WithinCapacity, OneDirection, QueuesShaped,
      GrantsShaped, Registry.WellFormed, BlocksMoved, QueuesMoved, GrantsMoved, NewlyBound, RecordsRight, InBayAfter, GivesUpPlace;
    StepSplits(reg, s, e);
    PreludeKeepsCore(reg, s, e);
    PreludeRecords(reg, s, e);
    PreludePlace(reg, s, e, r, h);
    var u, t := Prelude(reg, s, e), Step(reg, s, e).state;
    EachMoves(reg, u, Visited(reg, s, e));
    EachBinds(reg, u, Visited(reg, s, e));
    BoundAcross(reg, s, u, t, HealthyOf(reg, u.blocks, Visited(reg, s, e)), e, r, h);
  }

  // ----- Answers ----------------------------------------------------------------------------------------

  /** The robot was admitted to the block or is inside it. */
  ghost predicate MayPass(a: State, r: RobotId, b: BlockId) {
    Key(r, b) in a.grants || InsideOf(a, r, b)
  }

  /** What the arbiter should answer about a robot at a block. */
  ghost function RightAnswer(a: State, r: RobotId, b: BlockId): Decision
    requires b in a.blocks
  {
    if a.blocks[b].faulted then Blocked else if MayPass(a, r, b) then Admit else Wait
  }

  lemma DecidesExactly(reg: Registry, a: State, r: RobotId, b: BlockId)
    requires a.Shaped(reg)
    ensures DecisionFor(reg, a, r, b) == if b in reg.blocks then Answer(RightAnswer(a, r, b)) else Raised(KeyError)
  {
  }

  /** A new request hears what the decision will be right after it. */
  lemma NewRequestHears(reg: Registry, a: State, x: Reservation)
    requires a.Shaped(reg) && IsNewRequest(reg, a, x)
    ensures var e := Request(reg, a, x);
            && e.state.Shaped(reg) && (e.Ok() ==> e.reply == Answer(RightAnswer(e.state, x.robot, x.block)))
  {
    hide Available, ChecksPass, Reconcile, QueuesShaped, GrantsShaped, Registry.WellFormed, Queues.Has;
    RequestShape(reg, a, x);
    DecidesExactly(reg, Request(reg, a, x).state, x.robot, x.block);
  }

  lemma RequestKeepsFaults(reg: Registry, a: State, x: Reservation)
    requires Core(reg, a) && x.block in reg.blocks
    ensures var t := Request(reg, a, x).state; t.Shaped(reg) && t.blocks[x.block].faulted == a.blocks[x.block].faulted
  {
    hide ReconcileEach, Visited, GrantsHeld, QueuesDistinct, WithinCapacity, OneDirection, QueuesShaped, GrantsShaped,
      Registry.WellFormed, QueuesMoved, GrantsMoved, BaysMoved, Request, Available, Enqueue, Queues.Has, CloseBatch;
    var e := Requested(x);
    RequestShape(reg, a, x);
    StepSplits(reg, a, e);
    PreludeKeepsCore(reg, a, e);
    EachMoves(reg, Prelude(reg, a, e), Visited(reg, a, e));
    PreludeKeepsFaults(reg, a, x);
  }

  lemma PreludeKeepsFaults(reg: Registry, a: State, x: Reservation)
    requires a.Shaped(reg) && x.block in reg.blocks && Prelude(reg, a, Requested(x)).Shaped(reg)
    ensures Prelude(reg, a, Requested(x)).blocks[x.block].faulted == a.blocks[x.block].faulted
  {
    hide Available, QueuesShaped, GrantsShaped, Registry.WellFormed, Queues.Has;
  }

  /** The answer to a request, by the state it leaves: ADMIT exactly to those who may pass and
      otherwise BLOCKED exactly if the block was faulted; neither a robot that may pass
      already nor a faulted block changes anything. */
  lemma RequestAnswersExactly(reg: Registry, a: State, x: Reservation)
    requires Core(reg, a) && x.block in reg.blocks && x.destination in reg.bays
    ensures var e, r, b := Step(reg, a, Requested(x)), x.robot, x.block;
            && e.state.Shaped(reg)
            && (e.Ok() || e.reply == Raised(AssertionError))
            && (e.Ok() ==> e.reply == Answer(
                  if MayPass(e.state, r, b) then Admit else if a.blocks[b].faulted then Blocked else Wait))
            && (MayPass(a, r, b) || a.blocks[b].faulted ==> e.Ok() && e.state == a)
  {
    hide Available, ChecksPass, Reconcile, QueuesShaped, GrantsShaped, Registry.WellFormed, Queues.Has, GrantsHeld, QueuesDistinct,
      WithinCapacity, OneDirection, Request, EnqueueAndReconcile;
    RequestKeepsFaults(reg, a, x);
    RequestShape(reg, a, x);
    if IsNewRequest(reg, a, x) {
      NewRequestHears(reg, a, x);
      NewRequestRaises(reg, a, x);
    } else {
      OldRequestHears(reg, a, x);
    }
  }

  lemma NewRequestRaises(reg: Registry, a: State, x: Reservation)
    requires a.Shaped(reg) && IsNewRequest(reg, a, x)
    ensures var e := Request(reg, a, x); e.Ok() || e.reply == Raised(AssertionError)
  {
    hide Available, ChecksPass, Reconcile, QueuesShaped, GrantsShaped, Registry.WellFormed, Queues.Has;
    RequestShape(reg, a, x);
  }

  lemma OldRequestHears(reg: Registry, a: State, x: Reservation)
    requires a.Shaped(reg) && x.block in reg.blocks && x.destination in reg.bays && !IsNewRequest(reg, a, x)
    ensures Request(reg, a, x) == Effect(a, Answer(
              if MayPass(a, x.robot, x.block) then Admit else if a.blocks[x.block].faulted then Blocked else Wait))
  {
    hide QueuesShaped, GrantsShaped, Registry.WellFormed, Queues.Has, EnqueueAndReconcile, Available;
  }

  /** The robot has something at the block that can be withdrawn. */
  ghost predicate HasAnything(s: State, r: RobotId, b: BlockId) {
    Key(r, b) in s.grants || (b in s.waiting && exists d, x :: x in s.waiting[b].Of(d) && x.robot == r)
  }

  /** What a step that passes the runtime checks should answer. */
  ghost function RightReply(reg: Registry, s: State, t: State, e: Event): Reply
    requires s.Shaped(reg)
  {
    match e
    case Requested(x) =>
      if x.block !in reg.blocks || x.destination !in reg.bays then Raised(KeyError)
      else Answer(if MayPass(t, x.robot, x.block) then Admit else if s.blocks[x.block].faulted then Blocked else Wait)
    case Entered(r, b) =>
      if b !in reg.blocks then Raised(KeyError)
      else if Key(r, b) !in s.grants then if InsideOf(s, r, b) then Done else Raised(ValueError)
      else if s.grants[Key(r, b)].source.Some? && s.grants[Key(r, b)].source.value !in reg.bays then Raised(KeyError)
      else Done
    case Exited(_, b) => if b in reg.blocks then Done else Raised(KeyError)
    case Occupied(h, r) => if h !in reg.bays then Raised(KeyError) else if Sighted(reg, s, h, r) then Done else Raised(ValueError)
    case Released(h, _) => if h in reg.bays then Done else Raised(KeyError)
    case Cancelled(r, target, _) =>
      if target.Some? && target.value !in reg.blocks then Raised(KeyError)
      else Flag(exists b :: Withdraws(reg, s, e, r, b) && HasAnything(s, r, b))
    case FaultedAt(_, _) => Done
    case SeenUnexpectedly(_, b) => if b in reg.blocks then Done else Raised(KeyError)
    case WasReset(_) => Flag(Clears(s, e))
  }

  lemma CancelFinds(reg: Registry, s: State, r: RobotId, target: Option<BlockId>, visit: seq<DomainId>)
    requires s.Shaped(reg) && MayCancel(reg, s, r, target)
    ensures (exists b | b in Targets(reg, target) :: b in s.waiting && HasRequest(s, r, b)) <==>
              exists b :: Withdraws(reg, s, Cancelled(r, target, visit), r, b) && HasAnything(s, r, b)
  {
    hide QueuesShaped, Nowhere, MayCancel, HasAnything, HasRequest;
    CancelsExactly(reg, s, r, target);
    forall b | b in s.waiting ensures HasRequest(s, r, b) <==> HasAnything(s, r, b) {
      RequestsExactly(s, r, b);
    }
    forall b | HasAnything(s, r, b) ensures b in s.waiting && b in reg.blockOrder {
      AnythingKnown(reg, s, r, b);
    }
  }

  lemma AnythingKnown(reg: Registry, s: State, r: RobotId, b: BlockId)
    requires s.Shaped(reg) && HasAnything(s, r, b)
    ensures b in s.waiting && b in reg.blockOrder
  {
  }

  lemma CancelReplies(reg: Registry, s: State, r: RobotId, target: Option<BlockId>, visit: seq<DomainId>)
    requires s.Shaped(reg) && VisitsTargets(reg, target, visit)
    ensures var e := Step(reg, s, Cancelled(r, target, visit));
            e.Unchecked() ==> e.reply == RightReply(reg, s, e.state, Cancelled(r, target, visit))
  {
    hide QueuesShaped, GrantsShaped, Registry.WellFormed, ReconcileEach, Withdraw, Nowhere, HasAnything, HasRequest;
    CancelsExactly(reg, s, r, target);
    if MayCancel(reg, s, r, target) {
      CancelFinds(reg, s, r, target, visit);
    }
  }

  lemma RequestsExactly(s: State, r: RobotId, b: BlockId)
    requires b in s.waiting
    ensures HasRequest(s, r, b) <==> HasAnything(s, r, b)
  {
    QueuedRobot(s.waiting[b], r);
  }

  lemma FaultReplies(reg: Registry, s: State, r: RobotId, visit: seq<DomainId>)
    requires s.Shaped(reg) && Feasible(reg, FaultedAt(r, visit))
    ensures Step(reg, s, FaultedAt(r, visit)).reply in {Done, Raised(AssertionError)}
  {
    hide QueuesShaped, GrantsShaped, Registry.WellFormed, ReconcileEach, Withdraw, FirstOccupied;
  }

  lemma UnknownRequest(reg: Registry, s: State, x: Reservation)
    requires s.Shaped(reg) && (x.block !in reg.blocks || x.destination !in reg.bays)
    ensures Request(reg, s, x) == Effect(s, Raised(KeyError))
  {
  }

  lemma EntryReplies(reg: Registry, s: State, r: RobotId, b: BlockId)
    requires s.Shaped(reg) && Step(reg, s, Entered(r, b)).Unchecked()
    ensures var e := Step(reg, s, Entered(r, b)); e.reply == RightReply(reg, s, e.state, Entered(r, b))
  {
    hide QueuesShaped, Registry.WellFormed, ReconcileEach, Enter, ChecksPass;
    if b in reg.blocks && Key(r, b) in s.grants {
      var x := s.grants[Key(r, b)];
      EnterShape(reg, s, x);
      if x.source.Some? ==> x.source.value in s.bays {
        var u := LeaveSource(Enter(s, x), x);
        assert u.Shaped(reg) && u.domains == s.domains;
        assert MarkEntered(reg, s, r, b) == ReconcileAndCheck(reg, u, reg.domainOrder);
      } else {
        var h: BayId := x.source.value;
        assert h in s.bays <==> h in reg.bays;
      }
    }
  }

  lemma OtherReplies(reg: Registry, s: State, e: Event)
    requires s.Shaped(reg) && Feasible(reg, e) && Step(reg, s, e).Unchecked()
    requires e.Exited? || e.Occupied? || e.Released? || e.SeenUnexpectedly?
    ensures Step(reg, s, e).reply == RightReply(reg, s, Step(reg, s, e).state, e)
  {
    hide QueuesShaped, GrantsShaped, Registry.WellFormed, ReconcileEach, Leave, ChecksPass;
  }

  /** What every step answers if no runtime check fails. */
  lemma StepReplies(reg: Registry, s: State, e: Event)
    requires Core(reg, s) && Feasible(reg, e) && Step(reg, s, e).Unchecked()
    ensures Step(reg, s, e).reply == RightReply(reg, s, Step(reg, s, e).state, e)
  {
    hide GrantsHeld, QueuesDistinct, WithinCapacity, OneDirection, QueuesShaped, GrantsShaped, Registry.WellFormed,
      ReconcileEach, Request, Cancel, Fault, MarkEntered, MarkExited, OccupyBay, ReleaseBay, ReportUnexpected, Reset, Initial,
      Clears, Nowhere, MayPass, Sighted, InsideOf, Withdraws, HasAnything;
    match e
    case Requested(x) =>
      if x.block in reg.blocks && x.destination in reg.bays {
        RequestAnswersExactly(reg, s, x);
      } else {
        UnknownRequest(reg, s, x);
      }
    case Entered(r, b) => EntryReplies(reg, s, r, b);
    case Cancelled(r, target, visit) => CancelReplies(reg, s, r, target, visit);
    case FaultedAt(r, visit) => FaultReplies(reg, s, r, visit);
    case WasReset(force) => ClearsExactly(reg, s, force);
    case _ => OtherReplies(reg, s, e);
  }

  /** At the start, and after a reset, no domain has a direction or a closed batch, nothing waits or is granted, every
      block is healthy and empty, and so is every bay. */
  lemma StartsFresh(reg: Registry, d: DomainId, b: BlockId, h: BayId)
    ensures d in Initial(reg).domains <==> d in reg.domainOrder
    ensures d in Initial(reg).domains ==> Initial(reg).domains[d] == Domain(None, false)
    ensures b in Initial(reg).blocks <==> b in reg.blocks
    ensures b in Initial(reg).blocks ==> Initial(reg).blocks[b] == Block(map[], map[], false)
    ensures b in Initial(reg).waiting <==> b in reg.blocks
    ensures b in Initial(reg).waiting ==> Initial(reg).waiting[b] == Queues([], [])
    ensures h in Initial(reg).bays <==> h in reg.bays
    ensures h in Initial(reg).bays ==> Initial(reg).bays[h] == Bay({}, {})
    ensures Initial(reg).grants == map[]
  {
  }
}
