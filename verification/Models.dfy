/** The records shared by the corridor admission modules.

    Identifiers are only ever compared with each other, so integers stand
    for the strings of the configuration. */
module Models {

  type RobotId = int
  type BlockId = int
  type BayId = int
  type DomainId = int
  type NodeId = int

  datatype Option<+T> = None | Some(value: T)

  datatype Direction = AToB | BToA {
    function Opposite(): Direction {
      match this
      case AToB => BToA
      case BToA => AToB
    }
  }

  datatype Decision = Admit | Wait | Blocked

  datatype Error = KeyError | ValueError | AssertionError

  /** A request for a block together with the bay behind it. `source` is the bay
      that the robot leaves on entry, if the caller named one. */
  datatype Reservation = Reservation(
    robot: RobotId, block: BlockId, direction: Direction,
    destination: BayId, source: Option<BayId>, time: int)

  /** One corridor crossing of a managed route. */
  datatype RouteStep = RouteStep(
    block: BlockId, direction: Direction, destination: BayId,
    goal: NodeId, source: Option<BayId>)

  datatype Route = Route(starts: set<NodeId>, goals: set<NodeId>, steps: seq<RouteStep>)

  datatype BlockConfig = BlockConfig(
    domain: DomainId, entryA: BayId, entryB: BayId, capacity: int, edges: set<nat>)
  {
    /** The bay a robot crossing in direction `d` comes from. */
    function Entry(d: Direction): BayId {
      if d == AToB then entryA else entryB
    }

    /** The bay a robot crossing in direction `d` arrives in. */
    function Exit(d: Direction): BayId {
      if d == AToB then entryB else entryA
    }
  }

  datatype BayConfig = BayConfig(node: NodeId, capacity: int)

  /** The static part of the registry. `blockOrder` and `bayOrder` are the insertion orders of
      the dictionaries, `domainOrder` the order in which the arbiter first met
      each direction domain. */
  datatype Registry = Registry(
    blocks: map<BlockId, BlockConfig>, blockOrder: seq<BlockId>,
    bays: map<BayId, BayConfig>, bayOrder: seq<BayId>,
    domainOrder: seq<DomainId>, routes: seq<Route>)
  {
    ghost predicate WellFormed() {
      && (forall b :: b in blockOrder <==> b in blocks)
      && (forall i, j :: 0 <= i < j < |blockOrder| ==> blockOrder[i] != blockOrder[j])
      && (forall h :: h in bayOrder <==> h in bays)
      && (forall b :: b in blocks ==>
          && blocks[b].entryA in bays && blocks[b].entryB in bays
          && blocks[b].capacity >= 1 && blocks[b].domain in domainOrder)
      && (forall h :: h in bays ==> bays[h].capacity >= 1)
    }

    predicate InDomain(b: BlockId, domain: DomainId) {
      b in blocks && blocks[b].domain == domain
    }
  }
}
