/** The log store of the monitor: entries are trimmed from the front in batches, an index
    of the order entries follows along, and a cache keeps the latest data of every
    vehicle. Position trails are not part of this model. */
module LogStores {
  import opened Models

  datatype Topic = OrderTopic | InstantTopic | StateTopic | ConnectionTopic | OtherTopic

  datatype Entry = Entry(topic: Topic, vehicle: int, data: int, time: int)

  /** The latest data of each kind, by vehicle. */
  datatype Cache = Cache(orders: map<int, int>, instants: map<int, int>, states: map<int, int>, connections: map<int, int>)
  {
    function With(e: Entry): Cache {
      match e.topic
      case OrderTopic => this.(orders := orders[e.vehicle := e.data])
      case InstantTopic => this.(instants := instants[e.vehicle := e.data])
      case StateTopic => this.(states := states[e.vehicle := e.data])
      case ConnectionTopic => this.(connections := connections[e.vehicle := e.data])
      case OtherTopic => this
    }

    function Of(topic: Topic): map<int, int> {
      match topic
      case OrderTopic => orders
      case InstantTopic => instants
      case StateTopic => states
      case ConnectionTopic => connections
      case OtherTopic => map[]
    }

    function Vehicles(): set<int> {
      orders.Keys + instants.Keys + states.Keys + connections.Keys
    }
  }

  const EMPTY_CACHE := Cache(map[], map[], map[], map[])

  /** The entries looked at one after the other. */
  function CacheOf(entries: seq<Entry>): Cache {
    if entries == [] then EMPTY_CACHE
    else CacheOf(entries[..|entries| - 1]).With(entries[|entries| - 1])
  }

  /** The latest data of one kind and vehicle among the entries, found by searching back. */
  function Latest(entries: seq<Entry>, topic: Topic, vehicle: int): Option<int> {
    if entries == [] then None
    else
      var last := entries[|entries| - 1];
      if last.topic == topic && last.vehicle == vehicle then Some(last.data)
      else Latest(entries[..|entries| - 1], topic, vehicle)
  }

  function Get(m: map<int, int>, k: int): Option<int> {
    if k in m then Some(m[k]) else None
  }

  datatype Snapshot = Snapshot(order: Option<int>, instant: Option<int>, state: Option<int>, connection: Option<int>)

  function SnapshotOf(c: Cache, vehicle: int): Snapshot {
    Snapshot(Get(c.orders, vehicle), Get(c.instants, vehicle), Get(c.states, vehicle), Get(c.connections, vehicle))
  }

  function SnapshotsOf(c: Cache): map<int, Snapshot> {
    map v | v in c.Vehicles() :: SnapshotOf(c, v)
  }

  /** The positions of the order entries, in order. */
  function OrderPositions(entries: seq<Entry>): seq<int> {
    if entries == [] then []
    else
      OrderPositions(entries[..|entries| - 1])
      + (if entries[|entries| - 1].topic.OrderTopic? then [|entries| - 1] else [])
  }

  /** The indices after `k` entries have been dropped from the front. */
  function Shifted(indices: seq<int>, k: int): seq<int> {
    if indices == [] then []
    else (if indices[0] - k >= 0 then [indices[0] - k] else []) + Shifted(indices[1..], k)
  }

  /** How many entries at the front are outdated. */
  function Outdated(entries: seq<Entry>, cutoff: int): (count: nat)
    ensures count <= |entries|
    ensures forall i :: 0 <= i < count ==> entries[i].time < cutoff
    ensures count < |entries| ==> entries[count].time >= cutoff
  {
    if entries == [] || entries[0].time >= cutoff then 0 else 1 + Outdated(entries[1..], cutoff)
  }

  lemma {:induction false} OutdatedIs(entries: seq<Entry>, cutoff: int, count: nat)
    requires count <= |entries| && forall i :: 0 <= i < count ==> entries[i].time < cutoff
    requires count < |entries| ==> entries[count].time >= cutoff
    ensures count == Outdated(entries, cutoff)
  {
  }

  /** Outdated entries go in batches only. */
  function Trimmed(entries: seq<Entry>, cutoff: int): nat {
    if Outdated(entries, cutoff) >= TRIM_BATCH then Outdated(entries, cutoff) else 0
  }

  /** Trimming waits until two hundred entries at the front are outdated, and then drops every outdated one up
      to the first that is not. */
  lemma TrimmedExactly(entries: seq<Entry>, cutoff: int)
    ensures var k := Trimmed(entries, cutoff);
            && k <= |entries| && (forall i :: 0 <= i < k ==> entries[i].time < cutoff)
            && (k > 0 <==> |entries| >= 200 && forall i :: 0 <= i < 200 ==> entries[i].time < cutoff)
            && (0 < k < |entries| ==> entries[k].time >= cutoff)
  {
  }

  // ----- The index ----------------------------------------------------------------------

  /** The index is increasing, and holds exactly the positions of the order entries. */
  lemma {:induction false} PositionsAreExact(entries: seq<Entry>)
    ensures forall i, j :: 0 <= i < j < |OrderPositions(entries)| ==> OrderPositions(entries)[i] < OrderPositions(entries)[j]
    ensures forall p :: p in OrderPositions(entries) <==> 0 <= p < |entries| && entries[p].topic.OrderTopic?
  {
    if entries != [] {
      var before := entries[..|entries| - 1];
      PositionsAreExact(before);
      assert forall i :: 0 <= i < |OrderPositions(before)| ==> OrderPositions(before)[i] in OrderPositions(before);
    }
  }

  lemma {:induction false} ShiftedSnoc(indices: seq<int>, p: int, k: int)
    ensures Shifted(indices + [p], k) == Shifted(indices, k) + (if p - k >= 0 then [p - k] else [])
  {
    if indices == [] {
      assert indices + [p] == [p];
    } else {
      ShiftedSnoc(indices[1..], p, k);
      assert (indices + [p])[1..] == indices[1..] + [p];
    }
  }

  /** Dropping entries and shifting the index is indexing what is left. */
  lemma {:induction false} ShiftIsReindex(entries: seq<Entry>, k: nat)
    requires k <= |entries|
    ensures Shifted(OrderPositions(entries), k) == OrderPositions(entries[k..])
    decreases |entries|
  {
    if k == |entries| {
      PositionsAreExact(entries);
      assert entries[k..] == [];
      ShiftedAway(OrderPositions(entries), k);
    } else {
      var before := entries[..|entries| - 1];
      ShiftIsReindex(before, k);
      var left := entries[k..];
      assert left[..|left| - 1] == before[k..] && left[|left| - 1] == entries[|entries| - 1];
      if entries[|entries| - 1].topic.OrderTopic? {
        ShiftedSnoc(OrderPositions(before), |entries| - 1, k);
      } else {
        assert OrderPositions(entries) == OrderPositions(before);
      }
    }
  }

  lemma {:induction false} ShiftedAway(indices: seq<int>, k: int)
    requires forall p :: p in indices ==> p < k
    ensures Shifted(indices, k) == []
  {
    if indices != [] {
      assert indices[0] in indices;
      assert forall p :: p in indices[1..] ==> p in indices;
      ShiftedAway(indices[1..], k);
    }
  }

  // ----- The cache -----------------------------------------------------------------------

  /** The cache holds, for every kind and vehicle, what a search back would find. */
  lemma {:induction false} CacheIsLatest(entries: seq<Entry>, topic: Topic, vehicle: int)
    requires !topic.OtherTopic?
    ensures Get(CacheOf(entries).Of(topic), vehicle) == Latest(entries, topic, vehicle)
  {
    if entries != [] {
      CacheIsLatest(entries[..|entries| - 1], topic, vehicle);
    }
  }

  predicate IsAbout(e: Entry, topic: Topic, vehicle: int) {
    e.topic == topic && e.vehicle == vehicle
  }

  /** Entry `i` is the last one of its kind about the vehicle. */
  ghost predicate IsLast(entries: seq<Entry>, topic: Topic, vehicle: int, i: int) {
    0 <= i < |entries| && IsAbout(entries[i], topic, vehicle)
    && forall k :: i < k < |entries| ==> !IsAbout(entries[k], topic, vehicle)
  }

  /** There is no entry of the kind about the vehicle. */
  ghost predicate Unheard(entries: seq<Entry>, topic: Topic, vehicle: int) {
    forall i :: 0 <= i < |entries| ==> !IsAbout(entries[i], topic, vehicle)
  }

  /** A search back finds the last entry, if there is one. */
  lemma {:induction false} LatestExactly(entries: seq<Entry>, topic: Topic, vehicle: int)
    ensures forall i :: IsLast(entries, topic, vehicle, i) ==> Latest(entries, topic, vehicle) == Some(entries[i].data)
    ensures Latest(entries, topic, vehicle) == None <==> Unheard(entries, topic, vehicle)
  {
    if entries != [] {
      var before, last := entries[..|entries| - 1], entries[|entries| - 1];
      if !IsAbout(last, topic, vehicle) {
        LatestExactly(before, topic, vehicle);
        hide IsAbout;
        assert forall i :: 0 <= i < |before| ==> before[i] == entries[i];
        forall i | IsLast(entries, topic, vehicle, i) ensures IsLast(before, topic, vehicle, i) {
        }
      }
    }
  }

  /** A vehicle is shown exactly if something other than miscellany has been logged about it, and what is shown is the
      last order, the last instant actions, the last state and the last connection message. */
  ghost predicate ShownRight(entries: seq<Entry>, shown: map<int, Snapshot>) {
    && (forall v :: v !in shown <==> forall topic: Topic :: topic.OtherTopic? || Unheard(entries, topic, v))
    && forall v :: v in shown ==> shown[v] == Snapshot(
         Latest(entries, OrderTopic, v), Latest(entries, InstantTopic, v),
         Latest(entries, StateTopic, v), Latest(entries, ConnectionTopic, v))
  }

  lemma HeardExactly(entries: seq<Entry>, topic: Topic, v: int)
    requires !topic.OtherTopic?
    ensures Get(CacheOf(entries).Of(topic), v) == Latest(entries, topic, v)
    ensures v !in CacheOf(entries).Of(topic) <==> Unheard(entries, topic, v)
  {
    CacheIsLatest(entries, topic, v);
    LatestExactly(entries, topic, v);
    hide CacheOf, Latest, Unheard, Cache.Of;
  }

  lemma VehicleExactly(entries: seq<Entry>, v: int)
    ensures v !in CacheOf(entries).Vehicles() <==> forall topic: Topic :: topic.OtherTopic? || Unheard(entries, topic, v)
    ensures SnapshotOf(CacheOf(entries), v) == Snapshot(
              Latest(entries, OrderTopic, v), Latest(entries, InstantTopic, v),
              Latest(entries, StateTopic, v), Latest(entries, ConnectionTopic, v))
  {
    hide CacheOf, Latest, Unheard, Get;
    HeardExactly(entries, OrderTopic, v);
    HeardExactly(entries, InstantTopic, v);
    HeardExactly(entries, StateTopic, v);
    HeardExactly(entries, ConnectionTopic, v);
    if v !in CacheOf(entries).Vehicles() {
      forall topic: Topic ensures topic.OtherTopic? || Unheard(entries, topic, v) {
      }
    }
  }

  /** What is shown of a cache is right for the entries it has seen. */
  lemma SnapshotsExactly(entries: seq<Entry>)
    ensures ShownRight(entries, SnapshotsOf(CacheOf(entries)))
  {
    hide CacheOf, Latest, Unheard, SnapshotOf, Cache.Vehicles;
    forall v
      ensures v !in CacheOf(entries).Vehicles() <==> forall topic: Topic :: topic.OtherTopic? || Unheard(entries, topic, v)
      ensures SnapshotOf(CacheOf(entries), v) == Snapshot(
                Latest(entries, OrderTopic, v), Latest(entries, InstantTopic, v),
                Latest(entries, StateTopic, v), Latest(entries, ConnectionTopic, v))
    {
      VehicleExactly(entries, v);
    }
  }

  /** Entries dropped from the front are remembered only where nothing later replaced them. */
  lemma {:induction false} LatestOfBoth(dropped: seq<Entry>, kept: seq<Entry>, topic: Topic, vehicle: int)
    ensures Latest(dropped + kept, topic, vehicle)
         == if Latest(kept, topic, vehicle).Some? then Latest(kept, topic, vehicle) else Latest(dropped, topic, vehicle)
  {
    var all := dropped + kept;
    if kept == [] {
      assert all == dropped;
    } else {
      assert all[..|all| - 1] == dropped + kept[..|kept| - 1];
      LatestOfBoth(dropped, kept[..|kept| - 1], topic, vehicle);
    }
  }

  /** Every vehicle and kind with dropped entries still has kept ones. */
  ghost predicate AllRefreshed(dropped: seq<Entry>, kept: seq<Entry>) {
    forall topic: Topic, vehicle :: !topic.OtherTopic? && Latest(dropped, topic, vehicle).Some? ==>
      Latest(kept, topic, vehicle).Some?
  }

  lemma SameCache(c: Cache, d: Cache)
    requires forall topic: Topic, v :: !topic.OtherTopic? ==> Get(c.Of(topic), v) == Get(d.Of(topic), v)
    ensures c == d
  {
    forall topic: Topic | !topic.OtherTopic? ensures c.Of(topic) == d.Of(topic) {
      SameByGet(c.Of(topic), d.Of(topic));
    }
    assert c.Of(OrderTopic) == d.Of(OrderTopic) && c.Of(InstantTopic) == d.Of(InstantTopic);
    assert c.Of(StateTopic) == d.Of(StateTopic) && c.Of(ConnectionTopic) == d.Of(ConnectionTopic);
  }

  lemma SameByGet(m: map<int, int>, n: map<int, int>)
    requires forall k :: Get(m, k) == Get(n, k)
    ensures m == n
  {
    forall k ensures k in m <==> k in n {
      assert Get(m, k) == Get(n, k);
    }
    forall k | k in m ensures m[k] == n[k] {
      assert Get(m, k) == Get(n, k);
    }
    assert m.Keys == n.Keys;
  }

  lemma SnapshotsTell(c: Cache, d: Cache)
    requires SnapshotsOf(c) == SnapshotsOf(d)
    ensures c == d
  {
    forall topic: Topic, v | !topic.OtherTopic? ensures Get(c.Of(topic), v) == Get(d.Of(topic), v) {
      assert v in SnapshotsOf(c) <==> v in c.Vehicles();
      assert v in SnapshotsOf(d) <==> v in d.Vehicles();
      if v in c.Vehicles() {
        assert SnapshotOf(c, v) == SnapshotsOf(c)[v] == SnapshotsOf(d)[v] == SnapshotOf(d, v);
      }
    }
    SameCache(c, d);
  }

  /** The cache of everything and a scan of what is kept are the same exactly if every
      dropped kind of data has been refreshed since; in particular if nothing was dropped. */
  lemma CachesAgreeExactly(dropped: seq<Entry>, kept: seq<Entry>)
    ensures CacheOf(dropped + kept) == CacheOf(kept) <==> AllRefreshed(dropped, kept)
    ensures dropped == [] ==> CacheOf(dropped + kept) == CacheOf(kept)
  {
    var all, few := CacheOf(dropped + kept), CacheOf(kept);
    forall topic: Topic, v | !topic.OtherTopic?
      ensures Get(all.Of(topic), v) == (if Latest(kept, topic, v).Some? then Latest(kept, topic, v) else Latest(dropped, topic, v))
      ensures Get(few.Of(topic), v) == Latest(kept, topic, v)
    {
      LatestOfBoth(dropped, kept, topic, v);
      CacheIsLatest(dropped + kept, topic, v);
      CacheIsLatest(kept, topic, v);
    }
    hide CacheOf, Latest, Get;
    if AllRefreshed(dropped, kept) {
      SameCache(all, few);
    }
    if dropped == [] {
      assert dropped + kept == kept;
    }
  }

  lemma CacheSnoc(entries: seq<Entry>, e: Entry)
    ensures CacheOf(entries + [e]) == CacheOf(entries).With(e)
  {
  }

  lemma PositionsSnoc(entries: seq<Entry>, e: Entry)
    ensures OrderPositions(entries + [e]) == OrderPositions(entries) + (if e.topic.OrderTopic? then [|entries|] else [])
  {
  }

  lemma MoreAt(history: seq<Entry>, k: nat, e: Entry)
    requires k <= |history|
    ensures (history + [e])[k..] == history[k..] + [e]
  {
  }

  // ----- The store -------------------------------------------------------------------------

  const TRIM_BATCH := 200

  class LogStore {
    var entries: seq<Entry>
    var orderIndices: seq<int>
    var cache: Cache
    var trimTotal: int
    var collecting: bool
    /** Everything appended since the store was last cleared. */
    ghost var history: seq<Entry>
    ghost var dropped: nat

    /** The entries are the end of the history, the index is exact, and the cache is the
        fold over the whole history. */
    ghost predicate Valid()
      reads this
    {
      && dropped <= |history| && entries == history[dropped..]
      && orderIndices == OrderPositions(entries)
      && cache == CacheOf(history)
      && trimTotal == 0
    }

    constructor ()
      ensures Valid() && collecting && history == [] && dropped == 0
    {
      entries, orderIndices, cache, trimTotal, collecting := [], [], EMPTY_CACHE, 0, true;
      history, dropped := [], 0;
    }

    method Clear()
      modifies this
      ensures Valid() && history == [] && dropped == 0 && collecting == old(collecting)
    {
      entries, orderIndices, cache, trimTotal := [], [], EMPTY_CACHE, 0;
      history, dropped := [], 0;
    }

    /** `cutoff` is the retention limit as the clock stands. */
    method AppendEntry(entry: Entry, cutoff: int)
      requires Valid()
      modifies this
      ensures Valid() && collecting == old(collecting)
      ensures history == if old(collecting) then old(history) + [entry] else old(history)
      ensures dropped == if collecting then old(dropped) + Trimmed(old(entries) + [entry], cutoff) else old(dropped)
    {
      hide CacheOf, OrderPositions, Trimmed, Cache.With;
      if !collecting {
        return;
      }
      ghost var more := history + [entry];
      MoreAt(history, dropped, entry);
      CacheSnoc(history, entry);
      PositionsSnoc(entries, entry);
      entries := entries + [entry];
      cache := cache.With(entry);
      var index := |entries| - 1;
      if entry.topic.OrderTopic? {
        orderIndices := orderIndices + [index + trimTotal];
      }
      history := more;
      TrimOldEntries(cutoff);
    }

    /** Drop the outdated entries at the front, once there are enough of them. */
    method TrimOldEntries(cutoff: int)
      requires Valid()
      modifies this
      ensures Valid() && history == old(history) && collecting == old(collecting) && cache == old(cache)
      ensures dropped == if collecting then old(dropped) + Trimmed(old(entries), cutoff) else old(dropped)
    {
      hide CacheOf, OrderPositions, Shifted;
      if !collecting || entries == [] || entries[0].time >= cutoff {
        return;
      }
      var count := 0;
      while count < |entries| && entries[count].time < cutoff
        invariant 0 <= count <= |entries|
        invariant forall i :: 0 <= i < count ==> entries[i].time < cutoff
      {
        count := count + 1;
      }
      OutdatedIs(entries, cutoff, count);
      if count < TRIM_BATCH {
        return;
      }
      ShiftIsReindex(entries, count);
      assert history[dropped..][count..] == history[dropped + count..];
      entries := entries[count..];
      trimTotal := trimTotal + count;
      orderIndices := Reindexed(orderIndices);
      trimTotal := 0;
      dropped := dropped + count;
    }

    method Reindexed(indices: seq<int>) returns (moved: seq<int>)
      ensures moved == Shifted(indices, trimTotal)
    {
      moved := [];
      assert indices[..0] == [];
      for i := 0 to |indices|
        invariant moved == Shifted(indices[..i], trimTotal)
      {
        assert indices[..i + 1] == indices[..i] + [indices[i]];
        ShiftedSnoc(indices[..i], indices[i], trimTotal);
        if indices[i] - trimTotal >= 0 {
          moved := moved + [indices[i] - trimTotal];
        }
      }
      assert indices[..|indices|] == indices;
    }

    /** What was known at a position: from the cache at the end, by a scan before it. */
    method GetSnapshots(index: int) returns (snapshots: map<int, Snapshot>)
      requires Valid()
      ensures entries == [] || index < 0 ==> snapshots == map[]
      ensures entries != [] && index >= |entries| - 1 ==> ShownRight(history, snapshots)
      ensures 0 <= index < |entries| - 1 ==> ShownRight(entries[..index + 1], snapshots)
      ensures entries != [] && index >= |entries| - 1 ==> snapshots == SnapshotsOf(CacheOf(history))
      ensures 0 <= index < |entries| - 1 ==> snapshots == SnapshotsOf(CacheOf(entries[..index + 1]))
    {
      if entries == [] || index < 0 {
        return map[];
      }
      var at := if index < |entries| - 1 then index else |entries| - 1;
      hide ShownRight;
      SnapshotsExactly(history);
      if at == |entries| - 1 {
        return SnapshotsOf(cache);
      }
      var scan := EMPTY_CACHE;
      for i := 0 to at + 1
        invariant scan == CacheOf(entries[..i])
      {
        assert entries[..i + 1][..i] == entries[..i];
        scan := scan.With(entries[i]);
      }
      SnapshotsExactly(entries[..at + 1]);
      return SnapshotsOf(scan);
    }
  }

  // ----- Fast and slow ------------------------------------------------------------------------

  /** What the store shows for its last entry is what a scan of its entries would show exactly if
      every dropped kind of data has been refreshed since; in particular if nothing was trimmed. */
  lemma FastIsSlowExactly(store: LogStore)
    requires store.Valid()
    ensures SnapshotsOf(store.cache) == SnapshotsOf(CacheOf(store.entries)) <==>
              AllRefreshed(store.history[..store.dropped], store.entries)
    ensures store.dropped == 0 ==> SnapshotsOf(store.cache) == SnapshotsOf(CacheOf(store.entries))
  {
    var dropped, kept := store.history[..store.dropped], store.entries;
    hide CacheOf, AllRefreshed, SnapshotsOf, OrderPositions;
    assert store.history == dropped + kept;
    CachesAgreeExactly(dropped, kept);
    if SnapshotsOf(store.cache) == SnapshotsOf(CacheOf(kept)) {
      SnapshotsTell(store.cache, CacheOf(kept));
    }
  }

  function Repeated(e: Entry, n: nat): seq<Entry> {
    seq(n, i => e)
  }

  const OLD_ORDER := Entry(OrderTopic, 1, 7, 0)
  const RECENT_STATE := Entry(StateTopic, 2, 8, 400)

  lemma {:induction false} RepeatedIsLatest(e: Entry, n: nat)
    requires n > 0
    ensures Latest(Repeated(e, n), e.topic, e.vehicle) == Some(e.data)
  {
    assert Repeated(e, n)[n - 1] == e;
  }

  /** A full batch of outdated orders of one vehicle is dropped, and with it all that a scan could
      have found about the vehicle. */
  lemma BatchIsForgotten()
    ensures Trimmed(Repeated(OLD_ORDER, TRIM_BATCH) + [RECENT_STATE], 100) == TRIM_BATCH
    ensures !AllRefreshed(Repeated(OLD_ORDER, TRIM_BATCH), [RECENT_STATE])
    ensures SnapshotsOf(CacheOf(Repeated(OLD_ORDER, TRIM_BATCH) + [RECENT_STATE])) != SnapshotsOf(CacheOf([RECENT_STATE]))
  {
    var dropped, kept := Repeated(OLD_ORDER, TRIM_BATCH), [RECENT_STATE];
    RepeatedIsLatest(OLD_ORDER, TRIM_BATCH);
    assert kept[..0] == [];
    assert Latest(kept, OrderTopic, 1) == None;
    OutdatedIs(dropped + kept, 100, TRIM_BATCH);
    hide CacheOf, Latest, SnapshotsOf, Outdated;
    CachesAgreeExactly(dropped, kept);
    if SnapshotsOf(CacheOf(dropped + kept)) == SnapshotsOf(CacheOf(kept)) {
      SnapshotsTell(CacheOf(dropped + kept), CacheOf(kept));
      assert false;
    }
  }
}
