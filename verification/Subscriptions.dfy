/**
 The monitor seen by its subscribers: the cache, the subscriptions, the callbacks sent so far, and
 the operations that change them (src/monitor/NetworkMonitor.cpp, lines 110-155, 334-521, 557-627).
 */
module Subscriptions {
  import opened Types
  import opened Trackers
  import opened AttributeTables
  import opened Messages
  import opened Caches

  /** A set of interfaces that compares by index only: one entry, and one name, per index. */
  type Interfaces = map<uint32, Name>

  type SubscriberId = nat

  datatype Change =
    | Added
    | Removed
    | NameChanged
    | LinkFlagsChanged(flags: Bits)
    | OperationalStateChanged(state: byte)
    | AddressesChanged(addresses: set<NetAddress>)
    | GatewayChanged(gateway: Option<Ip>)
    | MacChanged(mac: Mac)
    | BroadcastChanged(broadcast: Mac)

  /** One callback: the interface it names, and what it reports. */
  datatype Event = Event(index: uint32, name: Name, change: Change)

  datatype Statistics = Statistics(
    msgsReceived: nat,
    msgsDiscarded: nat,
    seenAttributes: nat,
    unknownAttributes: nat,
    linkMessagesSeen: nat,
    addressMessagesSeen: nat,
    routeMessagesSeen: nat)

  function LogOf(logs: map<SubscriberId, seq<Event>>, s: SubscriberId): seq<Event> {
    if s in logs then logs[s] else []
  }

  datatype Core = Core(
    trackers: Cache,
    subscribers: map<SubscriberId, Interfaces>,
    logs: map<SubscriberId, seq<Event>>,
    stats: Statistics)
  {
    /** The callbacks a subscriber has received, oldest first. */
    function Log(s: SubscriberId): seq<Event> {
      LogOf(logs, s)
    }
  }

  const INITIAL_CORE := Core(map[], map[], map[], Statistics(0, 0, 0, 0, 0, 0, 0))

  // ----- handling one message -----

  function Broadcast(subscribers: set<SubscriberId>, logs: map<SubscriberId, seq<Event>>, ev: Event)
    : map<SubscriberId, seq<Event>>
  {
    map s | s in logs.Keys + subscribers :: if s in subscribers then LogOf(logs, s) + [ev] else logs[s]
  }

  function Announce(c: Core, e: Effect): map<SubscriberId, seq<Event>> {
    match e
    case LinkNew(i, name, _, _, _, _) =>
      if i in c.trackers then c.logs
      else Broadcast(c.subscribers.Keys, c.logs, Event(i, name.GetOr([]), Added))
    case LinkGone(i, name) => Broadcast(c.subscribers.Keys, c.logs, Event(i, name, Removed))
    case _ => c.logs
  }

  /** Only link messages are announced. */
  lemma AnnounceNothing(c: Core, e: Effect)
    ensures !e.LinkNew? && !e.LinkGone? ==> Announce(c, e) == c.logs
  {
  }

  lemma AnnounceIgnoresStatistics(c: Core, st: Statistics, e: Effect)
    ensures Announce(c.(stats := st), e) == Announce(c, e)
  {
  }

  /** A message about the address of an untracked interface does what a skipped one does: nothing. */
  lemma SkippedIfUntracked(cfg: Config, c: Core, m: Message, e: Effect)
    requires e == if m.AddressMessage? && m.ifaIndex !in c.trackers then Skip else Decode(cfg, m)
    ensures Apply(c.trackers, e) == Apply(c.trackers, Decode(cfg, m))
    ensures Announce(c, e) == Announce(c, Decode(cfg, m))
  {
    hide DecodeAddress, Updated;
  }

  function Parsed(st: Statistics, attributes: seq<Attribute>, maxType: uint16): Statistics {
    KnownAtMostAll(attributes, maxType);
    st.(seenAttributes := st.seenAttributes + Known(attributes, maxType),
        unknownAttributes := st.unknownAttributes + |attributes| - Known(attributes, maxType))
  }

  function Discarded(st: Statistics): Statistics {
    st.(msgsDiscarded := st.msgsDiscarded + 1)
  }

  /** Link messages are parsed before they can be discarded; the others are discarded unparsed. */
  function Sorted(cfg: Config, tracked: set<uint32>, m: Message, st: Statistics): Statistics {
    match m
    case LinkMessage(_, _, _, _, attributes) =>
      var st := Parsed(st.(linkMessagesSeen := st.linkMessagesSeen + 1), attributes, cfg.iflaMax);
      if LinkAccepted(cfg, m) then st else Discarded(st)
    case AddressMessage(_, index, family, _, _, _, attributes) =>
      var st := st.(addressMessagesSeen := st.addressMessagesSeen + 1);
      if index in tracked && FamilyAccepted(cfg, family) then Parsed(st, attributes, cfg.ifaMax) else Discarded(st)
    case RouteMessage(_, _, _, attributes) =>
      var st := st.(routeMessagesSeen := st.routeMessagesSeen + 1);
      if RouteAccepted(cfg, m) then Parsed(st, attributes, cfg.rtaMax) else Discarded(st)
    case OtherMessage(_) => st
  }

  function Account(cfg: Config, tracked: set<uint32>, m: Message, st: Statistics): Statistics {
    Sorted(cfg, tracked, m, st.(msgsReceived := st.msgsReceived + 1))
  }

  function HandleMessage(cfg: Config, c: Core, m: Message): Core {
    var e := Decode(cfg, m);
    Core(Apply(c.trackers, e), c.subscribers, Announce(c, e), Account(cfg, c.trackers.Keys, m, c.stats))
  }

  // ----- notifying -----

  function Optional(due: bool, i: uint32, name: Name, change: Change): seq<Event> {
    if due then [Event(i, name, change)] else []
  }

  /** The callbacks for the chosen fields, in the order they are made. */
  function Report(i: uint32, d: Fields, b1: bool, b2: bool, b3: bool, b4: bool, b5: bool, b6: bool, b7: bool)
    : seq<Event>
  {
    Optional(b1, i, d.name, NameChanged)
    + Optional(b2, i, d.name, OperationalStateChanged(d.operationalState))
    + Optional(b3, i, d.name, AddressesChanged(d.addresses))
    + Optional(b4, i, d.name, GatewayChanged(d.gateway))
    + Optional(b5, i, d.name, MacChanged(d.mac))
    + Optional(b6, i, d.name, BroadcastChanged(d.broadcast))
    + Optional(b7, i, d.name, LinkFlagsChanged(d.linkFlags))
  }

  predicate IsDue(t: TrackerState, flag: ChangedFlag, force: bool) {
    force || t.IsChanged(flag)
  }

  /** The callbacks due for one tracker: those whose flag is set, or all of them. */
  function Due(i: uint32, t: TrackerState, force: bool): seq<Event> {
    Report(i, t.data, IsDue(t, NameFlag, force), IsDue(t, OperationalStateFlag, force),
           IsDue(t, NetworkAddressesFlag, force), IsDue(t, GatewayAddressFlag, force),
           IsDue(t, MacAddressFlag, force), IsDue(t, BroadcastAddressFlag, force),
           IsDue(t, LinkFlagsFlag, force))
  }

  /** The callbacks due for a run of tracker indices to a subscriber of the given interfaces. */
  function Deliveries(keys: seq<uint32>, c: Cache, interfaces: set<uint32>, force: bool): seq<Event>
    requires forall k :: k in keys ==> k in c
  {
    if keys == [] then []
    else
      var k := keys[|keys| - 1];
      Deliveries(keys[..|keys| - 1], c, interfaces, force) + if k in interfaces then Due(k, c[k], force) else []
  }

  predicate IsGreatest(x: uint32, s: set<uint32>) {
    x in s && forall y :: y in s ==> y <= x
  }

  lemma {:induction false} MaxExists(s: set<uint32>)
    requires s != {}
    ensures exists x :: x in s && IsGreatest(x, s)
  {
    var x :| x in s;
    if s == {x} {
      assert IsGreatest(x, s);
    } else {
      var rest := s - {x};
      MaxExists(rest);
      var y :| y in rest && IsGreatest(y, rest);
      var m := if x < y then y else x;
      assert forall z :: z in s ==> z == x || z in rest;
      assert m in s && IsGreatest(m, s);
    }
  }

  function Greatest(s: set<uint32>): (x: uint32)
    requires s != {}
    ensures IsGreatest(x, s)
  {
    MaxExists(s);
    var x :| x in s && IsGreatest(x, s);
    x
  }

  predicate StrictlyAscending(keys: seq<uint32>) {
    forall i, j :: 0 <= i < j < |keys| ==> keys[i] < keys[j]
  }

  lemma OneMoreAscends(below: seq<uint32>, s: set<uint32>, x: uint32)
    requires (forall k :: k in below <==> k in s - {x}) && StrictlyAscending(below)
    requires IsGreatest(x, s)
    ensures (forall k :: k in below + [x] <==> k in s) && StrictlyAscending(below + [x])
  {
    assert forall j :: 0 <= j < |below| ==> below[j] in below;
  }

  /** The order in which a map keyed by index is traversed. */
  function Ascending(s: set<uint32>): (keys: seq<uint32>)
    ensures forall k :: k in keys <==> k in s
    ensures StrictlyAscending(keys)
    decreases |s|
  {
    if s == {} then []
    else
      var x := Greatest(s);
      var below := Ascending(s - {x});
      OneMoreAscends(below, s, x);
      below + [x]
  }

  /** What a sweep over the given trackers sends to one subscriber. */
  function SweepFor(c: Core, keys: seq<uint32>, s: SubscriberId): seq<Event>
    requires forall k :: k in keys ==> k in c.trackers
  {
    if s in c.subscribers then Deliveries(keys, c.trackers, c.subscribers[s].Keys, false) else []
  }

  /** A sweep over the given trackers: due callbacks sent, their flags cleared. */
  function SweptBy(c: Core, keys: seq<uint32>): Core
    requires forall k :: k in keys ==> k in c.trackers
  {
    c.(trackers := map i | i in c.trackers :: if i in keys then FlagsCleared(c.trackers[i]) else c.trackers[i],
       logs := map s | s in c.logs.Keys + c.subscribers.Keys :: c.Log(s) + SweepFor(c, keys, s))
  }

  /** The regular sweep. Without subscribers it returns at once and the flags stay set. */
  function NotifyChanges(c: Core): Core {
    if c.subscribers == map[] then c else SweptBy(c, Ascending(c.trackers.Keys))
  }

  function ReportedBy(c: Core, s: SubscriberId, interfaces: Interfaces, keys: seq<uint32>): Core
    requires forall k :: k in keys ==> k in c.trackers
  {
    c.(logs := c.logs[s := c.Log(s) + Deliveries(keys, c.trackers, interfaces.Keys, true)])
  }

  /** The full report a new or changed subscription gets at once; it clears no flags. */
  function NotifyFully(c: Core, s: SubscriberId, interfaces: Interfaces): Core {
    ReportedBy(c, s, interfaces, Ascending(c.trackers.Keys))
  }

  // ----- the operations -----

  datatype Op =
    | Handle(m: Message)
    | Notify
    | Subscribe(s: SubscriberId, interfaces: Interfaces)
    | UpdateSubscription(to: Option<SubscriberId>, interfaces: Interfaces)
    | Unsubscribe(from: Option<SubscriberId>)

  function Subscribed(c: Core, s: SubscriberId, interfaces: Interfaces): Core {
    if interfaces == map[] then c
    else NotifyFully(c.(subscribers := c.subscribers[s := interfaces]), s, interfaces)
  }

  function Unsubscribed(c: Core, s: Option<SubscriberId>): Core {
    if s.None? || s.value !in c.subscribers then c else c.(subscribers := c.subscribers - {s.value})
  }

  function SubscriptionUpdated(c: Core, s: Option<SubscriberId>, interfaces: Interfaces): Core {
    if s.None? then c
    else if interfaces == map[] then Unsubscribed(c, s)
    else if s.value in c.subscribers then
      NotifyFully(c.(subscribers := c.subscribers[s.value := interfaces]), s.value, interfaces)
    else c
  }

  function Step(cfg: Config, c: Core, op: Op): Core {
    match op
    case Handle(m) => HandleMessage(cfg, c, m)
    case Notify => NotifyChanges(c)
    case Subscribe(s, interfaces) => Subscribed(c, s, interfaces)
    case UpdateSubscription(s, interfaces) => SubscriptionUpdated(c, s, interfaces)
    case Unsubscribe(s) => Unsubscribed(c, s)
  }

  /** The monitor after a run of operations from the start. */
  function Run(cfg: Config, ops: seq<Op>): Core {
    if ops == [] then INITIAL_CORE else Step(cfg, Run(cfg, ops[..|ops| - 1]), ops[|ops| - 1])
  }

  lemma OneMoreOp(cfg: Config, ops: seq<Op>, op: Op)
    ensures Run(cfg, ops + [op]) == Step(cfg, Run(cfg, ops), op)
  {
    assert (ops + [op])[..|ops|] == ops;
  }

  // ----- the cache of a run is the fold of its messages -----

  function Effects(cfg: Config, ops: seq<Op>): seq<Effect> {
    if ops == [] then []
    else
      var op := ops[|ops| - 1];
      Effects(cfg, ops[..|ops| - 1]) + if op.Handle? then [Decode(cfg, op.m)] else []
  }

  lemma SweepKeepsData(c: Core)
    ensures DataOf(NotifyChanges(c).trackers) == DataOf(c.trackers)
  {
    hide SweepFor, Ascending;
  }

  lemma StepData(cfg: Config, c: Core, op: Op)
    ensures DataOf(Step(cfg, c, op).trackers)
      == if op.Handle? then ApplyData(DataOf(c.trackers), Decode(cfg, op.m)) else DataOf(c.trackers)
  {
    hide Decode, Apply, ApplyData, DataOf, Announce, Account, Deliveries, Ascending, NotifyChanges;
    match op
    case Handle(m) => ApplyRefinesOverwriting(c.trackers, Decode(cfg, m));
    case Notify => SweepKeepsData(c);
    case _ =>
  }

  lemma FoldOne(d: DataCache, e: Effect)
    ensures Fold(d, [e]) == ApplyData(d, e)
  {
    hide ApplyData;
    assert [e][..0] == [];
  }

  /** Subscriptions and notifications never touch the data; messages fold into it one by one. */
  lemma {:induction false} CacheIsHistory(cfg: Config, ops: seq<Op>)
    ensures DataOf(Run(cfg, ops).trackers) == Fold(map[], Effects(cfg, ops))
  {
    hide Step, Decode, ApplyData, DataOf;
    if ops == [] {
      assert DataOf(map[]) == map[];
    } else {
      var before, op := ops[..|ops| - 1], ops[|ops| - 1];
      CacheIsHistory(cfg, before);
      StepData(cfg, Run(cfg, before), op);
      if op.Handle? {
        var e := Decode(cfg, op.m);
        FoldConcat(map[], Effects(cfg, before), [e]);
        FoldOne(Fold(map[], Effects(cfg, before)), e);
      } else {
        assert Effects(cfg, ops) == Effects(cfg, before);
      }
    }
  }
}
