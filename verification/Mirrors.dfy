/**
 What a subscriber can reconstruct from its callbacks. A mirror replays the callback log; over every
 run of operations it agrees with the cache wherever the subscriber is subscribed.
 */
module Mirrors {
  import opened Types
  import opened Trackers
  import opened Messages
  import opened Caches
  import opened Subscriptions

  type Mirror = map<uint32, Fields>

  function Entry(m: Mirror, i: uint32): Fields {
    if i in m then m[i] else DEFAULT_FIELDS
  }

  /** A field callback overwrites one field. */
  function Overlay(f: Fields, name: Name, change: Change): Fields {
    match change
    case NameChanged => f.(name := name)
    case LinkFlagsChanged(flags) => f.(linkFlags := flags)
    case OperationalStateChanged(state) => f.(operationalState := state)
    case AddressesChanged(addresses) => f.(addresses := addresses)
    case GatewayChanged(gateway) => f.(gateway := gateway)
    case MacChanged(mac) => f.(mac := mac)
    case BroadcastChanged(broadcast) => f.(broadcast := broadcast)
    case _ => f
  }

  /** Added starts an entry afresh, Removed drops it, every other callback overwrites one field. */
  function ReplayOne(m: Mirror, ev: Event): Mirror {
    match ev.change
    case Added => m[ev.index := DEFAULT_FIELDS.(name := ev.name)]
    case Removed => m - {ev.index}
    case _ => m[ev.index := Overlay(Entry(m, ev.index), ev.name, ev.change)]
  }

  function ReplayFrom(m: Mirror, log: seq<Event>): Mirror {
    if log == [] then m else ReplayOne(ReplayFrom(m, log[..|log| - 1]), log[|log| - 1])
  }

  function MirrorOf(c: Core, s: SubscriberId): Mirror {
    ReplayFrom(map[], c.Log(s))
  }

  lemma {:induction false} ReplayConcat(m: Mirror, a: seq<Event>, b: seq<Event>)
    ensures ReplayFrom(m, a + b) == ReplayFrom(ReplayFrom(m, a), b)
  {
    if b == [] {
      assert a + b == a;
    } else {
      ReplayConcat(m, a, b[..|b| - 1]);
      assert (a + b)[..|a + b| - 1] == a + b[..|b| - 1];
    }
  }

  // ----- replaying the callbacks of one tracker -----

  /** f with the chosen fields taken from d, in the order the callbacks are made. */
  function Merged(f: Fields, d: Fields, b1: bool, b2: bool, b3: bool, b4: bool, b5: bool, b6: bool, b7: bool): Fields {
    Fields(
      if b1 then d.name else f.name,
      if b7 then d.linkFlags else f.linkFlags,
      if b2 then d.operationalState else f.operationalState,
      if b5 then d.mac else f.mac,
      if b6 then d.broadcast else f.broadcast,
      if b4 then d.gateway else f.gateway,
      if b3 then d.addresses else f.addresses)
  }

  /** The fields after replaying the callbacks due for a tracker over what was known before. */
  function Patched(f: Fields, t: TrackerState, force: bool): Fields {
    Merged(f, t.data, IsDue(t, NameFlag, force), IsDue(t, OperationalStateFlag, force),
           IsDue(t, NetworkAddressesFlag, force), IsDue(t, GatewayAddressFlag, force),
           IsDue(t, MacAddressFlag, force), IsDue(t, BroadcastAddressFlag, force),
           IsDue(t, LinkFlagsFlag, force))
  }

  /** m' is m except that interface i now has the given fields; it has an entry if it had one or if told. */
  ghost predicate Updates(m: Mirror, m': Mirror, i: uint32, f: Fields, told: bool) {
    && (forall j :: j != i ==> (j in m' <==> j in m) && (j in m ==> m'[j] == m[j]))
    && (i in m || told ==> i in m')
    && Entry(m', i) == f
  }

  function Chosen(f: Fields, due: bool, name: Name, change: Change): Fields {
    if due then Overlay(f, name, change) else f
  }

  lemma ReplayOptional(m: Mirror, events: seq<Event>, f: Fields, told: bool,
                       due: bool, i: uint32, name: Name, change: Change)
    requires !change.Added? && !change.Removed?
    requires Updates(m, ReplayFrom(m, events), i, f, told)
    ensures Updates(m, ReplayFrom(m, events + Optional(due, i, name, change)), i,
                    Chosen(f, due, name, change), told || due)
  {
    if due {
      assert (events + [Event(i, name, change)])[..|events|] == events;
    } else {
      assert events + Optional(due, i, name, change) == events;
    }
  }

  lemma ReplayNothing(m: Mirror, i: uint32)
    ensures Updates(m, ReplayFrom(m, []), i, Entry(m, i), false)
  {
  }

  /** The callbacks of the first three conditions of a report, replayed. */
  lemma ReplayFirstThree(m: Mirror, i: uint32, d: Fields, b1: bool, b2: bool, b3: bool)
    ensures Updates(m,
      ReplayFrom(m, Optional(b1, i, d.name, NameChanged)
                    + Optional(b2, i, d.name, OperationalStateChanged(d.operationalState))
                    + Optional(b3, i, d.name, AddressesChanged(d.addresses))),
      i,
      Entry(m, i).(name := if b1 then d.name else Entry(m, i).name,
                   operationalState := if b2 then d.operationalState else Entry(m, i).operationalState,
                   addresses := if b3 then d.addresses else Entry(m, i).addresses),
      b1)
  {
    hide ReplayFrom, Optional;
    var f := Entry(m, i);
    assert Updates(m, ReplayFrom(m, []), i, f, false) by { ReplayNothing(m, i); }
    var e1 := Optional(b1, i, d.name, NameChanged);
    assert [] + e1 == e1;
    ReplayOptional(m, [], f, false, b1, i, d.name, NameChanged);
    var f1, c2 := Chosen(f, b1, d.name, NameChanged), OperationalStateChanged(d.operationalState);
    ReplayOptional(m, e1, f1, b1, b2, i, d.name, c2);
    var e2, f2 := e1 + Optional(b2, i, d.name, c2), Chosen(f1, b2, d.name, c2);
    ReplayOptional(m, e2, f2, b1 || b2, b3, i, d.name, AddressesChanged(d.addresses));
  }

  lemma ReplayMiddleTwo(m: Mirror, events: seq<Event>, f: Fields, told: bool, i: uint32, d: Fields, b4: bool, b5: bool)
    requires Updates(m, ReplayFrom(m, events), i, f, told)
    ensures Updates(m,
      ReplayFrom(m, events + Optional(b4, i, d.name, GatewayChanged(d.gateway))
                           + Optional(b5, i, d.name, MacChanged(d.mac))),
      i, f.(gateway := if b4 then d.gateway else f.gateway, mac := if b5 then d.mac else f.mac), told)
  {
    hide ReplayFrom, Optional;
    var c4 := GatewayChanged(d.gateway);
    ReplayOptional(m, events, f, told, b4, i, d.name, c4);
    var e4, f4 := events + Optional(b4, i, d.name, c4), Chosen(f, b4, d.name, c4);
    ReplayOptional(m, e4, f4, told || b4, b5, i, d.name, MacChanged(d.mac));
  }

  lemma ReplayLastTwo(m: Mirror, events: seq<Event>, f: Fields, told: bool, i: uint32, d: Fields, b6: bool, b7: bool)
    requires Updates(m, ReplayFrom(m, events), i, f, told)
    ensures Updates(m,
      ReplayFrom(m, events + Optional(b6, i, d.name, BroadcastChanged(d.broadcast))
                           + Optional(b7, i, d.name, LinkFlagsChanged(d.linkFlags))),
      i, f.(broadcast := if b6 then d.broadcast else f.broadcast, linkFlags := if b7 then d.linkFlags else f.linkFlags),
      told)
  {
    hide ReplayFrom, Optional;
    var c6 := BroadcastChanged(d.broadcast);
    ReplayOptional(m, events, f, told, b6, i, d.name, c6);
    var e6, f6 := events + Optional(b6, i, d.name, c6), Chosen(f, b6, d.name, c6);
    ReplayOptional(m, e6, f6, told || b6, b7, i, d.name, LinkFlagsChanged(d.linkFlags));
  }

  lemma ReplayReport(m: Mirror, i: uint32, d: Fields,
                     b1: bool, b2: bool, b3: bool, b4: bool, b5: bool, b6: bool, b7: bool)
    ensures Updates(m, ReplayFrom(m, Report(i, d, b1, b2, b3, b4, b5, b6, b7)), i,
                    Merged(Entry(m, i), d, b1, b2, b3, b4, b5, b6, b7), b1)
  {
    var f := Entry(m, i);
    ReplayFirstThree(m, i, d, b1, b2, b3);
    var e3 := Optional(b1, i, d.name, NameChanged)
      + Optional(b2, i, d.name, OperationalStateChanged(d.operationalState))
      + Optional(b3, i, d.name, AddressesChanged(d.addresses));
    var f3 := Merged(f, d, b1, b2, b3, false, false, false, false);
    ReplayMiddleTwo(m, e3, f3, b1, i, d, b4, b5);
    var e5 := e3 + Optional(b4, i, d.name, GatewayChanged(d.gateway)) + Optional(b5, i, d.name, MacChanged(d.mac));
    ReplayLastTwo(m, e5, Merged(f, d, b1, b2, b3, b4, b5, false, false), b1, i, d, b6, b7);
  }

  lemma ReplayDue(m: Mirror, i: uint32, t: TrackerState, force: bool)
    ensures Updates(m, ReplayFrom(m, Due(i, t, force)), i, Patched(Entry(m, i), t, force), force)
  {
    var b1, b2 := IsDue(t, NameFlag, force), IsDue(t, OperationalStateFlag, force);
    var b3 := IsDue(t, NetworkAddressesFlag, force);
    var b4, b5 := IsDue(t, GatewayAddressFlag, force), IsDue(t, MacAddressFlag, force);
    var b6, b7 := IsDue(t, BroadcastAddressFlag, force), IsDue(t, LinkFlagsFlag, force);
    var events := Report(i, t.data, b1, b2, b3, b4, b5, b6, b7);
    var f := Merged(Entry(m, i), t.data, b1, b2, b3, b4, b5, b6, b7);
    assert Due(i, t, force) == events;
    assert Patched(Entry(m, i), t, force) == f;
    ReplayReport(m, i, t.data, b1, b2, b3, b4, b5, b6, b7);
    assert Updates(m, ReplayFrom(m, events), i, f, force);
  }

  /** Interface i ends up patched if it is among the delivered keys, and untouched otherwise. */
  ghost predicate Delivered(m: Mirror, r: Mirror, i: uint32, reported: bool, patched: Fields, force: bool) {
    if reported then i in m || force ==> i in r && r[i] == patched
    else (i in r <==> i in m) && (i in m ==> r[i] == m[i])
  }

  lemma DeliveredElsewhere(m: Mirror, mid: Mirror, r: Mirror, i: uint32, reported: bool, f: Fields, force: bool,
                           k: uint32, g: Fields)
    requires Delivered(m, mid, i, reported, f, force) && Updates(mid, r, k, g, force) && i != k
    ensures Delivered(m, r, i, reported, f, force)
  {
  }

  lemma DeliveredHere(m: Mirror, mid: Mirror, r: Mirror, i: uint32, f: Fields, force: bool, g: Fields)
    requires Delivered(m, mid, i, false, f, force) && Updates(mid, r, i, g, force)
    ensures Delivered(m, r, i, true, g, force)
  {
  }

  lemma {:induction false} ReplayDeliveries(m: Mirror, keys: seq<uint32>, c: Cache, interfaces: set<uint32>,
                                            force: bool, i: uint32)
    requires StrictlyAscending(keys) && forall k :: k in keys ==> k in c
    requires i in c
    ensures Delivered(m, ReplayFrom(m, Deliveries(keys, c, interfaces, force)), i,
                      i in keys && i in interfaces, Patched(Entry(m, i), c[i], force), force)
  {
    if keys == [] {
    } else {
      var n := |keys| - 1;
      var before, k := keys[..n], keys[n];
      assert keys == before + [k];
      assert k !in before;
      ReplayDeliveries(m, before, c, interfaces, force, i);
      var events := Deliveries(before, c, interfaces, force);
      if k in interfaces {
        var due, mid := Due(k, c[k], force), ReplayFrom(m, events);
        ReplayConcat(m, events, due);
        ReplayDue(mid, k, c[k], force);
        var r, patched := ReplayFrom(mid, due), Patched(Entry(mid, k), c[k], force);
        if i == k {
          DeliveredHere(m, mid, r, i, Patched(Entry(m, i), c[i], force), force, patched);
        } else {
          DeliveredElsewhere(m, mid, r, i, i in before && i in interfaces,
                             Patched(Entry(m, i), c[i], force), force, k, patched);
        }
      } else {
        assert events + [] == events;
      }
    }
  }

  // ----- the invariant -----

  /** The two agree on every field whose change flag is not set. */
  predicate AgreeUnflagged(f: Fields, t: TrackerState) {
    && (t.IsChanged(NameFlag) || f.name == t.data.name)
    && (t.IsChanged(LinkFlagsFlag) || f.linkFlags == t.data.linkFlags)
    && (t.IsChanged(OperationalStateFlag) || f.operationalState == t.data.operationalState)
    && (t.IsChanged(MacAddressFlag) || f.mac == t.data.mac)
    && (t.IsChanged(BroadcastAddressFlag) || f.broadcast == t.data.broadcast)
    && (t.IsChanged(GatewayAddressFlag) || f.gateway == t.data.gateway)
    && (t.IsChanged(NetworkAddressesFlag) || f.addresses == t.data.addresses)
  }

  lemma NamedByKeepsAgreement(f: Fields, t: TrackerState, name: Option<Name>)
    requires AgreeUnflagged(f, t)
    ensures AgreeUnflagged(f, NamedBy(t, name))
  {
  }

  lemma LinkFlagsKeepAgreement(f: Fields, t: TrackerState, flags: Bits)
    requires AgreeUnflagged(f, t)
    ensures AgreeUnflagged(f, WithLinkFlags(t, flags))
  {
  }

  lemma StateKeepsAgreement(f: Fields, t: TrackerState, state: byte)
    requires AgreeUnflagged(f, t)
    ensures AgreeUnflagged(f, WithOperationalState(t, state))
  {
  }

  lemma MacKeepsAgreement(f: Fields, t: TrackerState, mac: Mac)
    requires AgreeUnflagged(f, t)
    ensures AgreeUnflagged(f, WithMac(t, mac))
  {
  }

  lemma BroadcastKeepsAgreement(f: Fields, t: TrackerState, mac: Mac)
    requires AgreeUnflagged(f, t)
    ensures AgreeUnflagged(f, WithBroadcast(t, mac))
  {
  }

  lemma GatewayKeepsAgreement(f: Fields, t: TrackerState, ip: Ip)
    requires AgreeUnflagged(f, t)
    ensures AgreeUnflagged(f, WithGateway(t, ip))
  {
  }

  lemma ClearingKeepsAgreement(f: Fields, t: TrackerState)
    requires AgreeUnflagged(f, t)
    ensures AgreeUnflagged(f, GatewayCleared(t))
  {
  }

  lemma StoringKeepsAgreement(f: Fields, t: TrackerState, addresses: set<NetAddress>)
    requires AgreeUnflagged(f, t)
    ensures AgreeUnflagged(f, Touched(t.(data := t.data.(addresses := addresses)), NetworkAddressesFlag))
  {
  }

  lemma AdditionKeepsAgreement(f: Fields, t: TrackerState, a: NetAddress)
    requires AgreeUnflagged(f, t)
    ensures AgreeUnflagged(f, AddressAdded(t, a))
  {
    if a !in t.data.addresses {
      var more := t.data.addresses + {a};
      StoringKeepsAgreement(f, t, more);
    }
  }

  lemma WithdrawalKeepsAgreement(f: Fields, t: TrackerState, a: NetAddress)
    requires AgreeUnflagged(f, t)
    ensures AgreeUnflagged(f, Withdrawn(t, a))
  {
  }

  lemma RemovalKeepsAgreement(f: Fields, t: TrackerState, a: NetAddress)
    requires AgreeUnflagged(f, t)
    ensures AgreeUnflagged(f, AddressRemoved(t, a))
  {
    WithdrawalKeepsAgreement(f, t, a);
    ClearingKeepsAgreement(f, Withdrawn(t, a));
  }

  lemma LinkKeepsAgreement(f: Fields, t: TrackerState, e: Effect)
    requires AgreeUnflagged(f, t) && e.LinkNew?
    ensures AgreeUnflagged(f, UpdatedLink(t, e))
  {
    var t1 := NamedBy(t, e.name);
    NamedByKeepsAgreement(f, t, e.name);
    var t2 := WithLinkFlags(t1, e.flags);
    LinkFlagsKeepAgreement(f, t1, e.flags);
    var t3 := if e.state.Some? then WithOperationalState(t2, e.state.value) else t2;
    if e.state.Some? {
      StateKeepsAgreement(f, t2, e.state.value);
    }
    var t4 := if e.mac.Some? then WithMac(t3, e.mac.value) else t3;
    if e.mac.Some? {
      MacKeepsAgreement(f, t3, e.mac.value);
    }
    if e.broadcast.Some? {
      BroadcastKeepsAgreement(f, t4, e.broadcast.value);
    }
  }

  /** Whatever a message changes in a tracker it also flags. */
  lemma UpdateKeepsAgreement(f: Fields, t: TrackerState, e: Effect)
    requires AgreeUnflagged(f, t) && !e.Skip? && !e.LinkGone?
    ensures AgreeUnflagged(f, Updated(t, e))
  {
    match e
    case LinkNew(_, _, _, _, _, _) => LinkKeepsAgreement(f, t, e);
    case AddressNew(_, name, a) =>
      NamedByKeepsAgreement(f, t, name);
      AdditionKeepsAgreement(f, NamedBy(t, name), a);
    case AddressGone(_, name, a) =>
      NamedByKeepsAgreement(f, t, name);
      RemovalKeepsAgreement(f, NamedBy(t, name), a);
    case GatewayNew(_, ip) => GatewayKeepsAgreement(f, t, ip);
    case GatewayGone(_) => ClearingKeepsAgreement(f, t);
  }

  /** The mirror of every subscriber agrees with every tracked interface it subscribes to. */
  ghost predicate Faithful(c: Core, s: SubscriberId, i: uint32) {
    s in c.subscribers && i in c.subscribers[s] && i in c.trackers ==>
      i in MirrorOf(c, s) && AgreeUnflagged(MirrorOf(c, s)[i], c.trackers[i])
  }

  lemma ReplayAppended(log: seq<Event>, ev: Event)
    ensures ReplayFrom(map[], log + [ev]) == ReplayOne(ReplayFrom(map[], log), ev)
  {
    assert (log + [ev])[..|log|] == log;
  }

  /** The mirror of a subscriber after the lifecycle callback, if any, of an effect. */
  lemma MirrorAfterEffect(c: Core, e: Effect, logs: map<SubscriberId, seq<Event>>, s: SubscriberId)
    requires logs == Announce(c, e) && s in c.subscribers
    ensures ReplayFrom(map[], LogOf(logs, s)) == match e
      case LinkGone(j, name) => MirrorOf(c, s) - {j}
      case LinkNew(j, name, _, _, _, _) =>
        if j in c.trackers then MirrorOf(c, s) else MirrorOf(c, s)[j := DEFAULT_FIELDS.(name := name.GetOr([]))]
      case _ => MirrorOf(c, s)
  {
    hide ReplayFrom;
    match e
    case LinkGone(j, name) => ReplayAppended(c.Log(s), Event(j, name, Removed));
    case LinkNew(j, name, _, _, _, _) => ReplayAppended(c.Log(s), Event(j, name.GetOr([]), Added));
    case _ =>
  }

  lemma OverwrittenName(e: Effect)
    requires e.LinkNew?
    ensures Overwritten(DEFAULT_FIELDS, e).name == e.name.GetOr([])
  {
  }

  /** A tracker that has just been created agrees with what its Added callback says, outside the flags set since. */
  lemma NewTrackerAgrees(e: Effect)
    requires e.LinkNew?
    ensures AgreeUnflagged(DEFAULT_FIELDS.(name := e.name.GetOr([])), Updated(FRESH_TRACKER, e))
  {
    hide Updated, Overwritten;
    UpdateKeepsAgreement(DEFAULT_FIELDS, FRESH_TRACKER, e);
    UpdatedData(FRESH_TRACKER, e);
    assert Overwritten(DEFAULT_FIELDS, e).name == e.name.GetOr([]) by { OverwrittenName(e); }
  }

  lemma HandleKeepsFaithful(cfg: Config, c: Core, m: Message, s: SubscriberId, i: uint32)
    requires Faithful(c, s, i)
    ensures Faithful(HandleMessage(cfg, c, m), s, i)
  {
    hide Decode, Account, Announce, Updated, AgreeUnflagged, ReplayFrom;
    var e := Decode(cfg, m);
    var c' := HandleMessage(cfg, c, m);
    if s in c.subscribers && i in c.subscribers[s] && i in c'.trackers {
      var mirror := MirrorOf(c, s);
      MirrorAfterEffect(c, e, c'.logs, s);
      if !e.Skip? && !e.LinkGone? && e.index == i {
        if i in c.trackers {
          UpdateKeepsAgreement(mirror[i], c.trackers[i], e);
        } else {
          NewTrackerAgrees(e);
        }
      }
    }
  }

  lemma FullReportMakesExact(c: Core, s: SubscriberId, interfaces: Interfaces, i: uint32)
    requires i in interfaces && i in c.trackers
    ensures var c' := NotifyFully(c, s, interfaces); i in MirrorOf(c', s) && MirrorOf(c', s)[i] == c.trackers[i].data
  {
    var keys := Ascending(c.trackers.Keys);
    ReplayConcat(map[], c.Log(s), Deliveries(keys, c.trackers, interfaces.Keys, true));
    ReplayDeliveries(MirrorOf(c, s), keys, c.trackers, interfaces.Keys, true, i);
  }

  /** A sweep reports every flagged field, so afterwards the subscribed part of the mirror is exact. */
  lemma SweepMakesExact(c: Core, s: SubscriberId, i: uint32)
    requires Faithful(c, s, i) && s in c.subscribers && i in c.subscribers[s] && i in c.trackers
    ensures var c' := NotifyChanges(c);
      && i in MirrorOf(c', s) && i in c'.trackers
      && MirrorOf(c', s)[i] == c'.trackers[i].data
      && forall flag :: !c'.trackers[i].IsChanged(flag)
  {
    var keys := Ascending(c.trackers.Keys);
    ReplayConcat(map[], c.Log(s), Deliveries(keys, c.trackers, c.subscribers[s].Keys, false));
    ReplayDeliveries(MirrorOf(c, s), keys, c.trackers, c.subscribers[s].Keys, false, i);
  }

  lemma ReportKeepsFaithful(c: Core, r: SubscriberId, s: SubscriberId, interfaces: Interfaces, i: uint32)
    requires Faithful(c, s, i)
    ensures Faithful(NotifyFully(c.(subscribers := c.subscribers[r := interfaces]), r, interfaces), s, i)
  {
    hide Deliveries, Ascending, ReplayFrom;
    var told := c.(subscribers := c.subscribers[r := interfaces]);
    if r == s && i in interfaces && i in c.trackers {
      FullReportMakesExact(told, s, interfaces, i);
    }
  }

  lemma SweepKeepsFaithful(c: Core, s: SubscriberId, i: uint32)
    requires Faithful(c, s, i)
    ensures Faithful(NotifyChanges(c), s, i)
  {
    hide Deliveries, Ascending, ReplayFrom, FlagsCleared;
    if s in c.subscribers && i in c.subscribers[s] && i in c.trackers {
      SweepMakesExact(c, s, i);
    }
  }

  lemma StepKeepsFaithful(cfg: Config, c: Core, op: Op, s: SubscriberId, i: uint32)
    requires Faithful(c, s, i)
    ensures Faithful(Step(cfg, c, op), s, i)
  {
    hide HandleMessage, NotifyChanges, NotifyFully, AgreeUnflagged, ReplayFrom;
    match op
    case Handle(m) => HandleKeepsFaithful(cfg, c, m, s, i);
    case Notify => SweepKeepsFaithful(c, s, i);
    case Subscribe(r, interfaces) => ReportKeepsFaithful(c, r, s, interfaces, i);
    case UpdateSubscription(r, interfaces) =>
      if r.Some? {
        ReportKeepsFaithful(c, r.value, s, interfaces, i);
      }
    case Unsubscribe(_) =>
  }

  /**
   Subscriber refinement. After any interleaving of messages, subscription calls and sweeps, the
   mirror of every subscriber knows every tracked interface it subscribes to and agrees with the
   cache on each field whose change flag is not set.
   */
  lemma {:induction false} MirrorIsFaithful(cfg: Config, ops: seq<Op>, s: SubscriberId, i: uint32)
    ensures Faithful(Run(cfg, ops), s, i)
  {
    if ops == [] {
    } else {
      MirrorIsFaithful(cfg, ops[..|ops| - 1], s, i);
      StepKeepsFaithful(cfg, Run(cfg, ops[..|ops| - 1]), ops[|ops| - 1], s, i);
    }
  }

  /** Right after a sweep the subscribed part of every mirror is exact, field by field. */
  lemma MirrorIsExactAfterSweep(cfg: Config, ops: seq<Op>, s: SubscriberId, i: uint32)
    ensures var c := Run(cfg, ops + [Notify]);
      s in c.subscribers && i in c.subscribers[s] && i in c.trackers ==>
        i in MirrorOf(c, s) && MirrorOf(c, s)[i] == c.trackers[i].data
  {
    OneMoreOp(cfg, ops, Notify);
    MirrorIsFaithful(cfg, ops, s, i);
    var c := Run(cfg, ops);
    if s in c.subscribers && i in c.subscribers[s] && i in c.trackers {
      SweepMakesExact(c, s, i);
    }
  }

  // ----- lifecycle callbacks -----

  predicate IsLifecycle(ev: Event, i: uint32) {
    ev.index == i && (ev.change.Added? || ev.change.Removed?)
  }

  /** The last Added or Removed callback about an index. */
  function LastLifecycle(log: seq<Event>, i: uint32): Option<Change> {
    if log == [] then None
    else if IsLifecycle(log[|log| - 1], i) then Some(log[|log| - 1].change)
    else LastLifecycle(log[..|log| - 1], i)
  }

  lemma {:induction false} LastLifecycleConcat(a: seq<Event>, b: seq<Event>, i: uint32)
    requires forall ev :: ev in b ==> !IsLifecycle(ev, i)
    ensures LastLifecycle(a + b, i) == LastLifecycle(a, i)
  {
    if b == [] {
      assert a + b == a;
    } else {
      LastLifecycleConcat(a, b[..|b| - 1], i);
      assert (a + b)[..|a + b| - 1] == a + b[..|b| - 1];
      assert (a + b)[|a + b| - 1] == b[|b| - 1] && b[|b| - 1] in b;
    }
  }

  predicate ReportsFields(events: seq<Event>) {
    forall ev :: ev in events ==> !ev.change.Added? && !ev.change.Removed?
  }

  lemma ReportsConcat(a: seq<Event>, b: seq<Event>)
    requires ReportsFields(a) && ReportsFields(b)
    ensures ReportsFields(a + b)
  {
  }

  lemma ReportReportsFields(i: uint32, d: Fields, b1: bool, b2: bool, b3: bool, b4: bool, b5: bool, b6: bool, b7: bool)
    ensures ReportsFields(Report(i, d, b1, b2, b3, b4, b5, b6, b7))
  {
    var e1 := Optional(b1, i, d.name, NameChanged);
    var o2 := Optional(b2, i, d.name, OperationalStateChanged(d.operationalState));
    ReportsConcat(e1, o2);
    var o3 := Optional(b3, i, d.name, AddressesChanged(d.addresses));
    ReportsConcat(e1 + o2, o3);
    var o4 := Optional(b4, i, d.name, GatewayChanged(d.gateway));
    ReportsConcat(e1 + o2 + o3, o4);
    var o5 := Optional(b5, i, d.name, MacChanged(d.mac));
    ReportsConcat(e1 + o2 + o3 + o4, o5);
    var o6 := Optional(b6, i, d.name, BroadcastChanged(d.broadcast));
    ReportsConcat(e1 + o2 + o3 + o4 + o5, o6);
    ReportsConcat(e1 + o2 + o3 + o4 + o5 + o6, Optional(b7, i, d.name, LinkFlagsChanged(d.linkFlags)));
  }

  lemma DueReportsFields(i: uint32, t: TrackerState, force: bool)
    ensures ReportsFields(Due(i, t, force))
  {
    ReportReportsFields(i, t.data, IsDue(t, NameFlag, force), IsDue(t, OperationalStateFlag, force),
      IsDue(t, NetworkAddressesFlag, force), IsDue(t, GatewayAddressFlag, force),
      IsDue(t, MacAddressFlag, force), IsDue(t, BroadcastAddressFlag, force),
      IsDue(t, LinkFlagsFlag, force));
  }

  lemma {:induction false} DeliveriesReportFields(keys: seq<uint32>, c: Cache, interfaces: set<uint32>, force: bool)
    requires forall k :: k in keys ==> k in c
    ensures ReportsFields(Deliveries(keys, c, interfaces, force))
  {
    if keys == [] {
    } else {
      var n := |keys| - 1;
      DeliveriesReportFields(keys[..n], c, interfaces, force);
      if keys[n] in interfaces {
        DueReportsFields(keys[n], c[keys[n]], force);
        ReportsConcat(Deliveries(keys[..n], c, interfaces, force), Due(keys[n], c[keys[n]], force));
      }
    }
  }

  /** The subscriber is there whenever a message is handled. */
  ghost predicate AlwaysSubscribed(cfg: Config, ops: seq<Op>, s: SubscriberId) {
    forall k :: 0 <= k < |ops| && ops[k].Handle? ==> s in Run(cfg, ops[..k]).subscribers
  }

  lemma AlwaysSubscribedPrefix(cfg: Config, ops: seq<Op>, s: SubscriberId)
    requires ops != [] && AlwaysSubscribed(cfg, ops, s)
    ensures AlwaysSubscribed(cfg, ops[..|ops| - 1], s)
    ensures ops[|ops| - 1].Handle? ==> s in Run(cfg, ops[..|ops| - 1]).subscribers
  {
    var n := |ops| - 1;
    forall k | 0 <= k < n && ops[..n][k].Handle?
      ensures s in Run(cfg, ops[..n][..k]).subscribers
    {
      assert ops[k].Handle? && ops[..n][..k] == ops[..k];
    }
  }

  lemma FullReportTail(c: Core, c': Core, r: SubscriberId, s: SubscriberId, interfaces: Interfaces)
    returns (tail: seq<Event>)
    requires c'.logs == if interfaces == map[] then c.logs else NotifyFully(c, r, interfaces).logs
    ensures c'.Log(s) == c.Log(s) + tail
    ensures ReportsFields(tail)
  {
    hide Deliveries, Ascending;
    var keys := Ascending(c.trackers.Keys);
    if r == s && interfaces != map[] {
      DeliveriesReportFields(keys, c.trackers, interfaces.Keys, true);
      tail := Deliveries(keys, c.trackers, interfaces.Keys, true);
    } else {
      tail := [];
      assert c.Log(s) + [] == c.Log(s);
    }
  }

  lemma SweepTail(c: Core, s: SubscriberId) returns (tail: seq<Event>)
    ensures NotifyChanges(c).Log(s) == c.Log(s) + tail
    ensures ReportsFields(tail)
  {
    hide Deliveries, Ascending, FlagsCleared;
    var keys := Ascending(c.trackers.Keys);
    if s in c.subscribers {
      DeliveriesReportFields(keys, c.trackers, c.subscribers[s].Keys, false);
      tail := Deliveries(keys, c.trackers, c.subscribers[s].Keys, false);
    } else {
      tail := [];
      assert c.Log(s) + [] == c.Log(s);
    }
  }

  /** The lifecycle callbacks of an effect to one subscriber. */
  function LifecycleOf(c: Core, e: Effect): seq<Event> {
    match e
    case LinkNew(i, name, _, _, _, _) => if i in c.trackers then [] else [Event(i, name.GetOr([]), Added)]
    case LinkGone(i, name) => [Event(i, name, Removed)]
    case _ => []
  }

  lemma AnnounceTail(c: Core, e: Effect, s: SubscriberId) returns (tail: seq<Event>)
    ensures LogOf(Announce(c, e), s) == c.Log(s) + tail
    ensures s in c.subscribers ==> tail == LifecycleOf(c, e)
  {
    tail := if s in c.subscribers then LifecycleOf(c, e) else [];
    assert c.Log(s) + [] == c.Log(s);
  }

  /** How one operation extends the log of a subscriber. */
  lemma StepExtendsLog(cfg: Config, c: Core, op: Op, s: SubscriberId) returns (tail: seq<Event>)
    ensures Step(cfg, c, op).Log(s) == c.Log(s) + tail
    ensures op.Handle? && s in c.subscribers ==> tail == LifecycleOf(c, Decode(cfg, op.m))
    ensures !op.Handle? ==> ReportsFields(tail)
  {
    hide Decode, Apply, Account, Announce, LifecycleOf, NotifyChanges, NotifyFully;
    var c' := Step(cfg, c, op);
    tail := [];
    assert c.Log(s) + [] == c.Log(s);
    match op
    case Handle(m) => tail := AnnounceTail(c, Decode(cfg, m), s);
    case Notify => tail := SweepTail(c, s);
    case Subscribe(r, interfaces) =>
      tail := FullReportTail(c.(subscribers := c.subscribers[r := interfaces]), c', r, s, interfaces);
    case UpdateSubscription(r, interfaces) =>
      if r.Some? && r.value in c.subscribers {
        tail := FullReportTail(c.(subscribers := c.subscribers[r.value := interfaces]), c', r.value, s, interfaces);
      }
    case Unsubscribe(_) =>
  }

  lemma StepTracks(cfg: Config, c: Core, op: Op, i: uint32)
    ensures op.Handle? ==>
      (i in Step(cfg, c, op).trackers <==>
         Creates(Decode(cfg, op.m), i) || (i in c.trackers && !Deletes(Decode(cfg, op.m), i)))
    ensures !op.Handle? ==> Step(cfg, c, op).trackers.Keys == c.trackers.Keys
  {
  }

  lemma LastLifecycleIs(log: seq<Event>, ev: Event, i: uint32)
    requires IsLifecycle(ev, i)
    ensures LastLifecycle(log + [ev], i) == Some(ev.change)
  {
  }

  /** Handling a message keeps the last lifecycle callback in step with what is tracked. */
  lemma LifecycleTracks(c: Core, e: Effect, log: seq<Event>, i: uint32)
    requires i in c.trackers <==> LastLifecycle(log, i) == Some(Added)
    ensures Creates(e, i) || (i in c.trackers && !Deletes(e, i))
      <==> LastLifecycle(log + LifecycleOf(c, e), i) == Some(Added)
  {
    hide LastLifecycle;
    var tail := LifecycleOf(c, e);
    if tail != [] && IsLifecycle(tail[0], i) {
      LastLifecycleIs(log, tail[0], i);
    } else {
      LastLifecycleConcat(log, tail, i);
    }
  }

  /** For a subscriber that misses no message an index is tracked exactly if its last lifecycle callback was Added. */
  lemma {:induction false} TrackedIffLastAdded(cfg: Config, ops: seq<Op>, s: SubscriberId, i: uint32)
    requires AlwaysSubscribed(cfg, ops, s)
    ensures i in Run(cfg, ops).trackers <==> LastLifecycle(Run(cfg, ops).Log(s), i) == Some(Added)
  {
    hide Step, Decode, AlwaysSubscribed, LifecycleOf;
    if ops == [] {
    } else {
      hide LastLifecycle;
      var before, op := ops[..|ops| - 1], ops[|ops| - 1];
      AlwaysSubscribedPrefix(cfg, ops, s);
      TrackedIffLastAdded(cfg, before, s, i);
      var c := Run(cfg, before);
      var tail := StepExtendsLog(cfg, c, op, s);
      StepTracks(cfg, c, op, i);
      if op.Handle? {
        LifecycleTracks(c, Decode(cfg, op.m), c.Log(s), i);
      } else {
        LastLifecycleConcat(c.Log(s), tail, i);
      }
    }
  }

  predicate IsAdded(ev: Event, i: uint32) {
    ev.index == i && ev.change.Added?
  }

  predicate IsRemoved(ev: Event, i: uint32) {
    ev.index == i && ev.change.Removed?
  }

  /** Between any two Added callbacks for one index there is a Removed one. */
  ghost predicate Alternates(log: seq<Event>, i: uint32) {
    forall a, b :: 0 <= a < b < |log| && IsAdded(log[a], i) && IsAdded(log[b], i) ==>
      exists m :: a < m < b && IsRemoved(log[m], i)
  }

  lemma {:induction false} RemovedSince(log: seq<Event>, i: uint32, a: nat)
    requires a < |log| && IsAdded(log[a], i) && LastLifecycle(log, i) != Some(Added)
    ensures exists m :: a < m < |log| && IsRemoved(log[m], i)
  {
    var n := |log| - 1;
    if IsLifecycle(log[n], i) {
      assert IsRemoved(log[n], i);
    } else {
      RemovedSince(log[..n], i, a);
      var m :| a < m < n && IsRemoved(log[..n][m], i);
      assert IsRemoved(log[m], i);
    }
  }

  lemma RemovedBetween(log: seq<Event>, tail: seq<Event>, i: uint32, a: nat, b: nat)
    requires Alternates(log, i) && a < b < |log + tail|
    requires |tail| <= 1 || forall ev :: ev in tail ==> !ev.change.Added?
    requires tail != [] && IsAdded(tail[0], i) ==> LastLifecycle(log, i) != Some(Added)
    requires IsAdded((log + tail)[a], i) && IsAdded((log + tail)[b], i)
    ensures exists m :: a < m < b && IsRemoved((log + tail)[m], i)
  {
    hide LastLifecycle;
    var all := log + tail;
    if b < |log| {
      assert all[a] == log[a] && all[b] == log[b];
      var m :| a < m < b && IsRemoved(log[m], i);
      assert IsRemoved(all[m], i);
    } else {
      assert all[b] == tail[b - |log|] && tail[b - |log|] in tail;
      assert b == |log| && all[a] == log[a];
      RemovedSince(log, i, a);
      var m :| a < m < |log| && IsRemoved(log[m], i);
      assert IsRemoved(all[m], i);
    }
  }

  lemma AppendKeepsAlternating(log: seq<Event>, tail: seq<Event>, i: uint32)
    requires Alternates(log, i)
    requires |tail| <= 1 || forall ev :: ev in tail ==> !ev.change.Added?
    requires tail != [] && IsAdded(tail[0], i) ==> LastLifecycle(log, i) != Some(Added)
    ensures Alternates(log + tail, i)
  {
    hide LastLifecycle, IsAdded, IsRemoved;
    var all := log + tail;
    forall a, b | 0 <= a < b < |all| && IsAdded(all[a], i) && IsAdded(all[b], i)
      ensures exists m :: a < m < b && IsRemoved(all[m], i)
    {
      RemovedBetween(log, tail, i, a, b);
    }
  }

  lemma {:induction false} AddedAndRemovedAlternate(cfg: Config, ops: seq<Op>, s: SubscriberId, i: uint32)
    requires AlwaysSubscribed(cfg, ops, s)
    ensures Alternates(Run(cfg, ops).Log(s), i)
  {
    if ops == [] {
    } else {
      var before, op := ops[..|ops| - 1], ops[|ops| - 1];
      AlwaysSubscribedPrefix(cfg, ops, s);
      AddedAndRemovedAlternate(cfg, before, s, i);
      TrackedIffLastAdded(cfg, before, s, i);
      var tail := StepExtendsLog(cfg, Run(cfg, before), op, s);
      AppendKeepsAlternating(Run(cfg, before).Log(s), tail, i);
    }
  }

  // ----- a subscriber that misses nothing -----

  lemma {:induction false} ReplayElsewhere(m: Mirror, keys: seq<uint32>, c: Cache, interfaces: set<uint32>,
                                           force: bool, i: uint32)
    requires (forall k :: k in keys ==> k in c) && i !in keys
    ensures var r := ReplayFrom(m, Deliveries(keys, c, interfaces, force));
      (i in r <==> i in m) && (i in m ==> r[i] == m[i])
  {
    hide Due, Patched;
    if keys == [] {
    } else {
      var n := |keys| - 1;
      var before, k := keys[..n], keys[n];
      ReplayElsewhere(m, before, c, interfaces, force, i);
      var events := Deliveries(before, c, interfaces, force);
      if k in interfaces {
        var due, mid := Due(k, c[k], force), ReplayFrom(m, events);
        ReplayConcat(m, events, due);
        ReplayDue(mid, k, c[k], force);
      } else {
        assert events + [] == events;
      }
    }
  }

  /** Field callbacks neither add nor drop an entry of a mirror that knows what is tracked. */
  lemma DeliveriesKeepKeys(m: Mirror, c: Cache, interfaces: set<uint32>, force: bool, i: uint32)
    requires i in m <==> i in c
    ensures i in ReplayFrom(m, Deliveries(Ascending(c.Keys), c, interfaces, force)) <==> i in c
  {
    hide Deliveries, Patched, Ascending;
    if i in c {
      ReplayDeliveries(m, Ascending(c.Keys), c, interfaces, force, i);
    } else {
      ReplayElsewhere(m, Ascending(c.Keys), c, interfaces, force, i);
    }
  }

  ghost predicate KnowsTracked(c: Core, s: SubscriberId, i: uint32) {
    i in MirrorOf(c, s) <==> i in c.trackers
  }

  lemma HandleKeepsKnowing(cfg: Config, c: Core, m: Message, s: SubscriberId, i: uint32)
    requires KnowsTracked(c, s, i) && s in c.subscribers
    ensures KnowsTracked(HandleMessage(cfg, c, m), s, i)
  {
    hide Decode, Account, Announce, Updated, ReplayFrom;
    MirrorAfterEffect(c, Decode(cfg, m), HandleMessage(cfg, c, m).logs, s);
  }

  lemma ReportKeepsKnowing(c: Core, r: SubscriberId, s: SubscriberId, interfaces: Interfaces, i: uint32)
    requires KnowsTracked(c, s, i)
    ensures KnowsTracked(NotifyFully(c, r, interfaces), s, i)
  {
    hide Deliveries, Ascending, ReplayFrom;
    if r == s {
      ReplayConcat(map[], c.Log(s), Deliveries(Ascending(c.trackers.Keys), c.trackers, interfaces.Keys, true));
      DeliveriesKeepKeys(MirrorOf(c, s), c.trackers, interfaces.Keys, true, i);
    }
  }

  lemma SweepKeepsKnowing(c: Core, s: SubscriberId, i: uint32)
    requires KnowsTracked(c, s, i)
    ensures KnowsTracked(NotifyChanges(c), s, i)
  {
    hide Deliveries, Ascending, ReplayFrom, FlagsCleared;
    if s in c.subscribers {
      ReplayConcat(map[], c.Log(s), Deliveries(Ascending(c.trackers.Keys), c.trackers, c.subscribers[s].Keys, false));
      DeliveriesKeepKeys(MirrorOf(c, s), c.trackers, c.subscribers[s].Keys, false, i);
    } else {
      assert c.Log(s) + [] == c.Log(s);
    }
  }

  lemma StepKeepsKnowing(cfg: Config, c: Core, op: Op, s: SubscriberId, i: uint32)
    requires KnowsTracked(c, s, i) && (op.Handle? ==> s in c.subscribers)
    ensures KnowsTracked(Step(cfg, c, op), s, i)
  {
    hide HandleMessage, NotifyChanges, NotifyFully;
    match op
    case Handle(m) => HandleKeepsKnowing(cfg, c, m, s, i);
    case Notify => SweepKeepsKnowing(c, s, i);
    case Subscribe(r, interfaces) =>
      ReportKeepsKnowing(c.(subscribers := c.subscribers[r := interfaces]), r, s, interfaces, i);
    case UpdateSubscription(r, interfaces) =>
      if r.Some? {
        ReportKeepsKnowing(c.(subscribers := c.subscribers[r.value := interfaces]), r.value, s, interfaces, i);
      }
    case Unsubscribe(_) =>
  }

  /** The mirror of a subscriber that misses no message has an entry for exactly the tracked interfaces. */
  lemma {:induction false} MirrorKnowsTracked(cfg: Config, ops: seq<Op>, s: SubscriberId, i: uint32)
    requires AlwaysSubscribed(cfg, ops, s)
    ensures i in MirrorOf(Run(cfg, ops), s) <==> i in Run(cfg, ops).trackers
  {
    if ops == [] {
    } else {
      AlwaysSubscribedPrefix(cfg, ops, s);
      MirrorKnowsTracked(cfg, ops[..|ops| - 1], s, i);
      hide Step;
      StepKeepsKnowing(cfg, Run(cfg, ops[..|ops| - 1]), ops[|ops| - 1], s, i);
    }
  }

  lemma EntryAfterSweep(cfg: Config, ops: seq<Op>, s: SubscriberId, i: uint32)
    requires AlwaysSubscribed(cfg, ops, s)
    requires var c := Run(cfg, ops); s in c.subscribers && c.trackers.Keys <= c.subscribers[s].Keys
    ensures var c := Run(cfg, ops + [Notify]);
      && (i in MirrorOf(c, s) <==> i in c.trackers)
      && (i in c.trackers ==> MirrorOf(c, s)[i] == c.trackers[i].data)
  {
    hide Run, MirrorOf, AlwaysSubscribed;
    var c := Run(cfg, ops);
    OneMoreOp(cfg, ops, Notify);
    MirrorKnowsTracked(cfg, ops, s, i);
    SweepKeepsKnowing(c, s, i);
    MirrorIsExactAfterSweep(cfg, ops, s, i);
    StepTracks(cfg, c, Notify, i);
  }

  /**
   A subscriber that misses no message and subscribes to all that is tracked holds, right after a
   sweep, exactly the data of the cache: no interface more, none less, every field the same.
   */
  lemma MirrorIsCacheAfterSweep(cfg: Config, ops: seq<Op>, s: SubscriberId)
    requires AlwaysSubscribed(cfg, ops, s)
    requires var c := Run(cfg, ops); s in c.subscribers && c.trackers.Keys <= c.subscribers[s].Keys
    ensures var c := Run(cfg, ops + [Notify]); MirrorOf(c, s) == DataOf(c.trackers)
  {
    hide Run, MirrorOf, AlwaysSubscribed;
    var c := Run(cfg, ops + [Notify]);
    forall i: uint32
      ensures i in MirrorOf(c, s) <==> i in c.trackers
      ensures i in c.trackers ==> MirrorOf(c, s)[i] == c.trackers[i].data
    {
      EntryAfterSweep(cfg, ops, s, i);
    }
  }
}
