/**
 The monitor object of src/monitor/NetworkMonitor.cpp. Its methods work on the fields step by step and
 are proved against the functions of the other modules; Valid ties every live monitor to the run of
 operations that led to it, so the theorems about runs are theorems about the object.
 */
module NetworkMonitors {
  import opened Types
  import opened FlagSets
  import opened Trackers
  import opened AttributeTables
  import opened Messages
  import opened MulticastGroups
  import opened Reports
  import opened Caches
  import opened Subscriptions
  import opened DumpProtocol
  import opened Sweeps

  class NetworkMonitor {
    const cfg: Config

    /** The multicast groups the socket is bound with. */
    const groups: bv32

    var socketOpen: bool
    var running: bool
    var aborted: bool
    var sequenceNumber: uint32
    var sendBuffer: Request
    var cacheState: Phase
    var packetsReceived: nat
    var packetsSent: nat
    var trackers: map<uint32, Tracker>
    var subscribers: map<SubscriberId, Interfaces>
    var stats: Statistics

    /** What the socket is going to deliver. */
    var script: Script

    ghost var requests: seq<Request>
    ghost var retries: nat
    ghost var stops: nat
    ghost var logs: map<SubscriberId, seq<Event>>
    ghost var history: seq<Op>

    // ----- abstraction -----

    /** The trackers. Methods that change the monitor alone note that it is none of them, so what reads them stays. */
    ghost function Owned(): set<object>
      reads this`trackers
    {
      set i | i in trackers :: trackers[i] as object
    }

    /** Every tracker is an object of its own, and every subscriber has a log. */
    ghost predicate Intact()
      reads this`trackers, this`subscribers, this`logs
    {
      && (forall i, j :: i in trackers && j in trackers && i != j ==> trackers[i] != trackers[j])
      && subscribers.Keys <= logs.Keys
    }

    ghost function Cached(): (c: Cache)
      reads this`trackers, Owned()
      ensures c.Keys == trackers.Keys
    {
      map i | i in trackers :: trackers[i].View()
    }

    ghost function CoreState(): Core
      reads this`trackers, this`subscribers, this`logs, this`stats, Owned()
    {
      Core(Cached(), subscribers, logs, stats)
    }

    ghost function Ctl(): Control
      reads this`cacheState, this`sequenceNumber, this`sendBuffer, this`socketOpen, this`running, this`aborted,
        this`packetsReceived, this`packetsSent, this`requests, this`retries, this`stops
    {
      Control(cacheState, sequenceNumber, sendBuffer, socketOpen, running, aborted,
              packetsReceived, packetsSent, requests, retries, stops)
    }

    ghost function Whole(): State
      reads this`cacheState, this`sequenceNumber, this`sendBuffer, this`socketOpen, this`running, this`aborted,
        this`packetsReceived, this`packetsSent, this`requests, this`retries, this`stops, this`history
    {
      State(Ctl(), history)
    }

    /** Cache, subscriptions, callbacks and statistics are those of the operations so far. */
    ghost predicate Ready()
      reads this`trackers, this`subscribers, this`logs, this`stats, this`history, Owned()
    {
      Intact() && CoreState() == Run(cfg, history)
    }

    ghost predicate Valid()
      reads this, Owned()
    {
      Ready() && (!aborted ==> Protocol(Ctl()))
    }

    constructor (cfg: Config, script: Script)
      ensures Valid() && fresh(Owned())
      ensures this.cfg == cfg && this.script == script && FitPreference(groups, cfg)
      ensures Whole() == INITIAL_STATE
    {
      this.cfg := cfg;
      var joined := Groups(cfg);
      groups := joined;
      this.script := script;
      socketOpen, running, aborted := true, false, false;
      sequenceNumber, sendBuffer, cacheState := 0, Request(0, 0, 0, 0, 0), EnumeratingLinks;
      packetsReceived, packetsSent := 0, 0;
      trackers, subscribers, stats := map[], map[], INITIAL_CORE.stats;
      requests, retries, stops, logs, history := [], 0, 0, map[], [];
    }

    // ----- callbacks -----

    /** The subscriber's callback: the model records it. */
    ghost method Call(s: SubscriberId, ev: Event)
      modifies this`logs
      ensures logs == old(logs)[s := LogOf(old(logs), s) + [ev]]
    {
      logs := logs[s := LogOf(logs, s) + [ev]];
    }

    /** onInterfaceAdded or onInterfaceRemoved to every subscriber, in no particular order. */
    method NotifyLifecycle(ev: Event)
      modifies this`logs
      ensures logs == Broadcast(subscribers.Keys, old(logs), ev)
    {
      var rest := subscribers.Keys;
      while rest != {}
        invariant rest <= subscribers.Keys
        invariant logs == Broadcast(subscribers.Keys - rest, old(logs), ev)
      {
        var s :| s in rest;
        Call(s, ev);
        rest := rest - {s};
      }
      assert subscribers.Keys - rest == subscribers.Keys;
    }

    /** Compared with `base`, the log of s has grown by the given events and no other log has changed. */
    static ghost predicate Appended(base: map<SubscriberId, seq<Event>>, now: map<SubscriberId, seq<Event>>,
                                    s: SubscriberId, events: seq<Event>)
    {
      && now.Keys == base.Keys && s in base
      && now[s] == base[s] + events
      && forall r :: r in base && r != s ==> now[r] == base[r]
    }

    ghost method CallIf(due: bool, s: SubscriberId, i: uint32, name: Name, change: Change,
                        base: map<SubscriberId, seq<Event>>, sent: seq<Event>)
      requires Appended(base, logs, s, sent)
      modifies this`logs
      ensures Appended(base, logs, s, sent + Optional(due, i, name, change))
    {
      if due {
        Call(s, Event(i, name, change));
        assert base[s] + sent + [Event(i, name, change)] == base[s] + (sent + [Event(i, name, change)]);
      } else {
        assert sent + Optional(due, i, name, change) == sent;
      }
    }

    /** The chosen callbacks, in the order they are made. */
    ghost method CallAll(s: SubscriberId, i: uint32, d: Fields,
                         b1: bool, b2: bool, b3: bool, b4: bool, b5: bool, b6: bool, b7: bool)
      requires s in logs
      modifies this`logs
      ensures Appended(old(logs), logs, s, Report(i, d, b1, b2, b3, b4, b5, b6, b7))
    {
      var base := logs;
      assert base[s] + [] == base[s];
      CallIf(b1, s, i, d.name, NameChanged, base, []);
      var e1 := Optional(b1, i, d.name, NameChanged);
      assert [] + e1 == e1;
      var c2, c3 := OperationalStateChanged(d.operationalState), AddressesChanged(d.addresses);
      var c4 := GatewayChanged(d.gateway);
      CallIf(b2, s, i, d.name, c2, base, e1);
      var e2 := e1 + Optional(b2, i, d.name, c2);
      CallIf(b3, s, i, d.name, c3, base, e2);
      var e3 := e2 + Optional(b3, i, d.name, c3);
      CallIf(b4, s, i, d.name, c4, base, e3);
      var e4 := e3 + Optional(b4, i, d.name, c4);
      CallIf(b5, s, i, d.name, MacChanged(d.mac), base, e4);
      var e5 := e4 + Optional(b5, i, d.name, MacChanged(d.mac));
      CallIf(b6, s, i, d.name, BroadcastChanged(d.broadcast), base, e5);
      var e6 := e5 + Optional(b6, i, d.name, BroadcastChanged(d.broadcast));
      CallIf(b7, s, i, d.name, LinkFlagsChanged(d.linkFlags), base, e6);
    }

    /** The callbacks for one tracker to one subscriber: those whose flag is set, or all of them. */
    method NotifyTracker(s: SubscriberId, i: uint32, t: Tracker, force: bool)
      requires s in logs
      modifies this`logs
      ensures Appended(old(logs), logs, s, Due(i, t.View(), force))
      ensures forall j, flag ::
        Told(Due(i, t.View(), force), j, flag) == if j == i && (force || t.changedFlags[Index(flag)]) then 1 else 0
    {
      hide Told;
      forall j, flag
        ensures Told(Due(i, t.View(), force), j, flag) ==
          (if j == i && (force || t.changedFlags[Index(flag)]) then 1 else 0)
      {
        DueTells(i, t.View(), force, j, flag);
      }
      var b1 := force || t.IsChanged(NameFlag);
      var b2 := force || t.IsChanged(OperationalStateFlag);
      var b3 := force || t.IsChanged(NetworkAddressesFlag);
      var b4 := force || t.IsChanged(GatewayAddressFlag);
      var b5 := force || t.IsChanged(MacAddressFlag);
      var b6 := force || t.IsChanged(BroadcastAddressFlag);
      var b7 := force || t.IsChanged(LinkFlagsFlag);
      CallAll(s, i, t.View().data, b1, b2, b3, b4, b5, b6, b7);
      assert Due(i, t.View(), force) == Report(i, t.View().data, b1, b2, b3, b4, b5, b6, b7);
    }

    /** One tracker's due callbacks to every subscriber of its interface. */
    method NotifySubscribers(i: uint32, t: Tracker)
      requires subscribers.Keys <= logs.Keys
      modifies this`logs
      ensures logs == Grown(old(logs), subscribers, i, Due(i, t.View(), false))
    {
      hide Due, Grown;
      ghost var due := Due(i, t.View(), false);
      var rest := subscribers.Keys;
      while rest != {}
        invariant rest <= subscribers.Keys
        invariant logs.Keys == old(logs).Keys
        invariant forall s :: s in logs ==>
          logs[s] == old(logs)[s] + if s in subscribers && s !in rest && i in subscribers[s] then due else []
      {
        var s :| s in rest;
        if i in subscribers[s] {
          NotifyTracker(s, i, t, false);
        }
        rest := rest - {s};
      }
      AllGrown(old(logs), logs, subscribers, i, due);
    }

    /** Clears the flags of one tracker; no other tracker is touched. */
    method ClearFlagsOf(i: uint32)
      requires Intact() && i in trackers
      modifies trackers[i]
      ensures Intact()
      ensures Cached() == old(Cached())[i := FlagsCleared(old(Cached())[i])]
    {
      trackers[i].ClearChangedFlags();
    }

    /** One tracker's part of the sweep. */
    method SweepTracker(i: uint32)
      requires Intact() && i in trackers
      modifies this`logs, trackers[i]
      ensures Intact()
      ensures CoreState() == TrackerSwept(old(CoreState()), i)
    {
      hide Due, FlagsCleared, Grown;
      assert (this as object) !in Owned();
      assert trackers[i].View() == Cached()[i];
      NotifySubscribers(i, trackers[i]);
      hide Cached;
      ClearFlagsOf(i);
    }

    method SweepOver(keys: seq<uint32>)
      requires Intact() && StrictlyAscending(keys) && forall k :: k in keys ==> k in trackers
      modifies this`logs, Owned()
      ensures Intact()
      ensures CoreState() == SweptBy(old(CoreState()), keys)
    {
      hide Cached, TrackerSwept, SweptBy;
      ghost var c := CoreState();
      SweptByNone(c);
      for k := 0 to |keys|
        invariant Intact() && trackers.Keys == c.trackers.Keys
        invariant CoreState() == SweptBy(c, keys[..k])
      {
        assert keys[..k + 1] == keys[..k] + [keys[k]];
        SweptByOneMore(c, keys[..k], keys[k]);
        SweepTracker(keys[k]);
      }
      assert keys[..|keys|] == keys;
    }

    /** notifyChanges(): the regular sweep over all trackers in index order. */
    method NotifyChanges()
      requires Intact()
      modifies this`logs, Owned()
      ensures Intact()
      ensures CoreState() == Subscriptions.NotifyChanges(old(CoreState()))
    {
      if subscribers == map[] {
        return;
      }
      SweepOver(Ascending(trackers.Keys));
    }

    /** One tracker's part of a full report. */
    method ReportTracker(s: SubscriberId, interfaces: Interfaces, i: uint32)
      requires Intact() && i in trackers && s in logs
      modifies this`logs
      ensures Intact() && s in logs
      ensures CoreState() == TrackerReported(old(CoreState()), s, interfaces, i)
    {
      hide Due;
      assert (this as object) !in Owned() && trackers[i].View() == Cached()[i];
      hide Cached;
      ghost var c := CoreState();
      if i in interfaces {
        NotifyTracker(s, i, trackers[i], true);
      } else {
        assert c.logs[s] + [] == c.logs[s];
      }
      assert logs == TrackerReported(c, s, interfaces, i).logs;
    }

    /** Before the first tracker nothing has been reported. */
    method OpenLog(s: SubscriberId, interfaces: Interfaces)
      requires Intact()
      modifies this`logs
      ensures Intact() && s in logs && logs == old(logs)[s := LogOf(old(logs), s)]
      ensures CoreState() == ReportedBy(old(CoreState()), s, interfaces, [])
    {
      hide Cached, ReportedBy;
      assert (this as object) !in Owned();
      ReportedByNone(CoreState(), s, interfaces);
      logs := logs[s := LogOf(logs, s)];
    }

    method ReportOver(s: SubscriberId, interfaces: Interfaces, keys: seq<uint32>)
      requires Intact() && forall k :: k in keys ==> k in trackers
      modifies this`logs
      ensures Intact()
      ensures CoreState() == ReportedBy(old(CoreState()), s, interfaces, keys)
    {
      hide Cached, Intact, ReportedBy, TrackerReported;
      ghost var c := CoreState();
      OpenLog(s, interfaces);
      for k := 0 to |keys|
        invariant Intact() && s in logs
        invariant CoreState() == ReportedBy(c, s, interfaces, keys[..k])
      {
        assert keys[..k + 1] == keys[..k] + [keys[k]];
        ReportedByOneMore(c, s, interfaces, keys[..k], keys[k]);
        ReportTracker(s, interfaces, keys[k]);
      }
      assert keys[..|keys|] == keys;
    }

    /** notifyChanges(subscriber, interfaces): the full report to one subscriber. */
    method NotifyFully(s: SubscriberId, interfaces: Interfaces)
      requires Intact()
      modifies this`logs
      ensures Intact()
      ensures CoreState() == Subscriptions.NotifyFully(old(CoreState()), s, interfaces)
    {
      ReportOver(s, interfaces, Ascending(trackers.Keys));
    }

    // ----- subscriptions -----

    ghost method Record(op: Op)
      requires Intact() && CoreState() == Step(cfg, Run(cfg, history), op)
      modifies this`history
      ensures Ready() && history == old(history) + [op]
    {
      hide Run, Step;
      OneMoreOp(cfg, history, op);
      history := history + [op];
    }

    /** Stores the interfaces of a subscriber and reports them in full. */
    method Register(interfaces: Interfaces, s: SubscriberId)
      requires Intact()
      modifies this`subscribers, this`logs
      ensures Intact() && subscribers == old(subscribers)[s := interfaces]
      ensures var c := old(CoreState());
        CoreState() == Subscriptions.NotifyFully(c.(subscribers := c.subscribers[s := interfaces]), s, interfaces)
    {
      hide Cached, Subscriptions.NotifyFully;
      assert (this as object) !in Owned();
      ghost var c := CoreState().(subscribers := subscribers[s := interfaces]);
      ReportOpensLog(c, s, interfaces);
      subscribers, logs := subscribers[s := interfaces], logs[s := LogOf(logs, s)];
      assert CoreState() == c.(logs := c.logs[s := c.Log(s)]);
      NotifyFully(s, interfaces);
    }

    method Subscribe(interfaces: Interfaces, s: SubscriberId)
      requires Valid()
      modifies this`subscribers, this`logs, this`history
      ensures Valid() && history == old(history) + [Op.Subscribe(s, interfaces)]
      ensures subscribers == if interfaces == map[] then old(subscribers) else old(subscribers)[s := interfaces]
    {
      hide Run, Cached, Intact, HandleMessage, Subscriptions.NotifyChanges, Subscriptions.NotifyFully;
      if interfaces != map[] {
        Register(interfaces, s);
      }
      Record(Op.Subscribe(s, interfaces));
    }

    method RemoveSubscriber(s: Option<SubscriberId>)
      requires Intact()
      modifies this`subscribers
      ensures Intact() && CoreState() == Unsubscribed(old(CoreState()), s)
      ensures subscribers == if s.None? then old(subscribers) else old(subscribers) - {s.value}
    {
      hide Cached;
      assert (this as object) !in Owned();
      if s.Some? && s.value in subscribers {
        subscribers := subscribers - {s.value};
      }
    }

    method UpdateSubscription(interfaces: Interfaces, s: Option<SubscriberId>)
      requires Valid()
      modifies this`subscribers, this`logs, this`history
      ensures Valid() && history == old(history) + [Op.UpdateSubscription(s, interfaces)]
      ensures subscribers ==
        if s.None? || s.value !in old(subscribers) then old(subscribers)
        else if interfaces == map[] then old(subscribers) - {s.value}
        else old(subscribers)[s.value := interfaces]
    {
      hide Run, Cached, Intact, HandleMessage, Subscriptions.NotifyChanges, Subscriptions.NotifyFully;
      if s.Some? {
        if interfaces == map[] {
          RemoveSubscriber(s);
        } else if s.value in subscribers {
          Register(interfaces, s.value);
        }
      }
      Record(Op.UpdateSubscription(s, interfaces));
    }

    method Unsubscribe(s: Option<SubscriberId>)
      requires Valid()
      modifies this`subscribers, this`history
      ensures Valid() && history == old(history) + [Op.Unsubscribe(s)]
      ensures subscribers == if s.None? then old(subscribers) else old(subscribers) - {s.value}
    {
      hide Run, Cached, Intact, HandleMessage, Subscriptions.NotifyChanges, Subscriptions.NotifyFully;
      RemoveSubscriber(s);
      Record(Op.Unsubscribe(s));
    }

    // ----- messages -----

    method NameTracker(i: uint32, name: Option<Name>)
      requires Intact() && i in trackers
      modifies trackers[i]
      ensures Intact()
      ensures Cached() == old(Cached())[i := NamedBy(old(Cached())[i], name)]
    {
      if name.Some? {
        trackers[i].SetName(name.value);
      }
    }

    /** A new tracker, named if the message names it. */
    static method NewTracker(name: Option<Name>) returns (t: Tracker)
      ensures fresh(t) && t.View() == NamedBy(FRESH_TRACKER, name)
    {
      t := new Tracker();
      if name.Some? {
        t.SetName(name.value);
      }
    }

    method InsertTracker(i: uint32, t: Tracker)
      requires Intact() && i !in trackers && t !in Owned()
      modifies this`trackers
      ensures Intact() && Owned() <= old(Owned()) + {t}
      ensures i in trackers && trackers[i] == t
      ensures Cached() == old(Cached())[i := t.View()]
    {
      ghost var before, owned := Cached(), Owned();
      assert forall j :: j in trackers ==> trackers[j] in owned && trackers[j] != t && before[j] == trackers[j].View();
      assert (this as object) !in owned + {t};
      trackers := trackers[i := t];
      assert Cached() == before[i := t.View()];
    }

    method AddTracker(i: uint32, name: Option<Name>)
      requires Intact() && i !in trackers
      modifies this`trackers
      ensures Intact() && fresh(Owned() - old(Owned()))
      ensures Cached() == old(Cached())[i := NamedBy(FRESH_TRACKER, name)]
      ensures i in trackers && trackers[i].name == name.GetOr([])
    {
      var t := NewTracker(name);
      InsertTracker(i, t);
    }

    /** The tracker for an index, created and announced if it is new, with the name brought up to date. */
    method EnsureNameCurrent(i: uint32, name: Option<Name>)
      requires Intact()
      modifies this`trackers, this`logs, Owned()
      ensures Intact() && fresh(Owned() - old(Owned()))
      ensures Cached() == old(Cached())[i := NamedBy(Tracked(old(Cached()), i), name)]
      ensures logs == if i in old(trackers) then old(logs)
                      else Broadcast(subscribers.Keys, old(logs), Event(i, name.GetOr([]), Added))
    {
      if i in trackers {
        NameTracker(i, name);
      } else {
        AddTracker(i, name);
        NotifyLifecycle(Event(i, trackers[i].name, Added));
      }
    }

    /** One tracker has been worked on; the others are as they were. */
    static method UpdateLink(t: Tracker, flags: Bits, state: Option<byte>, mac: Option<Mac>, broadcast: Option<Mac>)
      modifies t
      ensures t.View() == LinkSet(old(t.View()), flags, state, mac, broadcast)
    {
      t.UpdateLinkFlags(flags);
      if state.Some? {
        t.SetOperationalState(state.value);
      }
      if mac.Some? {
        t.SetMacAddress(mac.value);
      }
      if broadcast.Some? {
        t.SetBroadcastAddress(broadcast.value);
      }
    }

    method LinkTracker(i: uint32, flags: Bits, state: Option<byte>, mac: Option<Mac>, broadcast: Option<Mac>)
      requires Intact() && i in trackers
      modifies trackers[i]
      ensures Intact()
      ensures Cached() == old(Cached())[i := LinkSet(old(Cached())[i], flags, state, mac, broadcast)]
    {
      hide LinkSet;
      UpdateLink(trackers[i], flags, state, mac, broadcast);
    }

    /** The tail of parseLinkMessage for a NEWLINK. */
    method SetLink(i: uint32, name: Option<Name>, flags: Bits, state: Option<byte>, mac: Option<Mac>,
                   broadcast: Option<Mac>)
      requires Intact()
      modifies this`trackers, this`logs, Owned()
      ensures Intact() && fresh(Owned() - old(Owned()))
      ensures var e := LinkNew(i, name, flags, state, mac, broadcast);
        Cached() == Apply(old(Cached()), e) && logs == Announce(old(CoreState()), e)
    {
      hide Cached, Intact, LinkSet, NamedBy, Broadcast, Apply;
      ApplyLink(Cached(), LinkNew(i, name, flags, state, mac, broadcast));
      EnsureNameCurrent(i, name);
      LinkTracker(i, flags, state, mac, broadcast);
    }

    /** The tail of parseLinkMessage for a DELLINK: the callback is sent even if the index was not tracked. */
    method DropLink(i: uint32, name: Name)
      requires Intact()
      modifies this`trackers, this`logs
      ensures Intact() && Owned() <= old(Owned())
      ensures Cached() == Apply(old(Cached()), LinkGone(i, name))
      ensures logs == Announce(old(CoreState()), LinkGone(i, name))
    {
      trackers := trackers - {i};
      NotifyLifecycle(Event(i, name, Removed));
    }

    /** The statistics after parsing the attributes of a message. */
    method ParseAttributes(attributes: seq<Attribute>, maxType: uint16) returns (table: AttributeTable)
      modifies this`stats
      ensures fresh(table) && fresh(table.slots) && table.Holds(attributes, maxType)
      ensures stats == Parsed(old(stats), attributes, maxType)
    {
      var seen, unknown;
      table, seen, unknown := AttributeTable.Parse(attributes, maxType, stats.seenAttributes, stats.unknownAttributes);
      stats := stats.(seenAttributes := seen, unknownAttributes := unknown);
    }

    /** Adds or removes one record of a tracked interface. */
    method ChangeRecord(i: uint32, a: NetAddress, deleted: bool)
      requires Intact() && i in trackers
      modifies trackers[i]
      ensures Intact()
      ensures var t := old(Cached())[i];
        Cached() == old(Cached())[i := if deleted then AddressRemoved(t, a) else AddressAdded(t, a)]
    {
      hide AddressAdded, AddressRemoved;
      if deleted {
        trackers[i].RemoveNetworkAddress(a);
      } else {
        trackers[i].AddNetworkAddress(a);
      }
    }

    /** The tail of parseAddressMessage. */
    method ChangeAddress(i: uint32, name: Option<Name>, a: NetAddress, deleted: bool)
      requires Intact() && i in trackers
      modifies trackers[i]
      ensures Intact()
      ensures Cached() == Apply(old(Cached()), if deleted then AddressGone(i, name, a) else AddressNew(i, name, a))
    {
      hide Cached, Intact, Owned, NamedBy, AddressAdded, AddressRemoved, Apply;
      ghost var before := Cached();
      ApplyAddress(before, i, name, a);
      NameTracker(i, name);
      ChangeRecord(i, a, deleted);
    }

    method GatewayTracker(i: uint32, gateway: Option<Ip>)
      requires Intact() && i in trackers
      modifies trackers[i]
      ensures Intact()
      ensures var t := old(Cached())[i];
        Cached() == old(Cached())[i := if gateway.Some? then WithGateway(t, gateway.value) else GatewayCleared(t)]
    {
      hide WithGateway, GatewayCleared;
      if gateway.Some? {
        trackers[i].SetGatewayAddress(gateway.value);
      } else {
        trackers[i].ClearGatewayAddress();
      }
    }

    /** A new gateway for a tracked index, or its removal; nothing for an unknown one. */
    method ChangeGateway(i: uint32, gateway: Option<Ip>)
      requires Intact()
      modifies Owned()
      ensures Intact()
      ensures Cached() == Apply(old(Cached()), if gateway.Some? then GatewayNew(i, gateway.value) else GatewayGone(i))
    {
      hide Cached, Intact, WithGateway, GatewayCleared, Apply;
      ApplyGateway(Cached(), i, gateway);
      if i in trackers {
        GatewayTracker(i, gateway);
      }
    }

    /** What a decoded message asks of the cache, done; only an accepted NEWLINK creates a tracker. */
    method Perform(e: Effect)
      requires Intact()
      modifies this`trackers, this`logs, Owned()
      ensures Intact() && fresh(Owned() - old(Owned()))
      ensures Cached() == Apply(old(Cached()), e)
      ensures logs == Announce(old(CoreState()), e)
    {
      hide Apply, Announce;
      ApplyNothing(Cached(), e);
      AnnounceNothing(CoreState(), e);
      match e {
        case Skip =>
        case LinkNew(i, name, flags, state, mac, broadcast) => SetLink(i, name, flags, state, mac, broadcast);
        case LinkGone(i, name) => DropLink(i, name);
        case AddressNew(i, name, a) =>
          if i in trackers {
            ChangeAddress(i, name, a, false);
          }
        case AddressGone(i, name, a) =>
          if i in trackers {
            ChangeAddress(i, name, a, true);
          }
        case GatewayNew(i, gateway) => ChangeGateway(i, Some(gateway));
        case GatewayGone(i) => ChangeGateway(i, None);
      }
    }

    /** The head of parseLinkMessage: parsed and counted first, filtered afterwards. */
    method ParseLinkMessage(m: Message) returns (e: Effect)
      requires m.LinkMessage?
      modifies this`stats
      ensures e == Decode(cfg, m)
      ensures stats == Sorted(cfg, trackers.Keys, m, old(stats))
    {
      hide Slot, FromU32, Parsed, Discarded, AsU8, AsMac, AsString, Unsigned;
      stats := stats.(linkMessagesSeen := stats.linkMessagesSeen + 1);
      var table := ParseAttributes(m.attributes, cfg.iflaMax);
      var name := AsString(table.Lookup(IFLA_IFNAME));
      if m.hardwareType != ARPHRD_ETHER && m.hardwareType != ARPHRD_IEEE80211 {
        if !cfg.includeNonIeee802 {
          stats := Discarded(stats);
          return Skip;
        }
      }
      var i := Unsigned(m.ifiIndex);
      if m.deleted {
        return LinkGone(i, name.GetOr(UNKNOWN_NAME));
      }
      return LinkNew(i, name, FromU32(LINK_FLAG_COUNT, m.ifiFlags), AsU8(table.Lookup(IFLA_OPERSTATE)),
                     AsMac(table.Lookup(IFLA_ADDRESS)), AsMac(table.Lookup(IFLA_BROADCAST)));
    }

    /** The head of parseAddressMessage: an untracked index or the wrong family is discarded unparsed. */
    method ParseAddressMessage(m: Message) returns (e: Effect)
      requires m.AddressMessage?
      modifies this`stats
      ensures e == if m.ifaIndex in trackers then Decode(cfg, m) else Skip
      ensures stats == Sorted(cfg, trackers.Keys, m, old(stats))
    {
      hide Slot, FromU32, Parsed, Discarded, AsU8, AsU32, AsIpV4, AsIpV6, AsString, FromRtnlScope;
      stats := stats.(addressMessagesSeen := stats.addressMessagesSeen + 1);
      if m.ifaIndex !in trackers {
        stats := Discarded(stats);
        return Skip;
      }
      if cfg.preferV4 && m.family != AF_INET {
        stats := Discarded(stats);
        return Skip;
      }
      if cfg.preferV6 && m.family != AF_INET6 {
        stats := Discarded(stats);
        return Skip;
      }
      var table := ParseAttributes(m.attributes, cfg.ifaMax);
      var flags: uint32, address := m.ifaFlags, UNSPECIFIED_IP;
      var flagsOpt := AsU32(table.Lookup(IFA_FLAGS));
      if flagsOpt.Some? {
        flags := flagsOpt.value;
      }
      var local, v6 := AsIpV4(table.Lookup(IFA_LOCAL)), AsIpV6(table.Lookup(IFA_ADDRESS));
      if local.Some? {
        address := local.value;
      }
      if v6.Some? {
        address := v6.value;
      }
      var a := NetAddress(address, AsIpV4(table.Lookup(IFA_BROADCAST)), m.prefixLen, FromRtnlScope(m.rtnlScope),
                          FromU32(ADDRESS_FLAG_COUNT, flags), AsU8(table.Lookup(IFA_PROTO)).GetOr(0));
      var name := AsString(table.Lookup(IFA_LABEL));
      if m.deleted {
        return AddressGone(m.ifaIndex, name, a);
      }
      return AddressNew(m.ifaIndex, name, a);
    }

    /** The head of parseRouteMessage: only IPv4 routes matter. */
    method ParseRouteMessage(m: Message) returns (e: Effect)
      requires m.RouteMessage?
      modifies this`stats
      ensures e == Decode(cfg, m)
      ensures stats == Sorted(cfg, trackers.Keys, m, old(stats))
      ensures m.family != 2 || cfg.preferV6 ==> e == Skip
      ensures stats.msgsDiscarded == old(stats).msgsDiscarded + if m.family != 2 || cfg.preferV6 then 1 else 0
    {
      hide Slot, AsU32, AsIpV4, IsLinkDown;
      stats := stats.(routeMessagesSeen := stats.routeMessagesSeen + 1);
      if m.family != AF_INET {
        stats := Discarded(stats);
        return Skip;
      }
      if cfg.preferV6 && m.family != AF_INET6 {
        stats := Discarded(stats);
        return Skip;
      }
      var table := ParseAttributes(m.attributes, cfg.rtaMax);
      var oif, gateway := AsU32(table.Lookup(RTA_OIF)), AsIpV4(table.Lookup(RTA_GATEWAY));
      if m.deleted {
        if oif.Some? {
          if IsLinkDown(m.rtmFlags) {
            return GatewayGone(oif.value);
          }
          if gateway.Some? {
            return GatewayGone(oif.value);
          }
        }
        return Skip;
      }
      if oif.Some? && gateway.Some? {
        return GatewayNew(oif.value, gateway.value);
      }
      return Skip;
    }

    /** Other message types are only counted. */
    method IgnoreMessage(m: Message) returns (e: Effect)
      requires m.OtherMessage?
      ensures e == Decode(cfg, m)
      ensures stats == Sorted(cfg, trackers.Keys, m, stats)
    {
      return Skip;
    }

    /** What a message asks for; nothing if it is about the address of an untracked interface. */
    method ParseMessage(m: Message) returns (e: Effect)
      modifies this`stats
      ensures e == if m.AddressMessage? && m.ifaIndex !in trackers then Skip else Decode(cfg, m)
      ensures stats == Account(cfg, trackers.Keys, m, old(stats))
    {
      hide Decode, Sorted;
      stats := stats.(msgsReceived := stats.msgsReceived + 1);
      match m {
        case LinkMessage(_, _, _, _, _) => e := ParseLinkMessage(m);
        case AddressMessage(_, _, _, _, _, _, _) => e := ParseAddressMessage(m);
        case RouteMessage(_, _, _, _) => e := ParseRouteMessage(m);
        case OtherMessage(_) => e := IgnoreMessage(m);
      }
    }

    /** mnlMessageCallback on an open socket. */
    method MessageCallback(m: Message)
      requires Ready()
      modifies this`trackers, this`logs, this`stats, this`history, Owned()
      ensures Ready() && fresh(Owned() - old(Owned()))
      ensures history == old(history) + [Handle(m)]
    {
      hide Run, Cached, Intact, Decode, Apply, Announce, Account, Subscriptions.NotifyChanges;
      hide Subscribed, SubscriptionUpdated, Unsubscribed;
      assert (this as object) !in Owned();
      ghost var c := CoreState();
      var e := ParseMessage(m);
      AnnounceIgnoresStatistics(c, stats, e);
      SkippedIfUntracked(cfg, c, m, e);
      Perform(e);
      Record(Handle(m));
    }

    // ----- requests -----

    method CloseSocket()
      modifies this`socketOpen, this`running
      ensures Whole() == Stopped(old(Whole()))
    {
      socketOpen := false;
      running := false;
    }

    /** stop(): the socket goes away, and with it the right to run. */
    method Stop()
      requires Valid()
      modifies this`socketOpen, this`running
      ensures Valid() && Whole() == Stopped(old(Whole()))
    {
      hide Ready, RequestsInOrder;
      assert (this as object) !in Owned();
      CloseSocket();
    }

    method NextDumpRequestSequenceNumber() returns (n: uint32)
      modifies this`sequenceNumber
      ensures n == sequenceNumber == Next(old(sequenceNumber))
    {
      sequenceNumber := (sequenceNumber + 1) % 0x1_0000_0000;
      if sequenceNumber == 0 {
        sequenceNumber := 1;
      }
      n := sequenceNumber;
    }

    /** The buffer goes out on the socket. */
    method SendBuffer()
      modifies this`packetsSent, this`requests
      ensures packetsSent == old(packetsSent) + 1 && requests == old(requests) + [sendBuffer]
    {
      requests := requests + [sendBuffer];
      packetsSent := packetsSent + 1;
    }

    method SendDumpRequest(messageType: uint16)
      modifies this`sequenceNumber, this`sendBuffer, this`packetsSent, this`requests, this`aborted
      ensures Ctl() == Sent(old(Ctl()), messageType)
    {
      if !socketOpen {
        aborted := true;
        return;
      }
      var n := NextDumpRequestSequenceNumber();
      sendBuffer := sendBuffer.(messageType := messageType, flags := DUMP_REQUEST_FLAGS, seqNumber := n);
      sendBuffer := sendBuffer.(family := AF_UNSPEC, filter := RTEXT_FILTER_SKIP_STATS);
      SendBuffer();
    }

    /** Throws away what the socket delivers up to the first receive call that returns nothing. */
    method DrainSocket()
      modifies this`script
      ensures script == Drained(old(script))
    {
      while script != [] && script[0].Batch?
        invariant Drained(script) == Drained(old(script))
        decreases |script|
      {
        script := script[1..];
      }
      if script != [] {
        script := script[1..];
      }
    }

    method RetryLastDumpRequestWithNewSequenceNumber()
      modifies this`sequenceNumber, this`sendBuffer, this`packetsSent, this`requests, this`retries, this`aborted,
        this`script
      ensures Ctl() == Retried(old(Ctl()))
      ensures socketOpen ==> aborted == old(aborted)
      ensures script == if socketOpen then Drained(old(script)) else old(script)
    {
      if !socketOpen {
        aborted := true;
        return;
      }
      hide IsDumpRequest;
      DrainSocket();
      if !IsDumpRequest(sendBuffer) {
        return;
      }
      var n := NextDumpRequestSequenceNumber();
      sendBuffer := sendBuffer.(seqNumber := n);
      SendBuffer();
      retries := retries + 1;
    }

    /** The next phase and its request. */
    method EndPhase() returns (leave: bool)
      requires cacheState != WaitingForChanges
      modifies this`cacheState, this`sequenceNumber, this`sendBuffer, this`packetsSent, this`requests, this`stops,
        this`aborted
      ensures Ctl() == PhaseEnded(old(Ctl()))
      ensures leave == (Ctl().phase.WaitingForChanges? || Ctl().aborted)
    {
      hide Sent;
      stops := stops + 1;
      if cacheState == EnumeratingLinks {
        cacheState := EnumeratingAddresses;
        SendDumpRequest(RTM_GETADDR);
      } else if cacheState == EnumeratingAddresses {
        cacheState := EnumeratingRoutes;
        SendDumpRequest(RTM_GETROUTE);
      } else {
        cacheState := WaitingForChanges;
      }
      leave := cacheState == WaitingForChanges || aborted;
    }

    method HandleCallbackResult(outcome: Outcome) returns (leave: bool)
      modifies this`cacheState, this`sequenceNumber, this`sendBuffer, this`packetsSent, this`requests, this`retries,
        this`stops, this`aborted, this`script
      ensures (Ctl(), leave) == Judged(old(Ctl()), outcome)
      ensures outcome.Failed? && socketOpen && !old(aborted) ==>
        (aborted <==> old(cacheState) == WaitingForChanges || outcome.errno !in {4, 11, 16, 71})
      ensures script == ScriptAfter(old(Ctl()), outcome, old(script))
    {
      hide PhaseEnded, Retried, Drained;
      if outcome.Failed? {
        if cacheState != WaitingForChanges && ShouldRetryDump(outcome.errno) {
          RetryLastDumpRequestWithNewSequenceNumber();
        } else {
          aborted := true;
        }
        return true;
      }
      if outcome.Stop? {
        if cacheState == WaitingForChanges {
          if socketOpen {
            aborted := true;
          }
          return true;
        }
        leave := EndPhase();
        return;
      }
      return false;
    }

    // ----- receiving -----

    /** One message of a datagram, and the stop() its callbacks may make. */
    method HandleItem(item: Item)
      requires Ready() && item.body.Data?
      modifies this`trackers, this`logs, this`stats, this`history, this`socketOpen, this`running, Owned()
      ensures Ready() && fresh(Owned() - old(Owned()))
      ensures Whole() == Handled(old(Whole()), item)
    {
      hide Ready;
      MessageCallback(item.body.message);
      if item.stops {
        CloseSocket();
      }
    }

    /** mnl_cb_run over the datagram in the buffer. */
    method RunCallbacks(items: seq<Item>, expected: uint32) returns (outcome: Outcome)
      requires Ready()
      modifies this`trackers, this`logs, this`stats, this`history, this`socketOpen, this`running, Owned()
      ensures Ready() && fresh(Owned() - old(Owned()))
      ensures (Whole(), outcome) == Dispatch(old(Whole()), items, expected)
    {
      hide Ready, Handled;
      var k := 0;
      while k < |items|
        invariant 0 <= k <= |items|
        invariant Ready() && fresh(Owned() - old(Owned()))
        invariant Dispatch(Whole(), items[k..], expected) == Dispatch(old(Whole()), items, expected)
      {
        if !Accepts(items[k].seqNumber, expected) {
          return Failed(EPROTO);
        }
        match items[k].body {
          case Done => return Outcome.Stop;
          case Failure(errno) => return Failed(errno);
          case Data(_) =>
        }
        if !socketOpen {
          return Outcome.Stop;
        }
        assert items[k..][1..] == items[k + 1..];
        HandleItem(items[k]);
        k := k + 1;
      }
      return Ok;
    }

    /** The datagram in the buffer, counted and run through the callbacks under the expected number. */
    method CountAndRun(batch: Receipt) returns (outcome: Outcome)
      requires Ready() && batch.Batch?
      modifies this`packetsReceived, this`trackers, this`logs, this`stats, this`history, this`socketOpen, this`running,
        Owned()
      ensures Ready() && fresh(Owned() - old(Owned()))
      ensures (Whole(), outcome) == Dispatch(Counted(old(Whole())), batch.items, Expected(old(Ctl())))
    {
      hide Ready, Dispatch;
      var expected := if cacheState != WaitingForChanges then sequenceNumber else 0;
      packetsReceived := packetsReceived + 1;
      outcome := RunCallbacks(batch.items, expected);
    }

    /** The datagram in the buffer processed and judged. */
    method ProcessDatagram(batch: Receipt) returns (leave: bool)
      requires Ready() && batch.Batch?
      modifies this, Owned()
      ensures Ready() && fresh(Owned() - old(Owned()))
      ensures (Whole(), script, leave) == Processed(old(Whole()), batch, old(script))
    {
      hide Ready, Dispatch, Judged, ScriptAfter, Counted, Expected;
      var outcome := CountAndRun(batch);
      leave := HandleCallbackResult(outcome);
    }

    method Sweep()
      requires Ready()
      modifies this`logs, this`history, Owned()
      ensures Ready() && history == old(history) + [Notify]
    {
      hide Run, HandleMessage, Subscribed, SubscriptionUpdated, Unsubscribed, Subscriptions.NotifyChanges;
      NotifyChanges();
      Record(Notify);
    }

    /** The sweep after a datagram, and the stop() its callbacks may make. */
    method SweepAfter(stopping: bool)
      requires Ready()
      modifies this`logs, this`history, this`socketOpen, this`running, Owned()
      ensures Ready()
      ensures Whole() == Swept(old(Whole()), stopping)
    {
      hide Ready;
      Sweep();
      if stopping {
        CloseSocket();
      }
    }

    /** One datagram, its sweep and the next receive call; the old datagram stays in the buffer without a socket. */
    method ReceiveRound(batch: Receipt) returns (receiving: bool, next: Receipt)
      requires Ready() && batch.Batch?
      modifies this, Owned()
      ensures Ready() && fresh(Owned() - old(Owned())) && next.Batch?
      ensures var (st, rest, leave) := Processed(old(Whole()), batch, old(script));
        var swept := Swept(st, batch.stopsInSweep);
        && Whole() == (if leave then st else swept)
        && receiving == (!leave && (!swept.ctl.socketOpen || (rest != [] && rest[0].Batch?)))
        && next == (if receiving && swept.ctl.socketOpen then rest[0] else batch)
        && script == (if leave || !swept.ctl.socketOpen || rest == [] then rest else rest[1..])
    {
      hide Ready, Processed, Swept;
      next, receiving := batch, false;
      var leave := ProcessDatagram(batch);
      if !leave {
        SweepAfter(batch.stopsInSweep);
        if !socketOpen {
          receiving := true;
        } else if script != [] {
          if script[0].Batch? {
            next, receiving := script[0], true;
          }
          script := script[1..];
        }
      }
    }

    method ReceiveAndProcess()
      requires Ready()
      modifies this, Owned()
      ensures Ready() && fresh(Owned() - old(Owned()))
      ensures (Whole(), script) == Receive(old(Whole()), old(script))
    {
      hide Ready, Processed, Swept, ReceiveLoop;
      if !socketOpen || script == [] {
        return;
      }
      var batch := script[0];
      script := script[1..];
      if batch.Nothing? {
        return;
      }
      ghost var wanted := ReceiveLoop(Whole(), batch, script);
      var receiving := true;
      while receiving
        invariant Ready() && fresh(Owned() - old(Owned()))
        invariant batch.Batch?
        invariant wanted == if receiving then ReceiveLoop(Whole(), batch, script) else (Whole(), script)
        decreases receiving, |script|, socketOpen
      {
        ReceiveLoopUnrolled(Whole(), batch, script);
        receiving, batch := ReceiveRound(batch);
      }
    }

    // ----- the public loops -----

    /** The name of every tracked interface, by index. */
    method InterfacesFromCache() returns (interfaces: Interfaces)
      ensures interfaces.Keys == trackers.Keys
      ensures forall i :: i in interfaces ==> interfaces[i] == Cached()[i].data.name
    {
      interfaces := map[];
      var rest := trackers.Keys;
      while rest != {}
        invariant rest <= trackers.Keys
        invariant interfaces.Keys == trackers.Keys - rest
        invariant forall i :: i in interfaces ==> interfaces[i] == trackers[i].name
      {
        var i :| i in rest;
        interfaces := interfaces[i := trackers[i].name];
        rest := rest - {i};
      }
    }

    /** The first dump request. */
    method StartEnumeration()
      requires Valid() && !aborted && requests == []
      modifies this`sequenceNumber, this`sendBuffer, this`packetsSent, this`requests, this`aborted
      ensures Valid() && (aborted || requests != [])
      ensures Whole() == old(Whole()).(ctl := Sent(old(Ctl()), RTM_GETLINK))
    {
      hide Ready, Protocol;
      assert (this as object) !in Owned();
      if socketOpen {
        FirstRequest(Ctl());
      }
      SendDumpRequest(RTM_GETLINK);
    }

    /** One call of receiveAndProcess keeps the protocol invariant. */
    method ReceiveOnce()
      requires Valid() && !aborted && requests != []
      modifies this, Owned()
      ensures Valid() && fresh(Owned() - old(Owned())) && (aborted || requests != [])
      ensures (Whole(), script) == Receive(old(Whole()), old(script))
    {
      hide Ready, Protocol, ReceiveLoop;
      if socketOpen && script != [] && script[0].Batch? {
        ReceiveLoopAdvances(Whole(), script[0], script[1..]);
      }
      ReceiveAndProcess();
    }

    method EnumerateToEnd()
      requires Valid() && (aborted || requests != [])
      modifies this, Owned()
      ensures Valid() && fresh(Owned() - old(Owned())) && (aborted || requests != [])
      ensures (Whole(), script) == EnumerateLoop(old(Whole()), old(script))
    {
      hide Valid, Receive;
      while cacheState != WaitingForChanges && !aborted && socketOpen && script != []
        invariant Valid() && fresh(Owned() - old(Owned())) && (aborted || requests != [])
        invariant EnumerateLoop(Whole(), script) == EnumerateLoop(old(Whole()), old(script))
        decreases |script|
      {
        ReceiveOnce();
      }
    }

    /** Enumerates unless that is done already. An earlier call that still waits on its socket cannot be repeated. */
    method EnumerateInterfaces() returns (interfaces: Interfaces)
      requires Valid() && !aborted
      requires cacheState == WaitingForChanges || requests == []
      modifies this, Owned()
      ensures Valid() && fresh(Owned() - old(Owned())) && (aborted || requests != [])
      ensures (Whole(), script) == Enumerate(old(Whole()), old(script))
      ensures interfaces.Keys == trackers.Keys
      ensures forall i :: i in interfaces ==> interfaces[i] == Cached()[i].data.name
    {
      hide Ready, Cached, RequestsInOrder, Sent, EnumerateLoop;
      if cacheState != WaitingForChanges {
        StartEnumeration();
        EnumerateToEnd();
      }
      interfaces := InterfacesFromCache();
    }

    /** The loop of run. */
    method WatchChanges()
      requires Valid() && (aborted || requests != [])
      modifies this, Owned()
      ensures Valid() && fresh(Owned() - old(Owned()))
      ensures (Whole(), script) == ChangeLoop(old(Whole()), old(script))
    {
      hide Valid, Receive;
      while running && socketOpen && !aborted && script != []
        invariant Valid() && fresh(Owned() - old(Owned())) && (aborted || requests != [])
        invariant ChangeLoop(Whole(), script) == ChangeLoop(old(Whole()), old(script))
        decreases |script|
      {
        ReceiveOnce();
      }
    }

    method StartRunning()
      requires Valid() && !aborted
      modifies this`running
      ensures Valid() && Whole() == old(Whole()).(ctl := old(Ctl()).(running := true))
    {
      hide Ready, RequestsInOrder;
      assert (this as object) !in Owned();
      running := true;
    }

    /** Enumerates, then watches for changes until stopped. */
    method RunMonitor()
      requires Valid() && !aborted
      requires cacheState == WaitingForChanges || requests == []
      modifies this, Owned()
      ensures Valid() && fresh(Owned() - old(Owned()))
      ensures (Whole(), script) == RunFrom(old(Whole()), old(script))
    {
      hide Valid, Enumerate, ChangeLoop;
      if !socketOpen {
        return;
      }
      StartRunning();
      var _ := EnumerateInterfaces();
      WatchChanges();
    }
  }
}
