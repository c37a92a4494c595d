/**
 When a change flag is set: exactly when its field has changed, but for three kinds of refresh that the
 source flags as well. Stated on the fields and the bits, for every call, every message and every run.
 */
module ChangeFlags {
  import opened Types
  import opened Trackers
  import opened Messages
  import opened Reports
  import opened Caches
  import opened Subscriptions

  predicate Differs(d: Fields, e: Fields, flag: ChangedFlag) {
    match flag
    case NameFlag => d.name != e.name
    case LinkFlagsFlag => d.linkFlags != e.linkFlags
    case OperationalStateFlag => d.operationalState != e.operationalState
    case MacAddressFlag => d.mac != e.mac
    case BroadcastAddressFlag => d.broadcast != e.broadcast
    case GatewayAddressFlag => d.gateway != e.gateway
    case NetworkAddressesFlag => d.addresses != e.addresses
  }

  const NO_MAC: Mac := [0, 0, 0, 0, 0, 0]
  const NO_GATEWAY := Some(V4([0, 0, 0, 0]))

  /** The record is stored, and no other stored record is an IPv4 one. */
  ghost predicate LastButIPv6(d: Fields, a: NetAddress) {
    a in d.addresses && forall b :: b in d.addresses && b != a ==> b.ip.V6?
  }

  /**
   From t to u one setter was called. Its own flag stands afterwards if it stood before, if its field
   differs, or if the call was a refresh; every other flag and field is as it was.
   */
  predicate Moves(t: TrackerState, u: TrackerState, own: ChangedFlag, refresh: bool, flag: ChangedFlag) {
    if flag == own then
      u.changed[Index(flag)] <==> t.changed[Index(flag)] || Differs(t.data, u.data, flag) || refresh
    else
      u.changed[Index(flag)] == t.changed[Index(flag)] && !Differs(t.data, u.data, flag)
  }

  // ----- the setters -----

  lemma NameMoves(t: TrackerState, name: Option<Name>, flag: ChangedFlag)
    ensures Moves(t, NamedBy(t, name), NameFlag, false, flag)
  {
  }

  lemma LinkFlagsMove(t: TrackerState, flags: Bits, flag: ChangedFlag)
    ensures Moves(t, WithLinkFlags(t, flags), LinkFlagsFlag, false, flag)
  {
  }

  lemma StateMoves(t: TrackerState, state: byte, flag: ChangedFlag)
    ensures Moves(t, WithOperationalState(t, state), OperationalStateFlag, false, flag)
  {
  }

  lemma MacMoves(t: TrackerState, mac: Mac, flag: ChangedFlag)
    ensures Moves(t, WithMac(t, mac), MacAddressFlag, mac == NO_MAC, flag)
  {
  }

  lemma BroadcastMoves(t: TrackerState, mac: Mac, flag: ChangedFlag)
    ensures Moves(t, WithBroadcast(t, mac), BroadcastAddressFlag, mac == NO_MAC, flag)
  {
  }

  lemma GatewayMoves(t: TrackerState, ip: Ip, flag: ChangedFlag)
    ensures Moves(t, WithGateway(t, ip), GatewayAddressFlag, false, flag)
  {
  }

  lemma ClearingMoves(t: TrackerState, flag: ChangedFlag)
    ensures Moves(t, GatewayCleared(t), GatewayAddressFlag, t.data.gateway == NO_GATEWAY, flag)
  {
  }

  lemma AdditionMoves(t: TrackerState, a: NetAddress, flag: ChangedFlag)
    ensures Moves(t, AddressAdded(t, a), NetworkAddressesFlag, false, flag)
  {
    if a !in t.data.addresses {
      assert a in t.data.addresses + {a};
    }
  }

  lemma WithdrawalMoves(t: TrackerState, a: NetAddress, flag: ChangedFlag)
    requires a in t.data.addresses
    ensures Moves(t, Withdrawn(t, a), NetworkAddressesFlag, false, flag)
  {
    assert a !in t.data.addresses - {a};
  }

  lemma WithdrawnFields(t: TrackerState, a: NetAddress)
    ensures Withdrawn(t, a).data == t.data.(addresses := t.data.addresses - {a})
  {
  }

  lemma ClearedFields(t: TrackerState)
    ensures GatewayCleared(t).data == t.data.(gateway := Cleared(t.data.gateway))
  {
  }

  /** A removal may also clear the gateway. */
  lemma RemovalMoves(t: TrackerState, a: NetAddress, flag: ChangedFlag)
    ensures var u := AddressRemoved(t, a);
      u.changed[Index(flag)] <==>
        || t.changed[Index(flag)] || Differs(t.data, u.data, flag)
        || (flag == GatewayAddressFlag && t.data.gateway == NO_GATEWAY && LastButIPv6(t.data, a))
  {
    hide Withdrawn, GatewayCleared;
    if a in t.data.addresses {
      WithdrawalMoves(t, a, flag);
      WithdrawnFields(t, a);
      ClearingMoves(Withdrawn(t, a), flag);
      ClearedFields(Withdrawn(t, a));
    }
  }

  // ----- any call -----

  /** The calls that flag without changing: an all-zero address set, and a gateway of 0.0.0.0 cleared once more. */
  ghost predicate Refreshes(d: Fields, call: Call, flag: ChangedFlag) {
    || (flag == MacAddressFlag && call == MacCall(NO_MAC))
    || (flag == BroadcastAddressFlag && call == BroadcastCall(NO_MAC))
    || (flag == GatewayAddressFlag && d.gateway == NO_GATEWAY
        && (call.ClearGatewayCall? || (call.RemoveCall? && LastButIPv6(d, call.address))))
  }

  /**
   After any call but a clearing of flags, a flag stands if and only if it stood before, or its field
   differs, or the call was a refresh of that field.
   */
  lemma FlagIffChanged(t: TrackerState, call: Call, flag: ChangedFlag)
    requires !call.ClearFlagCall? && !call.ClearFlagsCall?
    ensures var u := Perform(t, call);
      u.changed[Index(flag)] <==>
        t.changed[Index(flag)] || Differs(t.data, u.data, flag) || Refreshes(t.data, call, flag)
  {
    hide WithName, WithLinkFlags, WithOperationalState, WithMac, WithBroadcast, WithGateway, GatewayCleared;
    hide AddressAdded, AddressRemoved;
    match call
    case NameCall(name) => NameMoves(t, Some(name), flag);
    case LinkFlagsCall(flags) => LinkFlagsMove(t, flags, flag);
    case OperationalStateCall(state) => StateMoves(t, state, flag);
    case MacCall(mac) => MacMoves(t, mac, flag);
    case BroadcastCall(mac) => BroadcastMoves(t, mac, flag);
    case GatewayCall(ip) => GatewayMoves(t, ip, flag);
    case ClearGatewayCall => ClearingMoves(t, flag);
    case AddCall(a) => AdditionMoves(t, a, flag);
    case RemoveCall(a) => RemovalMoves(t, a, flag);
  }

  /** The call clears a gateway that is known. */
  ghost predicate ClearsGateway(d: Fields, call: Call) {
    d.gateway.Some? && (call.ClearGatewayCall? || (call.RemoveCall? && LastButIPv6(d, call.address)))
  }

  function Changed(t: TrackerState, u: TrackerState, flag: ChangedFlag): nat {
    if Differs(t.data, u.data, flag) then 1 else 0
  }

  /** From t to u the call was made, and the counters of the changes have moved with what changed. */
  ghost predicate Counted(t: TrackerState, u: TrackerState, call: Call) {
    && u.counters.nameChanges == t.counters.nameChanges + Changed(t, u, NameFlag)
    && u.counters.linkFlagChanges == t.counters.linkFlagChanges + Changed(t, u, LinkFlagsFlag)
    && u.counters.operationalStateChanges == t.counters.operationalStateChanges + Changed(t, u, OperationalStateFlag)
    && u.counters.macAddressChanges
       == t.counters.macAddressChanges + (if call == MacCall(NO_MAC) then 1 else Changed(t, u, MacAddressFlag))
    && u.counters.broadcastAddressChanges
       == t.counters.broadcastAddressChanges
          + (if call == BroadcastCall(NO_MAC) then 1 else Changed(t, u, BroadcastAddressFlag))
    && u.counters.gatewayAddressChanges
       == t.counters.gatewayAddressChanges + (if call.GatewayCall? then Changed(t, u, GatewayAddressFlag) else 0)
    && u.counters.gatewayAddressClears
       == t.counters.gatewayAddressClears + (if ClearsGateway(t.data, call) then 1 else 0)
  }

  lemma NameCounts(t: TrackerState, name: Name)
    ensures Counted(t, WithName(t, name), NameCall(name))
  {
  }

  lemma LinkFlagsCount(t: TrackerState, flags: Bits)
    ensures Counted(t, WithLinkFlags(t, flags), LinkFlagsCall(flags))
  {
  }

  lemma StateCounts(t: TrackerState, state: byte)
    ensures Counted(t, WithOperationalState(t, state), OperationalStateCall(state))
  {
  }

  lemma MacCounts(t: TrackerState, mac: Mac)
    ensures Counted(t, WithMac(t, mac), MacCall(mac))
  {
  }

  lemma BroadcastCounts(t: TrackerState, mac: Mac)
    ensures Counted(t, WithBroadcast(t, mac), BroadcastCall(mac))
  {
  }

  lemma GatewayCounts(t: TrackerState, ip: Ip)
    ensures Counted(t, WithGateway(t, ip), GatewayCall(ip))
  {
  }

  lemma ClearingCounts(t: TrackerState)
    ensures Counted(t, GatewayCleared(t), ClearGatewayCall)
  {
  }

  lemma AdditionCounts(t: TrackerState, a: NetAddress)
    ensures Counted(t, AddressAdded(t, a), AddCall(a))
  {
  }

  lemma RemovalCounts(t: TrackerState, a: NetAddress)
    ensures Counted(t, AddressRemoved(t, a), RemoveCall(a))
  {
  }

  lemma FlagClearingCounts(t: TrackerState, flag: ChangedFlag)
    ensures Counted(t, FlagCleared(t, flag), ClearFlagCall(flag)) && Counted(t, FlagsCleared(t), ClearFlagsCall)
  {
  }

  /** Every change and every refresh of a field is counted once under its name, and nothing else is. */
  lemma ChangesAreCounted(t: TrackerState, call: Call)
    ensures Counted(t, Perform(t, call), call)
  {
    hide Counted, WithName, WithLinkFlags, WithOperationalState, WithMac, WithBroadcast, WithGateway, GatewayCleared;
    hide AddressAdded, AddressRemoved, FlagCleared, FlagsCleared;
    match call
    case NameCall(name) => NameCounts(t, name);
    case LinkFlagsCall(flags) => LinkFlagsCount(t, flags);
    case OperationalStateCall(state) => StateCounts(t, state);
    case MacCall(mac) => MacCounts(t, mac);
    case BroadcastCall(mac) => BroadcastCounts(t, mac);
    case GatewayCall(ip) => GatewayCounts(t, ip);
    case ClearGatewayCall => ClearingCounts(t);
    case AddCall(a) => AdditionCounts(t, a);
    case RemoveCall(a) => RemovalCounts(t, a);
    case ClearFlagCall(flag) => FlagClearingCounts(t, flag);
    case ClearFlagsCall => FlagClearingCounts(t, NameFlag);
  }

  /** Clearing takes down the flags it names, and changes no field. */
  lemma ClearingIsExact(t: TrackerState, cleared: ChangedFlag, flag: ChangedFlag)
    ensures var u := Perform(t, ClearFlagCall(cleared));
      u.data == t.data && (u.changed[Index(flag)] <==> t.changed[Index(flag)] && flag != cleared)
    ensures var u := Perform(t, ClearFlagsCall);
      u.data == t.data && !u.changed[Index(flag)]
  {
  }

  /** The gateway refresh happens: clearing a gateway that is 0.0.0.0 already changes nothing and flags it. */
  lemma ClearingAgainFlags(t: TrackerState)
    requires t.data.gateway == NO_GATEWAY && !t.changed[Index(GatewayAddressFlag)]
    ensures var u := Perform(t, ClearGatewayCall);
      u.data == t.data && u.changed[Index(GatewayAddressFlag)]
  {
    FlagIffChanged(t, ClearGatewayCall, GatewayAddressFlag);
  }

  // ----- messages -----

  /** The same refreshes, as a message brings them to interface i. */
  ghost predicate RefreshedBy(d: Fields, e: Effect, i: uint32, flag: ChangedFlag) {
    || (e.LinkNew? && e.index == i && flag == MacAddressFlag && e.mac == Some(NO_MAC))
    || (e.LinkNew? && e.index == i && flag == BroadcastAddressFlag && e.broadcast == Some(NO_MAC))
    || (flag == GatewayAddressFlag && d.gateway == NO_GATEWAY
        && ((e.GatewayGone? && e.index == i)
            || (e.AddressGone? && e.index == i && LastButIPv6(d, e.address))))
  }

  lemma LinkMoves(t: TrackerState, e: Effect, flag: ChangedFlag)
    requires e.LinkNew?
    ensures var u := UpdatedLink(t, e);
      u.changed[Index(flag)] <==>
        t.changed[Index(flag)] || Differs(t.data, u.data, flag) || RefreshedBy(t.data, e, e.index, flag)
  {
    hide NamedBy, WithLinkFlags, WithOperationalState, WithMac, WithBroadcast;
    var t1 := NamedBy(t, e.name);
    NameMoves(t, e.name, flag);
    var t2 := WithLinkFlags(t1, e.flags);
    LinkFlagsMove(t1, e.flags, flag);
    var t3 := if e.state.Some? then WithOperationalState(t2, e.state.value) else t2;
    if e.state.Some? {
      StateMoves(t2, e.state.value, flag);
    }
    var t4 := if e.mac.Some? then WithMac(t3, e.mac.value) else t3;
    if e.mac.Some? {
      MacMoves(t3, e.mac.value, flag);
    }
    if e.broadcast.Some? {
      BroadcastMoves(t4, e.broadcast.value, flag);
    }
  }

  lemma UpdateMoves(t: TrackerState, e: Effect, flag: ChangedFlag)
    requires !e.Skip? && !e.LinkGone?
    ensures var u := Updated(t, e);
      u.changed[Index(flag)] <==>
        t.changed[Index(flag)] || Differs(t.data, u.data, flag) || RefreshedBy(t.data, e, e.index, flag)
  {
    hide UpdatedLink, NamedBy, WithGateway, GatewayCleared, AddressAdded, AddressRemoved;
    match e
    case LinkNew(_, _, _, _, _, _) => LinkMoves(t, e, flag);
    case AddressNew(_, name, a) =>
      NameMoves(t, name, flag);
      AdditionMoves(NamedBy(t, name), a, flag);
    case AddressGone(_, name, a) =>
      NamedByData(t, name);
      NameMoves(t, name, flag);
      RemovalMoves(NamedBy(t, name), a, flag);
      RemovedData(NamedBy(t, name), a);
    case GatewayNew(_, ip) => GatewayMoves(t, ip, flag);
    case GatewayGone(_) => ClearingMoves(t, flag);
  }

  /**
   A message sets a flag of a tracker if and only if the field differs afterwards or the message was a
   refresh of it; flags that stood keep standing. A new tracker starts with no flag and the default fields.
   */
  lemma MessageFlagsWhatChanged(cfg: Config, ops: seq<Op>, m: Message, i: uint32, flag: ChangedFlag)
    requires i in Run(cfg, ops + [Handle(m)]).trackers
    ensures var t, u := Tracked(Run(cfg, ops).trackers, i), Run(cfg, ops + [Handle(m)]).trackers[i];
      u.changed[Index(flag)] <==>
        t.changed[Index(flag)] || Differs(t.data, u.data, flag) || RefreshedBy(t.data, Decode(cfg, m), i, flag)
  {
    hide Run, Decode, Updated, Account, Announce;
    OneMoreOp(cfg, ops, Handle(m));
    var e := Decode(cfg, m);
    if !e.Skip? && !e.LinkGone? && e.index == i {
      UpdateMoves(Tracked(Run(cfg, ops).trackers, i), e, flag);
    }
  }

  lemma MessagesKeepSubscribers(cfg: Config, ops: seq<Op>, m: Message)
    ensures Run(cfg, ops + [Handle(m)]).subscribers == Run(cfg, ops).subscribers
  {
    hide Run, Decode, Account, Announce, Apply;
    OneMoreOp(cfg, ops, Handle(m));
  }

  /**
   What a sweep tells of a message that came alone since the sweep before: of each tracked interface the
   subscriber subscribes to, exactly the fields that differ and those that were refreshed.
   */
  lemma LoneMessageIsTold(cfg: Config, ops: seq<Op>, m: Message, s: SubscriberId, i: uint32, flag: ChangedFlag)
    returns (news: seq<Event>)
    ensures Run(cfg, ops + [Notify] + [Handle(m)] + [Notify]).Log(s)
      == Run(cfg, ops + [Notify] + [Handle(m)]).Log(s) + news
    ensures var c, c' := Run(cfg, ops + [Notify]), Run(cfg, ops + [Notify] + [Handle(m)]);
      s in c.subscribers && i in c.subscribers[s] && i in c.trackers && i in c'.trackers ==>
        var d, e := c.trackers[i].data, c'.trackers[i].data;
        Told(news, i, flag) == if Differs(d, e, flag) || RefreshedBy(d, Decode(cfg, m), i, flag) then 1 else 0
  {
    hide Run, Differs, RefreshedBy, Decode, Told, InOrder, TellsTruth;
    var before := ops + [Notify];
    SweepClearsFlags(cfg, ops);
    if i in Run(cfg, before + [Handle(m)]).trackers {
      MessageFlagsWhatChanged(cfg, before, m, i, flag);
    }
    MessagesKeepSubscribers(cfg, before, m);
    news := SweepTellsWhatChanged(cfg, before + [Handle(m)], s);
    assert Told(news, i, flag) == if Stands(Run(cfg, before + [Handle(m)]), s, i, flag) then 1 else 0;
  }
}
