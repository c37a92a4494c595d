/**
 The per-interface record of src/monitor/NetworkInterfaceStatusTracker.cpp: the observed fields, the
 change flags that decide which callbacks are due, and the statistics counters.
 */
module Trackers {
  import opened Types
  import opened FlagSets

  datatype ChangedFlag =
    | NameFlag
    | LinkFlagsFlag
    | OperationalStateFlag
    | MacAddressFlag
    | BroadcastAddressFlag
    | GatewayAddressFlag
    | NetworkAddressesFlag

  const CHANGED_FLAG_COUNT := 7
  const LINK_FLAG_COUNT := 19

  type ChangeBits = b: Bits | |b| == CHANGED_FLAG_COUNT witness Cleared(CHANGED_FLAG_COUNT)

  function Index(flag: ChangedFlag): (i: nat)
    ensures i < CHANGED_FLAG_COUNT
  {
    match flag
    case NameFlag => 0
    case LinkFlagsFlag => 1
    case OperationalStateFlag => 2
    case MacAddressFlag => 3
    case BroadcastAddressFlag => 4
    case GatewayAddressFlag => 5
    case NetworkAddressesFlag => 6
  }

  function FlagAt(i: nat): (flag: ChangedFlag)
    requires i < CHANGED_FLAG_COUNT
    ensures Index(flag) == i
  {
    match i
    case 0 => NameFlag
    case 1 => LinkFlagsFlag
    case 2 => OperationalStateFlag
    case 3 => MacAddressFlag
    case 4 => BroadcastAddressFlag
    case 5 => GatewayAddressFlag
    case _ => NetworkAddressesFlag
  }

  /** What a tracker knows about its interface; also what a subscriber can learn from callbacks. */
  datatype Fields = Fields(
    name: Name,
    linkFlags: Bits,
    operationalState: byte,
    mac: Mac,
    broadcast: Mac,
    gateway: Option<Ip>,
    addresses: set<NetAddress>)

  const DEFAULT_FIELDS := Fields([], Cleared(LINK_FLAG_COUNT), 0, ZERO_MAC, ZERO_MAC, None, {})

  datatype Counters = Counters(
    nameChanges: nat,
    linkFlagChanges: nat,
    operationalStateChanges: nat,
    macAddressChanges: nat,
    broadcastAddressChanges: nat,
    gatewayAddressChanges: nat,
    gatewayAddressClears: nat,
    addressesUnchanged: nat,
    addressesAdded: nat,
    addressesRemoved: nat,
    flagChanges: nat,
    flagClears: nat)

  const ZERO_COUNTERS := Counters(0, 0, 0, 0, 0, 0, 0, 0, 0, 0, 0, 0)

  datatype TrackerState = TrackerState(data: Fields, changed: ChangeBits, counters: Counters) {
    predicate IsChanged(flag: ChangedFlag) {
      changed[Index(flag)]
    }
  }

  const FRESH_TRACKER := TrackerState(DEFAULT_FIELDS, Cleared(CHANGED_FLAG_COUNT), ZERO_COUNTERS)

  // ----- what each setter does -----

  function Touched(t: TrackerState, flag: ChangedFlag): TrackerState {
    if t.IsChanged(flag) then t
    else t.(changed := t.changed[Index(flag) := true],
            counters := t.counters.(flagChanges := t.counters.flagChanges + 1))
  }

  function WithName(t: TrackerState, name: Name): TrackerState {
    if t.data.name == name then t
    else
      var u := Touched(t.(data := t.data.(name := name)), NameFlag);
      u.(counters := u.counters.(nameChanges := u.counters.nameChanges + 1))
  }

  function WithOperationalState(t: TrackerState, state: byte): TrackerState {
    if t.data.operationalState == state then t
    else
      var u := Touched(t.(data := t.data.(operationalState := state)), OperationalStateFlag);
      u.(counters := u.counters.(operationalStateChanges := u.counters.operationalStateChanges + 1))
  }

  /** An all-zero address counts as a change even when it is already stored. */
  function WithMac(t: TrackerState, mac: Mac): TrackerState {
    if t.data.mac == mac && mac != ZERO_MAC then t
    else
      var u := Touched(t.(data := t.data.(mac := mac)), MacAddressFlag);
      u.(counters := u.counters.(macAddressChanges := u.counters.macAddressChanges + 1))
  }

  function WithBroadcast(t: TrackerState, mac: Mac): TrackerState {
    if t.data.broadcast == mac && mac != ZERO_MAC then t
    else
      var u := Touched(t.(data := t.data.(broadcast := mac)), BroadcastAddressFlag);
      u.(counters := u.counters.(broadcastAddressChanges := u.counters.broadcastAddressChanges + 1))
  }

  function WithLinkFlags(t: TrackerState, flags: Bits): TrackerState {
    if t.data.linkFlags == flags then t
    else
      var u := Touched(t.(data := t.data.(linkFlags := flags)), LinkFlagsFlag);
      u.(counters := u.counters.(linkFlagChanges := u.counters.linkFlagChanges + 1))
  }

  function WithGateway(t: TrackerState, ip: Ip): TrackerState {
    if t.data.gateway == Some(ip) then t
    else
      var u := Touched(t.(data := t.data.(gateway := Some(ip))), GatewayAddressFlag);
      u.(counters := u.counters.(gatewayAddressChanges := u.counters.gatewayAddressChanges + 1))
  }

  /** Clearing stores 0.0.0.0 instead of removing the value, so a cleared gateway clears again. */
  function GatewayCleared(t: TrackerState): TrackerState {
    if t.data.gateway == None then t
    else
      var u := Touched(t.(data := t.data.(gateway := Some(UNSPECIFIED_IP))), GatewayAddressFlag);
      u.(counters := u.counters.(gatewayAddressClears := u.counters.gatewayAddressClears + 1))
  }

  function AddressAdded(t: TrackerState, a: NetAddress): TrackerState {
    if a in t.data.addresses then
      t.(counters := t.counters.(addressesUnchanged := t.counters.addressesUnchanged + 1))
    else
      var u := Touched(t.(data := t.data.(addresses := t.data.addresses + {a})), NetworkAddressesFlag);
      u.(counters := u.counters.(addressesAdded := u.counters.addressesAdded + 1))
  }

  predicate HasIPv4(addresses: set<NetAddress>) {
    exists a :: a in addresses && a.ip.V4?
  }

  /** The record taken out and the change flagged, before the gateway is looked at. */
  function Withdrawn(t: TrackerState, a: NetAddress): TrackerState {
    Touched(t.(data := t.data.(addresses := t.data.addresses - {a}),
               counters := t.counters.(addressesRemoved := t.counters.addressesRemoved + 1)),
            NetworkAddressesFlag)
  }

  function AddressRemoved(t: TrackerState, a: NetAddress): TrackerState {
    if a !in t.data.addresses then t
    else if HasIPv4(t.data.addresses - {a}) then Withdrawn(t, a)
    else GatewayCleared(Withdrawn(t, a))
  }

  function FlagCleared(t: TrackerState, flag: ChangedFlag): TrackerState {
    if !t.IsChanged(flag) then t
    else t.(changed := t.changed[Index(flag) := false],
            counters := t.counters.(flagClears := t.counters.flagClears + 1))
  }

  function FlagsCleared(t: TrackerState): TrackerState {
    t.(changed := Cleared(CHANGED_FLAG_COUNT),
       counters := t.counters.(flagClears := t.counters.flagClears + Count(t.changed)))
  }

  // ----- runs of calls on one tracker -----

  datatype Call =
    | NameCall(name: Name)
    | OperationalStateCall(state: byte)
    | MacCall(mac: Mac)
    | BroadcastCall(mac: Mac)
    | LinkFlagsCall(flags: Bits)
    | GatewayCall(ip: Ip)
    | ClearGatewayCall
    | AddCall(address: NetAddress)
    | RemoveCall(address: NetAddress)
    | ClearFlagCall(flag: ChangedFlag)
    | ClearFlagsCall

  function Perform(t: TrackerState, call: Call): TrackerState {
    match call
    case NameCall(name) => WithName(t, name)
    case OperationalStateCall(state) => WithOperationalState(t, state)
    case MacCall(mac) => WithMac(t, mac)
    case BroadcastCall(mac) => WithBroadcast(t, mac)
    case LinkFlagsCall(flags) => WithLinkFlags(t, flags)
    case GatewayCall(ip) => WithGateway(t, ip)
    case ClearGatewayCall => GatewayCleared(t)
    case AddCall(a) => AddressAdded(t, a)
    case RemoveCall(a) => AddressRemoved(t, a)
    case ClearFlagCall(flag) => FlagCleared(t, flag)
    case ClearFlagsCall => FlagsCleared(t)
  }

  /** The state of a tracker after the given calls, starting from a fresh one. */
  function AfterCalls(calls: seq<Call>): TrackerState {
    if calls == [] then FRESH_TRACKER
    else Perform(AfterCalls(calls[..|calls| - 1]), calls[|calls| - 1])
  }

  lemma OneMoreCall(calls: seq<Call>, call: Call)
    ensures AfterCalls(calls + [call]) == Perform(AfterCalls(calls), call)
  {
    assert (calls + [call])[..|calls|] == calls;
  }

  /** Flags set minus flags cleared minus flags standing. */
  function Balance(t: TrackerState): int {
    t.counters.flagChanges - t.counters.flagClears - Count(t.changed)
  }

  lemma TouchKeepsBalance(t: TrackerState, flag: ChangedFlag)
    ensures Balance(Touched(t, flag)) == Balance(t)
  {
    CountOfUpdate(t.changed, Index(flag), true);
  }

  lemma ClearKeepsBalance(t: TrackerState, flag: ChangedFlag)
    ensures Balance(FlagCleared(t, flag)) == Balance(t)
    ensures Balance(FlagsCleared(t)) == Balance(t)
  {
    CountOfUpdate(t.changed, Index(flag), false);
    CountIsZero(Cleared(CHANGED_FLAG_COUNT));
  }

  lemma RemovalKeepsBalance(t: TrackerState, a: NetAddress)
    ensures Balance(AddressRemoved(t, a)) == Balance(t)
  {
    var removed := t.(data := t.data.(addresses := t.data.addresses - {a}),
                      counters := t.counters.(addressesRemoved := t.counters.addressesRemoved + 1));
    TouchKeepsBalance(removed, NetworkAddressesFlag);
    var u := Withdrawn(t, a);
    TouchKeepsBalance(u.(data := u.data.(gateway := Some(UNSPECIFIED_IP))), GatewayAddressFlag);
  }

  lemma PerformKeepsBalance(t: TrackerState, call: Call)
    ensures Balance(Perform(t, call)) == Balance(t)
  {
    hide Touched, Count, AddressRemoved, FlagCleared, FlagsCleared;
    match call
    case NameCall(name) =>
      TouchKeepsBalance(t.(data := t.data.(name := name)), NameFlag);
    case OperationalStateCall(state) =>
      TouchKeepsBalance(t.(data := t.data.(operationalState := state)), OperationalStateFlag);
    case MacCall(mac) =>
      TouchKeepsBalance(t.(data := t.data.(mac := mac)), MacAddressFlag);
    case BroadcastCall(mac) =>
      TouchKeepsBalance(t.(data := t.data.(broadcast := mac)), BroadcastAddressFlag);
    case LinkFlagsCall(flags) =>
      TouchKeepsBalance(t.(data := t.data.(linkFlags := flags)), LinkFlagsFlag);
    case GatewayCall(ip) =>
      TouchKeepsBalance(t.(data := t.data.(gateway := Some(ip))), GatewayAddressFlag);
    case ClearGatewayCall =>
      TouchKeepsBalance(t.(data := t.data.(gateway := Some(UNSPECIFIED_IP))), GatewayAddressFlag);
    case AddCall(a) =>
      TouchKeepsBalance(t.(data := t.data.(addresses := t.data.addresses + {a})), NetworkAddressesFlag);
    case RemoveCall(a) => RemovalKeepsBalance(t, a);
    case ClearFlagCall(flag) => ClearKeepsBalance(t, flag);
    case ClearFlagsCall => ClearKeepsBalance(t, NameFlag);
  }

  lemma {:induction false} BalanceHolds(calls: seq<Call>)
    ensures Balance(AfterCalls(calls)) == 0
  {
    if calls == [] {
      CountIsZero(Cleared(CHANGED_FLAG_COUNT));
    } else {
      BalanceHolds(calls[..|calls| - 1]);
      PerformKeepsBalance(AfterCalls(calls[..|calls| - 1]), calls[|calls| - 1]);
    }
  }

  /** Flags set minus flags cleared is the number of flags standing, so any flag stands iff it is positive. */
  lemma {:induction false} FlagConservation(calls: seq<Call>)
    ensures var t := AfterCalls(calls);
      && t.counters.flagChanges == t.counters.flagClears + Count(t.changed)
      && (t.counters.flagChanges > t.counters.flagClears <==> exists flag :: t.IsChanged(flag))
  {
    BalanceHolds(calls);
    var t := AfterCalls(calls);
    CountIsZero(t.changed);
    if i: nat :| i < CHANGED_FLAG_COUNT && t.changed[i] {
      assert t.IsChanged(FlagAt(i));
    }
  }

  function AddCalls(calls: seq<Call>): nat {
    if calls == [] then 0
    else AddCalls(calls[..|calls| - 1]) + if calls[|calls| - 1].AddCall? then 1 else 0
  }

  lemma WithdrawalAccounts(t: TrackerState, a: NetAddress)
    requires a in t.data.addresses
    ensures var u := Withdrawn(t, a);
      && |u.data.addresses| == |t.data.addresses| - 1
      && u.counters.addressesRemoved == t.counters.addressesRemoved + 1
      && u.counters.addressesAdded == t.counters.addressesAdded
      && u.counters.addressesUnchanged == t.counters.addressesUnchanged
  {
    assert |t.data.addresses - {a}| == |t.data.addresses| - 1;
  }

  /** Calls that neither add nor remove leave the records and their counters alone. */
  lemma OtherCallsKeepRecords(t: TrackerState, call: Call)
    requires !call.AddCall? && !call.RemoveCall?
    ensures var u := Perform(t, call);
      && u.data.addresses == t.data.addresses
      && u.counters.addressesAdded == t.counters.addressesAdded
      && u.counters.addressesRemoved == t.counters.addressesRemoved
      && u.counters.addressesUnchanged == t.counters.addressesUnchanged
  {
    hide Count;
  }

  lemma AdditionAccounts(t: TrackerState, a: NetAddress)
    ensures var u := AddressAdded(t, a);
      && |u.data.addresses| - u.counters.addressesAdded == |t.data.addresses| - t.counters.addressesAdded
      && u.counters.addressesRemoved == t.counters.addressesRemoved
      && u.counters.addressesAdded + u.counters.addressesUnchanged
         == t.counters.addressesAdded + t.counters.addressesUnchanged + 1
  {
    if a !in t.data.addresses {
      assert |t.data.addresses + {a}| == |t.data.addresses| + 1;
    }
  }

  lemma PerformAccounts(t: TrackerState, call: Call)
    ensures var u := Perform(t, call);
      && |u.data.addresses| + u.counters.addressesRemoved - u.counters.addressesAdded
         == |t.data.addresses| + t.counters.addressesRemoved - t.counters.addressesAdded
      && u.counters.addressesAdded + u.counters.addressesUnchanged
         == t.counters.addressesAdded + t.counters.addressesUnchanged + if call.AddCall? then 1 else 0
  {
    hide AddressAdded, Withdrawn;
    match call
    case AddCall(a) => AdditionAccounts(t, a);
    case RemoveCall(a) =>
      if a in t.data.addresses {
        WithdrawalAccounts(t, a);
      }
    case _ => OtherCallsKeepRecords(t, call);
  }

  /** Every addition is either still stored or was removed; every add call is an addition or a no-change update. */
  lemma {:induction false} AddressAccounting(calls: seq<Call>)
    ensures var t := AfterCalls(calls);
      && |t.data.addresses| + t.counters.addressesRemoved == t.counters.addressesAdded
      && AddCalls(calls) == t.counters.addressesAdded + t.counters.addressesUnchanged
  {
    if calls == [] {
    } else {
      AddressAccounting(calls[..|calls| - 1]);
      PerformAccounts(AfterCalls(calls[..|calls| - 1]), calls[|calls| - 1]);
    }
  }

  /** The position of the last call that adds or removes exactly this record. */
  function LastMention(calls: seq<Call>, a: NetAddress): Option<Call> {
    if calls == [] then None
    else
      var last := calls[|calls| - 1];
      if last == AddCall(a) || last == RemoveCall(a) then Some(last)
      else LastMention(calls[..|calls| - 1], a)
  }

  lemma PerformStores(t: TrackerState, call: Call, a: NetAddress)
    ensures a in Perform(t, call).data.addresses
      <==> if call == AddCall(a) then true else if call == RemoveCall(a) then false else a in t.data.addresses
  {
    if !call.AddCall? && !call.RemoveCall? {
      hide Perform;
      OtherCallsKeepRecords(t, call);
    }
  }

  /** A record is stored exactly when the last call that names it, in every member, was an addition. */
  lemma {:induction false} StoredIffLastAdded(calls: seq<Call>, a: NetAddress)
    ensures a in AfterCalls(calls).data.addresses <==> LastMention(calls, a) == Some(AddCall(a))
  {
    hide Perform;
    if calls == [] {
    } else {
      StoredIffLastAdded(calls[..|calls| - 1], a);
      PerformStores(AfterCalls(calls[..|calls| - 1]), calls[|calls| - 1], a);
    }
  }

  /** A removal that takes out a record and leaves no IPv4 record leaves no usable gateway behind. */
  lemma LastIPv4RemovalClearsGateway(calls: seq<Call>, a: NetAddress)
    requires a in AfterCalls(calls).data.addresses
    ensures var t := AfterCalls(calls + [RemoveCall(a)]);
      if exists b :: b in t.data.addresses && b.ip.V4? then t.data.gateway == AfterCalls(calls).data.gateway
      else t.data.gateway == if AfterCalls(calls).data.gateway.Some? then Some(V4([0, 0, 0, 0])) else None
  {
    OneMoreCall(calls, RemoveCall(a));
  }

  // ----- the mutable tracker -----

  class Tracker {
    var name: Name
    var mac: Mac
    var broadcast: Mac
    var operationalState: byte
    var addresses: set<NetAddress>
    var gateway: Option<Ip>
    var linkFlags: Bits
    var counters: Counters
    /** The flag set is part of the tracker, not an object of its own. */
    var changedFlags: ChangeBits

    function View(): TrackerState
      reads this
    {
      TrackerState(Fields(name, linkFlags, operationalState, mac, broadcast, gateway, addresses),
                   changedFlags, counters)
    }

    constructor ()
      ensures View() == FRESH_TRACKER
    {
      name, mac, broadcast, operationalState := [], ZERO_MAC, ZERO_MAC, 0;
      addresses, gateway, linkFlags := {}, None, Cleared(LINK_FLAG_COUNT);
      counters := ZERO_COUNTERS;
      changedFlags := Cleared(CHANGED_FLAG_COUNT);
    }

    method Touch(flag: ChangedFlag)
      modifies this`counters, this`changedFlags
      ensures View() == Touched(old(View()), flag)
    {
      if !changedFlags[Index(flag)] {
        changedFlags := changedFlags[Index(flag) := true];
        counters := counters.(flagChanges := counters.flagChanges + 1);
      }
    }

    method SetName(newName: Name)
      modifies this
      ensures View() == WithName(old(View()), newName)
    {
      if name != newName {
        name := newName;
        Touch(NameFlag);
        counters := counters.(nameChanges := counters.nameChanges + 1);
      }
    }

    method SetOperationalState(state: byte)
      modifies this
      ensures View() == WithOperationalState(old(View()), state)
    {
      if operationalState != state {
        operationalState := state;
        Touch(OperationalStateFlag);
        counters := counters.(operationalStateChanges := counters.operationalStateChanges + 1);
      }
    }

    method SetMacAddress(address: Mac)
      modifies this
      ensures View() == WithMac(old(View()), address)
    {
      if mac != address || address == ZERO_MAC {
        mac := address;
        Touch(MacAddressFlag);
        counters := counters.(macAddressChanges := counters.macAddressChanges + 1);
      }
    }

    method SetBroadcastAddress(address: Mac)
      modifies this
      ensures View() == WithBroadcast(old(View()), address)
    {
      if broadcast != address || address == ZERO_MAC {
        broadcast := address;
        Touch(BroadcastAddressFlag);
        counters := counters.(broadcastAddressChanges := counters.broadcastAddressChanges + 1);
      }
    }

    method UpdateLinkFlags(flags: Bits)
      modifies this
      ensures View() == WithLinkFlags(old(View()), flags)
    {
      if linkFlags != flags {
        linkFlags := flags;
        Touch(LinkFlagsFlag);
        counters := counters.(linkFlagChanges := counters.linkFlagChanges + 1);
      }
    }

    method SetGatewayAddress(ip: Ip)
      modifies this
      ensures View() == WithGateway(old(View()), ip)
    {
      if gateway != Some(ip) {
        gateway := Some(ip);
        Touch(GatewayAddressFlag);
        counters := counters.(gatewayAddressChanges := counters.gatewayAddressChanges + 1);
      }
    }

    method ClearGatewayAddress()
      modifies this
      ensures View() == GatewayCleared(old(View()))
    {
      if gateway.Some? {
        gateway := Some(UNSPECIFIED_IP);
        Touch(GatewayAddressFlag);
        counters := counters.(gatewayAddressClears := counters.gatewayAddressClears + 1);
      }
    }

    method AddNetworkAddress(a: NetAddress)
      modifies this
      ensures View() == AddressAdded(old(View()), a)
      ensures addresses == old(addresses) + {a}
      ensures changedFlags == if a in old(addresses) then old(changedFlags) else old(changedFlags)[6 := true]
    {
      if a !in addresses {
        addresses := addresses + {a};
        Touch(NetworkAddressesFlag);
        counters := counters.(addressesAdded := counters.addressesAdded + 1);
      } else {
        counters := counters.(addressesUnchanged := counters.addressesUnchanged + 1);
      }
    }

    method RemoveNetworkAddress(a: NetAddress)
      modifies this
      ensures View() == AddressRemoved(old(View()), a)
    {
      var found := a in addresses;
      addresses := addresses - {a};
      if found {
        counters := counters.(addressesRemoved := counters.addressesRemoved + 1);
        Touch(NetworkAddressesFlag);
        if !HasIPv4(addresses) {
          ClearGatewayAddress();
        }
      }
    }

    predicate IsChanged(flag: ChangedFlag)
      reads this
    {
      changedFlags[Index(flag)]
    }

    predicate HasChanges(): (r: bool)
      reads this
      ensures r <==> exists flag :: View().IsChanged(flag)
    {
      assert forall i: nat :: i < CHANGED_FLAG_COUNT && changedFlags[i] ==> View().IsChanged(FlagAt(i));
      exists i :: 0 <= i < CHANGED_FLAG_COUNT && changedFlags[i]
    }

    method ClearFlag(flag: ChangedFlag)
      modifies this
      ensures View() == FlagCleared(old(View()), flag)
    {
      if changedFlags[Index(flag)] {
        changedFlags := changedFlags[Index(flag) := false];
        counters := counters.(flagClears := counters.flagClears + 1);
      }
    }

    method ClearChangedFlags()
      modifies this
      ensures View() == FlagsCleared(old(View()))
    {
      counters := counters.(flagClears := counters.flagClears + Count(changedFlags));
      changedFlags := Cleared(CHANGED_FLAG_COUNT);
    }
  }
}
