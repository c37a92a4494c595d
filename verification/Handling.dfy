/**
 From the wire to the cache and to the subscribers: what one message does to the data of every tracker and
 to every log, for every run before it, stated on what the message carries.
 */
module Handling {
  import opened Types
  import opened FlagSets
  import opened Trackers
  import opened AttributeTables
  import opened Messages
  import opened Caches
  import opened Subscriptions
  import opened WireFormat

  /** The data of every tracked interface after a run. */
  function DataAfter(cfg: Config, ops: seq<Op>): DataCache {
    DataOf(Run(cfg, ops).trackers)
  }

  /** What is known of an interface, or what a new tracker starts with. */
  function FieldsOf(d: DataCache, i: uint32): Fields {
    if i in d then d[i]
    else Fields([], seq(19, _ => false), 0, [0, 0, 0, 0, 0, 0], [0, 0, 0, 0, 0, 0], None, {})
  }

  lemma KnownIsStart(d: DataCache, i: uint32)
    ensures FieldsOf(d, i) == Start(d, i)
  {
    assert seq(19, _ => false) == FlagSets.Cleared(19);
  }

  /** Nobody who is not subscribed hears anything, and everybody else hears the same. */
  ghost predicate Heard(c: Core, c': Core, news: seq<Event>) {
    forall s :: c'.Log(s) == c.Log(s) + if s in c.subscribers then news else []
  }

  // ----- one decoded message -----

  lemma OneMessage(cfg: Config, ops: seq<Op>, m: Message)
    ensures var c, c' := Run(cfg, ops), Run(cfg, ops + [Handle(m)]);
      && DataOf(c'.trackers) == ApplyData(DataOf(c.trackers), Decode(cfg, m))
      && c'.logs == Announce(c, Decode(cfg, m)) && c'.subscribers == c.subscribers
  {
    hide Run, Decode, ApplyData, Announce, Account, DataOf;
    OneMoreOp(cfg, ops, Handle(m));
    ApplyRefinesOverwriting(Run(cfg, ops).trackers, Decode(cfg, m));
  }

  lemma BroadcastIsHeard(c: Core, c': Core, ev: Event)
    requires c'.logs == Broadcast(c.subscribers.Keys, c.logs, ev)
    ensures Heard(c, c', [ev])
  {
    forall s
      ensures c'.Log(s) == c.Log(s) + if s in c.subscribers then [ev] else []
    {
      assert c.Log(s) + [] == c.Log(s);
    }
  }

  lemma SilenceIsHeard(c: Core, c': Core)
    requires c'.logs == c.logs
    ensures Heard(c, c', [])
  {
    assert forall s :: c.Log(s) + [] == c.Log(s);
  }

  // ----- links -----

  /**
   A link message of hardware that is not wanted does nothing. A removal drops the tracker and is
   reported to every subscriber, tracked or not. Any other link message stores what it carries over
   what was known, and keeps the rest; if the interface is new, every subscriber hears of it.
   */
  lemma LinkIsStored(cfg: Config, ops: seq<Op>, m: Message, name: Option<Name>, state: Option<byte>, mac: Option<Mac>,
                     broadcast: Option<Mac>)
    requires m.LinkMessage? && cfg.iflaMax >= 16 && Nameable(name)
    requires CarriesLink(m.attributes, name, state, mac, broadcast)
    ensures var d, i := DataAfter(cfg, ops), LinkIndex(m);
      var was := FieldsOf(d, i);
      DataAfter(cfg, ops + [Handle(m)]) ==
        if ForeignHardware(cfg, m) then d
        else if m.deleted then d - {i}
        else d[i := Fields(name.GetOr(was.name), FromU32(19, m.ifiFlags), state.GetOr(was.operationalState),
                           mac.GetOr(was.mac), broadcast.GetOr(was.broadcast), was.gateway, was.addresses)]
    ensures var c, i := Run(cfg, ops), LinkIndex(m);
      Heard(c, Run(cfg, ops + [Handle(m)]),
            if ForeignHardware(cfg, m) then []
            else if m.deleted then [Event(i, name.GetOr(UNKNOWN), Removed)]
            else if i in c.trackers then []
            else [Event(i, name.GetOr([]), Added)])
  {
    hide Run, Decode, CarriesLink, Heard, Broadcast, FromU32, FieldsOf, DataOf;
    var c, c' := Run(cfg, ops), Run(cfg, ops + [Handle(m)]);
    OneMessage(cfg, ops, m);
    LinkRoundTrip(cfg, m, name, state, mac, broadcast);
    KnownIsStart(DataOf(c.trackers), LinkIndex(m));
    if ForeignHardware(cfg, m) {
      SilenceIsHeard(c, c');
    } else if m.deleted {
      BroadcastIsHeard(c, c', Event(LinkIndex(m), name.GetOr(UNKNOWN), Removed));
    } else if LinkIndex(m) in c.trackers {
      SilenceIsHeard(c, c');
    } else {
      BroadcastIsHeard(c, c', Event(LinkIndex(m), name.GetOr([]), Added));
    }
  }

  // ----- addresses -----

  /** The fields after a record is gone: with no IPv4 record left a known gateway becomes 0.0.0.0. */
  function WithoutRecord(d: Fields, a: NetAddress): Fields {
    d.(addresses := d.addresses - {a},
       gateway := if a in d.addresses && d.gateway.Some? && !(exists b :: b in d.addresses && b != a && b.ip.V4?)
                  then Some(V4([0, 0, 0, 0])) else d.gateway)
  }

  lemma GoneIsWithout(f: Fields, i: uint32, name: Option<Name>, a: NetAddress)
    ensures Overwritten(f, AddressGone(i, name, a)) == WithoutRecord(f.(name := name.GetOr(f.name)), a)
  {
  }

  /**
   An address message about an interface that is not tracked, or of a family that is not preferred, does
   nothing. Any other adds or removes exactly the record it describes, and renames the interface if it
   has a label. Nobody hears of it before the next sweep.
   */
  lemma AddressIsStored(cfg: Config, ops: seq<Op>, m: Message, name: Option<Name>, a: NetAddress, flags: Option<uint32>,
                        protocol: Option<byte>)
    requires m.AddressMessage? && cfg.ifaMax >= 11 && Nameable(name) && Sendable(a)
    requires CarriesAddress(m.attributes, name, a, flags, protocol) && Describes(m, a, flags, protocol)
    ensures var d, i := DataAfter(cfg, ops), m.ifaIndex;
      DataAfter(cfg, ops + [Handle(m)]) ==
        if i !in d || ForeignFamily(cfg, m.family) then d
        else
          var named := d[i].(name := name.GetOr(d[i].name));
          d[i := if m.deleted then WithoutRecord(named, a) else named.(addresses := named.addresses + {a})]
    ensures Heard(Run(cfg, ops), Run(cfg, ops + [Handle(m)]), [])
  {
    hide Run, Decode, CarriesAddress, Describes, Heard, WithoutRecord, DataOf;
    var d := DataAfter(cfg, ops);
    OneMessage(cfg, ops, m);
    AddressRoundTrip(cfg, m, name, a, flags, protocol);
    SilenceIsHeard(Run(cfg, ops), Run(cfg, ops + [Handle(m)]));
    if m.ifaIndex in d {
      GoneIsWithout(d[m.ifaIndex], m.ifaIndex, name, a);
    }
  }

  // ----- routes -----

  /**
   A route that is not IPv4, not wanted, or over no tracked interface does nothing. A new one with a gateway
   sets it; a deleted one with a gateway, or over a link that is down, makes a known gateway 0.0.0.0.
   */
  lemma RouteIsStored(cfg: Config, ops: seq<Op>, m: Message, index: Option<uint32>, gateway: Option<Payload>)
    requires m.RouteMessage? && cfg.rtaMax >= 5 && CarriesRoute(m.attributes, index, gateway)
    ensures var d := DataAfter(cfg, ops);
      DataAfter(cfg, ops + [Handle(m)]) ==
        if m.family != 2 || cfg.preferV6 || index.None? || index.value !in d then d
        else
          var was := d[index.value];
          if m.deleted then
            if (gateway.Some? || (m.rtmFlags / 0x10) % 2 == 1) && was.gateway.Some?
            then d[index.value := was.(gateway := Some(V4([0, 0, 0, 0])))] else d
          else if gateway.Some? then d[index.value := was.(gateway := Some(V4(gateway.value)))]
          else d
    ensures Heard(Run(cfg, ops), Run(cfg, ops + [Handle(m)]), [])
  {
    hide Run, Decode, CarriesRoute, Heard, DataOf;
    var d := DataAfter(cfg, ops);
    OneMessage(cfg, ops, m);
    RouteRoundTrip(cfg, m, index, gateway);
    SilenceIsHeard(Run(cfg, ops), Run(cfg, ops + [Handle(m)]));
    if index.Some? && index.value in d {
      assert d[index.value := d[index.value]] == d;
    }
  }

  /** A message of another type is counted and otherwise ignored. */
  lemma OtherIsIgnored(cfg: Config, ops: seq<Op>, m: Message)
    requires m.OtherMessage?
    ensures DataAfter(cfg, ops + [Handle(m)]) == DataAfter(cfg, ops)
    ensures Heard(Run(cfg, ops), Run(cfg, ops + [Handle(m)]), [])
  {
    hide Run, Heard, DataOf;
    OneMessage(cfg, ops, m);
    SilenceIsHeard(Run(cfg, ops), Run(cfg, ops + [Handle(m)]));
  }
}
