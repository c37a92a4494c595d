/**
 The sender's side of the messages, as far as the monitor reads them: attribute lists that carry given
 values, and the proof that the monitor reads exactly those values out of them. Attribute types, address
 families, hardware types and flag bits are the numbers of the kernel's interface here.
 */
module WireFormat {
  import opened Types
  import opened FlagSets
  import opened AttributeTables
  import opened Messages

  function LittleEndian(x: uint32): Payload {
    [x % 0x100, (x / 0x100) % 0x100, (x / 0x1_0000) % 0x100, x / 0x100_0000]
  }

  lemma U32RoundTrip(x: uint32)
    ensures AsU32(Some(LittleEndian(x))) == Some(x)
  {
    var q0, q1, q2 := x / 0x100, x / 0x1_0000, x / 0x100_0000;
    assert q1 == q0 / 0x100 && q2 == q1 / 0x100;
  }

  /** A name and its terminator. */
  function Terminated(name: Name): Payload {
    name + [0]
  }

  lemma {:induction false} UpToTerminator(name: Name)
    requires 0 !in name
    ensures UpToNul(Terminated(name)) == name
  {
    if name == [] {
    } else {
      assert Terminated(name)[1..] == Terminated(name[1..]);
      UpToTerminator(name[1..]);
    }
  }

  lemma StringRoundTrip(name: Name)
    requires 0 !in name
    ensures AsString(Some(Terminated(name))) == Some(name)
  {
    UpToTerminator(name);
  }

  /** RT_SCOPE_SITE, LINK, HOST and NOWHERE; every other code is global. */
  predicate ScopeMeans(code: byte, s: Scope) {
    && (s.Site? <==> code == 200)
    && (s.Link? <==> code == 253)
    && (s.Host? <==> code == 254)
    && (s.Nowhere? <==> code == 255)
  }

  /** The list says of one type: this payload, in however many copies and wherever they stand, or nothing at all. */
  ghost predicate Carries(attributes: seq<Attribute>, kind: uint16, payload: Option<Payload>) {
    && (forall a :: a in attributes && a.kind == kind ==> payload == Some(a.payload))
    && (payload.Some? ==> Attribute(kind, payload.value) in attributes)
  }

  lemma {:induction false} SlotComesFromList(attributes: seq<Attribute>, maxType: uint16, kind: uint16)
    ensures var slot := Slot(attributes, maxType, kind);
      slot.Some? ==> Attribute(kind, slot.value) in attributes
  {
    if attributes == [] {
    } else {
      SlotComesFromList(attributes[..|attributes| - 1], maxType, kind);
    }
  }

  lemma SlotOfCarried(attributes: seq<Attribute>, maxType: uint16, kind: uint16, payload: Option<Payload>)
    requires kind <= maxType && Carries(attributes, kind, payload)
    ensures Slot(attributes, maxType, kind) == payload
  {
    hide Slot;
    SlotComesFromList(attributes, maxType, kind);
    if payload.Some? {
      var k :| 0 <= k < |attributes| && attributes[k] == Attribute(kind, payload.value);
      SlotHoldsLast(attributes, maxType, kind);
    }
  }

  function NamePayload(name: Option<Name>): Option<Payload> {
    if name.Some? then Some(Terminated(name.value)) else None
  }

  function BytePayload(b: Option<byte>): Option<Payload> {
    if b.Some? then Some([b.value]) else None
  }

  function WordPayload(x: Option<uint32>): Option<Payload> {
    if x.Some? then Some(LittleEndian(x.value)) else None
  }

  predicate Nameable(name: Option<Name>) {
    name.Some? ==> 0 !in name.value
  }

  lemma NameRoundTrip(name: Option<Name>)
    requires Nameable(name)
    ensures AsString(NamePayload(name)) == name
  {
    if name.Some? {
      StringRoundTrip(name.value);
    }
  }

  lemma WordRoundTrip(x: Option<uint32>)
    ensures AsU32(WordPayload(x)) == x
  {
    if x.Some? {
      U32RoundTrip(x.value);
    }
  }

  // ----- links -----

  /** IFLA_IFNAME is 3, IFLA_OPERSTATE 16, IFLA_ADDRESS 1 and IFLA_BROADCAST 2. */
  ghost predicate CarriesLink(attributes: seq<Attribute>, name: Option<Name>, state: Option<byte>, mac: Option<Mac>,
                              broadcast: Option<Mac>)
  {
    && Carries(attributes, 3, NamePayload(name))
    && Carries(attributes, 16, BytePayload(state))
    && Carries(attributes, 1, mac)
    && Carries(attributes, 2, broadcast)
  }

  /** The interface index of a link message, unsigned. */
  function LinkIndex(m: Message): uint32
    requires m.LinkMessage?
  {
    if m.ifiIndex >= 0 then m.ifiIndex else m.ifiIndex + 0x1_0000_0000
  }

  /** The name reported when a removal names none. */
  const UNKNOWN: Name := ['u' as int, 'n' as int, 'k' as int, 'n' as int, 'o' as int, 'w' as int, 'n' as int]

  /** Neither ethernet (1) nor IEEE 802.11 (801), and nothing else is wanted. */
  predicate ForeignHardware(cfg: Config, m: Message)
    requires m.LinkMessage?
  {
    m.hardwareType != 1 && m.hardwareType != 801 && !cfg.includeNonIeee802
  }

  /** A link message says what its sender put into it, whatever other attributes stand between. */
  lemma LinkRoundTrip(cfg: Config, m: Message, name: Option<Name>, state: Option<byte>, mac: Option<Mac>,
                      broadcast: Option<Mac>)
    requires m.LinkMessage? && cfg.iflaMax >= 16 && Nameable(name)
    requires CarriesLink(m.attributes, name, state, mac, broadcast)
    ensures Decode(cfg, m) ==
      if m.hardwareType != 1 && m.hardwareType != 801 && !cfg.includeNonIeee802 then Skip
      else if m.deleted then LinkGone(LinkIndex(m), name.GetOr(UNKNOWN))
      else LinkNew(LinkIndex(m), name, FromU32(19, m.ifiFlags), state, mac, broadcast)
  {
    hide Slot, Carries, NamePayload, FromU32, AsString;
    SlotOfCarried(m.attributes, cfg.iflaMax, IFLA_IFNAME, NamePayload(name));
    SlotOfCarried(m.attributes, cfg.iflaMax, IFLA_OPERSTATE, BytePayload(state));
    SlotOfCarried(m.attributes, cfg.iflaMax, IFLA_ADDRESS, mac);
    SlotOfCarried(m.attributes, cfg.iflaMax, IFLA_BROADCAST, broadcast);
    NameRoundTrip(name);
  }

  // ----- addresses -----

  predicate Sendable(a: NetAddress) {
    && |a.ip.bytes| == (if a.ip.V4? then 4 else 16)
    && (a.broadcast.Some? ==> a.broadcast.value.V4? && |a.broadcast.value.bytes| == 4)
  }

  /**
   An IPv4 address is the local one (IFA_LOCAL, 2), next to which a peer may be named; an IPv6 address is the
   address itself (IFA_ADDRESS, 1). Without either the address is 0.0.0.0.
   */
  ghost predicate CarriesIp(attributes: seq<Attribute>, ip: Ip) {
    if ip.V4? then
      && (Carries(attributes, 2, Some(ip.bytes))
          || (ip == V4([0, 0, 0, 0]) && forall a :: a in attributes && a.kind == 2 ==> |a.payload| != 4))
      && forall a :: a in attributes && a.kind == 1 ==> |a.payload| != 16
    else
      Carries(attributes, 1, Some(ip.bytes))
  }

  /** IFA_LABEL is 3, IFA_BROADCAST 4, IFA_FLAGS 8 and IFA_PROTO 11. */
  ghost predicate CarriesAddress(attributes: seq<Attribute>, name: Option<Name>, a: NetAddress, flags: Option<uint32>,
                                 protocol: Option<byte>)
  {
    && Carries(attributes, 3, NamePayload(name))
    && CarriesIp(attributes, a.ip)
    && Carries(attributes, 4, if a.broadcast.Some? then Some(a.broadcast.value.bytes) else None)
    && Carries(attributes, 8, WordPayload(flags))
    && Carries(attributes, 11, BytePayload(protocol))
  }

  lemma IpRoundTrip(attributes: seq<Attribute>, maxType: uint16, ip: Ip)
    requires maxType >= IFA_LOCAL && CarriesIp(attributes, ip) && |ip.bytes| == (if ip.V4? then 4 else 16)
    ensures AsIpV6(Slot(attributes, maxType, IFA_ADDRESS)).GetOr(
              AsIpV4(Slot(attributes, maxType, IFA_LOCAL)).GetOr(UNSPECIFIED_IP)) == ip
  {
    hide Slot, Carries;
    if ip.V4? {
      SlotComesFromList(attributes, maxType, IFA_LOCAL);
      SlotComesFromList(attributes, maxType, IFA_ADDRESS);
      if Carries(attributes, IFA_LOCAL, Some(ip.bytes)) {
        SlotOfCarried(attributes, maxType, IFA_LOCAL, Some(ip.bytes));
      }
    } else {
      SlotOfCarried(attributes, maxType, IFA_ADDRESS, Some(ip.bytes));
    }
  }

  /** IPv4 (AF_INET, 2) or IPv6 (AF_INET6, 10) is preferred, and the header has another family. */
  predicate ForeignFamily(cfg: Config, family: byte) {
    (cfg.preferV4 && family != 2) || (cfg.preferV6 && family != 10)
  }

  /** The record of an address message. The flags come from their attribute, or else from the header. */
  ghost predicate Describes(m: Message, a: NetAddress, flags: Option<uint32>, protocol: Option<byte>)
    requires m.AddressMessage?
  {
    && a.prefixLen == m.prefixLen && ScopeMeans(m.rtnlScope, a.scope) && a.protocol == protocol.GetOr(0)
    && a.flags == FromU32(12, flags.GetOr(m.ifaFlags))
  }

  /**
   An address message names exactly the record its sender meant. The flags come from their own attribute
   if there is one and from the header otherwise, cut to twelve bits; no protocol means protocol 0.
   */
  lemma AddressRoundTrip(cfg: Config, m: Message, name: Option<Name>, a: NetAddress, flags: Option<uint32>,
                         protocol: Option<byte>)
    requires m.AddressMessage? && cfg.ifaMax >= 11 && Nameable(name) && Sendable(a)
    requires CarriesAddress(m.attributes, name, a, flags, protocol) && Describes(m, a, flags, protocol)
    ensures Decode(cfg, m) ==
      if (cfg.preferV4 && m.family != 2) || (cfg.preferV6 && m.family != 10) then Skip
      else if m.deleted then AddressGone(m.ifaIndex, name, a)
      else AddressNew(m.ifaIndex, name, a)
  {
    hide Slot, Carries, CarriesIp, NamePayload, WordPayload, FromU32, AsString, AsU32, AsIpV6;
    var broadcast := if a.broadcast.Some? then Some(a.broadcast.value.bytes) else None;
    SlotOfCarried(m.attributes, cfg.ifaMax, IFA_LABEL, NamePayload(name));
    SlotOfCarried(m.attributes, cfg.ifaMax, IFA_BROADCAST, broadcast);
    SlotOfCarried(m.attributes, cfg.ifaMax, IFA_FLAGS, WordPayload(flags));
    SlotOfCarried(m.attributes, cfg.ifaMax, IFA_PROTO, BytePayload(protocol));
    IpRoundTrip(m.attributes, cfg.ifaMax, a.ip);
    NameRoundTrip(name);
    WordRoundTrip(flags);
    assert DecodeAddress(cfg, m) == a;
  }

  // ----- routes -----

  /** RTA_OIF is 4 and RTA_GATEWAY 5. */
  ghost predicate CarriesRoute(attributes: seq<Attribute>, index: Option<uint32>, gateway: Option<Payload>) {
    && Carries(attributes, 4, WordPayload(index))
    && Carries(attributes, 5, gateway)
    && (gateway.Some? ==> |gateway.value| == 4)
  }

  /**
   A route message sets or clears the gateway of the interface it goes over. Only IPv4 (2) counts, and not
   even that under an IPv6 preference. A deletion clears if it names a gateway or says that the link is down
   (RTNH_F_LINKDOWN, bit 4 of the flags).
   */
  lemma RouteRoundTrip(cfg: Config, m: Message, index: Option<uint32>, gateway: Option<Payload>)
    requires m.RouteMessage? && cfg.rtaMax >= 5 && CarriesRoute(m.attributes, index, gateway)
    ensures Decode(cfg, m) ==
      if m.family != 2 || cfg.preferV6 || index.None? then Skip
      else if m.deleted then
        (if gateway.Some? || (m.rtmFlags / 0x10) % 2 == 1 then GatewayGone(index.value) else Skip)
      else if gateway.Some? then GatewayNew(index.value, V4(gateway.value))
      else Skip
  {
    hide Slot, Carries, WordPayload, AsU32;
    SlotOfCarried(m.attributes, cfg.rtaMax, RTA_OIF, WordPayload(index));
    SlotOfCarried(m.attributes, cfg.rtaMax, RTA_GATEWAY, gateway);
    WordRoundTrip(index);
  }
}
