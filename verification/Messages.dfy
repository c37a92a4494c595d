/**
 Decoded rtnetlink messages and what each asks of the cache
 (parseLinkMessage, parseAddressMessage and parseRouteMessage of src/monitor/NetworkMonitor.cpp).
 */
module Messages {
  import opened Types
  import opened FlagSets
  import opened Trackers
  import opened AttributeTables

  /** The runtime options that steer parsing, and the attribute-table sizes of the kernel headers in use. */
  datatype Config = Config(
    preferV4: bool,
    preferV6: bool,
    includeNonIeee802: bool,
    iflaMax: uint16,
    ifaMax: uint16,
    rtaMax: uint16)

  datatype Message =
    | LinkMessage(deleted: bool, ifiIndex: int32, hardwareType: uint16, ifiFlags: uint32, attributes: seq<Attribute>)
    | AddressMessage(deleted: bool, ifaIndex: uint32, family: byte, prefixLen: byte, ifaFlags: byte,
                     rtnlScope: byte, attributes: seq<Attribute>)
    | RouteMessage(deleted: bool, family: byte, rtmFlags: uint32, attributes: seq<Attribute>)
    | OtherMessage(messageType: uint16)

  const ARPHRD_ETHER: uint16 := 1
  const ARPHRD_IEEE80211: uint16 := 801
  const AF_INET: byte := 2
  const AF_INET6: byte := 10
  const ADDRESS_FLAG_COUNT := 12

  const IFLA_ADDRESS: uint16 := 1
  const IFLA_BROADCAST: uint16 := 2
  const IFLA_IFNAME: uint16 := 3
  const IFLA_OPERSTATE: uint16 := 16

  const IFA_ADDRESS: uint16 := 1
  const IFA_LOCAL: uint16 := 2
  const IFA_LABEL: uint16 := 3
  const IFA_BROADCAST: uint16 := 4
  const IFA_FLAGS: uint16 := 8
  const IFA_PROTO: uint16 := 11

  const RTA_OIF: uint16 := 4
  const RTA_GATEWAY: uint16 := 5

  /** "unknown", the name reported for a removed interface whose message carries none. */
  const UNKNOWN_NAME: Name := [117, 110, 107, 110, 111, 119, 110]

  function FromRtnlScope(s: byte): Scope {
    if s == 200 then Site
    else if s == 253 then Scope.Link
    else if s == 254 then Host
    else if s == 255 then Nowhere
    else Global
  }

  /** RTNH_F_LINKDOWN, value 16. */
  predicate IsLinkDown(rtmFlags: uint32) {
    (rtmFlags / 16) % 2 == 1
  }

  /** What an accepted message does to the cache. */
  datatype Effect =
    | Skip
    | LinkNew(index: uint32, name: Option<Name>, flags: Bits, state: Option<byte>,
              mac: Option<Mac>, broadcast: Option<Mac>)
    | LinkGone(index: uint32, lastName: Name)
    | AddressNew(index: uint32, name: Option<Name>, address: NetAddress)
    | AddressGone(index: uint32, name: Option<Name>, address: NetAddress)
    | GatewayNew(index: uint32, gateway: Ip)
    | GatewayGone(index: uint32)

  predicate LinkAccepted(cfg: Config, m: Message)
    requires m.LinkMessage?
  {
    m.hardwareType == ARPHRD_ETHER || m.hardwareType == ARPHRD_IEEE80211 || cfg.includeNonIeee802
  }

  predicate FamilyAccepted(cfg: Config, family: byte) {
    && (cfg.preferV4 ==> family == AF_INET)
    && (cfg.preferV6 ==> family == AF_INET6)
  }

  predicate RouteAccepted(cfg: Config, m: Message)
    requires m.RouteMessage?
  {
    m.family == AF_INET && !cfg.preferV6
  }

  /** The record an address message describes. A 16-byte IFA_ADDRESS wins over a 4-byte IFA_LOCAL. */
  function DecodeAddress(cfg: Config, m: Message): NetAddress
    requires m.AddressMessage?
  {
    var local := AsIpV4(Slot(m.attributes, cfg.ifaMax, IFA_LOCAL));
    var v6 := AsIpV6(Slot(m.attributes, cfg.ifaMax, IFA_ADDRESS));
    NetAddress(
      v6.GetOr(local.GetOr(UNSPECIFIED_IP)),
      AsIpV4(Slot(m.attributes, cfg.ifaMax, IFA_BROADCAST)),
      m.prefixLen,
      FromRtnlScope(m.rtnlScope),
      FromU32(ADDRESS_FLAG_COUNT, AsU32(Slot(m.attributes, cfg.ifaMax, IFA_FLAGS)).GetOr(m.ifaFlags)),
      AsU8(Slot(m.attributes, cfg.ifaMax, IFA_PROTO)).GetOr(0))
  }

  function DecodeLink(cfg: Config, m: Message): Effect
    requires m.LinkMessage?
  {
    var name := AsString(Slot(m.attributes, cfg.iflaMax, IFLA_IFNAME));
    if !LinkAccepted(cfg, m) then Skip
    else if m.deleted then LinkGone(Unsigned(m.ifiIndex), name.GetOr(UNKNOWN_NAME))
    else LinkNew(Unsigned(m.ifiIndex), name, FromU32(LINK_FLAG_COUNT, m.ifiFlags),
                 AsU8(Slot(m.attributes, cfg.iflaMax, IFLA_OPERSTATE)),
                 AsMac(Slot(m.attributes, cfg.iflaMax, IFLA_ADDRESS)),
                 AsMac(Slot(m.attributes, cfg.iflaMax, IFLA_BROADCAST)))
  }

  function DecodeRoute(cfg: Config, m: Message): Effect
    requires m.RouteMessage?
  {
    var oif := AsU32(Slot(m.attributes, cfg.rtaMax, RTA_OIF));
    var gateway := AsIpV4(Slot(m.attributes, cfg.rtaMax, RTA_GATEWAY));
    if !RouteAccepted(cfg, m) || oif.None? then Skip
    else if m.deleted then
      if IsLinkDown(m.rtmFlags) || gateway.Some? then GatewayGone(oif.value) else Skip
    else if gateway.Some? then GatewayNew(oif.value, gateway.value)
    else Skip
  }

  function Decode(cfg: Config, m: Message): Effect {
    match m
    case LinkMessage(_, _, _, _, _) => DecodeLink(cfg, m)
    case AddressMessage(_, _, _, _, _, _, _) =>
      if !FamilyAccepted(cfg, m.family) then Skip
      else
        var labelled := AsString(Slot(m.attributes, cfg.ifaMax, IFA_LABEL));
        if m.deleted then AddressGone(m.ifaIndex, labelled, DecodeAddress(cfg, m))
        else AddressNew(m.ifaIndex, labelled, DecodeAddress(cfg, m))
    case RouteMessage(_, _, _, _) => DecodeRoute(cfg, m)
    case OtherMessage(_) => Skip
  }
}
