/**
 The rtnetlink multicast groups the monitor joins (src/monitor/NetworkMonitor.cpp, lines 38-41 and 81-90), as
 the bits of the word it binds its socket with.
 */
module MulticastGroups {
  import opened Messages

  /** Groups are numbered from one. */
  type Group = g: nat | 1 <= g <= 32 witness 1

  const RTNLGRP_LINK: Group := 1
  const RTNLGRP_NOTIFY: Group := 2
  const RTNLGRP_IPV4_IFADDR: Group := 5
  const RTNLGRP_IPV4_ROUTE: Group := 7
  const RTNLGRP_IPV6_IFADDR: Group := 9
  const RTNLGRP_IPV6_ROUTE: Group := 11

  function ToRtnlGroupFlag(g: Group): bv32 {
    1 << (g - 1)
  }

  predicate Joined(groups: bv32, g: Group) {
    groups & ToRtnlGroupFlag(g) != 0
  }

  /**
   The groups that fit the preference: address groups are joined exactly when messages of their family can
   be accepted, and so is the group of IPv4 routes. The group of IPv6 routes is joined unless IPv4
   is preferred, although none of them is ever accepted.
   */
  ghost predicate FitPreference(groups: bv32, cfg: Config) {
    && groups == 0x3 | (if cfg.preferV6 then 0 else 0x50) | (if cfg.preferV4 then 0 else 0x500)
    && Joined(groups, RTNLGRP_LINK) && Joined(groups, RTNLGRP_NOTIFY)
    && (Joined(groups, RTNLGRP_IPV4_IFADDR) <==> FamilyAccepted(cfg, AF_INET))
    && (Joined(groups, RTNLGRP_IPV6_IFADDR) <==> FamilyAccepted(cfg, AF_INET6))
    && (Joined(groups, RTNLGRP_IPV4_ROUTE) <==> exists m: Message :: m.RouteMessage? && RouteAccepted(cfg, m))
    && (Joined(groups, RTNLGRP_IPV6_ROUTE) <==> !cfg.preferV4)
  }

  method Groups(cfg: Config) returns (groups: bv32)
    ensures FitPreference(groups, cfg)
  {
    groups := ToRtnlGroupFlag(RTNLGRP_LINK);
    groups := groups | ToRtnlGroupFlag(RTNLGRP_NOTIFY);
    if !cfg.preferV6 {
      groups := groups | ToRtnlGroupFlag(RTNLGRP_IPV4_IFADDR);
      groups := groups | ToRtnlGroupFlag(RTNLGRP_IPV4_ROUTE);
    }
    if !cfg.preferV4 {
      groups := groups | ToRtnlGroupFlag(RTNLGRP_IPV6_IFADDR);
      groups := groups | ToRtnlGroupFlag(RTNLGRP_IPV6_ROUTE);
    }
    assert !cfg.preferV6 ==> RouteAccepted(cfg, RouteMessage(false, AF_INET, 0, []));
  }
}
