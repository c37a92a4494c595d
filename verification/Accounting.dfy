/**
 Two invariants of whole runs: the statistics add up, and the preferred address family confines what
 is tracked.
 */
module Accounting {
  import opened Types
  import opened Trackers
  import opened AttributeTables
  import opened Messages
  import opened Caches
  import opened Subscriptions
  import opened WireFormat

  // ----- statistics -----

  function UnexpectedMessages(ops: seq<Op>): nat {
    if ops == [] then 0
    else
      var op := ops[|ops| - 1];
      UnexpectedMessages(ops[..|ops| - 1]) + if op.Handle? && op.m.OtherMessage? then 1 else 0
  }

  /**
   The message is discarded: a link of hardware that is not wanted, an address of an interface that is not
   tracked or of a family that is not preferred, or a route that is not IPv4 or not wanted at all.
   */
  predicate Refused(cfg: Config, tracked: set<uint32>, m: Message) {
    match m
    case LinkMessage(_, _, _, _, _) => ForeignHardware(cfg, m)
    case AddressMessage(_, index, family, _, _, _, _) => index !in tracked || ForeignFamily(cfg, family)
    case RouteMessage(_, family, _, _) => family != 2 || cfg.preferV6
    case OtherMessage(_) => false
  }

  /** Link messages are parsed even if they are discarded; address and route messages are not. */
  predicate ReachesParsing(cfg: Config, tracked: set<uint32>, m: Message) {
    m.LinkMessage? || (!m.OtherMessage? && !Refused(cfg, tracked, m))
  }

  /** The highest attribute type the table of a message has a slot for. */
  function TableSize(cfg: Config, m: Message): uint16 {
    if m.LinkMessage? then cfg.iflaMax else if m.AddressMessage? then cfg.ifaMax else cfg.rtaMax
  }

  function ParsedAttributes(cfg: Config, ops: seq<Op>): nat {
    if ops == [] then 0
    else
      var before, op := ops[..|ops| - 1], ops[|ops| - 1];
      ParsedAttributes(cfg, before)
      + if op.Handle? && ReachesParsing(cfg, Run(cfg, before).trackers.Keys, op.m) then |op.m.attributes| else 0
  }

  function RefusedMessages(cfg: Config, ops: seq<Op>): nat {
    if ops == [] then 0
    else
      var before, op := ops[..|ops| - 1], ops[|ops| - 1];
      RefusedMessages(cfg, before)
      + if op.Handle? && Refused(cfg, Run(cfg, before).trackers.Keys, op.m) then 1 else 0
  }

  lemma AccountFor(cfg: Config, tracked: set<uint32>, m: Message, st: Statistics)
    ensures var parsed := ReachesParsing(cfg, tracked, m);
      var known := if parsed then Known(m.attributes, TableSize(cfg, m)) else 0;
      Account(cfg, tracked, m, st) == Statistics(
        st.msgsReceived + 1,
        st.msgsDiscarded + (if Refused(cfg, tracked, m) then 1 else 0),
        st.seenAttributes + known,
        st.unknownAttributes + (if parsed then |m.attributes| - known else 0),
        st.linkMessagesSeen + (if m.LinkMessage? then 1 else 0),
        st.addressMessagesSeen + (if m.AddressMessage? then 1 else 0),
        st.routeMessagesSeen + (if m.RouteMessage? then 1 else 0))
  {
    hide Known;
  }

  /**
   What one message adds to the statistics of a run: it is received and counted under its kind; it is
   discarded exactly if it is refused; its attributes are seen or unknown exactly if it reaches the parser.
   */
  lemma MessageCounts(cfg: Config, ops: seq<Op>, m: Message)
    ensures var c, st' := Run(cfg, ops), Run(cfg, ops + [Handle(m)]).stats;
      var parsed := ReachesParsing(cfg, c.trackers.Keys, m);
      var known := if parsed then Known(m.attributes, TableSize(cfg, m)) else 0;
      && st'.msgsReceived == c.stats.msgsReceived + 1
      && st'.msgsDiscarded == c.stats.msgsDiscarded + (if Refused(cfg, c.trackers.Keys, m) then 1 else 0)
      && st'.seenAttributes == c.stats.seenAttributes + known
      && st'.unknownAttributes == c.stats.unknownAttributes + (if parsed then |m.attributes| - known else 0)
      && st'.linkMessagesSeen == c.stats.linkMessagesSeen + (if m.LinkMessage? then 1 else 0)
      && st'.addressMessagesSeen == c.stats.addressMessagesSeen + (if m.AddressMessage? then 1 else 0)
      && st'.routeMessagesSeen == c.stats.routeMessagesSeen + (if m.RouteMessage? then 1 else 0)
  {
    hide Run, Account, Refused, ReachesParsing, Known, TableSize, Decode, Apply, Announce;
    OneMoreOp(cfg, ops, Handle(m));
    AccountFor(cfg, Run(cfg, ops).trackers.Keys, m, Run(cfg, ops).stats);
  }

  lemma OtherOpsKeepStatistics(cfg: Config, c: Core, op: Op)
    requires !op.Handle?
    ensures Step(cfg, c, op).stats == c.stats
  {
    hide Ascending, Deliveries;
  }

  lemma OthersAreNotRefused(cfg: Config, tracked: set<uint32>, m: Message)
    ensures m.OtherMessage? ==> !Refused(cfg, tracked, m)
  {
  }

  lemma {:induction false} RefusedAtMostExpected(cfg: Config, ops: seq<Op>)
    ensures var st := Run(cfg, ops).stats;
      RefusedMessages(cfg, ops) <= st.linkMessagesSeen + st.addressMessagesSeen + st.routeMessagesSeen
  {
    hide Step, Refused;
    if ops == [] {
    } else {
      var before, op := ops[..|ops| - 1], ops[|ops| - 1];
      RefusedAtMostExpected(cfg, before);
      assert ops == before + [op];
      if op.Handle? {
        MessageCounts(cfg, before, op.m);
        OthersAreNotRefused(cfg, Run(cfg, before).trackers.Keys, op.m);
      } else {
        OtherOpsKeepStatistics(cfg, Run(cfg, before), op);
      }
    }
  }

  /** The statistics add up to what the run consists of. */
  ghost predicate AddsUp(cfg: Config, ops: seq<Op>, st: Statistics) {
    var expected := st.linkMessagesSeen + st.addressMessagesSeen + st.routeMessagesSeen;
    && st.msgsReceived == expected + UnexpectedMessages(ops)
    && st.msgsDiscarded == RefusedMessages(cfg, ops)
    && st.seenAttributes + st.unknownAttributes == ParsedAttributes(cfg, ops)
  }

  lemma StepAddsUp(cfg: Config, ops: seq<Op>, op: Op)
    requires AddsUp(cfg, ops, Run(cfg, ops).stats)
    ensures AddsUp(cfg, ops + [op], Run(cfg, ops + [op]).stats)
  {
    hide Run, Step, Refused, ReachesParsing, Known;
    assert (ops + [op])[..|ops|] == ops;
    if op.Handle? {
      MessageCounts(cfg, ops, op.m);
    } else {
      OneMoreOp(cfg, ops, op);
      OtherOpsKeepStatistics(cfg, Run(cfg, ops), op);
    }
  }

  lemma DiscardsAreRefused(cfg: Config, ops: seq<Op>)
    ensures AddsUp(cfg, ops, Run(cfg, ops).stats) ==> Run(cfg, ops).stats.msgsDiscarded == RefusedMessages(cfg, ops)
  {
  }

  lemma {:induction false} StatisticsAddUp(cfg: Config, ops: seq<Op>)
    ensures var st := Run(cfg, ops).stats;
      && AddsUp(cfg, ops, st)
      && st.msgsDiscarded <= st.linkMessagesSeen + st.addressMessagesSeen + st.routeMessagesSeen
  {
    RefusedAtMostExpected(cfg, ops);
    if ops == [] {
    } else {
      hide Run, AddsUp;
      StatisticsAddUp(cfg, ops[..|ops| - 1]);
      StepAddsUp(cfg, ops[..|ops| - 1], ops[|ops| - 1]);
      assert ops == ops[..|ops| - 1] + [ops[|ops| - 1]];
      DiscardsAreRefused(cfg, ops);
    }
  }

  // ----- family confinement -----

  predicate GatewayConfined(cfg: Config, f: Fields) {
    && (f.gateway.Some? ==> f.gateway.value.V4?)
    && (cfg.preferV6 ==> f.gateway == None)
  }

  predicate AddressesConfined(cfg: Config, f: Fields) {
    forall a :: a in f.addresses ==> (cfg.preferV4 ==> a.ip.V4?) && (cfg.preferV6 ==> a.ip.V6?)
  }

  /** The message carries a 16-byte IFA_ADDRESS, which decides the family of the decoded record. */
  predicate CarriesV6(cfg: Config, m: Message)
    requires m.AddressMessage?
  {
    var p := Slot(m.attributes, cfg.ifaMax, IFA_ADDRESS);
    p.Some? && |p.value| == 16
  }

  /** The payload has the preferred family. */
  predicate PayloadPreferred(cfg: Config, m: Message)
    requires m.AddressMessage?
  {
    && (cfg.preferV4 ==> !CarriesV6(cfg, m))
    && (cfg.preferV6 ==> CarriesV6(cfg, m))
  }

  lemma GatewayStaysConfined(cfg: Config, f: Fields, m: Message)
    requires GatewayConfined(cfg, f) && !Decode(cfg, m).Skip? && !Decode(cfg, m).LinkGone?
    ensures GatewayConfined(cfg, Overwritten(f, Decode(cfg, m)))
  {
  }

  /** Whether an operation writes to tracker i. */
  predicate Targets(cfg: Config, op: Op, i: uint32) {
    op.Handle? &&
    var e := Decode(cfg, op.m);
    !e.Skip? && !e.LinkGone? && e.index == i
  }

  /** The data of a tracker after one operation: overwritten by a message about it, otherwise as before. */
  lemma DataAfterStep(cfg: Config, c: Core, op: Op, i: uint32)
    requires i in Step(cfg, c, op).trackers
    ensures var data := Step(cfg, c, op).trackers[i].data;
      if Targets(cfg, op, i) then data == Overwritten(Tracked(c.trackers, i).data, Decode(cfg, op.m))
      else i in c.trackers && data == c.trackers[i].data
  {
    hide Announce, Account, Deliveries, Ascending, Decode, Updated, Overwritten;
    if Targets(cfg, op, i) {
      UpdatedData(Tracked(c.trackers, i), Decode(cfg, op.m));
    }
  }

  /** In every reachable state a gateway is IPv4 if there is one, and under an IPv6 preference there is none. */
  lemma {:induction false} GatewayIsConfined(cfg: Config, ops: seq<Op>, i: uint32)
    requires i in Run(cfg, ops).trackers
    ensures GatewayConfined(cfg, Run(cfg, ops).trackers[i].data)
  {
    hide Step, Decode;
    var before, op := ops[..|ops| - 1], ops[|ops| - 1];
    var c := Run(cfg, before);
    DataAfterStep(cfg, c, op, i);
    if i in c.trackers {
      GatewayIsConfined(cfg, before, i);
    }
    if Targets(cfg, op, i) {
      GatewayStaysConfined(cfg, Tracked(c.trackers, i).data, op.m);
    }
  }

  /**
   One accepted NEWADDR keeps the tracked records within the preferred family exactly when its
   payload has that family: the header alone does not decide.
   */
  lemma AdditionConfinedIff(cfg: Config, f: Fields, m: Message)
    requires AddressesConfined(cfg, f) && m.AddressMessage? && !m.deleted
    requires FamilyAccepted(cfg, m.family)
    ensures AddressesConfined(cfg, Overwritten(f, Decode(cfg, m))) <==> PayloadPreferred(cfg, m)
  {
    var a := DecodeAddress(cfg, m);
    var f' := Overwritten(f, Decode(cfg, m));
    assert a in f'.addresses;
    assert forall x :: x in f'.addresses ==> x in f.addresses || x == a;
    assert a.ip.V6? <==> CarriesV6(cfg, m);
  }

  /** No other effect puts a record into a tracker. */
  lemma OthersStayConfined(cfg: Config, f: Fields, e: Effect)
    requires AddressesConfined(cfg, f) && !e.AddressNew?
    ensures AddressesConfined(cfg, Overwritten(f, e))
  {
  }

  /** The message is a NEWADDR that the monitor accepts: its index is tracked and its header has a wanted family. */
  predicate AcceptedAddition(cfg: Config, tracked: set<uint32>, op: Op) {
    && op.Handle? && op.m.AddressMessage? && !op.m.deleted
    && op.m.ifaIndex in tracked && FamilyAccepted(cfg, op.m.family)
  }

  predicate AdditionPreferred(cfg: Config, tracked: set<uint32>, op: Op) {
    AcceptedAddition(cfg, tracked, op) ==> PayloadPreferred(cfg, op.m)
  }

  ghost predicate CacheConfined(cfg: Config, c: Core) {
    forall i :: i in c.trackers ==> AddressesConfined(cfg, c.trackers[i].data)
  }

  lemma AcceptedAdditionTargets(cfg: Config, c: Core, op: Op)
    requires AcceptedAddition(cfg, c.trackers.Keys, op)
    ensures Targets(cfg, op, op.m.ifaIndex) && op.m.ifaIndex in Step(cfg, c, op).trackers
  {
    hide Announce, Account, Updated, DecodeAddress;
  }

  /** An operation that writes to a tracker without being an accepted addition leaves it confined. */
  lemma OtherTargetsStayConfined(cfg: Config, c: Core, op: Op, i: uint32)
    requires i in Step(cfg, c, op).trackers && Targets(cfg, op, i)
    requires !AcceptedAddition(cfg, c.trackers.Keys, op) && AddressesConfined(cfg, Tracked(c.trackers, i).data)
    ensures AddressesConfined(cfg, Overwritten(Tracked(c.trackers, i).data, Decode(cfg, op.m)))
  {
    hide Announce, Account, Updated, DecodeAddress, AddressesConfined, Overwritten;
    OthersStayConfined(cfg, Tracked(c.trackers, i).data, Decode(cfg, op.m));
  }

  lemma FreshIsConfined(cfg: Config)
    ensures AddressesConfined(cfg, FRESH_TRACKER.data)
  {
  }

  lemma StepStaysConfined(cfg: Config, c: Core, op: Op, i: uint32)
    requires CacheConfined(cfg, c) && AdditionPreferred(cfg, c.trackers.Keys, op)
    requires i in Step(cfg, c, op).trackers
    ensures AddressesConfined(cfg, Step(cfg, c, op).trackers[i].data)
  {
    hide Step, Decode, AddressesConfined, Overwritten;
    DataAfterStep(cfg, c, op, i);
    if Targets(cfg, op, i) {
      var f := Tracked(c.trackers, i).data;
      FreshIsConfined(cfg);
      if AcceptedAddition(cfg, c.trackers.Keys, op) {
        AdditionConfinedIff(cfg, f, op.m);
      } else {
        OtherTargetsStayConfined(cfg, c, op, i);
      }
    }
  }

  lemma StepConfinedIff(cfg: Config, c: Core, op: Op)
    requires CacheConfined(cfg, c)
    ensures CacheConfined(cfg, Step(cfg, c, op)) <==> AdditionPreferred(cfg, c.trackers.Keys, op)
  {
    hide Step, Decode, AddressesConfined, Overwritten, PayloadPreferred;
    if AdditionPreferred(cfg, c.trackers.Keys, op) {
      forall i | i in Step(cfg, c, op).trackers
        ensures AddressesConfined(cfg, Step(cfg, c, op).trackers[i].data)
      {
        StepStaysConfined(cfg, c, op, i);
      }
    } else {
      var i := op.m.ifaIndex;
      AcceptedAdditionTargets(cfg, c, op);
      DataAfterStep(cfg, c, op, i);
      AdditionConfinedIff(cfg, c.trackers[i].data, op.m);
    }
  }

  /** In every state of the run, from the start to the end, every tracked record has the preferred family. */
  ghost predicate ConfinedThroughout(cfg: Config, ops: seq<Op>) {
    forall k :: 0 <= k <= |ops| ==> CacheConfined(cfg, Run(cfg, ops[..k]))
  }

  /** Every NEWADDR accepted in the run carries a payload of the preferred family. */
  ghost predicate AdditionsPreferred(cfg: Config, ops: seq<Op>) {
    forall k :: 0 <= k < |ops| ==> AdditionPreferred(cfg, Run(cfg, ops[..k]).trackers.Keys, ops[k])
  }

  lemma ConfinedPrefix(cfg: Config, ops: seq<Op>)
    requires ops != []
    ensures ConfinedThroughout(cfg, ops)
      <==> ConfinedThroughout(cfg, ops[..|ops| - 1]) && CacheConfined(cfg, Run(cfg, ops))
  {
    hide CacheConfined, Run;
    var n := |ops| - 1;
    assert ops[..n + 1] == ops;
    assert forall k :: 0 <= k <= n ==> ops[..n][..k] == ops[..k];
  }

  lemma PreferredPrefix(cfg: Config, ops: seq<Op>)
    requires ops != []
    ensures AdditionsPreferred(cfg, ops)
      <==> AdditionsPreferred(cfg, ops[..|ops| - 1])
           && AdditionPreferred(cfg, Run(cfg, ops[..|ops| - 1]).trackers.Keys, ops[|ops| - 1])
  {
    hide AdditionPreferred, Run;
    var n := |ops| - 1;
    assert forall k :: 0 <= k < n ==> ops[..n][..k] == ops[..k] && ops[..n][k] == ops[k];
  }

  /**
   The family preference, over whole runs: every state of a run keeps every tracked record within
   the preferred family if and only if every NEWADDR accepted in it carries a payload of that family.
   */
  lemma {:induction false} ConfinedIff(cfg: Config, ops: seq<Op>)
    ensures ConfinedThroughout(cfg, ops) <==> AdditionsPreferred(cfg, ops)
  {
    hide Step, AdditionPreferred;
    if ops == [] {
      assert Run(cfg, ops[..0]) == INITIAL_CORE;
    } else {
      var before := ops[..|ops| - 1];
      ConfinedIff(cfg, before);
      ConfinedPrefix(cfg, ops);
      PreferredPrefix(cfg, ops);
      if ConfinedThroughout(cfg, before) {
        assert before[..|before|] == before;
        StepConfinedIff(cfg, Run(cfg, before), ops[|ops| - 1]);
      }
    }
  }

  /** The header's family and the payload agree, as the kernel sends them. */
  predicate WellFormed(cfg: Config, m: Message) {
    m.AddressMessage? ==> (m.family == AF_INET6 <==> CarriesV6(cfg, m))
  }

  /** Every address message of the run is well formed. */
  ghost predicate AllWellFormed(cfg: Config, ops: seq<Op>) {
    forall k :: 0 <= k < |ops| && ops[k].Handle? ==> WellFormed(cfg, ops[k].m)
  }

  /** With well-formed messages every tracked record has the preferred family, in every reachable state. */
  lemma AddressesAreConfined(cfg: Config, ops: seq<Op>, i: uint32)
    requires AllWellFormed(cfg, ops) && i in Run(cfg, ops).trackers
    ensures AddressesConfined(cfg, Run(cfg, ops).trackers[i].data)
  {
    hide Run, AddressesConfined, CarriesV6;
    ConfinedIff(cfg, ops);
    assert AdditionsPreferred(cfg, ops);
    assert ops[..|ops|] == ops;
  }

  lemma FirstLinkIsTracked(cfg: Config, link: Op)
    requires link == Handle(LinkMessage(false, 1, ARPHRD_ETHER, 0, []))
    ensures 1 in Run(cfg, [link]).trackers
  {
    hide Account, Announce;
    OneMoreOp(cfg, [], link);
    assert [] + [link] == [link];
  }

  /**
   The header alone does not confine: under an IPv6 preference, one interface and one NEWADDR with an
   IPv6 header and no payload put the IPv4 record 0.0.0.0 into the tracker, whatever the table sizes.
   */
  lemma ConfinementFails(iflaMax: uint16, ifaMax: uint16, rtaMax: uint16)
    ensures var cfg := Config(false, true, false, iflaMax, ifaMax, rtaMax);
      !ConfinedThroughout(cfg, [Handle(LinkMessage(false, 1, ARPHRD_ETHER, 0, [])),
                                Handle(AddressMessage(false, 1, AF_INET6, 64, 0, 0, []))])
  {
    var cfg := Config(false, true, false, iflaMax, ifaMax, rtaMax);
    var link, address := Handle(LinkMessage(false, 1, ARPHRD_ETHER, 0, [])),
      Handle(AddressMessage(false, 1, AF_INET6, 64, 0, 0, []));
    var ops := [link, address];
    ConfinedIff(cfg, ops);
    FirstLinkIsTracked(cfg, link);
    assert ops[..1] == [link] && ops[1] == address;
    assert !AdditionPreferred(cfg, Run(cfg, ops[..1]).trackers.Keys, ops[1]);
  }
}
