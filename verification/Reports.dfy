/**
 Which callbacks a subscriber gets, and which it does not: stated on the part of its log that an operation
 adds, and on the bits of the trackers, for every run.
 */
module Reports {
  import opened Types
  import opened FlagSets
  import opened Trackers
  import opened Messages
  import opened Caches
  import opened Subscriptions

  // ----- what a callback tells -----

  /** The field a callback reports; lifecycle callbacks report none. */
  function KindOf(change: Change): Option<ChangedFlag> {
    match change
    case NameChanged => Some(NameFlag)
    case LinkFlagsChanged(_) => Some(LinkFlagsFlag)
    case OperationalStateChanged(_) => Some(OperationalStateFlag)
    case AddressesChanged(_) => Some(NetworkAddressesFlag)
    case GatewayChanged(_) => Some(GatewayAddressFlag)
    case MacChanged(_) => Some(MacAddressFlag)
    case BroadcastChanged(_) => Some(BroadcastAddressFlag)
    case Added => None
    case Removed => None
  }

  /** The callback that tells one field of an interface as it is. */
  function Telling(i: uint32, d: Fields, flag: ChangedFlag): Event {
    Event(i, d.name,
          match flag
          case NameFlag => NameChanged
          case LinkFlagsFlag => LinkFlagsChanged(d.linkFlags)
          case OperationalStateFlag => OperationalStateChanged(d.operationalState)
          case MacAddressFlag => MacChanged(d.mac)
          case BroadcastAddressFlag => BroadcastChanged(d.broadcast)
          case GatewayAddressFlag => GatewayChanged(d.gateway)
          case NetworkAddressesFlag => AddressesChanged(d.addresses))
  }

  /** The callback reports a field of a tracked interface, under its name and with its value. */
  predicate TellsTruth(ev: Event, c: Cache) {
    && ev.index in c && KindOf(ev.change).Some?
    && ev == Telling(ev.index, c[ev.index].data, KindOf(ev.change).value)
  }

  predicate Reporting(ev: Event, i: uint32, flag: ChangedFlag) {
    ev.index == i && KindOf(ev.change) == Some(flag)
  }

  /** How many of the callbacks report this field of interface i. */
  function Told(log: seq<Event>, i: uint32, flag: ChangedFlag): nat {
    if log == [] then 0
    else Told(log[..|log| - 1], i, flag) + if Reporting(log[|log| - 1], i, flag) then 1 else 0
  }

  /** The order of the seven conditions in the source. */
  function Place(flag: ChangedFlag): nat {
    match flag
    case NameFlag => 0
    case OperationalStateFlag => 1
    case NetworkAddressesFlag => 2
    case GatewayAddressFlag => 3
    case MacAddressFlag => 4
    case BroadcastAddressFlag => 5
    case LinkFlagsFlag => 6
  }

  /** Interfaces by index, and the fields of one interface in the order above. */
  predicate Precedes(a: Event, b: Event) {
    && KindOf(a.change).Some? && KindOf(b.change).Some?
    && (a.index < b.index
        || (a.index == b.index && Place(KindOf(a.change).value) < Place(KindOf(b.change).value)))
  }

  predicate InOrder(log: seq<Event>) {
    forall a, b :: 0 <= a < b < |log| ==> Precedes(log[a], log[b])
  }

  lemma {:induction false} ToldConcat(a: seq<Event>, b: seq<Event>, i: uint32, flag: ChangedFlag)
    ensures Told(a + b, i, flag) == Told(a, i, flag) + Told(b, i, flag)
  {
    hide Reporting;
    if b == [] {
      assert a + b == a;
    } else {
      ToldConcat(a, b[..|b| - 1], i, flag);
      assert (a + b)[..|a + b| - 1] == a + b[..|b| - 1];
    }
  }

  // ----- the report of one tracker -----

  /** Callbacks about interface i only, in order, at places from lo up to hi, all of them true. */
  ghost predicate Placed(log: seq<Event>, i: uint32, d: Fields, lo: nat, hi: nat) {
    && InOrder(log)
    && forall ev :: ev in log ==>
         ev.index == i && KindOf(ev.change).Some? && ev == Telling(i, d, KindOf(ev.change).value)
         && lo <= Place(KindOf(ev.change).value) < hi
  }

  lemma PlacedConcat(a: seq<Event>, b: seq<Event>, i: uint32, d: Fields, lo: nat, mid: nat, hi: nat)
    requires Placed(a, i, d, lo, mid) && Placed(b, i, d, mid, hi) && lo <= mid <= hi
    ensures Placed(a + b, i, d, lo, hi)
  {
    hide KindOf, Place, Telling;
    forall x, y | 0 <= x < y < |a + b|
      ensures Precedes((a + b)[x], (a + b)[y])
    {
      if x < |a| <= y {
        assert (a + b)[x] in a && (a + b)[y] in b;
      }
    }
  }

  /** One condition of a report. */
  lemma OptionalTells(due: bool, i: uint32, d: Fields, flag: ChangedFlag, j: uint32, other: ChangedFlag)
    ensures var events := Optional(due, i, d.name, Telling(i, d, flag).change);
      && Told(events, j, other) == (if due && j == i && other == flag then 1 else 0)
      && Placed(events, i, d, Place(flag), Place(flag) + 1)
  {
    var events := Optional(due, i, d.name, Telling(i, d, flag).change);
    if due {
      assert events[..0] == [];
    }
  }

  function Flagged(flag: ChangedFlag, b1: bool, b2: bool, b3: bool, b4: bool, b5: bool, b6: bool, b7: bool): bool {
    match flag
    case NameFlag => b1
    case OperationalStateFlag => b2
    case NetworkAddressesFlag => b3
    case GatewayAddressFlag => b4
    case MacAddressFlag => b5
    case BroadcastAddressFlag => b6
    case LinkFlagsFlag => b7
  }

  lemma ReportTells(i: uint32, d: Fields, b1: bool, b2: bool, b3: bool, b4: bool, b5: bool, b6: bool, b7: bool,
                    j: uint32, flag: ChangedFlag)
    ensures var events := Report(i, d, b1, b2, b3, b4, b5, b6, b7);
      && Told(events, j, flag) == (if j == i && Flagged(flag, b1, b2, b3, b4, b5, b6, b7) then 1 else 0)
      && Placed(events, i, d, 0, 7)
  {
    hide Told, Placed, Optional;
    var o1 := Optional(b1, i, d.name, NameChanged);
    OptionalTells(b1, i, d, NameFlag, j, flag);
    var o2 := Optional(b2, i, d.name, OperationalStateChanged(d.operationalState));
    OptionalTells(b2, i, d, OperationalStateFlag, j, flag);
    PlacedConcat(o1, o2, i, d, 0, 1, 2);
    ToldConcat(o1, o2, j, flag);
    var o3 := Optional(b3, i, d.name, AddressesChanged(d.addresses));
    OptionalTells(b3, i, d, NetworkAddressesFlag, j, flag);
    PlacedConcat(o1 + o2, o3, i, d, 0, 2, 3);
    ToldConcat(o1 + o2, o3, j, flag);
    var o4 := Optional(b4, i, d.name, GatewayChanged(d.gateway));
    OptionalTells(b4, i, d, GatewayAddressFlag, j, flag);
    PlacedConcat(o1 + o2 + o3, o4, i, d, 0, 3, 4);
    ToldConcat(o1 + o2 + o3, o4, j, flag);
    var o5 := Optional(b5, i, d.name, MacChanged(d.mac));
    OptionalTells(b5, i, d, MacAddressFlag, j, flag);
    PlacedConcat(o1 + o2 + o3 + o4, o5, i, d, 0, 4, 5);
    ToldConcat(o1 + o2 + o3 + o4, o5, j, flag);
    var o6 := Optional(b6, i, d.name, BroadcastChanged(d.broadcast));
    OptionalTells(b6, i, d, BroadcastAddressFlag, j, flag);
    PlacedConcat(o1 + o2 + o3 + o4 + o5, o6, i, d, 0, 5, 6);
    ToldConcat(o1 + o2 + o3 + o4 + o5, o6, j, flag);
    var o7 := Optional(b7, i, d.name, LinkFlagsChanged(d.linkFlags));
    OptionalTells(b7, i, d, LinkFlagsFlag, j, flag);
    PlacedConcat(o1 + o2 + o3 + o4 + o5 + o6, o7, i, d, 0, 6, 7);
    ToldConcat(o1 + o2 + o3 + o4 + o5 + o6, o7, j, flag);
  }

  lemma DueTells(i: uint32, t: TrackerState, force: bool, j: uint32, flag: ChangedFlag)
    ensures var events := Due(i, t, force);
      && Told(events, j, flag) == (if j == i && (force || t.changed[Index(flag)]) then 1 else 0)
      && Placed(events, i, t.data, 0, 7)
  {
    hide Told, Placed, Report;
    ReportTells(i, t.data, IsDue(t, NameFlag, force), IsDue(t, OperationalStateFlag, force),
                IsDue(t, NetworkAddressesFlag, force), IsDue(t, GatewayAddressFlag, force),
                IsDue(t, MacAddressFlag, force), IsDue(t, BroadcastAddressFlag, force),
                IsDue(t, LinkFlagsFlag, force), j, flag);
  }

  // ----- the report of many trackers -----

  /** True, in order, and about the given interfaces only. */
  ghost predicate Honest(log: seq<Event>, c: Cache, keys: seq<uint32>) {
    InOrder(log) && forall ev :: ev in log ==> TellsTruth(ev, c) && ev.index in keys
  }

  lemma HonestConcat(log: seq<Event>, events: seq<Event>, c: Cache, keys: seq<uint32>, i: uint32)
    requires Honest(log, c, keys) && i in c && Placed(events, i, c[i].data, 0, 7)
    requires forall k :: k in keys ==> k < i
    ensures Honest(log + events, c, keys + [i])
  {
    hide KindOf, Place, Telling;
    forall x, y | 0 <= x < y < |log + events|
      ensures Precedes((log + events)[x], (log + events)[y])
    {
      if x < |log| <= y {
        assert (log + events)[x] in log && (log + events)[y] in events;
      }
    }
  }

  lemma HonestAbout(log: seq<Event>, c: Cache, keys: seq<uint32>, more: seq<uint32>)
    requires Honest(log, c, keys) && forall k :: k in keys ==> k in more
    ensures Honest(log, c, more)
  {
  }

  function ToldOf(c: Cache, keys: seq<uint32>, interfaces: set<uint32>, force: bool, i: uint32, flag: ChangedFlag): nat
  {
    if i in keys && i in interfaces && i in c && (force || c[i].changed[Index(flag)]) then 1 else 0
  }

  lemma OneMoreTells(events: seq<Event>, c: Cache, before: seq<uint32>, k: uint32, interfaces: set<uint32>, force: bool,
                     i: uint32, flag: ChangedFlag)
    requires Honest(events, c, before) && Told(events, i, flag) == ToldOf(c, before, interfaces, force, i, flag)
    requires k in c && forall x :: x in before ==> x < k
    ensures var all := events + if k in interfaces then Due(k, c[k], force) else [];
      && Honest(all, c, before + [k])
      && Told(all, i, flag) == ToldOf(c, before + [k], interfaces, force, i, flag)
  {
    hide Told, Honest, Placed, Due;
    if k in interfaces {
      DueTells(k, c[k], force, i, flag);
      ToldConcat(events, Due(k, c[k], force), i, flag);
      HonestConcat(events, Due(k, c[k], force), c, before, k);
    } else {
      assert events + [] == events;
      HonestAbout(events, c, before, before + [k]);
    }
  }

  lemma {:induction false} DeliveriesTell(keys: seq<uint32>, c: Cache, interfaces: set<uint32>, force: bool,
                                          i: uint32, flag: ChangedFlag)
    requires StrictlyAscending(keys) && forall k :: k in keys ==> k in c
    ensures var events := Deliveries(keys, c, interfaces, force);
      && Told(events, i, flag) == ToldOf(c, keys, interfaces, force, i, flag)
      && Honest(events, c, keys)
  {
    if keys == [] {
    } else {
      hide Told, Honest, ToldOf, Due;
      var n := |keys| - 1;
      var before, k := keys[..n], keys[n];
      assert keys == before + [k];
      DeliveriesTell(before, c, interfaces, force, i, flag);
      OneMoreTells(Deliveries(before, c, interfaces, force), c, before, k, interfaces, force, i, flag);
    }
  }

  // ----- the regular sweep -----

  /** What the sweep at the end of a run adds to the log of a subscriber. */
  lemma SweepNews(c: Core, s: SubscriberId) returns (news: seq<Event>)
    ensures NotifyChanges(c).Log(s) == c.Log(s) + news
    ensures news == if s in c.subscribers
                    then Deliveries(Ascending(c.trackers.Keys), c.trackers, c.subscribers[s].Keys, false) else []
  {
    hide Deliveries, Ascending, FlagsCleared;
    news := if s in c.subscribers
            then Deliveries(Ascending(c.trackers.Keys), c.trackers, c.subscribers[s].Keys, false) else [];
    assert c.Log(s) + [] == c.Log(s);
  }

  lemma NothingTold()
    ensures InOrder([])
  {
  }

  /** The field is due: s is subscribed to a tracked interface i, and the bit of the field stands. */
  predicate Stands(c: Core, s: SubscriberId, i: uint32, flag: ChangedFlag) {
    s in c.subscribers && i in c.subscribers[s] && i in c.trackers && c.trackers[i].changed[Index(flag)]
  }

  /**
   A sweep tells a subscriber what changed, and nothing else: of each tracked interface it subscribes
   to, each field whose bit stands is reported exactly once and each other field not at all; of no other
   interface anything; each callback carries the name and the value of the moment; and they come
   by index, then in the fixed order of the fields. Whoever is not subscribed hears nothing.
   */
  lemma SweepTellsWhatChanged(cfg: Config, ops: seq<Op>, s: SubscriberId) returns (news: seq<Event>)
    ensures Run(cfg, ops + [Notify]).Log(s) == Run(cfg, ops).Log(s) + news
    ensures InOrder(news) && forall ev :: ev in news ==> TellsTruth(ev, Run(cfg, ops).trackers)
    ensures forall i: uint32, flag: ChangedFlag ::
      Told(news, i, flag) == if Stands(Run(cfg, ops), s, i, flag) then 1 else 0
  {
    hide Run, InOrder, TellsTruth, Deliveries, Ascending, NotifyChanges;
    var c := Run(cfg, ops);
    var keys := Ascending(c.trackers.Keys);
    OneMoreOp(cfg, ops, Notify);
    news := SweepNews(c, s);
    if s in c.subscribers {
      forall i: uint32, flag: ChangedFlag
        ensures Told(news, i, flag) == if Stands(c, s, i, flag) then 1 else 0
      {
        DeliveriesTell(keys, c.trackers, c.subscribers[s].Keys, false, i, flag);
      }
      DeliveriesTell(keys, c.trackers, c.subscribers[s].Keys, false, 0, NameFlag);
    } else {
      NothingTold();
    }
  }

  /** A sweep takes every flag of every tracker down, unless nobody is subscribed: then every flag stays. */
  lemma SweepClearsFlags(cfg: Config, ops: seq<Op>)
    ensures var c, c' := Run(cfg, ops), Run(cfg, ops + [Notify]);
      && c'.trackers.Keys == c.trackers.Keys && c'.subscribers == c.subscribers
      && (forall i :: i in c.trackers ==> c'.trackers[i].data == c.trackers[i].data)
      && (forall i, flag: ChangedFlag :: i in c.trackers ==>
            (c'.trackers[i].changed[Index(flag)] <==> c.subscribers == map[] && c.trackers[i].changed[Index(flag)]))
  {
    hide Run, SweepFor, Ascending, Count;
    OneMoreOp(cfg, ops, Notify);
  }

  // ----- subscribing -----

  /** The operation gives s these interfaces: a subscription, or an update while s is subscribed. */
  predicate Chooses(op: Op, s: SubscriberId, interfaces: Interfaces, subscribed: bool) {
    && interfaces != map[]
    && (op == Subscribe(s, interfaces) || (op == UpdateSubscription(Some(s), interfaces) && subscribed))
  }

  lemma ReportNews(c: Core, s: SubscriberId, interfaces: Interfaces, r: SubscriberId)
    ensures var c' := NotifyFully(c, s, interfaces);
      && c'.trackers == c.trackers && c'.subscribers == c.subscribers
      && c'.Log(r) == if r == s
                      then c.Log(s) + Deliveries(Ascending(c.trackers.Keys), c.trackers, interfaces.Keys, true)
                      else c.Log(r)
  {
    hide Deliveries, Ascending;
  }

  /**
   A new or changed subscription is told all seven fields of every tracked interface in it, each exactly
   once, and of no other interface anything. Nobody else hears of it, and no tracker changes, flags included.
   */
  lemma ChoosingTellsAll(cfg: Config, ops: seq<Op>, op: Op, s: SubscriberId, interfaces: Interfaces)
    returns (news: seq<Event>)
    requires Chooses(op, s, interfaces, s in Run(cfg, ops).subscribers)
    ensures Run(cfg, ops + [op]).Log(s) == Run(cfg, ops).Log(s) + news
    ensures InOrder(news) && forall ev :: ev in news ==> TellsTruth(ev, Run(cfg, ops).trackers)
    ensures forall i: uint32, flag: ChangedFlag ::
      Told(news, i, flag) == if i in interfaces && i in Run(cfg, ops).trackers then 1 else 0
    ensures forall r :: r != s ==> Run(cfg, ops + [op]).Log(r) == Run(cfg, ops).Log(r)
    ensures Run(cfg, ops + [op]).trackers == Run(cfg, ops).trackers
    ensures Run(cfg, ops + [op]).subscribers == Run(cfg, ops).subscribers[s := interfaces]
  {
    hide Run, InOrder, TellsTruth, Deliveries, Ascending, NotifyFully;
    var c := Run(cfg, ops);
    OneMoreOp(cfg, ops, op);
    var chosen := c.(subscribers := c.subscribers[s := interfaces]);
    forall r
      ensures NotifyFully(chosen, s, interfaces).Log(r) ==
        if r == s then c.Log(s) + Deliveries(Ascending(c.trackers.Keys), c.trackers, interfaces.Keys, true)
        else c.Log(r)
    {
      ReportNews(chosen, s, interfaces, r);
    }
    ReportNews(chosen, s, interfaces, s);
    news := Deliveries(Ascending(c.trackers.Keys), c.trackers, interfaces.Keys, true);
    forall i: uint32, flag: ChangedFlag
      ensures Told(news, i, flag) == if i in interfaces && i in c.trackers then 1 else 0
    {
      DeliveriesTell(Ascending(c.trackers.Keys), c.trackers, interfaces.Keys, true, i, flag);
    }
    DeliveriesTell(Ascending(c.trackers.Keys), c.trackers, interfaces.Keys, true, 0, NameFlag);
  }

  /** Every other subscription call tells nobody anything and touches no tracker. */
  lemma OtherCallsTellNothing(cfg: Config, ops: seq<Op>, op: Op)
    requires !op.Handle? && !op.Notify?
    requires forall s, interfaces :: !Chooses(op, s, interfaces, s in Run(cfg, ops).subscribers)
    ensures var c, c' := Run(cfg, ops), Run(cfg, ops + [op]);
      c'.trackers == c.trackers && c'.logs == c.logs && c'.stats == c.stats
  {
    hide Run;
    var c := Run(cfg, ops);
    OneMoreOp(cfg, ops, op);
    match op
    case Subscribe(s, interfaces) => assert !Chooses(op, s, interfaces, s in c.subscribers);
    case UpdateSubscription(to, interfaces) =>
      if to.Some? {
        assert !Chooses(op, to.value, interfaces, to.value in c.subscribers);
      }
    case Unsubscribe(_) =>
  }
}
