/**
 The theorems about runs, read off a live monitor object and its trackers.
 */
module LiveMonitors {
  import opened Types
  import opened FlagSets
  import opened Trackers
  import opened Messages
  import opened Caches
  import opened Subscriptions
  import opened Mirrors
  import opened DumpProtocol
  import opened NetworkMonitors

  // ----- every tracker of a run is the outcome of calls on it -----

  function PerformAll(t: TrackerState, calls: seq<Call>): TrackerState
    decreases |calls|
  {
    if calls == [] then t else PerformAll(Perform(t, calls[0]), calls[1..])
  }

  function MaybeCall<T>(o: Option<T>, call: T -> Call): seq<Call> {
    if o.Some? then [call(o.value)] else []
  }

  /** The tracker calls a decoded message makes. */
  function CallsFor(e: Effect): seq<Call>
    requires !e.Skip? && !e.LinkGone?
  {
    match e
    case LinkNew(_, name, flags, state, mac, broadcast) =>
      MaybeCall(name, n => NameCall(n)) + ([LinkFlagsCall(flags)] + (MaybeCall(state, s => OperationalStateCall(s))
        + (MaybeCall(mac, m => MacCall(m)) + MaybeCall(broadcast, b => BroadcastCall(b)))))
    case AddressNew(_, name, a) => MaybeCall(name, n => NameCall(n)) + [AddCall(a)]
    case AddressGone(_, name, a) => MaybeCall(name, n => NameCall(n)) + [RemoveCall(a)]
    case GatewayNew(_, ip) => [GatewayCall(ip)]
    case GatewayGone(_) => [ClearGatewayCall]
  }

  lemma {:induction false} PerformConcat(t: TrackerState, a: seq<Call>, b: seq<Call>)
    ensures PerformAll(t, a + b) == PerformAll(PerformAll(t, a), b)
    decreases |a|
  {
    hide Perform;
    if a == [] {
      assert a + b == b;
    } else {
      assert (a + b)[1..] == a[1..] + b;
      PerformConcat(Perform(t, a[0]), a[1..], b);
    }
  }

  lemma PerformOne(t: TrackerState, call: Call)
    ensures PerformAll(t, [call]) == Perform(t, call)
  {
    hide Perform;
    assert PerformAll(Perform(t, call), []) == Perform(t, call);
  }

  lemma PerformMaybe<T>(t: TrackerState, o: Option<T>, call: T -> Call)
    ensures PerformAll(t, MaybeCall(o, call)) == if o.Some? then Perform(t, call(o.value)) else t
  {
    hide Perform;
    if o.Some? {
      PerformOne(t, call(o.value));
    }
  }

  lemma CallsForLink(t: TrackerState, e: Effect)
    requires e.LinkNew?
    ensures PerformAll(t, CallsFor(e)) == UpdatedLink(t, e)
  {
    hide PerformAll, WithName, WithLinkFlags, WithOperationalState, WithMac, WithBroadcast;
    var c1, c3 := MaybeCall(e.name, n => NameCall(n)), MaybeCall(e.state, s => OperationalStateCall(s));
    var c4, c5 := MaybeCall(e.mac, m => MacCall(m)), MaybeCall(e.broadcast, b => BroadcastCall(b));
    var t1 := NamedBy(t, e.name);
    PerformMaybe(t, e.name, n => NameCall(n));
    PerformConcat(t, c1, [LinkFlagsCall(e.flags)] + (c3 + (c4 + c5)));
    var t2 := WithLinkFlags(t1, e.flags);
    PerformOne(t1, LinkFlagsCall(e.flags));
    PerformConcat(t1, [LinkFlagsCall(e.flags)], c3 + (c4 + c5));
    var t3 := if e.state.Some? then WithOperationalState(t2, e.state.value) else t2;
    PerformMaybe(t2, e.state, s => OperationalStateCall(s));
    PerformConcat(t2, c3, c4 + c5);
    var t4 := if e.mac.Some? then WithMac(t3, e.mac.value) else t3;
    PerformMaybe(t3, e.mac, m => MacCall(m));
    PerformConcat(t3, c4, c5);
    PerformMaybe(t4, e.broadcast, b => BroadcastCall(b));
  }

  lemma CallsForEffect(t: TrackerState, e: Effect)
    requires !e.Skip? && !e.LinkGone?
    ensures PerformAll(t, CallsFor(e)) == Updated(t, e)
  {
    hide PerformAll, UpdatedLink, AddressAdded, AddressRemoved, WithName, WithGateway, GatewayCleared;
    match e
    case LinkNew(_, _, _, _, _, _) => CallsForLink(t, e);
    case AddressNew(_, name, a) =>
      PerformMaybe(t, name, n => NameCall(n));
      PerformConcat(t, MaybeCall(name, n => NameCall(n)), [AddCall(a)]);
      PerformOne(NamedBy(t, name), AddCall(a));
    case AddressGone(_, name, a) =>
      PerformMaybe(t, name, n => NameCall(n));
      PerformConcat(t, MaybeCall(name, n => NameCall(n)), [RemoveCall(a)]);
      PerformOne(NamedBy(t, name), RemoveCall(a));
    case GatewayNew(_, ip) => PerformOne(t, GatewayCall(ip));
    case GatewayGone(_) => PerformOne(t, ClearGatewayCall);
  }

  lemma {:induction false} AfterCallsConcat(a: seq<Call>, b: seq<Call>)
    ensures AfterCalls(a + b) == PerformAll(AfterCalls(a), b)
    decreases |b|
  {
    hide Perform;
    if b == [] {
      assert a + b == a;
    } else {
      OneMoreCall(a, b[0]);
      AfterCallsConcat(a + [b[0]], b[1..]);
      assert a + b == a + [b[0]] + b[1..];
    }
  }

  lemma ClearingIsACall(t: TrackerState)
    ensures PerformAll(t, [ClearFlagsCall]) == FlagsCleared(t)
  {
    PerformOne(t, ClearFlagsCall);
  }

  /** What one operation does to a tracker that is there afterwards: a fresh start or the old state, then calls. */
  lemma CallsOfStep(cfg: Config, c: Core, op: Op, i: uint32) returns (calls: seq<Call>)
    requires i in Step(cfg, c, op).trackers
    ensures Step(cfg, c, op).trackers[i] == PerformAll(Tracked(c.trackers, i), calls)
  {
    hide Perform, Updated, Announce, Account, Deliveries, Ascending, Decode, CallsFor;
    calls := [];
    if op.Handle? {
      var e := Decode(cfg, op.m);
      if !e.Skip? && !e.LinkGone? && e.index == i {
        calls := CallsFor(e);
        CallsForEffect(Tracked(c.trackers, i), e);
      }
    } else if op.Notify? && c.subscribers != map[] {
      calls := [ClearFlagsCall];
      ClearingIsACall(Tracked(c.trackers, i));
    }
  }

  lemma FreshIsEmptyRun()
    ensures AfterCalls([]) == FRESH_TRACKER
  {
  }

  /** So everything proved of calls on a tracker holds of every tracker of every run. */
  lemma {:induction false} TrackersAreRuns(cfg: Config, ops: seq<Op>, i: uint32) returns (calls: seq<Call>)
    requires i in Run(cfg, ops).trackers
    ensures Run(cfg, ops).trackers[i] == AfterCalls(calls)
  {
    hide Step, AfterCalls;
    var before, op := ops[..|ops| - 1], ops[|ops| - 1];
    var c := Run(cfg, before);
    var earlier: seq<Call> := [];
    FreshIsEmptyRun();
    if i in c.trackers {
      earlier := TrackersAreRuns(cfg, before, i);
    }
    var more := CallsOfStep(cfg, c, op, i);
    AfterCallsConcat(earlier, more);
    calls := earlier + more;
  }

  // ----- a live monitor -----

  /** The mirror of every subscriber of a live monitor is faithful. */
  lemma LiveMirrorIsFaithful(m: NetworkMonitor, s: SubscriberId, i: uint32)
    requires m.Valid()
    ensures Faithful(m.CoreState(), s, i)
  {
    hide Run;
    MirrorIsFaithful(m.cfg, m.history, s, i);
  }

  /** The data a live monitor holds are those its messages decide. */
  lemma LiveCacheIsHistory(m: NetworkMonitor)
    requires m.Valid()
    ensures DataOf(m.Cached()) == Fold(map[], Effects(m.cfg, m.history))
  {
    hide Run;
    CacheIsHistory(m.cfg, m.history);
  }

  /** Flags and address counters of every tracker of a live monitor balance. */
  lemma LiveTrackersBalance(m: NetworkMonitor, i: uint32)
    requires m.Valid() && i in m.trackers
    ensures var t := m.trackers[i].View();
      && t.counters.flagChanges == t.counters.flagClears + Count(t.changed)
      && (t.counters.flagChanges > t.counters.flagClears <==> m.trackers[i].HasChanges())
      && |t.data.addresses| + t.counters.addressesRemoved == t.counters.addressesAdded
  {
    hide Run, AfterCalls, Count;
    assert m.trackers[i].View() == m.CoreState().trackers[i];
    var calls := TrackersAreRuns(m.cfg, m.history, i);
    FlagConservation(calls);
    AddressAccounting(calls);
  }

  /** A live monitor that has finished enumerating has sent its three dumps and their retries, in order. */
  lemma LiveEnumerationShape(m: NetworkMonitor) returns (a: nat, b: nat)
    requires m.Valid() && !m.aborted && m.cacheState == WaitingForChanges
    ensures 0 < a < b < |m.requests| == 3 + m.retries == m.packetsSent
    ensures forall k :: 0 <= k < |m.requests| ==>
      m.requests[k].messageType == (if k < a then RTM_GETLINK else if k < b then RTM_GETADDR else RTM_GETROUTE)
      && m.requests[k].seqNumber == NumberOf(k)
  {
    hide Run;
    a, b := FinishedLogShape(m.Ctl());
  }
}
