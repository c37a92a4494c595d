/**
 The regular sweep and the full report as the code makes them, one tracker at a time.
 */
module Sweeps {
  import opened Types
  import opened Trackers
  import opened Subscriptions

  /** Every log grown by the callbacks its subscriber gets for interface i. */
  function Grown(logs: map<SubscriberId, seq<Event>>, subscribers: map<SubscriberId, Interfaces>,
                 i: uint32, due: seq<Event>): (grown: map<SubscriberId, seq<Event>>)
    ensures grown.Keys == logs.Keys
  {
    map s | s in logs :: logs[s] + if s in subscribers && i in subscribers[s] then due else []
  }

  lemma AllGrown(logs: map<SubscriberId, seq<Event>>, grown: map<SubscriberId, seq<Event>>,
                 subscribers: map<SubscriberId, Interfaces>, i: uint32, due: seq<Event>)
    requires grown.Keys == logs.Keys
    requires forall s :: s in logs ==> grown[s] == logs[s] + if s in subscribers && i in subscribers[s] then due else []
    ensures grown == Grown(logs, subscribers, i, due)
  {
  }

  /** One tracker's part of the sweep. */
  function TrackerSwept(c: Core, i: uint32): Core
    requires i in c.trackers
  {
    c.(trackers := c.trackers[i := FlagsCleared(c.trackers[i])],
       logs := Grown(c.logs, c.subscribers, i, Due(i, c.trackers[i], false)))
  }

  lemma SweptByNone(c: Core)
    requires c.subscribers.Keys <= c.logs.Keys
    ensures SweptBy(c, []) == c
  {
    var r := SweptBy(c, []);
    assert r.logs == c.logs by {
      assert forall s :: s in c.logs ==> c.logs[s] + [] == c.logs[s];
    }
    assert r.trackers == c.trackers;
  }

  lemma SweepForOneMore(c: Core, keys: seq<uint32>, i: uint32, s: SubscriberId)
    requires i in c.trackers && forall k :: k in keys ==> k in c.trackers
    ensures SweepFor(c, keys + [i], s)
      == SweepFor(c, keys, s) + if s in c.subscribers && i in c.subscribers[s] then Due(i, c.trackers[i], false) else []
  {
    assert (keys + [i])[..|keys|] == keys;
  }

  lemma Associate(a: seq<Event>, b: seq<Event>, c: seq<Event>)
    ensures a + b + c == a + (b + c)
  {
  }

  lemma SweptByOneMore(c: Core, keys: seq<uint32>, i: uint32)
    requires c.subscribers.Keys <= c.logs.Keys
    requires i in c.trackers && i !in keys && forall k :: k in keys ==> k in c.trackers
    ensures TrackerSwept(SweptBy(c, keys), i) == SweptBy(c, keys + [i])
  {
    hide SweepFor, FlagsCleared, Due;
    var l, r := TrackerSwept(SweptBy(c, keys), i), SweptBy(c, keys + [i]);
    forall s | s in c.logs
      ensures l.logs[s] == r.logs[s]
    {
      SweepForOneMore(c, keys, i, s);
      var due := if s in c.subscribers && i in c.subscribers[s] then Due(i, c.trackers[i], false) else [];
      Associate(c.logs[s], SweepFor(c, keys, s), due);
    }
    assert l.logs.Keys == r.logs.Keys;
    assert l.logs == r.logs;
    assert l.trackers == r.trackers;
  }

  /** One tracker's part of a full report. */
  function TrackerReported(c: Core, s: SubscriberId, interfaces: Interfaces, i: uint32): Core
    requires i in c.trackers && s in c.logs
  {
    c.(logs := c.logs[s := c.logs[s] + if i in interfaces then Due(i, c.trackers[i], true) else []])
  }

  lemma ReportedByNone(c: Core, s: SubscriberId, interfaces: Interfaces)
    ensures ReportedBy(c, s, interfaces, []) == c.(logs := c.logs[s := c.Log(s)])
  {
    assert c.Log(s) + [] == c.Log(s);
  }

  lemma ReportedByOneMore(c: Core, s: SubscriberId, interfaces: Interfaces, keys: seq<uint32>, i: uint32)
    requires i in c.trackers && forall k :: k in keys ==> k in c.trackers
    ensures TrackerReported(ReportedBy(c, s, interfaces, keys), s, interfaces, i)
      == ReportedBy(c, s, interfaces, keys + [i])
  {
    assert (keys + [i])[..|keys|] == keys;
    var due := if i in interfaces then Due(i, c.trackers[i], true) else [];
    Associate(c.Log(s), Deliveries(keys, c.trackers, interfaces.Keys, true), due);
  }

  /** It does not matter whether the log of the subscriber was there before. */
  lemma ReportOpensLog(c: Core, s: SubscriberId, interfaces: Interfaces)
    ensures NotifyFully(c.(logs := c.logs[s := c.Log(s)]), s, interfaces) == NotifyFully(c, s, interfaces)
  {
    hide Deliveries, Ascending;
    var c' := c.(logs := c.logs[s := c.Log(s)]);
    assert c'.Log(s) == c.Log(s);
    var log := c.Log(s) + Deliveries(Ascending(c.trackers.Keys), c.trackers, interfaces.Keys, true);
    assert c'.logs[s := log] == c.logs[s := log];
  }
}
