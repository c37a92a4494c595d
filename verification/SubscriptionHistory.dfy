/**
 Who is subscribed to what, as a last-writer function of the calls made: stated on the operations alone.
 */
module SubscriptionHistory {
  import opened Types
  import opened Messages
  import opened Subscriptions

  /** A subscription to something. Subscribing to nothing is ignored. */
  predicate Opens(op: Op, s: SubscriberId) {
    op.Subscribe? && op.s == s && op.interfaces != map[]
  }

  /** Unsubscribing, or reducing a subscription to nothing. */
  predicate Ends(op: Op, s: SubscriberId) {
    op == Unsubscribe(Some(s)) || op == UpdateSubscription(Some(s), map[])
  }

  /** The operation names interfaces for s: a subscription or an update, to something. */
  predicate Names(op: Op, s: SubscriberId) {
    Opens(op, s) || (op.UpdateSubscription? && op.to == Some(s) && op.interfaces != map[])
  }

  /** s has subscribed, and that has not been ended since. */
  ghost predicate IsSubscriber(ops: seq<Op>, s: SubscriberId) {
    exists k :: 0 <= k < |ops| && Opens(ops[k], s) && forall j :: k < j < |ops| ==> !Ends(ops[j], s)
  }

  /** The last operation to name interfaces for s. */
  ghost predicate LastNamed(ops: seq<Op>, s: SubscriberId, j: int) {
    0 <= j < |ops| && Names(ops[j], s) && forall l :: j < l < |ops| ==> !Names(ops[l], s)
  }

  // ----- one operation -----

  /** Messages, sweeps and reports leave the subscriptions alone. */
  lemma TellingKeepsSubscribers(cfg: Config, c: Core, m: Message, s: SubscriberId, interfaces: Interfaces)
    ensures HandleMessage(cfg, c, m).subscribers == c.subscribers
    ensures NotifyChanges(c).subscribers == c.subscribers
    ensures NotifyFully(c, s, interfaces).subscribers == c.subscribers
  {
    hide Deliveries, Ascending, Announce, Account, Decode, SweepFor;
  }

  /** What one operation does to the subscription of s. */
  lemma StepSubscribes(cfg: Config, c: Core, op: Op, s: SubscriberId)
    ensures var subscribers := Step(cfg, c, op).subscribers;
      && (s in subscribers <==> Opens(op, s) || (s in c.subscribers && !Ends(op, s)))
      && (s in subscribers ==>
            subscribers[s] == if Names(op, s) then op.interfaces else c.subscribers[s])
  {
    hide NotifyFully, NotifyChanges, HandleMessage;
    match op
    case Handle(m) => TellingKeepsSubscribers(cfg, c, m, s, map[]);
    case Notify => TellingKeepsSubscribers(cfg, c, OtherMessage(0), s, map[]);
    case Subscribe(r, interfaces) =>
      TellingKeepsSubscribers(cfg, c.(subscribers := c.subscribers[r := interfaces]), OtherMessage(0), r, interfaces);
    case UpdateSubscription(to, interfaces) =>
      if to.Some? {
        var told := c.(subscribers := c.subscribers[to.value := interfaces]);
        TellingKeepsSubscribers(cfg, told, OtherMessage(0), to.value, interfaces);
      }
    case Unsubscribe(_) =>
  }

  lemma SubscriberStep(ops: seq<Op>, s: SubscriberId)
    requires ops != []
    ensures IsSubscriber(ops, s)
      <==> Opens(ops[|ops| - 1], s) || (IsSubscriber(ops[..|ops| - 1], s) && !Ends(ops[|ops| - 1], s))
  {
    hide Opens, Ends;
    var n := |ops| - 1;
    var before := ops[..n];
    assert forall j :: 0 <= j < n ==> before[j] == ops[j];
    if IsSubscriber(ops, s) {
      var k :| 0 <= k < |ops| && Opens(ops[k], s) && forall j :: k < j < |ops| ==> !Ends(ops[j], s);
      assert k < n ==> Opens(before[k], s);
    }
    if Opens(ops[n], s) {
      assert IsSubscriber(ops, s);
    }
    if IsSubscriber(before, s) && !Ends(ops[n], s) {
      var k :| 0 <= k < n && Opens(before[k], s) && forall j :: k < j < n ==> !Ends(before[j], s);
      assert Opens(ops[k], s);
    }
  }

  lemma LastNamedStep(ops: seq<Op>, s: SubscriberId, j: int)
    requires ops != []
    ensures LastNamed(ops, s, j) <==>
      if Names(ops[|ops| - 1], s) then j == |ops| - 1 else LastNamed(ops[..|ops| - 1], s, j)
  {
    hide Names;
    var n := |ops| - 1;
    assert forall l :: 0 <= l < n ==> ops[..n][l] == ops[l];
  }

  // ----- runs -----

  /** A subscriber is whoever has subscribed and not ended it since. */
  lemma {:induction false} SubscribedIffOpen(cfg: Config, ops: seq<Op>, s: SubscriberId)
    ensures s in Run(cfg, ops).subscribers <==> IsSubscriber(ops, s)
  {
    if ops == [] {
    } else {
      hide Step, IsSubscriber;
      var before := ops[..|ops| - 1];
      SubscribedIffOpen(cfg, before, s);
      StepSubscribes(cfg, Run(cfg, before), ops[|ops| - 1], s);
      SubscriberStep(ops, s);
    }
  }

  lemma OpensIsNames(op: Op, s: SubscriberId)
    ensures Opens(op, s) ==> Names(op, s)
  {
  }

  lemma LastNamedInRange(ops: seq<Op>, s: SubscriberId, j: int)
    requires LastNamed(ops, s, j)
    ensures 0 <= j < |ops| && (ops[j].Subscribe? || ops[j].UpdateSubscription?)
  {
  }

  lemma {:induction false} LastNamedDecides(cfg: Config, ops: seq<Op>, s: SubscriberId) returns (j: int)
    requires s in Run(cfg, ops).subscribers
    ensures LastNamed(ops, s, j) && Run(cfg, ops).subscribers[s] == ops[j].interfaces
  {
    hide Step, LastNamed, Names, Ends;
    var n := |ops| - 1;
    var before, op := ops[..n], ops[n];
    StepSubscribes(cfg, Run(cfg, before), op, s);
    if Names(op, s) {
      j := n;
    } else {
      OpensIsNames(op, s);
      j := LastNamedDecides(cfg, before, s);
      assert 0 <= j < n by { LastNamedInRange(before, s, j); }
    }
    LastNamedStep(ops, s, j);
  }

  lemma OnlyOneLast(ops: seq<Op>, s: SubscriberId, j: int, k: int)
    requires LastNamed(ops, s, j) && LastNamed(ops, s, k)
    ensures j == k
  {
  }

  /**
   s is subscribed to exactly these interfaces if and only if it has subscribed, has not ended it since,
   and the last operation to name interfaces for it named these.
   */
  lemma SubscriptionsAreHistory(cfg: Config, ops: seq<Op>, s: SubscriberId, interfaces: Interfaces)
    ensures var subscribers := Run(cfg, ops).subscribers;
      (s in subscribers && subscribers[s] == interfaces)
      <==> (IsSubscriber(ops, s) && exists j :: LastNamed(ops, s, j) && ops[j].interfaces == interfaces)
  {
    hide Run, IsSubscriber;
    SubscribedIffOpen(cfg, ops, s);
    if s in Run(cfg, ops).subscribers {
      var j := LastNamedDecides(cfg, ops, s);
      forall k | LastNamed(ops, s, k)
        ensures k == j
      {
        OnlyOneLast(ops, s, j, k);
      }
    }
  }
}
