/**
 How a dump ends, in numbers: which errors repeat it and which kill the process, which replies are refused, and
 what is sent next. Everything is stated on the datagram and on the requests, for every reachable state.
 */
module Failures {
  import opened Types
  import opened Subscriptions
  import opened DumpProtocol

  /** The messages carry the number of the request, or none at all. */
  predicate Numbered(items: seq<Item>, number: uint32) {
    forall j :: 0 <= j < |items| ==> items[j].seqNumber == 0 || items[j].seqNumber == number
  }

  /** A dump is outstanding. */
  ghost predicate Dumping(c: Control) {
    Protocol(c) && c.requests != [] && c.socketOpen && !c.aborted && !c.phase.WaitingForChanges?
  }

  /** RTM_GETLINK, RTM_GETADDR and RTM_GETROUTE. */
  function TypeOf(p: Phase): uint16
    requires !p.WaitingForChanges?
  {
    match p
    case EnumeratingLinks => 18
    case EnumeratingAddresses => 22
    case EnumeratingRoutes => 26
  }

  /** NLM_F_REQUEST and NLM_F_DUMP, any family, no statistics, under the number that follows all earlier ones. */
  function Following(requests: seq<Request>, messageType: uint16): Request {
    Request(messageType, 0x301, |requests| % 0xFFFF_FFFF + 1, 0, 8)
  }

  // ----- the messages before the end -----

  lemma NumberedIsAccepted(item: Item, number: uint32)
    ensures item.seqNumber == 0 || item.seqNumber == number ==> Accepts(item.seqNumber, number)
  {
  }

  /** Accepted messages are handled whole, whatever number is expected. */
  lemma {:induction false} DispatchNumbered(st: State, head: seq<Item>, tail: seq<Item>, number: uint32)
    requires AllData(head) && NoneStops(head) && Numbered(head, number) && st.ctl.socketOpen
    ensures Dispatch(st, head + tail, number)
      == Dispatch(st.(history := st.history + Handles(head)), tail, number)
    decreases |head|
  {
    hide Dispatch, Accepts;
    if head == [] {
      assert head + tail == tail;
      assert st.history + Handles(head) == st.history;
    } else {
      assert (head + tail)[0] == head[0] && (head + tail)[1..] == head[1..] + tail;
      NumberedIsAccepted(head[0], number);
      DispatchOne(st, head + tail, number);
      var st' := Handled(st, head[0]);
      var done := [Handle(head[0].body.message)];
      assert st' == st.(history := st.history + done);
      DispatchNumbered(st', head[1..], tail, number);
      Regroup(st.history, done, Handles(head[1..]));
    }
  }

  /** A datagram up to the message that ends it: what the callbacks leave and how libmnl answers. */
  lemma DispatchEnd(st: State, head: seq<Item>, last: Item, tail: seq<Item>, number: uint32)
    requires AllData(head) && NoneStops(head) && Numbered(head, number) && st.ctl.socketOpen
    requires !last.body.Data? || !Numbered([last], number)
    requires number != 0
    ensures Dispatch(st, head + [last] + tail, number) ==
      (st.(history := st.history + Handles(head)),
       if last.seqNumber != 0 && last.seqNumber != number then Failed(71)
       else if last.body.Done? then Stop
       else Failed(last.body.errno))
  {
    assert head + [last] + tail == head + ([last] + tail);
    DispatchNumbered(st, head, [last] + tail, number);
    assert ([last] + tail)[0] == last;
    assert !Numbered([last], number) ==> last.seqNumber != 0 && last.seqNumber != number;
  }

  lemma CurrentNumber(c: Control)
    requires Dumping(c)
    ensures Expected(c) == c.sequenceNumber != 0
    ensures Following(c.requests, TypeOf(c.phase))
      == Request(TypeOf(c.phase), 0x301, NumberOf(|c.requests|), 0, 8)
    ensures c.sendBuffer == DumpRequest(TypeOf(c.phase), c.sequenceNumber)
  {
  }

  /** What a retry sends. */
  lemma RetrySends(c: Control)
    requires Dumping(c)
    ensures Retried(c).requests == c.requests + [Following(c.requests, TypeOf(c.phase))] && !Retried(c).aborted
    ensures Retried(c).phase == c.phase
  {
    hide RequestsInOrder;
    CurrentNumber(c);
    RetryRepeatsCurrentDump(c);
  }

  lemma CountingKeepsDumping(c: Control)
    requires Dumping(c)
    ensures Dumping(c.(packetsReceived := c.packetsReceived + 1))
  {
    hide RequestsInOrder;
  }

  /** How an outcome during a dump is judged, in numbers: EINTR, EAGAIN, EBUSY and EPROTO repeat the dump. */
  lemma JudgedFailure(c: Control, errno: Errno)
    requires Dumping(c)
    ensures var (c', leave) := Judged(c, Failed(errno));
      && leave && (c'.aborted <==> errno != 4 && errno != 11 && errno != 16 && errno != 71)
      && c'.requests == c.requests + (if c'.aborted then [] else [Following(c.requests, TypeOf(c.phase))])
      && c'.phase == c.phase
  {
    hide RequestsInOrder, Retried, Following;
    RetrySends(c);
    assert c.requests + [] == c.requests;
  }

  // ----- the end of a datagram -----

  /**
   A datagram of the outstanding dump that ends in an error, or in a reply to another request, which counts as
   EPROTO. What stands before it is handled. The process dies unless the error is EINTR, EAGAIN,
   EBUSY or EPROTO; with these the same dump is requested again under the next number, and nothing else is sent.
   */
  lemma FailureRepeatsOrKills(st: State, batch: Receipt, script: Script, head: seq<Item>, last: Item, tail: seq<Item>)
    requires Dumping(st.ctl) && batch.Batch? && batch.items == head + [last] + tail
    requires AllData(head) && NoneStops(head) && Numbered(head, st.ctl.sequenceNumber)
    requires !Numbered([last], st.ctl.sequenceNumber) || last.body.Failure?
    ensures var (st', rest) := ReceiveLoop(st, batch, script);
      var errno := if Numbered([last], st.ctl.sequenceNumber) then last.body.errno else 71;
      && st'.history == st.history + Handles(head)
      && (st'.ctl.aborted <==> errno != 4 && errno != 11 && errno != 16 && errno != 71)
      && st'.ctl.requests ==
         st.ctl.requests + (if st'.ctl.aborted then [] else [Following(st.ctl.requests, TypeOf(st.ctl.phase))])
      && rest == (if st'.ctl.aborted then script else Drained(script))
      && st'.ctl.phase == st.ctl.phase
  {
    hide Protocol, Judged, Dispatch, Following;
    var c := Counted(st);
    CountingKeepsDumping(st.ctl);
    CurrentNumber(st.ctl);
    DispatchEnd(c, head, last, tail, st.ctl.sequenceNumber);
    assert [last][0] == last;
    var errno := if Numbered([last], st.ctl.sequenceNumber) then last.body.errno else 71;
    JudgedFailure(c.ctl, errno);
    ReceiveLoopUnrolled(st, batch, script);
  }

  /** The end of a dump: the next is requested, of the addresses, then of the routes; after these nothing is sent. */
  lemma DumpEnds(st: State, batch: Receipt, script: Script, head: seq<Item>, last: Item, tail: seq<Item>)
    requires Dumping(st.ctl) && batch.Batch? && batch.items == head + [last] + tail
    requires AllData(head) && NoneStops(head) && Numbered(head + [last], st.ctl.sequenceNumber) && last.body.Done?
    ensures var (st', rest, leave) := Processed(st, batch, script);
      && st'.history == st.history + Handles(head) && rest == script && !st'.ctl.aborted
      && (leave <==> st.ctl.phase == EnumeratingRoutes)
      && match st.ctl.phase
         case EnumeratingLinks =>
           && st'.ctl.phase == EnumeratingAddresses
           && st'.ctl.requests == st.ctl.requests + [Following(st.ctl.requests, 22)]
         case EnumeratingAddresses =>
           && st'.ctl.phase == EnumeratingRoutes
           && st'.ctl.requests == st.ctl.requests + [Following(st.ctl.requests, 26)]
         case EnumeratingRoutes =>
           st'.ctl.phase == WaitingForChanges && st'.ctl.requests == st.ctl.requests
  {
    hide RequestsInOrder, Dispatch;
    CurrentNumber(st.ctl);
    assert (head + [last])[|head|] == last && forall j :: 0 <= j < |head| ==> (head + [last])[j] == head[j];
    DispatchEnd(Counted(st), head, last, tail, st.ctl.sequenceNumber);
    NextInTurn(st.ctl);
  }

  lemma EndIsJudged(st: State, last: Item, tail: seq<Item>)
    requires !last.body.Data?
    ensures Dispatch(st, [last] + tail, 0) == (st, if last.body.Done? then Stop else Failed(last.body.errno))
  {
    assert ([last] + tail)[0] == last;
  }

  /** After the enumeration the end of a dump or an error kills the process, whatever its number. */
  lemma EndWhileWatchingKills(st: State, batch: Receipt, script: Script, head: seq<Item>, last: Item, tail: seq<Item>)
    requires st.ctl.phase.WaitingForChanges? && st.ctl.socketOpen && !st.ctl.aborted
    requires batch.Batch? && batch.items == head + [last] + tail
    requires AllData(head) && NoneStops(head) && !last.body.Data?
    ensures var (st', rest) := ReceiveLoop(st, batch, script);
      && st'.ctl.aborted && rest == script && st'.ctl.requests == st.ctl.requests
      && st'.history == st.history + Handles(head)
  {
    hide Dispatch;
    assert head + [last] + tail == head + ([last] + tail);
    DispatchData(Counted(st), head, [last] + tail);
    EndIsJudged(Counted(st).(history := st.history + Handles(head)), last, tail);
    ReceiveLoopUnrolled(st, batch, script);
  }

  // ----- draining -----

  /** A retry throws away every datagram up to the first receive call that returns nothing, and that call. */
  lemma {:induction false} DrainedSkips(batches: Script, rest: Script)
    requires forall k :: 0 <= k < |batches| ==> batches[k].Batch?
    ensures Drained(batches + [Nothing] + rest) == rest
    ensures Drained(batches) == []
  {
    if batches == [] {
      assert ([] + [Nothing] + rest)[1..] == rest;
    } else {
      assert (batches + [Nothing] + rest)[1..] == batches[1..] + [Nothing] + rest;
      assert (batches + [Nothing] + rest)[0] == batches[0];
      DrainedSkips(batches[1..], rest);
    }
  }
}
