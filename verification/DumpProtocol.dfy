/**
 The receive side of the monitor: dump requests and their sequence numbers, retries, the enumeration
 phases, stopping, and the receive loops of src/monitor/NetworkMonitor.cpp, lines 97-108 and 163-332.
 The kernel and libmnl are a script of receipts.
 */
module DumpProtocol {
  import opened Types
  import opened Messages
  import opened Subscriptions

  // ----- what can be received -----

  type Errno = n: nat | n > 0 witness 1

  /**
   A message for the monitor, the end of a dump, or an error. An error message that carries no error is
   answered by libmnl like the end of a dump and is Done here as well.
   */
  datatype Body = Data(message: Message) | Done | Failure(errno: Errno)

  /** One netlink message of a datagram; `stops` says that a callback made while handling it calls stop(). */
  datatype Item = Item(seqNumber: uint32, body: Body, stops: bool)

  /** A datagram that was received holds at least one message. */
  type Datagram = items: seq<Item> | items != [] witness [Item(0, Done, false)]

  /** What one receive call returns; `stopsInSweep` says that a callback of the following sweep calls stop(). */
  datatype Receipt = Nothing | Batch(items: Datagram, stopsInSweep: bool)

  type Script = seq<Receipt>

  const EINTR: Errno := 4
  const EAGAIN: Errno := 11
  const EBUSY: Errno := 16
  const EPROTO: Errno := 71
  const ENOBUFS: Errno := 105

  predicate ShouldRetryDump(errno: Errno) {
    errno == EPROTO || errno == EINTR || errno == EAGAIN || errno == EBUSY
  }

  // ----- requests -----

  /**
   Type, flags and sequence number of a netlink message header (section 2.3.2 of RFC 3549), the
   address family asked for, and the filter mask sent along as an attribute.
   */
  datatype Request = Request(messageType: uint16, flags: uint16, seqNumber: uint32, family: byte, filter: uint32)

  const RTM_GETLINK: uint16 := 18
  const RTM_GETADDR: uint16 := 22
  const RTM_GETROUTE: uint16 := 26

  /** NLM_F_REQUEST is bit 0; NLM_F_DUMP is bits 8 and 9. */
  const DUMP_REQUEST_FLAGS: uint16 := 0x301

  const AF_UNSPEC: byte := 0
  const RTEXT_FILTER_SKIP_STATS: uint32 := 8

  /** A request for everything of one type, of every family, without statistics. */
  function DumpRequest(messageType: uint16, seqNumber: uint32): Request {
    Request(messageType, DUMP_REQUEST_FLAGS, seqNumber, AF_UNSPEC, RTEXT_FILTER_SKIP_STATS)
  }

  predicate IsDumpRequest(r: Request) {
    (r.flags / 0x100) % 4 != 0 && r.flags % 2 != 0
  }

  function Next(n: uint32): uint32 {
    var n' := (n + 1) % 0x1_0000_0000;
    if n' == 0 then 1 else n'
  }

  datatype Phase = EnumeratingLinks | EnumeratingAddresses | EnumeratingRoutes | WaitingForChanges

  function Rank(p: Phase): nat {
    match p
    case EnumeratingLinks => 0
    case EnumeratingAddresses => 1
    case EnumeratingRoutes => 2
    case WaitingForChanges => 3
  }

  /** `retries` and `stops` count the dump requests repeated and the phases ended so far. */
  datatype Control = Control(
    phase: Phase,
    sequenceNumber: uint32,
    sendBuffer: Request,
    socketOpen: bool,
    running: bool,
    aborted: bool,
    packetsReceived: nat,
    packetsSent: nat,
    requests: seq<Request>,
    retries: nat,
    stops: nat)

  const INITIAL_CONTROL :=
    Control(EnumeratingLinks, 0, Request(0, 0, 0, 0, 0), true, false, false, 0, 0, [], 0, 0)

  /** The control part of the monitor, and the operations performed so far on the cache and subscriptions. */
  datatype State = State(ctl: Control, history: seq<Op>)

  const INITIAL_STATE := State(INITIAL_CONTROL, [])

  function Abort(c: Control): Control {
    c.(aborted := true)
  }

  /** Sending needs the socket; after stop() took it away the process dies here. */
  function Sent(c: Control, messageType: uint16): Control {
    if !c.socketOpen then Abort(c)
    else
      var r := DumpRequest(messageType, Next(c.sequenceNumber));
      c.(sequenceNumber := r.seqNumber, sendBuffer := r, requests := c.requests + [r], packetsSent := c.packetsSent + 1)
  }

  /** The last request once more under a new number, unless the buffer holds no dump request. */
  function Retried(c: Control): Control {
    if !c.socketOpen then Abort(c)
    else if !IsDumpRequest(c.sendBuffer) then c
    else
      var r := c.sendBuffer.(seqNumber := Next(c.sequenceNumber));
      c.(sequenceNumber := r.seqNumber, sendBuffer := r, requests := c.requests + [r],
         packetsSent := c.packetsSent + 1, retries := c.retries + 1)
  }

  /** A retry first throws away everything up to the first receive call that returns nothing. */
  function Drained(script: Script): (rest: Script)
    ensures |rest| <= |script|
  {
    if script == [] then []
    else if script[0].Nothing? then script[1..]
    else Drained(script[1..])
  }

  function Stopped(st: State): State {
    st.(ctl := st.ctl.(socketOpen := false, running := false))
  }

  // ----- one datagram -----

  datatype Outcome = Ok | Stop | Failed(errno: Errno)

  /** libmnl lets a message through if its number matches or either number is zero. */
  predicate Accepts(seqNumber: uint32, expected: uint32) {
    seqNumber == 0 || expected == 0 || seqNumber == expected
  }

  function Handled(st: State, item: Item): State
    requires item.body.Data?
  {
    var st := st.(history := st.history + [Handle(item.body.message)]);
    if item.stops then Stopped(st) else st
  }

  function Dispatch(st: State, items: seq<Item>, expected: uint32): (r: (State, Outcome))
    ensures !st.ctl.socketOpen && items != [] ==> r.0 == st && !r.1.Ok?
    decreases |items|
  {
    if items == [] then (st, Ok)
    else if !Accepts(items[0].seqNumber, expected) then (st, Failed(EPROTO))
    else
      match items[0].body
      case Done => (st, Stop)
      case Failure(errno) => (st, Failed(errno))
      case Data(_) =>
        if !st.ctl.socketOpen then (st, Stop) else Dispatch(Handled(st, items[0]), items[1..], expected)
  }

  /** The next phase, with the request that opens it. */
  function PhaseEnded(c: Control): Control
    requires !c.phase.WaitingForChanges?
  {
    var c := c.(stops := c.stops + 1);
    match c.phase
    case EnumeratingLinks => Sent(c.(phase := EnumeratingAddresses), RTM_GETADDR)
    case EnumeratingAddresses => Sent(c.(phase := EnumeratingRoutes), RTM_GETROUTE)
    case EnumeratingRoutes => c.(phase := WaitingForChanges)
  }

  /** The control state after a datagram's outcome, and whether the receive loop is left. */
  function Judged(c: Control, outcome: Outcome): (Control, bool) {
    match outcome
    case Ok => (c, false)
    case Failed(errno) =>
      if c.phase.WaitingForChanges? || !ShouldRetryDump(errno) then (Abort(c), true) else (Retried(c), true)
    case Stop =>
      if c.phase.WaitingForChanges? then (if c.socketOpen then Abort(c) else c, true)
      else
        var c' := PhaseEnded(c);
        (c', c'.phase.WaitingForChanges? || c'.aborted)
  }

  /** A retry drains the socket; nothing else looks at the script. */
  function ScriptAfter(c: Control, outcome: Outcome, script: Script): (rest: Script)
    ensures |rest| <= |script|
  {
    if outcome.Failed? && !c.phase.WaitingForChanges? && ShouldRetryDump(outcome.errno) && c.socketOpen
    then Drained(script)
    else script
  }

  function Expected(c: Control): uint32 {
    if c.phase.WaitingForChanges? then 0 else c.sequenceNumber
  }

  function Counted(st: State): State {
    st.(ctl := st.ctl.(packetsReceived := st.ctl.packetsReceived + 1))
  }

  function Swept(st: State, stops: bool): State {
    var st := st.(history := st.history + [Notify]);
    if stops then Stopped(st) else st
  }

  // ----- the receive loops -----

  /** The datagram in the buffer processed and judged: the state, the script left, and whether the loop is left. */
  function Processed(st: State, batch: Receipt, script: Script): (r: (State, Script, bool))
    requires batch.Batch?
    ensures |r.1| <= |script|
    ensures !st.ctl.socketOpen ==> r.2
  {
    var (st2, outcome) := Dispatch(Counted(st), batch.items, Expected(st.ctl));
    var (c, leave) := Judged(st2.ctl, outcome);
    (st2.(ctl := c), ScriptAfter(st2.ctl, outcome, script), leave)
  }

  /** One call of receiveAndProcess from the point where a datagram is in the buffer. */
  function ReceiveLoop(st: State, batch: Receipt, script: Script): (r: (State, Script))
    requires batch.Batch?
    ensures |r.1| <= |script|
    decreases |script|, st.ctl.socketOpen
  {
    var (st', rest, leave) := Processed(st, batch, script);
    if leave then (st', rest)
    else
      var swept := Swept(st', batch.stopsInSweep);
      if !swept.ctl.socketOpen then
        // the socket is gone, so the old datagram is processed once more
        ReceiveLoop(swept, batch, rest)
      else if rest == [] then (swept, rest)
      else if rest[0].Nothing? then (swept, rest[1..])
      else ReceiveLoop(swept, rest[0], rest[1..])
  }

  /** The loop, one datagram unrolled. */
  lemma ReceiveLoopUnrolled(st: State, batch: Receipt, script: Script)
    requires batch.Batch?
    ensures var (st', rest, leave) := Processed(st, batch, script);
      var swept := Swept(st', batch.stopsInSweep);
      ReceiveLoop(st, batch, script) ==
        if leave then (st', rest)
        else if !swept.ctl.socketOpen then ReceiveLoop(swept, batch, rest)
        else if rest == [] then (swept, rest)
        else if rest[0].Nothing? then (swept, rest[1..])
        else ReceiveLoop(swept, rest[0], rest[1..])
  {
  }

  function Receive(st: State, script: Script): (r: (State, Script))
    ensures |r.1| <= |script|
    ensures st.ctl.socketOpen && script != [] ==> |r.1| < |script|
  {
    if !st.ctl.socketOpen || script == [] then (st, script)
    else if script[0].Nothing? then (st, script[1..])
    else ReceiveLoop(st, script[0], script[1..])
  }

  /** The loop of enumerateInterfaces. It is observed until the script ends or the process can go no further. */
  function EnumerateLoop(st: State, script: Script): (State, Script)
    decreases |script|
  {
    if st.ctl.phase.WaitingForChanges? || st.ctl.aborted || !st.ctl.socketOpen || script == [] then (st, script)
    else
      var (st', rest) := Receive(st, script);
      EnumerateLoop(st', rest)
  }

  function Enumerate(st: State, script: Script): (State, Script) {
    if st.ctl.phase.WaitingForChanges? then (st, script)
    else EnumerateLoop(st.(ctl := Sent(st.ctl, RTM_GETLINK)), script)
  }

  /** The loop of run. */
  function ChangeLoop(st: State, script: Script): (State, Script)
    decreases |script|
  {
    if !st.ctl.running || !st.ctl.socketOpen || st.ctl.aborted || script == [] then (st, script)
    else
      var (st', rest) := Receive(st, script);
      ChangeLoop(st', rest)
  }

  function RunFrom(st: State, script: Script): (State, Script) {
    if !st.ctl.socketOpen then (st, script)
    else
      var (st', rest) := Enumerate(st.(ctl := st.ctl.(running := true)), script);
      ChangeLoop(st', rest)
  }

  // ----- sequence numbers -----

  const PERIOD := 0xFFFF_FFFF

  /** The number of the k-th request, counting from zero: 1, 2, ..., 2^32 - 1, 1, ... */
  function NumberOf(k: nat): (n: uint32)
    ensures n != 0
  {
    k % PERIOD + 1
  }

  lemma NextNumber(k: nat)
    ensures Next(NumberOf(k)) == NumberOf(k + 1)
  {
    if k % PERIOD == PERIOD - 1 {
      assert (k + 1) % PERIOD == 0;
    } else {
      assert (k + 1) % PERIOD == k % PERIOD + 1;
    }
  }

  /** Requests less than a full period apart have different numbers. */
  lemma NumbersDistinct(j: nat, k: nat)
    requires j < k < j + 0xFFFF_FFFF
    ensures NumberOf(j) != NumberOf(k)
  {
    var periods := k / PERIOD - j / PERIOD;
    assert k - j == PERIOD * periods + (k % PERIOD - j % PERIOD);
  }

  // ----- the protocol invariant -----

  function RankOf(r: Request): int {
    if r.messageType == RTM_GETLINK then 0
    else if r.messageType == RTM_GETADDR then 1
    else if r.messageType == RTM_GETROUTE then 2
    else -1
  }

  /** The rank of the last dump opened: routes are the last even when the enumeration is over. */
  function OpenedRank(p: Phase): int {
    if p.WaitingForChanges? then 2 else Rank(p)
  }

  ghost predicate RequestsInOrder(requests: seq<Request>) {
    && (forall k :: 0 <= k < |requests| ==>
          requests[k] == DumpRequest(requests[k].messageType, NumberOf(k)) && RankOf(requests[k]) >= 0)
    && (requests != [] ==> RankOf(requests[0]) == 0)
    && (forall k :: 0 < k < |requests| ==>
          RankOf(requests[k - 1]) <= RankOf(requests[k]) <= RankOf(requests[k - 1]) + 1)
  }

  /**
   What every step keeps: the requests are whole dump requests numbered in turn and never go back a phase;
   the buffer holds the last of them; the last belongs to the current phase; every packet sent is a
   request; each request either opened a phase or was a retry; each phase passed took one STOP.
   */
  ghost predicate Protocol(c: Control) {
    && RequestsInOrder(c.requests)
    && c.packetsSent == |c.requests|
    && c.stops == Rank(c.phase)
    && if c.requests == [] then
         c.phase == EnumeratingLinks && c.sequenceNumber == 0 && c.retries == 0 && !IsDumpRequest(c.sendBuffer)
       else
         && c.sendBuffer == c.requests[|c.requests| - 1]
         && c.sequenceNumber == c.sendBuffer.seqNumber
         && RankOf(c.sendBuffer) == OpenedRank(c.phase)
         && |c.requests| == c.retries + OpenedRank(c.phase) + 1
  }

  lemma SendingKeepsOrder(requests: seq<Request>, r: Request)
    requires RequestsInOrder(requests) && r == DumpRequest(r.messageType, NumberOf(|requests|)) && RankOf(r) >= 0
    requires if requests == [] then RankOf(r) == 0
             else RankOf(requests[|requests| - 1]) <= RankOf(r) <= RankOf(requests[|requests| - 1]) + 1
    ensures RequestsInOrder(requests + [r])
  {
    var all := requests + [r];
    forall k | 0 < k < |all|
      ensures RankOf(all[k - 1]) <= RankOf(all[k]) <= RankOf(all[k - 1]) + 1
    {
      if k < |requests| {
        assert all[k] == requests[k] && all[k - 1] == requests[k - 1];
      } else {
        assert all[k] == r && all[k - 1] == requests[|requests| - 1];
      }
    }
  }

  lemma NextInTurn(c: Control)
    requires Protocol(c)
    ensures Next(c.sequenceNumber) == NumberOf(|c.requests|)
  {
    if c.requests != [] {
      NextNumber(|c.requests| - 1);
    }
  }

  lemma FirstRequest(c: Control)
    requires Protocol(c) && c.requests == [] && c.socketOpen
    ensures Protocol(Sent(c, RTM_GETLINK)) && Sent(c, RTM_GETLINK).requests != []
  {
    NextInTurn(c);
    SendingKeepsOrder(c.requests, Sent(c, RTM_GETLINK).sendBuffer);
  }

  /** While a dump is outstanding the buffer holds its request, so a retry never finds anything else there. */
  lemma RetryRepeatsCurrentDump(c: Control)
    requires Protocol(c) && c.requests != [] && c.socketOpen && !c.phase.WaitingForChanges?
    ensures IsDumpRequest(c.sendBuffer) && RankOf(c.sendBuffer) == Rank(c.phase)
    ensures var c' := Retried(c);
      && Protocol(c') && c'.phase == c.phase && c'.retries == c.retries + 1
      && c'.requests == c.requests + [c.sendBuffer.(seqNumber := NumberOf(|c.requests|))]
  {
    NextInTurn(c);
    SendingKeepsOrder(c.requests, Retried(c).sendBuffer);
  }

  lemma OpeningKeepsProtocol(c: Control, phase: Phase, messageType: uint16)
    requires Protocol(c) && c.requests != [] && c.socketOpen
    requires Rank(phase) == Rank(c.phase) + 1 == RankOf(DumpRequest(messageType, 1)) && !phase.WaitingForChanges?
    ensures var c' := Sent(c.(stops := c.stops + 1, phase := phase), messageType);
      Protocol(c') && c'.requests != [] && !c'.aborted == !c.aborted
  {
    hide RequestsInOrder, IsDumpRequest, Next, NumberOf;
    NextInTurn(c);
    SendingKeepsOrder(c.requests, DumpRequest(messageType, Next(c.sequenceNumber)));
  }

  lemma PhaseEndKeepsProtocol(c: Control)
    requires Protocol(c) && c.requests != [] && !c.phase.WaitingForChanges? && !c.aborted
    ensures var c' := PhaseEnded(c);
      !c'.aborted ==> Protocol(c') && c'.requests != [] && Rank(c'.phase) == Rank(c.phase) + 1
  {
    hide RequestsInOrder, IsDumpRequest, Next, NumberOf;
    if c.socketOpen {
      match c.phase
      case EnumeratingLinks => OpeningKeepsProtocol(c, EnumeratingAddresses, RTM_GETADDR);
      case EnumeratingAddresses => OpeningKeepsProtocol(c, EnumeratingRoutes, RTM_GETROUTE);
      case EnumeratingRoutes =>
    }
  }

  lemma JudgedKeepsProtocol(c: Control, outcome: Outcome)
    requires Protocol(c) && c.requests != [] && !c.aborted
    ensures var c' := Judged(c, outcome).0;
      !c'.aborted ==>
        && Protocol(c') && c'.requests != []
        && Rank(c'.phase) == Rank(c.phase) + (if outcome.Stop? && !c.phase.WaitingForChanges? then 1 else 0)
  {
    match outcome
    case Ok =>
    case Failed(errno) =>
      if c.socketOpen && !c.phase.WaitingForChanges? {
        RetryRepeatsCurrentDump(c);
      }
    case Stop =>
      if !c.phase.WaitingForChanges? {
        PhaseEndKeepsProtocol(c);
      }
  }

  /** Handling messages touches the control state only by closing the socket. */
  lemma {:induction false} DispatchControl(st: State, items: seq<Item>, expected: uint32)
    ensures var st' := Dispatch(st, items, expected).0;
      st'.ctl == st.ctl || st'.ctl == Stopped(st).ctl
    decreases |items|
  {
    if items != [] && Accepts(items[0].seqNumber, expected) && items[0].body.Data? && st.ctl.socketOpen {
      DispatchControl(Handled(st, items[0]), items[1..], expected);
    }
  }

  /** The protocol invariant and the progress of the phase, from one state to a later one. */
  ghost predicate Advances(c: Control, c': Control) {
    !c'.aborted ==>
      && Protocol(c') && c'.requests != []
      && Rank(c.phase) <= Rank(c'.phase)
      && c.requests <= c'.requests
  }

  lemma AdvancesTrans(a: Control, b: Control, c: Control)
    requires !b.aborted && Advances(a, b) && Advances(b, c)
    ensures Advances(a, c)
  {
  }

  lemma JudgedExtendsRequests(c: Control, outcome: Outcome)
    ensures c.requests <= Judged(c, outcome).0.requests
  {
  }

  lemma DatagramAdvances(c: Control, c': Control, outcome: Outcome)
    requires Protocol(c) && c.requests != [] && !c.aborted
    requires c' == c.(packetsReceived := c.packetsReceived + 1, socketOpen := c'.socketOpen, running := c'.running)
    ensures Advances(c, Judged(c', outcome).0)
  {
    JudgedKeepsProtocol(c', outcome);
    JudgedExtendsRequests(c', outcome);
  }

  lemma ProcessedAdvances(st: State, batch: Receipt, script: Script)
    requires batch.Batch? && Protocol(st.ctl) && st.ctl.requests != [] && !st.ctl.aborted
    ensures Advances(st.ctl, Processed(st, batch, script).0.ctl)
    ensures !Processed(st, batch, script).2 ==> !Processed(st, batch, script).0.ctl.aborted
  {
    var (st2, outcome) := Dispatch(Counted(st), batch.items, Expected(st.ctl));
    DispatchControl(Counted(st), batch.items, Expected(st.ctl));
    DatagramAdvances(st.ctl, st2.ctl, outcome);
  }

  lemma SweepKeepsProtocol(st: State, stops: bool)
    requires Protocol(st.ctl) && st.ctl.requests != [] && !st.ctl.aborted
    ensures var c := Swept(st, stops).ctl; Advances(st.ctl, c) && !c.aborted
  {
  }

  lemma {:induction false} ReceiveLoopAdvances(st: State, batch: Receipt, script: Script)
    requires batch.Batch? && Protocol(st.ctl) && st.ctl.requests != [] && !st.ctl.aborted
    ensures Advances(st.ctl, ReceiveLoop(st, batch, script).0.ctl)
    decreases |script|, st.ctl.socketOpen
  {
    hide Protocol, Processed, Swept;
    ProcessedAdvances(st, batch, script);
    var (st', rest, leave) := Processed(st, batch, script);
    if !leave {
      SweepKeepsProtocol(st', batch.stopsInSweep);
      var swept := Swept(st', batch.stopsInSweep);
      AdvancesTrans(st.ctl, st'.ctl, swept.ctl);
      if !swept.ctl.socketOpen {
        ReceiveLoopAdvances(swept, batch, rest);
      } else if rest != [] && rest[0].Batch? {
        ReceiveLoopAdvances(swept, rest[0], rest[1..]);
      }
    }
  }

  lemma {:induction false} EnumerateLoopAdvances(st: State, script: Script)
    requires Protocol(st.ctl) && st.ctl.requests != [] && !st.ctl.aborted
    ensures Advances(st.ctl, EnumerateLoop(st, script).0.ctl)
    decreases |script|
  {
    if !st.ctl.phase.WaitingForChanges? && st.ctl.socketOpen && script != [] {
      var (st', rest) := Receive(st, script);
      if script[0].Batch? {
        ReceiveLoopAdvances(st, script[0], script[1..]);
      }
      if !st'.ctl.aborted {
        EnumerateLoopAdvances(st', rest);
      }
    }
  }

  lemma {:induction false} ChangeLoopAdvances(st: State, script: Script)
    requires Protocol(st.ctl) && st.ctl.requests != [] && !st.ctl.aborted
    ensures Advances(st.ctl, ChangeLoop(st, script).0.ctl)
    decreases |script|
  {
    if st.ctl.running && st.ctl.socketOpen && script != [] {
      var (st', rest) := Receive(st, script);
      if script[0].Batch? {
        ReceiveLoopAdvances(st, script[0], script[1..]);
      }
      if !st'.ctl.aborted {
        ChangeLoopAdvances(st', rest);
      }
    }
  }

  /** Whatever the script, enumerating and then running keeps the protocol invariant. */
  lemma RunKeepsProtocol(script: Script)
    ensures Advances(INITIAL_CONTROL, RunFrom(INITIAL_STATE, script).0.ctl)
  {
    var st := INITIAL_STATE.(ctl := INITIAL_CONTROL.(running := true));
    FirstRequest(st.ctl);
    var started := st.(ctl := Sent(st.ctl, RTM_GETLINK));
    EnumerateLoopAdvances(started, script);
    var (st', rest) := EnumerateLoop(started, script);
    if !st'.ctl.aborted {
      ChangeLoopAdvances(st', rest);
    }
  }

  lemma {:induction false} RankIsMonotone(requests: seq<Request>, j: nat, k: nat)
    requires RequestsInOrder(requests) && j <= k < |requests|
    ensures RankOf(requests[j]) <= RankOf(requests[k])
    decreases k
  {
    if j == k {
    } else {
      RankIsMonotone(requests, j, k - 1);
    }
  }

  lemma {:induction false} FirstOfRank(requests: seq<Request>, rank: nat) returns (k: nat)
    requires RequestsInOrder(requests) && requests != [] && rank <= RankOf(requests[|requests| - 1])
    ensures k < |requests| && RankOf(requests[k]) == rank
    ensures forall j :: 0 <= j < k ==> RankOf(requests[j]) < rank
  {
    k := 0;
    while RankOf(requests[k]) < rank
      invariant k < |requests| && RankOf(requests[k]) <= rank
      invariant forall j :: 0 <= j < k ==> RankOf(requests[j]) < rank
      decreases |requests| - k
    {
      k := k + 1;
    }
  }

  /**
   The request log of a finished enumeration: one or more GETLINK, then one or more GETADDR, then one
   or more GETROUTE, three plus the number of retries in all, after exactly three STOPs.
   */
  lemma FinishedLogShape(c: Control) returns (a: nat, b: nat)
    requires Protocol(c) && c.phase.WaitingForChanges?
    ensures 0 < a < b < |c.requests|
    ensures forall k :: 0 <= k < a ==> c.requests[k].messageType == RTM_GETLINK
    ensures forall k :: a <= k < b ==> c.requests[k].messageType == RTM_GETADDR
    ensures forall k :: b <= k < |c.requests| ==> c.requests[k].messageType == RTM_GETROUTE
    ensures c.packetsSent == |c.requests| == 3 + c.retries && c.stops == 3
  {
    a := FirstOfRank(c.requests, 1);
    b := FirstOfRank(c.requests, 2);
    forall k: nat | k < |c.requests|
      ensures RankOf(c.requests[k]) <= 2
      ensures k >= a ==> RankOf(c.requests[k]) >= 1
      ensures k >= b ==> RankOf(c.requests[k]) >= 2
    {
      if k >= a {
        RankIsMonotone(c.requests, a, k);
      }
      if k >= b {
        RankIsMonotone(c.requests, b, k);
      }
    }
  }

  lemma StaleNumberRefused(c: Control, k: nat)
    requires Protocol(c) && !c.phase.WaitingForChanges?
    requires k < |c.requests| - 1 < k + PERIOD
    ensures !Accepts(c.requests[k].seqNumber, Expected(c))
  {
    var last := |c.requests| - 1;
    NumbersDistinct(k, last);
    assert c.sequenceNumber == NumberOf(last);
  }

  /**
   During enumeration a reply to an earlier request, less than a full period back, is refused before
   anything is done with it: nothing is handled, the socket is drained and the request repeated.
   */
  lemma StaleReplyRefused(st: State, batch: Receipt, script: Script, k: nat)
    requires Protocol(st.ctl) && !st.ctl.phase.WaitingForChanges? && st.ctl.socketOpen
    requires k < |st.ctl.requests| - 1 < k + PERIOD
    requires batch.Batch? && batch.items[0].seqNumber == st.ctl.requests[k].seqNumber
    ensures ReceiveLoop(st, batch, script) == (st.(ctl := Retried(Counted(st).ctl)), Drained(script))
  {
    StaleNumberRefused(st.ctl, k);
    assert Dispatch(Counted(st), batch.items, Expected(st.ctl)) == (Counted(st), Failed(EPROTO));
  }

  // ----- stopping -----

  lemma Regroup(a: seq<Op>, b: seq<Op>, c: seq<Op>)
    ensures a + b + c == a + (b + c)
  {
  }

  predicate AllData(items: seq<Item>) {
    forall j :: 0 <= j < |items| ==> items[j].body.Data?
  }

  function Handles(items: seq<Item>): seq<Op>
    requires AllData(items)
  {
    if items == [] then [] else [Handle(items[0].body.message)] + Handles(items[1..])
  }

  predicate NoneStops(items: seq<Item>) {
    forall j :: 0 <= j < |items| ==> !items[j].stops
  }

  lemma DispatchOne(st: State, items: seq<Item>, expected: uint32)
    requires items != [] && items[0].body.Data? && Accepts(items[0].seqNumber, expected) && st.ctl.socketOpen
    ensures Dispatch(st, items, expected) == Dispatch(Handled(st, items[0]), items[1..], expected)
  {
  }

  /** A run of plain messages is handled whole; what follows is dispatched from there. */
  lemma {:induction false} DispatchData(st: State, head: seq<Item>, tail: seq<Item>)
    requires AllData(head) && NoneStops(head) && st.ctl.socketOpen
    ensures Dispatch(st, head + tail, 0) == Dispatch(st.(history := st.history + Handles(head)), tail, 0)
    decreases |head|
  {
    hide Dispatch;
    if head == [] {
      assert head + tail == tail;
      assert st.history + Handles(head) == st.history;
    } else {
      assert (head + tail)[0] == head[0] && (head + tail)[1..] == head[1..] + tail;
      DispatchOne(st, head + tail, 0);
      var st' := Handled(st, head[0]);
      DispatchData(st', head[1..], tail);
      assert st'.history + Handles(head[1..]) == st.history + Handles(head);
    }
  }

  /** The outcome of the messages after the one whose callback stopped the monitor. */
  function OutcomeAfterStop(tail: seq<Item>): Outcome {
    if tail == [] then Ok
    else if tail[0].body.Failure? then Failed(tail[0].body.errno)
    else Stop
  }

  /** The messages of a datagram up to and including the one that stops the monitor are its last. */
  lemma DispatchUntilStop(st: State, head: seq<Item>, last: Item, tail: seq<Item>)
    requires AllData(head) && NoneStops(head) && st.ctl.socketOpen
    requires last.body.Data? && last.stops
    ensures Dispatch(st, head + [last] + tail, 0)
      == (Stopped(st.(history := st.history + Handles(head) + [Handle(last.body.message)])), OutcomeAfterStop(tail))
  {
    assert head + [last] + tail == head + ([last] + tail);
    DispatchData(st, head, [last] + tail);
    assert ([last] + tail)[1..] == tail;
  }

  /** Once the socket is gone a further pass over a datagram of messages handles none of them and leaves. */
  lemma StalePass(st: State, batch: Receipt, script: Script)
    requires batch.Batch? && batch.items[0].body.Data?
    requires st.ctl.phase.WaitingForChanges? && !st.ctl.socketOpen
    ensures ReceiveLoop(st, batch, script) == (Counted(st), script)
  {
  }

  /**
   stop() from a callback while a message is handled in WaitingForChanges. Nothing after that message is
   handled, no request is sent, nothing more is received, and the loop is left after one stale
   pass over the datagram if the message was its last. The process dies only if libmnl itself reports
   an error for the rest of the datagram.
   */
  lemma StopWhileHandling(st: State, batch: Receipt, script: Script, head: seq<Item>, last: Item, tail: seq<Item>)
    requires batch.Batch? && batch.items == head + [last] + tail
    requires AllData(head) && NoneStops(head) && last.body.Data? && last.stops
    requires st.ctl.phase.WaitingForChanges? && st.ctl.socketOpen && !st.ctl.aborted
    ensures var (st', rest) := ReceiveLoop(st, batch, script);
      && st'.history == st.history + Handles(head) + [Handle(last.body.message)] + (if tail == [] then [Notify] else [])
      && st'.ctl.requests == st.ctl.requests && rest == script
      && !st'.ctl.socketOpen && !st'.ctl.running
      && st'.ctl.packetsReceived == st.ctl.packetsReceived + (if tail == [] then 2 else 1)
      && (st'.ctl.aborted <==> tail != [] && tail[0].body.Failure?)
  {
    DispatchUntilStop(Counted(st), head, last, tail);
    var stopped := Stopped(Counted(st).(history := st.history + Handles(head) + [Handle(last.body.message)]));
    assert Dispatch(Counted(st), batch.items, Expected(st.ctl)) == (stopped, OutcomeAfterStop(tail));
    if tail == [] {
      assert batch.items[0] == if head == [] then last else head[0];
      StalePass(Swept(stopped, batch.stopsInSweep), batch, script);
    }
  }

  /** stop() from a callback of the sweep after a datagram: the same, with the whole datagram handled. */
  lemma StopWhileSweeping(st: State, batch: Receipt, script: Script)
    requires batch.Batch? && AllData(batch.items) && NoneStops(batch.items) && batch.stopsInSweep
    requires st.ctl.phase.WaitingForChanges? && st.ctl.socketOpen && !st.ctl.aborted
    ensures var (st', rest) := ReceiveLoop(st, batch, script);
      && st'.history == st.history + Handles(batch.items) + [Notify]
      && st'.ctl.requests == st.ctl.requests && rest == script
      && !st'.ctl.socketOpen && !st'.ctl.running && !st'.ctl.aborted
      && st'.ctl.packetsReceived == st.ctl.packetsReceived + 2
  {
    assert batch.items == batch.items + [];
    DispatchData(Counted(st), batch.items, []);
    var handled := Counted(st).(history := st.history + Handles(batch.items));
    assert Dispatch(Counted(st), batch.items, Expected(st.ctl)) == (handled, Ok);
    StalePass(Swept(handled, true), batch, script);
  }

  /** The process can die that way: a message whose callback calls stop(), and behind it an error, here ENOBUFS. */
  lemma StopCanAbort(st: State, m: Message, script: Script)
    requires st.ctl.phase.WaitingForChanges? && st.ctl.socketOpen && !st.ctl.aborted
    ensures var batch := Batch([Item(0, Data(m), true), Item(0, Failure(ENOBUFS), false)], false);
      ReceiveLoop(st, batch, script).0.ctl.aborted
  {
    hide ReceiveLoop;
    var last, tail := Item(0, Data(m), true), [Item(0, Failure(ENOBUFS), false)];
    var batch := Batch([last] + tail, false);
    assert batch == Batch([last, tail[0]], false);
    assert batch.items == [] + [last] + tail;
    StopWhileHandling(st, batch, script, [], last, tail);
  }

  /** How a datagram stops the monitor: in a callback of one of its messages, or in one of the sweep after it. */
  datatype Ending = InMessage(head: seq<Item>, last: Item, tail: seq<Item>) | InSweep

  predicate EndsRun(batch: Receipt, ending: Ending) {
    batch.Batch? &&
    match ending
    case InMessage(head, last, tail) =>
      && batch.items == head + [last] + tail
      && AllData(head) && NoneStops(head) && last.body.Data? && last.stops
    case InSweep => AllData(batch.items) && NoneStops(batch.items) && batch.stopsInSweep
  }

  /** What is still done of such a datagram. */
  function LastOps(batch: Receipt, ending: Ending): seq<Op>
    requires EndsRun(batch, ending)
  {
    match ending
    case InMessage(head, last, tail) =>
      Handles(head) + [Handle(last.body.message)] + if tail == [] then [Notify] else []
    case InSweep => Handles(batch.items) + [Notify]
  }

  /** libmnl reports an error for the rest of the datagram. */
  predicate Dies(ending: Ending) {
    ending.InMessage? && ending.tail != [] && ending.tail[0].body.Failure?
  }

  lemma EndingLeavesLoop(st: State, batch: Receipt, script: Script, ending: Ending)
    requires EndsRun(batch, ending)
    requires st.ctl.phase.WaitingForChanges? && st.ctl.socketOpen && !st.ctl.aborted
    ensures var (st', rest) := ReceiveLoop(st, batch, script);
      && st'.history == st.history + LastOps(batch, ending)
      && st'.ctl.requests == st.ctl.requests && rest == script
      && !st'.ctl.socketOpen && !st'.ctl.running && (st'.ctl.aborted <==> Dies(ending))
  {
    hide ReceiveLoop, Handles;
    match ending
    case InMessage(head, last, tail) =>
      StopWhileHandling(st, batch, script, head, last, tail);
      var swept := if tail == [] then [Notify] else [];
      assert st.history + Handles(head) + [Handle(last.body.message)] + swept
        == st.history + (Handles(head) + [Handle(last.body.message)] + swept);
    case InSweep =>
      StopWhileSweeping(st, batch, script);
      Regroup(st.history, Handles(batch.items), [Notify]);
  }

  /** A receipt whose callbacks leave the monitor running. */
  predicate Quiet(r: Receipt) {
    r.Nothing? || (AllData(r.items) && NoneStops(r.items) && !r.stopsInSweep)
  }

  predicate AllQuiet(receipts: Script) {
    forall k :: 0 <= k < |receipts| ==> Quiet(receipts[k])
  }

  function OpsOfQuiet(r: Receipt): seq<Op>
    requires Quiet(r)
  {
    if r.Nothing? then [] else Handles(r.items) + [Notify]
  }

  function QuietOps(quiet: Script): seq<Op>
    requires AllQuiet(quiet)
  {
    if quiet == [] then [] else OpsOfQuiet(quiet[0]) + QuietOps(quiet[1..])
  }

  predicate Watching(c: Control) {
    c.running && c.socketOpen && !c.aborted && c.phase.WaitingForChanges?
  }

  /** Two states that differ only in what has been received and handled. */
  predicate OnlyReceived(c: Control, c': Control) {
    c' == c.(packetsReceived := c'.packetsReceived)
  }

  lemma QuietDatagram(st: State, script: Script) returns (st': State)
    requires Watching(st.ctl) && script != [] && script[0].Batch? && Quiet(script[0])
    ensures ChangeLoop(st, script) == ChangeLoop(st', script[1..])
    ensures OnlyReceived(st.ctl, st'.ctl) && st'.history == st.history + OpsOfQuiet(script[0])
  {
    var items := script[0].items;
    assert items == items + [];
    DispatchData(Counted(st), items, []);
    var handled := Counted(st).(history := st.history + Handles(items));
    assert Dispatch(Counted(st), items, Expected(st.ctl)) == (handled, Ok);
    assert Processed(st, script[0], script[1..]) == (handled, script[1..], false);
    st' := Swept(handled, false);
    ReceiveLoopUnrolled(st, script[0], script[1..]);
  }

  lemma QuietReceipt(st: State, script: Script) returns (st': State)
    requires Watching(st.ctl) && script != [] && Quiet(script[0])
    ensures ChangeLoop(st, script) == ChangeLoop(st', script[1..])
    ensures OnlyReceived(st.ctl, st'.ctl) && st'.history == st.history + OpsOfQuiet(script[0])
  {
    if script[0].Nothing? {
      st' := st;
    } else {
      st' := QuietDatagram(st, script);
    }
  }

  /** Quiet receipts are handled in turn, whether or not the receive loop is left in between. */
  lemma {:induction false} ThroughQuiet(st: State, quiet: Script, more: Script) returns (st': State)
    requires Watching(st.ctl) && AllQuiet(quiet)
    ensures ChangeLoop(st, quiet + more) == ChangeLoop(st', more)
    ensures OnlyReceived(st.ctl, st'.ctl) && st'.history == st.history + QuietOps(quiet)
    decreases |quiet|
  {
    hide ChangeLoop, OpsOfQuiet;
    if quiet == [] {
      assert quiet + more == more;
      st' := st;
    } else {
      assert (quiet + more)[0] == quiet[0] && (quiet + more)[1..] == quiet[1..] + more;
      var next := QuietReceipt(st, quiet + more);
      st' := ThroughQuiet(next, quiet[1..], more);
      Regroup(st.history, OpsOfQuiet(quiet[0]), QuietOps(quiet[1..]));
    }
  }

  lemma EndingIsBatch(batch: Receipt, ending: Ending)
    requires EndsRun(batch, ending)
    ensures batch.Batch?
  {
  }

  /**
   The change loop up to stop(): everything quiet is handled in turn, the datagram that stops the monitor
   is handled as far as said above, and the rest of the script is left alone.
   */
  lemma RunUntilStop(st: State, quiet: Script, batch: Receipt, more: Script, ending: Ending)
    requires Watching(st.ctl) && AllQuiet(quiet) && EndsRun(batch, ending)
    ensures var (st', rest) := ChangeLoop(st, quiet + ([batch] + more));
      && rest == more && !st'.ctl.running && !st'.ctl.socketOpen
      && st'.ctl.requests == st.ctl.requests
      && st'.history == st.history + QuietOps(quiet) + LastOps(batch, ending)
      && (st'.ctl.aborted <==> Dies(ending))
  {
    hide LastOps, QuietOps, EndsRun, ReceiveLoop;
    assert batch.Batch? by { EndingIsBatch(batch, ending); }
    var before := ThroughQuiet(st, quiet, [batch] + more);
    assert ([batch] + more)[1..] == more;
    EndingLeavesLoop(before, batch, more, ending);
    var (st', rest) := ReceiveLoop(before, batch, more);
    assert ChangeLoop(before, [batch] + more) == ChangeLoop(st', rest) == (st', rest);
  }

  // ----- completing the enumeration -----

  /** No callback of the datagram stops the monitor. */
  predicate Undisturbed(batch: Receipt)
    requires batch.Batch?
  {
    NoneStops(batch.items) && !batch.stopsInSweep
  }

  /** How a datagram ends under the expected number, when nothing stops the monitor. */
  function OutcomeOf(items: seq<Item>, expected: uint32): Outcome {
    if items == [] then Ok
    else if !Accepts(items[0].seqNumber, expected) then Failed(EPROTO)
    else
      match items[0].body
      case Done => Stop
      case Failure(errno) => Failed(errno)
      case Data(_) => OutcomeOf(items[1..], expected)
  }

  /** The operations a datagram causes before it ends. */
  function OpsOf(items: seq<Item>, expected: uint32): seq<Op> {
    if items == [] || !Accepts(items[0].seqNumber, expected) || !items[0].body.Data? then []
    else [Handle(items[0].body.message)] + OpsOf(items[1..], expected)
  }

  lemma {:induction false} DispatchUndisturbed(st: State, items: seq<Item>, expected: uint32)
    requires NoneStops(items) && st.ctl.socketOpen
    ensures Dispatch(st, items, expected)
      == (st.(history := st.history + OpsOf(items, expected)), OutcomeOf(items, expected))
    decreases |items|
  {
    if items == [] || !Accepts(items[0].seqNumber, expected) || !items[0].body.Data? {
      assert st.history + OpsOf(items, expected) == st.history;
    } else {
      DispatchOne(st, items, expected);
      var st' := Handled(st, items[0]);
      DispatchUndisturbed(st', items[1..], expected);
      assert st'.history + OpsOf(items[1..], expected) == st.history + OpsOf(items, expected);
    }
  }

  /**
   While a number is expected, a message with another number ends the datagram at the latest there: what is
   handled comes before it, and all that comes before it is handled unless something else ends the datagram.
   */
  lemma {:induction false} NothingBehindRefused(st: State, items: seq<Item>, expected: uint32, j: nat)
    requires j < |items| && !Accepts(items[j].seqNumber, expected)
    ensures var (st', outcome) := Dispatch(st, items, expected);
      && st.history <= st'.history <= st.history + OpsOf(items[..j], expected) && !outcome.Ok?
      && (st.ctl.socketOpen && NoneStops(items[..j]) ==> st'.history == st.history + OpsOf(items[..j], expected))
    decreases j
  {
    if j == 0 || !Accepts(items[0].seqNumber, expected) || !items[0].body.Data? {
      assert st.history + [] == st.history;
    } else if st.ctl.socketOpen {
      assert items[..j][1..] == items[1..][..j - 1];
      var st' := Handled(st, items[0]);
      NothingBehindRefused(st', items[1..], expected, j - 1);
      Regroup(st.history, [Handle(items[0].body.message)], OpsOf(items[1..][..j - 1], expected));
      assert NoneStops(items[..j]) ==> !items[..j][0].stops && NoneStops(items[..j][1..]);
    }
  }

  /**
   So during enumeration no reply to an earlier request of the last period is ever handled, wherever it
   stands and whatever the callbacks of the messages before it do.
   */
  lemma StaleReplyNeverHandled(st: State, items: seq<Item>, j: nat, k: nat)
    requires Protocol(st.ctl) && !st.ctl.phase.WaitingForChanges?
    requires j < |items| && k < |st.ctl.requests| - 1 < k + PERIOD
    requires items[j].seqNumber == st.ctl.requests[k].seqNumber
    ensures var n := Expected(st.ctl);
      var (st', outcome) := Dispatch(st, items, n);
      && st.history <= st'.history <= st.history + OpsOf(items[..j], n) && !outcome.Ok?
      && (st.ctl.socketOpen && NoneStops(items[..j]) ==> st'.history == st.history + OpsOf(items[..j], n))
  {
    hide Protocol, Dispatch, Accepts;
    StaleNumberRefused(st.ctl, k);
    NothingBehindRefused(st, items, Expected(st.ctl), j);
  }

  /**
   The script of one enumeration phase: datagrams that end well, receive calls that return nothing,
   and failed dumps with a retryable error, each followed by whatever the drain throws away; then one
   datagram that ends the dump, and nothing after it.
   */
  predicate PhaseScript(script: Script, seqNumber: uint32, retries: nat)
    decreases |script|
  {
    script != [] &&
    match script[0]
    case Nothing => PhaseScript(script[1..], seqNumber, retries)
    case Batch(items, _) =>
      Undisturbed(script[0]) &&
      match OutcomeOf(items, seqNumber)
      case Ok => PhaseScript(script[1..], seqNumber, retries)
      case Stop => script[1..] == [] && retries == 0
      case Failed(errno) =>
        ShouldRetryDump(errno) && retries > 0 && PhaseScript(Drained(script[1..]), Next(seqNumber), retries - 1)
  }

  /** What a phase adds to the history. A sweep follows every datagram that does not fail, except the last of all. */
  function PhaseOps(script: Script, seqNumber: uint32, retries: nat, final: bool): seq<Op>
    requires PhaseScript(script, seqNumber, retries)
    decreases |script|
  {
    match script[0]
    case Nothing => PhaseOps(script[1..], seqNumber, retries, final)
    case Batch(items, _) =>
      var ops := OpsOf(items, seqNumber);
      match OutcomeOf(items, seqNumber)
      case Ok => ops + [Notify] + PhaseOps(script[1..], seqNumber, retries, final)
      case Stop => ops + if final then [] else [Notify]
      case Failed(_) => ops + PhaseOps(Drained(script[1..]), Next(seqNumber), retries - 1, final)
  }

  lemma {:induction false} DrainedConcat(a: Script, b: Script)
    requires Drained(a) != []
    ensures Drained(a + b) == Drained(a) + b
  {
    if a[0].Nothing? {
      assert (a + b)[1..] == a[1..] + b;
    } else {
      assert (a + b)[1..] == a[1..] + b;
      DrainedConcat(a[1..], b);
    }
  }

  /** The enumeration runs over one receipt at a time, whether or not the receive loop is left in between. */
  lemma EnumerateOneDatagram(st: State, script: Script)
    requires !st.ctl.phase.WaitingForChanges? && st.ctl.socketOpen && !st.ctl.aborted
    requires script != [] && script[0].Batch?
    requires var (st', rest, leave) := Processed(st, script[0], script[1..]);
      !leave ==> !script[0].stopsInSweep && st'.ctl.socketOpen && !st'.ctl.phase.WaitingForChanges? && !st'.ctl.aborted
    ensures var (st', rest, leave) := Processed(st, script[0], script[1..]);
      EnumerateLoop(st, script) == EnumerateLoop(if leave then st' else Swept(st', false), rest)
  {
  }

  /** How far a phase gets: the next phase, its request unless it was the last, and all retries done. */
  ghost predicate PhaseResult(c: Control, c': Control, retries: nat) {
    && Protocol(c') && c'.requests != [] && c'.socketOpen && !c'.aborted
    && Rank(c'.phase) == Rank(c.phase) + 1 && c'.running == c.running
    && |c'.requests| == |c.requests| + retries + (if c.phase.EnumeratingRoutes? then 0 else 1)
  }

  predicate Enumerating(c: Control) {
    c.requests != [] && c.socketOpen && !c.aborted && !c.phase.WaitingForChanges?
  }

  /** A datagram under the current number, met while enumerating and not disturbed by stop(). */
  predicate Met(st: State, script: Script) {
    && Enumerating(st.ctl) && script != [] && script[0].Batch? && Undisturbed(script[0])
  }

  lemma GoodDatagram(st: State, script: Script) returns (st': State)
    requires Met(st, script) && Protocol(st.ctl) && OutcomeOf(script[0].items, st.ctl.sequenceNumber).Ok?
    ensures EnumerateLoop(st, script) == EnumerateLoop(st', script[1..])
    ensures Protocol(st'.ctl) && Enumerating(st'.ctl) && st'.ctl == Counted(st).ctl
    ensures st'.history == st.history + (OpsOf(script[0].items, st.ctl.sequenceNumber) + [Notify])
  {
    hide RequestsInOrder, Dispatch, EnumerateLoop, OutcomeOf, OpsOf;
    DispatchUndisturbed(Counted(st), script[0].items, st.ctl.sequenceNumber);
    st' := Swept(Counted(st).(history := st.history + OpsOf(script[0].items, st.ctl.sequenceNumber)), false);
    EnumerateOneDatagram(st, script);
  }

  lemma FailedDatagram(st: State, script: Script) returns (st': State)
    requires Met(st, script) && Protocol(st.ctl)
    requires var o := OutcomeOf(script[0].items, st.ctl.sequenceNumber); o.Failed? && ShouldRetryDump(o.errno)
    ensures EnumerateLoop(st, script) == EnumerateLoop(st', Drained(script[1..]))
    ensures Protocol(st'.ctl) && Enumerating(st'.ctl)
    ensures st'.ctl.phase == st.ctl.phase && st'.ctl.running == st.ctl.running
    ensures |st'.ctl.requests| == |st.ctl.requests| + 1
    ensures st'.ctl.sequenceNumber == Next(st.ctl.sequenceNumber)
    ensures st'.history == st.history + OpsOf(script[0].items, st.ctl.sequenceNumber)
  {
    hide RequestsInOrder, Dispatch, EnumerateLoop, OutcomeOf, OpsOf;
    DispatchUndisturbed(Counted(st), script[0].items, st.ctl.sequenceNumber);
    RetryRepeatsCurrentDump(Counted(st).ctl);
    EnumerateOneDatagram(st, script);
    st' := State(Retried(Counted(st).ctl), st.history + OpsOf(script[0].items, st.ctl.sequenceNumber));
  }

  lemma LastDatagram(st: State, script: Script) returns (st': State)
    requires Met(st, script) && Protocol(st.ctl)
    requires OutcomeOf(script[0].items, st.ctl.sequenceNumber).Stop?
    ensures EnumerateLoop(st, script) == EnumerateLoop(st', script[1..])
    ensures PhaseResult(st.ctl, st'.ctl, 0)
    ensures st'.history == st.history + (OpsOf(script[0].items, st.ctl.sequenceNumber)
                                         + if st.ctl.phase.EnumeratingRoutes? then [] else [Notify])
  {
    hide RequestsInOrder, Dispatch, EnumerateLoop, OutcomeOf, OpsOf;
    DispatchUndisturbed(Counted(st), script[0].items, st.ctl.sequenceNumber);
    PhaseEndKeepsProtocol(Counted(st).ctl);
    EnumerateOneDatagram(st, script);
    var ended := State(PhaseEnded(Counted(st).ctl), st.history + OpsOf(script[0].items, st.ctl.sequenceNumber));
    st' := if st.ctl.phase.EnumeratingRoutes? then ended else Swept(ended, false);
  }

  lemma LaterResult(c: Control, mid: Control, c': Control, retries: nat)
    requires PhaseResult(mid, c', retries) && mid.phase == c.phase && mid.running == c.running
    requires |mid.requests| >= |c.requests|
    ensures PhaseResult(c, c', retries + |mid.requests| - |c.requests|)
  {
  }

  lemma {:induction false} PhaseCompletes(st: State, p: Script, more: Script, retries: nat) returns (st': State)
    requires Protocol(st.ctl) && Enumerating(st.ctl)
    requires PhaseScript(p, st.ctl.sequenceNumber, retries)
    ensures EnumerateLoop(st, p + more) == EnumerateLoop(st', more)
    ensures PhaseResult(st.ctl, st'.ctl, retries)
    ensures st'.history == st.history + PhaseOps(p, st.ctl.sequenceNumber, retries, st.ctl.phase.EnumeratingRoutes?)
    decreases |p|, 1
  {
    var script := p + more;
    assert script[0] == p[0] && script[1..] == p[1..] + more;
    if p[0].Nothing? {
      st' := PhaseCompletes(st, p[1..], more, retries);
    } else if OutcomeOf(p[0].items, st.ctl.sequenceNumber).Ok? {
      st' := PhaseAfterGood(st, p, more, retries);
    } else if OutcomeOf(p[0].items, st.ctl.sequenceNumber).Stop? {
      st' := LastDatagram(st, script);
      assert p[1..] + more == more;
    } else {
      st' := PhaseAfterFailed(st, p, more, retries);
    }
  }

  lemma {:induction false} PhaseAfterGood(st: State, p: Script, more: Script, retries: nat) returns (st': State)
    requires Protocol(st.ctl) && Enumerating(st.ctl)
    requires PhaseScript(p, st.ctl.sequenceNumber, retries)
    requires p[0].Batch? && OutcomeOf(p[0].items, st.ctl.sequenceNumber).Ok?
    ensures EnumerateLoop(st, p + more) == EnumerateLoop(st', more)
    ensures PhaseResult(st.ctl, st'.ctl, retries)
    ensures st'.history == st.history + PhaseOps(p, st.ctl.sequenceNumber, retries, st.ctl.phase.EnumeratingRoutes?)
    decreases |p|, 0
  {
    hide EnumerateLoop, Protocol, OutcomeOf, OpsOf;
    var n, script := st.ctl.sequenceNumber, p + more;
    assert script[0] == p[0] && script[1..] == p[1..] + more;
    var next := GoodDatagram(st, script);
    st' := PhaseCompletes(next, p[1..], more, retries);
    LaterResult(st.ctl, next.ctl, st'.ctl, retries);
    Regroup(st.history, OpsOf(p[0].items, n) + [Notify], PhaseOps(p[1..], n, retries, st.ctl.phase.EnumeratingRoutes?));
  }

  lemma AfterFailure(p: Script, n: uint32, retries: nat, final: bool)
    requires PhaseScript(p, n, retries) && p[0].Batch? && OutcomeOf(p[0].items, n).Failed?
    ensures Undisturbed(p[0]) && ShouldRetryDump(OutcomeOf(p[0].items, n).errno)
    ensures retries > 0 && Drained(p[1..]) != [] && PhaseScript(Drained(p[1..]), Next(n), retries - 1)
    ensures PhaseOps(p, n, retries, final)
      == OpsOf(p[0].items, n) + PhaseOps(Drained(p[1..]), Next(n), retries - 1, final)
  {
  }

  lemma AfterFailedDatagram(st: State, p: Script, more: Script) returns (st': State)
    requires Met(st, p) && Protocol(st.ctl) && Drained(p[1..]) != []
    requires var o := OutcomeOf(p[0].items, st.ctl.sequenceNumber); o.Failed? && ShouldRetryDump(o.errno)
    ensures EnumerateLoop(st, p + more) == EnumerateLoop(st', Drained(p[1..]) + more)
    ensures Protocol(st'.ctl) && Enumerating(st'.ctl)
    ensures st'.ctl.phase == st.ctl.phase && st'.ctl.running == st.ctl.running
    ensures |st'.ctl.requests| == |st.ctl.requests| + 1
    ensures st'.ctl.sequenceNumber == Next(st.ctl.sequenceNumber)
    ensures st'.history == st.history + OpsOf(p[0].items, st.ctl.sequenceNumber)
  {
    assert (p + more)[0] == p[0] && (p + more)[1..] == p[1..] + more;
    st' := FailedDatagram(st, p + more);
    DrainedConcat(p[1..], more);
  }

  lemma {:induction false} PhaseAfterFailed(st: State, p: Script, more: Script, retries: nat) returns (st': State)
    requires Protocol(st.ctl) && Enumerating(st.ctl)
    requires PhaseScript(p, st.ctl.sequenceNumber, retries)
    requires p[0].Batch? && OutcomeOf(p[0].items, st.ctl.sequenceNumber).Failed?
    ensures EnumerateLoop(st, p + more) == EnumerateLoop(st', more)
    ensures PhaseResult(st.ctl, st'.ctl, retries)
    ensures st'.history == st.history + PhaseOps(p, st.ctl.sequenceNumber, retries, st.ctl.phase.EnumeratingRoutes?)
    decreases |p|, 0
  {
    hide EnumerateLoop, Protocol, OutcomeOf, OpsOf;
    var n, final := st.ctl.sequenceNumber, st.ctl.phase.EnumeratingRoutes?;
    AfterFailure(p, n, retries, final);
    var rest := Drained(p[1..]);
    var next := AfterFailedDatagram(st, p, more);
    st' := PhaseCompletes(next, rest, more, retries - 1);
    LaterResult(st.ctl, next.ctl, st'.ctl, retries - 1);
    Regroup(st.history, OpsOf(p[0].items, n), PhaseOps(rest, Next(n), retries - 1, final));
  }
}
