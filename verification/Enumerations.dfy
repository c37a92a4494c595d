/**
 The initial enumeration as a whole: it completes on every script that answers each dump after
 finitely many retries, and the retries leave no trace in the cache.
 */
module Enumerations {
  import opened Messages
  import opened Caches
  import opened Subscriptions
  import opened DumpProtocol

  /** The script of a whole enumeration: one phase after the other, each under the number its request got. */
  predicate EnumerationScript(p1: Script, p2: Script, p3: Script, r1: nat, r2: nat, r3: nat) {
    && PhaseScript(p1, NumberOf(0), r1)
    && PhaseScript(p2, NumberOf(r1 + 1), r2)
    && PhaseScript(p3, NumberOf(r1 + r2 + 2), r3)
  }

  function EnumerationOps(p1: Script, p2: Script, p3: Script, r1: nat, r2: nat, r3: nat): seq<Op>
    requires EnumerationScript(p1, p2, p3, r1, r2, r3)
  {
    PhaseOps(p1, NumberOf(0), r1, false)
    + PhaseOps(p2, NumberOf(r1 + 1), r2, false)
    + PhaseOps(p3, NumberOf(r1 + r2 + 2), r3, true)
  }

  /** A state in the given phase with the given number of requests sent. */
  ghost predicate At(st: State, rank: nat, sent: nat) {
    && Protocol(st.ctl) && st.ctl.socketOpen && !st.ctl.aborted
    && Rank(st.ctl.phase) == rank && |st.ctl.requests| == sent > 0
  }

  lemma CompletePhase(st: State, p: Script, more: Script, retries: nat, rank: nat, sent: nat) returns (st': State)
    requires At(st, rank, sent) && rank < 3
    requires PhaseScript(p, NumberOf(sent - 1), retries)
    ensures EnumerateLoop(st, p + more) == EnumerateLoop(st', more)
    ensures At(st', rank + 1, sent + retries + if rank == 2 then 0 else 1) && st'.ctl.running == st.ctl.running
    ensures st'.history == st.history + PhaseOps(p, NumberOf(sent - 1), retries, rank == 2)
  {
    assert st.ctl.sequenceNumber == NumberOf(sent - 1);
    st' := PhaseCompletes(st, p, more, retries);
  }

  lemma TwoPhases(st: State, p1: Script, p2: Script, r1: nat, r2: nat, more: Script) returns (st': State)
    requires At(st, 0, 1) && PhaseScript(p1, NumberOf(0), r1) && PhaseScript(p2, NumberOf(r1 + 1), r2)
    ensures EnumerateLoop(st, p1 + (p2 + more)) == EnumerateLoop(st', more)
    ensures At(st', 2, 3 + r1 + r2) && st'.ctl.running == st.ctl.running
    ensures st'.history
      == st.history + (PhaseOps(p1, NumberOf(0), r1, false) + PhaseOps(p2, NumberOf(r1 + 1), r2, false))
  {
    hide At, PhaseOps, PhaseScript, EnumerateLoop;
    var mid := CompletePhase(st, p1, p2 + more, r1, 0, 1);
    st' := CompletePhase(mid, p2, more, r2, 1, r1 + 2);
    Regroup(st.history, PhaseOps(p1, NumberOf(0), r1, false), PhaseOps(p2, NumberOf(r1 + 1), r2, false));
  }

  lemma ThreePhases(st: State, p1: Script, p2: Script, p3: Script, r1: nat, r2: nat, r3: nat, more: Script)
    returns (st': State)
    requires At(st, 0, 1) && EnumerationScript(p1, p2, p3, r1, r2, r3)
    ensures EnumerateLoop(st, p1 + (p2 + (p3 + more))) == EnumerateLoop(st', more)
    ensures At(st', 3, 3 + r1 + r2 + r3) && st'.ctl.running == st.ctl.running
    ensures st'.history == st.history + EnumerationOps(p1, p2, p3, r1, r2, r3)
  {
    hide At, PhaseOps, PhaseScript, EnumerateLoop;
    var mid := TwoPhases(st, p1, p2, r1, r2, p3 + more);
    st' := CompletePhase(mid, p3, more, r3, 2, r1 + r2 + 3);
    Regroup(st.history, PhaseOps(p1, NumberOf(0), r1, false) + PhaseOps(p2, NumberOf(r1 + 1), r2, false),
            PhaseOps(p3, NumberOf(r1 + r2 + 2), r3, true));
  }

  lemma FreshControl(c: Control)
    requires c == INITIAL_CONTROL.(running := c.running)
    ensures Protocol(c) && c.requests == [] && c.socketOpen
  {
  }

  /** The enumeration of a fresh monitor, running or not, ends waiting with the rest of the script untouched. */
  lemma EnumerationEnds(running: bool, history: seq<Op>, p1: Script, p2: Script, p3: Script, r1: nat, r2: nat, r3: nat,
                        more: Script) returns (st: State)
    requires EnumerationScript(p1, p2, p3, r1, r2, r3)
    ensures Enumerate(State(INITIAL_CONTROL.(running := running), history), p1 + p2 + p3 + more) == (st, more)
    ensures At(st, 3, 3 + r1 + r2 + r3) && st.ctl.running == running
    ensures st.history == history + EnumerationOps(p1, p2, p3, r1, r2, r3)
  {
    hide EnumerationOps, EnumerationScript, RequestsInOrder;
    var initial := INITIAL_CONTROL.(running := running);
    FreshControl(initial);
    FirstRequest(initial);
    var started := State(Sent(initial, RTM_GETLINK), history);
    assert p1 + p2 + p3 + more == p1 + (p2 + (p3 + more));
    st := ThreePhases(started, p1, p2, p3, r1, r2, r3, more);
    assert EnumerateLoop(st, more) == (st, more);
  }

  /**
   The enumeration consumes exactly the script of its three phases, whatever follows, and ends waiting
   for changes after three STOPs and three requests plus the retries.
   */
  lemma EnumerationCompletes(history: seq<Op>, p1: Script, p2: Script, p3: Script, r1: nat, r2: nat, r3: nat,
                             more: Script)
    requires EnumerationScript(p1, p2, p3, r1, r2, r3)
    ensures var (st, rest) := Enumerate(State(INITIAL_CONTROL, history), p1 + p2 + p3 + more);
      && rest == more
      && st.ctl.phase == WaitingForChanges && st.ctl.socketOpen && !st.ctl.aborted
      && |st.ctl.requests| == 3 + r1 + r2 + r3 && st.ctl.retries == r1 + r2 + r3 && st.ctl.stops == 3
      && st.history == history + EnumerationOps(p1, p2, p3, r1, r2, r3)
  {
    hide EnumerationOps, EnumerationScript, RequestsInOrder, Enumerate;
    var _ := EnumerationEnds(false, history, p1, p2, p3, r1, r2, r3, more);
  }

  /**
   run() from start to stop: the three dumps with all their retries, then everything quiet in turn, then
   the datagram that stops the monitor. run returns, no request follows the enumeration, and
   the rest of the script is left alone.
   */
  lemma RunReturnsAfterStop(history: seq<Op>, p1: Script, p2: Script, p3: Script, r1: nat, r2: nat, r3: nat,
                            quiet: Script, batch: Receipt, more: Script, ending: Ending)
    requires EnumerationScript(p1, p2, p3, r1, r2, r3) && AllQuiet(quiet) && EndsRun(batch, ending)
    ensures var (st, rest) := RunFrom(State(INITIAL_CONTROL, history), p1 + p2 + p3 + (quiet + ([batch] + more)));
      && rest == more && !st.ctl.running && !st.ctl.socketOpen && |st.ctl.requests| == 3 + r1 + r2 + r3
      && st.history == history + EnumerationOps(p1, p2, p3, r1, r2, r3) + QuietOps(quiet) + LastOps(batch, ending)
      && (st.ctl.aborted <==> Dies(ending))
  {
    hide EnumerationOps, EnumerationScript, RequestsInOrder, Enumerate, ChangeLoop, QuietOps, LastOps, EndsRun;
    var watching := EnumerationEnds(true, history, p1, p2, p3, r1, r2, r3, quiet + ([batch] + more));
    RunUntilStop(watching, quiet, batch, more, ending);
  }

  /** run() on a monitor that has been enumerated before: nothing is requested again, the rest is the same. */
  lemma RunAfterEnumerating(st: State, quiet: Script, batch: Receipt, more: Script, ending: Ending)
    requires st.ctl.phase.WaitingForChanges? && st.ctl.socketOpen && !st.ctl.aborted
    requires AllQuiet(quiet) && EndsRun(batch, ending)
    ensures var (st', rest) := RunFrom(st, quiet + ([batch] + more));
      && rest == more && !st'.ctl.running && !st'.ctl.socketOpen && st'.ctl.requests == st.ctl.requests
      && st'.history == st.history + QuietOps(quiet) + LastOps(batch, ending)
      && (st'.ctl.aborted <==> Dies(ending))
  {
    hide ChangeLoop, QuietOps, LastOps, EndsRun;
    RunUntilStop(st.(ctl := st.ctl.(running := true)), quiet, batch, more, ending);
  }

  lemma {:induction false} EffectsConcat(cfg: Config, a: seq<Op>, b: seq<Op>)
    ensures Effects(cfg, a + b) == Effects(cfg, a) + Effects(cfg, b)
  {
    if b == [] {
      assert a + b == a;
    } else {
      EffectsConcat(cfg, a, b[..|b| - 1]);
      assert (a + b)[..|a + b| - 1] == a + b[..|b| - 1];
    }
  }

  /** The messages among some operations, in order. */
  function MessagesOf(ops: seq<Op>): seq<Message> {
    if ops == [] then []
    else MessagesOf(ops[..|ops| - 1]) + if ops[|ops| - 1].Handle? then [ops[|ops| - 1].m] else []
  }

  lemma {:induction false} EffectsAreDecoded(cfg: Config, ops: seq<Op>)
    ensures Effects(cfg, ops) == Decoded(cfg, MessagesOf(ops))
  {
    hide Decode;
    if ops == [] {
    } else {
      EffectsAreDecoded(cfg, ops[..|ops| - 1]);
      var before, op := MessagesOf(ops[..|ops| - 1]), ops[|ops| - 1];
      if op.Handle? {
        assert (before + [op.m])[..|before|] == before;
      } else {
        assert before + [] == before && MessagesOf(ops) == before;
      }
    }
  }

  /**
   If the failed attempts of a phase delivered only messages of a dump, and the last attempt delivered
   all of it, the phase stores what reading the dump once stores.
   */
  lemma PhaseStoresDump(cfg: Config, history: seq<Op>, ops: seq<Op>, taken: seq<Message>, dump: seq<Message>)
    requires MessagesOf(ops) == taken + dump
    requires OfOneKind(dump) && forall m :: m in taken ==> m in dump
    ensures DataOf(Run(cfg, history + ops).trackers) == Fold(DataOf(Run(cfg, history).trackers), Decoded(cfg, dump))
  {
    hide Run, Fold, Decode, OfOneKind;
    var before := Effects(cfg, history);
    CacheIsHistory(cfg, history + ops);
    CacheIsHistory(cfg, history);
    EffectsConcat(cfg, history, ops);
    EffectsAreDecoded(cfg, ops);
    DecodedConcat(cfg, taken, dump);
    FoldConcat(map[], before, Decoded(cfg, taken) + Decoded(cfg, dump));
    FoldConcat(Fold(map[], before), Decoded(cfg, taken), Decoded(cfg, dump));
    RetriedDumpIsHarmless(cfg, Fold(map[], before), taken, dump);
  }

  /** What one attempt-ridden phase delivered: parts of the dump, then the whole of it. */
  ghost predicate Delivers(ops: seq<Op>, dump: seq<Message>) {
    OfOneKind(dump) && exists taken: seq<Message> ::
      MessagesOf(ops) == taken + dump && forall m :: m in taken ==> m in dump
  }

  lemma NothingTracked(cfg: Config)
    ensures DataOf(Run(cfg, []).trackers) == map[]
  {
  }

  lemma PhaseDelivers(cfg: Config, history: seq<Op>, ops: seq<Op>, dump: seq<Message>)
    requires Delivers(ops, dump)
    ensures DataOf(Run(cfg, history + ops).trackers) == Fold(DataOf(Run(cfg, history).trackers), Decoded(cfg, dump))
  {
    hide Run, Fold, Decoded, OfOneKind, MessagesOf;
    var taken: seq<Message> :| MessagesOf(ops) == taken + dump && forall m :: m in taken ==> m in dump;
    PhaseStoresDump(cfg, history, ops, taken, dump);
  }

  /** After an enumeration from the start the cache holds the three dumps read once each, in order. */
  lemma EnumerationStoresDumps(cfg: Config, p1: Script, p2: Script, p3: Script, r1: nat, r2: nat, r3: nat,
                               more: Script, links: seq<Message>, addresses: seq<Message>, routes: seq<Message>)
    requires EnumerationScript(p1, p2, p3, r1, r2, r3)
    requires Delivers(PhaseOps(p1, NumberOf(0), r1, false), links)
    requires Delivers(PhaseOps(p2, NumberOf(r1 + 1), r2, false), addresses)
    requires Delivers(PhaseOps(p3, NumberOf(r1 + r2 + 2), r3, true), routes)
    ensures var (st, _) := Enumerate(INITIAL_STATE, p1 + p2 + p3 + more);
      DataOf(Run(cfg, st.history).trackers)
        == Fold(Fold(Fold(map[], Decoded(cfg, links)), Decoded(cfg, addresses)), Decoded(cfg, routes))
  {
    hide Run, Fold, Decoded, OfOneKind, MessagesOf, PhaseOps, Enumerate;
    EnumerationCompletes([], p1, p2, p3, r1, r2, r3, more);
    var o1, o2, o3 := PhaseOps(p1, NumberOf(0), r1, false), PhaseOps(p2, NumberOf(r1 + 1), r2, false),
      PhaseOps(p3, NumberOf(r1 + r2 + 2), r3, true);
    PhaseDelivers(cfg, [], o1, links);
    assert [] + o1 == o1;
    NothingTracked(cfg);
    PhaseDelivers(cfg, o1, o2, addresses);
    PhaseDelivers(cfg, o1 + o2, o3, routes);
    assert [] + EnumerationOps(p1, p2, p3, r1, r2, r3) == o1 + o2 + o3;
  }
}
