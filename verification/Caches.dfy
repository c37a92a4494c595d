/**
 The tracker map and its history: how messages fold into it, which message decides each field, and
 why a dump that is cut short and repeated does no harm.
 */
module Caches {
  import opened Types
  import opened Trackers
  import opened AttributeTables
  import opened Messages

  type Cache = map<uint32, TrackerState>
  type DataCache = map<uint32, Fields>

  // ----- one message, as coded -----

  function NamedBy(t: TrackerState, name: Option<Name>): TrackerState {
    match name
    case Some(n) => WithName(t, n)
    case None => t
  }

  /** The fields of a NEWLINK message other than the name. */
  function LinkSet(t: TrackerState, flags: Bits, state: Option<byte>, mac: Option<Mac>, broadcast: Option<Mac>)
    : TrackerState
  {
    var t := WithLinkFlags(t, flags);
    var t := if state.Some? then WithOperationalState(t, state.value) else t;
    var t := if mac.Some? then WithMac(t, mac.value) else t;
    if broadcast.Some? then WithBroadcast(t, broadcast.value) else t
  }

  function UpdatedLink(t: TrackerState, e: Effect): TrackerState
    requires e.LinkNew?
  {
    LinkSet(NamedBy(t, e.name), e.flags, e.state, e.mac, e.broadcast)
  }

  function Updated(t: TrackerState, e: Effect): TrackerState
    requires !e.Skip? && !e.LinkGone?
  {
    match e
    case LinkNew(_, _, _, _, _, _) => UpdatedLink(t, e)
    case AddressNew(_, name, a) => AddressAdded(NamedBy(t, name), a)
    case AddressGone(_, name, a) => AddressRemoved(NamedBy(t, name), a)
    case GatewayNew(_, ip) => WithGateway(t, ip)
    case GatewayGone(_) => GatewayCleared(t)
  }

  /** The tracker of an index, or a fresh one. */
  function Tracked(c: Cache, i: uint32): TrackerState {
    if i in c then c[i] else FRESH_TRACKER
  }

  /** Only an accepted NEWLINK creates a tracker; everything else about an unknown index is ignored. */
  function Apply(c: Cache, e: Effect): Cache {
    match e
    case Skip => c
    case LinkGone(i, _) => c - {i}
    case LinkNew(i, _, _, _, _, _) => c[i := Updated(Tracked(c, i), e)]
    case _ => if e.index in c then c[e.index := Updated(c[e.index], e)] else c
  }

  lemma ApplyNothing(c: Cache, e: Effect)
    ensures e.Skip? || (!e.LinkNew? && !e.LinkGone? && e.index !in c) ==> Apply(c, e) == c
  {
  }

  lemma ApplyLink(c: Cache, e: Effect)
    requires e.LinkNew?
    ensures var named := NamedBy(Tracked(c, e.index), e.name);
      Apply(c, e) == c[e.index := named][e.index := LinkSet(named, e.flags, e.state, e.mac, e.broadcast)]
  {
  }

  lemma ApplyAddress(c: Cache, i: uint32, name: Option<Name>, a: NetAddress)
    requires i in c
    ensures var named := NamedBy(c[i], name);
      && Apply(c, AddressNew(i, name, a)) == c[i := named][i := AddressAdded(named, a)]
      && Apply(c, AddressGone(i, name, a)) == c[i := named][i := AddressRemoved(named, a)]
  {
    hide AddressAdded, AddressRemoved, NamedBy;
  }

  lemma ApplyGateway(c: Cache, i: uint32, gateway: Option<Ip>)
    ensures Apply(c, if gateway.Some? then GatewayNew(i, gateway.value) else GatewayGone(i)) ==
      if i !in c then c
      else c[i := if gateway.Some? then WithGateway(c[i], gateway.value) else GatewayCleared(c[i])]
  {
    hide WithGateway, GatewayCleared;
  }

  // ----- the same on plain fields: unconditional overwriting, no flags, no counters -----

  function Cleared(gateway: Option<Ip>): Option<Ip> {
    if gateway.Some? then Some(UNSPECIFIED_IP) else None
  }

  /** A removal that takes a record out and leaves no IPv4 record also clears the gateway. */
  predicate RemovesLastIPv4(f: Fields, a: NetAddress) {
    a in f.addresses && !HasIPv4(f.addresses - {a})
  }

  function Overwritten(f: Fields, e: Effect): Fields {
    match e
    case LinkNew(_, name, flags, state, mac, broadcast) =>
      f.(name := name.GetOr(f.name), linkFlags := flags, operationalState := state.GetOr(f.operationalState),
         mac := mac.GetOr(f.mac), broadcast := broadcast.GetOr(f.broadcast))
    case AddressNew(_, name, a) => f.(name := name.GetOr(f.name), addresses := f.addresses + {a})
    case AddressGone(_, name, a) =>
      f.(name := name.GetOr(f.name), addresses := f.addresses - {a},
         gateway := if RemovesLastIPv4(f, a) then Cleared(f.gateway) else f.gateway)
    case GatewayNew(_, ip) => f.(gateway := Some(ip))
    case GatewayGone(_) => f.(gateway := Cleared(f.gateway))
    case _ => f
  }

  /** The fields of an index, or the defaults. */
  function Start(c: DataCache, i: uint32): Fields {
    if i in c then c[i] else DEFAULT_FIELDS
  }

  function ApplyData(d: DataCache, e: Effect): DataCache {
    match e
    case Skip => d
    case LinkGone(i, _) => d - {i}
    case LinkNew(i, _, _, _, _, _) => d[i := Overwritten(Start(d, i), e)]
    case _ => if e.index in d then d[e.index := Overwritten(d[e.index], e)] else d
  }

  function DataOf(c: Cache): (d: DataCache)
    ensures d.Keys == c.Keys
  {
    map i | i in c :: c[i].data
  }

  lemma NamedByData(t: TrackerState, name: Option<Name>)
    ensures NamedBy(t, name).data == t.data.(name := name.GetOr(t.data.name))
  {
  }

  lemma UpdatedLinkData(t: TrackerState, e: Effect)
    requires e.LinkNew?
    ensures UpdatedLink(t, e).data == Overwritten(t.data, e)
  {
    NamedByData(t, e.name);
    var t1 := NamedBy(t, e.name);
    var t2 := WithLinkFlags(t1, e.flags);
    assert t2.data == t1.data.(linkFlags := e.flags);
    var t3 := if e.state.Some? then WithOperationalState(t2, e.state.value) else t2;
    assert t3.data == t2.data.(operationalState := e.state.GetOr(t2.data.operationalState));
    var t4 := if e.mac.Some? then WithMac(t3, e.mac.value) else t3;
    assert t4.data == t3.data.(mac := e.mac.GetOr(t3.data.mac));
    var t5 := if e.broadcast.Some? then WithBroadcast(t4, e.broadcast.value) else t4;
    assert t5.data == t4.data.(broadcast := e.broadcast.GetOr(t4.data.broadcast));
  }

  lemma RemovedData(t: TrackerState, a: NetAddress)
    ensures AddressRemoved(t, a).data == t.data.(
      addresses := t.data.addresses - {a},
      gateway := if RemovesLastIPv4(t.data, a) then Cleared(t.data.gateway) else t.data.gateway)
  {
    if a !in t.data.addresses {
      assert t.data.addresses - {a} == t.data.addresses;
    }
  }

  lemma UpdatedData(t: TrackerState, e: Effect)
    requires !e.Skip? && !e.LinkGone?
    ensures Updated(t, e).data == Overwritten(t.data, e)
  {
    match e
    case LinkNew(_, _, _, _, _, _) => UpdatedLinkData(t, e);
    case AddressNew(_, name, a) =>
      NamedByData(t, name);
      if a in t.data.addresses {
        assert t.data.addresses + {a} == t.data.addresses;
      }
    case AddressGone(_, name, a) =>
      NamedByData(t, name);
      RemovedData(NamedBy(t, name), a);
    case _ =>
  }

  /** The guarded, flag-setting update of the code stores what plain overwriting stores. */
  lemma ApplyRefinesOverwriting(c: Cache, e: Effect)
    ensures DataOf(Apply(c, e)) == ApplyData(DataOf(c), e)
  {
    match e
    case Skip =>
    case LinkGone(_, _) =>
    case LinkNew(i, _, _, _, _, _) => UpdatedData(Tracked(c, i), e);
    case _ =>
      if e.index in c {
        UpdatedData(c[e.index], e);
      }
  }

  /** The cache after a history of effects. */
  function Fold(d: DataCache, h: seq<Effect>): DataCache {
    if h == [] then d else ApplyData(Fold(d, h[..|h| - 1]), h[|h| - 1])
  }

  lemma {:induction false} FoldConcat(d: DataCache, g: seq<Effect>, h: seq<Effect>)
    ensures Fold(d, g + h) == Fold(Fold(d, g), h)
  {
    if h == [] {
      assert g + h == g;
    } else {
      FoldConcat(d, g, h[..|h| - 1]);
      assert (g + h)[..|g + h| - 1] == g + h[..|h| - 1];
    }
  }

  // ----- the last-writer reading of the history -----

  predicate Creates(e: Effect, i: uint32) {
    e.LinkNew? && e.index == i
  }

  predicate Deletes(e: Effect, i: uint32) {
    e.LinkGone? && e.index == i
  }

  /** The last accepted link message about the index was a NEWLINK. */
  ghost predicate Alive(h: seq<Effect>, i: uint32) {
    exists k :: 0 <= k < |h| && Creates(h[k], i) && forall j :: k < j < |h| ==> !Deletes(h[j], i)
  }

  /** One independently written part of a tracker. */
  datatype Key =
    | KeyName
    | KeyLinkFlags
    | KeyOperationalState
    | KeyMac
    | KeyBroadcast
    | KeyAddress(a: NetAddress)
    | KeyGatewayKnown
    | KeyGateway

  datatype Value =
    | OfName(n: Name)
    | OfBits(b: Bits)
    | OfByte(x: byte)
    | OfMac(m: Mac)
    | OfBool(t: bool)
    | OfIp(g: Option<Ip>)

  function ValueOf(f: Fields, key: Key): Value {
    match key
    case KeyName => OfName(f.name)
    case KeyLinkFlags => OfBits(f.linkFlags)
    case KeyOperationalState => OfByte(f.operationalState)
    case KeyMac => OfMac(f.mac)
    case KeyBroadcast => OfMac(f.broadcast)
    case KeyAddress(a) => OfBool(a in f.addresses)
    case KeyGatewayKnown => OfBool(f.gateway.Some?)
    case KeyGateway => OfIp(f.gateway)
  }

  /** The value an effect writes to a part of tracker i, whatever the tracker holds. */
  function Writes(e: Effect, i: uint32, key: Key): Option<Value> {
    if e.Skip? || e.LinkGone? || e.index != i then None
    else
      match key
      case KeyName =>
        if e.GatewayNew? || e.GatewayGone? || e.name.None? then None else Some(OfName(e.name.value))
      case KeyLinkFlags => if e.LinkNew? then Some(OfBits(e.flags)) else None
      case KeyOperationalState => if e.LinkNew? && e.state.Some? then Some(OfByte(e.state.value)) else None
      case KeyMac => if e.LinkNew? && e.mac.Some? then Some(OfMac(e.mac.value)) else None
      case KeyBroadcast => if e.LinkNew? && e.broadcast.Some? then Some(OfMac(e.broadcast.value)) else None
      case KeyAddress(a) =>
        if e.AddressNew? && e.address == a then Some(OfBool(true))
        else if e.AddressGone? && e.address == a then Some(OfBool(false))
        else None
      case KeyGatewayKnown => if e.GatewayNew? then Some(OfBool(true)) else None
      case KeyGateway => if e.GatewayNew? then Some(OfIp(Some(e.gateway))) else None
  }

  /** Overwriting changes exactly the parts an effect writes. A gateway can also be cleared. */
  lemma OverwritesWhatItWrites(f: Fields, e: Effect, key: Key)
    requires !e.Skip? && !e.LinkGone?
    requires key != KeyGateway || !(e.GatewayGone? || e.AddressGone?)
    ensures ValueOf(Overwritten(f, e), key) == Writes(e, e.index, key).GetOr(ValueOf(f, key))
  {
  }

  /** What one effect does to one part of tracker i. */
  lemma StepValue(d: DataCache, e: Effect, i: uint32, key: Key)
    requires i in ApplyData(d, e)
    requires key != KeyGateway || !(e.GatewayGone? || e.AddressGone?)
    ensures ValueOf(ApplyData(d, e)[i], key) == Writes(e, i, key).GetOr(ValueOf(Start(d, i), key))
  {
    if !e.Skip? && !e.LinkGone? && e.index == i {
      OverwritesWhatItWrites(Start(d, i), e, key);
    }
  }

  lemma AliveStep(h: seq<Effect>, i: uint32)
    requires h != [] && !Creates(h[|h| - 1], i)
    ensures Alive(h, i) <==> Alive(h[..|h| - 1], i) && !Deletes(h[|h| - 1], i)
  {
    var n := |h| - 1;
    if Alive(h, i) {
      var k :| 0 <= k < |h| && Creates(h[k], i) && forall j :: k < j < |h| ==> !Deletes(h[j], i);
      assert Creates(h[..n][k], i);
    }
    if Alive(h[..n], i) && !Deletes(h[n], i) {
      var k :| 0 <= k < n && Creates(h[..n][k], i) && forall j :: k < j < n ==> !Deletes(h[..n][j], i);
      assert Creates(h[k], i);
      assert forall j :: k < j < n ==> h[..n][j] == h[j];
    }
  }

  lemma {:induction false} TrackedIffAlive(h: seq<Effect>, i: uint32)
    ensures i in Fold(map[], h) <==> Alive(h, i)
  {
    if h == [] {
    } else {
      var n := |h| - 1;
      TrackedIffAlive(h[..n], i);
      if Creates(h[n], i) {
        assert Alive(h, i);
      } else {
        AliveStep(h, i);
      }
    }
  }

  /** Position k is the last write to this part of tracker i within the life of the tracker. */
  ghost predicate LastWrite(h: seq<Effect>, i: uint32, key: Key, k: nat) {
    && k < |h|
    && Alive(h[..k + 1], i)
    && Writes(h[k], i, key).Some?
    && forall j :: k < j < |h| ==> Writes(h[j], i, key).None? && !Deletes(h[j], i)
  }

  lemma LastWriteStep(h: seq<Effect>, i: uint32, key: Key, k: nat)
    requires h != [] && k < |h| - 1
    ensures LastWrite(h, i, key, k)
      <==> LastWrite(h[..|h| - 1], i, key, k) && Writes(h[|h| - 1], i, key).None? && !Deletes(h[|h| - 1], i)
  {
    var n := |h| - 1;
    assert h[..n][..k + 1] == h[..k + 1];
    assert forall j :: k < j < n ==> h[..n][j] == h[j];
  }

  lemma OnlyLastWrites(h: seq<Effect>, i: uint32, key: Key)
    requires h != [] && Alive(h, i) && Writes(h[|h| - 1], i, key).Some?
    ensures forall k: nat :: LastWrite(h, i, key, k) <==> k == |h| - 1
  {
    assert h[..|h| - 1 + 1] == h;
    forall k: nat | k < |h| - 1
      ensures !LastWrite(h, i, key, k)
    {
      LastWriteStep(h, i, key, k);
    }
  }

  lemma WriteKeepsAlive(h: seq<Effect>, i: uint32, key: Key, k: nat)
    requires LastWrite(h, i, key, k)
    ensures Alive(h, i)
  {
    var g := h[..k + 1];
    var m :| 0 <= m < |g| && Creates(g[m], i) && forall j :: m < j < |g| ==> !Deletes(g[j], i);
    assert Creates(h[m], i);
    forall j | m < j < |h|
      ensures !Deletes(h[j], i)
    {
      if j <= k {
        assert g[j] == h[j];
      }
    }
  }

  lemma SameLastWrite(h: seq<Effect>, i: uint32, key: Key, k: nat)
    requires h != [] && Alive(h, i) && Writes(h[|h| - 1], i, key).None?
    ensures LastWrite(h, i, key, k) <==> LastWrite(h[..|h| - 1], i, key, k) && !Deletes(h[|h| - 1], i)
    ensures LastWrite(h, i, key, k) ==> Alive(h[..|h| - 1], i) && k < |h| - 1
  {
    if k < |h| - 1 {
      LastWriteStep(h, i, key, k);
      if LastWrite(h, i, key, k) {
        WriteKeepsAlive(h[..|h| - 1], i, key, k);
      }
    }
  }

  /**
   The cache is a last-writer function of the history. Each part of a tracked interface holds what
   its last write since the tracker was created put there, or its default if there was none.
   */
  lemma {:induction false} HistoryDecides(h: seq<Effect>, i: uint32, key: Key)
    requires Alive(h, i) && key != KeyGateway
    ensures i in Fold(map[], h)
    ensures forall k: nat :: LastWrite(h, i, key, k) ==> Some(ValueOf(Fold(map[], h)[i], key)) == Writes(h[k], i, key)
    ensures (forall k: nat :: !LastWrite(h, i, key, k)) ==>
      ValueOf(Fold(map[], h)[i], key) == ValueOf(DEFAULT_FIELDS, key)
  {
    TrackedIffAlive(h, i);
    var n := |h| - 1;
    TrackedIffAlive(h[..n], i);
    StepValue(Fold(map[], h[..n]), h[n], i, key);
    if Writes(h[n], i, key).Some? {
      OnlyLastWrites(h, i, key);
      assert LastWrite(h, i, key, n);
    } else {
      if Alive(h[..n], i) {
        HistoryDecides(h[..n], i, key);
      }
      if Deletes(h[n], i) {
        AliveStep(h, i);
      }
      forall k: nat
        ensures LastWrite(h, i, key, k) <==> LastWrite(h[..n], i, key, k)
        ensures LastWrite(h, i, key, k) ==> Alive(h[..n], i) && k < n
      {
        SameLastWrite(h, i, key, k);
      }
    }
  }

  /** The j-th effect clears the gateway of tracker i: by a route deletion, or by removing the last IPv4 record. */
  ghost predicate ClearsAt(h: seq<Effect>, i: uint32, j: nat)
    requires j < |h|
  {
    var before := Fold(map[], h[..j]);
    i in before &&
    match h[j]
    case GatewayGone(x) => x == i
    case AddressGone(x, _, a) => x == i && RemovesLastIPv4(before[i], a)
    case _ => false
  }

  ghost predicate ClearedAfter(h: seq<Effect>, i: uint32, k: nat) {
    exists j: nat :: k < j < |h| && ClearsAt(h, i, j)
  }

  lemma ClearedAfterStep(h: seq<Effect>, i: uint32, k: nat)
    requires k < |h| - 1
    ensures ClearedAfter(h, i, k) <==> ClearedAfter(h[..|h| - 1], i, k) || ClearsAt(h, i, |h| - 1)
  {
    var g := h[..|h| - 1];
    forall j: nat | j < |g|
      ensures ClearsAt(g, i, j) <==> ClearsAt(h, i, j)
    {
      assert g[..j] == h[..j];
    }
  }

  /** What the last effect of a history does to the gateway of a tracker that is there afterwards. */
  lemma GatewayStep(h: seq<Effect>, i: uint32)
    requires h != [] && i in Fold(map[], h)
    ensures var n := |h| - 1;
      var before := Fold(map[], h[..n]);
      Fold(map[], h)[i].gateway ==
        if h[n].GatewayNew? && h[n].index == i then Some(h[n].gateway)
        else if i !in before then None
        else if ClearsAt(h, i, n) then Cleared(before[i].gateway)
        else before[i].gateway
  {
  }

  lemma OtherEffectsWriteNoGateway(e: Effect, i: uint32)
    ensures Writes(e, i, KeyGateway).Some? <==> e.GatewayNew? && e.index == i
  {
  }

  lemma LastIsNoDeletion(h: seq<Effect>, i: uint32)
    requires h != [] && Alive(h, i)
    ensures !Deletes(h[|h| - 1], i)
  {
  }

  /** An effect other than a new gateway neither makes nor unmakes last gateway writes; it may clear. */
  lemma GatewayWritesStay(h: seq<Effect>, i: uint32, k: nat)
    requires h != [] && Alive(h, i) && !(h[|h| - 1].GatewayNew? && h[|h| - 1].index == i)
    ensures LastWrite(h, i, KeyGateway, k) <==> LastWrite(h[..|h| - 1], i, KeyGateway, k)
    ensures LastWrite(h, i, KeyGateway, k) ==> Alive(h[..|h| - 1], i) && k < |h| - 1
    ensures k < |h| - 1 ==>
      (ClearedAfter(h, i, k) <==> ClearedAfter(h[..|h| - 1], i, k) || ClearsAt(h, i, |h| - 1))
  {
    hide LastWrite, ClearedAfter, ClearsAt;
    OtherEffectsWriteNoGateway(h[|h| - 1], i);
    SameLastWrite(h, i, KeyGateway, k);
    LastIsNoDeletion(h, i);
    if k < |h| - 1 {
      ClearedAfterStep(h, i, k);
    }
  }

  /**
   The gateway part: none if no gateway route was accepted in the life of the tracker; otherwise the
   last accepted gateway, or 0.0.0.0 if it was cleared since.
   */
  lemma {:induction false} HistoryDecidesGateway(h: seq<Effect>, i: uint32)
    requires Alive(h, i)
    ensures i in Fold(map[], h)
    ensures forall k: nat | LastWrite(h, i, KeyGateway, k) ::
              && h[k].GatewayNew?
              && Fold(map[], h)[i].gateway == Some(if ClearedAfter(h, i, k) then UNSPECIFIED_IP else h[k].gateway)
    ensures (forall k: nat :: !LastWrite(h, i, KeyGateway, k)) ==> Fold(map[], h)[i].gateway == None
  {
    hide Fold, ClearsAt, Writes;
    TrackedIffAlive(h, i);
    assert h != [];
    var n := |h| - 1;
    var g := h[..n];
    TrackedIffAlive(g, i);
    hide Alive;
    GatewayStep(h, i);
    if h[n].GatewayNew? && h[n].index == i {
      OtherEffectsWriteNoGateway(h[n], i);
      OnlyLastWrites(h, i, KeyGateway);
      assert LastWrite(h, i, KeyGateway, n);
    } else {
      hide LastWrite, ClearedAfter;
      if Alive(g, i) {
        HistoryDecidesGateway(g, i);
      }
      forall k: nat
        ensures LastWrite(h, i, KeyGateway, k) <==> LastWrite(g, i, KeyGateway, k)
        ensures LastWrite(h, i, KeyGateway, k) ==> Alive(g, i) && k < n
        ensures k < n ==> (ClearedAfter(h, i, k) <==> ClearedAfter(g, i, k) || ClearsAt(h, i, n))
      {
        GatewayWritesStay(h, i, k);
      }
    }
  }

  // ----- repeating a dump -----

  /** A dump answers one request, so it holds link, address or route entries only, none of them a deletion. */
  ghost predicate IsDump(d: seq<Effect>) {
    || (forall e :: e in d ==> e.Skip? || e.LinkNew?)
    || (forall e :: e in d ==> e.Skip? || e.AddressNew?)
    || (forall e :: e in d ==> e.Skip? || e.GatewayNew?)
  }

  function LastIn(d: seq<Effect>, i: uint32, key: Key): Option<Value> {
    if d == [] then None
    else if Writes(d[|d| - 1], i, key).Some? then Writes(d[|d| - 1], i, key)
    else LastIn(d[..|d| - 1], i, key)
  }

  predicate AnyCreates(d: seq<Effect>, i: uint32) {
    exists e :: e in d && Creates(e, i)
  }

  lemma {:induction false} DumpTracks(c: DataCache, d: seq<Effect>, i: uint32)
    requires IsDump(d)
    ensures i in Fold(c, d) <==> i in c || AnyCreates(d, i)
  {
    if d == [] {
    } else {
      var n := |d| - 1;
      assert forall e :: e in d <==> e in d[..n] || e == d[n];
      DumpTracks(c, d[..n], i);
      assert AnyCreates(d, i) <==> AnyCreates(d[..n], i) || Creates(d[n], i);
    }
  }

  lemma {:induction false} NothingWritten(d: seq<Effect>, i: uint32, key: Key)
    requires forall e :: e in d ==> e.Skip? || e.LinkNew?
    requires !AnyCreates(d, i)
    ensures LastIn(d, i, key) == None
  {
    if d == [] {
    } else {
      var n := |d| - 1;
      assert d[n] in d;
      assert forall e :: e in d[..n] ==> e in d;
      NothingWritten(d[..n], i, key);
    }
  }

  lemma {:induction false} DumpWrites(c: DataCache, d: seq<Effect>, i: uint32, key: Key)
    requires IsDump(d) && i in Fold(c, d)
    ensures ValueOf(Fold(c, d)[i], key) == LastIn(d, i, key).GetOr(ValueOf(Start(c, i), key))
  {
    if d == [] {
    } else {
      var n := |d| - 1;
      var e := d[n];
      var before := Fold(c, d[..n]);
      assert e in d && forall x :: x in d[..n] ==> x in d;
      StepValue(before, e, i, key);
      DumpTracks(c, d[..n], i);
      if i in before {
        DumpWrites(c, d[..n], i, key);
      } else {
        NothingWritten(d[..n], i, key);
      }
    }
  }

  lemma {:induction false} LastInIsFrom(d: seq<Effect>, i: uint32, key: Key)
    ensures LastIn(d, i, key).Some? <==> exists e :: e in d && Writes(e, i, key).Some?
  {
    if d == [] {
    } else {
      var n := |d| - 1;
      LastInIsFrom(d[..n], i, key);
      assert forall e :: e in d <==> e in d[..n] || e == d[n];
    }
  }

  lemma SameValues(f: Fields, g: Fields)
    requires forall key :: ValueOf(f, key) == ValueOf(g, key)
    ensures f == g
  {
    assert ValueOf(f, KeyName) == ValueOf(g, KeyName);
    assert ValueOf(f, KeyLinkFlags) == ValueOf(g, KeyLinkFlags);
    assert ValueOf(f, KeyOperationalState) == ValueOf(g, KeyOperationalState);
    assert ValueOf(f, KeyMac) == ValueOf(g, KeyMac);
    assert ValueOf(f, KeyBroadcast) == ValueOf(g, KeyBroadcast);
    assert ValueOf(f, KeyGateway) == ValueOf(g, KeyGateway);
    forall a
      ensures a in f.addresses <==> a in g.addresses
    {
      assert ValueOf(f, KeyAddress(a)) == ValueOf(g, KeyAddress(a));
    }
  }

  /**
   Whatever was already taken from a dump, in whatever order and however often it was interrupted,
   reading the whole dump afterwards stores the same data as reading it once.
   */
  lemma RetryIsHarmless(c: DataCache, taken: seq<Effect>, d: seq<Effect>)
    requires IsDump(d) && forall e :: e in taken ==> e in d
    ensures Fold(Fold(c, taken), d) == Fold(c, d)
  {
    var once, again := Fold(c, d), Fold(Fold(c, taken), d);
    forall i: uint32
      ensures i in once <==> i in again
      ensures i in once ==> once[i] == again[i]
    {
      DumpTracks(c, d, i);
      DumpTracks(c, taken, i);
      DumpTracks(Fold(c, taken), d, i);
      if i in once {
        forall key
          ensures ValueOf(once[i], key) == ValueOf(again[i], key)
        {
          DumpWrites(c, d, i, key);
          DumpWrites(Fold(c, taken), d, i, key);
          LastInIsFrom(d, i, key);
          LastInIsFrom(taken, i, key);
          if i in Fold(c, taken) {
            DumpWrites(c, taken, i, key);
          }
        }
        SameValues(once[i], again[i]);
      }
    }
  }

  // ----- the same for the messages themselves -----

  /** A dump answers one request, so it holds link, address or route messages only, none of them a deletion. */
  ghost predicate OfOneKind(dump: seq<Message>) {
    || (forall m :: m in dump ==> m.LinkMessage? && !m.deleted)
    || (forall m :: m in dump ==> m.AddressMessage? && !m.deleted)
    || (forall m :: m in dump ==> m.RouteMessage? && !m.deleted)
  }

  function Decoded(cfg: Config, messages: seq<Message>): seq<Effect> {
    if messages == [] then [] else Decoded(cfg, messages[..|messages| - 1]) + [Decode(cfg, messages[|messages| - 1])]
  }

  lemma DecodedOneMore(cfg: Config, messages: seq<Message>, m: Message)
    ensures Decoded(cfg, messages + [m]) == Decoded(cfg, messages) + [Decode(cfg, m)]
  {
    hide Decode;
    assert (messages + [m])[..|messages|] == messages;
  }

  lemma {:induction false} DecodedConcat(cfg: Config, a: seq<Message>, b: seq<Message>)
    ensures Decoded(cfg, a + b) == Decoded(cfg, a) + Decoded(cfg, b)
  {
    if b == [] {
      assert a + b == a && Decoded(cfg, b) == [];
    } else {
      hide Decoded, Decode;
      var before, last := b[..|b| - 1], b[|b| - 1];
      DecodedConcat(cfg, a, before);
      DecodedOneMore(cfg, before, last);
      DecodedOneMore(cfg, a + before, last);
      assert b == before + [last] && a + b == a + before + [last];
      var x, y, z := Decoded(cfg, a), Decoded(cfg, before), [Decode(cfg, last)];
      assert x + y + z == x + (y + z);
    }
  }

  lemma {:induction false} InDecoded(cfg: Config, messages: seq<Message>, e: Effect)
    ensures e in Decoded(cfg, messages) <==> exists m :: m in messages && e == Decode(cfg, m)
  {
    hide Decode;
    if messages == [] {
    } else {
      var n := |messages| - 1;
      InDecoded(cfg, messages[..n], e);
      assert forall m :: m in messages <==> m in messages[..n] || m == messages[n];
    }
  }

  /** What a message that is not a deletion can decode to. */
  lemma DecodesToItsKind(cfg: Config, m: Message)
    ensures m.LinkMessage? && !m.deleted ==> Decode(cfg, m).Skip? || Decode(cfg, m).LinkNew?
    ensures m.AddressMessage? && !m.deleted ==> Decode(cfg, m).Skip? || Decode(cfg, m).AddressNew?
    ensures m.RouteMessage? && !m.deleted ==> Decode(cfg, m).Skip? || Decode(cfg, m).GatewayNew?
  {
    hide DecodeAddress, Slot, AsString;
  }

  lemma DecodesToDump(cfg: Config, dump: seq<Message>)
    requires OfOneKind(dump)
    ensures IsDump(Decoded(cfg, dump))
  {
    hide Decode, Decoded;
    forall e
      ensures e in Decoded(cfg, dump) <==> exists m :: m in dump && e == Decode(cfg, m)
    {
      InDecoded(cfg, dump, e);
    }
    forall m | m in dump
      ensures m.LinkMessage? && !m.deleted ==> Decode(cfg, m).Skip? || Decode(cfg, m).LinkNew?
      ensures m.AddressMessage? && !m.deleted ==> Decode(cfg, m).Skip? || Decode(cfg, m).AddressNew?
      ensures m.RouteMessage? && !m.deleted ==> Decode(cfg, m).Skip? || Decode(cfg, m).GatewayNew?
    {
      DecodesToItsKind(cfg, m);
    }
  }

  /**
   Whatever messages were already taken from a dump, in whatever order and however often, handling the
   whole dump afterwards stores the same data as handling it once.
   */
  lemma RetriedDumpIsHarmless(cfg: Config, c: DataCache, taken: seq<Message>, dump: seq<Message>)
    requires OfOneKind(dump) && forall m :: m in taken ==> m in dump
    ensures Fold(Fold(c, Decoded(cfg, taken)), Decoded(cfg, dump)) == Fold(c, Decoded(cfg, dump))
  {
    hide Decode, Decoded, Fold, IsDump;
    DecodesToDump(cfg, dump);
    forall e | e in Decoded(cfg, taken)
      ensures e in Decoded(cfg, dump)
    {
      InDecoded(cfg, taken, e);
      InDecoded(cfg, dump, e);
    }
    RetryIsHarmless(c, Decoded(cfg, taken), Decoded(cfg, dump));
  }
}
