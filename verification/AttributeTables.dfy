/**
 Decoding of the attribute list of one message (src/monitor/Attributes.cpp): a slot per known type
 that keeps the last attribute of that type, and getters that accept a payload of one exact length.
 */
module AttributeTables {
  import opened Types

  type Payload = seq<byte>

  /** One attribute as libmnl presents it, its type already stripped of the two flag bits. */
  datatype Attribute = Attribute(kind: uint16, payload: Payload)

  // ----- payload interpretation -----

  function AsU8(p: Option<Payload>): Option<byte> {
    if p.Some? && |p.value| == 1 then Some(p.value[0]) else None
  }

  /** Four bytes in the byte order of a little-endian host. */
  function AsU32(p: Option<Payload>): Option<uint32> {
    if p.Some? && |p.value| == 4 then
      var b0: int, b1: int, b2: int, b3: int := p.value[0], p.value[1], p.value[2], p.value[3];
      Some(b0 + 0x100 * b1 + 0x1_0000 * b2 + 0x100_0000 * b3)
    else None
  }

  function UpToNul(p: Payload): Name {
    if p == [] || p[0] == 0 then [] else [p[0]] + UpToNul(p[1..])
  }

  lemma {:induction false} UpToFirstNul(p: Payload)
    ensures 0 !in UpToNul(p) && (UpToNul(p) == p || UpToNul(p) + [0] <= p)
  {
    if p == [] || p[0] == 0 {
    } else {
      UpToFirstNul(p[1..]);
      assert p == [p[0]] + p[1..];
    }
  }

  function AsString(p: Option<Payload>): Option<Name> {
    if p.Some? && p.value != [] then Some(UpToNul(p.value)) else None
  }

  function AsMac(p: Option<Payload>): Option<Mac> {
    if p.Some? && |p.value| == 6 then Some(p.value) else None
  }

  function AsIpV4(p: Option<Payload>): Option<Ip> {
    if p.Some? && |p.value| == 4 then Some(V4(p.value)) else None
  }

  function AsIpV6(p: Option<Payload>): Option<Ip> {
    if p.Some? && |p.value| == 16 then Some(V6(p.value)) else None
  }

  /** A getter answers exactly for payloads of its one length, and then with those bytes; a name ends before a NUL. */
  lemma GettersNeedExactLength(p: Payload)
    ensures AsU8(Some(p)).Some? <==> |p| == 1
    ensures AsU32(Some(p)).Some? <==> |p| == 4
    ensures AsMac(Some(p)) == if |p| == 6 then Some(p) else None
    ensures AsIpV4(Some(p)) == if |p| == 4 then Some(V4(p)) else None
    ensures AsIpV6(Some(p)) == if |p| == 16 then Some(V6(p)) else None
    ensures AsString(Some(p)).Some? <==> p != []
    ensures AsString(Some(p)).Some? ==>
      var name := AsString(Some(p)).value; 0 !in name && (name == p || name + [0] <= p)
  {
    UpToFirstNul(p);
  }

  // ----- which attribute a slot holds -----

  /** The payload of the last attribute of the given type, if the type is within the table. */
  function Slot(attributes: seq<Attribute>, maxType: uint16, kind: uint16): Option<Payload> {
    if kind > maxType || attributes == [] then None
    else
      var last := attributes[|attributes| - 1];
      if last.kind == kind then Some(last.payload)
      else Slot(attributes[..|attributes| - 1], maxType, kind)
  }

  function Known(attributes: seq<Attribute>, maxType: uint16): nat {
    if attributes == [] then 0
    else
      var n := |attributes| - 1;
      Known(attributes[..n], maxType) + if attributes[n].kind <= maxType then 1 else 0
  }

  lemma {:induction false} KnownAtMostAll(attributes: seq<Attribute>, maxType: uint16)
    ensures Known(attributes, maxType) <= |attributes|
  {
    if attributes == [] {
    } else {
      KnownAtMostAll(attributes[..|attributes| - 1], maxType);
    }
  }

  /** A slot is empty only if no attribute of its type came; otherwise the last one decides. */
  lemma {:induction false} SlotHoldsLast(attributes: seq<Attribute>, maxType: uint16, kind: uint16)
    requires kind <= maxType
    ensures Slot(attributes, maxType, kind) == None
      <==> forall j :: 0 <= j < |attributes| ==> attributes[j].kind != kind
    ensures forall k | 0 <= k < |attributes| && attributes[k].kind == kind ::
              (forall j :: k < j < |attributes| ==> attributes[j].kind != kind) ==>
                Slot(attributes, maxType, kind) == Some(attributes[k].payload)
  {
    if attributes == [] {
    } else {
      SlotHoldsLast(attributes[..|attributes| - 1], maxType, kind);
    }
  }

  // ----- the mutable table -----

  class AttributeTable {
    const slots: array<Option<Payload>>

    constructor (size: nat)
      requires size > 0
      ensures fresh(slots) && slots.Length == size
      ensures forall k :: 0 <= k < size ==> slots[k] == None
    {
      slots := new Option<Payload>[size](_ => None);
    }

    /** Stores a known attribute in its slot, replacing an earlier one; counts it either way. */
    method ParseAttribute(a: Attribute, seen: nat, unknown: nat) returns (seen': nat, unknown': nat)
      requires 0 < slots.Length <= 0x1_0000
      modifies slots
      ensures slots[..] == if a.kind < slots.Length then old(slots[..])[a.kind := Some(a.payload)] else old(slots[..])
      ensures seen' == seen + (if a.kind < slots.Length then 1 else 0)
      ensures seen' + unknown' == seen + unknown + 1
    {
      var maxType := slots.Length - 1;
      if a.kind <= maxType {
        slots[a.kind] := Some(a.payload);
        return seen + 1, unknown;
      }
      return seen, unknown + 1;
    }

    /** Every slot holds what the last-attribute rule says. */
    ghost predicate Holds(attributes: seq<Attribute>, maxType: uint16)
      reads this, slots
    {
      && slots.Length == maxType + 1
      && forall k: uint16 :: k <= maxType ==> slots[k] == Slot(attributes, maxType, k)
    }

    static method Parse(attributes: seq<Attribute>, maxType: uint16, seen: nat, unknown: nat)
      returns (table: AttributeTable, seen': nat, unknown': nat)
      ensures fresh(table) && fresh(table.slots) && table.Holds(attributes, maxType)
      ensures seen' == seen + Known(attributes, maxType)
      ensures unknown' == unknown + |attributes| - Known(attributes, maxType)
    {
      table := new AttributeTable(maxType + 1);
      seen', unknown' := seen, unknown;
      for i := 0 to |attributes|
        invariant fresh(table) && fresh(table.slots)
        invariant table.Holds(attributes[..i], maxType)
        invariant seen' == seen + Known(attributes[..i], maxType)
        invariant seen' + unknown' == seen + unknown + i
      {
        assert attributes[..i + 1][..i] == attributes[..i];
        seen', unknown' := table.ParseAttribute(attributes[i], seen', unknown');
      }
      assert attributes[..|attributes|] == attributes;
    }

    function Lookup(kind: uint16): (p: Option<Payload>)
      reads slots
      ensures forall attributes, maxType :: Holds(attributes, maxType) ==> p == Slot(attributes, maxType, kind)
    {
      if kind < slots.Length then slots[kind] else None
    }
  }
}
