/**
 The small-buffer string of doctest (external/doctest/doctest/doctest.h, lines 587-663 and 3603-3778).
 Up to 23 bytes live in a 24-byte buffer whose last byte says how many are unused, so that it
 doubles as the terminator of a full buffer; longer texts live in a heap block, and the
 buffer's bytes then hold pointer, size and capacity.
 */
module SmallStrings {
  import opened Types

  const LEN := 24
  const LAST := 23
  const ON_HEAP: byte := 128

  /** How many bytes of the buffer the heap view takes up. */
  const VIEW_SIZE := 16

  function Min(a: nat, b: nat): nat {
    if a < b then a else b
  }

  /** The capacity after growing a heap block for `total` bytes. */
  function Grown(capacity: nat, total: nat): nat {
    if 2 * capacity <= total then total + 1 else 2 * capacity
  }

  /** memcpy and memmove: `src` is what was in the source beforehand. */
  method CopyBytes(dst: array<byte>, at: nat, src: seq<byte>)
    requires at + |src| <= dst.Length
    modifies dst
    ensures dst[..] == old(dst[..at]) + src + old(dst[at + |src|..])
  {
    for k := 0 to |src|
      invariant forall j :: 0 <= j < dst.Length ==>
        dst[j] == if at <= j < at + k then src[j - at] else old(dst[j])
    {
      dst[at + k] := src[k];
    }
  }

  /** memmove within one buffer, to its front. */
  method MoveToFront(a: array<byte>, pos: nat, n: nat)
    requires pos + n <= a.Length
    modifies a
    ensures a[..n] == old(a[pos..pos + n])
    ensures forall k :: n <= k < a.Length ==> a[k] == old(a[k])
  {
    ghost var before := a[..];
    var part := a[pos..pos + n];
    CopyBytes(a, 0, part);
    assert a[..] == part + before[n..];
    assert a[..n] == a[..][..n];
    assert forall k :: n <= k < a.Length ==> a[k] == a[..][k] == before[k];
  }

  class String {
    const buf: array<byte>
    var ptr: array?<byte>
    var viewSize: nat
    var viewCapacity: nat

    // ----- representation -----

    predicate IsOnStack()
      requires buf.Length == LEN
      reads buf
    {
      buf[LAST] < 128
    }

    ghost function Repr(): set<object>
      reads this
    {
      if ptr == null then {this, buf} else {this, buf, ptr}
    }

    /** Small: the last byte counts the unused ones. Large: the block is longer than the text. Both end in NUL. */
    ghost predicate Valid()
      reads this, Repr()
    {
      && buf.Length == LEN && ptr != buf
      && if IsOnStack() then
           buf[LAST] <= LAST && buf[LAST - buf[LAST]] == 0
         else
           && buf[LAST] == ON_HEAP && ptr != null
           && ptr.Length == viewCapacity > viewSize && ptr[viewSize] == 0
    }

    function Size(): nat
      requires Valid()
      reads this, Repr()
    {
      if IsOnStack() then LAST - buf[LAST] % 32 else viewSize
    }

    function Capacity(): nat
      requires Valid()
      reads this, Repr()
    {
      if IsOnStack() then LEN else viewCapacity
    }

    /** The bytes of the text, without the terminator. */
    ghost function Text(): seq<byte>
      requires Valid()
      reads this, Repr()
    {
      if IsOnStack() then buf[..LAST - buf[LAST]] else ptr[..viewSize]
    }

    lemma TextFacts()
      requires Valid()
      ensures |Text()| == Size()
      ensures IsOnStack() ==> |Text()| <= 23 && buf[23] == 23 - |Text()| && buf[|Text()|] == 0
      ensures !IsOnStack() ==> Capacity() > |Text()| && ptr[|Text()|] == 0
    {
    }

    /** What c_str gives to a copy: the text and its terminator. */
    method CStr() returns (s: seq<byte>)
      requires Valid()
      ensures s == Text() + [0]
    {
      if IsOnStack() {
        s := buf[..LAST - buf[LAST] + 1];
      } else {
        s := ptr[..viewSize + 1];
      }
    }

    /** The bytes the heap view overlays have no meaning any more. */
    method OverlayView(block: array<byte>, size: nat, capacity: nat)
      requires buf.Length == LEN
      modifies this, buf
      ensures ptr == block && viewSize == size && viewCapacity == capacity
      ensures buf[VIEW_SIZE..] == old(buf[VIEW_SIZE..])
    {
      ptr, viewSize, viewCapacity := block, size, capacity;
      for k := 0 to VIEW_SIZE
        modifies buf
        invariant buf[VIEW_SIZE..] == old(buf[VIEW_SIZE..])
      {
        buf[k] := *;
      }
    }

    // ----- construction -----

    /** allocate followed by memcpy: the common part of the constructors and of copying. */
    method Store(s: seq<byte>)
      requires buf.Length == LEN
      modifies this, buf
      ensures Valid() && Text() == s
      ensures ptr == null || ptr == old(ptr) || fresh(ptr)
      ensures IsOnStack() <==> |s| <= LAST
    {
      if |s| <= LAST {
        ptr := null;
        buf[|s|] := 0;
        buf[LAST] := LAST - |s|;
        ghost var tail := buf[|s|..];
        CopyBytes(buf, 0, s);
        assert buf[|s|..] == tail;
        assert buf[|s|] == tail[0] == 0 && buf[LAST] == tail[LAST - |s|] == LAST - |s|;
        assert buf[..|s|] == s;
        assert LAST - buf[LAST] == |s|;
        assert IsOnStack() && Text() == buf[..|s|];
      } else {
        buf[LAST] := ON_HEAP;
        var block := new byte[|s| + 1];
        OverlayView(block, |s|, |s| + 1);
        assert buf[LAST] == buf[VIEW_SIZE..][LAST - VIEW_SIZE];
        block[|s|] := 0;
        CopyBytes(block, 0, s);
        assert block[..|s|] == s;
      }
    }

    constructor Empty()
      ensures Valid() && fresh(Repr()) && Text() == [] && IsOnStack()
    {
      buf := new byte[LEN];
      ptr := null;
      new;
      buf[0] := 0;
      buf[LAST] := LAST;
    }

    constructor FromBytes(s: seq<byte>)
      ensures Valid() && fresh(Repr()) && Text() == s && (IsOnStack() <==> |s| <= 23)
    {
      buf := new byte[LEN];
      ptr := null;
      new;
      Store(s);
    }

    method CopyFrom(other: String)
      requires buf.Length == LEN && other.Valid() && other != this && buf != other.buf && buf != other.ptr
      modifies this, buf
      ensures Valid() && Text() == old(other.Text()) && (IsOnStack() <==> |Text()| <= 23)
      ensures ptr == null || ptr == old(ptr) || fresh(ptr)
    {
      if other.IsOnStack() {
        ptr := null;
        CopyBytes(buf, 0, other.buf[..]);
        assert buf[..] == other.buf[..];
        assert buf[LAST] == buf[..][LAST] == other.buf[..][LAST] == other.buf[LAST];
        ghost var n := LAST - buf[LAST];
        assert buf[n] == buf[..][n] == other.buf[..][n] == other.buf[n];
        assert buf[..n] == buf[..][..n] == other.buf[..][..n] == other.buf[..n];
      } else {
        Store(other.ptr[..other.viewSize]);
      }
    }

    /** The copy constructor. A small string is copied byte for byte, a large one is stored anew. */
    constructor Copy(other: String)
      requires other.Valid()
      ensures Valid() && fresh(Repr()) && Text() == other.Text() && (IsOnStack() <==> |Text()| <= 23)
    {
      buf := new byte[LEN];
      ptr := null;
      new;
      CopyFrom(other);
    }

    /** Copy assignment: the old block is given up first, so nothing may be read from it afterwards. */
    method Assign(other: String)
      requires Valid() && other.Valid()
      requires other != this ==> Repr() !! other.Repr()
      modifies this, buf
      ensures Valid() && Text() == old(other.Text()) && (other != this ==> (IsOnStack() <==> |Text()| <= 23))
      ensures fresh(Repr() - old(Repr()))
    {
      if other != this {
        ptr := null;
        CopyFrom(other);
      }
    }

    // ----- appending -----

    /** The tail of every heap branch: the other text and its terminator go behind the first bytes. */
    method FillBlock(mySize: nat, bytes: seq<byte>)
      requires buf.Length == LEN && buf[LAST] == ON_HEAP && ptr != null && ptr != buf && bytes != []
      requires bytes[|bytes| - 1] == 0
      requires ptr.Length == viewCapacity > viewSize == mySize + |bytes| - 1
      modifies ptr
      ensures Valid() && !IsOnStack() && Text() == old(ptr[..mySize]) + bytes[..|bytes| - 1]
    {
      CopyBytes(ptr, mySize, bytes);
      assert ptr[viewSize] == ptr[..][viewSize] == 0;
      assert ptr[..viewSize] == old(ptr[..mySize]) + bytes[..|bytes| - 1];
    }

    /** No room in the buffer: the text is saved before the view is written over it. */
    method Promote(bytes: seq<byte>)
      requires Valid() && IsOnStack() && bytes != [] && bytes[|bytes| - 1] == 0
      requires |Text()| + |bytes| > LEN
      modifies this, buf
      ensures Valid() && !IsOnStack() && fresh(ptr) && Text() == old(Text()) + bytes[..|bytes| - 1]
      ensures Capacity() == |Text()| + 1
    {
      TextFacts();
      var mySize := Size();
      var total := mySize + |bytes| - 1;
      var temp := new byte[total + 1];
      CopyBytes(temp, 0, buf[..mySize]);
      ghost var saved := temp[..mySize];
      assert saved == old(Text());
      buf[LAST] := ON_HEAP;
      OverlayView(temp, total, total + 1);
      assert buf[LAST] == buf[VIEW_SIZE..][LAST - VIEW_SIZE];
      FillBlock(mySize, bytes);
    }

    /** A new block of twice the capacity, or of the exact size if that is not enough. */
    method Grow(bytes: seq<byte>)
      requires Valid() && !IsOnStack() && bytes != [] && bytes[|bytes| - 1] == 0
      requires viewCapacity <= |Text()| + |bytes| - 1
      modifies this
      ensures Valid() && !IsOnStack() && fresh(ptr) && Text() == old(Text()) + bytes[..|bytes| - 1]
      ensures Capacity() == Grown(old(Capacity()), |Text()|)
    {
      var mySize := Size();
      var total := mySize + |bytes| - 1;
      viewCapacity := 2 * viewCapacity;
      if viewCapacity <= total {
        viewCapacity := total + 1;
      }
      var temp := new byte[viewCapacity];
      CopyBytes(temp, 0, ptr[..mySize]);
      assert temp[..mySize] == old(Text());
      viewSize := total;
      ptr := temp;
      FillBlock(mySize, bytes);
    }

    /** Room in the buffer: the terminator may land on the last byte, which then counts zero unused ones. */
    method AppendOnStack(bytes: seq<byte>)
      requires Valid() && IsOnStack() && bytes != [] && bytes[|bytes| - 1] == 0
      requires |Text()| + |bytes| <= LEN
      modifies buf
      ensures Valid() && IsOnStack() && Text() == old(Text()) + bytes[..|bytes| - 1]
    {
      TextFacts();
      var mySize := Size();
      var total := mySize + |bytes| - 1;
      CopyBytes(buf, mySize, bytes);
      assert buf[..total] == old(Text()) + bytes[..|bytes| - 1];
      assert buf[total] == buf[..][total] == 0;
      buf[LAST] := LAST - total;
      assert buf[..total] == old(Text()) + bytes[..|bytes| - 1];
    }

    method AppendOnHeap(bytes: seq<byte>)
      requires Valid() && !IsOnStack() && bytes != [] && bytes[|bytes| - 1] == 0
      requires viewCapacity > |Text()| + |bytes| - 1
      modifies this`viewSize, ptr
      ensures Valid() && !IsOnStack() && Text() == old(Text()) + bytes[..|bytes| - 1]
    {
      var mySize := Size();
      viewSize := mySize + |bytes| - 1;
      FillBlock(mySize, bytes);
    }

    /** The four branches: room on the stack, a first block, room in the block, a larger block. */
    method AppendBytes(bytes: seq<byte>, otherSize: nat)
      requires Valid() && |bytes| == otherSize + 1 && bytes[otherSize] == 0
      modifies this, Repr()
      ensures Valid() && fresh(Repr() - old(Repr()))
      ensures Text() == old(Text()) + bytes[..otherSize]
      ensures IsOnStack() <==> old(IsOnStack()) && |Text()| <= 23
      ensures old(IsOnStack()) && !IsOnStack() ==> Capacity() == |Text()| + 1
      ensures !old(IsOnStack()) ==>
        Capacity() == if old(Capacity()) > |Text()| then old(Capacity()) else Grown(old(Capacity()), |Text()|)
    {
      TextFacts();
      hide Grown;
      var total := Size() + otherSize;
      if IsOnStack() {
        if total < LEN {
          AppendOnStack(bytes);
        } else {
          Promote(bytes);
        }
      } else if viewCapacity > total {
        AppendOnHeap(bytes);
      } else {
        Grow(bytes);
      }
    }

    /** operator+= with another object. */
    method Append(other: String)
      requires Valid() && other.Valid() && other != this && Repr() !! other.Repr()
      modifies this, Repr()
      ensures Valid() && fresh(Repr() - old(Repr()))
      ensures Text() == old(Text()) + old(other.Text())
      ensures other.Valid() && other.Text() == old(other.Text())
      ensures IsOnStack() <==> old(IsOnStack()) && |Text()| <= 23
      ensures old(IsOnStack()) && !IsOnStack() ==> Capacity() == |Text()| + 1
      ensures !old(IsOnStack()) ==>
        Capacity() == if old(Capacity()) > |Text()| then old(Capacity())
                      else if 2 * old(Capacity()) > |Text()| then 2 * old(Capacity())
                      else |Text()| + 1
    {
      assert Repr() !! other.Repr();
      other.TextFacts();
      var bytes := other.CStr();
      AppendBytes(bytes, other.Size());
    }

    // ----- moving -----

    /** The bytes of the union change hands, whatever they mean, and the source is left empty. */
    method TakeFrom(other: String)
      requires buf.Length == LEN && other.Valid() && other != this && buf != other.buf && buf != other.ptr
      modifies this, buf, other, other.buf
      ensures Valid() && Text() == old(other.Text())
      ensures ptr == old(other.ptr)
      ensures IsOnStack() == old(other.IsOnStack()) && Capacity() == old(other.Capacity())
      ensures other.Valid() && other.Text() == [] && other.ptr == null
    {
      CopyBytes(buf, 0, other.buf[..]);
      assert buf[..] == other.buf[..];
      ptr, viewSize, viewCapacity := other.ptr, other.viewSize, other.viewCapacity;
      assert forall k :: 0 <= k < LEN ==> buf[k] == buf[..][k] && other.buf[k] == other.buf[..][k];
      assert IsOnStack() ==> buf[..LAST - buf[LAST]] == old(other.buf[..LAST - other.buf[LAST]]);
      other.ptr := null;
      other.buf[0] := 0;
      other.buf[LAST] := LAST;
    }

    constructor Move(other: String)
      requires other.Valid()
      modifies other, other.buf
      ensures Valid() && Text() == old(other.Text()) && fresh(this) && fresh(buf) && ptr == old(other.ptr)
      ensures IsOnStack() == old(other.IsOnStack()) && Capacity() == old(other.Capacity())
      ensures other.Valid() && other.Text() == [] && Repr() !! other.Repr()
    {
      buf := new byte[LEN];
      ptr := null;
      new;
      TakeFrom(other);
    }

    method MoveAssign(other: String)
      requires Valid() && other.Valid()
      requires other != this ==> Repr() !! other.Repr()
      modifies this, buf, other, other.buf
      ensures Valid() && Text() == old(other.Text())
      ensures IsOnStack() == old(other.IsOnStack()) && Capacity() == old(other.Capacity())
      ensures other.Valid() && (other != this ==> other.Text() == [] && Repr() !! other.Repr())
    {
      if other != this {
        TakeFrom(other);
      }
    }

    // ----- parts -----

    /** substr on a string that stays as it is. */
    method Substr(pos: nat, cnt: nat) returns (r: String)
      requires Valid() && pos <= |Text()|
      ensures r.Valid() && fresh(r.Repr()) && r.Text() == Text()[pos..pos + Min(cnt, |Text()| - pos)]
    {
      TextFacts();
      var n := Min(cnt, Size() - pos);
      var bytes := CStr();
      r := new String.FromBytes(bytes[pos..pos + n]);
      assert bytes[pos..pos + n] == Text()[pos..pos + n];
    }

    /** setSize: a shorter text in place. A block stays a block, however short its text becomes. */
    method SetSize(n: nat)
      requires Valid() && n <= |Text()|
      modifies this`viewSize, buf, Repr()
      ensures Valid() && Text() == old(Text()[..n]) && ptr == old(ptr)
      ensures IsOnStack() == old(IsOnStack())
    {
      TextFacts();
      if IsOnStack() {
        buf[n] := 0;
        buf[LAST] := LAST - n;
        assert buf[..n] == old(Text()[..n]);
      } else {
        ptr[n] := 0;
        viewSize := n;
        assert ptr[..n] == old(Text()[..n]);
      }
    }

    method ShiftOnStack(pos: nat, n: nat)
      requires Valid() && IsOnStack() && pos + n <= |Text()|
      modifies buf
      ensures Valid() && IsOnStack() && |Text()| == old(|Text()|) && Text()[..n] == old(Text()[pos..pos + n])
    {
      assert buf[pos..pos + n] == Text()[pos..pos + n];
      MoveToFront(buf, pos, n);
      assert Text()[..n] == buf[..n];
    }

    method ShiftOnHeap(pos: nat, n: nat)
      requires Valid() && !IsOnStack() && pos + n <= |Text()|
      modifies ptr
      ensures Valid() && !IsOnStack() && |Text()| == old(|Text()|) && Text()[..n] == old(Text()[pos..pos + n])
    {
      assert ptr[pos..pos + n] == Text()[pos..pos + n];
      MoveToFront(ptr, pos, n);
      assert Text()[..n] == ptr[..n];
    }

    /** memmove: the part from pos goes to the front. */
    method Shift(pos: nat, n: nat)
      requires Valid() && pos + n <= |Text()|
      modifies Repr()
      ensures Valid() && ptr == old(ptr) && IsOnStack() == old(IsOnStack())
      ensures |Text()| == old(|Text()|) && Text()[..n] == old(Text()[pos..pos + n])
    {
      if IsOnStack() {
        ShiftOnStack(pos, n);
      } else {
        ShiftOnHeap(pos, n);
      }
    }

    /** substr on a string about to go away: the part is shifted to the front in place and moved out. */
    method SubstrMoved(pos: nat, cnt: nat) returns (r: String)
      requires Valid() && pos <= |Text()|
      modifies this, Repr()
      ensures r.Valid() && r.Text() == old(Text()[pos..pos + Min(cnt, |Text()| - pos)])
      ensures Valid() && Text() == [] && r.Repr() !! Repr() && fresh(r) && fresh(r.buf)
    {
      TextFacts();
      var n := Min(cnt, Size() - pos);
      Shift(pos, n);
      SetSize(n);
      r := new String.Move(this);
    }

    /** The first position of a byte at or after pos, if there is one. */
    method Find(c: byte, pos: nat) returns (at: Option<nat>)
      requires Valid()
      ensures at.Some? ==> pos <= at.value < |Text()| && Text()[at.value] == c && c !in Text()[pos..at.value]
      ensures at.None? ==> pos >= |Text()| || c !in Text()[pos..]
    {
      TextFacts();
      var bytes := CStr();
      var it := pos;
      while it < Size() && bytes[it] != c
        invariant pos <= it && (pos <= |Text()| ==> it <= |Text()|)
        invariant forall j :: pos <= j < it && j < |Text()| ==> Text()[j] != c
        decreases Size() - it
      {
        it := it + 1;
      }
      if it < Size() {
        return Some(it);
      }
      return None;
    }
  }
}
