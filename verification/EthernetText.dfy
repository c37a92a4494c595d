/**
 The printed form of an ethernet address (src/ethernet/Address.cpp): two lower-case hexadecimal digits
 a byte, with colons between the bytes.
 */
module EthernetText {
  import opened Types

  const COLON: byte := 58
  const TEXT_LENGTH := 17

  /** The character code of a hexadecimal digit. */
  function HexDigit(n: nat): byte
    requires n < 16
  {
    if n < 10 then 48 + n else 87 + n
  }

  function Hex(b: byte): seq<byte> {
    [HexDigit(b / 16), HexDigit(b % 16)]
  }

  /** The text of any run of bytes; an address has six. */
  function Text(bytes: seq<byte>): seq<byte> {
    if bytes == [] then []
    else if |bytes| == 1 then Hex(bytes[0])
    else Hex(bytes[0]) + [COLON] + Text(bytes[1..])
  }

  // ----- reading it back -----

  function DigitValue(c: byte): Option<nat> {
    if 48 <= c <= 57 then Some(c - 48)
    else if 97 <= c <= 102 then Some(c - 87)
    else None
  }

  function Decode(text: seq<byte>): Option<seq<byte>> {
    if text == [] then Some([])
    else if |text| < 2 || DigitValue(text[0]).None? || DigitValue(text[1]).None? then None
    else
      var b: byte := 16 * DigitValue(text[0]).value + DigitValue(text[1]).value;
      if |text| == 2 then Some([b])
      else if text[2] != ':' as int || |text| == 3 then None
      else
        match Decode(text[3..])
        case Some(rest) => Some([b] + rest)
        case None => None
  }

  lemma {:induction false} TextLength(bytes: seq<byte>)
    requires bytes != []
    ensures |Text(bytes)| == 3 * |bytes| - 1
  {
    if |bytes| == 1 {
    } else {
      TextLength(bytes[1..]);
    }
  }

  lemma DecodeByte(b: byte)
    ensures Decode(Hex(b)) == Some([b])
  {
  }

  lemma DecodeByteAndMore(b: byte, more: seq<byte>)
    requires more != []
    ensures Decode(Hex(b) + [COLON] + more) ==
      match Decode(more)
      case Some(rest) => Some([b] + rest)
      case None => None
  {
    var text := Hex(b) + [COLON] + more;
    assert text[0] == Hex(b)[0] && text[1] == Hex(b)[1] && text[2] == COLON && text[3..] == more;
  }

  lemma {:induction false} DecodeText(bytes: seq<byte>)
    ensures Decode(Text(bytes)) == Some(bytes)
  {
    if bytes == [] {
    } else if |bytes| == 1 {
      DecodeByte(bytes[0]);
      assert bytes == [bytes[0]];
    } else {
      hide Decode, Hex;
      DecodeText(bytes[1..]);
      TextLength(bytes[1..]);
      DecodeByteAndMore(bytes[0], Text(bytes[1..]));
      assert bytes == [bytes[0]] + bytes[1..];
    }
  }

  // ----- order -----

  lemma HexOrder(x: byte, y: byte, a: seq<byte>, b: seq<byte>)
    ensures LexLess(Hex(x) + a, Hex(y) + b) <==> if x == y then LexLess(a, b) else x < y
  {
    var s, t := Hex(x) + a, Hex(y) + b;
    assert s[1..][0] == HexDigit(x % 16) && t[1..][0] == HexDigit(y % 16);
    assert s[1..][1..] == a && t[1..][1..] == b;
  }

  /** Addresses of equal length and their texts sort alike. */
  lemma {:induction false} TextKeepsOrder(x: seq<byte>, y: seq<byte>)
    requires |x| == |y|
    ensures LexLess(x, y) <==> LexLess(Text(x), Text(y))
  {
    if |x| == 1 {
      HexOrder(x[0], y[0], [], []);
      assert Hex(x[0]) + [] == Hex(x[0]) && Hex(y[0]) + [] == Hex(y[0]);
      assert !LexLess(x[1..], y[1..]);
    } else if |x| > 1 {
      TextKeepsOrder(x[1..], y[1..]);
      var a, b := [COLON] + Text(x[1..]), [COLON] + Text(y[1..]);
      HexOrder(x[0], y[0], a, b);
      assert Text(x) == Hex(x[0]) + a && Text(y) == Hex(y[0]) + b;
      assert a[1..] == Text(x[1..]) && b[1..] == Text(y[1..]);
    }
  }

  /** Different addresses have different texts. */
  lemma TextInjective(x: Mac, y: Mac)
    ensures Text(x) == Text(y) <==> x == y
  {
    DecodeText(x);
    DecodeText(y);
  }

  // ----- the printer -----

  lemma {:induction false} TextOfMore(bytes: seq<byte>, b: byte)
    ensures Text(bytes + [b]) == if bytes == [] then Hex(b) else Text(bytes) + [COLON] + Hex(b)
  {
    if |bytes| == 1 {
      assert (bytes + [b])[1..] == [b];
    } else if |bytes| > 1 {
      TextOfMore(bytes[1..], b);
      assert (bytes + [b])[1..] == bytes[1..] + [b];
    }
  }

  /** The two digits of a byte go into the buffer. */
  method PutByte(buf: array<byte>, idx: nat, b: byte)
    requires idx + 2 <= buf.Length
    modifies buf
    ensures buf[..idx + 2] == old(buf[..idx]) + Hex(b)
  {
    buf[idx] := HexDigit(b / 16);
    buf[idx + 1] := HexDigit(b % 16);
  }

  method PutColon(buf: array<byte>, idx: nat)
    requires idx < buf.Length
    modifies buf
    ensures buf[..idx + 1] == old(buf[..idx]) + [COLON]
  {
    buf[idx] := COLON;
  }

  /** What stands in the buffer after i bytes of an address: their text, and a colon unless it is complete. */
  function Filled(m: Mac, i: nat): seq<byte>
    requires i <= |m|
  {
    Text(m[..i]) + if 0 < i < |m| then [COLON] else []
  }

  lemma FilledEnds(m: Mac)
    ensures Filled(m, 0) == [] && Filled(m, |m|) == Text(m)
  {
    assert m[..|m|] == m;
  }

  lemma FilledByOneMore(m: Mac, i: nat)
    requires i < |m|
    ensures Filled(m, i + 1) == Filled(m, i) + Hex(m[i]) + if i + 1 < |m| then [COLON] else []
  {
    hide Text, Hex;
    assert m[..i + 1] == m[..i] + [m[i]];
    TextOfMore(m[..i], m[i]);
    if i == 0 {
      FilledEnds(m);
    }
  }

  /** Fills a buffer of exactly seventeen characters, a colon after every byte but the last. */
  method ToString(m: Mac) returns (s: seq<byte>)
    ensures s == Text(m) && |s| == TEXT_LENGTH
  {
    hide Filled, Hex, HexDigit;
    var buf := new byte[TEXT_LENGTH](_ => 0);
    var idx := 0;
    assert Filled(m, 0) == [] by { FilledEnds(m); }
    for i := 0 to |m|
      invariant idx == 3 * i - (if i == |m| then 1 else 0)
      invariant buf[..idx] == Filled(m, i)
    {
      FilledByOneMore(m, i);
      PutByte(buf, idx, m[i]);
      idx := idx + 2;
      if i < |m| - 1 {
        PutColon(buf, idx);
        idx := idx + 1;
      }
    }
    FilledEnds(m);
    s := buf[..];
  }
}
