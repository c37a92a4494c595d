/** Value types shared by the model: machine integers, addresses and options. */
module Types {

  datatype Option<+T> = None | Some(value: T) {
    function GetOr(default: T): T {
      match this
      case Some(v) => v
      case None => default
    }
  }

  type byte = x: int | 0 <= x < 0x100
  type uint16 = x: int | 0 <= x < 0x1_0000
  type uint32 = x: int | 0 <= x < 0x1_0000_0000
  type int32 = x: int | -0x8000_0000 <= x < 0x8000_0000

  /** The conversion of a signed interface index to an unsigned one, modulo 2^32. */
  function Unsigned(x: int32): uint32 {
    if x < 0 then x + 0x1_0000_0000 else x
  }

  /** An interface name: the bytes before the terminating NUL. */
  type Name = seq<byte>

  /** An ethernet address, six bytes. */
  type Mac = m: seq<byte> | |m| == 6 witness [0, 0, 0, 0, 0, 0]

  const ZERO_MAC: Mac := [0, 0, 0, 0, 0, 0]

  datatype Ip = V4(bytes: seq<byte>) | V6(bytes: seq<byte>)

  /** A default-constructed IP address: 0.0.0.0. */
  const UNSPECIFIED_IP := V4([0, 0, 0, 0])

  datatype Scope = Global | Site | Link | Host | Nowhere

  /** The bits of a flag set, lowest first. */
  type Bits = seq<bool>

  /** An interface address record. Two records are the same entry only if every member agrees. */
  datatype NetAddress = NetAddress(
    ip: Ip,
    broadcast: Option<Ip>,
    prefixLen: byte,
    scope: Scope,
    flags: Bits,
    protocol: byte)

  /** The order C++ gives to byte arrays and strings: the first difference decides, then the shorter is smaller. */
  predicate LexLess(a: seq<int>, b: seq<int>) {
    if b == [] then false
    else if a == [] then true
    else if a[0] != b[0] then a[0] < b[0]
    else LexLess(a[1..], b[1..])
  }
}
