/**
 The three naming tables of the flag sets (src/monitor/NetworkInterfaceStatusTracker.cpp, lines 293-368,
 and src/network/Address.cpp, lines 108-140). Each lets the text of a set be read back.
 */
module FlagNames {
  import opened FlagSets
  import opened Trackers

  const CHANGED_NAMES: seq<string> := [
    "NameChanged", "LinkFlagsChanged", "OperationalStateChanged", "MacAddressChanged",
    "BroadcastAddressChanged", "GatewayAddressChanged", "NetworkAddressesChanged"]

  const LINK_NAMES: seq<string> := [
    "Up", "Broadcast", "Debug", "Loopback", "PointToPoint", "NoTrailers", "Running", "NoArp", "Promiscuous",
    "AllMulticast", "Master", "Slave", "Multicast", "PortSet", "AutoMedia", "Dynamic", "LowerUp", "Dormant", "Echo"]

  const ADDRESS_NAMES: seq<string> := [
    "Temporary", "NoDuplicateAddressDetection", "Optimistic", "HomeAddress", "DuplicateAddressDetectionFailed",
    "Deprecated", "Tentative", "Permanent", "ManagedTemporaryAddress", "NoPrefixRoute", "MulticastAutoJoin",
    "StablePrivacy"]

  function NameIn(table: seq<string>): nat -> string {
    (i: nat) => if i < |table| then table[i] else ""
  }

  predicate Plain(s: string) {
    s != "" && '|' !in s && s != "None"
  }

  /** The length, the first and the last character are enough to tell the names of a table apart. */
  predicate Distinguished(s: string, t: string) {
    |s| != |t| || (s != "" && (s[0] != t[0] || s[|s| - 1] != t[|t| - 1]))
  }

  lemma MarksMakeGood(table: seq<string>)
    requires forall i :: 0 <= i < |table| ==> Plain(table[i])
    requires forall i, j :: 0 <= i < j < |table| ==> Distinguished(table[i], table[j])
    ensures GoodNames(|table|, NameIn(table))
  {
  }

  lemma FirstChangedNamesArePlain()
    ensures forall i :: 0 <= i < 4 ==> Plain(CHANGED_NAMES[i])
  {
  }

  lemma LastChangedNamesArePlain()
    ensures forall i :: 4 <= i < |CHANGED_NAMES| ==> Plain(CHANGED_NAMES[i])
  {
  }

  lemma ChangedNamesAreGood()
    ensures GoodNames(|CHANGED_NAMES|, NameIn(CHANGED_NAMES))
  {
    hide Plain;
    assert |CHANGED_NAMES| == 7;
    FirstChangedNamesArePlain();
    LastChangedNamesArePlain();
    MarksMakeGood(CHANGED_NAMES);
  }

  /** The bit of a change flag carries the name of that flag. */
  lemma ChangedNamesFollowFlags()
    ensures CHANGED_NAMES[Index(NameFlag)] == "NameChanged"
    ensures CHANGED_NAMES[Index(LinkFlagsFlag)] == "LinkFlagsChanged"
    ensures CHANGED_NAMES[Index(OperationalStateFlag)] == "OperationalStateChanged"
    ensures CHANGED_NAMES[Index(MacAddressFlag)] == "MacAddressChanged"
    ensures CHANGED_NAMES[Index(BroadcastAddressFlag)] == "BroadcastAddressChanged"
    ensures CHANGED_NAMES[Index(GatewayAddressFlag)] == "GatewayAddressChanged"
    ensures CHANGED_NAMES[Index(NetworkAddressesFlag)] == "NetworkAddressesChanged"
  {
  }

  lemma FirstAddressNamesArePlain()
    ensures forall i :: 0 <= i < 4 ==> Plain(ADDRESS_NAMES[i])
  {
  }

  lemma MiddleAddressNamesArePlain()
    ensures forall i :: 4 <= i < 8 ==> Plain(ADDRESS_NAMES[i])
  {
  }

  lemma LastAddressNamesArePlain()
    ensures forall i :: 8 <= i < |ADDRESS_NAMES| ==> Plain(ADDRESS_NAMES[i])
  {
  }

  lemma AddressNamesAreGood()
    ensures GoodNames(|ADDRESS_NAMES|, NameIn(ADDRESS_NAMES))
  {
    hide Plain;
    assert |ADDRESS_NAMES| == 12;
    FirstAddressNamesArePlain();
    MiddleAddressNamesArePlain();
    LastAddressNamesArePlain();
    MarksMakeGood(ADDRESS_NAMES);
  }

  lemma LinkNamesArePlain()
    ensures forall i :: 0 <= i < |LINK_NAMES| ==> Plain(LINK_NAMES[i])
  {
  }

  lemma LinkNamesAreGood()
    ensures GoodNames(|LINK_NAMES|, NameIn(LINK_NAMES))
  {
    hide Plain;
    assert |LINK_NAMES| == 19;
    LinkNamesArePlain();
    MarksMakeGood(LINK_NAMES);
  }
}
