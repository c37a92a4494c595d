/**
 The enum-indexed bit set of include/monkas/util/FlagSet.hpp: in-place set and reset, conversion
 from and to 32-bit words, counting, ordering and the '|'-separated text form.
 */
module FlagSets {
  import opened Types

  function Pow2(n: nat): (p: nat)
    ensures p > 0
  {
    if n == 0 then 1 else 2 * Pow2(n - 1)
  }

  function Cleared(n: nat): (b: Bits)
    ensures |b| == n && forall i :: 0 <= i < n ==> !b[i]
  {
    seq(n, _ => false)
  }

  /** The low n bits of a word; the constructor drops the rest. */
  function FromU32(n: nat, word: nat): (b: Bits)
    ensures |b| == n
  {
    if n == 0 then [] else [word % 2 == 1] + FromU32(n - 1, word / 2)
  }

  function ToU32(b: Bits): nat {
    if b == [] then 0 else (if b[0] then 1 else 0) + 2 * ToU32(b[1..])
  }

  /** The number of set bits. */
  function Count(b: Bits): nat {
    if b == [] then 0 else Count(b[..|b| - 1]) + if b[|b| - 1] then 1 else 0
  }

  lemma NonNegativeProduct(a: nat, b: nat)
    ensures a * b >= 0
  {
  }

  lemma AwayFromZero(d: nat, k: int)
    requires k != 0
    ensures d * k >= d || d * k <= -(d as int)
  {
    if k >= 1 {
      assert d * k == d + d * (k - 1);
      NonNegativeProduct(d, k - 1);
    } else {
      assert d * k == -(d as int) - d * (-k - 1);
      NonNegativeProduct(d, -k - 1);
    }
  }

  lemma UniqueRemainder(x: nat, d: nat, q: nat, r: nat)
    requires r < d && x == d * q + r
    ensures x % d == r
  {
    var k := q - x / d;
    assert x == d * (x / d) + x % d;
    assert d * k == x % d - r by {
      assert d * k == d * q - d * (x / d);
    }
    if k != 0 {
      AwayFromZero(d, k);
    }
  }

  lemma ModuloStep(word: nat, p: nat)
    requires p > 0
    ensures word % (2 * p) == word % 2 + 2 * ((word / 2) % p)
  {
    var q, r := (word / 2) / p, (word / 2) % p;
    assert word / 2 == p * q + r;
    assert word == 2 * (p * q + r) + word % 2;
    assert 2 * (p * q) == (2 * p) * q;
    UniqueRemainder(word, 2 * p, q, 2 * r + word % 2);
  }

  lemma Cancel(d: nat, k: int)
    requires d > 0 && d * k == 0
    ensures k == 0
  {
    if k != 0 {
      AwayFromZero(d, k);
    }
  }

  lemma HalvedQuotient(word: nat, p: nat)
    requires p > 0
    ensures (word / 2) / p == word / (2 * p)
  {
    ModuloStep(word, p);
    var a, b := word / (2 * p), (word / 2) / p;
    assert word == (2 * p) * a + word % (2 * p);
    assert word / 2 == p * b + (word / 2) % p;
    assert (2 * p) * (a - b) == 0 by {
      assert (2 * p) * a == 2 * (p * b);
      assert (2 * p) * b == 2 * (p * b);
      assert (2 * p) * (a - b) == (2 * p) * a - (2 * p) * b;
    }
    Cancel(2 * p, a - b);
  }

  /** Bit i of a set made from a word is bit i of the word, lowest first. */
  lemma {:induction false} BitOfWord(n: nat, word: nat, i: nat)
    requires i < n
    ensures FromU32(n, word)[i] <==> (word / Pow2(i)) % 2 == 1
  {
    if i == 0 {
    } else {
      BitOfWord(n - 1, word / 2, i - 1);
      HalvedQuotient(word, Pow2(i - 1));
    }
  }

  /** A word survives the trip through the set exactly modulo 2^n: higher bits are lost. */
  lemma {:induction false} WordRoundTrip(n: nat, word: nat)
    ensures ToU32(FromU32(n, word)) == word % Pow2(n)
  {
    if n == 0 {
    } else {
      WordRoundTrip(n - 1, word / 2);
      ModuloStep(word, Pow2(n - 1));
    }
  }

  /** Every set is the image of its word, so comparing words compares sets. */
  lemma {:induction false} BitsRoundTrip(b: Bits)
    ensures FromU32(|b|, ToU32(b)) == b
  {
    if b == [] {
    } else {
      BitsRoundTrip(b[1..]);
      assert b == [b[0]] + b[1..];
    }
  }

  /** The three-way comparison of words is equality exactly on equal sets. */
  lemma EqualWordsEqualSets(a: Bits, b: Bits)
    requires |a| == |b|
    ensures ToU32(a) == ToU32(b) <==> a == b
  {
    BitsRoundTrip(a);
    BitsRoundTrip(b);
  }

  lemma {:induction false} CountOfUpdate(b: Bits, i: nat, v: bool)
    requires i < |b|
    ensures Count(b[i := v]) == Count(b) - (if b[i] then 1 else 0) + (if v then 1 else 0)
  {
    var n := |b| - 1;
    if i == n {
      assert b[i := v][..n] == b[..n];
    } else {
      CountOfUpdate(b[..n], i, v);
      assert b[i := v][..n] == b[..n][i := v];
    }
  }

  lemma {:induction false} CountIsZero(b: Bits)
    ensures Count(b) == 0 <==> forall i :: 0 <= i < |b| ==> !b[i]
  {
    if b == [] {
    } else {
      CountIsZero(b[..|b| - 1]);
    }
  }

  // ----- text form -----

  /** The names of the set bits, lowest bit first. */
  function SetNames(b: Bits, name: nat -> string): (names: seq<string>) {
    if b == [] then []
    else
      var n := |b| - 1;
      SetNames(b[..n], name) + if b[n] then [name(n)] else []
  }

  function Join(parts: seq<string>): string
    requires parts != []
  {
    if |parts| == 1 then parts[0]
    else Join(parts[..|parts| - 1]) + "|" + parts[|parts| - 1]
  }

  function Split(s: string): (parts: seq<string>)
    ensures parts != []
  {
    if s == "" then [""]
    else if s[|s| - 1] == '|' then Split(s[..|s| - 1]) + [""]
    else
      var parts := Split(s[..|s| - 1]);
      parts[|parts| - 1 := parts[|parts| - 1] + [s[|s| - 1]]]
  }

  /** What toString returns. */
  function Text(b: Bits, name: nat -> string): string {
    var names := SetNames(b, name);
    if names == [] then "None" else Join(names)
  }

  /** Reads a text form back: bit i is set when its name is one of the '|'-separated parts. */
  function Parse(n: nat, s: string, name: nat -> string): Bits {
    if s == "None" then Cleared(n) else seq(n, (i: nat) => name(i) in Split(s))
  }

  /** What a naming table has to satisfy for the text to determine the set. */
  ghost predicate GoodNames(n: nat, name: nat -> string) {
    && (forall i: nat :: i < n ==> '|' !in name(i) && name(i) != "None")
    && (forall i: nat, j: nat :: i < j < n ==> name(i) != name(j))
  }

  lemma {:induction false} SplitPlain(s: string)
    requires '|' !in s
    ensures Split(s) == [s]
  {
    if s == "" {
    } else {
      SplitPlain(s[..|s| - 1]);
      assert s == s[..|s| - 1] + [s[|s| - 1]];
    }
  }

  lemma {:induction false} SplitAfterBar(s: string, t: string)
    requires '|' !in t
    ensures Split(s + "|" + t) == Split(s) + [t]
  {
    var whole := s + "|" + t;
    if t == "" {
      assert whole[..|whole| - 1] == s;
    } else {
      var t' := t[..|t| - 1];
      SplitAfterBar(s, t');
      assert whole[..|whole| - 1] == s + "|" + t';
      assert t == t' + [t[|t| - 1]];
    }
  }

  lemma {:induction false} SplitOfJoin(parts: seq<string>)
    requires parts != [] && forall i :: 0 <= i < |parts| ==> '|' !in parts[i]
    ensures Split(Join(parts)) == parts
  {
    var n := |parts| - 1;
    if n == 0 {
      SplitPlain(parts[0]);
    } else {
      SplitOfJoin(parts[..n]);
      SplitAfterBar(Join(parts[..n]), parts[n]);
      assert parts == parts[..n] + [parts[n]];
    }
  }

  ghost predicate IsSetName(b: Bits, name: nat -> string, s: string) {
    exists i: nat :: i < |b| && b[i] && name(i) == s
  }

  lemma {:induction false} SetNamesExact(b: Bits, name: nat -> string, s: string)
    ensures s in SetNames(b, name) <==> IsSetName(b, name, s)
  {
    if b == [] {
    } else {
      var n := |b| - 1;
      SetNamesExact(b[..n], name, s);
      if IsSetName(b, name, s) {
        var i: nat :| i < |b| && b[i] && name(i) == s;
        assert i == n || b[..n][i];
      }
      if IsSetName(b[..n], name, s) {
        var i: nat :| i < n && b[..n][i] && name(i) == s;
        assert b[i];
      }
    }
  }

  lemma NamedIffSet(b: Bits, name: nat -> string, i: nat)
    requires GoodNames(|b|, name) && i < |b|
    ensures name(i) in SetNames(b, name) <==> b[i]
  {
    SetNamesExact(b, name, name(i));
    if IsSetName(b, name, name(i)) {
      var j: nat :| j < |b| && b[j] && name(j) == name(i);
      assert !(i < j) && !(j < i);
    }
  }

  lemma SetNamesArePlain(b: Bits, name: nat -> string, k: nat)
    requires GoodNames(|b|, name) && k < |SetNames(b, name)|
    ensures '|' !in SetNames(b, name)[k] && SetNames(b, name)[k] != "None"
  {
    SetNamesExact(b, name, SetNames(b, name)[k]);
  }

  /** Text followed by Parse gives the set back, for every good naming table. */
  lemma TextRoundTrip(b: Bits, name: nat -> string)
    requires GoodNames(|b|, name)
    ensures Parse(|b|, Text(b, name), name) == b
  {
    var names := SetNames(b, name);
    if names != [] {
      forall k | 0 <= k < |names|
        ensures '|' !in names[k] && names[k] != "None"
      {
        SetNamesArePlain(b, name, k);
      }
      SplitOfJoin(names);
      SplitPlain("None");
    }
    forall i: nat | i < |b|
      ensures (name(i) in names) == b[i]
    {
      NamedIffSet(b, name, i);
    }
  }

  /** Two sets with the same text are the same set. */
  lemma TextInjective(a: Bits, b: Bits, name: nat -> string)
    requires |a| == |b| && GoodNames(|a|, name)
    ensures Text(a, name) == Text(b, name) <==> a == b
  {
    TextRoundTrip(a, name);
    TextRoundTrip(b, name);
  }

  // ----- the mutable set -----

  class FlagSet {
    var flags: Bits

    constructor (n: nat)
      ensures flags == Cleared(n)
    {
      flags := Cleared(n);
    }

    constructor FromWord(n: nat, word: uint32)
      ensures flags == FromU32(n, word) && ToU32(flags) == word % Pow2(n)
    {
      flags := FromU32(n, word);
      WordRoundTrip(n, word);
    }

    method Set(i: nat)
      requires i < |flags|
      modifies this
      ensures flags == old(flags)[i := true]
      ensures Count(flags) == old(Count(flags)) + if old(flags[i]) then 0 else 1
    {
      CountOfUpdate(flags, i, true);
      flags := flags[i := true];
    }

    method Reset(i: nat)
      requires i < |flags|
      modifies this
      ensures flags == old(flags)[i := false]
      ensures Count(flags) == old(Count(flags)) - if old(flags[i]) then 1 else 0
    {
      CountOfUpdate(flags, i, false);
      flags := flags[i := false];
    }

    method ResetAll()
      modifies this
      ensures flags == Cleared(|old(flags)|) && Count(flags) == 0
    {
      flags := Cleared(|flags|);
      CountIsZero(flags);
    }

    predicate Test(i: nat)
      requires i < |flags|
      reads this
    {
      flags[i]
    }

    predicate Any(): (r: bool)
      reads this
      ensures r <==> Count(flags) > 0
    {
      CountIsZero(flags);
      exists i :: 0 <= i < |flags| && flags[i]
    }

    /** Writes the names of the set bits with bars between them; `first` suppresses the leading bar. */
    method ToString(name: nat -> string) returns (s: string)
      ensures s == Text(flags, name)
    {
      s := "";
      var first := true;
      for i := 0 to |flags|
        invariant first <==> SetNames(flags[..i], name) == []
        invariant s == if first then "" else Join(SetNames(flags[..i], name))
      {
        ghost var before := SetNames(flags[..i], name);
        assert flags[..i + 1][..i] == flags[..i];
        if flags[i] {
          assert SetNames(flags[..i + 1], name) == before + [name(i)];
          assert (before + [name(i)])[..|before|] == before;
          assert !first ==> Join(before + [name(i)]) == Join(before) + "|" + name(i);
          if !first {
            s := s + "|";
          }
          first := false;
          s := s + name(i);
          assert before == [] ==> s == name(i) == Join([name(i)]);
        } else {
          assert SetNames(flags[..i + 1], name) == before;
        }
      }
      assert flags[..|flags|] == flags;
      if first {
        return "None";
      }
    }
  }
}
