/**
 The glob matcher wildcmp of doctest (external/doctest/doctest/doctest.h, lines 4136-4172): `*` stands
 for any run of characters and `?` for any one character. It only ever goes back to the latest star.
 */
module Wildcards {
  import opened Types

  /** A C string: the bytes before the terminating NUL. */
  type CString = s: seq<byte> | 0 !in s

  const STAR: byte := 42
  const ANY: byte := 63

  /** What `*p` reads at position i: the terminator behind the last byte is a zero. */
  function At(s: CString, i: nat): byte
    requires i <= |s|
  {
    if i < |s| then s[i] else 0
  }

  function ToLower(c: byte): byte {
    if 65 <= c <= 90 then c + 32 else c
  }

  /** The comparison of the two characters in the given mode. */
  predicate Same(caseSensitive: bool, w: byte, c: byte) {
    if caseSensitive then w == c else ToLower(w) == ToLower(c)
  }

  // ----- what a match means -----

  /** The same character, or, if case does not matter, the same letter of the alphabet in the other case. */
  predicate SameLetter(caseSensitive: bool, a: byte, b: byte) {
    || a == b
    || (!caseSensitive && 'A' as int <= a <= 'Z' as int && b - a == 'a' as int - 'A' as int)
    || (!caseSensitive && 'A' as int <= b <= 'Z' as int && a - b == 'a' as int - 'A' as int)
  }

  lemma SameIsSameLetter(caseSensitive: bool, a: byte, b: byte)
    ensures Same(caseSensitive, a, b) <==> SameLetter(caseSensitive, a, b)
  {
  }

  /** A piece of the string that one pattern character may stand for. */
  predicate Fits(caseSensitive: bool, w: byte, piece: seq<byte>) {
    w == '*' as int || (|piece| == 1 && (w == '?' as int || SameLetter(caseSensitive, w, piece[0])))
  }

  function Flatten(pieces: seq<seq<byte>>): seq<byte> {
    if pieces == [] then [] else pieces[0] + Flatten(pieces[1..])
  }

  /** The string can be cut into one fitting piece for each pattern character. */
  ghost predicate Matches(caseSensitive: bool, s: seq<byte>, wild: seq<byte>) {
    exists pieces: seq<seq<byte>> ::
      && |pieces| == |wild| && Flatten(pieces) == s
      && forall i :: 0 <= i < |wild| ==> Fits(caseSensitive, wild[i], pieces[i])
  }

  /** The same, decided character by character on the suffixes from i and j. */
  predicate MatchFrom(caseSensitive: bool, s: CString, i: nat, wild: CString, j: nat)
    requires i <= |s| && j <= |wild|
    decreases |wild| - j, |s| - i
  {
    if j == |wild| then i == |s|
    else if wild[j] == STAR then
      MatchFrom(caseSensitive, s, i, wild, j + 1) || (i < |s| && MatchFrom(caseSensitive, s, i + 1, wild, j))
    else
      && i < |s| && (wild[j] == ANY || Same(caseSensitive, wild[j], s[i]))
      && MatchFrom(caseSensitive, s, i + 1, wild, j + 1)
  }

  lemma FitsStar(cs: bool, piece: seq<byte>)
    ensures Fits(cs, STAR, piece)
  {
  }

  lemma FitsCharacter(cs: bool, w: byte, c: byte)
    requires w == ANY || Same(cs, w, c)
    ensures Fits(cs, w, [c])
  {
    SameIsSameLetter(cs, w, c);
  }

  lemma FlattenOneMore(first: seq<byte>, rest: seq<seq<byte>>)
    ensures Flatten([first] + rest) == first + Flatten(rest)
  {
  }

  lemma {:induction false} PiecesFrom(cs: bool, s: CString, i: nat, wild: CString, j: nat)
    returns (pieces: seq<seq<byte>>)
    requires i <= |s| && j <= |wild| && MatchFrom(cs, s, i, wild, j)
    ensures |pieces| == |wild| - j && Flatten(pieces) == s[i..]
    ensures forall k :: 0 <= k < |pieces| ==> Fits(cs, wild[j + k], pieces[k])
    decreases |wild| - j, |s| - i
  {
    hide Fits, Same;
    if j == |wild| {
      pieces := [];
    } else {
      hide Flatten;
      if wild[j] == STAR && MatchFrom(cs, s, i, wild, j + 1) {
        var rest := PiecesFrom(cs, s, i, wild, j + 1);
        pieces := [[]] + rest;
        FitsStar(cs, []);
        FlattenOneMore([], rest);
      } else if wild[j] == STAR {
        var more := PiecesFrom(cs, s, i + 1, wild, j);
        assert more == [more[0]] + more[1..];
        FlattenOneMore(more[0], more[1..]);
        pieces := [[s[i]] + more[0]] + more[1..];
        FitsStar(cs, pieces[0]);
        FlattenOneMore(pieces[0], more[1..]);
        assert s[i..] == [s[i]] + s[i + 1..];
        assert [s[i]] + more[0] + Flatten(more[1..]) == [s[i]] + (more[0] + Flatten(more[1..]));
      } else {
        var rest := PiecesFrom(cs, s, i + 1, wild, j + 1);
        pieces := [[s[i]]] + rest;
        FitsCharacter(cs, wild[j], s[i]);
        FlattenOneMore([s[i]], rest);
        assert s[i..] == [s[i]] + s[i + 1..];
      }
    }
  }

  lemma {:induction false} FromPieces(cs: bool, s: CString, i: nat, wild: CString, j: nat, pieces: seq<seq<byte>>)
    requires i <= |s| && j <= |wild|
    requires |pieces| == |wild| - j && Flatten(pieces) == s[i..]
    requires forall k :: 0 <= k < |pieces| ==> Fits(cs, wild[j + k], pieces[k])
    ensures MatchFrom(cs, s, i, wild, j)
    decreases |wild| - j, |s| - i
  {
    if j == |wild| {
    } else {
      var first, rest := pieces[0], Flatten(pieces[1..]);
      assert Fits(cs, wild[j + 0], first);
      assert first + rest == s[i..];
      if wild[j] == STAR && first != [] {
        assert s[i] == first[0] && s[i + 1..] == first[1..] + rest;
        var shorter := [first[1..]] + pieces[1..];
        assert shorter[1..] == pieces[1..];
        FromPieces(cs, s, i + 1, wild, j, shorter);
      } else {
        var n := |first|;
        assert s[i + n..] == rest;
        assert n == 1 ==> s[i] == first[0];
        if n == 1 {
          SameIsSameLetter(cs, wild[j], s[i]);
        }
        FromPieces(cs, s, i + n, wild, j + 1, pieces[1..]);
      }
    }
  }

  /** The two readings of a match agree. */
  lemma MatchFromIsMatches(cs: bool, s: CString, wild: CString)
    ensures MatchFrom(cs, s, 0, wild, 0) <==> Matches(cs, s, wild)
  {
    assert s[0..] == s;
    if MatchFrom(cs, s, 0, wild, 0) {
      var pieces := PiecesFrom(cs, s, 0, wild, 0);
      assert |pieces| == |wild| && Flatten(pieces) == s;
    }
    if Matches(cs, s, wild) {
      var pieces: seq<seq<byte>> :| |pieces| == |wild| && Flatten(pieces) == s
        && forall i :: 0 <= i < |wild| ==> Fits(cs, wild[i], pieces[i]);
      FromPieces(cs, s, 0, wild, 0, pieces);
    }
  }

  // ----- why going back to the latest star is enough -----

  /** The rest of the pattern matches from i or some later position. */
  ghost predicate MatchesLater(cs: bool, s: CString, i: nat, wild: CString, j: nat)
    requires j <= |wild|
  {
    exists k: nat :: i <= k <= |s| && MatchFrom(cs, s, k, wild, j)
  }

  /** A star matches from i on exactly when the rest of the pattern matches from some later position. */
  lemma {:induction false} StarMatches(cs: bool, s: CString, i: nat, wild: CString, j: nat)
    requires i <= |s| && j < |wild| && wild[j] == STAR
    ensures MatchFrom(cs, s, i, wild, j) <==> MatchesLater(cs, s, i, wild, j + 1)
    decreases |s| - i
  {
    if i == |s| {
    } else {
      StarMatches(cs, s, i + 1, wild, j);
      if MatchesLater(cs, s, i, wild, j + 1) && !MatchFrom(cs, s, i, wild, j + 1) {
        var k: nat :| i <= k <= |s| && MatchFrom(cs, s, k, wild, j + 1);
        assert k >= i + 1;
      }
    }
  }

  /** What a star matches from a later position it also matches from an earlier one. */
  lemma StarAbsorbs(cs: bool, s: CString, i: nat, k: nat, wild: CString, j: nat)
    requires i <= k <= |s| && j < |wild| && wild[j] == STAR
    requires MatchFrom(cs, s, k, wild, j)
    ensures MatchFrom(cs, s, i, wild, j)
  {
    StarMatches(cs, s, i, wild, j);
    StarMatches(cs, s, k, wild, j);
    var m: nat :| k <= m <= |s| && MatchFrom(cs, s, m, wild, j + 1);
    assert MatchesLater(cs, s, i, wild, j + 1);
  }

  predicate NoStar(wild: CString, from: nat, to: nat)
    requires from <= to <= |wild|
  {
    forall x :: from <= x < to ==> wild[x] != STAR
  }

  /** A stretch of the pattern without a star takes exactly its own length off the string. */
  lemma {:induction false} StarlessStretch(cs: bool, s: CString, k: nat, wild: CString, from: nat, to: nat)
    requires k <= |s| && from <= to <= |wild| && NoStar(wild, from, to)
    requires MatchFrom(cs, s, k, wild, from)
    ensures k + (to - from) <= |s| && MatchFrom(cs, s, k + (to - from), wild, to)
    decreases |wild| - from
  {
    if from == to {
    } else {
      StarlessStretch(cs, s, k + 1, wild, from + 1, to);
    }
  }

  lemma {:induction false} OnlyStarsLeft(cs: bool, s: CString, wild: CString, j: nat)
    requires j <= |wild|
    ensures MatchFrom(cs, s, |s|, wild, j) <==> forall x :: j <= x < |wild| ==> wild[x] == STAR
    decreases |wild| - j
  {
    if j == |wild| {
    } else {
      OnlyStarsLeft(cs, s, wild, j + 1);
    }
  }

  lemma {:induction false} TrailingStarMatches(cs: bool, s: CString, i: nat, wild: CString, j: nat)
    requires i <= |s| && j + 1 == |wild| && wild[j] == STAR
    ensures MatchFrom(cs, s, i, wild, j)
  {
    StarMatches(cs, s, i, wild, j);
    assert MatchFrom(cs, s, |s|, wild, j + 1);
  }

  /**
   The state of the search after the latest star: the pattern from `mp` on is being tried at `cp - 1`,
   its part up to `wild` has been matched against the string up to `str`, and the whole
   question is whether the star can still be met from there.
   */
  ghost predicate Searching(cs: bool, s: CString, pattern: CString, str: nat, wild: nat, cp: nat, mp: nat) {
    && 1 <= mp <= wild <= |pattern| && 1 <= cp && cp - 1 <= str <= |s|
    && pattern[mp - 1] == STAR && NoStar(pattern, mp, wild)
    && str - (cp - 1) == wild - mp
    && (MatchFrom(cs, s, 0, pattern, 0) <==> MatchFrom(cs, s, cp - 1, pattern, mp - 1))
    && (MatchFrom(cs, s, cp - 1, pattern, mp) <==> MatchFrom(cs, s, str, pattern, wild))
  }

  /** What the running attempt matches the latest star matches. */
  lemma StarBacktracks(cs: bool, s: CString, pattern: CString, str: nat, wild: nat, cp: nat, mp: nat)
    requires Searching(cs, s, pattern, str, wild, cp, mp) && MatchFrom(cs, s, str, pattern, wild)
    ensures MatchFrom(cs, s, 0, pattern, 0)
  {
  }

  /** A new star may forget the old one: whatever the old star could still do the new one can. */
  lemma NewStarTakesOver(cs: bool, s: CString, pattern: CString, str: nat, wild: nat, cp: nat, mp: nat)
    requires Searching(cs, s, pattern, str, wild, cp, mp) && wild < |pattern| && pattern[wild] == STAR
    ensures MatchFrom(cs, s, 0, pattern, 0) <==> MatchFrom(cs, s, str, pattern, wild)
  {
    hide MatchFrom;
    StarMatches(cs, s, cp - 1, pattern, mp - 1);
    StarMatches(cs, s, str, pattern, wild);
    if MatchFrom(cs, s, cp - 1, pattern, mp - 1) {
      var k: nat :| cp - 1 <= k <= |s| && MatchFrom(cs, s, k, pattern, mp);
      StarlessStretch(cs, s, k, pattern, mp, wild);
      StarAbsorbs(cs, s, str, k + (wild - mp), pattern, wild);
    }
    if MatchFrom(cs, s, str, pattern, wild) {
      StarBacktracks(cs, s, pattern, str, wild, cp, mp);
    }
  }

  /** With the string used up, only the running attempt can still succeed. */
  lemma LastAttempt(cs: bool, s: CString, pattern: CString, wild: nat, cp: nat, mp: nat)
    requires Searching(cs, s, pattern, |s|, wild, cp, mp)
    ensures MatchFrom(cs, s, 0, pattern, 0) <==> MatchFrom(cs, s, |s|, pattern, wild)
  {
    StarMatches(cs, s, cp - 1, pattern, mp - 1);
    if MatchFrom(cs, s, 0, pattern, 0) {
      var k: nat :| cp - 1 <= k <= |s| && MatchFrom(cs, s, k, pattern, mp);
      StarlessStretch(cs, s, k, pattern, mp, wild);
    }
  }

  /** One pattern character, not a star, against one character of the string, as the code compares them. */
  lemma OneCharacter(cs: bool, s: CString, pattern: CString, str: nat, wild: nat)
    requires str < |s| && wild <= |pattern| && At(pattern, wild) != STAR
    ensures var fits := Same(cs, At(pattern, wild), At(s, str)) || At(pattern, wild) == ANY;
      && (fits ==> wild < |pattern|)
      && (MatchFrom(cs, s, str, pattern, wild) <==> fits && MatchFrom(cs, s, str + 1, pattern, wild + 1))
  {
  }

  /** The search starts at a star of the pattern. */
  lemma SearchStarts(cs: bool, s: CString, pattern: CString, str: nat, wild: nat)
    requires str <= |s| && wild < |pattern| && pattern[wild] == STAR
    requires MatchFrom(cs, s, 0, pattern, 0) <==> MatchFrom(cs, s, str, pattern, wild)
    ensures Searching(cs, s, pattern, str, wild + 1, str + 1, wild + 1)
  {
    hide MatchFrom;
  }

  lemma SearchAdvances(cs: bool, s: CString, pattern: CString, str: nat, wild: nat, cp: nat, mp: nat)
    requires Searching(cs, s, pattern, str, wild, cp, mp) && str < |s| && At(pattern, wild) != STAR
    requires Same(cs, At(pattern, wild), At(s, str)) || At(pattern, wild) == ANY
    ensures Searching(cs, s, pattern, str + 1, wild + 1, cp, mp)
  {
    hide MatchFrom;
    OneCharacter(cs, s, pattern, str, wild);
  }

  /** A failed attempt moves the star's end one character on. */
  lemma SearchRestarts(cs: bool, s: CString, pattern: CString, str: nat, wild: nat, cp: nat, mp: nat)
    requires Searching(cs, s, pattern, str, wild, cp, mp) && str < |s| && At(pattern, wild) != STAR
    requires !Same(cs, At(pattern, wild), At(s, str)) && At(pattern, wild) != ANY
    ensures Searching(cs, s, pattern, cp, mp, cp + 1, mp)
  {
    OneCharacter(cs, s, pattern, str, wild);
    hide Same;
  }

  /** Where the counters of a search stand. */
  lemma SearchBounds(cs: bool, s: CString, pattern: CString, str: nat, wild: nat, cp: nat, mp: nat)
    requires Searching(cs, s, pattern, str, wild, cp, mp)
    ensures 1 <= mp <= wild <= |pattern| && 1 <= cp <= str + 1 <= |s| + 1
  {
  }

  // ----- the matcher -----

  method WildCmp(s: CString, pattern: CString, caseSensitive: bool) returns (matched: bool)
    ensures matched <==> Matches(caseSensitive, s, pattern)
  {
    hide Matches, MatchFrom, Searching, Same;
    MatchFromIsMatches(caseSensitive, s, pattern);
    var str, wild := 0, 0;
    while At(s, str) != 0 && At(pattern, wild) != STAR
      invariant str <= |s| && wild <= |pattern|
      invariant MatchFrom(caseSensitive, s, 0, pattern, 0) <==> MatchFrom(caseSensitive, s, str, pattern, wild)
      decreases |s| - str
    {
      OneCharacter(caseSensitive, s, pattern, str, wild);
      if !Same(caseSensitive, At(pattern, wild), At(s, str)) && At(pattern, wild) != ANY {
        return false;
      }
      wild := wild + 1;
      str := str + 1;
    }
    var cp, mp := 0, 0;
    ghost var starred := false;
    while At(s, str) != 0
      invariant str <= |s| && wild <= |pattern|
      invariant !starred && str < |s| ==> wild < |pattern| && pattern[wild] == STAR
      invariant !starred ==>
        mp == 0 && (MatchFrom(caseSensitive, s, 0, pattern, 0) <==> MatchFrom(caseSensitive, s, str, pattern, wild))
      invariant starred ==> Searching(caseSensitive, s, pattern, str, wild, cp, mp)
      decreases |pattern| - mp, |s| + 1 - cp, |s| - str
    {
      if starred {
        SearchBounds(caseSensitive, s, pattern, str, wild, cp, mp);
      }
      if At(pattern, wild) == STAR {
        if starred {
          NewStarTakesOver(caseSensitive, s, pattern, str, wild, cp, mp);
        }
        wild := wild + 1;
        if At(pattern, wild) == 0 {
          TrailingStarMatches(caseSensitive, s, str, pattern, wild - 1);
          return true;
        }
        SearchStarts(caseSensitive, s, pattern, str, wild - 1);
        mp := wild;
        cp := str + 1;
        starred := true;
      } else if Same(caseSensitive, At(pattern, wild), At(s, str)) || At(pattern, wild) == ANY {
        SearchAdvances(caseSensitive, s, pattern, str, wild, cp, mp);
        SearchBounds(caseSensitive, s, pattern, str + 1, wild + 1, cp, mp);
        wild := wild + 1;
        str := str + 1;
      } else {
        SearchRestarts(caseSensitive, s, pattern, str, wild, cp, mp);
        wild := mp;
        str := cp;
        cp := cp + 1;
      }
    }
    if starred {
      LastAttempt(caseSensitive, s, pattern, wild, cp, mp);
    }
    OnlyStarsLeft(caseSensitive, s, pattern, wild);
    while At(pattern, wild) == STAR
      invariant wild <= |pattern|
      invariant MatchFrom(caseSensitive, s, 0, pattern, 0) <==> forall x :: wild <= x < |pattern| ==> pattern[x] == STAR
      decreases |pattern| - wild
    {
      wild := wild + 1;
    }
    return At(pattern, wild) == 0;
  }
}
