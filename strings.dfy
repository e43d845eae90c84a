/**
 * The string library calls the modelled code relies on: Go's strings.Split
 * (with a one-character separator), strings.Join, strings.TrimPrefix,
 * strings.TrimSuffix, strings.TrimSpace, and JavaScript's `s.indexOf(p) === 0`
 * prefix test. Each is defined here once, with the properties the rest of the
 * model uses proved about it.
 */
module Strings {

  /** Index of the first `c` in `s`, or `|s|` when `s` has none. */
  function IndexOf(s: string, c: char): (i: nat)
    ensures i <= |s|
    ensures i < |s| ==> s[i] == c
    ensures forall k :: 0 <= k < i ==> s[k] != c
  {
    if s == [] then 0
    else if s[0] == c then 0
    else 1 + IndexOf(s[1..], c)
  }

  /**
   * Go's strings.Split(s, sep) for a one-character separator: the pieces
   * between consecutive separators, so "" gives [""] and "a  b" gives
   * ["a", "", "b"].
   */
  function Split(s: string, sep: char): (parts: seq<string>)
    ensures |parts| >= 1
    ensures forall p :: p in parts ==> sep !in p
    decreases |s|
  {
    var i := IndexOf(s, sep);
    if i == |s| then [s]
    else [s[..i]] + Split(s[i + 1..], sep)
  }

  /** Go's strings.Join(parts, sep) for a one-character separator. */
  function Join(parts: seq<string>, sep: char): string
  {
    if |parts| == 0 then ""
    else if |parts| == 1 then parts[0]
    else parts[0] + [sep] + Join(parts[1..], sep)
  }

  lemma IndexOfAfterPiece(p: string, sep: char, rest: string)
    requires sep !in p
    ensures IndexOf(p + [sep] + rest, sep) == |p|
  {
    var s := p + [sep] + rest;
    assert s[|p|] == sep;
    assert forall k :: 0 <= k < |p| ==> s[k] == p[k];
  }

  lemma IndexOfWithout(p: string, sep: char)
    requires sep !in p
    ensures IndexOf(p, sep) == |p|
  {
  }

  lemma JoinCons(head: string, tail: seq<string>, sep: char)
    requires |tail| >= 1
    ensures Join([head] + tail, sep) == head + [sep] + Join(tail, sep)
  {
    assert ([head] + tail)[1..] == tail;
  }

  lemma SplitAtFirst(s: string, sep: char)
    requires IndexOf(s, sep) < |s|
    ensures var i := IndexOf(s, sep);
      Split(s, sep) == [s[..i]] + Split(s[i + 1..], sep) && s == s[..i] + [sep] + s[i + 1..]
  {
    var i := IndexOf(s, sep);
    assert s == s[..i] + [s[i]] + s[i + 1..];
  }

  /** Joining the pieces of a split gives back the original string. */
  lemma {:induction false} JoinSplit(s: string, sep: char)
    ensures Join(Split(s, sep), sep) == s
    decreases |s|
  {
    var i := IndexOf(s, sep);
    if i < |s| {
      JoinSplit(s[i + 1..], sep);
      SplitAtFirst(s, sep);
      JoinCons(s[..i], Split(s[i + 1..], sep), sep);
    }
  }

  /** Splitting a join of separator-free pieces gives back the pieces. */
  lemma {:induction false} SplitJoin(parts: seq<string>, sep: char)
    requires |parts| >= 1
    requires forall p :: p in parts ==> sep !in p
    ensures Split(Join(parts, sep), sep) == parts
    decreases |parts|
  {
    if |parts| == 1 {
      IndexOfWithout(parts[0], sep);
    } else {
      var rest := Join(parts[1..], sep);
      var s := parts[0] + [sep] + rest;
      assert parts[0] in parts;
      IndexOfAfterPiece(parts[0], sep, rest);
      assert s[..|parts[0]|] == parts[0];
      assert s[|parts[0]| + 1..] == rest;
      forall p | p in parts[1..] ensures sep !in p {
        assert p in parts;
      }
      SplitJoin(parts[1..], sep);
      assert parts == [parts[0]] + parts[1..];
    }
  }

  /**
   * The set of keys a Go loop `for _, t := range strings.Split(raw, " ")
   * { m[t] = true }` produces, guarded by `if raw != ""`.
   */
  function SpaceTokens(raw: string): (r: set<string>)
    ensures r == {} <==> raw == ""
    ensures forall t :: t in r ==> ' ' !in t
  {
    if raw == "" then {}
    else
      var parts := Split(raw, ' ');
      var r := set t | t in parts;
      assert parts[0] in r;
      r
  }

  /** The tokens of a space-joined list are exactly the list's elements. */
  lemma SpaceTokensOfJoin(parts: seq<string>)
    requires |parts| >= 1 && Join(parts, ' ') != ""
    requires forall p :: p in parts ==> ' ' !in p
    ensures SpaceTokens(Join(parts, ' ')) == set p | p in parts
  {
    SplitJoin(parts, ' ');
  }

  /** JavaScript's `s.indexOf(prefix) === 0` and Go's strings.HasPrefix. */
  predicate StartsWith(s: string, prefix: string)
  {
    |prefix| <= |s| && s[..|prefix|] == prefix
  }

  /** Go's strings.TrimPrefix: removes one leading `prefix`, if present. */
  function TrimPrefix(s: string, prefix: string): (r: string)
    ensures r == s || prefix + r == s
    ensures StartsWith(s, prefix) ==> prefix + r == s
  {
    if StartsWith(s, prefix) then s[|prefix|..] else s
  }

  /** Go's strings.TrimSuffix: removes one trailing `suffix`, if present. */
  function TrimSuffix(s: string, suffix: string): (r: string)
    ensures r == s || r + suffix == s
    ensures |suffix| <= |s| && s[|s| - |suffix|..] == suffix ==> r + suffix == s
  {
    if |suffix| <= |s| && s[|s| - |suffix|..] == suffix then s[..|s| - |suffix|] else s
  }

  /** Go's unicode.IsSpace. */
  predicate IsSpace(c: char)
  {
    || c == ' ' || c == '\t' || c == '\n' || c == '\r'
    || c == '\U{000B}' || c == '\U{000C}' || c == '\U{0085}' || c == '\U{00A0}'
    || c == '\U{1680}' || ('\U{2000}' <= c <= '\U{200A}')
    || c == '\U{2028}' || c == '\U{2029}' || c == '\U{202F}' || c == '\U{205F}'
    || c == '\U{3000}'
  }

  function TrimLeftSpace(s: string): (r: string)
    ensures |r| <= |s| && r == s[|s| - |r|..]
    ensures r == [] || !IsSpace(r[0])
    ensures forall k :: 0 <= k < |s| - |r| ==> IsSpace(s[k])
  {
    if s != [] && IsSpace(s[0]) then TrimLeftSpace(s[1..]) else s
  }

  function TrimRightSpace(s: string): (r: string)
    ensures |r| <= |s| && r == s[..|r|]
    ensures r == [] || !IsSpace(r[|r| - 1])
    ensures forall k :: |r| <= k < |s| ==> IsSpace(s[k])
  {
    if s != [] && IsSpace(s[|s| - 1]) then TrimRightSpace(s[..|s| - 1]) else s
  }

  /** Go's strings.TrimSpace: drops leading and trailing white space only. */
  function TrimSpace(s: string): (r: string)
    ensures r == [] || (!IsSpace(r[0]) && !IsSpace(r[|r| - 1]))
    ensures exists i, j :: 0 <= i <= j <= |s| && r == s[i..j]
  {
    var l := TrimLeftSpace(s);
    var r := TrimRightSpace(l);
    var i := |s| - |l|;
    assert r == s[i..i + |r|] && 0 <= i <= i + |r| <= |s|;
    r
  }

  /** A string that already has no space at either end is left unchanged. */
  predicate Trimmed(s: string)
  {
    s == [] || (!IsSpace(s[0]) && !IsSpace(s[|s| - 1]))
  }

  lemma TrimSpaceOfTrimmed(s: string)
    requires Trimmed(s)
    ensures TrimSpace(s) == s
  {
  }
}
