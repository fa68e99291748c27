/** The parts of Go's `strings` package that the authorisation layer uses,
    restricted to ASCII where Go consults Unicode tables (`ToLower`,
    `TrimSpace`). Splitting is on a single-character separator, which is how
    every call in the modelled code uses it. */
module GoStrings {

  /** `strings.HasPrefix`: `p` is a prefix of `s`. */
  predicate HasPrefix(s: string, p: string) {
    |p| <= |s| && s[..|p|] == p
  }

  /** `strings.HasSuffix`: `x` is a suffix of `s`. */
  predicate HasSuffix(s: string, x: string) {
    |x| <= |s| && s[|s| - |x|..] == x
  }

  /** `strings.Contains`: `sub` occurs somewhere in `s` (the empty string
      occurs in every string). */
  predicate Contains(s: string, sub: string)
    decreases |s|
  {
    HasPrefix(s, sub) || (|s| > 0 && Contains(s[1..], sub))
  }

  /** `sub` occurs in `s` starting at index `i`. */
  predicate OccursAt(s: string, sub: string, i: int) {
    0 <= i && i + |sub| <= |s| && s[i..i + |sub|] == sub
  }

  lemma {:induction false} ContainsAt(s: string, sub: string)
    ensures Contains(s, sub) <==> exists i :: OccursAt(s, sub, i)
    decreases |s|
  {
    if |s| > 0 {
      var t := s[1..];
      ContainsAt(t, sub);
      forall i | 0 < i && OccursAt(s, sub, i) ensures OccursAt(t, sub, i - 1) {
        OccursShift(s, sub, i);
      }
      forall i | OccursAt(t, sub, i) ensures OccursAt(s, sub, i + 1) {
        assert s[i + 1..i + 1 + |sub|] == t[i..i + |sub|];
      }
    }
    assert HasPrefix(s, sub) <==> OccursAt(s, sub, 0);
  }

  /** An occurrence past the first index is an occurrence in the tail. */
  lemma OccursShift(s: string, sub: string, i: int)
    requires 0 < i && OccursAt(s, sub, i)
    ensures OccursAt(s[1..], sub, i - 1)
  {
    var t := s[1..];
    assert t[i - 1..i - 1 + |sub|] == s[i..i + |sub|];
  }

  /** A one-character `sub` is contained exactly when that character occurs. */
  lemma ContainsChar(s: string, c: char)
    ensures Contains(s, [c]) <==> c in s
  {
    ContainsAt(s, [c]);
    if c in s {
      var i :| 0 <= i < |s| && s[i] == c;
      assert s[i..i + 1] == [c];
      assert OccursAt(s, [c], i);
    }
    forall i | OccursAt(s, [c], i) ensures c in s {
      assert s[i] == s[i..i + 1][0];
    }
  }

  /** The longest prefix of `s` in which `c` does not occur: the first
      element of `strings.Split(s, c)`. */
  function Before(s: string, c: char): (p: string)
    ensures HasPrefix(s, p) && c !in p
    ensures |p| < |s| ==> s[|p|] == c
    decreases |s|
  {
    if |s| == 0 || s[0] == c then "" else [s[0]] + Before(s[1..], c)
  }

  lemma BeforeAbsent(s: string, c: char)
    requires c !in s
    ensures Before(s, c) == s
  {
  }

  lemma {:induction false} BeforeAppend(a: string, b: string, c: char)
    requires c !in a
    requires |b| == 0 || b[0] == c
    ensures Before(a + b, c) == a
    decreases |a|
  {
    if |a| > 0 {
      assert (a + b)[1..] == a[1..] + b;
      BeforeAppend(a[1..], b, c);
    }
  }

  /** `strings.Split(s, string(c))`: the pieces of `s` between occurrences
      of `c`; there is always at least one piece. */
  function Split(s: string, c: char): (parts: seq<string>)
    ensures |parts| >= 1 && parts[0] == Before(s, c)
    ensures forall i :: 0 <= i < |parts| ==> c !in parts[i]
    decreases |s|
  {
    var p := Before(s, c);
    if |p| == |s| then [s] else [p] + Split(s[|p| + 1..], c)
  }

  /** `strings.Join`. */
  function Join(parts: seq<string>, sep: string): string
    decreases |parts|
  {
    if |parts| == 0 then ""
    else if |parts| == 1 then parts[0]
    else parts[0] + sep + Join(parts[1..], sep)
  }

  /** Splitting at the first separator: the prefix before it, then the
      pieces of the rest. */
  lemma SplitAtFirst(s: string, c: char)
    requires |Before(s, c)| < |s|
    ensures Split(s, c) == [Before(s, c)] + Split(s[|Before(s, c)| + 1..], c)
  {
  }

  /** A string is its prefix before the first separator, the separator and
      the rest. */
  lemma AroundFirst(s: string, c: char)
    requires |Before(s, c)| < |s|
    ensures s == Before(s, c) + [c] + s[|Before(s, c)| + 1..]
  {
    var p := Before(s, c);
    var n := |p|;
    assert s[..n] == p && s[n] == c;
    assert s == s[..n] + [s[n]] + s[n + 1..];
  }

  /** Joining at least two pieces puts the separator after the first. */
  lemma JoinCons(p: string, rest: seq<string>, sep: string)
    requires |rest| >= 1
    ensures Join([p] + rest, sep) == p + sep + Join(rest, sep)
  {
    assert ([p] + rest)[1..] == rest;
  }

  /** Joining the pieces of a split with the separator gives back the input. */
  lemma {:induction false} JoinSplit(s: string, c: char)
    ensures Join(Split(s, c), [c]) == s
    decreases |s|
  {
    var p := Before(s, c);
    if |p| < |s| {
      var rest := s[|p| + 1..];
      JoinSplit(rest, c);
      SplitAtFirst(s, c);
      AroundFirst(s, c);
      JoinCons(p, Split(rest, c), [c]);
    }
  }

  /** The index of the last occurrence of `c` in `s`, or -1
      (`strings.LastIndex` with a one-character needle). */
  function LastIndexOf(s: string, c: char): (i: int)
    ensures -1 <= i < |s|
    ensures i >= 0 ==> s[i] == c && c !in s[i + 1..]
    ensures i == -1 ==> c !in s
    decreases |s|
  {
    if |s| == 0 then -1
    else if s[|s| - 1] == c then |s| - 1
    else
      var j := LastIndexOf(s[..|s| - 1], c);
      assert s[..|s| - 1] + [s[|s| - 1]] == s;
      j
  }

  /** Appending text without `c` does not move the last `c`. */
  lemma {:induction false} LastIndexOfAppend(a: string, b: string, c: char)
    requires c !in b
    ensures LastIndexOf(a + b, c) == LastIndexOf(a, c)
    decreases |b|
  {
    if |b| == 0 {
      assert a + b == a;
    } else {
      var ab := a + b;
      assert ab[|ab| - 1] == b[|b| - 1];
      assert ab[..|ab| - 1] == a + b[..|b| - 1];
      LastIndexOfAppend(a, b[..|b| - 1], c);
    }
  }

  /** The ASCII white space that `strings.TrimSpace` removes. */
  predicate IsSpace(c: char) {
    c == ' ' || c == '\t' || c == '\n' || c == '\r' || c as int == 11 || c as int == 12
  }

  function TrimLeft(s: string): (r: string)
    ensures |r| <= |s| && r == s[|s| - |r|..]
    ensures |r| > 0 ==> !IsSpace(r[0])
    ensures forall i :: 0 <= i < |s| - |r| ==> IsSpace(s[i])
    decreases |s|
  {
    if |s| > 0 && IsSpace(s[0]) then TrimLeft(s[1..]) else s
  }

  function TrimRight(s: string): (r: string)
    ensures |r| <= |s| && r == s[..|r|]
    ensures |r| > 0 ==> !IsSpace(r[|r| - 1])
    ensures forall i :: |r| <= i < |s| ==> IsSpace(s[i])
    decreases |s|
  {
    if |s| > 0 && IsSpace(s[|s| - 1]) then TrimRight(s[..|s| - 1]) else s
  }

  /** `r` is the slice `s[k..k+|r|]` and everything around it is white space. */
  predicate TrimmedAt(s: string, r: string, k: int) {
    && 0 <= k <= |s| - |r| && r == s[k..k + |r|]
    && (forall i :: 0 <= i < k ==> IsSpace(s[i]))
    && (forall i :: k + |r| <= i < |s| ==> IsSpace(s[i]))
  }

  /** `strings.TrimSpace` (ASCII white space only): `s` with its leading
      and trailing white space removed; the result is a slice of the input
      that neither starts nor ends with white space, and everything around
      that slice is white space. */
  function TrimSpace(s: string): (r: string)
    ensures exists k :: TrimmedAt(s, r, k)
    ensures |r| > 0 ==> !IsSpace(r[0]) && !IsSpace(r[|r| - 1])
  {
    var l := TrimLeft(s);
    var r := TrimRight(l);
    var k := |s| - |l|;
    assert TrimmedAt(s, r, k);
    r
  }

  /** Trimming never introduces a character: what is absent from the input
      is absent from the result. */
  lemma TrimSpaceExcludes(s: string, c: char)
    requires c !in s
    ensures c !in TrimSpace(s)
  {
    var r := TrimSpace(s);
    var k :| TrimmedAt(s, r, k);
    forall i | 0 <= i < |r| ensures r[i] != c {
      assert r[i] == s[k + i];
    }
  }

  /** A string made only of white space trims to the empty string. */
  lemma {:induction false} TrimSpaceAllSpace(s: string)
    requires forall i :: 0 <= i < |s| ==> IsSpace(s[i])
    ensures TrimSpace(s) == ""
    decreases |s|
  {
    if |s| > 0 {
      TrimSpaceAllSpace(s[1..]);
      assert TrimLeft(s) == TrimLeft(s[1..]);
    }
  }

  /** Trimming is idempotent. */
  lemma TrimSpaceIdempotent(s: string)
    ensures TrimSpace(TrimSpace(s)) == TrimSpace(s)
  {
    var r := TrimSpace(s);
    if |r| > 0 {
      assert TrimLeft(r) == r;
      assert TrimRight(r) == r;
    }
  }

  /** ASCII lower-casing of one character; every other character is kept. */
  function LowerChar(c: char): char {
    if 'A' <= c <= 'Z' then (c as int + 32) as char else c
  }

  /** `strings.ToLower` restricted to ASCII: the input with each upper-case
      ASCII letter replaced by its lower-case form. */
  function ToLower(s: string): (r: string)
    ensures |r| == |s|
    ensures forall i :: 0 <= i < |s| ==> r[i] == LowerChar(s[i])
    decreases |s|
  {
    if |s| == 0 then "" else [LowerChar(s[0])] + ToLower(s[1..])
  }

  /** A string with no upper-case ASCII letter. */
  predicate IsLower(s: string) {
    forall i :: 0 <= i < |s| ==> !('A' <= s[i] <= 'Z')
  }

  /** Lower-casing yields a lower-case string, is idempotent, leaves
      lower-case strings alone and changes only letters. */
  lemma ToLowerProperties(s: string)
    ensures IsLower(ToLower(s))
    ensures ToLower(ToLower(s)) == ToLower(s)
    ensures IsLower(s) ==> ToLower(s) == s
    ensures forall i :: 0 <= i < |s| && !('A' <= s[i] <= 'Z') ==> ToLower(s)[i] == s[i]
  {
    var t := ToLower(s);
    assert ToLower(t) == t by {
      forall i | 0 <= i < |t| ensures ToLower(t)[i] == t[i] { }
    }
    if IsLower(s) {
      forall i | 0 <= i < |s| ensures t[i] == s[i] { }
    }
  }
}
