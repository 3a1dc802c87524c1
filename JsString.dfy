/**
 * The few JavaScript string operations the application relies on:
 * `String.prototype.trim`, `String.prototype.includes` and
 * `Array.prototype.join`, plus a first-occurrence search (the semantics of
 * `indexOf` for a non-empty pattern) on which `Includes` and the fence
 * step of the response repair are built.
 * JavaScript strings are modelled as `seq<char>`; every character that
 * `trim` removes lies in the Basic Multilingual Plane, so code units and
 * scalar values agree for it.
 */
module JsString {
  import opened Wrappers

  /** The ECMAScript WhiteSpace and LineTerminator characters, which `trim` strips. */
  predicate IsWhitespace(c: char) {
    || c == '\t' || c == '\n' || c == '\U{000B}' || c == '\U{000C}' || c == '\r'
    || c == ' ' || c == '\U{00A0}' || c == '\U{1680}'
    || ('\U{2000}' <= c <= '\U{200A}')
    || c == '\U{2028}' || c == '\U{2029}' || c == '\U{202F}' || c == '\U{205F}'
    || c == '\U{3000}' || c == '\U{FEFF}'
  }

  /** Drops the leading whitespace: the result is the longest suffix that starts with a non-whitespace character. */
  function TrimStart(s: string): (r: string)
    ensures |r| <= |s| && r == s[|s| - |r|..]
    ensures forall i :: 0 <= i < |s| - |r| ==> IsWhitespace(s[i])
    ensures r == [] || !IsWhitespace(r[0])
  {
    if s != [] && IsWhitespace(s[0]) then TrimStart(s[1..]) else s
  }

  /** Drops the trailing whitespace: the result is the longest prefix that ends with a non-whitespace character. */
  function TrimEnd(s: string): (r: string)
    ensures |r| <= |s| && r == s[..|r|]
    ensures forall i :: |r| <= i < |s| ==> IsWhitespace(s[i])
    ensures r == [] || !IsWhitespace(r[|r| - 1])
  {
    if s != [] && IsWhitespace(s[|s| - 1]) then TrimEnd(s[..|s| - 1]) else s
  }

  /** `s.trim()`: the result neither starts nor ends with whitespace. */
  function Trim(s: string): (r: string)
    ensures r == [] || (!IsWhitespace(r[0]) && !IsWhitespace(r[|r| - 1]))
  {
    var t := TrimStart(s);
    var r := TrimEnd(t);
    assert r != [] ==> r[0] == t[0];
    r
  }

  /** A prefix of the suffix `s[a..]`, followed there only by whitespace, is a piece of `s` followed only by whitespace. */
  lemma PrefixOfSuffix(s: string, a: nat, r: string)
    requires a <= |s| && |r| <= |s| - a && r == s[a..][..|r|]
    requires forall i :: |r| <= i < |s| - a ==> IsWhitespace(s[a..][i])
    ensures r == s[a..a + |r|]
    ensures forall i :: a + |r| <= i < |s| ==> IsWhitespace(s[i])
  {
    forall i | a + |r| <= i < |s| ensures IsWhitespace(s[i]) {
      assert s[i] == s[a..][i - a];
    }
  }

  /**
   * What `trim` promises besides: the result is a contiguous piece s[a..b] of
   * the input, and everything cut away is whitespace.
   */
  lemma TrimIsCore(s: string) returns (a: nat, b: nat)
    ensures a <= b <= |s| && Trim(s) == s[a..b]
    ensures forall i :: 0 <= i < a ==> IsWhitespace(s[i])
    ensures forall i :: b <= i < |s| ==> IsWhitespace(s[i])
  {
    var t := TrimStart(s);
    var r := TrimEnd(t);
    a := |s| - |t|;
    b := a + |r|;
    PrefixOfSuffix(s, a, r);
  }

  /** A string that neither starts nor ends with whitespace is its own trim. */
  lemma {:induction false} TrimOfTrimmed(s: string)
    requires s == [] || (!IsWhitespace(s[0]) && !IsWhitespace(s[|s| - 1]))
    ensures Trim(s) == s
  {
    assert TrimStart(s) == s;
    assert TrimEnd(s) == s;
  }

  /** Trimming is idempotent. */
  lemma TrimIdempotent(s: string)
    ensures Trim(Trim(s)) == Trim(s)
  {
    TrimOfTrimmed(Trim(s));
  }

  /** `p` sits in `s` at index `k`. */
  predicate OccursAt(s: string, p: string, k: nat) {
    k + |p| <= |s| && s[k..k + |p|] == p
  }

  /**
   * The first index at or after `k` where `p` occurs in `s`: for a non-empty
   * `p`, `s.indexOf(p, k)` with `None` for -1.
   */
  function FindFrom(s: string, p: string, k: nat): (r: Option<nat>)
    decreases |s| - k
    ensures r.Some? ==> k <= r.value && OccursAt(s, p, r.value)
    ensures forall i :: k <= i && (r.None? || i < r.value) ==> !OccursAt(s, p, i)
  {
    if k + |p| > |s| then None
    else if s[k..k + |p|] == p then Some(k)
    else FindFrom(s, p, k + 1)
  }

  /** An occurrence at `j` with none in `[k, j)` is the one `FindFrom` reports. */
  lemma FindFromIsFirst(s: string, p: string, k: nat, j: nat)
    requires k <= j && OccursAt(s, p, j)
    requires forall i :: k <= i < j ==> !OccursAt(s, p, i)
    ensures FindFrom(s, p, k) == Some(j)
  {
    var r := FindFrom(s, p, k);
    assert r.Some?;
    assert !(r.value < j);
  }

  /** `s.includes(t)`. */
  function Includes(s: string, t: string): (r: bool)
    ensures r <==> exists k :: OccursAt(s, t, k)
  {
    FindFrom(s, t, 0).Some?
  }

  /** A string lacking one of the characters of `t` cannot include `t`. */
  lemma MissingCharExcludes(s: string, t: string, c: char)
    requires c in t && c !in s
    ensures !Includes(s, t)
  {
  }

  /** `parts.join(sep)`. */
  function Join(parts: seq<string>, sep: string): (r: string)
    ensures |parts| == 0 ==> r == ""
  {
    if |parts| == 0 then ""
    else if |parts| == 1 then parts[0]
    else parts[0] + sep + Join(parts[1..], sep)
  }

  /** Where the `k`-th part starts in `Join(parts, sep)`. */
  function JoinOffset(parts: seq<string>, sep: string, k: nat): nat
    requires k <= |parts|
  {
    if k == 0 then 0 else |parts[0]| + |sep| + JoinOffset(parts[1..], sep, k - 1)
  }

  /** Each part starts where the previous part and its separator end. */
  lemma {:induction false} JoinOffsetStep(parts: seq<string>, sep: string, k: nat)
    requires k < |parts|
    ensures JoinOffset(parts, sep, k + 1) == JoinOffset(parts, sep, k) + |parts[k]| + |sep|
  {
    if k > 0 {
      JoinOffsetStep(parts[1..], sep, k - 1);
    }
  }

  /** `p` occurs right after `u` in `u + p`. */
  lemma OccursAtEnd(u: string, p: string)
    ensures OccursAt(u + p, p, |u|)
  {
    assert (u + p)[|u|..|u| + |p|] == p;
  }

  /** The last of three joined pieces is what follows the first two. */
  lemma SuffixAfterTwo(a: string, b: string, c: string)
    ensures (a + b + c)[|a| + |b|..] == c
  {
  }

  lemma OccursAtShifted(u: string, s: string, p: string, k: nat)
    requires OccursAt(s, p, k)
    ensures OccursAt(u + s, p, |u| + k)
  {
    assert (u + s)[|u| + k..|u| + k + |p|] == s[k..k + |p|];
  }

  lemma OccursAtExtended(s: string, v: string, p: string, k: nat)
    requires OccursAt(s, p, k)
    ensures OccursAt(s + v, p, k)
  {
    assert (s + v)[k..k + |p|] == s[k..k + |p|];
  }

  /**
   * The joined string lists the parts in order: part k sits at JoinOffset(k),
   * and the separator follows every part but the last.
   */
  lemma {:induction false} JoinPlacesEach(parts: seq<string>, sep: string, k: nat)
    requires k < |parts|
    ensures OccursAt(Join(parts, sep), parts[k], JoinOffset(parts, sep, k))
    ensures k + 1 < |parts| ==> OccursAt(Join(parts, sep), sep, JoinOffset(parts, sep, k) + |parts[k]|)
    ensures JoinOffset(parts, sep, k) + |parts[k]| <= |Join(parts, sep)|
  {
    if |parts| == 1 {
      assert Join(parts, sep)[0..|parts[0]|] == parts[0];
    } else {
      var rest := Join(parts[1..], sep);
      assert Join(parts, sep) == parts[0] + sep + rest;
      if k == 0 {
        assert (parts[0] + sep + rest)[0..|parts[0]|] == parts[0];
        assert (parts[0] + sep + rest)[|parts[0]|..|parts[0]| + |sep|] == sep;
      } else {
        JoinPlacesEach(parts[1..], sep, k - 1);
        assert parts[1..][k - 1] == parts[k];
        OccursAtShifted(parts[0] + sep, rest, parts[k], JoinOffset(parts[1..], sep, k - 1));
        if k + 1 < |parts| {
          OccursAtShifted(parts[0] + sep, rest, sep, JoinOffset(parts[1..], sep, k - 1) + |parts[k]|);
        }
      }
    }
  }

  /** The joined string ends with its last part: nothing follows it. */
  lemma {:induction false} JoinEndsWithLast(parts: seq<string>, sep: string)
    requires |parts| > 0
    ensures JoinOffset(parts, sep, |parts| - 1) + |parts[|parts| - 1]| == |Join(parts, sep)|
  {
    if |parts| > 1 {
      JoinEndsWithLast(parts[1..], sep);
      assert parts[1..][|parts| - 2] == parts[|parts| - 1];
    }
  }

  /**
   * Inside `h + Join(parts, sep) + t`, part k sits `|h|` further on than in the
   * joined string, and so does the separator after it.
   */
  lemma JoinedPartInContext(h: string, parts: seq<string>, sep: string, t: string, k: nat)
    requires k < |parts|
    ensures OccursAt(h + Join(parts, sep) + t, parts[k], |h| + JoinOffset(parts, sep, k))
    ensures k + 1 < |parts| ==>
      OccursAt(h + Join(parts, sep) + t, sep, |h| + JoinOffset(parts, sep, k) + |parts[k]|)
  {
    var joined := Join(parts, sep);
    var at := JoinOffset(parts, sep, k);
    JoinPlacesEach(parts, sep, k);
    OccursAtShifted(h, joined, parts[k], at);
    OccursAtExtended(h + joined, t, parts[k], |h| + at);
    if k + 1 < |parts| {
      OccursAtShifted(h, joined, sep, at + |parts[k]|);
      OccursAtExtended(h + joined, t, sep, |h| + at + |parts[k]|);
    }
  }
}
