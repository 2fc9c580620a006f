/**
 * The handful of Python `str` operations the backend factory relies on:
 * `startswith`, `endswith`, the `in` substring test, `split(sep)`,
 * `split("=", 1)`, `strip()` and `lower()`.
 */
module Strings {

  /** `s.startswith(p)` */
  predicate StartsWith(s: string, p: string) {
    |p| <= |s| && s[..|p|] == p
  }

  /** `s.endswith(p)` */
  predicate EndsWith(s: string, p: string) {
    |p| <= |s| && s[|s| - |p|..] == p
  }

  /** `t` occurs in `s` starting at index `i`. */
  ghost predicate OccursAt(s: string, t: string, i: int) {
    0 <= i && i + |t| <= |s| && s[i..i + |t|] == t
  }

  /** Python's `t in s` for strings: `t` is a contiguous substring of `s`. */
  predicate Contains(s: string, t: string)
    decreases |s|
  {
    StartsWith(s, t) || (|s| > 0 && Contains(s[1..], t))
  }

  lemma {:induction false} ContainsIffOccurs(s: string, t: string)
    ensures Contains(s, t) <==> exists i :: OccursAt(s, t, i)
    decreases |s|
  {
    if StartsWith(s, t) {
      assert OccursAt(s, t, 0);
    } else if |s| == 0 {
    } else {
      ContainsIffOccurs(s[1..], t);
      if exists i :: OccursAt(s[1..], t, i) {
        var i :| OccursAt(s[1..], t, i);
        assert s[1..][i..i + |t|] == s[i + 1..i + 1 + |t|];
        assert OccursAt(s, t, i + 1);
      }
      if exists i :: OccursAt(s, t, i) {
        var i :| OccursAt(s, t, i);
        if i > 0 {
          assert s[1..][i - 1..i - 1 + |t|] == s[i..i + |t|];
          assert OccursAt(s[1..], t, i - 1);
        }
      }
    }
  }

  /** A substring of `s` stays a substring however `s` is extended on either side. */
  lemma ContainsExtended(s: string, t: string, before: string, after: string)
    requires Contains(s, t)
    ensures Contains(before + s + after, t)
  {
    ContainsIffOccurs(s, t);
    var i :| OccursAt(s, t, i);
    var w := before + s + after;
    assert w[|before| + i..|before| + i + |t|] == s[i..i + |t|];
    assert OccursAt(w, t, |before| + i);
    ContainsIffOccurs(w, t);
  }

  /** If `s` contains `a + t + b`, it contains `t`. */
  lemma ContainsPartOf(s: string, a: string, t: string, b: string)
    requires Contains(s, a + t + b)
    ensures Contains(s, t)
  {
    ContainsInfix(a, t, b);
    ContainsTransitive(s, a + t + b, t);
  }

  /** A substring of a substring is a substring. */
  lemma ContainsTransitive(s: string, t: string, u: string)
    requires Contains(s, t) && Contains(t, u)
    ensures Contains(s, u)
  {
    ContainsIffOccurs(s, t);
    ContainsIffOccurs(t, u);
    var i :| OccursAt(s, t, i);
    var j :| OccursAt(t, u, j);
    forall k | 0 <= k < |u| ensures u[k] == s[i + j + k] {
      OccurrenceChar(t, u, j, k);
      OccurrenceChar(s, t, i, j + k);
    }
    assert s[i + j..i + j + |u|] == u;
    assert OccursAt(s, u, i + j);
    ContainsIffOccurs(s, u);
  }

  /** `t` occurs in `s` at a known position. */
  lemma ContainsAt(s: string, t: string, i: nat)
    requires OccursAt(s, t, i)
    ensures Contains(s, t)
  {
    ContainsIffOccurs(s, t);
  }

  /**
   * Appending `p` to `s` creates no new occurrence of `t` when `t` avoids the
   * first character of `p`.
   */
  lemma ContainsAppendedAvoiding(s: string, p: string, t: string)
    requires |p| > 0 && p[0] !in t
    requires Contains(s + p, t)
    ensures Contains(s, t) || Contains(p, t)
  {
    ContainsIffOccurs(s + p, t);
    var w := s + p;
    var i :| OccursAt(w, t, i);
    if i + |t| <= |s| {
      assert w[i..i + |t|] == s[i..i + |t|];
      ContainsAt(s, t, i);
    } else if i >= |s| {
      assert w[i..i + |t|] == p[i - |s|..i - |s| + |t|];
      ContainsAt(p, t, i - |s|);
    } else {
      OccurrenceChar(w, t, i, |s| - i);
      assert false;
    }
  }

  /** The `k`-th character of an occurrence of `t` at `i` is `w[i + k]`. */
  lemma OccurrenceChar(w: string, t: string, i: int, k: int)
    ensures OccursAt(w, t, i) && 0 <= k < |t| ==> t[k] in t && t[k] == w[i + k]
  {
  }

  /** `t` occurs in `a + t + b`. */
  lemma ContainsInfix(a: string, t: string, b: string)
    ensures Contains(a + t + b, t)
  {
    assert t[..|t|] == t;
    ContainsExtended(t, t, a, b);
  }

  /** `t` does not occur in `s` if no position where it could start holds its first character. */
  lemma NotContainsFirstChar(s: string, t: string)
    requires |t| > 0
    requires forall k :: 0 <= k <= |s| - |t| ==> s[k] != t[0]
    ensures !Contains(s, t)
  {
    ContainsIffOccurs(s, t);
    forall i | OccursAt(s, t, i) ensures false {
      OccurrenceChar(s, t, i, 0);
    }
  }

  /** A prefix of a string is also a prefix of any extension of it. */
  lemma StartsWithExtended(s: string, p: string, q: string)
    requires StartsWith(s, p)
    ensures StartsWith(s + q, p)
  {
    assert (s + q)[..|p|] == s[..|p|];
  }

  /** `s + p` ends with `p`. */
  lemma EndsWithAppended(s: string, p: string)
    ensures EndsWith(s + p, p)
  {
    assert (s + p)[|s + p| - |p|..] == p;
  }

  /** A string followed by anything starts with it. */
  lemma StartsWithItself(a: string, b: string)
    ensures StartsWith(a + b, a)
  {
    assert (a + b)[..|a|] == a;
  }

  /** A prefix of a prefix is a prefix. */
  lemma StartsWithPrefix(s: string, t: string, p: string)
    requires StartsWith(s, t) && StartsWith(t, p)
    ensures StartsWith(s, p)
  {
    assert s[..|p|] == t[..|p|];
  }

  /** A string whose last character differs from that of `p` does not end with `p`. */
  lemma NotEndsWithLast(s: string, p: string)
    requires |s| > 0 && |p| > 0 && s[|s| - 1] != p[|p| - 1]
    ensures !EndsWith(s, p)
  {
    if |p| <= |s| {
      assert s[|s| - |p|..][|p| - 1] == s[|s| - 1];
    }
  }

  /** The characters for which Python's `str.isspace()` holds. */
  predicate IsSpace(c: char) {
    || ('\t' <= c <= '\r')
    || ('\U{1C}' <= c <= ' ')
    || c == '\U{85}' || c == '\U{A0}' || c == '\U{1680}'
    || ('\U{2000}' <= c <= '\U{200A}')
    || c == '\U{2028}' || c == '\U{2029}' || c == '\U{202F}' || c == '\U{205F}' || c == '\U{3000}'
  }

  ghost predicate AllSpace(s: string) {
    forall k :: 0 <= k < |s| ==> IsSpace(s[k])
  }

  /** `s.lstrip()` */
  function TrimStart(s: string): string
  {
    if |s| > 0 && IsSpace(s[0]) then TrimStart(s[1..]) else s
  }

  /** `s.rstrip()` */
  function TrimEnd(s: string): string
  {
    if |s| > 0 && IsSpace(s[|s| - 1]) then TrimEnd(s[..|s| - 1]) else s
  }

  /** `lstrip` keeps the longest suffix of `s` that does not start with whitespace. */
  lemma {:induction false} TrimStartSuffix(s: string)
    ensures |TrimStart(s)| <= |s| && TrimStart(s) == s[|s| - |TrimStart(s)|..]
    ensures AllSpace(s[..|s| - |TrimStart(s)|])
    ensures |TrimStart(s)| > 0 ==> !IsSpace(TrimStart(s)[0])
  {
    if |s| > 0 && IsSpace(s[0]) {
      var r := TrimStart(s[1..]);
      TrimStartSuffix(s[1..]);
      assert s[..|s| - |r|] == [s[0]] + s[1..][..|s[1..]| - |r|];
    }
  }

  /** `rstrip` keeps the longest prefix of `s` that does not end with whitespace. */
  lemma {:induction false} TrimEndPrefix(s: string)
    ensures |TrimEnd(s)| <= |s| && TrimEnd(s) == s[..|TrimEnd(s)|]
    ensures AllSpace(s[|TrimEnd(s)|..])
    ensures |TrimEnd(s)| > 0 ==> !IsSpace(TrimEnd(s)[|TrimEnd(s)| - 1])
  {
    if |s| > 0 && IsSpace(s[|s| - 1]) {
      var r := TrimEnd(s[..|s| - 1]);
      TrimEndPrefix(s[..|s| - 1]);
      assert s[|r|..] == s[..|s| - 1][|r|..] + [s[|s| - 1]];
    }
  }

  /** `s.strip()`: `s` with leading and trailing whitespace removed. */
  function Trim(s: string): (r: string)
    ensures |r| <= |s|
    ensures |r| > 0 ==> !IsSpace(r[0]) && !IsSpace(r[|r| - 1])
  {
    TrimStartSuffix(s);
    TrimEndPrefix(TrimStart(s));
    var r := TrimEnd(TrimStart(s));
    assert |r| > 0 ==> r[0] == TrimStart(s)[0];
    r
  }

  /**
   * What `Trim` leaves is a contiguous piece of `s`, and everything it
   * removed on either side is whitespace.
   */
  lemma TrimIsInfix(s: string)
    ensures exists i ::
              0 <= i <= |s| - |Trim(s)| && Trim(s) == s[i..i + |Trim(s)|] && AllSpace(s[..i]) && AllSpace(s[i + |Trim(s)|..])
  {
    var l := TrimStart(s);
    var r := TrimEnd(l);
    TrimStartSuffix(s);
    TrimEndPrefix(l);
    var i := |s| - |l|;
    assert r == s[i..i + |r|];
    assert s[i + |r|..] == l[|r|..];
  }

  /** Trimming twice is the same as trimming once. */
  lemma TrimIdempotent(s: string)
    ensures Trim(Trim(s)) == Trim(s)
  {
    var r := Trim(s);
    if |r| > 0 {
      assert TrimStart(r) == r;
      assert TrimEnd(r) == r;
    }
  }

  /**
   * `c.lower()` for the characters whose lower-case form is a single ASCII
   * character: A-Z, and the Kelvin sign, which lower-cases to `k`.
   */
  function LowerChar(c: char): char {
    if 'A' <= c <= 'Z' then (c as int + 32) as char
    else if c == '\U{212A}' then 'k'
    else c
  }

  /** `s.lower()`, character by character (see `LowerChar`). */
  function Lower(s: string): (r: string)
    ensures |r| == |s|
    ensures forall k :: 0 <= k < |s| ==> r[k] == LowerChar(s[k])
  {
    if s == [] then [] else [LowerChar(s[0])] + Lower(s[1..])
  }

  /** Lower-casing is idempotent. */
  lemma LowerIdempotent(s: string)
    ensures Lower(Lower(s)) == Lower(s)
  {
  }

  /** Python's `sep.join(parts)` for a one-character separator. */
  function Join(parts: seq<string>, sep: char): string
    requires |parts| >= 1
  {
    if |parts| == 1 then parts[0] else parts[0] + [sep] + Join(parts[1..], sep)
  }

  /**
   * `s.split(sep)` for a one-character separator: the pieces between
   * separators, in order; there is always at least one piece (`"".split(",")`
   * is `[""]`), no piece contains `sep`, and joining them with `sep` gives `s` back.
   */
  function Split(s: string, sep: char): (r: seq<string>)
    ensures |r| >= 1
    ensures forall k :: 0 <= k < |r| ==> sep !in r[k]
    ensures Join(r, sep) == s
  {
    if s == [] then [""]
    else
      var rest := Split(s[1..], sep);
      if s[0] == sep then
        assert [sep] + Join(rest, sep) == s;
        [""] + rest
      else
        var r := [[s[0]] + rest[0]] + rest[1..];
        assert r[1..] == rest[1..];
        assert [s[0]] + Join(rest, sep) == s;
        r
  }

  /** Splitting undoes joining when no piece contains the separator. */
  lemma {:induction false} SplitJoin(parts: seq<string>, sep: char)
    requires |parts| >= 1
    requires forall k :: 0 <= k < |parts| ==> sep !in parts[k]
    ensures Split(Join(parts, sep), sep) == parts
    decreases |Join(parts, sep)|, |parts|
  {
    var p := parts[0];
    if p == [] {
      if |parts| == 1 {
      } else {
        var tail := Join(parts[1..], sep);
        assert Join(parts, sep) == [sep] + tail;
        assert ([sep] + tail)[1..] == tail;
        SplitJoin(parts[1..], sep);
        assert parts == [""] + parts[1..];
      }
    } else {
      var s := Join(parts, sep);
      var shorter := [p[1..]] + parts[1..];
      assert shorter[1..] == parts[1..];
      assert forall k :: 0 < k < |shorter| ==> shorter[k] == parts[k];
      assert sep !in shorter[0] by { assert forall j :: 0 <= j < |p[1..]| ==> p[1..][j] == p[j + 1]; }
      assert s == [p[0]] + Join(shorter, sep) by {
        if |parts| > 1 {
          assert Join(shorter, sep) == p[1..] + [sep] + Join(parts[1..], sep);
        }
      }
      assert s[1..] == Join(shorter, sep);
      SplitJoin(shorter, sep);
      assert p[0] != sep by { assert p[0] in p; }
      assert p == [p[0]] + shorter[0];
      assert parts == [[p[0]] + shorter[0]] + shorter[1..];
    }
  }

  /** The index of the first occurrence of `c` in `s`. */
  function IndexOf(s: string, c: char): (i: nat)
    requires c in s
    ensures i < |s| && s[i] == c && c !in s[..i]
  {
    if s[0] == c then 0
    else
      var i := IndexOf(s[1..], c);
      assert s[..i + 1] == [s[0]] + s[1..][..i];
      i + 1
  }

  /**
   * `s.split(c, 1)` when `c` occurs in `s`: the text before the first `c` and
   * everything after it, which may itself contain `c`.
   */
  function SplitFirst(s: string, c: char): (r: (string, string))
    requires c in s
    ensures r.0 + [c] + r.1 == s
    ensures c !in r.0
  {
    var i := IndexOf(s, c);
    assert s[..i] + [c] + s[i + 1..] == s;
    (s[..i], s[i + 1..])
  }
}
