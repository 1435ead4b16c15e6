/** String operations the source takes from Python's `str`: `upper`,
    `lower`, `strip`, `sep.join(parts)` and the substring test `in`.
    Case mapping covers the ASCII letters only; `strip` uses the exact
    set of characters for which Python's `str.isspace` holds. */
module Text {

  function UpperChar(c: char): (r: char)
    ensures 'a' <= c <= 'z' ==> r as int == c as int - 32
    ensures !('a' <= c <= 'z') ==> r == c
  {
    if 'a' <= c <= 'z' then (c as int - 32) as char else c
  }

  function LowerChar(c: char): (r: char)
    ensures 'A' <= c <= 'Z' ==> r as int == c as int + 32
    ensures !('A' <= c <= 'Z') ==> r == c
  {
    if 'A' <= c <= 'Z' then (c as int + 32) as char else c
  }

  /** Python's `s.upper()` on ASCII letters. */
  function Upper(s: string): (r: string)
    ensures |r| == |s|
    ensures forall i :: 0 <= i < |s| ==> r[i] == UpperChar(s[i])
  {
    seq(|s|, i requires 0 <= i < |s| => UpperChar(s[i]))
  }

  /** Python's `s.lower()` on ASCII letters. */
  function Lower(s: string): (r: string)
    ensures |r| == |s|
    ensures forall i :: 0 <= i < |s| ==> r[i] == LowerChar(s[i])
  {
    seq(|s|, i requires 0 <= i < |s| => LowerChar(s[i]))
  }

  lemma UpperIdempotent(s: string)
    ensures Upper(Upper(s)) == Upper(s)
  {
  }

  lemma LowerIdempotent(s: string)
    ensures Lower(Lower(s)) == Lower(s)
  {
  }

  /** The characters of Python's `str.isspace`. */
  predicate IsSpace(c: char)
  {
    || '\U{9}' <= c <= '\U{D}'
    || '\U{1C}' <= c <= '\U{20}'
    || c == '\U{85}' || c == '\U{A0}' || c == '\U{1680}'
    || '\U{2000}' <= c <= '\U{200A}'
    || c == '\U{2028}' || c == '\U{2029}' || c == '\U{202F}'
    || c == '\U{205F}' || c == '\U{3000}'
  }

  /** `s` without its leading white space. */
  function TrimStart(s: string): (r: string)
    ensures |r| <= |s|
  {
    if s != [] && IsSpace(s[0]) then TrimStart(s[1..]) else s
  }

  /** `s` without its trailing white space. */
  function TrimEnd(s: string): (r: string)
    ensures |r| <= |s|
  {
    if s != [] && IsSpace(s[|s| - 1]) then TrimEnd(s[..|s| - 1]) else s
  }

  /** `TrimStart` drops exactly the white space in front: what it keeps
      is a suffix that does not start with white space. */
  lemma {:induction false} TrimStartSpec(s: string)
    ensures TrimStart(s) == s[|s| - |TrimStart(s)|..]
    ensures TrimStart(s) != [] ==> !IsSpace(TrimStart(s)[0])
    ensures forall i :: 0 <= i < |s| - |TrimStart(s)| ==> IsSpace(s[i])
  {
    if s != [] && IsSpace(s[0]) {
      TrimStartSpec(s[1..]);
      assert forall i :: 1 <= i < |s| ==> s[i] == s[1..][i - 1];
    }
  }

  /** `TrimEnd` drops exactly the white space at the end: what it keeps
      is a prefix that does not end with white space. */
  lemma {:induction false} TrimEndSpec(s: string)
    ensures TrimEnd(s) == s[..|TrimEnd(s)|]
    ensures TrimEnd(s) != [] ==> !IsSpace(TrimEnd(s)[|TrimEnd(s)| - 1])
    ensures forall i :: |TrimEnd(s)| <= i < |s| ==> IsSpace(s[i])
  {
    if s != [] && IsSpace(s[|s| - 1]) {
      TrimEndSpec(s[..|s| - 1]);
    }
  }

  /** Python's `s.strip()`. */
  function Strip(s: string): (r: string)
    ensures |r| <= |s|
  {
    TrimEnd(TrimStart(s))
  }

  /** `strip` keeps a contiguous part of its input, drops only white
      space around it, and leaves no white space at either end. */
  lemma StripSpec(s: string)
    ensures Contains(s, Strip(s))
    ensures Strip(s) != [] ==> !IsSpace(Strip(s)[0]) && !IsSpace(Strip(s)[|Strip(s)| - 1])
  {
    var t := TrimStart(s);
    TrimStartSpec(s);
    TrimEndSpec(t);
    var k := |s| - |t|;
    assert OccursAt(s, Strip(s), k);
  }

  lemma StripIdempotent(s: string)
    ensures Strip(Strip(s)) == Strip(s)
  {
    var r := Strip(s);
    StripSpec(s);
    if r != [] {
      assert TrimStart(r) == r;
      assert TrimEnd(r) == r;
    }
  }

  /** `sub` occurs in `s` starting at index `k`. */
  predicate OccursAt(s: string, sub: string, k: int)
  {
    0 <= k && k + |sub| <= |s| && s[k..k + |sub|] == sub
  }

  /** An occurrence inside an occurrence is an occurrence in the whole. */
  lemma OccursWithin(s: string, t: string, u: string, k: int, m: int)
    requires OccursAt(s, t, k) && OccursAt(t, u, m)
    ensures OccursAt(s, u, k + m)
  {
    forall x | 0 <= x < |u|
      ensures s[k + m + x] == u[x]
    {
      assert t[m + x] == u[x];
      assert s[k + (m + x)] == t[m + x];
    }
    assert s[k + m..k + m + |u|] == u;
  }

  /** Python's `sub in s`. */
  ghost predicate Contains(s: string, sub: string)
  {
    exists k :: OccursAt(s, sub, k)
  }

  /** What `"sep".join(parts)` builds: the parts in order with `sep`
      between neighbours. */
  function Join(sep: string, parts: seq<string>): string
  {
    if |parts| == 0 then ""
    else if |parts| == 1 then parts[0]
    else parts[0] + sep + Join(sep, parts[1..])
  }

  /** Where part `i` begins inside `Join(sep, parts)`. */
  function JoinOffset(sep: string, parts: seq<string>, i: nat): nat
    requires i <= |parts|
  {
    if i == 0 then 0 else |parts[0]| + |sep| + JoinOffset(sep, parts[1..], i - 1)
  }

  /** Every part occurs verbatim inside the join, at its offset. */
  lemma {:induction false} JoinAt(sep: string, parts: seq<string>, i: nat)
    requires i < |parts|
    ensures OccursAt(Join(sep, parts), parts[i], JoinOffset(sep, parts, i))
  {
    if i == 0 {
      if |parts| > 1 {
        assert Join(sep, parts) == parts[0] + (sep + Join(sep, parts[1..]));
      }
    } else {
      var tail := parts[1..];
      JoinAt(sep, tail, i - 1);
      var head := parts[0] + sep;
      var rest := Join(sep, tail);
      var o := JoinOffset(sep, tail, i - 1);
      assert tail[i - 1] == parts[i];
      assert Join(sep, parts) == head + rest;
      assert JoinOffset(sep, parts, i) == |head| + o;
      assert (head + rest)[|head| + o..|head| + o + |parts[i]|] == rest[o..o + |parts[i]|];
    }
  }

  /** Earlier parts end, followed by a separator, before later parts
      begin: the join keeps the order of its parts. */
  lemma {:induction false} JoinOrdered(sep: string, parts: seq<string>, i: nat, j: nat)
    requires i < j < |parts|
    ensures JoinOffset(sep, parts, i) + |parts[i]| + |sep| <= JoinOffset(sep, parts, j)
  {
    if i > 0 {
      JoinOrdered(sep, parts[1..], i - 1, j - 1);
    } else {
      assert JoinOffset(sep, parts, j) == |parts[0]| + |sep| + JoinOffset(sep, parts[1..], j - 1);
    }
  }
}
