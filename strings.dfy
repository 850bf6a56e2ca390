/** String helpers shared by the validation rules and the query filters:
    JavaScript's trim, ASCII lower-casing and substring search. */
module Strings {
  import opened Opt

  /** The characters JavaScript's String.prototype.trim and Number() strip: the white space
      characters (tab, vertical tab, form feed, the byte order mark and every space separator
      of Unicode category Zs) and the line terminators (line feed, carriage return and the
      Unicode line and paragraph separators). */
  predicate IsSpace(c: char) {
    c == '\t' || c == '\U{B}' || c == '\U{C}' || c == '\U{FEFF}'
    || c == '\n' || c == '\r' || c == '\U{2028}' || c == '\U{2029}'
    || IsSpaceSeparator(c)
  }

  /** The characters of Unicode category Zs. */
  predicate IsSpaceSeparator(c: char) {
    c == ' ' || c == '\U{A0}' || c == '\U{1680}' || '\U{2000}' <= c <= '\U{200A}'
    || c == '\U{202F}' || c == '\U{205F}' || c == '\U{3000}'
  }

  /** A character outside the Basic Multilingual Plane, which UTF-16 stores as a surrogate pair. */
  predicate IsAstral(c: char) {
    c as int >= 0x1_0000
  }

  /** `s.length` in JavaScript: the number of UTF-16 code units, two for each astral character. */
  function Utf16Length(s: string): (n: nat)
    ensures |s| <= n <= 2 * |s|
    ensures n == 0 <==> s == []
  {
    if s == [] then 0 else (if IsAstral(s[0]) then 2 else 1) + Utf16Length(s[1..])
  }

  /** Without astral characters the JavaScript length is the number of characters. */
  lemma {:induction false} Utf16LengthBmp(s: string)
    requires forall i :: 0 <= i < |s| ==> !IsAstral(s[i])
    ensures Utf16Length(s) == |s|
    decreases |s|
  {
    if s != [] {
      Utf16LengthBmp(s[1..]);
    }
  }

  /** A string of astral characters only is twice as long in JavaScript. */
  lemma {:induction false} Utf16LengthAstral(s: string)
    requires forall i :: 0 <= i < |s| ==> IsAstral(s[i])
    ensures Utf16Length(s) == 2 * |s|
    decreases |s|
  {
    if s != [] {
      Utf16LengthAstral(s[1..]);
    }
  }

  /** Every character of s is white space (the empty string included). */
  predicate AllSpace(s: string) {
    forall i :: 0 <= i < |s| ==> IsSpace(s[i])
  }

  function TrimStart(s: string): (r: string)
    ensures |r| <= |s| && r == s[|s| - |r|..]
    ensures r == [] || !IsSpace(r[0])
    ensures AllSpace(s[..|s| - |r|])
  {
    if |s| > 0 && IsSpace(s[0]) then
      var r := TrimStart(s[1..]);
      assert s[1..][..|s| - 1 - |r|] == s[1..|s| - |r|];
      assert s[..|s| - |r|] == [s[0]] + s[1..|s| - |r|];
      r
    else s
  }

  function TrimEnd(s: string): (r: string)
    ensures |r| <= |s| && r == s[..|r|]
    ensures r == [] || !IsSpace(r[|r| - 1])
    ensures AllSpace(s[|r|..])
  {
    if |s| > 0 && IsSpace(s[|s| - 1]) then
      var r := TrimEnd(s[..|s| - 1]);
      assert s[..|s| - 1][|r|..] == s[|r|..|s| - 1];
      assert s[|r|..] == s[|r|..|s| - 1] + [s[|s| - 1]];
      r
    else s
  }

  /** JavaScript's s.trim(): white space removed from both ends. */
  function Trim(s: string): (r: string)
    ensures |r| <= |s|
    ensures r == [] || (!IsSpace(r[0]) && !IsSpace(r[|r| - 1]))
  {
    TrimEnd(TrimStart(s))
  }

  /** The JavaScript test `s && s.trim()`: the string has a non-space character. */
  predicate IsBlank(s: string) {
    Trim(s) == []
  }

  /** The JavaScript test `v && v.trim()` on an optional string, keeping the trimmed value
      when it passes. */
  function NonBlankTrimmed(v: Option<string>): (r: Option<string>)
    ensures r.Some? <==> v.Some? && !IsBlank(v.value)
    ensures r.Some? ==> r.value == Trim(v.value) && r.value != []
  {
    if v.Some? && !IsBlank(v.value) then Some(Trim(v.value)) else None
  }

  lemma {:induction false} TrimStartOfSpace(s: string)
    requires AllSpace(s)
    ensures TrimStart(s) == []
    decreases |s|
  {
    if |s| > 0 {
      TrimStartOfSpace(s[1..]);
    }
  }

  lemma {:induction false} TrimEndOfSpace(s: string)
    requires AllSpace(s)
    ensures TrimEnd(s) == []
    decreases |s|
  {
    if |s| > 0 {
      TrimEndOfSpace(s[..|s| - 1]);
    }
  }

  /** A string is blank exactly when all its characters are white space. */
  lemma BlankIffAllSpace(s: string)
    ensures IsBlank(s) <==> AllSpace(s)
  {
    var t := TrimStart(s);
    if AllSpace(s) {
      TrimStartOfSpace(s);
    }
    if IsBlank(s) {
      assert TrimEnd(t) == [];
      assert AllSpace(t[0..]);
      assert s == s[..|s| - |t|] + t;
    }
  }

  /** Leading white space does not change what TrimStart keeps. */
  lemma {:induction false} TrimStartSkips(pre: string, rest: string)
    requires AllSpace(pre)
    ensures TrimStart(pre + rest) == TrimStart(rest)
    decreases |pre|
  {
    if |pre| > 0 {
      assert (pre + rest)[1..] == pre[1..] + rest;
      TrimStartSkips(pre[1..], rest);
    } else {
      assert pre + rest == rest;
    }
  }

  /** Trailing white space does not change what TrimEnd keeps. */
  lemma {:induction false} TrimEndSkips(rest: string, post: string)
    requires AllSpace(post)
    ensures TrimEnd(rest + post) == TrimEnd(rest)
    decreases |post|
  {
    if |post| > 0 {
      assert (rest + post)[..|rest + post| - 1] == rest + post[..|post| - 1];
      TrimEndSkips(rest, post[..|post| - 1]);
    } else {
      assert rest + post == rest;
    }
  }

  /** Surrounding white space is removed and nothing else: `ws + core + ws'` trims to `core`
      when `core` neither starts nor ends with white space. */
  lemma TrimPadded(pre: string, core: string, post: string)
    requires AllSpace(pre) && AllSpace(post)
    requires core == [] || (!IsSpace(core[0]) && !IsSpace(core[|core| - 1]))
    ensures Trim(pre + core + post) == core
  {
    assert pre + core + post == pre + (core + post);
    TrimStartSkips(pre, core + post);
    if core == [] {
      assert core + post == [] + post;
      TrimStartSkips(post, []);
      assert post + [] == post;
    } else {
      assert TrimStart(core + post) == core + post;
      TrimEndSkips(core, post);
    }
  }

  /** Trimming twice is trimming once. */
  lemma TrimIdempotent(s: string)
    ensures Trim(Trim(s)) == Trim(s)
  {
    TrimPadded([], Trim(s), []);
    assert [] + Trim(s) + [] == Trim(s);
  }

  /** A term and its trimmed form pass the non-blank test alike, with the same value. */
  lemma NonBlankTrimmedOfTrim(s: string)
    ensures NonBlankTrimmed(Some(Trim(s))) == NonBlankTrimmed(Some(s))
  {
    TrimIdempotent(s);
  }

  /** ASCII lower-casing of one character. */
  function LowerChar(c: char): (r: char)
    ensures 'A' <= c <= 'Z' ==> 'a' <= r <= 'z'
    ensures !('A' <= c <= 'Z') ==> r == c
  {
    if 'A' <= c <= 'Z' then (c as int + 32) as char else c
  }

  /** s.toLowerCase(), restricted to the ASCII letters. */
  function Lower(s: string): (r: string)
    ensures |r| == |s|
    ensures forall i :: 0 <= i < |s| ==> r[i] == LowerChar(s[i])
  {
    seq(|s|, i requires 0 <= i < |s| => LowerChar(s[i]))
  }

  /** t occurs in s at position i. */
  predicate OccursAt(s: string, t: string, i: nat) {
    i + |t| <= |s| && s[i..i + |t|] == t
  }

  /** s.includes(t): t occurs somewhere in s. */
  predicate Contains(s: string, t: string) {
    exists i: nat :: i <= |s| && OccursAt(s, t, i)
  }

  /** Prisma's `contains` with `mode: 'insensitive'`, with ASCII case folding. */
  predicate ContainsInsensitive(s: string, t: string) {
    Contains(Lower(s), Lower(t))
  }

  lemma EmptyContained(s: string)
    ensures Contains(s, [])
  {
    assert OccursAt(s, [], 0);
  }

  /** A term found in a string is found in every string that extends it on either side. */
  lemma ContainsExtended(pre: string, s: string, post: string, t: string)
    requires Contains(s, t)
    ensures Contains(pre + s + post, t)
  {
    var i: nat :| i <= |s| && OccursAt(s, t, i);
    var u := pre + s + post;
    assert u[|pre| + i..|pre| + i + |t|] == s[i..i + |t|];
    assert OccursAt(u, t, |pre| + i);
  }
}
