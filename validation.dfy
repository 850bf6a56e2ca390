/** Positive-integer id parsing from loosely typed values and from request URLs
    (src/lib/validation.ts). */
module Validation {
  import opened Opt
  import opened Strings
  import opened Js

  /** `parseNumericId`: a positive integer number is returned as it is; a string is trimmed and
      converted with Number(), and kept when the result is a finite positive integer; anything
      else is null. */
  function ParseNumericId(input: Value): (r: Option<nat>)
    ensures r.Some? ==> r.value > 0
    ensures input.Num? ==> (r.Some? <==> IsPositiveInteger(input.n))
    ensures input.Num? && r.Some? ==> r.value as real == input.n.v
    ensures input.Str? && IsBlank(input.s) ==> r.None?
    ensures input.Str? ==>
      (r.Some? <==> !IsBlank(input.s) && IsPositiveInteger(StringToNumber(Trim(input.s))))
    ensures input.Str? && r.Some? ==> r.value as real == StringToNumber(Trim(input.s)).v
    ensures !input.Num? && !input.Str? ==> r.None?
  {
    if input.Num? && IsInteger(input.n) && input.n.v > 0.0 then
      Some(input.n.v.Floor)
    else if input.Str? then
      var trimmed := Trim(input.s);
      if |trimmed| == 0 then None
      else
        var num := StringToNumber(trimmed);
        if !num.Finite? || !IsInteger(num) || num.v <= 0.0 then None
        else Some(num.v.Floor)
    else None
  }

  /** A string of digits, with any white space around it, parses to its decimal value when that
      value is positive and below the overflow threshold, and to null when it is zero or so
      large that Number() gives Infinity. */
  lemma ParseDigitString(pre: string, d: string, post: string)
    requires AllSpace(pre) && AllSpace(post)
    requires d != [] && AllDigits(d)
    ensures ParseNumericId(Str(pre + d + post)) ==
      if 0 < DigitsValue(d) < OverflowThreshold then Some(DigitsValue(d)) else None
  {
    assert !IsSpace(d[0]) && !IsSpace(d[|d| - 1]);
    TrimPadded(pre, d, post);
    DigitsToNumber(d);
    ParseTrimmedNumber(pre + d + post, DigitsValue(d));
  }

  /** A `0x`, `0o` or `0b` integer, with any white space around it, is an id too: Number()
      reads it in its base. */
  lemma ParsePrefixedString(pre: string, t: string, post: string)
    requires AllSpace(pre) && AllSpace(post)
    requires PrefixedInteger(t).Some? && !IsSpace(t[|t| - 1])
    ensures ParseNumericId(Str(pre + t + post)) ==
      if 0 < PrefixedInteger(t).value < OverflowThreshold then Some(PrefixedInteger(t).value) else None
  {
    TrimPadded(pre, t, post);
    PrefixedToNumber(t);
    ParseTrimmedNumber(pre + t + post, PrefixedInteger(t).value);
  }

  /** A string whose trimmed form is not empty and denotes a whole number v parses to v, or
      to null when v is 0 or overflows to Infinity. */
  lemma ParseTrimmedNumber(s: string, v: nat)
    requires Trim(s) != [] && StringToNumber(Trim(s)) == FromReal(v as real)
    ensures ParseNumericId(Str(s)) == if 0 < v < OverflowThreshold then Some(v) else None
  {
    assert !IsBlank(s);
    if v < OverflowThreshold {
      assert (v as real).Floor == v;
      assert IsInteger(StringToNumber(Trim(s)));
    }
  }

  /** The parts of a request URL the parser reads: `new URL(url)` either fails or yields a
      path name and the decoded query parameters in order. */
  datatype ParsedUrl = ParsedUrl(pathname: string, query: seq<(string, string)>)

  /** `searchParams.get(name)`: the value of the first parameter with that name. */
  function QueryGet(query: seq<(string, string)>, name: string): (r: Option<string>)
    ensures r.Some? <==> exists i :: 0 <= i < |query| && query[i].0 == name
    ensures r.Some? ==> exists i :: (0 <= i < |query| && query[i] == (name, r.value)
                                     && forall j :: 0 <= j < i ==> query[j].0 != name)
  {
    if query == [] then None
    else if query[0].0 == name then Some(query[0].1)
    else
      var r := QueryGet(query[1..], name);
      assert forall i :: 1 <= i < |query| ==> query[i] == query[1..][i - 1];
      if r.Some? then
        ghost var i :| 0 <= i < |query[1..]| && query[1..][i] == (name, r.value)
          && forall j :: 0 <= j < i ==> query[1..][j].0 != name;
        assert query[i + 1] == (name, r.value);
        r
      else r
  }

  /** `s.split('/')`: the pieces between separators, empty pieces included. */
  function Split(s: string, sep: char): (r: seq<string>)
    ensures |r| >= 1
  {
    if s == [] then [[]]
    else if s[0] == sep then [[]] + Split(s[1..], sep)
    else
      var rest := Split(s[1..], sep);
      [[s[0]] + rest[0]] + rest[1..]
  }

  /** `.filter(Boolean)` on strings: the non-empty ones. */
  function NonEmpty(ss: seq<string>): (r: seq<string>)
    ensures forall i :: 0 <= i < |r| ==> r[i] != []
  {
    if ss == [] then []
    else (if ss[0] != [] then [ss[0]] else []) + NonEmpty(ss[1..])
  }

  /** The last non-empty path segment, or `undefined` when there is none. */
  function LastSegment(pathname: string): Value {
    var segments := NonEmpty(Split(pathname, '/'));
    if |segments| == 0 then Undefined else Str(segments[|segments| - 1])
  }

  /** `parseIdFromRequestUrl`: a positive `?id=` value wins; otherwise the last non-empty path
      segment is parsed; a URL that cannot be parsed gives null. */
  function ParseIdFromRequestUrl(url: Option<ParsedUrl>): (r: Option<nat>)
    ensures url.None? ==> r.None?
    ensures r.Some? ==> r.value > 0
    ensures url.Some? ==>
      var q := QueryGet(url.value.query, "id");
      var fromQuery := ParseNumericId(if q.Some? then Str(q.value) else Null);
      r == if fromQuery.Some? then fromQuery else ParseNumericId(LastSegment(url.value.pathname))
  {
    match url
    case None => None
    case Some(u) =>
      var byQuery := QueryGet(u.query, "id");
      var fromQuery := ParseNumericId(if byQuery.Some? then Str(byQuery.value) else Null);
      if fromQuery.Some? then fromQuery
      else ParseNumericId(LastSegment(u.pathname))
  }

  /** Appending the separator adds one empty piece at the end. */
  lemma {:induction false} SplitAppendSep(s: string, sep: char)
    ensures Split(s + [sep], sep) == Split(s, sep) + [[]]
    decreases |s|
  {
    if s == [] {
      assert Split([sep], sep) == [[]] + Split([], sep);
    } else {
      assert (s + [sep])[0] == s[0] && (s + [sep])[1..] == s[1..] + [sep];
      SplitAppendSep(s[1..], sep);
    }
  }

  lemma {:induction false} NonEmptyConcat(a: seq<string>, b: seq<string>)
    ensures NonEmpty(a + b) == NonEmpty(a) + NonEmpty(b)
    decreases |a|
  {
    if a == [] {
      assert a + b == b;
    } else {
      assert (a + b)[0] == a[0] && (a + b)[1..] == a[1..] + b;
      NonEmptyConcat(a[1..], b);
    }
  }

  /** A trailing slash does not change the id a URL yields. */
  lemma TrailingSlashIgnored(pathname: string, query: seq<(string, string)>)
    ensures ParseIdFromRequestUrl(Some(ParsedUrl(pathname + "/", query)))
         == ParseIdFromRequestUrl(Some(ParsedUrl(pathname, query)))
  {
    LastSegmentTrailingSlash(pathname);
  }

  /** A trailing slash adds only an empty segment, which the segment filter drops. */
  lemma LastSegmentTrailingSlash(pathname: string)
    ensures LastSegment(pathname + "/") == LastSegment(pathname)
  {
    var pieces := Split(pathname, '/');
    SplitAppendSep(pathname, '/');
    NonEmptyConcat(pieces, [[]]);
    assert NonEmpty([[]]) == [];
    assert NonEmpty(pieces) + [] == NonEmpty(pieces);
    assert NonEmpty(Split(pathname + "/", '/')) == NonEmpty(pieces);
  }

  /** The characters after the last separator of s: all of s when it has none, empty when it
      ends with one. */
  function FinalRun(s: string, sep: char): (r: string)
    ensures |r| <= |s| && r == s[|s| - |r|..]
    ensures forall i :: 0 <= i < |r| ==> r[i] != sep
    ensures |r| < |s| ==> s[|s| - |r| - 1] == sep
  {
    if s == [] then []
    else if s[|s| - 1] == sep then []
    else FinalRun(s[..|s| - 1], sep) + [s[|s| - 1]]
  }

  /** The last segment read from the right: skip the trailing slashes, then take what follows
      the last slash before them. */
  function LastSegmentFromRight(pathname: string): Value {
    if pathname == [] then Undefined
    else if pathname[|pathname| - 1] == '/' then LastSegmentFromRight(pathname[..|pathname| - 1])
    else Str(FinalRun(pathname, '/'))
  }

  /** Extending the last piece of a list commutes with putting a piece in front. */
  lemma ExtendLastAfterPrepend(h: string, rest: seq<string>, c: char)
    requires |rest| >= 1
    ensures var r := [h] + rest;
      [h] + (rest[..|rest| - 1] + [rest[|rest| - 1] + [c]]) == r[..|r| - 1] + [r[|r| - 1] + [c]]
  {
    var r := [h] + rest;
    assert r[..|r| - 1] == [h] + rest[..|rest| - 1];
  }

  /** Extending the last piece of a list commutes with growing its first piece in front. */
  lemma ExtendLastAfterGrowFirst(x: string, rest: seq<string>, c: char)
    requires |rest| >= 1
    ensures var r := [x + rest[0]] + rest[1..];
      var rest' := rest[..|rest| - 1] + [rest[|rest| - 1] + [c]];
      [x + rest'[0]] + rest'[1..] == r[..|r| - 1] + [r[|r| - 1] + [c]]
  {
    var n := |rest|;
    var rest' := rest[..n - 1] + [rest[n - 1] + [c]];
    if n == 1 {
      assert rest' == [rest[0] + [c]];
      assert x + rest'[0] == (x + rest[0]) + [c];
    } else {
      assert rest'[0] == rest[0];
      assert rest'[1..] == rest[1..n - 1] + [rest[n - 1] + [c]];
    }
  }

  /** Appending a non-separator extends the last piece. */
  lemma {:induction false} SplitAppendChar(s: string, sep: char, c: char)
    requires c != sep
    ensures var r := Split(s, sep);
      Split(s + [c], sep) == r[..|r| - 1] + [r[|r| - 1] + [c]]
    decreases |s|
  {
    var r := Split(s, sep);
    if s == [] {
      assert r == [[]];
      assert s + [c] == [c] && [c][1..] == [];
      assert Split([c], sep) == [[c] + r[0]] + r[1..];
      assert [c] + r[0] == [c] && r[1..] == [];
      assert r[..|r| - 1] + [r[|r| - 1] + [c]] == [[c]];
    } else {
      var t := s + [c];
      assert t[0] == s[0] && t[1..] == s[1..] + [c];
      SplitAppendChar(s[1..], sep, c);
      var rest := Split(s[1..], sep);
      var rest' := Split(s[1..] + [c], sep);
      assert rest' == rest[..|rest| - 1] + [rest[|rest| - 1] + [c]];
      if s[0] == sep {
        assert r == [[]] + rest;
        assert Split(t, sep) == [[]] + rest';
        ExtendLastAfterPrepend([], rest, c);
      } else {
        assert r == [[s[0]] + rest[0]] + rest[1..];
        assert Split(t, sep) == [[s[0]] + rest'[0]] + rest'[1..];
        ExtendLastAfterGrowFirst([s[0]], rest, c);
      }
    }
  }

  /** The last piece of a split is the final run. */
  lemma {:induction false} SplitLastIsFinalRun(s: string, sep: char)
    ensures var r := Split(s, sep); r[|r| - 1] == FinalRun(s, sep)
    decreases |s|
  {
    if s != [] {
      var init, c := s[..|s| - 1], s[|s| - 1];
      assert s == init + [c];
      SplitLastIsFinalRun(init, sep);
      if c == sep {
        SplitAppendSep(init, sep);
      } else {
        SplitAppendChar(init, sep, c);
      }
    }
  }

  /** A non-empty string put last survives the filter and ends its result. */
  lemma NonEmptyLast(a: seq<string>, x: string)
    requires x != []
    ensures var r := NonEmpty(a + [x]); |r| > 0 && r[|r| - 1] == x
  {
    NonEmptyConcat(a, [x]);
    assert NonEmpty([x]) == [x];
  }

  /** A path ending in a non-slash has the final run as its last segment. */
  lemma LastSegmentAppendChar(init: string, c: char)
    requires c != '/'
    ensures LastSegment(init + [c]) == Str(FinalRun(init + [c], '/'))
  {
    var r := Split(init, '/');
    var last := r[|r| - 1] + [c];
    SplitAppendChar(init, '/', c);
    SplitLastIsFinalRun(init + [c], '/');
    NonEmptyLast(r[..|r| - 1], last);
  }

  /** The last non-empty segment, found from the left by splitting, is the one found from the
      right: a non-empty run without slashes followed only by slashes; there is none exactly
      when the path holds nothing but slashes. */
  lemma {:induction false} LastSegmentSpec(pathname: string)
    ensures LastSegment(pathname) == LastSegmentFromRight(pathname)
    ensures LastSegment(pathname).Undefined? <==> forall i :: 0 <= i < |pathname| ==> pathname[i] == '/'
    ensures LastSegment(pathname).Str? ==> LastSegment(pathname).s != []
    decreases |pathname|
  {
    if pathname == [] {
      assert Split(pathname, '/') == [[]];
      assert NonEmpty([[]]) == [];
    } else {
      var n := |pathname| - 1;
      var init, c := pathname[..n], pathname[n];
      assert pathname == init + [c];
      LastSegmentSpec(init);
      if c == '/' {
        LastSegmentTrailingSlash(init);
        assert (forall i :: 0 <= i < |pathname| ==> pathname[i] == '/')
           <==> (forall i :: 0 <= i < |init| ==> init[i] == '/');
      } else {
        LastSegmentAppendChar(init, c);
        assert FinalRun(pathname, '/') == FinalRun(init, '/') + [c];
        assert pathname[n] != '/';
      }
    }
  }
}
