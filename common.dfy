/**
 * Values shared by every part of the model: optional values, JavaScript
 * truthiness of the optional strings the handlers read from request bodies,
 * and the string helpers (trim, lower-case, includes, split) the code calls.
 */
module Common {

  /** A document's `_id`. ObjectIds are modelled as naturals drawn from one counter. */
  type Id = nat

  /** An instant, in milliseconds since the epoch (a JavaScript `Date`). */
  type Time = int

  /** An absent (`undefined`/`null`) or present value. */
  datatype Option<+T> = None | Some(value: T) {
    function GetOr(default: T): T {
      match this
      case Some(v) => v
      case None => default
    }
  }

  /** JavaScript `!!s` for an optional string: present and not empty. */
  predicate Truthy(s: Option<string>) {
    s.Some? && s.value != ""
  }

  /** JavaScript `s || fallback` for an optional string. */
  function OrElse(s: Option<string>, fallback: string): (r: string)
    ensures Truthy(s) ==> r == s.value
    ensures !Truthy(s) ==> r == fallback
  {
    if Truthy(s) then s.value else fallback
  }

  /** JavaScript `!!x` for an optional number: present and not zero. */
  predicate TruthyReal(x: Option<real>) {
    x.Some? && x.value != 0.0
  }

  /** JavaScript `!!x` for an optional integer: present and not zero. */
  predicate TruthyInt(x: Option<int>) {
    x.Some? && x.value != 0
  }

  /** The elements of `s` that satisfy `p`, in their order: a query's
      matches, or `Array.prototype.filter`. */
  function Filter<T(!new)>(s: seq<T>, p: T -> bool): (r: seq<T>)
    ensures |r| <= |s|
    ensures forall x :: x in r <==> x in s && p(x)
  {
    if s == [] then []
    else
      var rest := Filter(s[1..], p);
      assert forall x :: x in s <==> x == s[0] || x in s[1..];
      if p(s[0]) then [s[0]] + rest else rest
  }

  /** `Array.prototype.findIndex`: the first position whose element
      satisfies `p`, or `None` (JavaScript's -1). */
  function FirstIndex<T>(s: seq<T>, p: T -> bool): (r: Option<nat>)
    ensures r.Some? ==> r.value < |s| && p(s[r.value]) && forall k :: 0 <= k < r.value ==> !p(s[k])
    ensures r.None? ==> forall k :: 0 <= k < |s| ==> !p(s[k])
  {
    if s == [] then None
    else if p(s[0]) then Some(0)
    else
      match FirstIndex(s[1..], p)
      case None => None
      case Some(k) => Some(k + 1)
  }

  /** A filter every element passes keeps the whole sequence. */
  lemma {:induction false} FilterAll<T(!new)>(s: seq<T>, p: T -> bool)
    requires forall x :: x in s ==> p(x)
    ensures Filter(s, p) == s
  {
    if s != [] {
      FilterAll(s[1..], p);
      assert [s[0]] + s[1..] == s;
    }
  }

  /** Filters that agree on every element select the same elements. */
  lemma {:induction false} FilterEquiv<T(!new)>(s: seq<T>, p: T -> bool, q: T -> bool)
    requires forall x :: x in s ==> p(x) == q(x)
    ensures Filter(s, p) == Filter(s, q)
  {
    if s != [] {
      assert forall x :: x in s[1..] ==> x in s;
      FilterEquiv(s[1..], p, q);
    }
  }

  /** Filtering twice by the same test is filtering once. */
  lemma {:induction false} FilterIdempotent<T(!new)>(s: seq<T>, p: T -> bool)
    ensures Filter(Filter(s, p), p) == Filter(s, p)
  {
    FilterAll(Filter(s, p), p);
  }

  /** Filtering keeps every copy of a passing element and no copy of any other. */
  lemma {:induction false} FilterMultiset<T(!new)>(s: seq<T>, p: T -> bool)
    ensures forall x :: multiset(Filter(s, p))[x] == if p(x) then multiset(s)[x] else 0
  {
    if s != [] {
      FilterMultiset(s[1..], p);
      assert s == [s[0]] + s[1..];
      assert multiset(s) == multiset{s[0]} + multiset(s[1..]);
    }
  }

  /** Filtering keeps the order: the result is a subsequence of `s`. */
  lemma {:induction false} FilterAppend<T(!new)>(s: seq<T>, t: seq<T>, p: T -> bool)
    ensures Filter(s + t, p) == Filter(s, p) + Filter(t, p)
  {
    if s != [] {
      FilterAppend(s[1..], t, p);
      assert (s + t)[1..] == s[1..] + t;
    } else {
      assert s + t == t;
    }
  }
}

module Text {

  /** The characters JavaScript's `trim()` removes and the regular-expression
      class `\s` matches: WhiteSpace and LineTerminator of ECMA-262. */
  predicate IsWhitespace(c: char) {
    || c == ' ' || c == '\t' || c == '\n' || c == '\r' || c == '\U{000B}' || c == '\U{000C}'
    || c == '\U{00A0}' || c == '\U{1680}' || ('\U{2000}' <= c <= '\U{200A}')
    || c == '\U{2028}' || c == '\U{2029}' || c == '\U{202F}' || c == '\U{205F}'
    || c == '\U{3000}' || c == '\U{FEFF}'
  }

  /** Every character of `s` is whitespace (this includes the empty string). */
  predicate IsBlank(s: string) {
    forall i :: 0 <= i < |s| ==> IsWhitespace(s[i])
  }

  function TrimStart(s: string): (r: string)
    ensures |r| <= |s| && r == s[|s| - |r|..]
    ensures forall i :: 0 <= i < |s| - |r| ==> IsWhitespace(s[i])
    ensures r == [] || !IsWhitespace(r[0])
  {
    if |s| > 0 && IsWhitespace(s[0]) then
      var r := TrimStart(s[1..]);
      assert s[1..][|s| - 1 - |r|..] == s[|s| - |r|..];
      r
    else s
  }

  function TrimEnd(s: string): (r: string)
    ensures |r| <= |s| && r == s[..|r|]
    ensures forall i :: |r| <= i < |s| ==> IsWhitespace(s[i])
    ensures r == [] || !IsWhitespace(r[|r| - 1])
  {
    if |s| > 0 && IsWhitespace(s[|s| - 1]) then
      var r := TrimEnd(s[..|s| - 1]);
      assert s[..|s| - 1][..|r|] == s[..|r|];
      r
    else s
  }

  /** `String.prototype.trim`: the slice of `s` left after dropping leading
      and trailing whitespace; `TrimSplit` and `TrimUnique` say that it is
      the only such slice. */
  function Trim(s: string): (r: string)
    ensures |r| <= |s|
    ensures r == [] || (!IsWhitespace(r[0]) && !IsWhitespace(r[|r| - 1]))
    ensures exists a :: OccursAt(s, r, a)
  {
    var t := TrimStart(s);
    var r := TrimEnd(t);
    assert OccursAt(s, r, |s| - |t|);
    r
  }

  lemma TrimOccurs(s: string)
    ensures OccursAt(s, TrimEnd(TrimStart(s)), |s| - |TrimStart(s)|)
  {
  }

  lemma TrimLeadBlank(s: string)
    ensures IsBlank(s[..|s| - |TrimStart(s)|])
  {
    BlankSlice(s, 0, |s| - |TrimStart(s)|);
  }

  lemma TrimTrailBlank(s: string)
    ensures IsBlank(s[|s| - |TrimStart(s)| + |TrimEnd(TrimStart(s))|..])
  {
    var t := TrimStart(s);
    var r := TrimEnd(t);
    BlankSlice(t, |r|, |t|);
    assert s[|s| - |t| + |r|..] == t[|r|..];
  }

  /** A run of whitespace characters is a blank slice. */
  lemma BlankSlice(s: string, lo: int, hi: int)
    requires 0 <= lo <= hi <= |s|
    requires forall i :: lo <= i < hi ==> IsWhitespace(s[i])
    ensures IsBlank(s[lo..hi])
  {
    var u := s[lo..hi];
    forall i | 0 <= i < |u| ensures IsWhitespace(u[i]) {
      assert u[i] == s[lo + i];
    }
  }

  /** `!s.trim()` holds exactly for the blank strings. */
  lemma TrimEmptyIffBlank(s: string)
    ensures Trim(s) == "" <==> IsBlank(s)
  {
    var t := TrimStart(s);
    var r := TrimEnd(t);
    assert Trim(s) == r;
    if !IsBlank(s) {
      var i :| 0 <= i < |s| && !IsWhitespace(s[i]);
      assert t[i - (|s| - |t|)] == s[i];
    }
  }

  /** Neither end of `s` is whitespace: what `trim()` leaves. */
  predicate Trimmed(s: string) {
    s == [] || (!IsWhitespace(s[0]) && !IsWhitespace(s[|s| - 1]))
  }

  /** `trim()` yields a trimmed string, and leaves a trimmed string as it is. */
  lemma TrimmedIffFixed(s: string)
    ensures Trimmed(Trim(s))
    ensures Trimmed(s) <==> Trim(s) == s
  {
    if Trimmed(s) {
      assert TrimStart(s) == s;
      assert TrimEnd(s) == s;
    }
  }

  lemma BlankConcat(a: string, b: string)
    requires IsBlank(a) && IsBlank(b)
    ensures IsBlank(a + b)
  {
    var s := a + b;
    forall i | 0 <= i < |s| ensures IsWhitespace(s[i]) {
      if i < |a| { assert s[i] == a[i]; } else { assert s[i] == b[i - |a|]; }
    }
  }

  /** Leading blanks before a string that does not start with whitespace are what `TrimStart` drops. */
  lemma {:induction false} TrimStartPadding(b: string, x: string)
    requires IsBlank(b) && (x == [] || !IsWhitespace(x[0]))
    ensures TrimStart(b + x) == x
  {
    if b == [] {
      assert b + x == x;
    } else {
      assert (b + x)[0] == b[0];
      assert (b + x)[1..] == b[1..] + x;
      TrimStartPadding(b[1..], x);
    }
  }

  /** Trailing blanks after a string that does not end with whitespace are what `TrimEnd` drops. */
  lemma {:induction false} TrimEndPadding(x: string, b: string)
    requires IsBlank(b) && (x == [] || !IsWhitespace(x[|x| - 1]))
    ensures TrimEnd(x + b) == x
  {
    if b == [] {
      assert x + b == x;
    } else {
      var s := x + b;
      assert s[|s| - 1] == b[|b| - 1];
      assert s[..|s| - 1] == x + b[..|b| - 1];
      TrimEndPadding(x, b[..|b| - 1]);
    }
  }

  /** A trimmed core between two blank paddings is what `trim()` returns,
      whatever the paddings. */
  lemma TrimUnique(b1: string, r: string, b2: string)
    requires IsBlank(b1) && IsBlank(b2) && Trimmed(r)
    ensures Trim(b1 + r + b2) == r
  {
    if r == [] {
      BlankConcat(b1, b2);
      assert b1 + r + b2 == b1 + b2;
      TrimEmptyIffBlank(b1 + b2);
    } else {
      assert b1 + r + b2 == b1 + (r + b2);
      assert (r + b2)[0] == r[0];
      TrimStartPadding(b1, r + b2);
      TrimEndPadding(r, b2);
    }
  }

  lemma SliceThree(x: string, a: int, b: int)
    requires 0 <= a <= b <= |x|
    ensures x == x[..a] + x[a..b] + x[b..]
  {
  }

  /** `x` is its trimmed core between the leading and the trailing whitespace. */
  lemma TrimSplit(x: string) returns (pre: string, suf: string)
    ensures x == pre + Trim(x) + suf
    ensures IsBlank(pre) && IsBlank(suf) && Trimmed(Trim(x))
  {
    var a := |x| - |TrimStart(x)|;
    var t := TrimEnd(TrimStart(x));
    TrimOccurs(x);
    TrimLeadBlank(x);
    TrimTrailBlank(x);
    pre, suf := x[..a], x[a + |t|..];
    SliceThree(x, a, a + |t|);
  }

  lemma Regroup(a: string, b: string, c: string, d: string, e: string)
    ensures a + (b + c + d) + e == (a + b) + c + (d + e)
  {
  }

  /** Blank padding on either side does not change what `trim()` returns. */
  lemma PaddedTrim(w1: string, x: string, w2: string)
    requires IsBlank(w1) && IsBlank(w2)
    ensures Trim(w1 + x + w2) == Trim(x)
  {
    var pre, suf := TrimSplit(x);
    BlankConcat(w1, pre);
    BlankConcat(suf, w2);
    Regroup(w1, pre, Trim(x), suf, w2);
    TrimUnique(w1 + pre, Trim(x), suf + w2);
  }

  /** Trimming an already trimmed string changes nothing (Mongoose's `trim`
      setter is therefore stable under re-saving). */
  lemma TrimIdempotent(s: string)
    ensures Trim(Trim(s)) == Trim(s)
  {
    var r := Trim(s);
    assert TrimStart(r) == r;
    assert TrimEnd(r) == r;
  }

  function LowerChar(c: char): char {
    if 'A' <= c <= 'Z' then (c as int + 32) as char else c
  }

  /** `String.prototype.toLowerCase`, restricted to the ASCII letters. */
  function ToLower(s: string): (r: string)
    ensures |r| == |s|
    ensures forall i :: 0 <= i < |s| ==> r[i] == LowerChar(s[i])
  {
    if s == [] then [] else [LowerChar(s[0])] + ToLower(s[1..])
  }

  lemma ToLowerIdempotent(s: string)
    ensures ToLower(ToLower(s)) == ToLower(s)
  {
  }

  predicate StartsWith(s: string, prefix: string) {
    |prefix| <= |s| && s[..|prefix|] == prefix
  }

  /** `t` occurs in `s` starting at index `i`. */
  predicate OccursAt(s: string, t: string, i: int) {
    0 <= i <= |s| - |t| && s[i..i + |t|] == t
  }

  /** `String.prototype.includes`: `t` occurs in `s` as a contiguous run. */
  predicate Contains(s: string, t: string) {
    exists i :: 0 <= i <= |s| - |t| && OccursAt(s, t, i)
  }

  lemma ContainsEmpty(s: string)
    ensures Contains(s, "")
  {
    assert OccursAt(s, "", 0);
  }

  /** `String.prototype.split(sep)` for a one-character separator: the runs
      between separators, the empty string giving `[""]`. */
  function Split(s: string, sep: char): (parts: seq<string>)
    ensures |parts| >= 1
    ensures forall i :: 0 <= i < |parts| ==> sep !in parts[i]
  {
    if s == [] then [""]
    else
      var rest := Split(s[1..], sep);
      if s[0] == sep then [""] + rest else [[s[0]] + rest[0]] + rest[1..]
  }

  /** `Array.prototype.join(sep)`; the empty array joins to the empty string. */
  function Join(parts: seq<string>, sep: string): string {
    if |parts| == 0 then ""
    else if |parts| == 1 then parts[0]
    else parts[0] + sep + Join(parts[1..], sep)
  }

  /** Split loses nothing: joining the parts with the separator gives `s` back. */
  lemma {:induction false} JoinSplit(s: string, sep: char)
    ensures Join(Split(s, sep), [sep]) == s
  {
    if s != [] {
      JoinSplit(s[1..], sep);
      var rest := Split(s[1..], sep);
      if s[0] == sep {
        assert Split(s, sep)[1..] == rest;
      } else {
        var parts := Split(s, sep);
        if |rest| == 1 {
          assert parts == [[s[0]] + rest[0]];
        } else {
          assert parts[1..] == rest[1..];
          assert Join(parts, [sep]) == [s[0]] + rest[0] + [sep] + Join(rest[1..], [sep]);
        }
      }
    }
  }

  /** The first part of a split is the text before the first separator. */
  lemma {:induction false} SplitHead(pre: string, sep: char, post: string)
    requires sep !in pre
    ensures Split(pre + [sep] + post, sep) == [pre] + Split(post, sep)
  {
    if pre == [] {
      assert pre + [sep] + post == [sep] + post;
      assert ([sep] + post)[1..] == post;
    } else {
      SplitHead(pre[1..], sep, post);
      assert (pre + [sep] + post)[1..] == pre[1..] + [sep] + post;
      assert [pre[0]] + pre[1..] == pre;
    }
  }

  /** A string without the separator splits into itself alone. */
  lemma {:induction false} SplitNoSep(s: string, sep: char)
    requires sep !in s
    ensures Split(s, sep) == [s]
  {
    if s != [] {
      SplitNoSep(s[1..], sep);
      assert [s[0]] + s[1..] == s;
    }
  }
}
