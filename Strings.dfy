/**
 * The parts of Go's `strings` package the core relies on: `strings.Split` with a
 * one-character separator, the `Join` that undoes it, and `strings.TrimSpace`
 * with Go's `unicode.IsSpace` as the notion of white space.
 */
module Strings {

  /** Number of occurrences of `c` in `s` (`strings.Count` for a one-character separator). */
  function Count(s: string, c: char): (n: nat)
    ensures n <= |s|
    ensures n == 0 <==> c !in s
  {
    if s == [] then 0
    else (if s[0] == c then 1 else 0) + Count(s[1..], c)
  }

  lemma {:induction false} CountAppend(a: string, b: string, c: char)
    ensures Count(a + b, c) == Count(a, c) + Count(b, c)
    decreases |a|
  {
    if a == [] {
      assert a + b == b;
    } else {
      assert (a + b)[1..] == a[1..] + b;
      CountAppend(a[1..], b, c);
    }
  }

  /** Position of the first `c` in `s`. */
  function IndexOf(s: string, c: char): (i: nat)
    requires c in s
    ensures i < |s| && s[i] == c && c !in s[..i]
  {
    if s[0] == c then 0
    else
      assert c in s[1..] by { assert s == [s[0]] + s[1..]; }
      var j := IndexOf(s[1..], c);
      assert s[..j + 1] == [s[0]] + s[1..][..j];
      j + 1
  }

  /**
   * `strings.Split(s, sep)` for a separator of one character: the pieces between
   * the occurrences of `sep`, so `Split("", c) == [""]`.
   */
  function Split(s: string, sep: char): (parts: seq<string>)
    ensures |parts| >= 1
    ensures forall k :: 0 <= k < |parts| ==> sep !in parts[k]
    decreases |s|
  {
    if sep !in s then [s]
    else
      var i := IndexOf(s, sep);
      [s[..i]] + Split(s[i + 1..], sep)
  }

  /** `strings.Join(parts, sep)`: the pieces with `sep` between neighbours. */
  function Join(parts: seq<string>, sep: char): (s: string)
    requires |parts| >= 1
  {
    if |parts| == 1 then parts[0] else parts[0] + [sep] + Join(parts[1..], sep)
  }

  /** Splitting at the first separator: everything before it is the first part. */
  lemma SplitAtFirst(a: string, b: string, sep: char)
    requires sep !in a
    ensures Split(a + [sep] + b, sep) == [a] + Split(b, sep)
  {
    var s := a + [sep] + b;
    assert s[|a|] == sep;
    var i := IndexOf(s, sep);
    assert forall k :: 0 <= k < i ==> s[k] != sep by {
      forall k | 0 <= k < i ensures s[k] != sep { assert s[..i][k] == s[k]; }
    }
    assert forall k :: 0 <= k < |a| ==> s[k] != sep by {
      forall k | 0 <= k < |a| ensures s[k] != sep { assert s[k] == a[k]; }
    }
    assert s[..i] == a;
    assert s[i + 1..] == b;
  }

  /** There is one more part than there are separators. */
  lemma {:induction false} SplitLength(s: string, sep: char)
    ensures |Split(s, sep)| == Count(s, sep) + 1
    decreases |s|
  {
    if sep in s {
      var i := IndexOf(s, sep);
      assert s == s[..i] + [sep] + s[i + 1..];
      CountAppend(s[..i] + [sep], s[i + 1..], sep);
      CountAppend(s[..i], [sep], sep);
      SplitLength(s[i + 1..], sep);
    }
  }

  /** Joining the parts of a split gives back the string. */
  lemma {:induction false} JoinSplit(s: string, sep: char)
    ensures Join(Split(s, sep), sep) == s
    decreases |s|
  {
    if sep in s {
      var i := IndexOf(s, sep);
      var rest := Split(s[i + 1..], sep);
      JoinSplit(s[i + 1..], sep);
      assert Split(s, sep) == [s[..i]] + rest;
      assert ([s[..i]] + rest)[1..] == rest;
      assert s == s[..i] + [sep] + s[i + 1..];
    }
  }

  /** Splitting a join of separator-free parts gives back the parts. */
  lemma {:induction false} SplitJoin(parts: seq<string>, sep: char)
    requires |parts| >= 1
    requires forall k :: 0 <= k < |parts| ==> sep !in parts[k]
    ensures Split(Join(parts, sep), sep) == parts
  {
    if |parts| > 1 {
      var rest := parts[1..];
      assert forall k :: 0 <= k < |rest| ==> sep !in rest[k] by {
        forall k | 0 <= k < |rest| ensures sep !in rest[k] {
          assert rest[k] == parts[k + 1];
        }
      }
      SplitJoin(rest, sep);
      assert Join(parts, sep) == parts[0] + [sep] + Join(rest, sep);
      SplitAtFirst(parts[0], Join(rest, sep), sep);
      assert parts == [parts[0]] + rest;
    }
  }

  /** Go's `unicode.IsSpace`: the Latin-1 spaces and the other White_Space characters. */
  predicate IsSpace(ch: char)
  {
    || ch == '\t' || ch == '\n' || ch == '\U{000B}' || ch == '\U{000C}' || ch == '\r' || ch == ' '
    || ch == '\U{0085}' || ch == '\U{00A0}' || ch == '\U{1680}'
    || ('\U{2000}' <= ch <= '\U{200A}')
    || ch == '\U{2028}' || ch == '\U{2029}' || ch == '\U{202F}' || ch == '\U{205F}' || ch == '\U{3000}'
  }

  predicate AllSpace(s: string)
  {
    forall k :: 0 <= k < |s| ==> IsSpace(s[k])
  }

  /** A string that `TrimSpace` leaves as it is: no white space at either end. */
  predicate Trimmed(s: string)
  {
    s == [] || (!IsSpace(s[0]) && !IsSpace(s[|s| - 1]))
  }

  /** Length of the leading run of white space. */
  function LeadingSpace(s: string): (n: nat)
    ensures n <= |s| && AllSpace(s[..n])
    ensures n < |s| ==> !IsSpace(s[n])
  {
    if s == [] || !IsSpace(s[0]) then 0
    else
      var m := LeadingSpace(s[1..]);
      assert s[..m + 1] == [s[0]] + s[1..][..m];
      m + 1
  }

  /** Length of the trailing run of white space. */
  function TrailingSpace(s: string): (n: nat)
    ensures n <= |s| && AllSpace(s[|s| - n..])
    ensures n < |s| ==> !IsSpace(s[|s| - n - 1])
  {
    if s == [] || !IsSpace(s[|s| - 1]) then 0
    else
      var m := TrailingSpace(s[..|s| - 1]);
      AllSpaceExtend(s, m);
      m + 1
  }

  /** A white-space suffix of `s` minus its last character, extended by that white-space character. */
  lemma AllSpaceExtend(s: string, m: nat)
    requires s != [] && IsSpace(s[|s| - 1]) && m < |s|
    requires AllSpace(s[..|s| - 1][|s| - 1 - m..])
    ensures AllSpace(s[|s| - (m + 1)..])
  {
    var t := s[|s| - (m + 1)..];
    forall k | 0 <= k < |t| ensures IsSpace(t[k]) {
      if k < m {
        assert t[k] == s[..|s| - 1][|s| - 1 - m..][k];
      }
    }
  }

  /** `strings.TrimSpace`: drop the leading, then the trailing, white space. */
  function TrimSpace(s: string): (r: string)
    ensures |r| <= |s|
    ensures Trimmed(r)
  {
    var t := s[LeadingSpace(s)..];
    assert LeadingSpace(s) < |s| ==> t[0] == s[LeadingSpace(s)];
    t[..|t| - TrailingSpace(t)]
  }

  /** A leading run of white space is exactly what LeadingSpace measures. */
  lemma LeadingSpaceOfPadded(l: string, s: string)
    requires AllSpace(l) && (s == [] || !IsSpace(s[0]))
    ensures LeadingSpace(l + s) == |l|
    decreases |l|
  {
    if l != [] {
      assert (l + s)[1..] == l[1..] + s;
      LeadingSpaceOfPadded(l[1..], s);
    } else {
      assert l + s == s;
    }
  }

  lemma TrailingSpaceOfPadded(s: string, r: string)
    requires AllSpace(r) && s != [] && !IsSpace(s[|s| - 1])
    ensures TrailingSpace(s + r) == |r|
    decreases |r|
  {
    if r != [] {
      assert (s + r)[..|s + r| - 1] == s + r[..|r| - 1];
      TrailingSpaceOfPadded(s, r[..|r| - 1]);
    } else {
      assert s + r == s;
    }
  }

  /** Trimming removes exactly the white space around a trimmed core. */
  lemma {:induction false} TrimSpacePadded(l: string, s: string, r: string)
    requires AllSpace(l) && Trimmed(s) && AllSpace(r)
    ensures s != [] ==> TrimSpace(l + s + r) == s
    ensures s == [] ==> TrimSpace(l + s + r) == []
  {
    var x := l + s + r;
    if s != [] {
      assert x == l + (s + r);
      LeadingSpaceOfPadded(l, s + r);
      var t := x[|l|..];
      assert t == s + r;
      TrailingSpaceOfPadded(s, r);
      assert TrimSpace(x) == t[..|t| - |r|];
      assert t[..|t| - |r|] == s;
    } else {
      assert x == l + r;
      AllSpaceAppend(l, r);
      AllSpaceTrims(x);
    }
  }

  lemma AllSpaceAppend(a: string, b: string)
    requires AllSpace(a) && AllSpace(b)
    ensures AllSpace(a + b)
  {
    forall k | 0 <= k < |a + b| ensures IsSpace((a + b)[k]) {
      if k >= |a| { assert (a + b)[k] == b[k - |a|]; }
    }
  }

  lemma AllSpaceTrims(x: string)
    requires AllSpace(x)
    ensures TrimSpace(x) == []
  {
  }

  /** A string with no white space at its ends is left as it is. */
  lemma {:induction false} TrimSpaceOfTrimmed(s: string)
    requires Trimmed(s)
    ensures TrimSpace(s) == s
  {
    TrimSpacePadded([], s, []);
    assert [] + s + [] == s;
  }

  /** Trimming twice is trimming once. */
  lemma TrimSpaceIdempotent(s: string)
    ensures TrimSpace(TrimSpace(s)) == TrimSpace(s)
  {
    TrimSpaceOfTrimmed(TrimSpace(s));
  }
}
