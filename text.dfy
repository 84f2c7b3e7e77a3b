/** Sequence helpers shared by the pages and the service: the `filter(x => x !== v)` idiom and subsequences. */
module Sequences {

  /** `a` can be obtained from `b` by deleting elements, keeping the order of the rest. */
  predicate IsSubsequence<T(==)>(a: seq<T>, b: seq<T>)
    decreases |b|
  {
    if a == [] then true
    else if b == [] then false
    else if a[0] == b[0] then IsSubsequence(a[1..], b[1..])
    else IsSubsequence(a, b[1..])
  }

  lemma {:induction false} SubsequenceRefl<T>(s: seq<T>)
    ensures IsSubsequence(s, s)
    decreases |s|
  {
    if s != [] {
      SubsequenceRefl(s[1..]);
    }
  }

  /** `s.filter(y => y !== x)`: every occurrence of `x` removed, the rest in order. */
  function Without(s: seq<string>, x: string): (r: seq<string>)
    ensures IsSubsequence(r, s)
    ensures forall y :: y in r <==> y in s && y != x
    ensures x !in s ==> r == s
    ensures multiset(r) == multiset(s)[x := 0]
    decreases |s|
  {
    if s == [] then []
    else if s[0] == x then
      var t := Without(s[1..], x);
      assert IsSubsequence(t, s) by { SkipHead(t, s); }
      assert s == [s[0]] + s[1..];
      t
    else
      var t := Without(s[1..], x);
      assert s == [s[0]] + s[1..];
      [s[0]] + t
  }

  lemma {:induction false} SkipHead<T>(a: seq<T>, b: seq<T>)
    requires b != [] && IsSubsequence(a, b[1..])
    ensures IsSubsequence(a, b)
    decreases |b|, 0
  {
    if a != [] && a[0] == b[0] {
      SubsequenceDropFirst(a, b[1..]);
    }
  }

  lemma {:induction false} SubsequenceDropFirst<T>(a: seq<T>, b: seq<T>)
    requires a != [] && IsSubsequence(a, b)
    ensures IsSubsequence(a[1..], b)
    decreases |b|, 1
  {
    assert b != [];
    if a[0] == b[0] {
      SkipHead(a[1..], b);
    } else {
      SubsequenceDropFirst(a, b[1..]);
      SkipHead(a[1..], b);
    }
  }

  /** Removing a value that was only just appended gives back the original sequence. */
  lemma {:induction false} WithoutAppended(s: seq<string>, x: string)
    requires x !in s
    ensures Without(s + [x], x) == s
    decreases |s|
  {
    if s != [] {
      assert (s + [x])[1..] == s[1..] + [x];
      WithoutAppended(s[1..], x);
    }
  }

  /** No element occurs twice. */
  predicate Distinct<T(==)>(s: seq<T>) {
    forall i, j :: 0 <= i < j < |s| ==> s[i] != s[j]
  }

  /** Removing every occurrence of a value keeps a sequence free of duplicates. */
  lemma {:induction false} WithoutKeepsDistinct(s: seq<string>, x: string)
    requires Distinct(s)
    ensures Distinct(Without(s, x))
    decreases |s|
  {
    if s != [] {
      assert Distinct(s[1..]) by {
        forall i, j | 0 <= i < j < |s[1..]| ensures s[1..][i] != s[1..][j] {
          assert s[1..][i] == s[i + 1] && s[1..][j] == s[j + 1];
        }
      }
      WithoutKeepsDistinct(s[1..], x);
      if s[0] != x {
        assert s[0] !in s[1..];
        assert s[0] !in Without(s[1..], x);
      }
    }
  }

  /** A subsequence holds only elements of the sequence it was taken from. */
  lemma {:induction false} SubsequenceElements<T>(a: seq<T>, b: seq<T>, x: T)
    requires IsSubsequence(a, b) && x in a
    ensures x in b
    decreases |b|
  {
    assert b != [];
    if a[0] == b[0] {
      if x != a[0] {
        assert x in a[1..];
        SubsequenceElements(a[1..], b[1..], x);
      }
    } else {
      SubsequenceElements(a, b[1..], x);
    }
  }
}

/** Character-level string helpers: JavaScript's `trim`, `toLowerCase`, `includes` and the default `sort` order. */
module Text {

  /**
   * The white space that `String.prototype.trim` removes: the ECMAScript WhiteSpace characters (tab,
   * vertical tab, form feed, the byte order mark and every Space_Separator, U+0020, U+00A0, U+1680,
   * U+2000 to U+200A, U+202F, U+205F, U+3000) and the LineTerminator characters (LF, CR, U+2028, U+2029).
   */
  predicate IsSpace(c: char) {
    || c == '\t' || c == '\U{000B}' || c == '\U{000C}' || c == '\U{FEFF}'
    || c == ' ' || c == '\U{00A0}' || c == '\U{1680}' || '\U{2000}' <= c <= '\U{200A}'
    || c == '\U{202F}' || c == '\U{205F}' || c == '\U{3000}'
    || c == '\n' || c == '\r' || c == '\U{2028}' || c == '\U{2029}'
  }

  predicate Blank(s: string) {
    forall i :: 0 <= i < |s| ==> IsSpace(s[i])
  }

  /** Where the leading white space of `s[k..]` ends: the first non-space at or after `k`, or `|s|`. */
  function SkipSpaces(s: string, k: nat): (n: nat)
    requires k <= |s|
    ensures k <= n <= |s|
    ensures forall i :: k <= i < n ==> IsSpace(s[i])
    ensures n < |s| ==> !IsSpace(s[n])
    decreases |s| - k
  {
    if k < |s| && IsSpace(s[k]) then SkipSpaces(s, k + 1) else k
  }

  /** Where `s[lo..hi]` ends once its trailing white space is cut: just after its last non-space, or `lo`. */
  function BackOverSpaces(s: string, lo: nat, hi: nat): (n: nat)
    requires lo <= hi <= |s|
    ensures lo <= n <= hi
    ensures forall i :: n <= i < hi ==> IsSpace(s[i])
    ensures lo < n ==> !IsSpace(s[n - 1])
    decreases hi
  {
    if lo < hi && IsSpace(s[hi - 1]) then BackOverSpaces(s, lo, hi - 1) else hi
  }

  /**
   * `s.trim()`: `s` with its leading and its trailing white space cut off. The result is the part of `s`
   * that starts at its first non-space, and everything of `s` before and after that part is white space;
   * it is empty exactly when `s` is blank, and otherwise starts and ends with a non-space.
   */
  function Trim(s: string): (r: string)
    ensures var a := SkipSpaces(s, 0);
      && a + |r| <= |s| && r == s[a..a + |r|]
      && (forall i :: 0 <= i < a ==> IsSpace(s[i]))
      && (forall i :: a + |r| <= i < |s| ==> IsSpace(s[i]))
    ensures r == [] <==> Blank(s)
    ensures r != [] ==> !IsSpace(r[0]) && !IsSpace(r[|r| - 1])
  {
    var a := SkipSpaces(s, 0);
    var e := BackOverSpaces(s, a, |s|);
    s[a..e]
  }

  /** The Unicode space separators are trimmed like the ASCII space. */
  lemma TrimSpaceSeparators()
    ensures Trim("\U{3000}") == ""
    ensures Trim("\U{2003}a\U{00A0}") == "a"
  {
    var s := "\U{2003}a\U{00A0}";
    assert SkipSpaces(s, 0) == 1 by {
      assert SkipSpaces(s, 1) == 1;
    }
    assert BackOverSpaces(s, 1, 3) == 2 by {
      assert BackOverSpaces(s, 1, 2) == 2;
    }
  }

  /** ASCII part of `toLowerCase`. */
  function LowerChar(c: char): char {
    if 'A' <= c <= 'Z' then (c as int + 32) as char else c
  }

  function Lower(s: string): string {
    seq(|s|, i requires 0 <= i < |s| => LowerChar(s[i]))
  }

  /** `haystack.includes(needle)`. */
  predicate Contains(haystack: string, needle: string) {
    exists k :: 0 <= k <= |haystack| - |needle| && OccursAt(haystack, needle, k)
  }

  predicate OccursAt(haystack: string, needle: string, k: int) {
    0 <= k <= |haystack| - |needle| && haystack[k..k + |needle|] == needle
  }

  /** Strict lexicographic order on strings, the order in which `Array.prototype.sort` places them. */
  predicate Below(a: string, b: string)
    decreases |a|
  {
    if a == [] then b != []
    else if b == [] then false
    else if a[0] != b[0] then a[0] < b[0]
    else Below(a[1..], b[1..])
  }

  lemma {:induction false} BelowIrreflexive(a: string)
    ensures !Below(a, a)
    decreases |a|
  {
    if a != [] {
      BelowIrreflexive(a[1..]);
    }
  }

  lemma {:induction false} BelowTransitive(a: string, b: string, c: string)
    requires Below(a, b) && Below(b, c)
    ensures Below(a, c)
    decreases |a|
  {
    if a != [] && b != [] && c != [] && a[0] == b[0] && b[0] == c[0] {
      BelowTransitive(a[1..], b[1..], c[1..]);
    }
  }

  lemma {:induction false} BelowTotal(a: string, b: string)
    requires a != b
    ensures Below(a, b) || Below(b, a)
    decreases |a|
  {
    if a != [] && b != [] && a[0] == b[0] {
      assert a == [a[0]] + a[1..] && b == [b[0]] + b[1..];
      BelowTotal(a[1..], b[1..]);
    }
  }

  /** Sorted in increasing order with no element twice: what `Array.from(new Set(...)).sort()` yields. */
  predicate StrictlySorted(s: seq<string>) {
    forall i, j :: 0 <= i < j < |s| ==> Below(s[i], s[j])
  }

  /** A strictly sorted listing holds each of its values once, as the listing of a `Set` does. */
  lemma StrictlySortedIsDistinct(s: seq<string>)
    requires StrictlySorted(s)
    ensures forall i, j :: 0 <= i < |s| && 0 <= j < |s| && i != j ==> s[i] != s[j]
  {
    forall i, j | 0 <= i < |s| && 0 <= j < |s| && i != j ensures s[i] != s[j] {
      if i < j {
        BelowIrreflexive(s[i]);
      } else {
        BelowIrreflexive(s[j]);
      }
    }
  }

  /** `set.add(x)` on a set kept as its sorted listing. */
  function Insert(s: seq<string>, x: string): (r: seq<string>)
    requires StrictlySorted(s)
    ensures StrictlySorted(r)
    ensures forall y :: y in r <==> y in s || y == x
    decreases |s|
  {
    if s == [] then [x]
    else if x == s[0] then s
    else if Below(x, s[0]) then
      assert StrictlySorted([x] + s) by {
        forall j | 1 <= j < |s| ensures Below(x, s[j]) {
          BelowTransitive(x, s[0], s[j]);
        }
      }
      [x] + s
    else
      BelowTotal(x, s[0]);
      var t := Insert(s[1..], x);
      assert forall y :: y in t ==> Below(s[0], y) by {
        forall y | y in t ensures Below(s[0], y) {
          if y != x {
            var j :| 0 <= j < |s[1..]| && s[1..][j] == y;
            assert s[j + 1] == y;
          }
        }
      }
      assert s == [s[0]] + s[1..];
      [s[0]] + t
  }
}
