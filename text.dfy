/**
 * The string operations of Python that the validators and the SDK use:
 * `str.strip()`, `str.lower()`, `str.lstrip(c)` and `str.replace(a, b)` for one character.
 */
module Text {

  /** `str.isspace()` for one character: the characters Python's `str.strip()` removes by default. */
  predicate IsSpace(c: char) {
    || ('\t' <= c <= '\r')                    // U+0009 .. U+000D
    || ('\U{001C}' <= c <= '\U{001F}')
    || c == ' ' || c == '\U{0085}' || c == '\U{00A0}' || c == '\U{1680}'
    || ('\U{2000}' <= c <= '\U{200A}')
    || c == '\U{2028}' || c == '\U{2029}' || c == '\U{202F}' || c == '\U{205F}' || c == '\U{3000}'
  }

  /** A string that `str.strip()` empties: Python's `not s.strip()`. */
  predicate IsBlank(s: string) {
    forall i :: 0 <= i < |s| ==> IsSpace(s[i])
  }

  /** The first index from `i` on that does not hold whitespace, or `|s|` if there is none. */
  function SkipSpace(s: string, i: nat): (k: nat)
    requires i <= |s|
    ensures i <= k <= |s|
    ensures k < |s| ==> !IsSpace(s[k])
    decreases |s| - i
  {
    if i < |s| && IsSpace(s[i]) then SkipSpace(s, i + 1) else i
  }

  /** The end of `s[lo..j]` once its trailing whitespace is dropped. */
  function SkipSpaceBack(s: string, lo: nat, j: nat): (k: nat)
    requires lo <= j <= |s|
    ensures lo <= k <= j
    ensures k > lo ==> !IsSpace(s[k - 1])
    decreases j
  {
    if j > lo && IsSpace(s[j - 1]) then SkipSpaceBack(s, lo, j - 1) else j
  }

  lemma {:induction false} SkipSpaceDropsOnlySpace(s: string, i: nat)
    requires i <= |s|
    ensures forall m :: i <= m < SkipSpace(s, i) ==> IsSpace(s[m])
    decreases |s| - i
  {
    if i < |s| && IsSpace(s[i]) {
      SkipSpaceDropsOnlySpace(s, i + 1);
    }
  }

  lemma {:induction false} SkipSpaceBackDropsOnlySpace(s: string, lo: nat, j: nat)
    requires lo <= j <= |s|
    ensures forall m :: SkipSpaceBack(s, lo, j) <= m < j ==> IsSpace(s[m])
    decreases j
  {
    if j > lo && IsSpace(s[j - 1]) {
      SkipSpaceBackDropsOnlySpace(s, lo, j - 1);
    }
  }

  /** Where the stripped string starts in `s`: the number of leading characters `str.strip()` drops. */
  function StripStart(s: string): (k: nat)
    ensures k <= |s|
  {
    SkipSpace(s, 0)
  }

  /** Where the stripped string ends in `s`. */
  function StripEnd(s: string): (k: nat)
    ensures StripStart(s) <= k <= |s|
  {
    SkipSpaceBack(s, StripStart(s), |s|)
  }

  /**
   * `str.strip()`: the infix of `s` left when leading and trailing whitespace is dropped;
   * it neither starts nor ends with whitespace, and it is empty exactly when `s` is blank.
   */
  function Strip(s: string): (r: string)
    ensures r == s[StripStart(s)..StripEnd(s)]
    ensures r != [] ==> !IsSpace(r[0]) && !IsSpace(r[|r| - 1])
  {
    s[StripStart(s)..StripEnd(s)]
  }

  /** What `Strip` drops is whitespace, on both sides; so it drops everything exactly when `s` is blank. */
  lemma StripDropsOnlySpace(s: string)
    ensures forall i :: 0 <= i < StripStart(s) ==> IsSpace(s[i])
    ensures forall i :: StripEnd(s) <= i < |s| ==> IsSpace(s[i])
    ensures Strip(s) == [] <==> IsBlank(s)
  {
    SkipSpaceDropsOnlySpace(s, 0);
    SkipSpaceBackDropsOnlySpace(s, StripStart(s), |s|);
    if !IsBlank(s) {
      var i :| 0 <= i < |s| && !IsSpace(s[i]);
      assert StripStart(s) <= i < StripEnd(s);
      assert Strip(s)[i - StripStart(s)] == s[i];
    }
  }

  /** Stripping is idempotent. */
  lemma StripIdempotent(s: string)
    ensures Strip(Strip(s)) == Strip(s)
  {
    var r := Strip(s);
    if r != [] {
      StripFixed(r);
    }
  }

  /** A string that neither starts nor ends with whitespace is its own strip. */
  lemma StripFixed(s: string)
    requires s != [] && !IsSpace(s[0]) && !IsSpace(s[|s| - 1])
    ensures Strip(s) == s
  {
    assert StripStart(s) == 0;
    assert StripEnd(s) == |s|;
  }

  /** `str.lower()` on one character: ASCII upper-case letters only. */
  function LowerChar(c: char): char {
    if 'A' <= c <= 'Z' then (c as int - 'A' as int + 'a' as int) as char else c
  }

  /** `str.lower()`, character by character. */
  function Lower(s: string): (r: string)
    ensures |r| == |s|
    ensures forall i :: 0 <= i < |s| ==> r[i] == LowerChar(s[i])
    ensures forall i :: 0 <= i < |r| ==> !('A' <= r[i] <= 'Z')
  {
    seq(|s|, i requires 0 <= i < |s| => LowerChar(s[i]))
  }

  /** Lower-casing twice is lower-casing once. */
  lemma LowerIdempotent(s: string)
    ensures Lower(Lower(s)) == Lower(s)
  {
  }

  /** Lower-casing keeps every character that is not an upper-case letter, `@` among them. */
  lemma LowerKeepsAt(s: string)
    ensures '@' in s <==> '@' in Lower(s)
  {
    if '@' in s {
      var i :| 0 <= i < |s| && s[i] == '@';
      assert Lower(s)[i] == '@';
    }
    if '@' in Lower(s) {
      var i :| 0 <= i < |s| && Lower(s)[i] == '@';
      assert s[i] == '@';
    }
  }

  /** Lower-casing and stripping commute: no upper-case letter is whitespace and no whitespace changes case. */
  lemma LowerStripCommute(s: string)
    ensures Lower(Strip(s)) == Strip(Lower(s))
  {
    var a, b := StripStart(s), StripEnd(s);
    LowerSkipSpace(s, 0);
    LowerSkipSpaceBack(s, a, |s|);
    LowerSlice(s, a, b);
  }

  lemma LowerSlice(s: string, a: nat, b: nat)
    requires a <= b <= |s|
    ensures Lower(s[a..b]) == Lower(s)[a..b]
  {
    assert forall k :: 0 <= k < b - a ==> Lower(s[a..b])[k] == Lower(s)[a + k];
  }

  lemma LowerCharSpace(c: char)
    ensures IsSpace(LowerChar(c)) == IsSpace(c)
  {
  }

  lemma {:induction false} LowerSkipSpace(s: string, i: nat)
    requires i <= |s|
    ensures SkipSpace(Lower(s), i) == SkipSpace(s, i)
    decreases |s| - i
  {
    if i < |s| {
      LowerCharSpace(s[i]);
      LowerSkipSpace(s, i + 1);
    }
  }

  lemma {:induction false} LowerSkipSpaceBack(s: string, lo: nat, j: nat)
    requires lo <= j <= |s|
    ensures SkipSpaceBack(Lower(s), lo, j) == SkipSpaceBack(s, lo, j)
    decreases j
  {
    if j > lo {
      assert Lower(s)[j - 1] == LowerChar(s[j - 1]);
      LowerCharSpace(s[j - 1]);
      LowerSkipSpaceBack(s, lo, j - 1);
    }
  }

  /** `s.lstrip(c)`: drop every leading `c`. */
  function LStripChar(s: string, c: char): (r: string)
    ensures |r| <= |s| && r == s[|s| - |r|..]
    ensures r == [] || r[0] != c
  {
    if s != [] && s[0] == c then LStripChar(s[1..], c) else s
  }

  /** What `LStripChar` drops is copies of `c` and nothing else. */
  lemma {:induction false} LStripCharDropsOnly(s: string, c: char)
    ensures forall i :: 0 <= i < |s| - |LStripChar(s, c)| ==> s[i] == c
  {
    if s != [] && s[0] == c {
      LStripCharDropsOnly(s[1..], c);
      forall i | 1 <= i < |s| - |LStripChar(s, c)|
        ensures s[i] == c
      {
        assert s[i] == s[1..][i - 1];
      }
    }
  }

  /** `s.replace(a, b)` where `a` is a single character and `b` a string. */
  function ReplaceChar(s: string, a: char, b: string): (r: string)
    ensures a !in s ==> r == s
    ensures a !in b ==> a !in r
  {
    if s == [] then []
    else (if s[0] == a then b else [s[0]]) + ReplaceChar(s[1..], a, b)
  }

  /** Every `a` becomes `b` and every other character stays: the length grows by `|b| - 1` per `a`. */
  lemma {:induction false} ReplaceCharLength(s: string, a: char, b: string)
    ensures |ReplaceChar(s, a, b)| == |s| + (|b| - 1) * multiset(s)[a]
  {
    if s != [] {
      var rest := s[1..];
      ReplaceCharLength(rest, a, b);
      var n, k := multiset(rest)[a], |b| - 1;
      assert |ReplaceChar(rest, a, b)| == |rest| + k * n;
      assert s == [s[0]] + rest;
      assert multiset(s) == multiset{s[0]} + multiset(rest);
      if s[0] == a {
        assert multiset(s)[a] == n + 1;
        assert |ReplaceChar(s, a, b)| == |b| + |rest| + k * n;
        MulSucc(k, n);
      } else {
        assert multiset(s)[a] == n;
        assert |ReplaceChar(s, a, b)| == 1 + |rest| + k * n;
      }
    }
  }

  lemma MulSucc(k: int, n: int)
    ensures k * (n + 1) == k * n + k
  {
  }

  /** Replacing distributes over concatenation, so it is fixed by what it does to one character. */
  lemma {:induction false} ReplaceCharConcat(s: string, t: string, a: char, b: string)
    ensures ReplaceChar(s + t, a, b) == ReplaceChar(s, a, b) + ReplaceChar(t, a, b)
    ensures ReplaceChar([a], a, b) == b
    ensures forall c :: c != a ==> ReplaceChar([c], a, b) == [c]
  {
    if s != [] {
      assert (s + t)[1..] == s[1..] + t;
      ReplaceCharConcat(s[1..], t, a, b);
    } else {
      assert s + t == t;
    }
    assert [a][1..] == [];
    forall c | c != a ensures ReplaceChar([c], a, b) == [c] {
      assert [c][1..] == [];
    }
  }
}
