/**
 * The two Python `str` operations the sensor's constructor relies on:
 * `split()` without arguments and `upper()`.
 */
module PyStr {
  import opened Wrappers

  /** The characters Python's `str.isspace` accepts, which `split()` separates on. */
  predicate IsSpace(c: char) {
    var n := c as int;
    n == 0x20 || 0x09 <= n <= 0x0D || 0x1C <= n <= 0x1F || n == 0x85 || n == 0xA0
    || n == 0x1680 || 0x2000 <= n <= 0x200A || n == 0x2028 || n == 0x2029
    || n == 0x202F || n == 0x205F || n == 0x3000
  }

  predicate NoSpace(s: string) {
    forall i :: 0 <= i < |s| ==> !IsSpace(s[i])
  }

  predicate AllSpace(s: string) {
    forall i :: 0 <= i < |s| ==> IsSpace(s[i])
  }

  /** Length of the run of non-space characters at the start of `s`. */
  function WordLen(s: string): (k: nat)
    ensures k <= |s|
    ensures NoSpace(s[..k])
    ensures k < |s| ==> IsSpace(s[k])
    ensures s != [] && !IsSpace(s[0]) ==> k > 0
  {
    if s == [] || IsSpace(s[0]) then 0
    else
      var k := 1 + WordLen(s[1..]);
      assert s[..k] == [s[0]] + s[1..][..k - 1];
      k
  }

  /** `s.split()`: the maximal runs of non-space characters of `s`, in order. */
  function Split(s: string): (ts: seq<string>)
    ensures forall k :: 0 <= k < |ts| ==> ts[k] != [] && NoSpace(ts[k])
    decreases |s|
  {
    if s == [] then []
    else if IsSpace(s[0]) then Split(s[1..])
    else
      var k := WordLen(s);
      [s[..k]] + Split(s[k..])
  }

  /** `s.split()[-1]`; `None` where Python raises `IndexError` because there is no token. */
  function LastToken(s: string): (r: Option<string>)
    ensures r.Some? ==> r.value != [] && NoSpace(r.value)
  {
    var ts := Split(s);
    if |ts| == 0 then None else Some(ts[|ts| - 1])
  }

  /**
   * `t` occupies `s[i..j]`, contains no space, starts `s` or follows a space, and
   * nothing but spaces comes after it.
   */
  predicate LastTokenAt(s: string, t: string, i: int, j: int) {
    0 <= i < j <= |s| && s[i..j] == t && NoSpace(t)
    && (i == 0 || IsSpace(s[i - 1])) && AllSpace(s[j..])
  }

  /** `t` is the last whitespace-delimited word of `s`. */
  ghost predicate EndsWithToken(s: string, t: string) {
    exists i, j :: LastTokenAt(s, t, i, j)
  }

  lemma {:induction false} SplitAllSpace(s: string)
    requires AllSpace(s)
    ensures Split(s) == []
    decreases |s|
  {
    if s != [] {
      assert IsSpace(s[0]);
      SplitAllSpace(s[1..]);
    }
  }

  /** A word followed only by spaces splits into that one word. */
  lemma SplitWord(t: string, w: string)
    requires t != [] && NoSpace(t) && AllSpace(w)
    ensures Split(t + w) == [t]
  {
    var s := t + w;
    WordLenOfWord(t, w);
    assert s[..|t|] == t;
    assert s[|t|..] == w;
    SplitAllSpace(w);
  }

  lemma {:induction false} WordLenOfWord(t: string, w: string)
    requires NoSpace(t) && (w == [] || IsSpace(w[0]))
    ensures WordLen(t + w) == |t|
    decreases |t|
  {
    if t != [] {
      assert (t + w)[1..] == t[1..] + w;
      WordLenOfWord(t[1..], w);
    } else {
      assert t + w == w;
    }
  }

  /** Splitting distributes over a concatenation whose left part ends at a separator. */
  lemma {:induction false} SplitConcat(a: string, b: string)
    requires a == [] || IsSpace(a[|a| - 1])
    ensures Split(a + b) == Split(a) + Split(b)
    decreases |a|
  {
    if a == [] {
      assert a + b == b;
    } else if IsSpace(a[0]) {
      assert (a + b)[1..] == a[1..] + b;
      SplitConcat(a[1..], b);
    } else {
      var k := WordLen(a);
      assert k < |a|;
      WordLenPrefix(a, b);
      assert (a + b)[..k] == a[..k];
      assert (a + b)[k..] == a[k..] + b;
      SplitConcat(a[k..], b);
    }
  }

  lemma {:induction false} WordLenPrefix(a: string, b: string)
    requires a != [] && IsSpace(a[|a| - 1])
    ensures WordLen(a + b) == WordLen(a)
    decreases |a|
  {
    if !IsSpace(a[0]) {
      assert |a| > 1;
      assert (a + b)[1..] == a[1..] + b;
      WordLenPrefix(a[1..], b);
    }
  }

  /** Any position of the last word gives `LastToken` that word. */
  lemma LastTokenFromPosition(s: string, t: string, i: int, j: int)
    requires LastTokenAt(s, t, i, j)
    ensures LastToken(s) == Some(t)
  {
    var p, w := s[..i], s[j..];
    assert s == p + (t + w);
    SplitConcat(p, t + w);
    SplitWord(t, w);
  }

  /** Length of the run of spaces at the end of `s`. */
  function TrailingSpaceLen(s: string): (k: nat)
    ensures k <= |s| && AllSpace(s[|s| - k..])
    ensures k < |s| ==> !IsSpace(s[|s| - k - 1])
  {
    if s == [] || !IsSpace(s[|s| - 1]) then 0
    else
      var init := s[..|s| - 1];
      var k := 1 + TrailingSpaceLen(init);
      assert s[|s| - k..] == init[|init| - (k - 1)..] + [s[|s| - 1]];
      k
  }

  /** Length of the run of non-space characters at the end of `s`. */
  function TrailingWordLen(s: string): (k: nat)
    ensures k <= |s| && NoSpace(s[|s| - k..])
    ensures k < |s| ==> IsSpace(s[|s| - k - 1])
  {
    if s == [] || IsSpace(s[|s| - 1]) then 0
    else
      var init := s[..|s| - 1];
      var k := 1 + TrailingWordLen(init);
      assert s[|s| - k..] == init[|init| - (k - 1)..] + [s[|s| - 1]];
      k
  }

  /** A string with a non-space character has a last word, found from the end. */
  lemma FindLastToken(s: string) returns (i: int, j: int)
    requires !AllSpace(s)
    ensures 0 <= i < j <= |s| && LastTokenAt(s, s[i..j], i, j)
  {
    j := |s| - TrailingSpaceLen(s);
    var head := s[..j];
    i := j - TrailingWordLen(head);
    assert !IsSpace(head[j - 1]);
    assert head[i..] == s[i..j];
    assert i > 0 ==> s[i - 1] == head[i - 1];
  }

  /** `split()[-1]` fails exactly on a string made of spaces only (the empty string included). */
  lemma LastTokenNone(s: string)
    ensures LastToken(s).None? <==> AllSpace(s)
  {
    if AllSpace(s) {
      SplitAllSpace(s);
    } else {
      var i, j := FindLastToken(s);
      LastTokenFromPosition(s, s[i..j], i, j);
    }
  }

  /** `split()[-1]` returns exactly the last whitespace-delimited word. */
  lemma LastTokenSome(s: string, t: string)
    ensures LastToken(s) == Some(t) <==> EndsWithToken(s, t)
  {
    if EndsWithToken(s, t) {
      var i, j :| LastTokenAt(s, t, i, j);
      LastTokenFromPosition(s, t, i, j);
    }
    if LastToken(s) == Some(t) {
      LastTokenNone(s);
      var i, j := FindLastToken(s);
      LastTokenFromPosition(s, s[i..j], i, j);
      assert LastTokenAt(s, t, i, j);
    }
  }

  /** Upper-cases an ASCII letter; every other character is left as it is. */
  function UpperChar(c: char): char {
    if 'a' <= c <= 'z' then (c as int - 32) as char else c
  }

  /** Lower-cases an ASCII letter; every other character is left as it is. */
  function LowerChar(c: char): char {
    if 'A' <= c <= 'Z' then (c as int + 32) as char else c
  }

  /**
   * `s.upper()` restricted to ASCII: each ASCII letter is upper-cased and every other
   * character is kept. Enough for comparing with an upper-case ASCII constant.
   */
  function Upper(s: string): string {
    seq(|s|, i requires 0 <= i < |s| => UpperChar(s[i]))
  }

  /** `a` and `b` are the same string up to the case of ASCII letters. */
  predicate EqualIgnoringCase(a: string, b: string) {
    |a| == |b| && forall i :: 0 <= i < |a| ==> LowerChar(a[i]) == LowerChar(b[i])
  }

  /** Comparing `s.upper()` with an upper-case string is a case-insensitive comparison. */
  lemma UpperMatches(s: string, u: string)
    requires Upper(u) == u
    ensures Upper(s) == u <==> EqualIgnoringCase(s, u)
  {
  }
}
