/** The few Python string operations the core relies on, over ASCII: code-point order
    (`sorted` on strings), `str.lower()` and `str.strip()`. */
module Text {
  import opened Sorting

  /** Python's `<` on strings: lexicographic by code point, a proper prefix first. */
  predicate StrLess(a: string, b: string)
    decreases |a|
  {
    if a == [] then b != []
    else if b == [] then false
    else if a[0] != b[0] then a[0] < b[0]
    else StrLess(a[1..], b[1..])
  }

  lemma {:induction false} StrLessIrreflexive(a: string)
    ensures !StrLess(a, a)
    decreases |a|
  {
    if a != [] { StrLessIrreflexive(a[1..]); }
  }

  lemma {:induction false} StrLessTransitive(a: string, b: string, c: string)
    requires StrLess(a, b) && StrLess(b, c)
    ensures StrLess(a, c)
    decreases |a|
  {
    if a != [] && a[0] == b[0] && b[0] == c[0] {
      StrLessTransitive(a[1..], b[1..], c[1..]);
    }
  }

  lemma {:induction false} StrLessConnected(a: string, b: string)
    requires a != b
    ensures StrLess(a, b) || StrLess(b, a)
    decreases |a|
  {
    if a != [] && b != [] && a[0] == b[0] {
      assert a == [a[0]] + a[1..] && b == [b[0]] + b[1..];
      StrLessConnected(a[1..], b[1..]);
    }
  }

  lemma StrLessIsStrictTotal()
    ensures IsStrictTotalOrder(StrLess)
  {
    forall a: string ensures !StrLess(a, a) { StrLessIrreflexive(a); }
    forall a: string, b: string, c: string | StrLess(a, b) && StrLess(b, c)
      ensures StrLess(a, c)
    {
      StrLessTransitive(a, b, c);
    }
    forall a: string, b: string | a != b ensures StrLess(a, b) || StrLess(b, a) {
      StrLessConnected(a, b);
    }
  }

  /** `str.isspace()` on an ASCII character. */
  predicate IsSpace(c: char) {
    // space, tab, line feed, vertical tab, form feed, carriage return; the four separators
    c == ' ' || 9 <= c as int <= 13 || 28 <= c as int <= 31
  }

  /** `str.lower()` on one ASCII character. */
  function LowerChar(c: char): (r: char)
    ensures IsSpace(r) <==> IsSpace(c)
    ensures !('A' <= r <= 'Z')
    ensures 'A' <= c <= 'Z' ==> 'a' <= r <= 'z' && r as int - 'a' as int == c as int - 'A' as int
    ensures !('A' <= c <= 'Z') ==> r == c
  {
    if 'A' <= c <= 'Z' then (c as int + 32) as char else c
  }

  /** `str.lower()`. */
  function Lower(s: string): (r: string)
    ensures |r| == |s|
    ensures forall i :: 0 <= i < |s| ==> r[i] == LowerChar(s[i])
  {
    if s == [] then [] else [LowerChar(s[0])] + Lower(s[1..])
  }

  function StripLeft(s: string): (r: string)
    ensures r == [] || !IsSpace(r[0])
    ensures exists k :: 0 <= k <= |s| && r == s[k..] && forall i :: 0 <= i < k ==> IsSpace(s[i])
  {
    if s != [] && IsSpace(s[0]) then
      var r := StripLeft(s[1..]);
      StripLeftStep(s, r);
      r
    else
      assert s == s[0..];
      s
  }

  lemma StripLeftStep(s: string, r: string)
    requires s != [] && IsSpace(s[0])
    requires exists k :: 0 <= k <= |s| - 1 && r == s[1..][k..] && forall i :: 0 <= i < k ==> IsSpace(s[1..][i])
    ensures exists k :: 0 <= k <= |s| && r == s[k..] && forall i :: 0 <= i < k ==> IsSpace(s[i])
  {
    var k :| 0 <= k <= |s| - 1 && r == s[1..][k..] && forall i :: 0 <= i < k ==> IsSpace(s[1..][i]);
    assert r == s[k + 1..];
  }

  function StripRight(s: string): (r: string)
    ensures r == [] || !IsSpace(r[|r| - 1])
    ensures exists k :: 0 <= k <= |s| && r == s[..k] && forall i :: k <= i < |s| ==> IsSpace(s[i])
  {
    if s != [] && IsSpace(s[|s| - 1]) then
      var r := StripRight(s[..|s| - 1]);
      StripRightStep(s, r);
      r
    else
      assert s == s[..|s|];
      s
  }

  lemma StripRightStep(s: string, r: string)
    requires s != [] && IsSpace(s[|s| - 1])
    requires var init := s[..|s| - 1];
      exists k :: 0 <= k <= |init| && r == init[..k] && forall i :: k <= i < |init| ==> IsSpace(init[i])
    ensures exists k :: 0 <= k <= |s| && r == s[..k] && forall i :: k <= i < |s| ==> IsSpace(s[i])
  {
    var init := s[..|s| - 1];
    var k :| 0 <= k <= |init| && r == init[..k] && forall i :: k <= i < |init| ==> IsSpace(init[i]);
    assert r == s[..k];
  }

  /** `str.strip()`: the input with its leading and trailing whitespace removed. */
  function Strip(s: string): (r: string)
    ensures r == [] || (!IsSpace(r[0]) && !IsSpace(r[|r| - 1]))
    ensures exists a, b :: Window(s, r, a, b)
  {
    var l := StripLeft(s);
    var r := StripRight(l);
    assert r != [] ==> r[0] == l[0];
    StripWindow(s, l, r);
    r
  }

  /** `r` is `s[a..b]` and only whitespace lies outside that window. */
  predicate Window(s: string, r: string, a: int, b: int) {
    && 0 <= a <= b <= |s| && r == s[a..b]
    && (forall i :: 0 <= i < a ==> IsSpace(s[i]))
    && (forall i :: b <= i < |s| ==> IsSpace(s[i]))
  }

  lemma StripWindow(s: string, l: string, r: string)
    requires l == StripLeft(s) && r == StripRight(l)
    ensures exists a, b :: Window(s, r, a, b)
  {
    var a :| 0 <= a <= |s| && l == s[a..] && forall i :: 0 <= i < a ==> IsSpace(s[i]);
    var k :| 0 <= k <= |l| && r == l[..k] && forall i :: k <= i < |l| ==> IsSpace(l[i]);
    WindowStep(s, l, r, a, k);
  }

  lemma WindowStep(s: string, l: string, r: string, a: int, k: int)
    requires 0 <= a <= |s| && l == s[a..] && forall i :: 0 <= i < a ==> IsSpace(s[i])
    requires 0 <= k <= |l| && r == l[..k] && forall i :: k <= i < |l| ==> IsSpace(l[i])
    ensures Window(s, r, a, a + k)
  {
    assert r == s[a..a + k];
    forall i | a + k <= i < |s| ensures IsSpace(s[i]) {
      assert s[i] == l[i - a];
    }
  }

  /** `strip()` is determined by what it promises: any window of `s` with only whitespace
      outside it and none at its own ends is `Strip(s)`. */
  lemma StripUnique(s: string, r: string, a: int, b: int)
    requires Window(s, r, a, b)
    requires r == [] || (!IsSpace(r[0]) && !IsSpace(r[|r| - 1]))
    ensures Strip(s) == r
  {
    var t := Strip(s);
    var a', b' :| Window(s, t, a', b');
    assert a' < b' ==> t[0] == s[a'] && t[|t| - 1] == s[b' - 1];
    assert a < b ==> r[0] == s[a] && r[|r| - 1] == s[b - 1];
    assert a' < b' <==> a < b;
    assert a < b ==> a == a' && b == b';
  }

  /** `str.startswith(prefix)`. */
  predicate StartsWith(s: string, prefix: string) {
    |prefix| <= |s| && s[..|prefix|] == prefix
  }
}
