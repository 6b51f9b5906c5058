/** The string operations the auto-reply policy relies on: Python's `str.strip()` and
    `str.isdigit()`, over an abstract classification of characters. */
module Text {

  /** Which characters count as whitespace (`str.isspace`) and as digits (`str.isdigit`).
      Both are Unicode tables in Python; the model keeps them as parameters. */
  datatype CharClass = CharClass(isSpace: char -> bool, isDigit: char -> bool)

  /** What every such classification agrees on for the characters the policy looks at. */
  predicate AsciiAware(cc: CharClass) {
    && cc.isSpace(' ') && cc.isSpace('\t') && cc.isSpace('\n')
    && cc.isDigit('1') && cc.isDigit('2') && cc.isDigit('3')
    && !cc.isSpace('1') && !cc.isSpace('2') && !cc.isSpace('3')
  }

  predicate AllSpace(cc: CharClass, s: string) {
    forall k :: 0 <= k < |s| ==> cc.isSpace(s[k])
  }

  /** The number of whitespace characters at the start of `s`. */
  function LeadingSpaces(cc: CharClass, s: string): (n: nat)
    ensures n <= |s|
    ensures AllSpace(cc, s[..n])
    ensures n < |s| ==> !cc.isSpace(s[n])
  {
    if s == [] || !cc.isSpace(s[0]) then 0
    else
      var n := 1 + LeadingSpaces(cc, s[1..]);
      assert s[..n] == [s[0]] + s[1..][..n - 1];
      n
  }

  /** The number of whitespace characters at the end of `s`. */
  function TrailingSpaces(cc: CharClass, s: string): (n: nat)
    ensures n <= |s|
    ensures AllSpace(cc, s[|s| - n..])
    ensures n < |s| ==> !cc.isSpace(s[|s| - 1 - n])
  {
    if s == [] || !cc.isSpace(s[|s| - 1]) then 0
    else
      var init := s[..|s| - 1];
      var n := 1 + TrailingSpaces(cc, init);
      assert s[|s| - n..] == init[|init| - (n - 1)..] + [s[|s| - 1]];
      n
  }

  /** `str.strip()`: `s` without its leading and trailing whitespace. */
  function Strip(cc: CharClass, s: string): (r: string)
    ensures LeadingSpaces(cc, s) + |r| <= |s|
    ensures r == s[LeadingSpaces(cc, s)..LeadingSpaces(cc, s) + |r|]
    ensures AllSpace(cc, s[..LeadingSpaces(cc, s)])
    ensures AllSpace(cc, s[LeadingSpaces(cc, s) + |r|..])
    ensures r != [] ==> !cc.isSpace(r[0]) && !cc.isSpace(r[|r| - 1])
  {
    var i := LeadingSpaces(cc, s);
    var rest := s[i..];
    var r := rest[..|rest| - TrailingSpaces(cc, rest)];
    assert s[i + |r|..] == rest[|rest| - TrailingSpaces(cc, rest)..];
    r
  }

  /** `str.isdigit()`: non-empty and made of digits only. */
  predicate IsDigits(cc: CharClass, s: string) {
    |s| > 0 && forall k :: 0 <= k < |s| ==> cc.isDigit(s[k])
  }

  /** `sub` occurs somewhere in `s` (Python's `sub in s`). */
  predicate IsInfix(sub: string, s: string)
    decreases |s|
  {
    sub <= s || (s != [] && IsInfix(sub, s[1..]))
  }

  lemma {:induction false} InfixOfConcat(a: string, b: string, c: string)
    ensures IsInfix(b, a + b + c)
    decreases |a|
  {
    if a == [] {
      assert a + b + c == b + c;
      assert b <= b + c;
    } else {
      assert (a + b + c)[1..] == a[1..] + b + c;
      InfixOfConcat(a[1..], b, c);
    }
  }

  /** Skipping an all-whitespace prefix adds its length to the leading count. */
  lemma {:induction false} LeadingSpacesSkipPrefix(cc: CharClass, pre: string, t: string)
    requires AllSpace(cc, pre)
    ensures LeadingSpaces(cc, pre + t) == |pre| + LeadingSpaces(cc, t)
    decreases |pre|
  {
    if pre != [] {
      assert cc.isSpace(pre[0]);
      assert (pre + t)[0] == pre[0];
      assert (pre + t)[1..] == pre[1..] + t;
      assert AllSpace(cc, pre[1..]) by {
        forall k | 0 <= k < |pre| - 1 ensures cc.isSpace(pre[1..][k]) {
          assert pre[1..][k] == pre[k + 1];
        }
      }
      LeadingSpacesSkipPrefix(cc, pre[1..], t);
    } else {
      assert pre + t == t;
    }
  }

  /** Skipping an all-whitespace suffix adds its length to the trailing count. */
  lemma {:induction false} TrailingSpacesSkipSuffix(cc: CharClass, t: string, post: string)
    requires AllSpace(cc, post)
    ensures TrailingSpaces(cc, t + post) == TrailingSpaces(cc, t) + |post|
    decreases |post|
  {
    if post != [] {
      var s := t + post;
      var init := post[..|post| - 1];
      assert cc.isSpace(post[|post| - 1]);
      assert s[|s| - 1] == post[|post| - 1];
      assert s[..|s| - 1] == t + init;
      assert AllSpace(cc, init) by {
        forall k | 0 <= k < |init| ensures cc.isSpace(init[k]) {
          assert init[k] == post[k];
        }
      }
      TrailingSpacesSkipSuffix(cc, t, init);
    } else {
      assert t + post == t;
    }
  }

  /** The converse of Strip's contract: whitespace around a core that neither starts nor
      ends with whitespace is exactly what Strip removes. */
  lemma StripOfPadded(cc: CharClass, pre: string, core: string, post: string)
    requires AllSpace(cc, pre) && AllSpace(cc, post)
    requires core != [] ==> !cc.isSpace(core[0]) && !cc.isSpace(core[|core| - 1])
    ensures Strip(cc, pre + core + post) == core
  {
    var s := pre + core + post;
    assert s == pre + (core + post);
    LeadingSpacesSkipPrefix(cc, pre, core + post);
    if core == [] {
      assert core + post == post + [];
      LeadingSpacesSkipPrefix(cc, post, []);
      assert LeadingSpaces(cc, []) == 0;
      assert LeadingSpaces(cc, s) == |s|;
    } else {
      assert (core + post)[0] == core[0];
      assert LeadingSpaces(cc, core + post) == 0;
      assert s[|pre|..] == core + post;
      TrailingSpacesSkipSuffix(cc, core, post);
      assert TrailingSpaces(cc, core) == 0;
      assert (core + post)[..|core|] == core;
    }
  }
}
