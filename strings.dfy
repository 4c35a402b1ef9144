/**
 * The handful of Python `str` operations the renamer relies on:
 * `strip()`, `lower()` followed by `endswith(...)`, and slicing `s[:n]`.
 */
module Strings {

  /** Python's `str.isspace()` for a single character (the Unicode whitespace set). */
  predicate IsSpace(c: char)
  {
    || c == ' '
    || ('\t' <= c <= '\r')                 // \t \n \x0b \x0c \r
    || ('\U{1C}' <= c <= '\U{1F}')
    || c == '\U{85}' || c == '\U{A0}' || c == '\U{1680}'
    || ('\U{2000}' <= c <= '\U{200A}')
    || c == '\U{2028}' || c == '\U{2029}' || c == '\U{202F}'
    || c == '\U{205F}' || c == '\U{3000}'
  }

  /** The first position at or after `i` that holds no whitespace, or `|s|`. */
  function LeadFrom(s: string, i: nat): (n: nat)
    requires i <= |s|
    ensures i <= n <= |s|
    ensures forall k :: i <= k < n ==> IsSpace(s[k])
    ensures n == |s| || !IsSpace(s[n])
    decreases |s| - i
  {
    if i == |s| || !IsSpace(s[i]) then i else LeadFrom(s, i + 1)
  }

  /** The last position at or before `j` that follows no whitespace, or 0. */
  function EndTo(s: string, j: nat): (n: nat)
    requires j <= |s|
    ensures n <= j
    ensures forall k :: n <= k < j ==> IsSpace(s[k])
    ensures n == 0 || !IsSpace(s[n - 1])
  {
    if j == 0 || !IsSpace(s[j - 1]) then j else EndTo(s, j - 1)
  }

  /** Number of leading whitespace characters of `s`. */
  function Lead(s: string): (n: nat)
    ensures n <= |s|
    ensures forall i :: 0 <= i < n ==> IsSpace(s[i])
    ensures n == |s| || !IsSpace(s[n])
  {
    LeadFrom(s, 0)
  }

  /** Length of `s` once its trailing whitespace is removed. */
  function End(s: string): (n: nat)
    ensures n <= |s|
    ensures forall i :: n <= i < |s| ==> IsSpace(s[i])
    ensures n == 0 || !IsSpace(s[n - 1])
  {
    EndTo(s, |s|)
  }

  /**
   * Python's `s.strip()`: `s` with whitespace removed from both ends. The
   * result is the slice of `s` that starts at its first non-whitespace
   * character, everything cut off is whitespace, and the result neither
   * starts nor ends with whitespace.
   */
  function Strip(s: string): (r: string)
    ensures Lead(s) + |r| <= |s| && r == s[Lead(s)..Lead(s) + |r|]
    ensures forall i :: 0 <= i < Lead(s) ==> IsSpace(s[i])
    ensures forall i :: Lead(s) + |r| <= i < |s| ==> IsSpace(s[i])
    ensures r == [] || (!IsSpace(r[0]) && !IsSpace(r[|r| - 1]))
  {
    if Lead(s) == |s| then "" else s[Lead(s)..End(s)]
  }

  /** Stripping is idempotent. */
  lemma StripIdempotent(s: string)
    ensures Strip(Strip(s)) == Strip(s)
  {
    var r := Strip(s);
    assert Lead(r) == 0;
    if r != [] {
      assert End(r) == |r|;
    }
  }

  /** A string with no surrounding whitespace is its own strip. */
  lemma StripOfTrimmed(s: string)
    requires s == [] || (!IsSpace(s[0]) && !IsSpace(s[|s| - 1]))
    ensures Strip(s) == s
  {
    if s != [] {
      assert Lead(s) == 0;
      assert End(s) == |s|;
    }
  }

  /**
   * Extending a string whose strip is non-empty extends its strip: the strip
   * of the shorter string is a prefix of the strip of the longer one.
   */
  lemma StripOfExtension(g: string, a: string)
    requires |g| <= |a| && g == a[..|g|]
    requires Strip(g) != []
    ensures |Strip(g)| <= |Strip(a)| && Strip(g) == Strip(a)[..|Strip(g)|]
  {
    var sg, sa := Strip(g), Strip(a);
    var l, n := Lead(g), |sg|;
    LeadOfExtension(g, a);
    // the last kept character of `g` is not whitespace, and `a` holds it too
    StripAt(g, n - 1);
    StripKeeps(a, l + n - 1);
    forall i | 0 <= i < n
      ensures sa[i] == sg[i]
    {
      StripAt(g, i);
      StripAt(a, i);
    }
  }

  /** The `i`-th character of the strip is the `i`-th after the leading whitespace. */
  lemma StripAt(s: string, i: nat)
    requires i < |Strip(s)|
    ensures Lead(s) + i < |s| && Strip(s)[i] == s[Lead(s) + i]
  {
    var r, l := Strip(s), Lead(s);
    assert r == s[l..l + |r|];
  }

  /** A non-whitespace character after the leading whitespace is kept by the strip. */
  lemma StripKeeps(s: string, i: nat)
    requires Lead(s) <= i < |s| && !IsSpace(s[i])
    ensures i < Lead(s) + |Strip(s)|
  {
  }

  /** A non-blank prefix fixes where the leading whitespace ends. */
  lemma LeadOfExtension(g: string, a: string)
    requires |g| <= |a| && g == a[..|g|]
    requires Lead(g) < |g|
    ensures Lead(a) == Lead(g)
  {
    var l := Lead(g);
    assert g[l] == a[l];
    assert forall i :: 0 <= i < l ==> a[i] == g[i];
  }

  /** Python's `s[:n]` for a non-negative `n`. */
  function Take(s: string, n: nat): (r: string)
    ensures |r| <= n && |r| <= |s|
    ensures r == s[..|r|]
    ensures |s| <= n ==> r == s
    ensures n < |s| ==> |r| == n
  {
    if |s| <= n then s else s[..n]
  }

  /**
   * Lower-casing of one character, exact for ASCII. Python's full Unicode
   * `lower()` maps no other character to '.', 'p', 'd' or 'f', so the
   * suffix test below is unaffected by the characters this leaves alone.
   */
  function LowerChar(c: char): (l: char)
    ensures 'A' <= c <= 'Z' ==> 'a' <= l <= 'z' && l as int - c as int == 32
    ensures !('A' <= c <= 'Z') ==> l == c
  {
    if 'A' <= c <= 'Z' then (c as int + 32) as char else c
  }

  function Lower(s: string): (r: string)
    ensures |r| == |s|
    ensures forall i :: 0 <= i < |s| ==> r[i] == LowerChar(s[i])
  {
    seq(|s|, i requires 0 <= i < |s| => LowerChar(s[i]))
  }

  predicate EndsWith(s: string, suffix: string)
  {
    |suffix| <= |s| && s[|s| - |suffix|..] == suffix
  }

  /**
   * `filename.lower().endswith(".pdf")`: the batch's filter on directory
   * entries. A name it accepts has a '.' four characters from its end;
   * `IsPdfNameCaseInsensitive` characterises it exactly.
   */
  predicate IsPdfName(name: string)
    ensures IsPdfName(name) ==> |name| >= 4 && name[|name| - 4] == '.'
  {
    EndsWith(Lower(name), ".pdf")
  }

  /** The filter is case-insensitive: it accepts exactly the names whose last
      four characters spell `.pdf` in any mix of cases. */
  lemma IsPdfNameCaseInsensitive(name: string)
    ensures IsPdfName(name) <==>
      && |name| >= 4
      && name[|name| - 4] == '.'
      && name[|name| - 3] in {'p', 'P'}
      && name[|name| - 2] in {'d', 'D'}
      && name[|name| - 1] in {'f', 'F'}
  {
    if |name| >= 4 {
      var l := Lower(name);
      var tail := l[|l| - 4..];
      assert tail == [LowerChar(name[|name| - 4]), LowerChar(name[|name| - 3]),
                      LowerChar(name[|name| - 2]), LowerChar(name[|name| - 1])];
    }
  }
}
