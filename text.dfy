/**
 * The text operations the conversation state machine matches on: JavaScript's
 * `String.prototype.toUpperCase`, `trim` and `includes`, and the rating
 * pattern `/^[1-5]$/`.  A JavaScript string is modelled as a `seq<char>`.
 */
module Text {

  /** The characters `trim` removes: ECMAScript WhiteSpace and LineTerminator. */
  predicate IsSpace(c: char) {
    || c == '\t' || c == '\n' || c == '\U{B}' || c == '\U{C}' || c == '\r'
    || c == ' ' || c == '\U{A0}' || c == '\U{1680}'
    || ('\U{2000}' <= c <= '\U{200A}')
    || c == '\U{2028}' || c == '\U{2029}' || c == '\U{202F}' || c == '\U{205F}'
    || c == '\U{3000}' || c == '\U{FEFF}'
  }

  /**
   * The lower-case letters whose upper-case form is an ASCII letter: a to z,
   * the dotless i (U+0131) and the long s (U+017F).
   */
  predicate IsLower(c: char) {
    'a' <= c <= 'z' || c == '\U{131}' || c == '\U{17F}'
  }

  /** Upper-case mapping of one character, for the letters that upper-case to ASCII. */
  function UpperChar(c: char): (u: char)
    ensures !IsLower(u)
    ensures IsSpace(u) <==> IsSpace(c)
    ensures !IsLower(c) ==> u == c
    ensures IsLower(c) ==> 'A' <= u <= 'Z'
    ensures 'a' <= c <= 'z' ==> u == "ABCDEFGHIJKLMNOPQRSTUVWXYZ"[c as int - 'a' as int]
    ensures c == '\U{131}' ==> u == 'I'
    ensures c == '\U{17F}' ==> u == 'S'
  {
    if 'a' <= c <= 'z' then (c as int - 32) as char
    else if c == '\U{131}' then 'I'
    else if c == '\U{17F}' then 'S'
    else c
  }

  /** `s.toUpperCase()` */
  function Upper(s: string): (r: string)
    ensures |r| == |s|
  {
    if s == [] then [] else [UpperChar(s[0])] + Upper(s[1..])
  }

  /** Upper-casing works character by character. */
  lemma {:induction false} UpperAt(s: string, i: int)
    requires 0 <= i < |s|
    ensures Upper(s)[i] == UpperChar(s[i])
  {
    if i > 0 {
      UpperAt(s[1..], i - 1);
    }
  }

  /** Upper-casing works piece by piece. */
  lemma {:induction false} UpperAppend(a: string, b: string)
    ensures Upper(a + b) == Upper(a) + Upper(b)
  {
    if a == [] {
      assert a + b == b;
    } else {
      assert (a + b)[0] == a[0] && (a + b)[1..] == a[1..] + b;
      UpperAppend(a[1..], b);
      calc {
        Upper(a + b);
        [UpperChar(a[0])] + Upper(a[1..] + b);
        [UpperChar(a[0])] + (Upper(a[1..]) + Upper(b));
        ([UpperChar(a[0])] + Upper(a[1..])) + Upper(b);
        Upper(a) + Upper(b);
      }
    }
  }

  /** `s.trimStart()`: what is left once the leading white space is gone. */
  function TrimStart(s: string): (r: string)
    ensures |r| <= |s|
    ensures forall k :: 0 <= k < |s| - |r| ==> IsSpace(s[k])
    ensures r == [] || !IsSpace(r[0])
    decreases |s|
  {
    if s != [] && IsSpace(s[0]) then TrimStart(s[1..]) else s
  }

  /** `s.trimEnd()`: what is left once the trailing white space is gone. */
  function TrimEnd(s: string): (r: string)
    ensures |r| <= |s|
    ensures forall k :: |r| <= k < |s| ==> IsSpace(s[k])
    ensures r == [] || !IsSpace(r[|r| - 1])
    decreases |s|
  {
    if s != [] && IsSpace(s[|s| - 1]) then TrimEnd(s[..|s| - 1]) else s
  }

  /** What `trimStart` leaves is a suffix of its input. */
  lemma {:induction false} TrimStartIsSuffix(s: string)
    ensures TrimStart(s) == s[|s| - |TrimStart(s)|..]
    decreases |s|
  {
    if s != [] && IsSpace(s[0]) {
      var r := TrimStart(s[1..]);
      TrimStartIsSuffix(s[1..]);
      assert s[1..][|s| - 1 - |r|..] == s[|s| - |r|..];
    }
  }

  /** What `trimEnd` leaves is a prefix of its input. */
  lemma {:induction false} TrimEndIsPrefix(s: string)
    ensures TrimEnd(s) == s[..|TrimEnd(s)|]
    decreases |s|
  {
    if s != [] && IsSpace(s[|s| - 1]) {
      var r := TrimEnd(s[..|s| - 1]);
      TrimEndIsPrefix(s[..|s| - 1]);
      assert s[..|s| - 1][..|r|] == s[..|r|];
    }
  }

  /** `r` is the block of `s` starting at `i`, and only white space lies around it. */
  ghost predicate Span(s: string, r: string, i: int) {
    && 0 <= i && i + |r| <= |s|
    && s[i..i + |r|] == r
    && (forall k :: 0 <= k < i ==> IsSpace(s[k]))
    && (forall k :: i + |r| <= k < |s| ==> IsSpace(s[k]))
  }

  /** Trimming the start and then the end leaves a block of `s` with only white space around it. */
  lemma TrimSpan(s: string)
    ensures Span(s, TrimEnd(TrimStart(s)), |s| - |TrimStart(s)|)
  {
    var t := TrimStart(s);
    TrimStartIsSuffix(s);
    TrimEndIsPrefix(t);
    SuffixSpan(s, t, TrimEnd(t), |s| - |t|);
  }

  /** A prefix `r` of the suffix `t` of `s` is a block of `s`, with white space around it when `t` and `r` dropped only white space. */
  lemma SuffixSpan(s: string, t: string, r: string, i: int)
    requires 0 <= i <= |s| && t == s[i..] && |r| <= |t| && r == t[..|r|]
    requires forall k :: 0 <= k < i ==> IsSpace(s[k])
    requires forall k :: |r| <= k < |t| ==> IsSpace(t[k])
    ensures Span(s, r, i)
  {
    SliceOfSlice(s, i, |s|, 0, |r|);
    forall k | i + |r| <= k < |s| ensures IsSpace(s[k]) {
      assert s[k] == t[k - i];
    }
  }

  /** `s.trim()` */
  function Trim(s: string): (r: string)
    ensures r == [] || (!IsSpace(r[0]) && !IsSpace(r[|r| - 1]))
  {
    var t := TrimStart(s);
    var r := TrimEnd(t);
    TrimEndIsPrefix(t);
    assert r != [] ==> r[0] == t[0];
    r
  }

  /** The text the state machine matches on: `messageBody.toUpperCase().trim()`. */
  function Normalise(body: string): (m: string)
    ensures m == [] || (!IsSpace(m[0]) && !IsSpace(m[|m| - 1]))
  {
    Trim(Upper(body))
  }

  /** Upper-casing leaves no lower-case letter. */
  lemma UpperHasNoLower(s: string)
    ensures forall i :: 0 <= i < |Upper(s)| ==> !IsLower(Upper(s)[i])
  {
    forall i | 0 <= i < |Upper(s)| ensures !IsLower(Upper(s)[i]) {
      UpperAt(s, i);
    }
  }

  /** The normalised text has no lower-case letter. */
  lemma NormaliseHasNoLower(body: string)
    ensures forall c :: c in Normalise(body) ==> !IsLower(c)
  {
    var u := Upper(body);
    UpperHasNoLower(body);
    TrimSpan(u);
    var m := Normalise(body);
    var i := |u| - |TrimStart(u)|;
    forall c | c in m ensures !IsLower(c) {
      var k :| 0 <= k < |m| && m[k] == c;
      assert m[k] == u[i + k];
    }
  }

  /** `w` occurs in `s` at index `i`. */
  ghost predicate OccursAt(s: string, w: string, i: int) {
    0 <= i && i + |w| <= |s| && s[i..i + |w|] == w
  }

  lemma OccursShift(s: string, w: string)
    requires s != []
    ensures forall i :: OccursAt(s[1..], w, i) ==> OccursAt(s, w, i + 1)
    ensures forall j :: 1 <= j && OccursAt(s, w, j) ==> OccursAt(s[1..], w, j - 1)
  {
    forall i | OccursAt(s[1..], w, i) ensures OccursAt(s, w, i + 1) {
      assert s[1..][i..i + |w|] == s[i + 1..i + 1 + |w|];
    }
    forall j | 1 <= j && OccursAt(s, w, j) ensures OccursAt(s[1..], w, j - 1) {
      assert s[1..][j - 1..j - 1 + |w|] == s[j..j + |w|];
    }
  }

  /** `s.includes(w)` */
  function Contains(s: string, w: string): bool
    decreases |s|
  {
    if |w| > |s| then false
    else if s[..|w|] == w then true
    else Contains(s[1..], w)
  }

  /** `includes` is true exactly when the word occurs at some index. */
  lemma {:induction false} ContainsIff(s: string, w: string)
    ensures Contains(s, w) <==> exists i :: OccursAt(s, w, i)
    decreases |s|
  {
    if |w| > |s| {
    } else if s[..|w|] == w {
      assert OccursAt(s, w, 0);
    } else {
      ContainsIff(s[1..], w);
      OccursShift(s, w);
      assert !OccursAt(s, w, 0);
    }
  }

  /** `m.match(/^[1-5]$/)` succeeds: without the `m` flag, `^` and `$` anchor the whole string. */
  predicate IsRating(m: string) {
    |m| == 1 && '1' <= m[0] <= '5'
  }

  /** The rating test accepts exactly the five one-digit strings "1" to "5". */
  lemma RatingIsOneToFive(m: string)
    ensures IsRating(m) <==> m in {"1", "2", "3", "4", "5"}
  {
    if IsRating(m) {
      assert m == [m[0]];
    }
  }

  /** Upper-casing a string with no lower-case letter leaves it as it is. */
  lemma UpperFixesUpper(s: string)
    requires forall c :: c in s ==> !IsLower(c)
    ensures Upper(s) == s
  {
    forall i | 0 <= i < |s| ensures Upper(s)[i] == s[i] {
      UpperAt(s, i);
    }
  }

  /** Trimming a string that neither starts nor ends with white space leaves it as it is. */
  lemma {:induction false} TrimFixesTrimmed(s: string)
    requires s == [] || (!IsSpace(s[0]) && !IsSpace(s[|s| - 1]))
    ensures Trim(s) == s
  {
    assert TrimStart(s) == s;
    assert TrimEnd(s) == s;
  }

  /** The normalised text is already upper-case. */
  lemma NormalisedIsUpper(body: string)
    ensures Upper(Normalise(body)) == Normalise(body)
  {
    NormaliseHasNoLower(body);
    UpperFixesUpper(Normalise(body));
  }

  /** Normalising twice is normalising once. */
  lemma {:induction false} NormaliseIdempotent(body: string)
    ensures Normalise(Normalise(body)) == Normalise(body)
  {
    var m := Normalise(body);
    NormalisedIsUpper(body);
    TrimFixesTrimmed(m);
  }

  lemma SliceOfSlice(s: string, a: int, b: int, c: int, d: int)
    requires 0 <= a <= b <= |s| && 0 <= c <= d <= b - a
    ensures s[a..b][c..d] == s[a + c..a + d]
  {
    forall k | 0 <= k < d - c ensures s[a..b][c..d][k] == s[a + c..a + d][k] {
    }
  }

  /** An occurrence of a word without white space lies inside the trimmed string. */
  lemma WordSurvivesTrim(s: string, r: string, i: int, w: string, j: int)
    requires Span(s, r, i) && OccursAt(s, w, j) && w != []
    requires forall k :: 0 <= k < |w| ==> !IsSpace(w[k])
    ensures OccursAt(r, w, j - i)
  {
    assert s[j] == s[j..j + |w|][0] == w[0];
    assert s[j + |w| - 1] == s[j..j + |w|][|w| - 1] == w[|w| - 1];
    assert i <= j && j + |w| <= i + |r|;
    SliceOfSlice(s, i, i + |r|, j - i, j - i + |w|);
  }

  /** An occurrence in the trimmed string is an occurrence in the original. */
  lemma WordPrecedesTrim(s: string, r: string, i: int, w: string, j: int)
    requires Span(s, r, i) && OccursAt(r, w, j)
    ensures OccursAt(s, w, i + j)
  {
    SliceOfSlice(s, i, i + |r|, j, j + |w|);
  }

  /**
   * A word without white space is found in the trimmed string exactly when it
   * is found in the untrimmed one: `includes` after `trim` sees what it would
   * have seen before.
   */
  lemma {:induction false} TrimKeepsWords(s: string, w: string)
    requires forall k :: 0 <= k < |w| ==> !IsSpace(w[k])
    ensures Contains(Trim(s), w) <==> Contains(s, w)
  {
    var r := Trim(s);
    var i := |s| - |TrimStart(s)|;
    TrimSpan(s);
    ContainsIff(s, w);
    ContainsIff(r, w);
    if Contains(s, w) {
      var j :| OccursAt(s, w, j);
      if w == [] {
        assert OccursAt(r, w, 0);
      } else {
        WordSurvivesTrim(s, r, i, w, j);
      }
    }
    if Contains(r, w) {
      var j :| OccursAt(r, w, j);
      WordPrecedesTrim(s, r, i, w, j);
    }
  }

  /** A word without white space is found in the normalised text exactly when it is found in the upper-cased one. */
  lemma WordSurvivesNormalise(body: string, w: string)
    requires forall k :: 0 <= k < |w| ==> !IsSpace(w[k])
    ensures Contains(Normalise(body), w) <==> Contains(Upper(body), w)
  {
    var u := Upper(body);
    assert Normalise(body) == Trim(u);
    TrimKeepsWords(u, w);
  }
}
