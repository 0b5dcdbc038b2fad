/** ECMAScript's String.prototype.trim, which the proxy applies to the `name`
    query parameter: it removes leading and trailing WhiteSpace and
    LineTerminator code points (ECMAScript sections 12.2 and 12.3) and keeps
    everything in between untouched. */
module JsString {

  /** WhiteSpace (TAB, VT, FF, ZWNBSP and every Unicode "Zs" space separator)
      together with LineTerminator (LF, CR, LS, PS). */
  predicate IsWhitespace(c: char) {
    || c == '\t' || c == '\U{B}' || c == '\U{C}' || c == '\U{FEFF}'
    || c == ' ' || c == '\U{A0}' || c == '\U{1680}'
    || ('\U{2000}' <= c <= '\U{200A}')
    || c == '\U{202F}' || c == '\U{205F}' || c == '\U{3000}'
    || c == '\n' || c == '\r' || c == '\U{2028}' || c == '\U{2029}'
  }

  /** Within Latin-1 the whitespace is TAB, LF, VT, FF, CR, space and
      NO-BREAK SPACE; every other whitespace character lies above U+00FF. */
  lemma LatinOneWhitespace(c: char)
    requires c <= '\U{FF}'
    ensures IsWhitespace(c) <==> c in "\t\n\U{B}\U{C}\r \U{A0}"
  {
  }

  predicate AllWhitespace(s: string) {
    forall i | 0 <= i < |s| :: IsWhitespace(s[i])
  }

  /** Drops the leading whitespace: the result is the suffix of `s` that starts
      at its first non-whitespace character. */
  function TrimStart(s: string): (r: string)
    ensures |r| <= |s| && r == s[|s| - |r|..]
    ensures forall i | 0 <= i < |s| - |r| :: IsWhitespace(s[i])
    ensures r == [] || !IsWhitespace(r[0])
  {
    if s != [] && IsWhitespace(s[0]) then TrimStart(s[1..]) else s
  }

  /** Drops the trailing whitespace: the result is the prefix of `s` that ends
      at its last non-whitespace character. */
  function TrimEnd(s: string): (r: string)
    ensures |r| <= |s| && r == s[..|r|]
    ensures forall i | |r| <= i < |s| :: IsWhitespace(s[i])
    ensures r == [] || !IsWhitespace(r[|r| - 1])
  {
    if s != [] && IsWhitespace(s[|s| - 1]) then TrimEnd(s[..|s| - 1]) else s
  }

  /** `s.trim()`: the infix of `s` between its leading and its trailing
      whitespace, neither starting nor ending with whitespace itself. */
  function Trim(s: string): (r: string)
    ensures var k := |s| - |TrimStart(s)|;
      && k + |r| <= |s| && r == s[k..k + |r|]
      && (forall i | 0 <= i < k :: IsWhitespace(s[i]))
      && (forall i | k + |r| <= i < |s| :: IsWhitespace(s[i]))
    ensures r != [] ==> !IsWhitespace(r[0]) && !IsWhitespace(r[|r| - 1])
  {
    TrimEnd(TrimStart(s))
  }

  /** A string trims to the empty string exactly when it is whitespace only. */
  lemma {:induction false} TrimEmptyIffWhitespace(s: string)
    ensures Trim(s) == [] <==> AllWhitespace(s)
  {
    var r, k := Trim(s), |s| - |TrimStart(s)|;
    if r == [] {
      forall i | 0 <= i < |s| ensures IsWhitespace(s[i]) {
        if i >= k { assert k + |r| <= i; }
      }
    } else {
      assert r[0] == s[k];
    }
  }

  /** Whitespace-only prefix followed by a non-whitespace character (or the
      end) determines what TrimStart leaves. */
  lemma {:induction false} TrimStartAt(s: string, k: nat)
    requires k <= |s|
    requires forall i | 0 <= i < k :: IsWhitespace(s[i])
    requires k == |s| || !IsWhitespace(s[k])
    ensures TrimStart(s) == s[k..]
  {
    if k > 0 {
      assert IsWhitespace(s[0]);
      TrimStartAt(s[1..], k - 1);
      assert s[1..][k - 1..] == s[k..];
    }
  }

  /** Mirror image of TrimStartAt for the trailing whitespace. */
  lemma {:induction false} TrimEndAt(s: string, m: nat)
    requires m <= |s|
    requires forall i | m <= i < |s| :: IsWhitespace(s[i])
    requires m == 0 || !IsWhitespace(s[m - 1])
    ensures TrimEnd(s) == s[..m]
  {
    if m < |s| {
      assert IsWhitespace(s[|s| - 1]);
      TrimEndAt(s[..|s| - 1], m);
      assert s[..|s| - 1][..m] == s[..m];
    }
  }

  /** Any split of `s` into whitespace, a core that neither starts nor ends
      with whitespace, and whitespace again, has Trim(s) as its core: Trim is
      fully determined by that description. */
  lemma {:induction false} TrimCharacterised(s: string, k: nat, n: nat)
    requires k + n <= |s|
    requires forall i | 0 <= i < k :: IsWhitespace(s[i])
    requires forall i | k + n <= i < |s| :: IsWhitespace(s[i])
    requires n > 0 ==> !IsWhitespace(s[k]) && !IsWhitespace(s[k + n - 1])
    ensures Trim(s) == s[k..k + n]
  {
    if n == 0 {
      TrimEmptyIffWhitespace(s);
      assert AllWhitespace(s) by {
        forall i | 0 <= i < |s| ensures IsWhitespace(s[i]) {
          if i >= k { assert k + n <= i; }
        }
      }
    } else {
      TrimStartAt(s, k);
      TrimEndOfSuffix(s, k, n);
    }
  }

  /** The step of TrimCharacterised that trims the end of `s[k..]`. */
  lemma {:induction false} TrimEndOfSuffix(s: string, k: nat, n: nat)
    requires 0 < n && k + n <= |s|
    requires forall i | k + n <= i < |s| :: IsWhitespace(s[i])
    requires !IsWhitespace(s[k + n - 1])
    ensures TrimEnd(s[k..]) == s[k..k + n]
  {
    var t := s[k..];
    forall i | n <= i < |t| ensures IsWhitespace(t[i]) {
      assert t[i] == s[k + i];
    }
    TrimEndAt(t, n);
    assert t[..n] == s[k..k + n];
  }

  /** Trimming twice is trimming once. */
  lemma {:induction false} TrimIdempotent(s: string)
    ensures Trim(Trim(s)) == Trim(s)
  {
    var t := Trim(s);
    TrimCharacterised(t, 0, |t|);
    assert t[0..|t|] == t;
  }

  /** Whitespace around a string never survives trimming: padding `s` with
      whitespace on either side does not change what Trim returns. */
  lemma {:induction false} TrimIgnoresPadding(pre: string, s: string, post: string)
    requires AllWhitespace(pre) && AllWhitespace(post)
    ensures Trim(pre + s + post) == Trim(s)
  {
    var r, k := Trim(s), |s| - |TrimStart(s)|;
    assert r == s[k..k + |r|];
    if r != [] {
      assert s[k] == r[0] && s[k + |r| - 1] == r[|r| - 1];
    }
    TrimOfPadded(pre, s, post, k, |r|);
  }

  /** A whitespace / core / whitespace split of `s` gives the trimmed value of
      `pre + s + post` when `pre` and `post` are whitespace. */
  lemma {:induction false} TrimOfPadded(pre: string, s: string, post: string, k: nat, n: nat)
    requires AllWhitespace(pre) && AllWhitespace(post)
    requires k + n <= |s|
    requires forall i | 0 <= i < k :: IsWhitespace(s[i])
    requires forall i | k + n <= i < |s| :: IsWhitespace(s[i])
    requires n > 0 ==> !IsWhitespace(s[k]) && !IsWhitespace(s[k + n - 1])
    ensures Trim(pre + s + post) == s[k..k + n]
  {
    PaddingKeepsSplit(pre, s, post, k, n);
    TrimCharacterised(pre + s + post, |pre| + k, n);
  }

  /** A whitespace / core / whitespace split of `s` is still one of
      `pre + s + post`, shifted by |pre|, when `pre` and `post` are whitespace. */
  lemma {:induction false} PaddingKeepsSplit(pre: string, s: string, post: string, k: nat, n: nat)
    requires AllWhitespace(pre) && AllWhitespace(post)
    requires k + n <= |s|
    requires forall i | 0 <= i < k :: IsWhitespace(s[i])
    requires forall i | k + n <= i < |s| :: IsWhitespace(s[i])
    requires n > 0 ==> !IsWhitespace(s[k]) && !IsWhitespace(s[k + n - 1])
    ensures var p, k' := pre + s + post, |pre| + k;
      && k' + n <= |p|
      && (forall i | 0 <= i < k' :: IsWhitespace(p[i]))
      && (forall i | k' + n <= i < |p| :: IsWhitespace(p[i]))
      && (n > 0 ==> !IsWhitespace(p[k']) && !IsWhitespace(p[k' + n - 1]))
      && p[k'..k' + n] == s[k..k + n]
  {
    var p, k' := pre + s + post, |pre| + k;
    forall i | 0 <= i < k' ensures IsWhitespace(p[i]) {
      if i >= |pre| { assert p[i] == s[i - |pre|]; }
    }
    forall i | k' + n <= i < |p| ensures IsWhitespace(p[i]) {
      if i < |pre| + |s| { assert p[i] == s[i - |pre|]; } else { assert p[i] == post[i - |pre| - |s|]; }
    }
    if n > 0 {
      assert p[k'] == s[k];
      assert p[k' + n - 1] == s[k + n - 1];
    }
    assert p[k'..k' + n] == s[k..k + n];
  }
}
