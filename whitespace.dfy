/**
 * Python's `str.strip()` with no argument: remove the whitespace at both
 * ends of a string, where whitespace is what `str.isspace` accepts.
 */
module Whitespace {
  import opened Text

  /** The characters for which Python 3's `str.isspace` holds. */
  predicate IsSpace(c: char) {
    || ('\t' <= c <= '\r')
    || ('\U{1C}' <= c <= '\U{1F}')
    || c == ' '
    || c == '\U{85}'
    || c == '\U{A0}'
    || c == '\U{1680}'
    || ('\U{2000}' <= c <= '\U{200A}')
    || c == '\U{2028}'
    || c == '\U{2029}'
    || c == '\U{202F}'
    || c == '\U{205F}'
    || c == '\U{3000}'
  }

  predicate AllSpace(s: string) {
    forall i :: 0 <= i < |s| ==> IsSpace(s[i])
  }

  /**
   * `t` is `s` with its leading and trailing whitespace removed, and it
   * starts at index `k` of `s`: the independent description of a strip.
   */
  predicate StrippedAt(s: string, k: nat, t: string) {
    && At(s, k, t)
    && AllSpace(s[..k])
    && AllSpace(s[k + |t|..])
    && (t == [] || (!IsSpace(t[0]) && !IsSpace(t[|t| - 1])))
  }

  /** `str.lstrip()`: drop leading whitespace. */
  function TrimStart(s: string): (r: string)
    ensures |r| <= |s| && r == s[|s| - |r|..]
    ensures AllSpace(s[..|s| - |r|])
    ensures r == [] || !IsSpace(r[0])
  {
    if |s| > 0 && IsSpace(s[0]) then
      var r := TrimStart(s[1..]);
      TrimStartStep(s, r);
      r
    else
      s
  }

  /** Dropping one more leading whitespace character keeps `TrimStart`'s contract. */
  lemma TrimStartStep(s: string, r: string)
    requires |s| > 0 && IsSpace(s[0])
    requires |r| <= |s| - 1 && r == s[1..][|s| - 1 - |r|..]
    requires AllSpace(s[1..][..|s| - 1 - |r|])
    ensures r == s[|s| - |r|..]
    ensures AllSpace(s[..|s| - |r|])
  {
    var n := |s| - |r|;
    forall i | 0 <= i < n ensures IsSpace(s[..n][i]) {
      if i > 0 {
        assert s[..n][i] == s[1..][..n - 1][i - 1];
      }
    }
  }

  /** `str.rstrip()`: drop trailing whitespace. */
  function TrimEnd(s: string): (r: string)
    ensures |r| <= |s| && r == s[..|r|]
    ensures AllSpace(s[|r|..])
    ensures r == [] || !IsSpace(r[|r| - 1])
  {
    if |s| > 0 && IsSpace(s[|s| - 1]) then
      var r := TrimEnd(s[..|s| - 1]);
      assert s[|r|..] == s[..|s| - 1][|r|..] + [s[|s| - 1]];
      r
    else
      s
  }

  /** Where the result of `Strip` starts in `s`: after the leading whitespace. */
  function StripOffset(s: string): nat {
    |s| - |TrimStart(s)|
  }

  /** `str.strip()`: a slice of `s`, starting after the leading whitespace. */
  function Strip(s: string): (r: string)
    ensures At(s, StripOffset(s), r)
  {
    var u := TrimStart(s);
    var r := TrimEnd(u);
    SliceOfSuffix(s, u, r);
    r
  }

  /**
   * What `Strip` removes is whitespace, at both ends, and no more: its
   * result neither starts nor ends with whitespace.
   */
  lemma StripSpec(s: string)
    ensures StrippedAt(s, StripOffset(s), Strip(s))
  {
    StripSteps(s, TrimStart(s), TrimEnd(TrimStart(s)));
  }

  /** A prefix of a suffix of `s` sits in `s` where the suffix starts. */
  lemma SliceOfSuffix(s: string, u: string, r: string)
    requires |u| <= |s| && u == s[|s| - |u|..]
    requires |r| <= |u| && r == u[..|r|]
    ensures At(s, |s| - |u|, r)
  {
    assert s[|s| - |u|..|s| - |u| + |r|] == u[..|r|];
  }

  /** Stripping the start and then the end of `s` leaves a strip of `s`. */
  lemma StripSteps(s: string, u: string, r: string)
    requires |u| <= |s| && u == s[|s| - |u|..] && AllSpace(s[..|s| - |u|])
    requires u == [] || !IsSpace(u[0])
    requires |r| <= |u| && r == u[..|r|] && AllSpace(u[|r|..])
    requires r == [] || !IsSpace(r[|r| - 1])
    ensures StrippedAt(s, |s| - |u|, r)
  {
    var k := |s| - |u|;
    assert u == s[k..];
    assert s[k..k + |r|] == u[..|r|];
    assert s[k + |r|..] == u[|r|..];
    assert r != [] ==> r[0] == u[0];
  }

  /** A string strips to the empty string exactly when it is all whitespace. */
  lemma StripEmptyIff(s: string)
    ensures Strip(s) == [] <==> AllSpace(s)
  {
    StripSpec(s);
    if Strip(s) == [] {
      AllSpaceJoin(s, StripOffset(s));
    } else if AllSpace(s) {
      assert false;
    }
  }

  /** Any slice meeting the description of a strip is what `Strip` returns. */
  lemma StripUnique(s: string, k: nat, t: string)
    requires StrippedAt(s, k, t)
    ensures Strip(s) == t
  {
    var r := Strip(s);
    var j := StripOffset(s);
    StripSpec(s);
    if t == [] || r == [] {
      StripEmptyIff(s);
      if t == [] {
        assert AllSpace(s) by { AllSpaceJoin(s, k); }
      } else {
        assert false;
      }
    } else {
      NonSpaceBounds(s, k, t);
      NonSpaceBounds(s, j, r);
      assert k == j && k + |t| == j + |r|;
    }
  }

  /** Whitespace on both sides of an empty strip covers the whole string. */
  lemma AllSpaceJoin(s: string, k: nat)
    requires StrippedAt(s, k, [])
    ensures AllSpace(s)
  {
    forall i | 0 <= i < |s| ensures IsSpace(s[i]) {
      if i < k {
        assert s[..k][i] == s[i];
      } else {
        assert s[k..][i - k] == s[i];
      }
    }
  }

  /**
   * A non-empty strip starts at the first non-space character of `s`
   * and ends after the last one.
   */
  lemma NonSpaceBounds(s: string, k: nat, t: string)
    requires StrippedAt(s, k, t) && t != []
    ensures !IsSpace(s[k]) && !IsSpace(s[k + |t| - 1])
    ensures forall i :: 0 <= i < k ==> IsSpace(s[i])
    ensures forall i :: k + |t| <= i < |s| ==> IsSpace(s[i])
  {
    assert s[k..k + |t|][0] == s[k];
    assert s[k..k + |t|][|t| - 1] == s[k + |t| - 1];
    forall i | 0 <= i < k ensures IsSpace(s[i]) {
      assert s[..k][i] == s[i];
    }
    forall i | k + |t| <= i < |s| ensures IsSpace(s[i]) {
      assert s[k + |t|..][i - k - |t|] == s[i];
    }
  }
}
