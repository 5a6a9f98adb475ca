/**
 * Facts about strings built by concatenation: where a piece occurs, and
 * how a concatenation of a list of parts splits. The prompt's lemmas are
 * built from these.
 */
module Text {

  /** `piece` occurs in `p` starting at index `k`. */
  predicate At(p: string, k: nat, piece: string) {
    k + |piece| <= |p| && p[k..k + |piece|] == piece
  }

  /** The concatenation of a list of strings, as an f-string joins its parts. */
  function Concat(parts: seq<string>): string {
    if parts == [] then "" else parts[0] + Concat(parts[1..])
  }

  /** The middle part of a concatenation occurs right after the first. */
  lemma ConcatAt(a: string, b: string, c: string)
    ensures At(a + b + c, |a|, b)
  {
    assert (a + b + c)[|a|..|a| + |b|] == b;
  }

  /** A string occurs at the start of anything it begins. */
  lemma AtPrefix(x: string, y: string)
    ensures At(x + y, 0, x)
  {
    assert (x + y)[..|x|] == x;
  }

  /** An occurrence inside an occurrence is an occurrence. */
  lemma AtTrans(p: string, k: nat, q: string, j: nat, t: string)
    requires At(p, k, q) && At(q, j, t)
    ensures At(p, k + j, t)
  {
    assert forall i :: 0 <= i < |t| ==> p[k + j + i] == q[j + i] == t[i];
  }

  /** What occurs in the first of two adjacent pieces occurs in the whole. */
  lemma AtInside(p: string, k: nat, x: string, y: string, j: nat, z: string)
    requires At(p, k, x + y) && At(x, j, z)
    ensures At(p, k + j, z)
  {
    AtPrefix(x, y);
    AtTrans(p, k, x + y, 0, x);
    AtTrans(p, k, x, j, z);
  }

  /** Inside a quoted string sits the string itself, one place after the opening quote. */
  lemma InsideQuotes(p: string, q: nat, d: string)
    requires At(p, q, "\"" + d + "\"")
    ensures At(p, q + 1, d)
  {
    ConcatAt("\"", d, "\"");
    AtTrans(p, q, "\"" + d + "\"", 1, d);
  }

  /** `p` ends with `a`, then `b`, then `c`, and nothing follows `c`. */
  predicate EndsWith(p: string, a: string, b: string, c: string) {
    && |p| >= |a| + |b| + |c|
    && p[|p| - |c|..] == c
    && p[|p| - |c| - |b|..|p| - |c|] == b
    && p[|p| - |c| - |b| - |a|..|p| - |c| - |b|] == a
  }

  /** The three pieces of `a + b + c` at their places: `a` first, `b` after it, `c` last. */
  lemma Framed(a: string, b: string, c: string)
    ensures At(a + b + c, 0, a)
    ensures At(a + b + c, |a|, b)
    ensures |a + b + c| >= |c| && At(a + b + c, |a + b + c| - |c|, c)
  {
    ConcatAt(a, b, c);
    AtPrefix(a, b + c);
    assert a + b + c == a + (b + c);
    ConcatAt(a + b, c, "");
    assert a + b + c + "" == a + b + c;
  }

  /** The last three pieces of a concatenation, read back from its end. */
  lemma EndPieces(p: string, h: string, a: string, b: string, c: string)
    requires p == h + a + b + c
    ensures |p| >= |a| + |b| + |c|
    ensures p[|p| - |c|..] == c
    ensures p[|p| - |c| - |b|..|p| - |c|] == b
    ensures p[|p| - |c| - |b| - |a|..|p| - |c| - |b|] == a
  {
    assert p[|h| + |a| + |b|..] == c;
    assert p[|h| + |a|..|h| + |a| + |b|] == b;
    assert p[|h|..|h| + |a|] == a;
  }

  /** Concatenation distributes over joining the lists. */
  lemma {:induction false} ConcatAppend(a: seq<string>, b: seq<string>)
    ensures Concat(a + b) == Concat(a) + Concat(b)
  {
    if a == [] {
      assert a + b == b;
    } else {
      assert (a + b)[1..] == a[1..] + b;
      ConcatAppend(a[1..], b);
      assert a[0] + (Concat(a[1..]) + Concat(b)) == (a[0] + Concat(a[1..])) + Concat(b);
    }
  }

  /** The concatenation so far grows by one part at a time. */
  lemma ConcatStep(parts: seq<string>, i: nat)
    requires i < |parts|
    ensures Concat(parts[..i + 1]) == Concat(parts[..i]) + parts[i]
  {
    assert parts[..i + 1] == parts[..i] + [parts[i]];
    ConcatAppend(parts[..i], [parts[i]]);
  }

  /** A concatenation is the parts before index `i`, part `i`, and the parts after it. */
  lemma ConcatAround(parts: seq<string>, i: nat)
    requires i < |parts|
    ensures Concat(parts) == Concat(parts[..i]) + parts[i] + Concat(parts[i + 1..])
  {
    assert parts == parts[..i + 1] + parts[i + 1..];
    ConcatAppend(parts[..i + 1], parts[i + 1..]);
    ConcatStep(parts, i);
  }

  /** A run of consecutive parts occurs where the parts before it end. */
  lemma Window(parts: seq<string>, i: nat, n: nat)
    requires i + n <= |parts|
    ensures At(Concat(parts), |Concat(parts[..i])|, Concat(parts[i..i + n]))
  {
    assert parts == parts[..i] + parts[i..i + n] + parts[i + n..];
    ConcatAppend(parts[..i] + parts[i..i + n], parts[i + n..]);
    ConcatAppend(parts[..i], parts[i..i + n]);
    ConcatAt(Concat(parts[..i]), Concat(parts[i..i + n]), Concat(parts[i + n..]));
  }

  lemma ConcatOne(parts: seq<string>)
    requires |parts| == 1
    ensures Concat(parts) == parts[0]
  {
    assert parts[1..] == [];
  }

  lemma ConcatTwo(parts: seq<string>)
    requires |parts| == 2
    ensures Concat(parts) == parts[0] + parts[1]
  {
    ConcatOne(parts[1..]);
  }

  lemma ConcatFour(parts: seq<string>)
    requires |parts| == 4
    ensures Concat(parts) == parts[0] + parts[1] + parts[2] + parts[3]
  {
    ConcatTwo(parts[2..]);
    assert parts[1..][1..] == parts[2..];
    assert parts[1..][0] == parts[1];
    assert Concat(parts[1..]) == parts[1] + (parts[2] + parts[3]);
  }

  /** Two consecutive parts, named, occur where the parts before them end. */
  lemma WindowTwo(parts: seq<string>, i: nat, a: string, b: string)
    requires i + 2 <= |parts| && parts[i] == a && parts[i + 1] == b
    ensures At(Concat(parts), |Concat(parts[..i])|, a + b)
  {
    Window(parts, i, 2);
    ConcatTwo(parts[i..i + 2]);
  }

  /** Four consecutive parts, named, occur where the parts before them end. */
  lemma WindowFour(parts: seq<string>, i: nat, a: string, b: string, c: string, d: string)
    requires i + 4 <= |parts| && parts[i] == a && parts[i + 1] == b && parts[i + 2] == c && parts[i + 3] == d
    ensures At(Concat(parts), |Concat(parts[..i])|, a + b + c + d)
  {
    Window(parts, i, 4);
    ConcatFour(parts[i..i + 4]);
  }

  /** The lengths of the first parts add up to where the next part starts. */
  lemma PrefixLengths(parts: seq<string>)
    requires |parts| >= 9
    ensures Concat(parts[..1]) == parts[0]
    ensures |Concat(parts[..5])| == |parts[0]| + |parts[1]| + |parts[2]| + |parts[3]| + |parts[4]|
    ensures |Concat(parts[..9])| == |Concat(parts[..5])| + |parts[5]| + |parts[6]| + |parts[7]| + |parts[8]|
  {
    assert parts[..0] == [];
    ConcatStep(parts, 0);
    ConcatStep(parts, 1);
    ConcatStep(parts, 2);
    ConcatStep(parts, 3);
    ConcatStep(parts, 4);
    ConcatStep(parts, 5);
    ConcatStep(parts, 6);
    ConcatStep(parts, 7);
    ConcatStep(parts, 8);
  }

  /** Filling one empty part of a list inserts the filling at that part's offset. */
  lemma FillEmptyPart(parts: seq<string>, plain: seq<string>, i: nat)
    requires i < |parts| == |plain|
    requires plain[i] == ""
    requires forall n :: 0 <= n < |parts| && n != i ==> parts[n] == plain[n]
    ensures var k := |Concat(plain[..i])|;
      && k <= |Concat(plain)|
      && Concat(parts) == Concat(plain)[..k] + parts[i] + Concat(plain)[k..]
  {
    ConcatAround(parts, i);
    ConcatAround(plain, i);
    assert parts[..i] == plain[..i];
    assert parts[i + 1..] == plain[i + 1..];
    var a, b := Concat(plain[..i]), Concat(plain[i + 1..]);
    assert Concat(plain) == a + b;
    assert (a + b)[..|a|] == a && (a + b)[|a|..] == b;
  }
}
