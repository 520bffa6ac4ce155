/** String operations the components rely on: JavaScript's `toLowerCase`,
    `includes` and `startsWith`, on `seq<char>`. */
module Text {

  /** Lower-case mapping of one character (ASCII letters only). */
  function LowerChar(c: char): (d: char)
    ensures 'A' <= c <= 'Z' ==> d as int == c as int + 32
    ensures !('A' <= c <= 'Z') ==> d == c
    ensures !('A' <= d <= 'Z')
  {
    if 'A' <= c <= 'Z' then (c as int + 32) as char else c
  }

  /** `s.toLowerCase()`: no upper-case letter is left, and each character
      equals the one it replaces when case is ignored. */
  function ToLower(s: string): (r: string)
    ensures |r| == |s|
    ensures forall i :: 0 <= i < |r| ==> !('A' <= r[i] <= 'Z')
    ensures forall i :: 0 <= i < |s| ==> LowerChar(r[i]) == LowerChar(s[i])
  {
    seq(|s|, i requires 0 <= i < |s| => LowerChar(s[i]))
  }

  /** `s.includes(t)`: `t` is a prefix of some suffix of `s`. */
  predicate Contains(s: string, t: string)
  {
    StartsWith(s, t) || (s != [] && Contains(s[1..], t))
  }

  /** `s.startsWith(p)` */
  predicate StartsWith(s: string, p: string)
  {
    p == [] || (s != [] && s[0] == p[0] && StartsWith(s[1..], p[1..]))
  }

  /** `t` occurs in `s` at position `k`. */
  predicate WindowAt(s: string, t: string, k: nat)
  {
    k + |t| <= |s| && s[k..k + |t|] == t
  }

  /** `StartsWith` is the usual prefix relation. */
  lemma {:induction false} StartsWithIsPrefix(s: string, p: string)
    ensures StartsWith(s, p) <==> WindowAt(s, p, 0)
  {
    if p != [] && s != [] {
      StartsWithIsPrefix(s[1..], p[1..]);
      if |p| <= |s| {
        assert s[..|p|] == [s[0]] + s[1..][..|p| - 1];
        assert p == [p[0]] + p[1..];
      }
    }
  }

  /** `Contains` holds exactly when some window of `s` equals `t`. */
  lemma {:induction false} ContainsIsWindow(s: string, t: string)
    ensures Contains(s, t) <==> exists k: nat :: WindowAt(s, t, k)
  {
    StartsWithIsPrefix(s, t);
    if s != [] {
      ContainsIsWindow(s[1..], t);
      if Contains(s[1..], t) {
        var k: nat :| WindowAt(s[1..], t, k);
        assert s[k + 1..k + 1 + |t|] == s[1..][k..k + |t|];
        assert WindowAt(s, t, k + 1);
      }
      if exists k: nat :: WindowAt(s, t, k) {
        var k: nat :| WindowAt(s, t, k);
        if k > 0 {
          assert s[1..][k - 1..k - 1 + |t|] == s[k..k + |t|];
          assert WindowAt(s[1..], t, k - 1);
        }
      }
    } else {
      if exists k: nat :: WindowAt(s, t, k) {
        var k: nat :| WindowAt(s, t, k);
        assert t == [];
      }
    }
  }

  /** A window equal to `t` witnesses `Contains`. */
  lemma ContainsAt(s: string, t: string, k: nat)
    requires WindowAt(s, t, k)
    ensures Contains(s, t)
  {
    ContainsIsWindow(s, t);
  }

  /** Every character of a contained string occurs in the containing one. */
  lemma ContainsChar(s: string, t: string, j: nat)
    requires Contains(s, t) && j < |t|
    ensures t[j] in s
  {
    ContainsIsWindow(s, t);
    var k: nat :| WindowAt(s, t, k);
    assert s[k + j] == s[k..k + |t|][j];
  }

  /** Lower-casing twice is lower-casing once. */
  lemma ToLowerIdempotent(s: string)
    ensures ToLower(ToLower(s)) == ToLower(s)
  {
  }

  /** A string lacking one of the characters of `t` does not contain `t`. */
  lemma LacksCharNotContains(s: string, t: string, j: nat)
    requires j < |t| && t[j] !in s
    ensures !Contains(s, t)
  {
    if Contains(s, t) {
      ContainsChar(s, t, j);
    }
  }

  /** A string never contains a longer one. */
  lemma {:induction false} LongerNotContained(s: string, t: string)
    requires |s| < |t|
    ensures !Contains(s, t)
  {
    if s != [] {
      LongerNotContained(s[1..], t);
    }
    assert !StartsWith(s, t) by {
      if StartsWith(s, t) {
        StartsWithIsPrefix(s, t);
      }
    }
  }
}
