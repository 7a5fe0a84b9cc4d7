// The order of strings.

module Strings {

  /** Strings compare character by character, a prefix first. */
  predicate StrLess(a: string, b: string) {
    b != "" && (a == "" || a[0] < b[0] || (a[0] == b[0] && StrLess(a[1..], b[1..])))
  }

  /** The first k characters agree. */
  ghost predicate Agree(a: string, b: string, k: nat) {
    k <= |a| && k <= |b| && forall i :: 0 <= i < k ==> a[i] == b[i]
  }

  /** At the first difference the one with the smaller character, or with none
      left, is the smaller. */
  ghost predicate FirstDiffers(a: string, b: string) {
    exists k: nat :: Agree(a, b, k) && k < |b| && (k == |a| || a[k] < b[k])
  }

  lemma {:induction false} StrLessIs(a: string, b: string)
    ensures StrLess(a, b) <==> FirstDiffers(a, b)
  {
    assert Agree(a, b, 0);
    if a != "" && b != "" {
      StrLessIs(a[1..], b[1..]);
      if FirstDiffers(a, b) {
        var k: nat :| Agree(a, b, k) && k < |b| && (k == |a| || a[k] < b[k]);
        if k > 0 { assert Agree(a[1..], b[1..], k - 1); }
      }
      if a[0] == b[0] && FirstDiffers(a[1..], b[1..]) {
        var k: nat :| Agree(a[1..], b[1..], k) && k < |b| - 1 && (k == |a| - 1 || a[1..][k] < b[1..][k]);
        assert Agree(a, b, k + 1);
      }
    }
  }

  lemma {:induction false} StrTotal(a: string, b: string)
    ensures a == b || StrLess(a, b) || StrLess(b, a)
    ensures StrLess(a, b) ==> !StrLess(b, a) && a != b
  {
    if a != "" && b != "" && a[0] == b[0] {
      StrTotal(a[1..], b[1..]);
      assert a == [a[0]] + a[1..] && b == [b[0]] + b[1..];
    }
  }

  lemma {:induction false} StrTransitive(a: string, b: string, c: string)
    requires StrLess(a, b) && StrLess(b, c)
    ensures StrLess(a, c)
  {
    if a != "" && b != "" && c != "" && a[0] == b[0] && b[0] == c[0] {
      StrTransitive(a[1..], b[1..], c[1..]);
    }
  }
}
