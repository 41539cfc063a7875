/** `Array.prototype.filter` on sequences: keeps, in order, the elements that pass. */
module Seqs {

  function Filter<T>(s: seq<T>, p: T -> bool): (r: seq<T>)
    ensures |r| <= |s|
    ensures forall k :: 0 <= k < |r| ==> r[k] in s && p(r[k])
    ensures forall k :: 0 <= k < |s| && p(s[k]) ==> s[k] in r
    ensures (forall k :: 0 <= k < |s| ==> p(s[k])) ==> r == s
  {
    if s == [] then []
    else if p(s[0]) then [s[0]] + Filter(s[1..], p)
    else Filter(s[1..], p)
  }

  /** Filtering distributes over concatenation, so the relative order of the kept
      elements is the order they had. */
  lemma {:induction false} FilterAppend<T>(a: seq<T>, b: seq<T>, p: T -> bool)
    ensures Filter(a + b, p) == Filter(a, p) + Filter(b, p)
  {
    if a == [] {
      assert a + b == b;
    } else {
      assert (a + b)[1..] == a[1..] + b;
      FilterAppend(a[1..], b, p);
    }
  }

  /** When exactly the element at k fails the test, filtering deletes position k
      and keeps everything else in order. */
  lemma {:induction false} FilterDeletesOne<T>(s: seq<T>, p: T -> bool, k: nat)
    requires k < |s| && !p(s[k])
    requires forall j :: 0 <= j < |s| && j != k ==> p(s[j])
    ensures Filter(s, p) == s[..k] + s[k + 1..]
  {
    var t := s[1..];
    if k == 0 {
      assert Filter(t, p) == t by {
        assert forall j :: 0 <= j < |t| ==> t[j] == s[j + 1];
      }
    } else {
      assert Filter(t, p) == t[..k - 1] + t[k..] by {
        assert forall j :: 0 <= j < |t| && j != k - 1 ==> t[j] == s[j + 1];
        FilterDeletesOne(t, p, k - 1);
      }
      assert s[..k] + s[k + 1..] == [s[0]] + (t[..k - 1] + t[k..]);
    }
  }
}
