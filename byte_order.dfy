/** Go's string order (byte-wise lexicographic) and the sorted key list `sort.Strings` yields. */
module ByteOrder {
  import opened Utf8

  /** a < b in Go's byte-wise string comparison. */
  predicate Less(a: Bytes, b: Bytes) {
    if |a| == 0 then |b| > 0
    else if |b| == 0 then false
    else a[0] < b[0] || (a[0] == b[0] && Less(a[1..], b[1..]))
  }

  lemma {:induction false} LessTotal(a: Bytes, b: Bytes)
    ensures a == b || Less(a, b) || Less(b, a)
  {
    if |a| > 0 && |b| > 0 && a[0] == b[0] {
      LessTotal(a[1..], b[1..]);
      assert a == [a[0]] + a[1..];
      assert b == [b[0]] + b[1..];
    }
  }

  lemma {:induction false} LessAsymmetric(a: Bytes, b: Bytes)
    ensures !(Less(a, b) && Less(b, a))
  {
    if |a| > 0 && |b| > 0 && a[0] == b[0] {
      LessAsymmetric(a[1..], b[1..]);
    }
  }

  lemma {:induction false} LessTransitive(a: Bytes, b: Bytes, c: Bytes)
    requires Less(a, b) && Less(b, c)
    ensures Less(a, c)
  {
    if |a| > 0 && |b| > 0 && |c| > 0 && a[0] == b[0] && b[0] == c[0] {
      LessTransitive(a[1..], b[1..], c[1..]);
    }
  }

  predicate IsLeast(s: set<Bytes>, m: Bytes) {
    m in s && forall k :: k in s && k != m ==> Less(m, k)
  }

  lemma {:induction false} LeastExists(s: set<Bytes>)
    requires s != {}
    ensures exists m :: IsLeast(s, m)
    decreases |s|
  {
    var x :| x in s;
    if s != {x} {
      LeastExists(s - {x});
      var m :| IsLeast(s - {x}, m);
      LessTotal(x, m);
      if Less(x, m) {
        forall k | k in s && k != x ensures Less(x, k) {
          if k != m { LessTransitive(x, m, k); }
        }
        assert IsLeast(s, x);
      } else {
        assert IsLeast(s, m);
      }
    } else {
      assert IsLeast(s, x);
    }
  }

  lemma LeastUnique(s: set<Bytes>)
    ensures forall m1, m2 :: IsLeast(s, m1) && IsLeast(s, m2) ==> m1 == m2
  {
    forall m1, m2 | IsLeast(s, m1) && IsLeast(s, m2) ensures m1 == m2 {
      if m1 != m2 { LessAsymmetric(m1, m2); }
    }
  }

  /** The least element of a finite non-empty set of byte strings. */
  function Least(s: set<Bytes>): (m: Bytes)
    requires s != {}
    ensures m in s
    ensures forall k :: k in s && k != m ==> Less(m, k)
  {
    LeastExists(s);
    LeastUnique(s);
    var m :| IsLeast(s, m);
    m
  }

  /** The keys of a set in increasing order: what sorting a map's keys gives. */
  function Sorted(s: set<Bytes>): (r: seq<Bytes>)
    ensures |r| == |s|
    ensures forall k :: k in s <==> k in r
    ensures forall i, j :: 0 <= i < j < |r| ==> Less(r[i], r[j])
    decreases |s|
  {
    if s == {} then []
    else
      var m := Least(s);
      var rest := Sorted(s - {m});
      assert forall i :: 0 <= i < |rest| ==> rest[i] in s - {m};
      [m] + rest
  }
}
