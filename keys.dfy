/** The key order used by the encoders: Go's sort.Strings on the keys of
    a log entry's data, bytewise lexicographic, shorter prefix first. */
module Keys {
  import opened Buffers

  /** Go's `a <= b` on strings. */
  predicate LessEq(a: Bytes, b: Bytes) {
    if a == [] then true
    else if b == [] then false
    else a[0] < b[0] || (a[0] == b[0] && LessEq(a[1..], b[1..]))
  }

  predicate Less(a: Bytes, b: Bytes) {
    LessEq(a, b) && a != b
  }

  lemma {:induction false} LessEqReflexive(a: Bytes)
    ensures LessEq(a, a)
  {
    if a != [] {
      LessEqReflexive(a[1..]);
    }
  }

  lemma {:induction false} LessEqTotal(a: Bytes, b: Bytes)
    ensures LessEq(a, b) || LessEq(b, a)
  {
    if a != [] && b != [] && a[0] == b[0] {
      LessEqTotal(a[1..], b[1..]);
    }
  }

  lemma {:induction false} LessEqAntisymmetric(a: Bytes, b: Bytes)
    requires LessEq(a, b) && LessEq(b, a)
    ensures a == b
  {
    if a != [] && b != [] {
      LessEqAntisymmetric(a[1..], b[1..]);
      assert a == [a[0]] + a[1..] && b == [b[0]] + b[1..];
    }
  }

  lemma {:induction false} LessEqTransitive(a: Bytes, b: Bytes, c: Bytes)
    requires LessEq(a, b) && LessEq(b, c)
    ensures LessEq(a, c)
  {
    if a != [] && b != [] && c != [] && a[0] == b[0] && b[0] == c[0] {
      LessEqTransitive(a[1..], b[1..], c[1..]);
    }
  }

  predicate IsLeast(x: Bytes, s: set<Bytes>) {
    x in s && forall y :: y in s ==> LessEq(x, y)
  }

  lemma {:induction false} LeastExists(s: set<Bytes>)
    requires s != {}
    ensures exists x :: IsLeast(x, s)
    decreases |s|
  {
    var y :| y in s;
    LessEqReflexive(y);
    if s == {y} {
      assert IsLeast(y, s);
    } else {
      LeastExists(s - {y});
      var x :| IsLeast(x, s - {y});
      LessEqTotal(x, y);
      if LessEq(x, y) {
        assert IsLeast(x, s);
      } else {
        forall z | z in s ensures LessEq(y, z) {
          if z != y {
            LessEqTransitive(y, x, z);
          }
        }
        assert IsLeast(y, s);
      }
    }
  }

  lemma LeastUnique(s: set<Bytes>)
    ensures forall x, x' :: IsLeast(x, s) && IsLeast(x', s) ==> x == x'
  {
    forall x, x' | IsLeast(x, s) && IsLeast(x', s) ensures x == x' {
      LessEqAntisymmetric(x, x');
    }
  }

  predicate StrictlyAscending(ks: seq<Bytes>) {
    forall i, j :: 0 <= i < j < |ks| ==> Less(ks[i], ks[j])
  }

  /** The keys of a set in ascending order, each exactly once: what
      collecting a map's keys and calling sort.Strings yields. */
  function SortedKeys(s: set<Bytes>): (ks: seq<Bytes>)
    ensures StrictlyAscending(ks)
    ensures forall k :: k in ks <==> k in s
    decreases |s|
  {
    if s == {} then []
    else
      LeastExists(s);
      LeastUnique(s);
      var x :| IsLeast(x, s);
      var rest := SortedKeys(s - {x});
      assert forall j :: 0 <= j < |rest| ==> rest[j] in s - {x};
      [x] + rest
  }

  /** Each key is listed once. */
  lemma {:induction false} SortedKeysLength(s: set<Bytes>)
    ensures |SortedKeys(s)| == |s|
    decreases |s|
  {
    if s != {} {
      var ks := SortedKeys(s);
      var x := ks[0];
      assert ks[1..] == SortedKeys(s - {x});
      SortedKeysLength(s - {x});
    }
  }

  /** Two ascending enumerations of the same keys are the same sequence,
      so the sorted order is determined by the key set alone. */
  lemma {:induction false} AscendingUnique(a: seq<Bytes>, b: seq<Bytes>)
    requires StrictlyAscending(a) && StrictlyAscending(b)
    requires forall k :: k in a <==> k in b
    ensures a == b
  {
    if a != [] && b != [] {
      assert a[0] in b && b[0] in a;
      var i :| 0 <= i < |b| && b[i] == a[0];
      var j :| 0 <= j < |a| && a[j] == b[0];
      if i != 0 {
        assert Less(b[0], b[i]);
        if j != 0 {
          assert Less(a[0], a[j]);
          LessEqAntisymmetric(a[0], b[0]);
        }
      }
      assert a[0] == b[0];
      forall k ensures k in a[1..] <==> k in b[1..] {
        if k in a[1..] {
          var p :| 0 <= p < |a[1..]| && a[1..][p] == k;
          assert Less(a[0], a[p + 1]);
          assert k in a && k in b;
          var q :| 0 <= q < |b| && b[q] == k;
          assert q != 0;
          assert b[1..][q - 1] == k;
        }
        if k in b[1..] {
          var q :| 0 <= q < |b[1..]| && b[1..][q] == k;
          assert Less(b[0], b[q + 1]);
          assert k in b && k in a;
          var p :| 0 <= p < |a| && a[p] == k;
          assert p != 0;
          assert a[1..][p - 1] == k;
        }
      }
      AscendingUnique(a[1..], b[1..]);
      assert a == [a[0]] + a[1..] && b == [b[0]] + b[1..];
    } else {
      HeadIn(a);
      HeadIn(b);
    }
  }

  lemma HeadIn(s: seq<Bytes>)
    ensures s != [] ==> s[0] in s
  {
  }

  /** sort.Strings' result: the sorted keys are the only ascending
      enumeration of the set. */
  lemma SortedKeysCharacterized(s: set<Bytes>, ks: seq<Bytes>)
    requires StrictlyAscending(ks)
    requires forall k :: k in ks <==> k in s
    ensures SortedKeys(s) == ks
  {
    AscendingUnique(SortedKeys(s), ks);
  }
}
