/** The ordering every sorted query of the store uses: an integer column first
    (depth, or the queue's creation time), a text column to break ties. */
module Order {

  /** Text columns compare lexicographically. */
  predicate TextLess(a: string, b: string)
  {
    if b == [] then false
    else if a == [] then true
    else a[0] < b[0] || (a[0] == b[0] && TextLess(a[1..], b[1..]))
  }

  /** The two texts agree up to `n`, where the first ends or has the smaller
      character. */
  predicate DiffersAt(a: string, b: string, n: nat)
  {
    && n <= |a| && n < |b| && a[..n] == b[..n]
    && (n == |a| || a[n] < b[n])
  }

  /** A text comes first if and only if it is a proper prefix of the other, or has
      the smaller character where the two first differ. */
  lemma {:induction false} TextLessIff(a: string, b: string)
    ensures TextLess(a, b) <==> exists n: nat :: DiffersAt(a, b, n)
  {
    if a == [] || b == [] {
      assert b != [] ==> DiffersAt(a, b, 0);
    } else {
      TextLessIff(a[1..], b[1..]);
      if n: nat :| DiffersAt(a, b, n) {
        assert n > 0 ==> a[..n][0] == b[..n][0] && a[..n][1..] == a[1..][..n - 1] && b[..n][1..] == b[1..][..n - 1];
        assert n > 0 ==> DiffersAt(a[1..], b[1..], n - 1);
      }
      if a[0] < b[0] {
        assert DiffersAt(a, b, 0);
      } else if a[0] == b[0] && TextLess(a[1..], b[1..]) {
        var n: nat :| DiffersAt(a[1..], b[1..], n);
        assert a[..n + 1] == [a[0]] + a[1..][..n] && b[..n + 1] == [b[0]] + b[1..][..n];
        assert DiffersAt(a, b, n + 1);
      }
    }
  }

  lemma {:induction false} TextLessIrreflexive(a: string)
    ensures !TextLess(a, a)
  {
    if a != [] {
      TextLessIrreflexive(a[1..]);
    }
  }

  lemma {:induction false} TextLessTransitive(a: string, b: string, c: string)
    requires TextLess(a, b) && TextLess(b, c)
    ensures TextLess(a, c)
  {
    if a != [] && a[0] == b[0] == c[0] {
      TextLessTransitive(a[1..], b[1..], c[1..]);
    }
  }

  lemma {:induction false} TextLessTotal(a: string, b: string)
    ensures a == b || TextLess(a, b) || TextLess(b, a)
  {
    if a != [] && b != [] && a[0] == b[0] {
      TextLessTotal(a[1..], b[1..]);
      assert a == [a[0]] + a[1..] && b == [b[0]] + b[1..];
    }
  }

  datatype Rank = Rank(n: int, id: string)

  predicate Below(a: Rank, b: Rank)
  {
    a.n < b.n || (a.n == b.n && TextLess(a.id, b.id))
  }

  lemma BelowIrreflexive(a: Rank)
    ensures !Below(a, a)
  {
    TextLessIrreflexive(a.id);
  }

  lemma BelowTransitive(a: Rank, b: Rank, c: Rank)
    requires Below(a, b) && Below(b, c)
    ensures Below(a, c)
  {
    if a.n == b.n == c.n {
      TextLessTransitive(a.id, b.id, c.id);
    }
  }

  lemma BelowTotal(a: Rank, b: Rank)
    ensures a == b || Below(a, b) || Below(b, a)
  {
    TextLessTotal(a.id, b.id);
  }

  lemma BelowAsymmetric(a: Rank, b: Rank)
    requires Below(a, b)
    ensures !Below(b, a)
  {
    if Below(b, a) {
      BelowTransitive(a, b, a);
      BelowIrreflexive(a);
    }
  }

  predicate Ascending(r: seq<Rank>)
  {
    forall i, j | 0 <= i < j < |r| :: Below(r[i], r[j])
  }

  predicate Greatest(m: Rank, s: set<Rank>)
  {
    m in s && forall q | q in s :: q == m || Below(q, m)
  }

  lemma {:induction false} GreatestExists(s: set<Rank>) returns (m: Rank)
    requires s != {}
    ensures Greatest(m, s)
    decreases s
  {
    var x :| x in s;
    if s == {x} {
      m := x;
    } else {
      var top := GreatestExists(s - {x});
      BelowTotal(x, top);
      if Below(top, x) {
        m := x;
        forall q | q in s ensures q == m || Below(q, m) {
          if q != x && q != top {
            BelowTransitive(q, top, x);
          }
        }
      } else {
        m := top;
      }
    }
  }

  lemma GreatestUnique(s: set<Rank>, a: Rank, b: Rank)
    requires Greatest(a, s) && Greatest(b, s)
    ensures a == b
  {
    if a != b {
      BelowAsymmetric(a, b);
    }
  }

  lemma GreatestExistsUniquely(s: set<Rank>)
    requires s != {}
    ensures exists m :: Greatest(m, s)
    ensures forall a, b | Greatest(a, s) && Greatest(b, s) :: a == b
  {
    var m := GreatestExists(s);
    forall a, b | Greatest(a, s) && Greatest(b, s) ensures a == b {
      GreatestUnique(s, a, b);
    }
  }

  /** What `ORDER BY n ASC, id ASC` returns for a set of ranks. */
  function Ordered(s: set<Rank>): (r: seq<Rank>)
    ensures Ascending(r)
    ensures forall q :: q in r <==> q in s
    ensures |r| == |s|
  {
    if s == {} then []
    else
      GreatestExistsUniquely(s);
      var m :| m in s && Greatest(m, s);
      assert s == (s - {m}) + {m};
      Ordered(s - {m}) + [m]
  }

  lemma WithoutLast(a: seq<Rank>, q: Rank)
    requires Ascending(a) && a != []
    ensures q in a[..|a| - 1] <==> q in a && q != a[|a| - 1]
  {
    var front, last := a[..|a| - 1], a[|a| - 1];
    if q in front {
      var i :| 0 <= i < |front| && front[i] == q;
      assert a[i] == q && Below(q, last);
      BelowIrreflexive(last);
    }
  }

  lemma LastAbove(a: seq<Rank>, q: Rank)
    requires Ascending(a) && q in a
    ensures q == a[|a| - 1] || Below(q, a[|a| - 1])
  {
    var i :| 0 <= i < |a| && a[i] == q;
  }

  lemma SameLast(a: seq<Rank>, b: seq<Rank>)
    requires Ascending(a) && Ascending(b) && a != [] && b != []
    requires forall q :: q in a <==> q in b
    ensures a[|a| - 1] == b[|b| - 1]
  {
    hide Below, Ascending;
    var x, y := a[|a| - 1], b[|b| - 1];
    assert x in a && y in b;
    LastAbove(b, x);
    LastAbove(a, y);
    if x != y {
      BelowAsymmetric(x, y);
    }
  }

  /** A sorted list is determined by its members, so any query plan that returns
      them in order returns exactly `Ordered`. */
  lemma {:induction false} AscendingUnique(a: seq<Rank>, b: seq<Rank>)
    requires Ascending(a) && Ascending(b)
    requires forall q :: q in a <==> q in b
    ensures a == b
    decreases |a|
  {
    hide Below;
    assert |a| > 0 ==> a[0] in a;
    assert |b| > 0 ==> b[0] in b;
    if a != [] && b != [] {
      SameLast(a, b);
      var a', b' := a[..|a| - 1], b[..|b| - 1];
      forall q ensures q in a' <==> q in b' {
        WithoutLast(a, q);
        WithoutLast(b, q);
      }
      AscendingUnique(a', b');
      assert a == a' + [a[|a| - 1]] && b == b' + [b[|b| - 1]];
    }
  }

  /** An element of an ascending list occurs once: membership of a slice is a
      question about positions. */
  lemma AscendingPositions(r: seq<Rank>, i: nat, j: nat)
    requires Ascending(r) && i < |r| && j < |r| && r[i] == r[j]
    ensures i == j
  {
    if i < j {
      BelowIrreflexive(r[i]);
    } else if j < i {
      BelowIrreflexive(r[j]);
    }
  }
}
