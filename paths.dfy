/** File paths and the order in which an ordered set of them is visited.
    A `std::set<FilePath>` hands its elements out in increasing order; `Elements`
    is that enumeration, and `EnumerationIsUnique` shows it is the only one. */
module Paths {

  type FilePath = string

  /** Character-wise lexicographic order on path text (reflexive). */
  predicate PathLe(a: FilePath, b: FilePath)
    decreases |a|
  {
    |a| == 0 || (|b| > 0 && (a[0] < b[0] || (a[0] == b[0] && PathLe(a[1..], b[1..]))))
  }

  predicate PathLt(a: FilePath, b: FilePath)
  {
    PathLe(a, b) && a != b
  }

  lemma {:induction false} PathLeReflexive(a: FilePath)
    ensures PathLe(a, a)
    decreases |a|
  {
    if |a| > 0 {
      PathLeReflexive(a[1..]);
    }
  }

  lemma {:induction false} PathLeAntisymmetric(a: FilePath, b: FilePath)
    requires PathLe(a, b) && PathLe(b, a)
    ensures a == b
    decreases |a|
  {
    if |a| > 0 {
      PathLeAntisymmetric(a[1..], b[1..]);
      assert a == [a[0]] + a[1..];
      assert b == [b[0]] + b[1..];
    }
  }

  lemma {:induction false} PathLeTransitive(a: FilePath, b: FilePath, c: FilePath)
    requires PathLe(a, b) && PathLe(b, c)
    ensures PathLe(a, c)
    decreases |a|
  {
    if |a| > 0 && a[0] == b[0] && b[0] == c[0] {
      PathLeTransitive(a[1..], b[1..], c[1..]);
    }
  }

  lemma {:induction false} PathLeTotal(a: FilePath, b: FilePath)
    ensures PathLe(a, b) || PathLe(b, a)
    decreases |a|
  {
    if |a| > 0 && |b| > 0 && a[0] == b[0] {
      PathLeTotal(a[1..], b[1..]);
    }
  }

  /** `m` is the first element of `s` in path order. */
  predicate IsLeast(m: FilePath, s: set<FilePath>)
  {
    m in s && forall x :: x in s ==> PathLe(m, x)
  }

  lemma {:induction false} LeastExists(s: set<FilePath>)
    requires s != {}
    ensures exists m :: IsLeast(m, s)
    decreases s
  {
    var x :| x in s;
    if s - {x} == {} {
      assert s == {x};
      PathLeReflexive(x);
      assert IsLeast(x, s);
    } else {
      LeastExists(s - {x});
      var m :| IsLeast(m, s - {x});
      PathLeTotal(m, x);
      if PathLe(m, x) {
        assert IsLeast(m, s);
      } else {
        forall y | y in s ensures PathLe(x, y) {
          if y == x {
            PathLeReflexive(x);
          } else {
            PathLeTransitive(x, m, y);
          }
        }
        assert IsLeast(x, s);
      }
    }
  }

  lemma LeastUnique(s: set<FilePath>)
    ensures forall m, n :: IsLeast(m, s) && IsLeast(n, s) ==> m == n
  {
    forall m, n | IsLeast(m, s) && IsLeast(n, s) ensures m == n {
      PathLeAntisymmetric(m, n);
    }
  }

  /** The first element of a non-empty set in path order. */
  function Least(s: set<FilePath>): (m: FilePath)
    requires s != {}
    ensures IsLeast(m, s)
  {
    LeastExists(s);
    LeastUnique(s);
    var m :| IsLeast(m, s);
    m
  }

  predicate StrictlySorted(r: seq<FilePath>)
  {
    forall i, j :: 0 <= i < j < |r| ==> PathLt(r[i], r[j])
  }

  /** The elements of `s`, each once (see `ElementsMembers`), in increasing
      path order (see `ElementsSorted`): the order in which iterating an
      ordered set visits them. */
  function Elements(s: set<FilePath>): (r: seq<FilePath>)
    ensures |r| == |s|
    decreases s
  {
    if s == {} then []
    else
      var m := Least(s);
      [m] + Elements(s - {m})
  }

  lemma {:induction false} ElementsMembers(s: set<FilePath>)
    ensures forall x :: x in Elements(s) <==> x in s
    decreases s
  {
    if s != {} {
      var m := Least(s);
      ElementsMembers(s - {m});
      assert Elements(s) == [m] + Elements(s - {m});
    }
  }

  lemma {:induction false} ElementsSorted(s: set<FilePath>)
    ensures StrictlySorted(Elements(s))
    decreases s
  {
    if s != {} {
      var m := Least(s);
      var rest := Elements(s - {m});
      ElementsSorted(s - {m});
      ElementsMembers(s - {m});
      assert Elements(s) == [m] + rest;
      assert forall j :: 0 <= j < |rest| ==> PathLt(m, rest[j]) by {
        forall j | 0 <= j < |rest| ensures PathLt(m, rest[j]) {
          assert rest[j] in s - {m};
        }
      }
    }
  }

  /** A strictly sorted sequence is determined by its elements, so the
      enumeration of a set is deterministic. */
  lemma {:induction false} EnumerationIsUnique(a: seq<FilePath>, b: seq<FilePath>)
    requires StrictlySorted(a) && StrictlySorted(b)
    requires forall x :: x in a <==> x in b
    ensures a == b
    decreases |a|
  {
    if a != [] { assert a[0] in b; }
    if b != [] { assert b[0] in a; }
    if a != [] && b != [] {
      assert PathLe(a[0], b[0]) by {
        assert b[0] in b;
        var k :| 0 <= k < |a| && a[k] == b[0];
        if k > 0 { assert PathLt(a[0], a[k]); } else { PathLeReflexive(a[0]); }
      }
      assert PathLe(b[0], a[0]) by {
        assert a[0] in a;
        var k :| 0 <= k < |b| && b[k] == a[0];
        if k > 0 { assert PathLt(b[0], b[k]); } else { PathLeReflexive(b[0]); }
      }
      PathLeAntisymmetric(a[0], b[0]);
      forall x ensures x in a[1..] <==> x in b[1..] {
        if x in a[1..] {
          var i :| 1 <= i < |a| && a[i] == x;
          assert PathLt(a[0], a[i]);
          assert x in b;
          var j :| 0 <= j < |b| && b[j] == x;
          assert j != 0;
        }
        if x in b[1..] {
          var i :| 1 <= i < |b| && b[i] == x;
          assert PathLt(b[0], b[i]);
          assert x in a;
          var j :| 0 <= j < |a| && a[j] == x;
          assert j != 0;
        }
      }
      EnumerationIsUnique(a[1..], b[1..]);
      assert a == [a[0]] + a[1..];
      assert b == [b[0]] + b[1..];
    }
  }
}
