/** Array.prototype.sort with a comparator, as the engine runs it: a stable sort.
    A comparator cmp(a, b) that returns a number is represented by the relation
    le(a, b) == (cmp(a, b) <= 0): "a may stay in front of b". The model sorts by
    insertion; SortIsTheStableSort shows that every arrangement that is ordered,
    and keeps equivalent elements in their original order, is this one, so the
    choice of algorithm does not show in any result. */
module StableSort {
  import opened Seqs

  /** The comparators the core passes are consistent: every pair is ordered
      one way or the other, and the order is transitive. */
  ghost predicate TotalPreorder<T(!new)>(le: (T, T) -> bool) {
    && (forall a, b :: le(a, b) || le(b, a))
    && (forall a, b, c :: le(a, b) && le(b, c) ==> le(a, c))
  }

  predicate Sorted<T>(s: seq<T>, le: (T, T) -> bool) {
    forall i, j :: 0 <= i < j < |s| ==> le(s[i], s[j])
  }

  /** x goes in front of the first element it may precede. */
  function Insert<T>(x: T, s: seq<T>, le: (T, T) -> bool): (r: seq<T>)
    ensures |r| == |s| + 1
    ensures multiset(r) == multiset(s) + multiset{x}
  {
    if s == [] then [x]
    else if le(x, s[0]) then [x] + s
    else
      assert s == [s[0]] + s[1..];
      [s[0]] + Insert(x, s[1..], le)
  }

  /** The sorted arrangement of s: a permutation of it. */
  function Sort<T>(s: seq<T>, le: (T, T) -> bool): (r: seq<T>)
    ensures |r| == |s|
    ensures multiset(r) == multiset(s)
  {
    if s == [] then []
    else
      assert s == [s[0]] + s[1..];
      Insert(s[0], Sort(s[1..], le), le)
  }

  lemma {:induction false} InsertSorted<T(!new)>(x: T, s: seq<T>, le: (T, T) -> bool)
    requires TotalPreorder(le) && Sorted(s, le)
    ensures Sorted(Insert(x, s, le), le)
  {
    if s != [] && !le(x, s[0]) {
      var rest := Insert(x, s[1..], le);
      InsertSorted(x, s[1..], le);
      forall j | 0 <= j < |rest| ensures le(s[0], rest[j]) {
        assert rest[j] in multiset(rest);
        if rest[j] != x {
          assert rest[j] in multiset(s[1..]);
          var k :| 0 <= k < |s[1..]| && s[1..][k] == rest[j];
          assert s[k + 1] == rest[j];
        }
      }
    }
  }

  /** The sort orders its result. */
  lemma {:induction false} SortSorted<T(!new)>(s: seq<T>, le: (T, T) -> bool)
    requires TotalPreorder(le)
    ensures Sorted(Sort(s, le), le)
  {
    if s != [] {
      SortSorted(s[1..], le);
      InsertSorted(s[0], Sort(s[1..], le), le);
    }
  }

  /** The elements of s that the comparator cannot tell apart from v, in their order in s. */
  function Ties<T>(s: seq<T>, v: T, le: (T, T) -> bool): (r: seq<T>)
    ensures |r| <= |s|
  {
    if s == [] then []
    else (if le(s[0], v) && le(v, s[0]) then [s[0]] else []) + Ties(s[1..], v, le)
  }

  lemma {:induction false} InsertTies<T(!new)>(x: T, s: seq<T>, v: T, le: (T, T) -> bool)
    requires TotalPreorder(le)
    ensures Ties(Insert(x, s, le), v, le) == (if le(x, v) && le(v, x) then [x] else []) + Ties(s, v, le)
  {
    if s == [] {
    } else if le(x, s[0]) {
      assert ([x] + s)[1..] == s;
    } else {
      InsertTies(x, s[1..], v, le);
      assert ([s[0]] + Insert(x, s[1..], le))[1..] == Insert(x, s[1..], le);
    }
  }

  /** The sort is stable: elements it cannot tell apart keep their input order. */
  lemma {:induction false} SortStable<T(!new)>(s: seq<T>, v: T, le: (T, T) -> bool)
    requires TotalPreorder(le)
    ensures Ties(Sort(s, le), v, le) == Ties(s, v, le)
  {
    if s != [] {
      SortStable(s[1..], v, le);
      InsertTies(s[0], Sort(s[1..], le), v, le);
    }
  }

  lemma {:induction false} TiesMember<T>(s: seq<T>, v: T, le: (T, T) -> bool, i: int)
    requires 0 <= i < |s| && le(s[i], v) && le(v, s[i])
    ensures Ties(s, v, le) != []
  {
    if i > 0 {
      TiesMember(s[1..], v, le, i - 1);
    }
  }

  lemma {:induction false} TiesElement<T>(s: seq<T>, v: T, le: (T, T) -> bool)
    requires Ties(s, v, le) != []
    ensures exists i :: 0 <= i < |s| && s[i] == Ties(s, v, le)[0] && le(s[i], v) && le(v, s[i])
  {
    if !(le(s[0], v) && le(v, s[0])) {
      TiesElement(s[1..], v, le);
      var i :| 0 <= i < |s[1..]| && s[1..][i] == Ties(s[1..], v, le)[0] && le(s[1..][i], v) && le(v, s[1..][i]);
      assert s[i + 1] == s[1..][i];
    }
  }

  /** Two ordered sequences that hold the same ties, in the same order, for
      every value, are equal. */
  lemma {:induction false} SortedWithSameTiesEqual<T(!new)>(a: seq<T>, b: seq<T>, le: (T, T) -> bool)
    requires TotalPreorder(le) && Sorted(a, le) && Sorted(b, le)
    requires forall v :: Ties(a, v, le) == Ties(b, v, le)
    ensures a == b
    decreases |a|
  {
    if a != [] {
      assert le(a[0], a[0]);
      TiesMember(a, a[0], le, 0);
    }
    if b != [] {
      assert le(b[0], b[0]);
      TiesMember(b, b[0], le, 0);
    }
    if a != [] && b != [] {
      // a[0] and b[0] are ties of each other.
      TiesElement(b, a[0], le);
      var j :| 0 <= j < |b| && b[j] == Ties(b, a[0], le)[0] && le(b[j], a[0]) && le(a[0], b[j]);
      assert j == 0 || le(b[0], b[j]);
      TiesElement(a, b[0], le);
      var i :| 0 <= i < |a| && a[i] == Ties(a, b[0], le)[0] && le(a[i], b[0]) && le(b[0], a[i]);
      assert i == 0 || le(a[0], a[i]);
      assert le(a[0], b[0]) && le(b[0], a[0]);
      // So both sequences start their ties of a[0] with their first element.
      assert Ties(a, a[0], le)[0] == a[0];
      assert Ties(b, a[0], le)[0] == b[0];
      assert a[0] == b[0];
      forall v ensures Ties(a[1..], v, le) == Ties(b[1..], v, le) {
        var head := if le(a[0], v) && le(v, a[0]) then [a[0]] else [];
        assert Ties(a, v, le) == head + Ties(a[1..], v, le);
        assert Ties(b, v, le) == head + Ties(b[1..], v, le);
        assert Ties(a[1..], v, le) == Ties(a, v, le)[|head|..];
        assert Ties(b[1..], v, le) == Ties(b, v, le)[|head|..];
      }
      SortedWithSameTiesEqual(a[1..], b[1..], le);
      assert a == [a[0]] + a[1..] && b == [b[0]] + b[1..];
    }
  }

  /** A subsequence of an ordered list is ordered. */
  lemma {:induction false} SortedSubsequence<T>(a: seq<T>, b: seq<T>, le: (T, T) -> bool)
    requires Subsequence(a, b) && Sorted(b, le)
    ensures Sorted(a, le)
    decreases |b|
  {
    if a != [] {
      if a[0] == b[0] {
        SortedSubsequence(a[1..], b[1..], le);
        SubsequenceMembers(a[1..], b[1..]);
        forall j | 1 <= j < |a| ensures le(a[0], a[j]) {
          assert a[j] == a[1..][j - 1];
          var m :| 0 <= m < |b[1..]| && b[1..][m] == a[j];
          assert b[m + 1] == a[j];
        }
        forall i, j | 0 <= i < j < |a| ensures le(a[i], a[j]) {
          if i > 0 {
            assert a[i] == a[1..][i - 1] && a[j] == a[1..][j - 1];
          }
        }
      } else {
        SortedSubsequence(a, b[1..], le);
      }
    }
  }

  /** Any ordered, stable rearrangement of s is Sort(s): the engine's sort and
      this one produce the same array. */
  lemma SortIsTheStableSort<T(!new)>(s: seq<T>, r: seq<T>, le: (T, T) -> bool)
    requires TotalPreorder(le) && Sorted(r, le)
    requires forall v :: Ties(r, v, le) == Ties(s, v, le)
    ensures r == Sort(s, le)
  {
    SortSorted(s, le);
    forall v ensures Ties(r, v, le) == Ties(Sort(s, le), v, le) {
      SortStable(s, v, le);
    }
    SortedWithSameTiesEqual(r, Sort(s, le), le);
  }

  /** The first k elements of the sorted sequence come before every element
      left out. */
  lemma TopPrefix<T(!new)>(s: seq<T>, k: nat, le: (T, T) -> bool)
    requires TotalPreorder(le)
    ensures forall i, j :: 0 <= i < k <= j < |Sort(s, le)| ==> le(Sort(s, le)[i], Sort(s, le)[j])
  {
    SortSorted(s, le);
  }
}
