/**
 * The leaderboard order, on snapshots of the users' totals: users sorted by
 * total points, highest first, with users of equal points kept in the order
 * they had (Java's List.sort is stable).
 */
module Leaderboard {
  import opened Users

  /** A user together with the total it held when the snapshot was taken. */
  datatype Standing = Standing(user: User, points: int)

  /** Non-increasing points along the sequence. */
  predicate SortedByPoints(s: seq<Standing>)
  {
    forall i, j :: 0 <= i < j < |s| ==> s[i].points >= s[j].points
  }

  /** The entries holding exactly `points`, in the order they appear. */
  function WithPoints(s: seq<Standing>, points: int): seq<Standing>
  {
    if s == [] then []
    else if s[0].points == points then [s[0]] + WithPoints(s[1..], points)
    else WithPoints(s[1..], points)
  }

  /** Sum of the totals; a user listed twice counts twice. */
  function SumPoints(s: seq<Standing>): int
  {
    if s == [] then 0 else s[0].points + SumPoints(s[1..])
  }

  /** Places e before the first entry with strictly fewer points, after all those with as many or more. */
  function Insert(e: Standing, s: seq<Standing>): seq<Standing>
  {
    if s == [] then [e]
    else if s[0].points < e.points then [e] + s
    else [s[0]] + Insert(e, s[1..])
  }

  /** The users of a snapshot, in order. */
  function UsersOf(s: seq<Standing>): (r: seq<User>)
    ensures |r| == |s|
  {
    if s == [] then [] else [s[0].user] + UsersOf(s[1..])
  }

  /** Insertion sort, taking entries front to back: the stable descending order. */
  function SortByPoints(s: seq<Standing>): seq<Standing>
  {
    if s == [] then [] else Insert(s[|s| - 1], SortByPoints(s[..|s| - 1]))
  }

  /** Inserting adds exactly the one entry. */
  lemma {:induction false} InsertMultiset(e: Standing, s: seq<Standing>)
    ensures multiset(Insert(e, s)) == multiset(s) + multiset{e}
  {
    if s != [] && s[0].points >= e.points {
      InsertMultiset(e, s[1..]);
      assert s == [s[0]] + s[1..];
    }
  }

  /** The sort is a permutation of its input. */
  lemma {:induction false} SortPermutes(s: seq<Standing>)
    ensures multiset(SortByPoints(s)) == multiset(s)
  {
    if s != [] {
      var front, last := s[..|s| - 1], s[|s| - 1];
      SortPermutes(front);
      InsertMultiset(last, SortByPoints(front));
      assert s == front + [last];
    }
  }

  lemma {:induction false} InsertSorted(e: Standing, s: seq<Standing>)
    requires SortedByPoints(s)
    ensures SortedByPoints(Insert(e, s))
  {
    if s != [] && s[0].points >= e.points {
      InsertSorted(e, s[1..]);
      var r := Insert(e, s[1..]);
      InsertMultiset(e, s[1..]);
      forall x | x in r ensures x.points <= s[0].points {
        assert x in multiset(r);
      }
    }
  }

  lemma {:induction false} WithPointsAppend(a: seq<Standing>, b: seq<Standing>, points: int)
    ensures WithPoints(a + b, points) == WithPoints(a, points) + WithPoints(b, points)
  {
    if a == [] {
      assert a + b == b;
    } else {
      WithPointsAppend(a[1..], b, points);
      assert (a + b)[1..] == a[1..] + b;
    }
  }

  lemma {:induction false} WithPointsOfHead(s: seq<Standing>)
    requires s != []
    ensures WithPoints(s, s[0].points) != []
  {
  }

  /** Splitting off the last entry. */
  lemma {:induction false} WithPointsSnoc(s: seq<Standing>, points: int)
    requires s != []
    ensures WithPoints(s, points)
      == WithPoints(s[..|s| - 1], points) + (if s[|s| - 1].points == points then [s[|s| - 1]] else [])
  {
    var front, last := s[..|s| - 1], s[|s| - 1];
    WithPointsAppend(front, [last], points);
    assert [last][1..] == [];
    assert front + [last] == s;
  }

  /** In a sorted sequence whose head has fewer than `points`, no entry has exactly `points`. */
  lemma {:induction false} WithPointsBelow(s: seq<Standing>, points: int)
    requires SortedByPoints(s) && s != [] && s[0].points < points
    ensures WithPoints(s, points) == []
  {
    if |s| > 1 {
      WithPointsBelow(s[1..], points);
    }
  }

  /** Inserting e into a sorted sequence puts it after every entry with the same points. */
  lemma {:induction false} WithPointsInsert(e: Standing, s: seq<Standing>, points: int)
    requires SortedByPoints(s)
    ensures WithPoints(Insert(e, s), points)
      == WithPoints(s, points) + (if e.points == points then [e] else [])
  {
    var r := Insert(e, s);
    if s == [] {
      assert r == [e] && r[1..] == [];
    } else if s[0].points < e.points {
      assert r == [e] + s && r[0] == e && r[1..] == s;
      if e.points == points {
        WithPointsBelow(s, points);
      }
    } else {
      assert r[0] == s[0] && r[1..] == Insert(e, s[1..]);
      WithPointsInsert(e, s[1..], points);
    }
  }

  /** The sort yields non-increasing points. */
  lemma {:induction false} SortIsSorted(s: seq<Standing>)
    ensures SortedByPoints(SortByPoints(s))
  {
    if s != [] {
      SortIsSorted(s[..|s| - 1]);
      InsertSorted(s[|s| - 1], SortByPoints(s[..|s| - 1]));
    }
  }

  /** Stability: for every total, the entries holding it keep their relative order. */
  lemma {:induction false} SortIsStable(s: seq<Standing>, points: int)
    ensures WithPoints(SortByPoints(s), points) == WithPoints(s, points)
  {
    if s != [] {
      var front, last := s[..|s| - 1], s[|s| - 1];
      var sortedFront := SortByPoints(front);
      var tail := if last.points == points then [last] else [];
      assert SortByPoints(s) == Insert(last, sortedFront);
      assert WithPoints(Insert(last, sortedFront), points) == WithPoints(sortedFront, points) + tail by {
        SortIsSorted(front);
        WithPointsInsert(last, sortedFront, points);
      }
      assert WithPoints(sortedFront, points) == WithPoints(front, points) by {
        SortIsStable(front, points);
      }
      WithPointsSnoc(s, points);
    }
  }

  /**
   * A sorted sequence is determined by its per-total subsequences: a sorted
   * t with the same entries-per-total as s equals s. So every stable
   * descending sort, Java's TimSort included, agrees with SortByPoints.
   */
  lemma {:induction false} SortedUnique(s: seq<Standing>, t: seq<Standing>)
    requires SortedByPoints(s) && SortedByPoints(t)
    requires forall p :: WithPoints(s, p) == WithPoints(t, p)
    ensures s == t
    decreases |s| + |t|
  {
    if s != [] {
      WithPointsOfHead(s);
      assert WithPoints(t, s[0].points) != [];
    }
    if t != [] {
      WithPointsOfHead(t);
      assert WithPoints(s, t[0].points) != [];
    }
    if s != [] {
      var top := if s[0].points >= t[0].points then s[0].points else t[0].points;
      assert WithPoints(s, top) == WithPoints(t, top);
      if s[0].points < top {
        WithPointsBelow(s, top);
        assert false;
      }
      if t[0].points < top {
        WithPointsBelow(t, top);
        assert false;
      }
      assert WithPoints(s, top) == [s[0]] + WithPoints(s[1..], top);
      assert WithPoints(t, top) == [t[0]] + WithPoints(t[1..], top);
      assert s[0] == WithPoints(s, top)[0] == t[0];
      forall p ensures WithPoints(s[1..], p) == WithPoints(t[1..], p) {
        assert WithPoints(s, p) == WithPoints(t, p);
        if s[0].points == p {
          assert WithPoints(s, p) == [s[0]] + WithPoints(s[1..], p);
          assert WithPoints(t, p) == [t[0]] + WithPoints(t[1..], p);
          assert WithPoints(s[1..], p) == WithPoints(s, p)[1..];
        }
      }
      SortedUnique(s[1..], t[1..]);
      assert s == [s[0]] + s[1..];
      assert t == [t[0]] + t[1..];
    }
  }

  lemma {:induction false} SumPointsAppend(a: seq<Standing>, b: seq<Standing>)
    ensures SumPoints(a + b) == SumPoints(a) + SumPoints(b)
  {
    if a == [] {
      assert a + b == b;
    } else {
      SumPointsAppend(a[1..], b);
      assert (a + b)[1..] == a[1..] + b;
    }
  }

  lemma {:induction false} SumPointsInsert(e: Standing, s: seq<Standing>)
    ensures SumPoints(Insert(e, s)) == e.points + SumPoints(s)
  {
    if s != [] && s[0].points >= e.points {
      SumPointsInsert(e, s[1..]);
    }
  }

  /** Entries none of which is negative sum to a non-negative total. */
  lemma {:induction false} SumPointsNonNegative(s: seq<Standing>)
    ensures (forall i :: 0 <= i < |s| ==> s[i].points >= 0) ==> SumPoints(s) >= 0
  {
    if s != [] {
      SumPointsNonNegative(s[1..]);
      assert forall i :: 0 <= i < |s| - 1 ==> s[1..][i] == s[i + 1];
    }
  }

  /** Re-ordering the leaderboard does not change the sum of the points. */
  lemma {:induction false} SortKeepsSum(s: seq<Standing>)
    ensures SumPoints(SortByPoints(s)) == SumPoints(s)
  {
    if s != [] {
      var front, last := s[..|s| - 1], s[|s| - 1];
      assert SumPoints(SortByPoints(s)) == last.points + SumPoints(SortByPoints(front)) by {
        SumPointsInsert(last, SortByPoints(front));
      }
      SortKeepsSum(front);
      assert SumPoints(s) == SumPoints(front) + last.points by {
        assert s == front + [last];
        SumPointsAppend(front, [last]);
      }
    }
  }

  lemma {:induction false} InsertPermutesUsers(e: Standing, s: seq<Standing>)
    ensures multiset(UsersOf(Insert(e, s))) == multiset(UsersOf(s)) + multiset{e.user}
  {
    if s != [] && s[0].points >= e.points {
      var r := Insert(e, s);
      assert r[0] == s[0] && r[1..] == Insert(e, s[1..]);
      InsertPermutesUsers(e, s[1..]);
    } else if s != [] {
      var r := Insert(e, s);
      assert r[0] == e && r[1..] == s;
    }
  }

  lemma {:induction false} UsersOfAt(s: seq<Standing>, i: nat)
    requires i < |s|
    ensures UsersOf(s)[i] == s[i].user
  {
    if i > 0 {
      UsersOfAt(s[1..], i - 1);
    }
  }

  lemma {:induction false} UsersOfAppend(a: seq<Standing>, b: seq<Standing>)
    ensures UsersOf(a + b) == UsersOf(a) + UsersOf(b)
  {
    forall i | 0 <= i < |a| + |b| ensures UsersOf(a + b)[i] == (UsersOf(a) + UsersOf(b))[i] {
      UsersOfAt(a + b, i);
      if i < |a| {
        UsersOfAt(a, i);
      } else {
        UsersOfAt(b, i - |a|);
      }
    }
  }

  lemma {:induction false} UsersOfSnoc(s: seq<Standing>)
    requires s != []
    ensures UsersOf(s) == UsersOf(s[..|s| - 1]) + [s[|s| - 1].user]
  {
    assert s == s[..|s| - 1] + [s[|s| - 1]];
    UsersOfAppend(s[..|s| - 1], [s[|s| - 1]]);
    assert UsersOf([s[|s| - 1]]) == [s[|s| - 1].user];
  }

  /** The sort re-orders the users and neither drops nor duplicates any. */
  lemma {:induction false} SortPermutesUsers(s: seq<Standing>)
    ensures multiset(UsersOf(SortByPoints(s))) == multiset(UsersOf(s))
  {
    if s != [] {
      var front, last := s[..|s| - 1], s[|s| - 1];
      var sortedFront := SortByPoints(front);
      assert SortByPoints(s) == Insert(last, sortedFront);
      SortPermutesUsers(front);
      InsertPermutesUsers(last, sortedFront);
      UsersOfSnoc(s);
      assert multiset(UsersOf(s)) == multiset(UsersOf(front)) + multiset{last.user};
    }
  }

  /**
   * A worked example: totals 20, 20 and 5, in that order, stay in that order;
   * the two 20-point users are not swapped.
   */
  lemma {:induction false} SortExample(a: User, b: User, c: User)
    ensures SortByPoints([Standing(a, 20), Standing(b, 20), Standing(c, 5)])
      == [Standing(a, 20), Standing(b, 20), Standing(c, 5)]
  {
    var x, y, z := Standing(a, 20), Standing(b, 20), Standing(c, 5);
    assert SortByPoints([x]) == [x] by {
      assert [x][..0] == [];
    }
    assert SortByPoints([x, y]) == [x, y] by {
      assert [x, y][..1] == [x];
      assert Insert(y, [x]) == [x] + Insert(y, []);
    }
    assert SortByPoints([x, y, z]) == [x, y, z] by {
      assert [x, y, z][..2] == [x, y];
      assert Insert(z, [y]) == [y] + Insert(z, []);
      assert Insert(z, [x, y]) == [x] + Insert(z, [y]);
    }
  }
}
