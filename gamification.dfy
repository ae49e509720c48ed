/**
 * The gamification engine: the registered users, the fixed badge catalogue,
 * point awards, badge assignment and the leaderboard order.
 */
module Gamification {
  import opened Wrappers
  import opened Badges
  import opened Users
  import opened Leaderboard

  /** Each user paired with the total it holds now. */
  function Standings(s: seq<User>): (r: seq<Standing>)
    reads set u | u in s
    ensures |r| == |s| && forall i :: 0 <= i < |s| ==> r[i] == Standing(s[i], s[i].totalPoints)
  {
    seq(|s|, i requires 0 <= i < |s| reads s => Standing(s[i], s[i].totalPoints))
  }

  /**
   * The badge a user holds after the catalogue scan: the first badge whose
   * requirement the points meet, or the badge it already had when none does.
   */
  function Assigned(badges: seq<Badge>, points: int, current: Option<Badge>): Option<Badge>
  {
    var i := FirstMatch(badges, points);
    if i < |badges| then Some(badges[i]) else current
  }

  /**
   * With the engine's catalogue: a non-negative total gets the highest tier
   * it reaches, whatever the user held before; a negative total keeps the
   * badge the user held.
   */
  lemma AssignedFromCatalogue(separator: string, points: int, current: Option<Badge>)
    ensures var b := Assigned(Catalogue(separator), points, current);
      && (points < 0 ==> b == current)
      && (points >= 0 ==>
            && b.Some? && b.value in Catalogue(separator) && b.value.CheckRequirement(points)
            && forall c :: c in Catalogue(separator) && c.CheckRequirement(points) ==>
                 c.requirementPoints <= b.value.requirementPoints)
  {
    CatalogueCoversNonNegative(separator, points);
    FirstMatchIsHighest(Catalogue(separator), points);
  }

  /** A higher non-negative total never yields a lower tier. */
  lemma {:induction false} AssignedMonotone(separator: string, p: int, q: int, before: Option<Badge>, after: Option<Badge>)
    requires 0 <= p <= q
    ensures Assigned(Catalogue(separator), p, before).Some? && Assigned(Catalogue(separator), q, after).Some?
    ensures Assigned(Catalogue(separator), p, before).value.requirementPoints
         <= Assigned(Catalogue(separator), q, after).value.requirementPoints
  {
    var c := Catalogue(separator);
    CatalogueCoversNonNegative(separator, p);
    CatalogueCoversNonNegative(separator, q);
    FirstMatchMonotone(c, p, q);
  }

  /**
   * The users in leaderboard order: standing for standing the stable sort
   * of the current standings, the same users, highest total first, ties in
   * their old order and the same sum of points.
   */
  lemma Reordered(us: seq<User>, ranked: seq<User>)
    requires ranked == UsersOf(SortByPoints(Standings(us)))
    ensures Standings(ranked) == SortByPoints(Standings(us))
    ensures multiset(ranked) == multiset(us)
    ensures forall i, j :: 0 <= i < j < |ranked| ==> ranked[i].totalPoints >= ranked[j].totalPoints
    ensures forall p :: WithPoints(Standings(ranked), p) == WithPoints(Standings(us), p)
    ensures SumPoints(Standings(ranked)) == SumPoints(Standings(us))
  {
    var before := Standings(us);
    var sorted := SortByPoints(before);
    SortPermutes(before);
    forall e | e in sorted ensures e.points == e.user.totalPoints {
      assert e in multiset(before);
    }
    forall i | 0 <= i < |sorted| ensures ranked[i] == sorted[i].user {
      UsersOfAt(sorted, i);
    }
    assert Standings(ranked) == sorted;
    forall i | 0 <= i < |before| ensures UsersOf(before)[i] == us[i] {
      UsersOfAt(before, i);
    }
    assert UsersOf(before) == us;
    SortPermutesUsers(before);
    SortIsSorted(before);
    forall p ensures WithPoints(Standings(ranked), p) == WithPoints(before, p) {
      SortIsStable(before, p);
    }
    SortKeepsSum(before);
  }

  class GamificationEngine {
    var users: seq<User>
    /** The platform's file separator, which the icon paths are built from. */
    const separator: string
    const availableBadges: seq<Badge>

    ghost predicate Valid()
    {
      availableBadges == Catalogue(separator)
    }

    /** An engine with no users and the four-tier catalogue. */
    constructor (separator: string)
      ensures Valid() && this.separator == separator && users == []
    {
      this.separator := separator;
      availableBadges := Catalogue(separator);
      users := [];
    }

    /** getTotalPoints: the sum of the users' totals, a user listed twice counting twice. */
    function GetTotalPoints(): (total: int)
      reads this, set u | u in users
      ensures users == [] ==> total == 0
      ensures (forall i :: 0 <= i < |users| ==> users[i].totalPoints >= 0) ==> total >= 0
    {
      SumPointsNonNegative(Standings(users));
      SumPoints(Standings(users))
    }

    /** Appends without checking for duplicates; the total grows by the user's points. */
    method AddUser(user: User)
      modifies this
      ensures users == old(users) + [user]
      ensures GetTotalPoints() == old(GetTotalPoints()) + user.totalPoints
    {
      users := users + [user];
      assert Standings(users) == Standings(old(users)) + [Standing(user, user.totalPoints)];
      SumPointsAppend(Standings(old(users)), [Standing(user, user.totalPoints)]);
    }

    /**
     * Scans the catalogue in order and gives the user the first badge whose
     * requirement its total meets; when none does, the badge is left alone.
     */
    method AssignBadge(user: User)
      modifies user
      ensures user.totalPoints == old(user.totalPoints)
      ensures user.badge == Assigned(availableBadges, user.totalPoints, old(user.badge))
    {
      var i := 0;
      while i < |availableBadges|
        invariant 0 <= i <= |availableBadges|
        invariant forall j :: 0 <= j < i ==> !availableBadges[j].CheckRequirement(user.totalPoints)
        invariant user.totalPoints == old(user.totalPoints) && user.badge == old(user.badge)
      {
        if availableBadges[i].CheckRequirement(user.totalPoints) {
          user.SetBadge(Some(availableBadges[i]));
          break;
        }
        i := i + 1;
      }
    }

    /** Re-runs the catalogue scan for every registered user. */
    method AssignBadges()
      modifies set u | u in users
      ensures forall u :: u in users ==> u.totalPoints == old(u.totalPoints)
      ensures forall u :: u in users ==> u.badge == Assigned(availableBadges, u.totalPoints, old(u.badge))
    {
      for k := 0 to |users|
        invariant forall u :: u in users ==> u.totalPoints == old(u.totalPoints)
        invariant forall u :: u in users[..k] ==> u.badge == Assigned(availableBadges, u.totalPoints, old(u.badge))
        invariant forall u :: u in users && u !in users[..k] ==> u.badge == old(u.badge)
      {
        AssignBadge(users[k]);
        assert users[..k + 1] == users[..k] + [users[k]];
      }
      assert users[..|users|] == users;
    }

    /**
     * Re-orders the users by total points, highest first; users with equal
     * totals keep their relative order. Nobody's points or badge change.
     */
    method UpdateLeaderboard()
      modifies this
      ensures Standings(users) == SortByPoints(Standings(old(users)))
      ensures multiset(users) == multiset(old(users))
      ensures forall i, j :: 0 <= i < j < |users| ==> users[i].totalPoints >= users[j].totalPoints
      ensures forall p :: WithPoints(Standings(users), p) == WithPoints(Standings(old(users)), p)
      ensures GetTotalPoints() == old(GetTotalPoints())
    {
      var ranked := UsersOf(SortByPoints(Standings(users)));
      Reordered(users, ranked);
      users := ranked;
    }

    /**
     * Adds twice the number of correct answers to the user's total, re-runs
     * the catalogue scan for that user and re-orders the leaderboard.
     */
    method AwardPointsToUser(user: User, correctAnswers: int)
      modifies this, user
      ensures user.totalPoints == old(user.totalPoints) + 2 * correctAnswers
      ensures user.badge == Assigned(availableBadges, user.totalPoints, old(user.badge))
      ensures Standings(users) == SortByPoints(Standings(old(users)))
      ensures multiset(users) == multiset(old(users))
    {
      var points := correctAnswers * 2;
      user.AwardPoints(points);
      AssignBadge(user);
      UpdateLeaderboard();
    }

    /**
     * The reward-interface award: adds the points to the last user in the
     * list, without a badge scan or re-sort; does nothing with no users.
     */
    method AwardPoints(points: int)
      modifies if users == [] then {} else {users[|users| - 1]}
      ensures users != [] ==> users[|users| - 1].totalPoints == old(users[|users| - 1].totalPoints) + points
      ensures users != [] ==> users[|users| - 1].badge == old(users[|users| - 1].badge)
    {
      if users != [] {
        users[|users| - 1].AwardPoints(points);
      }
    }

    /** The last user's badge, or null when there are no users. */
    function GetBadge(): (b: Option<Badge>)
      reads this, set u | u in users
      ensures users == [] ==> b.None?
      ensures users != [] ==> b == users[|users| - 1].badge
    {
      if users == [] then None else users[|users| - 1].badge
    }
  }
}
