/**
 * Badges: named point thresholds, and the fixed catalogue the engine
 * searches highest threshold first.
 */
module Badges {
  import opened Wrappers

  /**
   * A badge is immutable once built. The Java class also declares a field
   * `name` that nothing ever assigns; GetName reports it as null.
   */
  datatype Badge = Badge(badgeName: string, badgeIconPath: string, requirementPoints: int, requirement: string)
  {
    /** checkRequirement: the user's points reach the threshold. */
    predicate CheckRequirement(userPoints: int)
    {
      userPoints >= requirementPoints
    }

    /** getBadgeInfo: the name, the fixed separator text, then the requirement text. */
    function GetBadgeInfo(): (info: string)
      ensures |info| == |badgeName| + |InfoSeparator| + |requirement|
      ensures info[..|badgeName|] == badgeName
      ensures info[|badgeName|..|badgeName| + |InfoSeparator|] == InfoSeparator
      ensures info[|badgeName| + |InfoSeparator|..] == requirement
    {
      badgeName + InfoSeparator + requirement
    }

    /** getName returns the never-assigned field, which is always null. */
    function GetName(): (r: Option<string>)
      ensures r.None?
    {
      None
    }
  }

  const InfoSeparator: string := " - Requires: "

  /** Meeting a threshold with some points means meeting it with any more points. */
  lemma CheckRequirementMonotone(b: Badge, p: int, q: int)
    requires b.CheckRequirement(p) && p <= q
    ensures b.CheckRequirement(q)
  {
  }

  /** Thresholds strictly decrease along the list. */
  ghost predicate Descending(badges: seq<Badge>)
  {
    forall i, j :: 0 <= i < j < |badges| ==> badges[i].requirementPoints > badges[j].requirementPoints
  }

  /**
   * The four tiers the engine's constructor installs, highest first. The
   * icon paths are built from the platform's file separator.
   */
  function Catalogue(separator: string): (c: seq<Badge>)
    ensures |c| == 4 && Descending(c)
    ensures c[|c| - 1].requirementPoints == 0
  {
    var basePath := "assets" + separator + "badges" + separator;
    [ Badge("Gold", basePath + "Gold.png", 15, "Score 15+ points"),
      Badge("Silver", basePath + "Silver.png", 10, "Score 10\U{2013}14 points"),
      Badge("Bronze", basePath + "Bronze.png", 5, "Score 5\U{2013}9 points"),
      Badge("Keep Learning", basePath + "Keep_Learning.png", 0, "Less than 5 points") ]
  }

  /**
   * Where a scan of `badges` from the front stops: the index of the first
   * badge whose requirement `points` meets, or |badges| when none does.
   */
  function FirstMatch(badges: seq<Badge>, points: int): (i: nat)
    ensures i <= |badges|
    ensures forall j :: 0 <= j < i ==> !badges[j].CheckRequirement(points)
    ensures i < |badges| ==> badges[i].CheckRequirement(points)
  {
    if badges == [] || badges[0].CheckRequirement(points) then 0
    else 1 + FirstMatch(badges[1..], points)
  }

  /**
   * In a descending catalogue the first match is the highest tier the
   * points reach: no badge the points meet has a higher threshold.
   */
  lemma FirstMatchIsHighest(badges: seq<Badge>, points: int)
    requires Descending(badges)
    ensures var i := FirstMatch(badges, points);
      i < |badges| ==> forall j :: 0 <= j < |badges| && badges[j].CheckRequirement(points) ==>
        badges[j].requirementPoints <= badges[i].requirementPoints
  {
  }

  /** More points never stop the scan at a later badge, whatever the order of the list. */
  lemma {:induction false} FirstMatchMonotone(badges: seq<Badge>, p: int, q: int)
    requires p <= q
    ensures FirstMatch(badges, q) <= FirstMatch(badges, p)
  {
    var i := FirstMatch(badges, p);
    if i < |badges| {
      CheckRequirementMonotone(badges[i], p, q);
    }
  }

  /** Any non-negative total matches some tier of the catalogue; a negative total matches none. */
  lemma CatalogueCoversNonNegative(separator: string, points: int)
    ensures points >= 0 <==> FirstMatch(Catalogue(separator), points) < 4
  {
    var c := Catalogue(separator);
    if points < 0 {
      assert forall j :: 0 <= j < 4 ==> !c[j].CheckRequirement(points);
    }
  }

  /** 16 points earn Gold, 6 earn Bronze and 0 earn Keep Learning. */
  lemma CatalogueExamples(separator: string)
    ensures Catalogue(separator)[FirstMatch(Catalogue(separator), 16)].badgeName == "Gold"
    ensures Catalogue(separator)[FirstMatch(Catalogue(separator), 6)].badgeName == "Bronze"
    ensures Catalogue(separator)[FirstMatch(Catalogue(separator), 0)].badgeName == "Keep Learning"
  {
    var c := Catalogue(separator);
    assert FirstMatch(c, 16) == 0;
    assert FirstMatch(c, 6) == 2 by {
      assert !c[0].CheckRequirement(6) && !c[1].CheckRequirement(6) && c[2].CheckRequirement(6);
    }
    assert FirstMatch(c, 0) == 3 by {
      assert !c[0].CheckRequirement(0) && !c[1].CheckRequirement(0) && !c[2].CheckRequirement(0);
    }
  }
}
