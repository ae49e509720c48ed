/** A quiz taker: a fixed name, a running point total and at most one badge. */
module Users {
  import opened Wrappers
  import opened Badges

  class User {
    const name: string
    var totalPoints: int
    var badge: Option<Badge>

    /** A new user starts with no points and no badge. */
    constructor (name: string)
      ensures this.name == name && totalPoints == 0 && badge == None
    {
      this.name := name;
      totalPoints := 0;
      badge := None;
    }

    /** A new user with a given starting total and no badge. */
    constructor WithPoints(name: string, points: int)
      ensures this.name == name && totalPoints == points && badge == None
    {
      this.name := name;
      totalPoints := points;
      badge := None;
    }

    /** Adds any amount, negative included; the badge stays as it was. */
    method AwardPoints(points: int)
      modifies this
      ensures totalPoints == old(totalPoints) + points
      ensures badge == old(badge)
    {
      totalPoints := totalPoints + points;
    }

    /** Replaces the badge outright (None clears it); the points stay as they were. */
    method SetBadge(b: Option<Badge>)
      modifies this
      ensures badge == b
      ensures totalPoints == old(totalPoints)
    {
      badge := b;
    }

    /** "None" without a badge, otherwise the badge's name. */
    function GetBadgeName(): (r: string)
      reads this
      ensures badge.None? ==> r == "None"
      ensures badge.Some? ==> r == badge.value.badgeName
    {
      if badge.Some? then badge.value.badgeName else "None"
    }

    /** The empty string without a badge, otherwise the badge's icon path. */
    function GetBadgeIconPath(): (r: string)
      reads this
      ensures badge.None? ==> r == ""
      ensures badge.Some? ==> r == badge.value.badgeIconPath
    {
      if badge.Some? then badge.value.badgeIconPath else ""
    }
  }
}
