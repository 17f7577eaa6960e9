/** The score panel: the two scores as given, and the badge derived from the
    total score alone. Only the two-tier badge ladder exists here. */
module ScoreDisplay {
  import opened Records
  import opened Scoring

  datatype Badge = GreenStarter | EcoHero

  /** The display fields of a badge (the icon glyph is not modelled). */
  datatype BadgeStyle = BadgeStyle(name: string, color: string)

  const EcoHeroThreshold: int := 500

  /** A badge's position on the ladder. */
  function Rank(b: Badge): nat {
    match b
    case GreenStarter => 0
    case EcoHero => 1
  }

  /** The badge's display name and colour class; the name tells the two
      tiers apart. */
  function Style(b: Badge): (st: BadgeStyle)
    ensures st.name == "Eco Hero" <==> b == EcoHero
  {
    match b
    case EcoHero => BadgeStyle("Eco Hero", "text-accent")
    case GreenStarter => BadgeStyle("Green Starter", "text-eco-green")
  }

  /** `Eco Hero` from 500 points up, `Green Starter` below. */
  function GetBadge(score: int): (b: Badge)
    ensures b == EcoHero <==> score >= EcoHeroThreshold
    ensures b == GreenStarter <==> score < EcoHeroThreshold
  {
    if score >= EcoHeroThreshold then EcoHero else GreenStarter
  }

  /** What the panel shows. */
  datatype Panel = Panel(totalScore: int, weeklyScore: int, badge: Badge)

  function Render(totalScore: int, weeklyScore: int): (p: Panel)
    ensures p.totalScore == totalScore && p.weeklyScore == weeklyScore
    ensures p.badge == GetBadge(totalScore)
  {
    Panel(totalScore, weeklyScore, GetBadge(totalScore))
  }

  /** The badge is a non-decreasing step function of the score. */
  lemma GetBadgeMonotone(s1: int, s2: int)
    requires s1 <= s2
    ensures Rank(GetBadge(s1)) <= Rank(GetBadge(s2))
    ensures GetBadge(s1) == EcoHero ==> GetBadge(s2) == EcoHero
  {
  }

  /** The step sits exactly between 499 and 500; a fresh account starts as a
      Green Starter. */
  lemma GetBadgeBoundaries()
    ensures GetBadge(0) == GreenStarter
    ensures GetBadge(499) == GreenStarter
    ensures GetBadge(500) == EcoHero
    ensures Style(GetBadge(500)).name == "Eco Hero"
    ensures Style(GetBadge(499)).name == "Green Starter"
  {
  }

  /** The badge depends on the total score only, never on the weekly one. */
  lemma BadgeIgnoresWeekly(totalScore: int, weekly1: int, weekly2: int)
    ensures Render(totalScore, weekly1).badge == Render(totalScore, weekly2).badge
    ensures Render(totalScore, weekly1).badge == GetBadge(totalScore)
  {
  }

  /** Logging another activity worth something never costs the user a badge. */
  lemma NewActivityNeverDowngrades(acts: seq<Activity>, a: Activity, now: int)
    requires a.points >= 0
    ensures Rank(GetBadge(Summarize(acts + [a], now).total)) >= Rank(GetBadge(Summarize(acts, now).total))
  {
    SummarizeAppendMonotone(acts, a, now);
    GetBadgeMonotone(Summarize(acts, now).total, Summarize(acts + [a], now).total);
  }
}
