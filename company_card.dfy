/**
 * The relevance badge of a company card. The card's badge variant is the
 * same rule as the opportunity card's, and its stars are `StarRating`.
 *
 * `{company.relevance_score && <Badge .../>}` renders whatever the `&&`
 * yields: nothing for a missing score, the badge for a non-zero one, and, for
 * a score of 0, the number 0 itself, which React prints as the text "0".
 */
module CompanyCard {
  import opened Optional
  import OpportunityCard
  import FindCompanies
  import Random

  /** What occupies the badge's place in the card header. */
  datatype BadgeSlot = Empty | StrayZero | Badge(variant: string, shownScore: real)

  /** The header slot as the card renders it, for a present or missing `relevance_score`. */
  function RelevanceSlot(relevanceScore: Option<real>): (slot: BadgeSlot)
    ensures slot.Badge? <==> relevanceScore.Some? && relevanceScore.value != 0.0
    ensures slot.Badge? ==> slot.shownScore == relevanceScore.value
                            && slot.variant == OpportunityCard.ScoreBadgeVariant(relevanceScore.value)
  {
    match relevanceScore
    case None => Empty
    case Some(score) =>
      if score == 0.0 then StrayZero
      else Badge(OpportunityCard.ScoreBadgeVariant(score), score)
  }

  /** A score of 0 leaves a stray "0" in the header instead of nothing. */
  lemma ZeroScoreShowsStrayZero()
    ensures RelevanceSlot(Some(0.0)) == StrayZero
  {
  }

  /** The evident intent: the badge for a present, non-zero score, and nothing otherwise. */
  function IntendedRelevanceSlot(relevanceScore: Option<real>): (slot: BadgeSlot)
    ensures !slot.StrayZero?
    ensures slot.Badge? <==> relevanceScore.Some? && relevanceScore.value != 0.0
    ensures slot.Badge? ==> slot.shownScore == relevanceScore.value
                            && slot.variant == OpportunityCard.ScoreBadgeVariant(relevanceScore.value)
  {
    if relevanceScore.Some? && relevanceScore.value != 0.0 then
      Badge(OpportunityCard.ScoreBadgeVariant(relevanceScore.value), relevanceScore.value)
    else
      Empty
  }

  /** The card as written and the intended card differ only at a score of 0. */
  lemma SlotsDifferOnlyAtZero(relevanceScore: Option<real>)
    ensures RelevanceSlot(relevanceScore) != IntendedRelevanceSlot(relevanceScore)
        <==> relevanceScore == Some(0.0)
  {
  }

  /**
   * Every relevance score `find-companies` stores lies in [60, 100), so its
   * card shows a badge, and one of the two upper variants from 70 up.
   */
  lemma GeneratedScoreShowsBadge(r: real)
    requires Random.IsDraw(r)
    ensures IntendedRelevanceSlot(Some(FindCompanies.RelevanceScore(r))).Badge?
    ensures RelevanceSlot(Some(FindCompanies.RelevanceScore(r))) == IntendedRelevanceSlot(Some(FindCompanies.RelevanceScore(r)))
    ensures FindCompanies.RelevanceScore(r) >= 70.0 ==>
              RelevanceSlot(Some(FindCompanies.RelevanceScore(r))).variant != "destructive"
  {
  }
}
