/**
 * The pricing page: the fixed table of token packs, the click that starts a
 * purchase, and the state of each pack's button. Prices are decimal amounts
 * in euros and only displayed; they are not modelled.
 */
module PricingPage {
  import opened Types

  datatype Tier = Tier(credits: int, bestValue: bool)

  const PricingTiers: seq<Tier> := [Tier(1, false), Tier(5, false), Tier(10, true), Tier(25, false)]

  const BuyNowText: string := "Acheter maintenant"
  const ProcessingText: string := "Traitement..."

  /**
   * Every pack's button is disabled once some purchase has started, so in
   * particular the one reading "processing" can never be clicked again.
   */
  predicate ButtonDisabled(processingTier: Option<int>): (disabled: bool)
    ensures disabled <==> processingTier != None
    ensures forall t :: ButtonCaption(processingTier, t) == ProcessingText ==> disabled
  {
    processingTier.Some?
  }

  /** A pack's button reads "processing" exactly when its credit count is the one being bought. */
  function ButtonCaption(processingTier: Option<int>, tier: Tier): (caption: string)
    ensures caption == ProcessingText <==> processingTier == Some(tier.credits)
    ensures caption == ProcessingText || caption == BuyNowText
  {
    assert |ProcessingText| != |BuyNowText|;
    if processingTier == Some(tier.credits) then ProcessingText else BuyNowText
  }

  class PricingPage {
    var processingTier: Option<int>

    constructor ()
      ensures processingTier == None
    {
      processingTier := None;
    }

    /** A click marks the pack as being bought and forwards exactly its credits to the purchase. */
    method HandlePurchaseClick(credits: int) returns (forwarded: int)
      modifies this
      ensures processingTier == Some(credits) && forwarded == credits
    {
      processingTier := Some(credits);
      forwarded := credits;
    }
  }

  /** The packs hold 1, 5, 10 and 25 tokens, all positive and all different. */
  lemma TierCredits()
    ensures |PricingTiers| == 4
    ensures PricingTiers[0].credits == 1 && PricingTiers[1].credits == 5
    ensures PricingTiers[2].credits == 10 && PricingTiers[3].credits == 25
    ensures forall i :: 0 <= i < |PricingTiers| ==> PricingTiers[i].credits > 0
    ensures forall i, j :: 0 <= i < j < |PricingTiers| ==> PricingTiers[i].credits != PricingTiers[j].credits
  {
  }

  /** Exactly one pack is marked best value: the 10-token pack. */
  lemma OnlyTenIsBestValue()
    ensures forall i :: 0 <= i < |PricingTiers| ==> (PricingTiers[i].bestValue <==> PricingTiers[i].credits == 10)
  {
  }

  /**
   * After a click on pack `i`, pack `j` reads "processing" exactly when it
   * is the pack clicked: no two packs share a credit count.
   */
  lemma ClickedPackAloneProcessing(i: int, j: int)
    requires 0 <= i < |PricingTiers| && 0 <= j < |PricingTiers|
    ensures ButtonCaption(Some(PricingTiers[i].credits), PricingTiers[j]) == ProcessingText <==> i == j
  {
    TierCredits();
  }
}
