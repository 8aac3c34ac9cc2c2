/** The donor-facing campaign cards: the defaults a fetched campaign is given
    and the picture chosen from keywords in its name and description. */
module UseCampaigns {
  import opened Base
  import opened Text

  /** A campaign as the API returns it; any field may be missing. */
  datatype ApiCampaign = ApiCampaign(organizationName: Option<string>, name: Option<string>,
                                     description: Option<string>, targetAmount: Option<real>,
                                     totalRaised: Option<real>, campaignID: Option<int>,
                                     startDate: Option<string>, endDate: Option<string>)

  /** The props handed to a donation card (the formatted price is left out). */
  datatype CardProps = CardProps(orgName: string, donationName: string, desc: string, image: string,
                                 campaignId: Option<int>, totalRaised: real, goal: real,
                                 startDate: Option<string>, endDate: Option<string>)

  const DefaultOrgName := "Organization"
  const DefaultName := "Campaign"
  const DefaultDescription := "No description available"

  /** `value || 0` for a number: a missing value reads as 0, and 0 stays 0. */
  function OrZero(value: Option<real>): real {
    value.GetOr(0.0)
  }

  // ---------------------------------------------------------------------
  // getCampaignImage

  const FireImage := "/images/fireimage.jpg"
  const FloodImage := "/images/fire_img2.JPG.jpg"
  const StormImage := "/images/bagyo_tino1.jpg"
  const CommunityImage := "/images/bagyo_tino2.jpg"

  /** `campaign.name?.toLowerCase() || ''`. */
  function LowerOrEmpty(value: Option<string>): string {
    if value.Some? then Lower(value.value) else ""
  }

  /** The text searched: lower-cased name, a space, lower-cased description. */
  function Content(c: ApiCampaign): string {
    LowerOrEmpty(c.name) + " " + LowerOrEmpty(c.description)
  }

  /** The if-else chain of `getCampaignImage`. */
  function CampaignImage(c: ApiCampaign): (r: string)
    ensures r in {FireImage, FloodImage, StormImage, CommunityImage}
  {
    var content := Content(c);
    if Contains(content, "fire") || Contains(content, "burn") then FireImage
    else if Contains(content, "flood") || Contains(content, "water") || Contains(content, "typhoon") then FloodImage
    else if Contains(content, "storm") || Contains(content, "bagyo") then StormImage
    else if Contains(content, "community") || Contains(content, "support") then CommunityImage
    else FireImage
  }

  /** The classification rules as a table: keywords and the picture they
      select, tried in order. */
  datatype Rule = Rule(keywords: seq<string>, image: string)

  const Rules: seq<Rule> := [
    Rule(["fire", "burn"], FireImage),
    Rule(["flood", "water", "typhoon"], FloodImage),
    Rule(["storm", "bagyo"], StormImage),
    Rule(["community", "support"], CommunityImage)]

  predicate RuleMatches(content: string, rule: Rule) {
    exists k :: 0 <= k < |rule.keywords| && Contains(content, rule.keywords[k])
  }

  /** The picture of the first rule, from `i` on, whose keywords occur in
      the content; the fire picture when none does. */
  function FirstMatch(content: string, i: nat): string
    requires i <= |Rules|
    decreases |Rules| - i
  {
    if i == |Rules| then FireImage
    else if RuleMatches(content, Rules[i]) then Rules[i].image
    else FirstMatch(content, i + 1)
  }

  /** The if-else chain picks the picture of the first matching rule. */
  lemma ImageIsFirstMatchingRule(c: ApiCampaign)
    ensures CampaignImage(c) == FirstMatch(Content(c), 0)
  {
    var content := Content(c);
    assert RuleMatches(content, Rules[0]) <==> Contains(content, "fire") || Contains(content, "burn") by {
      if Contains(content, "fire") { assert Rules[0].keywords[0] == "fire"; }
      if Contains(content, "burn") { assert Rules[0].keywords[1] == "burn"; }
    }
    assert RuleMatches(content, Rules[1]) <==> Contains(content, "flood") || Contains(content, "water") || Contains(content, "typhoon") by {
      if Contains(content, "flood") { assert Rules[1].keywords[0] == "flood"; }
      if Contains(content, "water") { assert Rules[1].keywords[1] == "water"; }
      if Contains(content, "typhoon") { assert Rules[1].keywords[2] == "typhoon"; }
    }
    assert RuleMatches(content, Rules[2]) <==> Contains(content, "storm") || Contains(content, "bagyo") by {
      if Contains(content, "storm") { assert Rules[2].keywords[0] == "storm"; }
      if Contains(content, "bagyo") { assert Rules[2].keywords[1] == "bagyo"; }
    }
    assert RuleMatches(content, Rules[3]) <==> Contains(content, "community") || Contains(content, "support") by {
      if Contains(content, "community") { assert Rules[3].keywords[0] == "community"; }
      if Contains(content, "support") { assert Rules[3].keywords[1] == "support"; }
    }
  }

  /** Matching ignores case: lower-casing the name or the description first
      never changes the picture. */
  lemma ImageIgnoresCase(c: ApiCampaign)
    ensures var lowered := c.(name := if c.name.Some? then Some(Lower(c.name.value)) else None,
                              description := if c.description.Some? then Some(Lower(c.description.value)) else None);
      CampaignImage(lowered) == CampaignImage(c)
  {
    if c.name.Some? {
      LowerIdempotent(c.name.value);
    }
    if c.description.Some? {
      LowerIdempotent(c.description.value);
    }
    var lowered := c.(name := if c.name.Some? then Some(Lower(c.name.value)) else None,
                      description := if c.description.Some? then Some(Lower(c.description.value)) else None);
    assert Content(lowered) == Content(c);
  }

  // ---------------------------------------------------------------------
  // transformCampaignForCard

  /** `transformCampaignForCard`: every card has a non-empty organization
      name, title and description: a non-empty one from the campaign is shown
      as given, a missing or empty one takes the stated default;
      the money fields default to 0 and the goal is the target amount; the
      id and the dates pass through. */
  function TransformCampaignForCard(c: ApiCampaign): (r: CardProps)
    ensures r.orgName != "" && r.donationName != "" && r.desc != ""
    ensures c.organizationName.Some? && c.organizationName.value != "" ==> r.orgName == c.organizationName.value
    ensures c.organizationName.None? || c.organizationName.value == "" ==> r.orgName == DefaultOrgName
    ensures c.name.Some? && c.name.value != "" ==> r.donationName == c.name.value
    ensures c.name.None? || c.name.value == "" ==> r.donationName == DefaultName
    ensures c.description.Some? && c.description.value != "" ==> r.desc == c.description.value
    ensures c.description.None? || c.description.value == "" ==> r.desc == DefaultDescription
    ensures c.targetAmount.None? ==> r.goal == 0.0
    ensures c.targetAmount.Some? ==> r.goal == c.targetAmount.value
    ensures c.totalRaised.None? ==> r.totalRaised == 0.0
    ensures c.totalRaised.Some? ==> r.totalRaised == c.totalRaised.value
    ensures r.campaignId == c.campaignID && r.startDate == c.startDate && r.endDate == c.endDate
    ensures r.image == CampaignImage(c)
  {
    CardProps(OrText(c.organizationName, DefaultOrgName), OrText(c.name, DefaultName),
              OrText(c.description, DefaultDescription), CampaignImage(c), c.campaignID,
              OrZero(c.totalRaised), OrZero(c.targetAmount), c.startDate, c.endDate)
  }
}
