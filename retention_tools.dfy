/**
 * The retention-offer tool: mapping a cancellation reason to a rules category, a tier to
 * a customer type, formatting one offer's details, and `calculate_retention_offer`, which
 * builds the list of offers from the parsed `retention_rules.json`.
 *
 * The rules file is given already parsed (or as missing, or as the error raised while
 * reading it). Numbers in it are opaque: each is kept as the text Python would print
 * and whether it equals zero.
 */
module RetentionTools {
  import opened Wrappers
  import opened Text

  // ---------------------------------------------------------------------------
  // Reason and tier maps

  const FinancialWords: seq<string> := ["cost", "afford", "expensive", "money", "price", "financial"]
  const OverheatWords: seq<string> := ["overheat", "hot", "heat"]
  const BatteryWords: seq<string> := ["battery", "charge", "charging", "power"]
  const BrokenWords: seq<string> := ["broken", "defect", "malfunction", "not working"]
  const ValueWords: seq<string> := ["value", "worth", "never used", "not using", "don't use"]

  /** The default category, spelled as the source spells it: no rules key has this name. */
  const UnmatchedCategory: string := "financial_harship"

  /** `_map_reason_to_category`: the keyword groups are tried in order and the first hit wins. */
  function MapReasonToCategory(reason: string): (r: (string, Option<string>))
    ensures r.0 in {"financial_hardship", "product_issues", "service_value", UnmatchedCategory}
    ensures r.0 == "product_issues" <==> r.1.Some?
    ensures r.1.Some? ==> r.1.value in {"overheating", "battery_issues"}
  {
    var text := Strip(Lower(reason));
    if ContainsAny(text, FinancialWords) then ("financial_hardship", None)
    else if ContainsAny(text, OverheatWords) then ("product_issues", Some("overheating"))
    else if ContainsAny(text, BatteryWords) then ("product_issues", Some("battery_issues"))
    else if ContainsAny(text, BrokenWords) then ("product_issues", Some("overheating"))
    else if ContainsAny(text, ValueWords) then ("service_value", None)
    else (UnmatchedCategory, None)
  }

  const TierMapping: map<string, string> := map[
    "gold" := "premium_customers",
    "premium" := "premium_customers",
    "silver" := "regular_customers",
    "regular" := "regular_customers",
    "standard" := "regular_customers",
    "basic" := "new_customers",
    "new" := "new_customers"
  ]

  /** `_map_tier_to_customer_type`. */
  function MapTierToCustomerType(tier: string): (r: string)
    ensures r in {"premium_customers", "regular_customers", "new_customers"}
    ensures Strip(Lower(tier)) !in TierMapping ==> r == "regular_customers"
  {
    var t := Strip(Lower(tier));
    if t in TierMapping then TierMapping[t] else "regular_customers"
  }

  // ---------------------------------------------------------------------------
  // Offers

  /** A JSON number: the text `str()` gives for it, and whether it equals 0. */
  datatype Number = Number(shown: string, isZero: bool)

  /** One raw offer object of the rules file; a key that is absent is `None`. */
  datatype RawOffer = RawOffer(
    kind: Option<string>,
    description: Option<string>,
    authorization: Option<string>,
    percentage: Option<Number>,
    durationMonths: Option<Number>,
    newCost: Option<Number>,
    savings: Option<Number>,
    cost: Option<Number>,
    newPlan: Option<string>,
    refundPromise: Option<string>,
    benefits: Option<seq<string>>)

  /** One offer as the tool returns it. */
  datatype Offer = Offer(kind: Option<string>, description: Option<string>, details: string, authorization: string)

  /** `offer.get(key)` is truthy, for a number. */
  predicate NumberSet(n: Option<Number>) {
    n.Some? && !n.value.isZero
  }

  /** `offer.get(key)` is truthy, for a string. */
  predicate TextSet(t: Option<string>) {
    t.Some? && t.value != ""
  }

  /** `offer.get("cost") == 0`. */
  predicate IsFree(o: RawOffer) {
    o.cost.Some? && o.cost.value.isZero
  }

  /** Some detail of the offer is set. */
  predicate HasDetail(o: RawOffer) {
    NumberSet(o.percentage) || NumberSet(o.durationMonths) || NumberSet(o.newCost)
    || NumberSet(o.savings) || IsFree(o) || TextSet(o.newPlan) || TextSet(o.refundPromise)
  }

  /** The `details` list of `_format_offer_details`, built in its fixed order. */
  function DetailParts(o: RawOffer): (r: seq<string>)
    ensures |r| <= 7
    ensures r == [] <==> !HasDetail(o)
    ensures IsFree(o) ==> "free" in r
    ensures "free" in r ==> IsFree(o) || o.refundPromise == Some("free")
  {
    (if NumberSet(o.percentage) then [o.percentage.value.shown + "% discount"] else [])
    + (if NumberSet(o.durationMonths) then ["for " + o.durationMonths.value.shown + " months"] else [])
    + (if NumberSet(o.newCost) then ["new cost: $" + o.newCost.value.shown + "/month"] else [])
    + (if NumberSet(o.savings) then ["saves $" + o.savings.value.shown + "/month"] else [])
    + (if IsFree(o) then ["free"] else [])
    + (if TextSet(o.newPlan) then ["switch to " + o.newPlan.value] else [])
    + (if TextSet(o.refundPromise) then [o.refundPromise.value] else [])
  }

  /** The first detail part is never empty: each part carries fixed text or a set value. */
  lemma FirstPartNotEmpty(o: RawOffer)
    requires HasDetail(o)
    ensures DetailParts(o)[0] != ""
  {
    if NumberSet(o.percentage) {
    } else if NumberSet(o.durationMonths) {
    } else if NumberSet(o.newCost) {
    } else if NumberSet(o.savings) {
    } else if IsFree(o) {
    } else if TextSet(o.newPlan) {
    } else {
      assert DetailParts(o) == [o.refundPromise.value];
    }
  }

  /** `_format_offer_details`: the parts joined with " | ", or the description when there are none. */
  function FormatOfferDetails(o: RawOffer): (r: string)
    ensures !HasDetail(o) ==> r == o.description.GetOr("")
    ensures HasDetail(o) ==> StartsWith(r, DetailParts(o)[0]) && r != ""
  {
    var parts := DetailParts(o);
    if parts != [] then
      FirstPartNotEmpty(o);
      Join(parts, " | ")
    else o.description.GetOr("")
  }

  /** An offer of the financial-hardship or product-issues lists. */
  function ConvertOffer(o: RawOffer): Offer {
    Offer(o.kind, o.description, FormatOfferDetails(o), o.authorization.GetOr("agent"))
  }

  const ExplainBenefits: string := "explain_benefits"

  /** An offer of the service-value list: `explain_benefits` is rewritten. */
  function ConvertServiceOffer(o: RawOffer): Offer {
    if o.kind == Some(ExplainBenefits) then
      Offer(Some(ExplainBenefits), Some("Explain the value of their current plan"),
            "Benefits: " + Join(o.benefits.GetOr([]), "; "), "agent")
    else
      Offer(o.kind, Some(o.description.GetOr("")), FormatOfferDetails(o), o.authorization.GetOr("agent"))
  }

  /** How the offers of a category are converted. */
  function ConvertFor(category: string, o: RawOffer): Offer {
    if category == "service_value" then ConvertServiceOffer(o) else ConvertOffer(o)
  }

  // ---------------------------------------------------------------------------
  // Rules file and report

  /** `authorization_levels.agent`; each absent key is `None`. */
  datatype AgentLimits = AgentLimits(maxDiscountPercentage: Option<Number>, canPause: Option<bool>, canDowngrade: Option<bool>)

  /** The parsed rules file; a category missing from the file is an empty map. */
  datatype Rules = Rules(
    financialHardship: map<string, seq<RawOffer>>,
    productIssues: map<string, seq<RawOffer>>,
    serviceValue: map<string, seq<RawOffer>>,
    agent: AgentLimits)

  /** The rules file: absent, unreadable or malformed (with the error), or parsed. */
  datatype RulesFile = Missing | Broken(error: string) | Parsed(rules: Rules)

  datatype AgentAuthority = AgentAuthority(maxDiscounts: Number, canPause: bool, canDowngrade: bool)

  /** The advice texts the tool can return, by name; `AdviceText` gives each one's wording. */
  datatype AdviceKey =
    | DefaultAdvice | FinancialAdvice | OverheatingAdvice | BatteryAdvice | ServiceValueAdvice | FallbackAdvice

  /** What `_get_recommendation` returns: one advice text, or the nested per-issue table. */
  datatype Recommendation = Advice(key: AdviceKey) | IssueTable(byIssue: map<string, AdviceKey>)

  /** The three shapes of dictionary `calculate_retention_offer` returns. */
  datatype OfferReport =
    | DefaultReport(customerTier: string, reason: string, offers: seq<Offer>, advice: AdviceKey)
    | RulesReport(customerTier: string, customerType: string, reason: string, category: string,
                  subCategory: Option<string>, offers: seq<Offer>, recommendation: Recommendation,
                  agentCanAuthorize: AgentAuthority)
    | ErrorReport(error: string, customerTier: string, reason: string, offers: seq<Offer>)

  function Entries(m: map<string, seq<RawOffer>>, key: string): seq<RawOffer> {
    if key in m then m[key] else []
  }

  /** The raw offers under the key the category selects; none for an unknown category. */
  function RawOffersFor(rules: Rules, category: string, subCategory: Option<string>, customerType: string): seq<RawOffer> {
    if category == "financial_hardship" then Entries(rules.financialHardship, customerType)
    else if category == "product_issues" then
      (if subCategory.Some? then Entries(rules.productIssues, subCategory.value) else [])
    else if category == "service_value" then Entries(rules.serviceValue, "care_plus_premium")
    else []
  }

  function AgentAuthorityOf(limits: AgentLimits): AgentAuthority {
    AgentAuthority(limits.maxDiscountPercentage.GetOr(Number("25", false)),
                   limits.canPause.GetOr(true), limits.canDowngrade.GetOr(true))
  }

  const DefaultOffers: seq<Offer> := [
    Offer(Some("discount"), Some("25% discount for 3 months"), "Reduced rate to help with costs", "agent"),
    Offer(Some("pause"), Some("Pause subscription for upto 3 months"), "No charges during pause period", "agent"),
    Offer(Some("downgrade"), Some("Switch to a lower-cost plan"), "Keep coverage at reduced price", "agent")
  ]

  /** `_get_default_offers`. */
  function GetDefaultOffers(tier: string, reason: string): (r: OfferReport)
    ensures r.DefaultReport? && r.customerTier == tier && r.reason == reason && r.advice == DefaultAdvice
    ensures |r.offers| == 3 && r.offers[0].kind == Some("discount") && r.offers[1].kind == Some("pause")
      && r.offers[2].kind == Some("downgrade")
    ensures forall k :: 0 <= k < |r.offers| ==> r.offers[k].authorization == "agent"
  {
    DefaultReport(tier, reason, DefaultOffers, DefaultAdvice)
  }

  /** The wording of each advice. */
  function AdviceText(key: AdviceKey): string {
    match key
    case DefaultAdvice =>
      "Start by understanding their concern. Offer pause for temporary issues, discount for cost concerns."
    case FinancialAdvice =>
      "Start with empathy about their financial situation. Offer the pause option first (no commitment), then discuss discounts if they prefer to keep service active."
    case OverheatingAdvice =>
      "Apologize for the device issue. Offer free replacement immediately - this often resolves the cancellation. If they still want to cancel after replacement offered, don't push."
    case BatteryAdvice =>
      "Offer free battery replacement first. This is usually a quick fix that saves the customer relationship."
    case ServiceValueAdvice =>
      "Don't be defensive. Walk them through the specific benefits and their value. The explain_benefits offer lists concrete savings. If they are still unsure, offer the trial extension with refund promise."
    case FallbackAdvice =>
      "Listen to their concerns first. Match the offer to their specific situation."
  }

  const IssueAdvice: map<string, AdviceKey> := map["overheating" := OverheatingAdvice, "battery_issues" := BatteryAdvice]

  /** `_get_recommendation`. */
  function GetRecommendation(category: string, subCategory: Option<string>): (r: Recommendation)
    ensures r.IssueTable? <==> category == "product_issues" && !TextSet(subCategory)
    ensures category == "product_issues" && TextSet(subCategory)
      ==> r.Advice? && r.key in {OverheatingAdvice, BatteryAdvice}
    ensures category == "financial_hardship" ==> r == Advice(FinancialAdvice)
    ensures category == "service_value" ==> r == Advice(ServiceValueAdvice)
    ensures category !in {"financial_hardship", "product_issues", "service_value"} ==> r == Advice(FallbackAdvice)
  {
    if category == "product_issues" && TextSet(subCategory) then
      Advice(if subCategory.value in IssueAdvice then IssueAdvice[subCategory.value] else OverheatingAdvice)
    else if category == "financial_hardship" then Advice(FinancialAdvice)
    else if category == "product_issues" then IssueTable(IssueAdvice)
    else if category == "service_value" then Advice(ServiceValueAdvice)
    else Advice(FallbackAdvice)
  }

  /** The dictionary `calculate_retention_offer` returns. */
  function RetentionOfferSpec(customerTier: string, reason: string, file: RulesFile): OfferReport {
    match file
    case Missing => GetDefaultOffers(customerTier, reason)
    case Broken(_) => ErrorReport("", customerTier, reason, DefaultOffers)
    case Parsed(rules) =>
      var (category, subCategory) := MapReasonToCategory(reason);
      var customerType := MapTierToCustomerType(customerTier);
      var raw := RawOffersFor(rules, category, subCategory, customerType);
      RulesReport(customerTier, customerType, reason, category, subCategory,
                  seq(|raw|, i requires 0 <= i < |raw| => ConvertFor(category, raw[i])),
                  GetRecommendation(category, subCategory), AgentAuthorityOf(rules.agent))
  }

  /** The offers of `calculate_retention_offer`, built by appending inside a loop. */
  method ConvertAll(category: string, raw: seq<RawOffer>) returns (offers: seq<Offer>)
    ensures offers == seq(|raw|, k requires 0 <= k < |raw| => ConvertFor(category, raw[k]))
  {
    offers := [];
    var i := 0;
    while i < |raw|
      invariant i <= |raw|
      invariant offers == seq(i, k requires 0 <= k < i => ConvertFor(category, raw[k]))
    {
      offers := offers + [ConvertFor(category, raw[i])];
      i := i + 1;
    }
  }

  /** `calculate_retention_offer`. */
  method CalculateRetentionOffer(customerTier: string, reason: string, file: RulesFile) returns (report: OfferReport)
    ensures report == RetentionOfferSpec(customerTier, reason, file)
  {
    match file {
      case Missing =>
        report := GetDefaultOffers(customerTier, reason);
      case Broken(_) =>
        report := ErrorReport("", customerTier, reason, GetDefaultOffers(customerTier, reason).offers);
      case Parsed(rules) =>
        var (category, subCategory) := MapReasonToCategory(reason);
        var customerType := MapTierToCustomerType(customerTier);
        var raw := RawOffersFor(rules, category, subCategory, customerType);
        var offers := ConvertAll(category, raw);
        report := RulesReport(customerTier, customerType, reason, category, subCategory, offers,
                              GetRecommendation(category, subCategory), AgentAuthorityOf(rules.agent));
    }
  }

  // ---------------------------------------------------------------------------
  // Properties

  /** Financial keywords win over every later group. */
  lemma FinancialFirst(reason: string)
    requires ContainsAny(Strip(Lower(reason)), FinancialWords)
    ensures MapReasonToCategory(reason) == ("financial_hardship", None)
  {}

  /** "can't afford charging" is a financial reason, not a battery one. */
  lemma AffordBeatsCharging()
    ensures MapReasonToCategory("can't afford charging") == ("financial_hardship", None)
  {
    var r := "can't afford charging";
    LowerOfLowerCase(r);
    StripOfStripped(r);
    assert r[6..12] == FinancialWords[1];
    ContainsAt(r, FinancialWords[1], 6);
    FinancialFirst(r);
  }

  /** Device-failure words map to the overheating sub-category when no earlier group matches. */
  lemma BrokenMapsToOverheating(reason: string)
    requires var t := Strip(Lower(reason));
      !ContainsAny(t, FinancialWords) && !ContainsAny(t, OverheatWords) && !ContainsAny(t, BatteryWords)
      && ContainsAny(t, BrokenWords)
    ensures MapReasonToCategory(reason) == ("product_issues", Some("overheating"))
  {}

  /** A reason matching no keyword gets the misspelled default, so the rules file offers nothing for it. */
  lemma UnmatchedReasonGetsNoOffers(customerTier: string, reason: string, rules: Rules)
    requires var t := Strip(Lower(reason));
      !ContainsAny(t, FinancialWords) && !ContainsAny(t, OverheatWords) && !ContainsAny(t, BatteryWords)
      && !ContainsAny(t, BrokenWords) && !ContainsAny(t, ValueWords)
    ensures MapReasonToCategory(reason) == (UnmatchedCategory, None)
    ensures UnmatchedCategory != "financial_hardship"
    ensures RetentionOfferSpec(customerTier, reason, Parsed(rules)).offers == []
    ensures RetentionOfferSpec(customerTier, reason, Parsed(rules)).recommendation == Advice(FallbackAdvice)
  {}

  /** The tier map ignores case and surrounding whitespace. */
  lemma TierIgnoresCaseAndSpace(tier: string)
    ensures MapTierToCustomerType(tier) == MapTierToCustomerType(Strip(Lower(tier)))
  {
    var t := Strip(Lower(tier));
    LowerStrip(Lower(tier));
    LowerIdempotent(tier);
    StripIsStripped(Lower(tier));
    StripOfStripped(t);
    assert Lower(t) == Strip(Lower(Lower(tier)));
  }

  /** " Gold " is a premium customer; an unknown tier is a regular one. */
  lemma TierExamples()
    ensures MapTierToCustomerType("gold") == "premium_customers"
    ensures MapTierToCustomerType("platinum") == "regular_customers"
  {
    LowerOfLowerCase("gold");
    StripOfStripped("gold");
    LowerOfLowerCase("platinum");
    StripOfStripped("platinum");
  }

  /** Without any set detail the details are the description, or "" when there is none. */
  lemma NoDetailsGivesDescription(o: RawOffer)
    requires !HasDetail(o)
    ensures FormatOfferDetails(o) == o.description.GetOr("")
  {}

  /** A zero-cost offer with nothing else set reads "free". */
  lemma FreeOfferDetails(o: RawOffer)
    requires IsFree(o)
    requires !NumberSet(o.percentage) && !NumberSet(o.durationMonths) && !NumberSet(o.newCost)
    requires !NumberSet(o.savings) && !TextSet(o.newPlan) && !TextSet(o.refundPromise)
    ensures FormatOfferDetails(o) == "free"
  {}

  /**
   * Each offer of the report comes from the raw offer at the same position: one offer per
   * raw offer, with the raw kind, the formatted details and authorization "agent" unless the
   * raw offer names one. The description is the raw one, or "" in the service-value list when
   * it is absent. An `explain_benefits` offer of the service-value list is rewritten instead.
   */
  lemma OffersFollowRules(customerTier: string, reason: string, rules: Rules, i: nat)
    requires var category := MapReasonToCategory(reason).0;
      i < |RawOffersFor(rules, category, MapReasonToCategory(reason).1, MapTierToCustomerType(customerTier))|
    ensures var report := RetentionOfferSpec(customerTier, reason, Parsed(rules));
      var category := MapReasonToCategory(reason).0;
      var raw := RawOffersFor(rules, category, MapReasonToCategory(reason).1, MapTierToCustomerType(customerTier));
      && |report.offers| == |raw|
      && (raw[i].authorization.None? ==> report.offers[i].authorization == "agent")
      && ((raw[i].authorization.Some? && !(category == "service_value" && raw[i].kind == Some(ExplainBenefits)))
           ==> report.offers[i].authorization == raw[i].authorization.value)
      && ((category != "service_value" || raw[i].kind != Some(ExplainBenefits))
           ==> report.offers[i].kind == raw[i].kind && report.offers[i].details == FormatOfferDetails(raw[i]))
      && (category != "service_value" ==> report.offers[i].description == raw[i].description)
      && ((category == "service_value" && raw[i].kind != Some(ExplainBenefits))
           ==> report.offers[i].description == Some(raw[i].description.GetOr("")))
      && ((category == "service_value" && raw[i].kind == Some(ExplainBenefits))
           ==> report.offers[i] == Offer(Some(ExplainBenefits), Some("Explain the value of their current plan"),
                                         "Benefits: " + Join(raw[i].benefits.GetOr([]), "; "), "agent"))
  {}

  /** A missing or broken rules file yields exactly the three default offers: discount, pause, downgrade. */
  lemma DefaultsWhenNoRules(customerTier: string, reason: string, file: RulesFile)
    requires !file.Parsed?
    ensures var offers := RetentionOfferSpec(customerTier, reason, file).offers;
      |offers| == 3 && offers[0].kind == Some("discount") && offers[1].kind == Some("pause")
      && offers[2].kind == Some("downgrade")
    ensures forall k :: 0 <= k < 3 ==> RetentionOfferSpec(customerTier, reason, file).offers[k].authorization == "agent"
  {}

  /** Agent limits default to 25, True and True. */
  lemma AgentLimitDefaults()
    ensures AgentAuthorityOf(AgentLimits(None, None, None)) == AgentAuthority(Number("25", false), true, true)
  {}

  /** From the rules file, the recommendation is always a text, never the nested table. */
  lemma ComputedRecommendationIsText(customerTier: string, reason: string, rules: Rules)
    ensures RetentionOfferSpec(customerTier, reason, Parsed(rules)).recommendation.Advice?
  {}

  /** An unknown issue falls back to the overheating advice; an unknown category to the listening advice. */
  lemma RecommendationFallbacks(category: string, issue: string)
    requires issue != "" && issue !in IssueAdvice
    requires category !in {"financial_hardship", "product_issues", "service_value"}
    ensures GetRecommendation("product_issues", Some(issue)) == Advice(OverheatingAdvice)
    ensures GetRecommendation(category, None) == Advice(FallbackAdvice)
    ensures GetRecommendation(UnmatchedCategory, None) == Advice(FallbackAdvice)
  {}

  /** The test's call (gold, "cost") reads the premium list of the financial-hardship rules. */
  lemma GoldCostUsesPremiumFinancialOffers(rules: Rules)
    ensures var report := RetentionOfferSpec("gold", "cost", Parsed(rules));
      |report.offers| == |Entries(rules.financialHardship, "premium_customers")|
  {
    LowerOfLowerCase("cost");
    StripOfStripped("cost");
    assert Contains("cost", FinancialWords[0]);
    TierExamples();
  }
}
