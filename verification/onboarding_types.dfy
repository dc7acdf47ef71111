// The onboarding step record shared by the browser draft, the kit pages and
// the completion endpoint, the six step forms' field records, and the
// overall onboarding percentage.

module OnboardingTypes {
  import opened Wrappers
  import opened Percent

  datatype StepStatus = StepNotStarted | StepInProgress | StepDone {
    function Name(): string {
      match this
      case StepNotStarted => "NOT_STARTED"
      case StepInProgress => "IN_PROGRESS"
      case StepDone => "DONE"
    }
  }

  datatype SocialLink = SocialLink(platform: string, url: string)

  datatype CaseStudy = CaseStudy(client_type: string, problem: string, what_you_did: string, result: string)

  /** Growth kit step 1, "Snapshot and main offer". */
  datatype GrowthStep1Fields = GrowthStep1Fields(
    business_name: string,
    name_and_role: string,
    monthly_revenue_band: string,
    where_operate: string,
    current_website_url: string,
    main_channels: seq<string>,
    offer_name: string,
    who_offer_for: string,
    what_included: string,
    how_deliver: seq<string>,
    typical_timeline: string,
    pricing_payment: string,
    how_show_pricing: string)

  /** Growth kit step 2, "Clients, proof and content fuel". */
  datatype GrowthStep2Fields = GrowthStep2Fields(
    ideal_client_description: string,
    top_5_pains: seq<string>,
    top_5_outcomes: seq<string>,
    common_objections: string,
    reasons_choose_you: string,
    competitors_alternatives: string,
    voice_words: seq<string>,
    words_to_avoid: string,
    testimonials: seq<string>,
    case_studies: seq<CaseStudy>,
    review_links: seq<string>,
    logos_awards_features: string,
    top_10_buyer_questions: seq<string>,
    common_mistakes_myths: seq<string>,
    topics_to_be_known_for: string,
    existing_lead_magnet: string,
    keep_replace_lead_magnet: string)

  /** Growth kit step 3, "Systems and launch". */
  datatype GrowthStep3Fields = GrowthStep3Fields(
    current_site_platform: string,
    how_get_site_access: string,
    domain_registered: string,
    how_get_dns_access: string,
    email_platform: string,
    how_get_email_access: string,
    booking_link: string,
    use_crm: string,
    crm_details: string,
    tracking_ads: seq<string>,
    privacy_policy_link: string,
    terms_conditions_link: string,
    required_disclaimers: string,
    who_makes_decisions: string,
    secondary_contact: string,
    preferred_communication: string,
    review_speed: string,
    dates_offline: string,
    main_traffic_focus: seq<string>)

  /** Launch kit step 1, "Tell us who you are". */
  datatype LaunchStep1Fields = LaunchStep1Fields(
    business_name: string,
    name_and_role: string,
    contact_email: string,
    phone_whatsapp: string,
    social_links: seq<SocialLink>,
    what_you_sell: string,
    who_is_this_for: string)

  /** Launch kit step 2, "Show us your brand". */
  datatype LaunchStep2Fields = LaunchStep2Fields(
    logo_url: string,
    brand_colors: seq<string>,
    brand_photos: seq<string>,
    inspiration_sites: seq<string>,
    ideal_client_description: string,
    top_3_problems: seq<string>,
    top_3_results: seq<string>,
    testimonials: seq<string>,
    review_links: seq<string>,
    voice_words: seq<string>,
    words_to_avoid: string)

  /** Launch kit step 3, "Switch on the site". */
  datatype LaunchStep3Fields = LaunchStep3Fields(
    domain_provider: string,
    existing_site_platform: string,
    how_share_access: string,
    contact_form_email: string,
    privacy_terms_link: string)

  /** The `fields` payload of a step: the answers of whichever form saved it. */
  datatype StepFields =
    | Growth1(g1: GrowthStep1Fields)
    | Growth2(g2: GrowthStep2Fields)
    | Growth3(g3: GrowthStep3Fields)
    | Launch1(l1: LaunchStep1Fields)
    | Launch2(l2: LaunchStep2Fields)
    | Launch3(l3: LaunchStep3Fields)

  /**
   * One onboarding step as the draft keeps it and as the completion
   * endpoint receives it (without `id` there).
   */
  datatype OnboardingStep = OnboardingStep(
    id: Option<string>,
    step_number: int,
    title: string,
    status: StepStatus,
    required_fields_total: int,
    required_fields_completed: int,
    time_estimate: string,
    fields: StepFields,
    started_at: Option<string>,
    completed_at: Option<string>)

  function SumTotal(steps: seq<OnboardingStep>): int {
    if steps == [] then 0 else steps[0].required_fields_total + SumTotal(steps[1..])
  }

  function SumCompleted(steps: seq<OnboardingStep>): int {
    if steps == [] then 0 else steps[0].required_fields_completed + SumCompleted(steps[1..])
  }

  /** The overall onboarding percentage: completed over required fields summed across steps, rounded. */
  function StepsPercent(steps: seq<OnboardingStep>): int {
    RoundPercent(SumCompleted(steps), SumTotal(steps))
  }

  /** A step that does not claim more answers than it requires. */
  predicate Consistent(s: OnboardingStep) {
    0 <= s.required_fields_completed <= s.required_fields_total
  }

  lemma {:induction false} SumsBounded(steps: seq<OnboardingStep>)
    requires forall i :: 0 <= i < |steps| ==> Consistent(steps[i])
    ensures 0 <= SumCompleted(steps) <= SumTotal(steps)
  {
    if steps != [] {
      SumsBounded(steps[1..]);
    }
  }

  /** With consistent steps the overall percentage lies between 0 and 100. */
  lemma StepsPercentBounded(steps: seq<OnboardingStep>)
    requires forall i :: 0 <= i < |steps| ==> Consistent(steps[i])
    ensures 0 <= StepsPercent(steps) <= 100
  {
    SumsBounded(steps);
    PercentBounds(SumCompleted(steps), SumTotal(steps));
  }

  /** Replacing one step changes the sums by exactly the difference of the two steps. */
  lemma {:induction false} SumsReplace(steps: seq<OnboardingStep>, i: int, s: OnboardingStep)
    requires 0 <= i < |steps|
    ensures SumTotal(steps[i := s]) == SumTotal(steps) - steps[i].required_fields_total + s.required_fields_total
    ensures SumCompleted(steps[i := s]) == SumCompleted(steps) - steps[i].required_fields_completed + s.required_fields_completed
  {
    if i > 0 {
      assert steps[i := s][1..] == steps[1..][i - 1 := s];
      SumsReplace(steps[1..], i - 1, s);
    }
  }

  lemma {:induction false} SumsAppend(steps: seq<OnboardingStep>, s: OnboardingStep)
    ensures SumTotal(steps + [s]) == SumTotal(steps) + s.required_fields_total
    ensures SumCompleted(steps + [s]) == SumCompleted(steps) + s.required_fields_completed
  {
    if steps == [] {
      assert [s][1..] == [];
    } else {
      assert (steps + [s])[1..] == steps[1..] + [s];
      SumsAppend(steps[1..], s);
    }
  }
}

/** The blank checks the forms apply to lists of answers (`s.trim()` truthy). */
module FieldChecks {
  import opened Text

  /** `list.every(x => x.trim())`: vacuously true on an empty list. */
  predicate AllNonBlank(s: seq<string>) {
    forall i :: 0 <= i < |s| ==> NonBlank(s[i])
  }

  /** `list.some(x => x.trim())`. */
  predicate AnyNonBlank(s: seq<string>) {
    exists i :: 0 <= i < |s| && NonBlank(s[i])
  }

  /** A list whose first entry is empty is not all answered. */
  lemma EmptyHeadNotAll(s: seq<string>)
    requires |s| > 0 && s[0] == ""
    ensures !AllNonBlank(s)
  {
    assert !NonBlank(s[0]);
  }

  /** `list.filter(x => x.trim()).length`. */
  function CountNonBlank(s: seq<string>): (n: nat)
    ensures n <= |s|
  {
    if s == [] then 0 else (if NonBlank(s[0]) then 1 else 0) + CountNonBlank(s[1..])
  }

  /** Some answer is non-blank exactly when the count is positive; all are exactly when it is full. */
  lemma {:induction false} CountNonBlankIff(s: seq<string>)
    ensures CountNonBlank(s) > 0 <==> AnyNonBlank(s)
    ensures CountNonBlank(s) == |s| <==> AllNonBlank(s)
  {
    if s != [] {
      CountNonBlankIff(s[1..]);
      AnyHeadTail(s);
      AllHeadTail(s);
    }
  }

  /** Some entry is non-blank exactly when the first is or one of the rest is. */
  lemma AnyHeadTail(s: seq<string>)
    requires s != []
    ensures AnyNonBlank(s) <==> NonBlank(s[0]) || AnyNonBlank(s[1..])
  {
    var t := s[1..];
    if AnyNonBlank(s) && !NonBlank(s[0]) {
      var i :| 0 <= i < |s| && NonBlank(s[i]);
      assert t[i - 1] == s[i];
    }
    if AnyNonBlank(t) {
      var i :| 0 <= i < |t| && NonBlank(t[i]);
      assert s[i + 1] == t[i];
    }
  }

  /** Every entry is non-blank exactly when the first is and all the rest are. */
  lemma AllHeadTail(s: seq<string>)
    requires s != []
    ensures AllNonBlank(s) <==> NonBlank(s[0]) && AllNonBlank(s[1..])
  {
    var t := s[1..];
    if AllNonBlank(s) {
      forall i | 0 <= i < |t| ensures NonBlank(t[i]) {
        assert t[i] == s[i + 1];
      }
    }
    if NonBlank(s[0]) && AllNonBlank(t) {
      forall i | 0 <= i < |s| ensures NonBlank(s[i]) {
        if i > 0 { assert s[i] == t[i - 1]; }
      }
    }
  }
}
