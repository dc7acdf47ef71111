// The three growth kit onboarding forms: their required-field predicates and
// thresholds, the list edits they offer, the step record they save and where
// they navigate.

module GrowthStep1 {
  import opened Wrappers
  import opened ListOps
  import opened OnboardingTypes
  import opened OnboardingDraft
  import PhaseStructure

  const TotalRequired := 12
  const NextPage := "/growth-kit/onboarding/step-2"
  const KitPage := "/growth-kit"

  function EmptyForm(): GrowthStep1Fields {
    GrowthStep1Fields("", "", "", "", "", [], "", "", "", [], "", "", "")
  }

  /** The starting answers: the step's own fields, else step 1 of the stored draft, else the empty form. */
  function InitialForm(given: Option<StepFields>, user: Option<SessionUser>, drafts: map<string, Draft>): GrowthStep1Fields {
    if given.Some? && given.value.Growth1? then given.value.g1
    else
      var stored := StoredFields(user, drafts, 1);
      if stored.Some? && stored.value.Growth1? then stored.value.g1 else EmptyForm()
  }

  /** The twelve completion predicates; the website URL is not among them. */
  function Required(f: GrowthStep1Fields): (r: seq<bool>)
    ensures |r| == TotalRequired
  {
    [f.business_name != "", f.name_and_role != "", f.monthly_revenue_band != "", f.where_operate != "",
     |f.main_channels| > 0, f.offer_name != "", f.who_offer_for != "", f.what_included != "",
     |f.how_deliver| > 0, f.typical_timeline != "", f.pricing_payment != "", f.how_show_pricing != ""]
  }

  function CompletedCount(f: GrowthStep1Fields): (n: nat)
    ensures n <= TotalRequired
  {
    CountTrue(Required(f))
  }

  /** Complete once at least 10 of the 12 predicates hold. */
  predicate IsComplete(f: GrowthStep1Fields) {
    CompletedCount(f) >= 10
  }

  /** The empty form answers nothing. */
  lemma EmptyFormCountsNothing()
    ensures CompletedCount(EmptyForm()) == 0
  {
    assert Required(EmptyForm()) == [false, false, false, false, false, false, false, false, false, false, false, false];
    TwelveUnanswered();
  }

  lemma TwelveUnanswered()
    ensures CountTrue([false, false, false, false, false, false, false, false, false, false, false, false]) == 0
  {
    CountTrueNone([false, false, false, false, false, false, false, false, false, false, false, false]);
  }

  /** The count is full exactly when every required answer is given. */
  lemma FullCountIff(f: GrowthStep1Fields)
    ensures CompletedCount(f) == TotalRequired <==>
      (&& f.business_name != "" && f.name_and_role != "" && f.monthly_revenue_band != ""
       && f.where_operate != "" && |f.main_channels| > 0 && f.offer_name != ""
       && f.who_offer_for != "" && f.what_included != "" && |f.how_deliver| > 0
       && f.typical_timeline != "" && f.pricing_payment != "" && f.how_show_pricing != "")
  {
    AllOfTwelve(Required(f));
  }

  /** Twelve flags all hold exactly when each of them does. */
  lemma AllOfTwelve(bs: seq<bool>)
    requires |bs| == 12
    ensures (forall i :: 0 <= i < |bs| ==> bs[i]) <==>
      (bs[0] && bs[1] && bs[2] && bs[3] && bs[4] && bs[5] && bs[6] && bs[7] && bs[8] && bs[9] && bs[10] && bs[11])
  {
  }

  /** The website URL is asked for but never counted. */
  lemma WebsiteNotCounted(f: GrowthStep1Fields, url: string)
    ensures CompletedCount(f.(current_website_url := url)) == CompletedCount(f)
  {
    assert Required(f.(current_website_url := url)) == Required(f);
  }

  /** Tick or untick a channel. */
  function ToggleChannel(f: GrowthStep1Fields, c: string): (r: GrowthStep1Fields)
    ensures c in r.main_channels <==> c !in f.main_channels
    ensures r.(main_channels := f.main_channels) == f
  {
    f.(main_channels := Toggle(f.main_channels, c))
  }

  /** Tick or untick a delivery mode. */
  function ToggleDelivery(f: GrowthStep1Fields, d: string): (r: GrowthStep1Fields)
    ensures d in r.how_deliver <==> d !in f.how_deliver
    ensures r.(how_deliver := f.how_deliver) == f
  {
    f.(how_deliver := Toggle(f.how_deliver, d))
  }

  /** Ticking a box that was unticked and unticking it again gives back the form. */
  lemma ToggleTwiceRestores(f: GrowthStep1Fields, v: string)
    ensures v !in f.main_channels ==> ToggleChannel(ToggleChannel(f, v), v) == f
    ensures v !in f.how_deliver ==> ToggleDelivery(ToggleDelivery(f, v), v) == f
  {
    if v !in f.main_channels {
      ToggleTwice(f.main_channels, v);
    }
    if v !in f.how_deliver {
      ToggleTwice(f.how_deliver, v);
    }
  }

  /** The step-1 record the save writes. */
  function Saved(f: GrowthStep1Fields, startedAt: Option<string>, clock: Clock): (r: OnboardingStep)
    ensures r.step_number == 1 && r.fields == Growth1(f)
    ensures r.required_fields_total == TotalRequired && r.required_fields_completed == CompletedCount(f)
    ensures r.status == StepDone <==> IsComplete(f)
    ensures r.completed_at.Some? <==> IsComplete(f)
    ensures Consistent(r)
  {
    StepRecord(1, "Snapshot and main offer", "About 8 minutes", TotalRequired, CompletedCount(f),
      IsComplete(f), Growth1(f), startedAt, clock)
  }

  /** Reopening the form after a save resumes the saved answers. */
  lemma ResumesSavedAnswers(u: SessionUser, drafts: map<string, Draft>, f: GrowthStep1Fields,
                            startedAt: Option<string>, clock: Clock)
    requires Truthy(u.kitType)
    ensures InitialForm(None, Some(u), AfterSave(drafts, u, PhaseStructure.GROWTH, Saved(f, startedAt, clock))) == f
  {
    SavedStepReloads(u, drafts, PhaseStructure.GROWTH, Saved(f, startedAt, clock));
  }

  /** `handleSave`: nothing is written without a session user. */
  method HandleSave(store: BrowserStorage, f: GrowthStep1Fields, startedAt: Option<string>,
                    continueToNext: bool, clock: Clock) returns (page: Option<string>)
    modifies store
    ensures store.user == old(store.user)
    ensures page.None? <==> old(store.user).None?
    ensures page.None? ==> store.drafts == old(store.drafts)
    ensures page.Some? ==>
      && store.drafts == AfterSave(old(store.drafts), old(store.user).value, PhaseStructure.GROWTH, Saved(f, startedAt, clock))
      && (page.value == NextPage <==> continueToNext && IsComplete(f))
      && (page.value != NextPage ==> page.value == KitPage)
  {
    var saved := store.SaveStep(PhaseStructure.GROWTH, Saved(f, startedAt, clock));
    if !saved {
      return None;
    }
    page := Some(SaveRoute(continueToNext, IsComplete(f), NextPage, KitPage));
  }
}

module GrowthStep2 {
  import opened Wrappers
  import opened Text
  import opened ListOps
  import opened FieldChecks
  import opened OnboardingTypes
  import opened OnboardingDraft
  import PhaseStructure

  const TotalRequired := 9
  const NextPage := "/growth-kit/onboarding/step-3"
  const KitPage := "/growth-kit"

  /** The text lists the form edits entry by entry. */
  datatype ListField = Pains | Outcomes | VoiceWords | Testimonials | ReviewLinks | BuyerQuestions | Myths

  /** The lists the form can grow or shrink. */
  datatype GrowableField = GrowList(field: ListField) | CaseStudies

  datatype CasePart = ClientType | Problem | WhatYouDid | Result

  const BlankCase := CaseStudy("", "", "", "")

  function EmptyForm(): GrowthStep2Fields {
    GrowthStep2Fields("", ["", "", "", "", ""], ["", "", "", "", ""], "", "", "", ["", "", ""], "", [""],
      [BlankCase, BlankCase, BlankCase], [""], "", [""], ["", "", ""], "", "", "")
  }

  /** The starting answers: the step's own fields, else step 2 of the stored draft, else the empty form. */
  function InitialForm(given: Option<StepFields>, user: Option<SessionUser>, drafts: map<string, Draft>): GrowthStep2Fields {
    if given.Some? && given.value.Growth2? then given.value.g2
    else
      var stored := StoredFields(user, drafts, 2);
      if stored.Some? && stored.value.Growth2? then stored.value.g2 else EmptyForm()
  }

  predicate CaseFilled(c: CaseStudy) {
    NonBlank(c.client_type) && NonBlank(c.problem) && NonBlank(c.what_you_did) && NonBlank(c.result)
  }

  /** At least three case studies, each with all four parts filled in. */
  predicate CaseStudiesDone(cs: seq<CaseStudy>) {
    |cs| >= 3 && forall i :: 0 <= i < |cs| ==> CaseFilled(cs[i])
  }

  /** Some question, and at least ten non-blank ones. */
  predicate BuyerQuestionsDone(qs: seq<string>) {
    AnyNonBlank(qs) && CountNonBlank(qs) >= 10
  }

  /** The nine completion predicates. */
  function Required(f: GrowthStep2Fields): (r: seq<bool>)
    ensures |r| == TotalRequired
  {
    [f.ideal_client_description != "", AllNonBlank(f.top_5_pains), AllNonBlank(f.top_5_outcomes),
     f.common_objections != "", AllNonBlank(f.voice_words), AnyNonBlank(f.testimonials),
     CaseStudiesDone(f.case_studies), BuyerQuestionsDone(f.top_10_buyer_questions),
     AllNonBlank(f.common_mistakes_myths)]
  }

  function CompletedCount(f: GrowthStep2Fields): (n: nat)
    ensures n <= TotalRequired
  {
    CountTrue(Required(f))
  }

  /** Complete once at least 7 of the 9 predicates hold. */
  predicate IsComplete(f: GrowthStep2Fields) {
    CompletedCount(f) >= 7
  }

  /** The questions predicate is a count of at least ten non-blank entries. */
  lemma BuyerQuestionsIff(qs: seq<string>)
    ensures BuyerQuestionsDone(qs) <==> CountNonBlank(qs) >= 10
  {
    CountNonBlankIff(qs);
  }

  /** The empty form answers nothing. */
  lemma EmptyFormCountsNothing()
    ensures CompletedCount(EmptyForm()) == 0
  {
    var e := EmptyForm();
    EmptyHeadNotAll(e.top_5_pains);
    EmptyHeadNotAll(e.top_5_outcomes);
    EmptyHeadNotAll(e.voice_words);
    EmptyHeadNotAll(e.common_mistakes_myths);
    assert !NonBlank("");
    assert !AnyNonBlank(e.testimonials) by { assert e.testimonials == [""]; }
    assert !BuyerQuestionsDone(e.top_10_buyer_questions) by { assert e.top_10_buyer_questions == [""]; }
    assert !CaseStudiesDone(e.case_studies) by { assert !CaseFilled(e.case_studies[0]); }
    assert Required(e) == [false, false, false, false, false, false, false, false, false];
    NineUnanswered();
  }

  lemma NineUnanswered()
    ensures CountTrue([false, false, false, false, false, false, false, false, false]) == 0
  {
    CountTrueNone([false, false, false, false, false, false, false, false, false]);
  }

  /**
   * Emptied lists of pains, outcomes, voice words and myths count as
   * answered: every entry of an empty list is non-blank.
   */
  lemma EmptiedListsCount(f: GrowthStep2Fields)
    ensures var g := f.(top_5_pains := [], top_5_outcomes := [], voice_words := [], common_mistakes_myths := []);
      Required(g)[1] && Required(g)[2] && Required(g)[4] && Required(g)[8]
  {
  }

  function GetList(f: GrowthStep2Fields, k: ListField): seq<string> {
    match k
    case Pains => f.top_5_pains
    case Outcomes => f.top_5_outcomes
    case VoiceWords => f.voice_words
    case Testimonials => f.testimonials
    case ReviewLinks => f.review_links
    case BuyerQuestions => f.top_10_buyer_questions
    case Myths => f.common_mistakes_myths
  }

  /** The two forms agree on every single-text answer. */
  predicate SameTexts(a: GrowthStep2Fields, b: GrowthStep2Fields) {
    && a.ideal_client_description == b.ideal_client_description && a.common_objections == b.common_objections
    && a.reasons_choose_you == b.reasons_choose_you && a.competitors_alternatives == b.competitors_alternatives
    && a.words_to_avoid == b.words_to_avoid && a.logos_awards_features == b.logos_awards_features
    && a.topics_to_be_known_for == b.topics_to_be_known_for && a.existing_lead_magnet == b.existing_lead_magnet
    && a.keep_replace_lead_magnet == b.keep_replace_lead_magnet
  }

  function SetList(f: GrowthStep2Fields, k: ListField, v: seq<string>): (r: GrowthStep2Fields)
    ensures GetList(r, k) == v
    ensures forall k' :: k' != k ==> GetList(r, k') == GetList(f, k')
    ensures r.case_studies == f.case_studies && SameTexts(r, f)
  {
    match k
    case Pains => f.(top_5_pains := v)
    case Outcomes => f.(top_5_outcomes := v)
    case VoiceWords => f.(voice_words := v)
    case Testimonials => f.(testimonials := v)
    case ReviewLinks => f.(review_links := v)
    case BuyerQuestions => f.(top_10_buyer_questions := v)
    case Myths => f.(common_mistakes_myths := v)
  }

  /** Replace entry `i` of one list; everything else stays. */
  function UpdateArrayItem(f: GrowthStep2Fields, k: ListField, i: int, v: string): (r: GrowthStep2Fields)
    ensures |GetList(r, k)| == |GetList(f, k)|
    ensures forall j :: 0 <= j < |GetList(f, k)| ==> GetList(r, k)[j] == (if j == i then v else GetList(f, k)[j])
    ensures forall k' :: k' != k ==> GetList(r, k') == GetList(f, k')
    ensures r.case_studies == f.case_studies && SameTexts(r, f)
  {
    SetList(f, k, ReplaceAt(GetList(f, k), i, v))
  }

  /** Append one blank entry, or one blank case study. */
  function AddArrayItem(f: GrowthStep2Fields, g: GrowableField): (r: GrowthStep2Fields)
    ensures g.GrowList? ==> GetList(r, g.field) == GetList(f, g.field) + [""] && r.case_studies == f.case_studies
    ensures g.GrowList? ==> SameTexts(r, f)
    ensures g.GrowList? ==> forall k :: k != g.field ==> GetList(r, k) == GetList(f, k)
    ensures g.CaseStudies? ==> r == f.(case_studies := f.case_studies + [BlankCase])
  {
    match g
    case GrowList(k) => SetList(f, k, GetList(f, k) + [""])
    case CaseStudies => f.(case_studies := f.case_studies + [BlankCase])
  }

  /** Delete entry `i` of a list, or case study `i`, keeping the order of the rest. */
  function RemoveArrayItem(f: GrowthStep2Fields, g: GrowableField, i: int): (r: GrowthStep2Fields)
    ensures g.GrowList? ==> GetList(r, g.field) == RemoveAt(GetList(f, g.field), i) && r.case_studies == f.case_studies
    ensures g.GrowList? ==> SameTexts(r, f)
    ensures g.GrowList? ==> forall k :: k != g.field ==> GetList(r, k) == GetList(f, k)
    ensures g.CaseStudies? ==> r == f.(case_studies := RemoveAt(f.case_studies, i))
  {
    match g
    case GrowList(k) => SetList(f, k, RemoveAt(GetList(f, k), i))
    case CaseStudies => f.(case_studies := RemoveAt(f.case_studies, i))
  }

  /** Removing the entry just added gives back the form. */
  lemma AddThenRemoveRestores(f: GrowthStep2Fields, g: GrowableField)
    ensures var n := if g.GrowList? then |GetList(f, g.field)| else |f.case_studies|;
      RemoveArrayItem(AddArrayItem(f, g), g, n) == f
  {
    if g.GrowList? {
      var s := GetList(f, g.field);
      assert RemoveAt(s + [""], |s|) == s;
    } else {
      assert RemoveAt(f.case_studies + [BlankCase], |f.case_studies|) == f.case_studies;
    }
  }

  function SetPart(c: CaseStudy, part: CasePart, v: string): CaseStudy {
    match part
    case ClientType => c.(client_type := v)
    case Problem => c.(problem := v)
    case WhatYouDid => c.(what_you_did := v)
    case Result => c.(result := v)
  }

  /** Change one part of case study `i`; every other study and field stays. */
  function UpdateCaseStudy(f: GrowthStep2Fields, i: int, part: CasePart, v: string): (r: GrowthStep2Fields)
    ensures |r.case_studies| == |f.case_studies|
    ensures forall j :: 0 <= j < |f.case_studies| && j != i ==> r.case_studies[j] == f.case_studies[j]
    ensures 0 <= i < |f.case_studies| ==> r.case_studies[i] == SetPart(f.case_studies[i], part, v)
    ensures r.(case_studies := f.case_studies) == f
  {
    var cs := f.case_studies;
    f.(case_studies := if 0 <= i < |cs| then cs[i := SetPart(cs[i], part, v)] else cs)
  }

  /** The step-2 record the save writes. */
  function Saved(f: GrowthStep2Fields, startedAt: Option<string>, clock: Clock): (r: OnboardingStep)
    ensures r.step_number == 2 && r.fields == Growth2(f)
    ensures r.required_fields_total == TotalRequired && r.required_fields_completed == CompletedCount(f)
    ensures r.status == StepDone <==> IsComplete(f)
    ensures r.completed_at.Some? <==> IsComplete(f)
    ensures Consistent(r)
  {
    StepRecord(2, "Clients, proof and content fuel", "About 10 minutes", TotalRequired, CompletedCount(f),
      IsComplete(f), Growth2(f), startedAt, clock)
  }

  /** The completion banner: step 1 of the GROWTH draft is DONE. */
  predicate Step1Done(drafts: map<string, Draft>) {
    var key := DraftKey(PhaseStructure.GROWTH);
    key in drafts && FindStep(drafts[key].steps, 1).Some?
    && drafts[key].steps[FindStep(drafts[key].steps, 1).value].status == StepDone
  }

  /** The banner shows once a GROWTH session has saved a step 1 that is DONE. */
  lemma BannerAfterCompleteStep1(u: SessionUser, drafts: map<string, Draft>, s: OnboardingStep)
    requires u.kitType == Some(PhaseStructure.GROWTH)
    requires s.step_number == 1 && s.status == StepDone
    ensures Step1Done(AfterSave(drafts, u, PhaseStructure.GROWTH, s))
  {
    SavedStepReloads(u, drafts, PhaseStructure.GROWTH, s);
    var key := DraftKey(PhaseStructure.GROWTH);
    var d := ExistingDraft(drafts, key);
    UpsertStepEffect(d.steps, s);
    var steps := WithStep(d, s).steps;
    var at := FindStep(d.steps, 1);
    if at.Some? {
      assert FindStep(steps, 1) == at by {
        assert forall i :: 0 <= i < at.value ==> steps[i] == d.steps[i];
      }
    } else {
      assert FindStep(steps, 1) == Some(|d.steps|);
    }
  }

  /** `handleSave`: nothing is written without a session user. */
  method HandleSave(store: BrowserStorage, f: GrowthStep2Fields, startedAt: Option<string>,
                    continueToNext: bool, clock: Clock) returns (page: Option<string>)
    modifies store
    ensures store.user == old(store.user)
    ensures page.None? <==> old(store.user).None?
    ensures page.None? ==> store.drafts == old(store.drafts)
    ensures page.Some? ==>
      && store.drafts == AfterSave(old(store.drafts), old(store.user).value, PhaseStructure.GROWTH, Saved(f, startedAt, clock))
      && (page.value == NextPage <==> continueToNext && IsComplete(f))
      && (page.value != NextPage ==> page.value == KitPage)
  {
    var saved := store.SaveStep(PhaseStructure.GROWTH, Saved(f, startedAt, clock));
    if !saved {
      return None;
    }
    page := Some(SaveRoute(continueToNext, IsComplete(f), NextPage, KitPage));
  }
}

module GrowthStep3 {
  import opened Wrappers
  import opened ListOps
  import opened OnboardingTypes
  import opened OnboardingDraft
  import PhaseStructure

  const TotalRequired := 13
  const KitPage := "/growth-kit"

  function EmptyForm(): GrowthStep3Fields {
    GrowthStep3Fields("", "", "", "", "", "", "", "", "", [], "", "", "", "", "", "", "", "", [])
  }

  /** The starting answers: the step's own fields, else step 3 of the stored draft, else the empty form. */
  function InitialForm(given: Option<StepFields>, user: Option<SessionUser>, drafts: map<string, Draft>): GrowthStep3Fields {
    if given.Some? && given.value.Growth3? then given.value.g3
    else
      var stored := StoredFields(user, drafts, 3);
      if stored.Some? && stored.value.Growth3? then stored.value.g3 else EmptyForm()
  }

  /** The thirteen completion predicates. */
  function Required(f: GrowthStep3Fields): (r: seq<bool>)
    ensures |r| == TotalRequired
  {
    [f.current_site_platform != "", f.how_get_site_access != "", f.domain_registered != "",
     f.how_get_dns_access != "", f.email_platform != "", f.how_get_email_access != "",
     f.booking_link != "", |f.tracking_ads| > 0, f.privacy_policy_link != "",
     f.who_makes_decisions != "", f.preferred_communication != "", f.review_speed != "",
     |f.main_traffic_focus| > 0]
  }

  function CompletedCount(f: GrowthStep3Fields): (n: nat)
    ensures n <= TotalRequired
  {
    CountTrue(Required(f))
  }

  /** At least 10 of 13: computed by the form, but it enables nothing. */
  predicate FormIsComplete(f: GrowthStep3Fields) {
    CompletedCount(f) >= 10
  }

  /** All 13 predicates hold: what finishing requires. */
  predicate AllFieldsComplete(f: GrowthStep3Fields) {
    CompletedCount(f) == TotalRequired
  }

  /** Finishing needs every one of the thirteen answers; that implies the lenient threshold. */
  lemma AllFieldsCompleteIff(f: GrowthStep3Fields)
    ensures AllFieldsComplete(f) <==>
      (&& f.current_site_platform != "" && f.how_get_site_access != "" && f.domain_registered != ""
       && f.how_get_dns_access != "" && f.email_platform != "" && f.how_get_email_access != ""
       && f.booking_link != "" && |f.tracking_ads| > 0 && f.privacy_policy_link != ""
       && f.who_makes_decisions != "" && f.preferred_communication != "" && f.review_speed != ""
       && |f.main_traffic_focus| > 0)
    ensures AllFieldsComplete(f) ==> FormIsComplete(f)
  {
    var r := Required(f);
    AllOfThirteen(r);
    assert r[0] == (f.current_site_platform != "") && r[12] == (|f.main_traffic_focus| > 0);
  }

  /** Thirteen flags are all counted exactly when each of them holds. */
  lemma AllOfThirteen(bs: seq<bool>)
    requires |bs| == 13
    ensures CountTrue(bs) == 13 <==>
      (bs[0] && bs[1] && bs[2] && bs[3] && bs[4] && bs[5] && bs[6]
       && bs[7] && bs[8] && bs[9] && bs[10] && bs[11] && bs[12])
  {
  }

  /** A blank form cannot be finished. */
  lemma EmptyFormIncomplete()
    ensures !AllFieldsComplete(EmptyForm())
  {
    assert !Required(EmptyForm())[0];
  }

  /** The finish button is enabled only when not saving and every answer is given. */
  predicate FinishEnabled(isSaving: bool, f: GrowthStep3Fields) {
    !isSaving && AllFieldsComplete(f)
  }

  function ToggleTracking(f: GrowthStep3Fields, t: string): (r: GrowthStep3Fields)
    ensures t in r.tracking_ads <==> t !in f.tracking_ads
    ensures r.(tracking_ads := f.tracking_ads) == f
  {
    f.(tracking_ads := Toggle(f.tracking_ads, t))
  }

  function ToggleTrafficFocus(f: GrowthStep3Fields, t: string): (r: GrowthStep3Fields)
    ensures t in r.main_traffic_focus <==> t !in f.main_traffic_focus
    ensures r.(main_traffic_focus := f.main_traffic_focus) == f
  {
    f.(main_traffic_focus := Toggle(f.main_traffic_focus, t))
  }

  /** Ticking a box that was unticked and unticking it again gives back the form. */
  lemma ToggleTwiceRestores(f: GrowthStep3Fields, v: string)
    ensures v !in f.tracking_ads ==> ToggleTracking(ToggleTracking(f, v), v) == f
    ensures v !in f.main_traffic_focus ==> ToggleTrafficFocus(ToggleTrafficFocus(f, v), v) == f
  {
    if v !in f.tracking_ads {
      ToggleTwice(f.tracking_ads, v);
    }
    if v !in f.main_traffic_focus {
      ToggleTwice(f.main_traffic_focus, v);
    }
  }

  /** The step-3 record the finish writes: DONE only with all thirteen answers. */
  function Saved(f: GrowthStep3Fields, startedAt: Option<string>, clock: Clock): (r: OnboardingStep)
    ensures r.step_number == 3 && r.fields == Growth3(f)
    ensures r.required_fields_total == TotalRequired && r.required_fields_completed == CompletedCount(f)
    ensures r.status == StepDone <==> AllFieldsComplete(f)
    ensures r.completed_at.Some? <==> AllFieldsComplete(f)
    ensures Consistent(r)
  {
    StepRecord(3, "Systems and launch", "About 7 minutes", TotalRequired, CompletedCount(f),
      AllFieldsComplete(f), Growth3(f), startedAt, clock)
  }

  /** Where the finish leaves the browser: the kit page when incomplete, else the success panel (no navigation). */
  function FinishPage(outcome: FinishOutcome): (page: Option<string>)
    ensures page.Some? <==> outcome.NotFinished?
  {
    if outcome.NotFinished? then Some(KitPage) else None
  }

  /**
   * `handleFinish`: save step 3; with every answer given, mark the draft and
   * the session finished and build the commit from the saved fields.
   */
  method HandleFinish(store: BrowserStorage, f: GrowthStep3Fields, startedAt: Option<string>, clock: Clock)
    returns (outcome: FinishOutcome)
    modifies store
    ensures old(store.user).None? ==>
      outcome == NoUser && store.user == old(store.user) && store.drafts == old(store.drafts)
    ensures old(store.user).Some? && !AllFieldsComplete(f) ==>
      && outcome == NotFinished && store.user == old(store.user)
      && store.drafts == AfterSave(old(store.drafts), old(store.user).value, PhaseStructure.GROWTH, Saved(f, startedAt, clock))
    ensures old(store.user).Some? && AllFieldsComplete(f) ==>
      var u := old(store.user).value;
      var after := AfterSave(old(store.drafts), u, PhaseStructure.GROWTH, Saved(f, startedAt, clock));
      && store.drafts == AfterFinish(old(store.drafts), u, PhaseStructure.GROWTH, Saved(f, startedAt, clock))
      && store.user == Some(u.(onboarding_finished := true))
      && outcome == Finished(CommitRequest(u, SaveKit(u, PhaseStructure.GROWTH),
                                           after[DraftKey(SaveKit(u, PhaseStructure.GROWTH))].steps, clock.iso, OwnFields))
  {
    outcome := store.Finish(PhaseStructure.GROWTH, Saved(f, startedAt, clock), AllFieldsComplete(f), clock.iso, OwnFields);
  }
}
