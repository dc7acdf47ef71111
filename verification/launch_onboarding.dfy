// The three launch kit onboarding forms: the base form overlaid by the
// stored answers, the completion predicates and thresholds, the list edits,
// the step-2 quiz prefill, and the save and finish handlers.

module LaunchStep1 {
  import opened Wrappers
  import opened ListOps
  import opened OnboardingTypes
  import opened OnboardingDraft
  import PhaseStructure

  const TotalRequired := 7
  const NextPage := "/launch-kit/onboarding/step-2"
  const KitPage := "/launch-kit"

  /** Step-1 answers as stored: any key may be missing. */
  datatype StoredAnswers = StoredAnswers(
    business_name: Option<string>,
    name_and_role: Option<string>,
    contact_email: Option<string>,
    phone_whatsapp: Option<string>,
    social_links: Option<seq<SocialLink>>,
    what_you_sell: Option<string>,
    who_is_this_for: Option<string>)

  datatype LinkPart = Platform | Url

  const BlankLink := SocialLink("", "")

  function BaseForm(): LaunchStep1Fields {
    LaunchStep1Fields("", "", "", "", [BlankLink], "", "")
  }

  function Pick<T>(o: Option<T>, d: T): T {
    if o.Some? then o.value else d
  }

  /** `{...base, ...stored}`: a stored key wins, a missing one keeps the base value. */
  function Overlay(b: LaunchStep1Fields, s: StoredAnswers): LaunchStep1Fields {
    LaunchStep1Fields(Pick(s.business_name, b.business_name), Pick(s.name_and_role, b.name_and_role),
      Pick(s.contact_email, b.contact_email), Pick(s.phone_whatsapp, b.phone_whatsapp),
      Pick(s.social_links, b.social_links), Pick(s.what_you_sell, b.what_you_sell),
      Pick(s.who_is_this_for, b.who_is_this_for))
  }

  /** Every answer stored. */
  function AllStored(f: LaunchStep1Fields): StoredAnswers {
    StoredAnswers(Some(f.business_name), Some(f.name_and_role), Some(f.contact_email), Some(f.phone_whatsapp),
      Some(f.social_links), Some(f.what_you_sell), Some(f.who_is_this_for))
  }

  const NothingStored := StoredAnswers(None, None, None, None, None, None, None)

  /** The starting answers: the base form, overlaid by the step's fields when there are any. */
  function InitialForm(given: Option<StoredAnswers>): LaunchStep1Fields {
    if given.Some? then Overlay(BaseForm(), given.value) else BaseForm()
  }

  /**
   * The overlay restores a fully stored form whatever the base, keeps the
   * base when nothing is stored, and takes each stored key over the base.
   */
  lemma OverlayLaws(b: LaunchStep1Fields, f: LaunchStep1Fields, s: StoredAnswers)
    ensures Overlay(b, AllStored(f)) == f
    ensures Overlay(b, NothingStored) == b
    ensures InitialForm(Some(AllStored(f))) == f && InitialForm(None) == BaseForm()
    ensures s.contact_email.Some? ==> Overlay(b, s).contact_email == s.contact_email.value
    ensures s.contact_email.None? ==> Overlay(b, s).contact_email == b.contact_email
    ensures s.social_links.None? ==> Overlay(b, s).social_links == b.social_links
  {
  }

  /** Some link has both a platform and a url. */
  predicate HasSocialLink(links: seq<SocialLink>) {
    exists i :: 0 <= i < |links| && links[i].platform != "" && links[i].url != ""
  }

  /** The seven completion predicates. */
  function Required(f: LaunchStep1Fields): (r: seq<bool>)
    ensures |r| == TotalRequired
  {
    [f.business_name != "", f.name_and_role != "", f.contact_email != "", f.phone_whatsapp != "",
     HasSocialLink(f.social_links), f.what_you_sell != "", f.who_is_this_for != ""]
  }

  function CompletedCount(f: LaunchStep1Fields): (n: nat)
    ensures n <= TotalRequired
  {
    CountTrue(Required(f))
  }

  /** Complete once at least 6 of the 7 predicates hold. */
  predicate IsComplete(f: LaunchStep1Fields) {
    CompletedCount(f) >= 6
  }

  /** The base form answers nothing. */
  lemma BaseFormCountsNothing()
    ensures CompletedCount(BaseForm()) == 0
  {
    var b := BaseForm();
    assert !HasSocialLink(b.social_links) by {
      assert b.social_links == [BlankLink];
    }
    assert Required(b) == [false, false, false, false, false, false, false];
    SevenUnanswered();
  }

  lemma SevenUnanswered()
    ensures CountTrue([false, false, false, false, false, false, false]) == 0
  {
    CountTrueNone([false, false, false, false, false, false, false]);
  }

  function AddSocialLink(f: LaunchStep1Fields): (r: LaunchStep1Fields)
    ensures r.social_links == f.social_links + [BlankLink]
    ensures r.(social_links := f.social_links) == f
  {
    f.(social_links := f.social_links + [BlankLink])
  }

  function RemoveSocialLink(f: LaunchStep1Fields, i: int): (r: LaunchStep1Fields)
    ensures r.social_links == RemoveAt(f.social_links, i)
    ensures r.(social_links := f.social_links) == f
  {
    f.(social_links := RemoveAt(f.social_links, i))
  }

  function SetPart(l: SocialLink, part: LinkPart, v: string): SocialLink {
    match part
    case Platform => l.(platform := v)
    case Url => l.(url := v)
  }

  /** Change one part of link `i`; every other link and field stays. */
  function UpdateSocialLink(f: LaunchStep1Fields, i: int, part: LinkPart, v: string): (r: LaunchStep1Fields)
    ensures |r.social_links| == |f.social_links|
    ensures forall j :: 0 <= j < |f.social_links| && j != i ==> r.social_links[j] == f.social_links[j]
    ensures 0 <= i < |f.social_links| ==> r.social_links[i] == SetPart(f.social_links[i], part, v)
    ensures r.(social_links := f.social_links) == f
  {
    var ls := f.social_links;
    f.(social_links := if 0 <= i < |ls| then ls[i := SetPart(ls[i], part, v)] else ls)
  }

  /** Adding a blank link changes no predicate, and removing it again gives back the form. */
  lemma AddSocialLinkLaws(f: LaunchStep1Fields)
    ensures CompletedCount(AddSocialLink(f)) == CompletedCount(f)
    ensures RemoveSocialLink(AddSocialLink(f), |f.social_links|) == f
  {
    var g := AddSocialLink(f);
    assert HasSocialLink(g.social_links) <==> HasSocialLink(f.social_links) by {
      if HasSocialLink(g.social_links) {
        var i :| 0 <= i < |g.social_links| && g.social_links[i].platform != "" && g.social_links[i].url != "";
        assert i < |f.social_links|;
        assert f.social_links[i] == g.social_links[i];
      }
      if HasSocialLink(f.social_links) {
        var i :| 0 <= i < |f.social_links| && f.social_links[i].platform != "" && f.social_links[i].url != "";
        assert g.social_links[i] == f.social_links[i];
      }
    }
    assert Required(g) == Required(f);
    assert RemoveAt(f.social_links + [BlankLink], |f.social_links|) == f.social_links;
  }

  /**
   * The step-1 record the save writes: the count comes from the answers on
   * screen, the stored fields are those answers after the quiz re-merge.
   */
  function Saved(f: LaunchStep1Fields, stored: LaunchStep1Fields, startedAt: Option<string>, clock: Clock): (r: OnboardingStep)
    ensures r.step_number == 1 && r.fields == Launch1(stored)
    ensures r.required_fields_total == TotalRequired && r.required_fields_completed == CompletedCount(f)
    ensures r.status == StepDone <==> IsComplete(f)
    ensures r.completed_at.Some? <==> IsComplete(f)
    ensures Consistent(r)
  {
    StepRecord(1, "Tell us who you are", "About 5 minutes", TotalRequired, CompletedCount(f),
      IsComplete(f), Launch1(stored), startedAt, clock)
  }

  /**
   * `handleSave`: `stored` is the answers after the quiz re-merge (the
   * answers themselves when it fails); nothing is written without a session user.
   */
  method HandleSave(store: BrowserStorage, f: LaunchStep1Fields, stored: LaunchStep1Fields,
                    startedAt: Option<string>, continueToNext: bool, clock: Clock) returns (page: Option<string>)
    modifies store
    ensures store.user == old(store.user)
    ensures page.None? <==> old(store.user).None?
    ensures page.None? ==> store.drafts == old(store.drafts)
    ensures page.Some? ==>
      && store.drafts == AfterSave(old(store.drafts), old(store.user).value, PhaseStructure.LAUNCH, Saved(f, stored, startedAt, clock))
      && (page.value == NextPage <==> continueToNext && IsComplete(f))
      && (page.value != NextPage ==> page.value == KitPage)
  {
    var saved := store.SaveStep(PhaseStructure.LAUNCH, Saved(f, stored, startedAt, clock));
    if !saved {
      return None;
    }
    page := Some(SaveRoute(continueToNext, IsComplete(f), NextPage, KitPage));
  }
}

module LaunchStep2 {
  import opened Wrappers
  import opened Text
  import opened ListOps
  import opened FieldChecks
  import opened Percent
  import opened OnboardingTypes
  import opened OnboardingDraft
  import PhaseStructure

  /** The total the form declares, although it evaluates eight predicates. */
  const DeclaredTotal := 7
  /** The number of predicates the form evaluates. */
  const PredicateCount := 8
  const NextPage := "/launch-kit/onboarding/step-3"
  const KitPage := "/launch-kit"

  /** Step-2 answers as stored: any key may be missing. */
  datatype StoredAnswers = StoredAnswers(
    logo_url: Option<string>,
    brand_colors: Option<seq<string>>,
    brand_photos: Option<seq<string>>,
    inspiration_sites: Option<seq<string>>,
    ideal_client_description: Option<string>,
    top_3_problems: Option<seq<string>>,
    top_3_results: Option<seq<string>>,
    testimonials: Option<seq<string>>,
    review_links: Option<seq<string>>,
    voice_words: Option<seq<string>>,
    words_to_avoid: Option<string>)

  /** A value the quiz mapping offers for a key: null or undefined, a text, or a list. */
  datatype QuizValue = NoValue | Text(text: string) | TextList(items: seq<string>)

  /** The lists the form edits entry by entry. */
  datatype ListField = InspirationSites | Testimonials | ReviewLinks | Problems | Results | VoiceWords | BrandColors

  function BaseForm(): LaunchStep2Fields {
    LaunchStep2Fields("", [""], [], [""], "", ["", "", ""], ["", "", ""], [""], [""], ["", "", ""], "")
  }

  function Pick<T>(o: Option<T>, d: T): T {
    if o.Some? then o.value else d
  }

  /** `{...base, ...stored}`: a stored key wins, a missing one keeps the base value. */
  function Overlay(b: LaunchStep2Fields, s: StoredAnswers): LaunchStep2Fields {
    LaunchStep2Fields(Pick(s.logo_url, b.logo_url), Pick(s.brand_colors, b.brand_colors),
      Pick(s.brand_photos, b.brand_photos), Pick(s.inspiration_sites, b.inspiration_sites),
      Pick(s.ideal_client_description, b.ideal_client_description), Pick(s.top_3_problems, b.top_3_problems),
      Pick(s.top_3_results, b.top_3_results), Pick(s.testimonials, b.testimonials),
      Pick(s.review_links, b.review_links), Pick(s.voice_words, b.voice_words),
      Pick(s.words_to_avoid, b.words_to_avoid))
  }

  function AllStored(f: LaunchStep2Fields): StoredAnswers {
    StoredAnswers(Some(f.logo_url), Some(f.brand_colors), Some(f.brand_photos), Some(f.inspiration_sites),
      Some(f.ideal_client_description), Some(f.top_3_problems), Some(f.top_3_results), Some(f.testimonials),
      Some(f.review_links), Some(f.voice_words), Some(f.words_to_avoid))
  }

  const NothingStored := StoredAnswers(None, None, None, None, None, None, None, None, None, None, None)

  function InitialForm(given: Option<StoredAnswers>): LaunchStep2Fields {
    if given.Some? then Overlay(BaseForm(), given.value) else BaseForm()
  }

  /** The overlay restores a fully stored form and keeps the base when nothing is stored. */
  lemma OverlayLaws(b: LaunchStep2Fields, f: LaunchStep2Fields, s: StoredAnswers)
    ensures Overlay(b, AllStored(f)) == f
    ensures Overlay(b, NothingStored) == b
    ensures InitialForm(Some(AllStored(f))) == f && InitialForm(None) == BaseForm()
    ensures s.brand_photos.None? ==> Overlay(b, s).brand_photos == b.brand_photos
    ensures s.brand_photos.Some? ==> Overlay(b, s).brand_photos == s.brand_photos.value
  {
  }

  /** One key of the quiz prefill: only three keys are taken, and only non-null values of the right kind. */
  function PrefillOne(f: LaunchStep2Fields, key: string, v: QuizValue): LaunchStep2Fields {
    if v.NoValue? then f
    else if key == "voice_words" && v.TextList? then f.(voice_words := v.items)
    else if key == "top_3_results" && v.TextList? then f.(top_3_results := v.items)
    else if key == "ideal_client_description" && v.Text? then f.(ideal_client_description := v.text)
    else f
  }

  /** The prefill over the mapping's keys in order. */
  function PrefillAll(f: LaunchStep2Fields, mapped: seq<(string, QuizValue)>): LaunchStep2Fields
    decreases |mapped|
  {
    if mapped == [] then f
    else PrefillOne(PrefillAll(f, mapped[..|mapped| - 1]), mapped[|mapped| - 1].0, mapped[|mapped| - 1].1)
  }

  /** Whether the mapping offers a usable value for one of the three keys. */
  predicate Offers(mapped: seq<(string, QuizValue)>, key: string) {
    exists i :: 0 <= i < |mapped| && mapped[i].0 == key && !mapped[i].1.NoValue?
  }

  /**
   * The prefill changes nothing but voice words, top results and the ideal
   * client description, and leaves each of those alone unless the mapping
   * offers a non-null value for it.
   */
  lemma {:induction false} PrefillTouchesThree(f: LaunchStep2Fields, mapped: seq<(string, QuizValue)>)
    ensures var r := PrefillAll(f, mapped);
      && r.(voice_words := f.voice_words, top_3_results := f.top_3_results,
            ideal_client_description := f.ideal_client_description) == f
      && (!Offers(mapped, "voice_words") ==> r.voice_words == f.voice_words)
      && (!Offers(mapped, "top_3_results") ==> r.top_3_results == f.top_3_results)
      && (!Offers(mapped, "ideal_client_description") ==> r.ideal_client_description == f.ideal_client_description)
    decreases |mapped|
  {
    if mapped != [] {
      var init := mapped[..|mapped| - 1];
      PrefillTouchesThree(f, init);
      forall key | Offers(init, key)
        ensures Offers(mapped, key)
      {
        var i :| 0 <= i < |init| && init[i].0 == key && !init[i].1.NoValue?;
        assert mapped[i] == init[i];
      }
    }
  }

  /** A usable value for a key, offered last, is what the prefill leaves there. */
  lemma PrefillLastWins(f: LaunchStep2Fields, mapped: seq<(string, QuizValue)>, words: seq<string>)
    ensures PrefillAll(f, mapped + [("voice_words", TextList(words))]).voice_words == words
  {
    assert (mapped + [("voice_words", TextList(words))])[..|mapped|] == mapped;
  }

  /** The prefill loop over the mapping's keys. */
  method Prefill(f: LaunchStep2Fields, mapped: seq<(string, QuizValue)>) returns (r: LaunchStep2Fields)
    ensures r == PrefillAll(f, mapped)
  {
    r := f;
    var i := 0;
    while i < |mapped|
      invariant 0 <= i <= |mapped|
      invariant r == PrefillAll(f, mapped[..i])
    {
      var (key, v) := mapped[i];
      if !v.NoValue? {
        if key == "voice_words" && v.TextList? {
          r := r.(voice_words := v.items);
        } else if key == "top_3_results" && v.TextList? {
          r := r.(top_3_results := v.items);
        } else if key == "ideal_client_description" && v.Text? {
          r := r.(ideal_client_description := v.text);
        }
      }
      assert mapped[..i + 1][..i] == mapped[..i];
      i := i + 1;
    }
    assert mapped[..i] == mapped;
  }

  /** The eight predicates the form evaluates. */
  function Required(f: LaunchStep2Fields): (r: seq<bool>)
    ensures |r| == PredicateCount
  {
    [f.logo_url != "", AnyNonBlank(f.brand_colors), |f.brand_photos| > 0, f.ideal_client_description != "",
     AllNonBlank(f.top_3_problems), AllNonBlank(f.top_3_results), AnyNonBlank(f.testimonials),
     AllNonBlank(f.voice_words)]
  }

  function CompletedCount(f: LaunchStep2Fields): (n: nat)
    ensures n <= PredicateCount
  {
    CountTrue(Required(f))
  }

  /** Complete once at least 6 predicates hold. */
  predicate IsComplete(f: LaunchStep2Fields) {
    CompletedCount(f) >= 6
  }

  /** The base form answers nothing. */
  lemma BaseFormCountsNothing()
    ensures CompletedCount(BaseForm()) == 0
  {
    var b := BaseForm();
    EmptyHeadNotAll(b.top_3_problems);
    EmptyHeadNotAll(b.top_3_results);
    EmptyHeadNotAll(b.voice_words);
    assert !NonBlank("");
    assert !AnyNonBlank(b.brand_colors) by { assert b.brand_colors == [""]; }
    assert !AnyNonBlank(b.testimonials) by { assert b.testimonials == [""]; }
    assert Required(b) == [false, false, false, false, false, false, false, false];
    EightUnanswered();
  }

  lemma EightUnanswered()
    ensures CountTrue([false, false, false, false, false, false, false, false]) == 0
  {
    CountTrueNone([false, false, false, false, false, false, false, false]);
  }

  /** A form giving the same non-blank answer `w` wherever an answer is counted. */
  function AnsweredWith(w: string): LaunchStep2Fields {
    LaunchStep2Fields(w, [w], [w], [], w, [w, w, w], [w, w, w], [w], [], [w, w, w], "")
  }

  /** The step-2 record as the form writes it: the eight-predicate count against the declared total of 7. */
  function SavedAsWritten(f: LaunchStep2Fields, stored: LaunchStep2Fields, startedAt: Option<string>, clock: Clock): (r: OnboardingStep)
    ensures r.required_fields_total == DeclaredTotal && r.required_fields_completed == CompletedCount(f)
    ensures r.status == StepDone <==> IsComplete(f)
  {
    StepRecord(2, "Show us your brand", "About 8 minutes", DeclaredTotal, CompletedCount(f),
      IsComplete(f), Launch2(stored), startedAt, clock)
  }

  lemma ThreeAnswers(w: string)
    requires NonBlank(w)
    ensures AllNonBlank([w, w, w])
  {
    forall i | 0 <= i < 3
      ensures NonBlank([w, w, w][i])
    {
      assert [w, w, w][i] == w;
    }
  }

  lemma AnsweredCountsEight(w: string)
    requires NonBlank(w)
    ensures CompletedCount(AnsweredWith(w)) == PredicateCount
  {
    var a := AnsweredWith(w);
    assert w != "";
    assert AnyNonBlank(a.brand_colors) by { assert a.brand_colors[0] == w; }
    assert AnyNonBlank(a.testimonials) by { assert a.testimonials[0] == w; }
    ThreeAnswers(w);
    var r := Required(a);
    assert r[0] && r[1] && r[2] && r[3] && r[4] && r[5] && r[6] && r[7];
    AllOfEight(r);
  }

  /** Eight flags all hold when each of them does. */
  lemma AllOfEight(bs: seq<bool>)
    requires |bs| == 8
    requires bs[0] && bs[1] && bs[2] && bs[3] && bs[4] && bs[5] && bs[6] && bs[7]
    ensures forall i :: 0 <= i < |bs| ==> bs[i]
  {
  }

  /**
   * As written, a fully answered form stores 8 of 7 fields, and saving it
   * as the only step of a draft yields an onboarding percentage of 114.
   */
  lemma AsWrittenOverflows(w: string, startedAt: Option<string>, clock: Clock)
    requires NonBlank(w)
    ensures !Consistent(SavedAsWritten(AnsweredWith(w), AnsweredWith(w), startedAt, clock))
    ensures WithStep(EmptyDraft, SavedAsWritten(AnsweredWith(w), AnsweredWith(w), startedAt, clock)).onboarding_percent == 114
  {
    AnsweredCountsEight(w);
    var s := SavedAsWritten(AnsweredWith(w), AnsweredWith(w), startedAt, clock);
    assert UpsertStep([], s) == [s];
    assert s.required_fields_completed == 8;
    assert [s][1..] == [];
    assert SumTotal([s]) == 7;
    assert SumCompleted([s]) == 8;
  }

  /** The step-2 record with the total the count is taken over: the eight predicates. */
  function Saved(f: LaunchStep2Fields, stored: LaunchStep2Fields, startedAt: Option<string>, clock: Clock): (r: OnboardingStep)
    ensures r.step_number == 2 && r.fields == Launch2(stored)
    ensures r.required_fields_total == PredicateCount && r.required_fields_completed == CompletedCount(f)
    ensures r.status == StepDone <==> IsComplete(f)
    ensures r.completed_at.Some? <==> IsComplete(f)
    ensures Consistent(r)
  {
    StepRecord(2, "Show us your brand", "About 8 minutes", PredicateCount, CompletedCount(f),
      IsComplete(f), Launch2(stored), startedAt, clock)
  }

  /** With the corrected total, saving step 2 keeps the onboarding percentage within 0 to 100. */
  lemma SavedKeepsPercentBounded(d: Draft, f: LaunchStep2Fields, stored: LaunchStep2Fields,
                                 startedAt: Option<string>, clock: Clock)
    requires forall i :: 0 <= i < |d.steps| ==> Consistent(d.steps[i])
    ensures 0 <= WithStep(d, Saved(f, stored, startedAt, clock)).onboarding_percent <= 100
  {
    WithStepKeepsPercentBounded(d, Saved(f, stored, startedAt, clock));
  }

  function GetList(f: LaunchStep2Fields, k: ListField): seq<string> {
    match k
    case InspirationSites => f.inspiration_sites
    case Testimonials => f.testimonials
    case ReviewLinks => f.review_links
    case Problems => f.top_3_problems
    case Results => f.top_3_results
    case VoiceWords => f.voice_words
    case BrandColors => f.brand_colors
  }

  function SetList(f: LaunchStep2Fields, k: ListField, v: seq<string>): (r: LaunchStep2Fields)
    ensures GetList(r, k) == v
    ensures forall k' :: k' != k ==> GetList(r, k') == GetList(f, k')
    ensures r.logo_url == f.logo_url && r.brand_photos == f.brand_photos
    ensures r.ideal_client_description == f.ideal_client_description && r.words_to_avoid == f.words_to_avoid
  {
    match k
    case InspirationSites => f.(inspiration_sites := v)
    case Testimonials => f.(testimonials := v)
    case ReviewLinks => f.(review_links := v)
    case Problems => f.(top_3_problems := v)
    case Results => f.(top_3_results := v)
    case VoiceWords => f.(voice_words := v)
    case BrandColors => f.(brand_colors := v)
  }

  /** The lists that can grow and shrink: inspiration sites, testimonials and review links. */
  predicate Growable(k: ListField) {
    k == InspirationSites || k == Testimonials || k == ReviewLinks
  }

  /** Append `v` (by default the empty string) to a growable list. */
  function AddArrayItem(f: LaunchStep2Fields, k: ListField, v: string): (r: LaunchStep2Fields)
    requires Growable(k)
    ensures GetList(r, k) == GetList(f, k) + [v]
    ensures forall k' :: k' != k ==> GetList(r, k') == GetList(f, k')
  {
    SetList(f, k, GetList(f, k) + [v])
  }

  /** Delete entry `i` of a growable list, keeping the order of the rest. */
  function RemoveArrayItem(f: LaunchStep2Fields, k: ListField, i: int): (r: LaunchStep2Fields)
    requires Growable(k)
    ensures GetList(r, k) == RemoveAt(GetList(f, k), i)
    ensures forall k' :: k' != k ==> GetList(r, k') == GetList(f, k')
  {
    SetList(f, k, RemoveAt(GetList(f, k), i))
  }

  /** Replace entry `i` of a list. */
  function UpdateArrayItem(f: LaunchStep2Fields, k: ListField, i: int, v: string): (r: LaunchStep2Fields)
    ensures |GetList(r, k)| == |GetList(f, k)|
    ensures forall j :: 0 <= j < |GetList(f, k)| ==> GetList(r, k)[j] == (if j == i then v else GetList(f, k)[j])
    ensures forall k' :: k' != k ==> GetList(r, k') == GetList(f, k')
  {
    SetList(f, k, ReplaceAt(GetList(f, k), i, v))
  }

  /** Removing the entry just added gives back the form. */
  lemma AddThenRemoveRestores(f: LaunchStep2Fields, k: ListField, v: string)
    requires Growable(k)
    ensures RemoveArrayItem(AddArrayItem(f, k, v), k, |GetList(f, k)|) == f
  {
    var s := GetList(f, k);
    assert RemoveAt(s + [v], |s|) == s;
  }

  /** `handleSave`, with the step record counted over its eight predicates. */
  method HandleSave(store: BrowserStorage, f: LaunchStep2Fields, stored: LaunchStep2Fields,
                    startedAt: Option<string>, continueToNext: bool, clock: Clock) returns (page: Option<string>)
    modifies store
    ensures store.user == old(store.user)
    ensures page.None? <==> old(store.user).None?
    ensures page.None? ==> store.drafts == old(store.drafts)
    ensures page.Some? ==>
      && store.drafts == AfterSave(old(store.drafts), old(store.user).value, PhaseStructure.LAUNCH, Saved(f, stored, startedAt, clock))
      && (page.value == NextPage <==> continueToNext && IsComplete(f))
      && (page.value != NextPage ==> page.value == KitPage)
  {
    var saved := store.SaveStep(PhaseStructure.LAUNCH, Saved(f, stored, startedAt, clock));
    if !saved {
      return None;
    }
    page := Some(SaveRoute(continueToNext, IsComplete(f), NextPage, KitPage));
  }
}

module LaunchStep3 {
  import opened Wrappers
  import opened ListOps
  import opened OnboardingTypes
  import opened OnboardingDraft
  import PhaseStructure

  const TotalRequired := 3
  const HomePage := "/home"
  const KitPage := "/launch-kit"

  /** Step-3 answers as stored: any key may be missing. */
  datatype StoredAnswers = StoredAnswers(
    domain_provider: Option<string>,
    existing_site_platform: Option<string>,
    how_share_access: Option<string>,
    contact_form_email: Option<string>,
    privacy_terms_link: Option<string>)

  function BaseForm(): LaunchStep3Fields {
    LaunchStep3Fields("", "", "", "", "")
  }

  function Pick(o: Option<string>, d: string): string {
    if o.Some? then o.value else d
  }

  function Overlay(b: LaunchStep3Fields, s: StoredAnswers): LaunchStep3Fields {
    LaunchStep3Fields(Pick(s.domain_provider, b.domain_provider), Pick(s.existing_site_platform, b.existing_site_platform),
      Pick(s.how_share_access, b.how_share_access), Pick(s.contact_form_email, b.contact_form_email),
      Pick(s.privacy_terms_link, b.privacy_terms_link))
  }

  function AllStored(f: LaunchStep3Fields): StoredAnswers {
    StoredAnswers(Some(f.domain_provider), Some(f.existing_site_platform), Some(f.how_share_access),
      Some(f.contact_form_email), Some(f.privacy_terms_link))
  }

  function InitialForm(given: Option<StoredAnswers>): LaunchStep3Fields {
    if given.Some? then Overlay(BaseForm(), given.value) else BaseForm()
  }

  /** The overlay restores a fully stored form, and with nothing stored the base form is used. */
  lemma OverlayLaws(b: LaunchStep3Fields, f: LaunchStep3Fields)
    ensures Overlay(b, AllStored(f)) == f
    ensures Overlay(b, StoredAnswers(None, None, None, None, None)) == b
    ensures InitialForm(Some(AllStored(f))) == f && InitialForm(None) == BaseForm()
  {
  }

  /** The three completion predicates: domain provider, access and contact email. */
  function Required(f: LaunchStep3Fields): (r: seq<bool>)
    ensures |r| == TotalRequired
  {
    [f.domain_provider != "", f.how_share_access != "", f.contact_form_email != ""]
  }

  function CompletedCount(f: LaunchStep3Fields): (n: nat)
    ensures n <= TotalRequired
  {
    CountTrue(Required(f))
  }

  /** At least 2 of 3: computed, but it enables nothing. */
  predicate FormIsComplete(f: LaunchStep3Fields) {
    CompletedCount(f) >= 2
  }

  predicate AllFieldsComplete(f: LaunchStep3Fields) {
    CompletedCount(f) == TotalRequired
  }

  /**
   * Finishing needs exactly the domain provider, the access answer and the
   * contact email; the site platform and the privacy link are never counted.
   */
  lemma AllFieldsCompleteIff(f: LaunchStep3Fields, platform: string, link: string)
    ensures AllFieldsComplete(f) <==> f.domain_provider != "" && f.how_share_access != "" && f.contact_form_email != ""
    ensures AllFieldsComplete(f) ==> FormIsComplete(f)
    ensures CompletedCount(f.(existing_site_platform := platform, privacy_terms_link := link)) == CompletedCount(f)
  {
    var r := Required(f);
    if AllFieldsComplete(f) {
      assert r[0] && r[1] && r[2];
    }
    assert Required(f.(existing_site_platform := platform, privacy_terms_link := link)) == r;
  }

  /** The step-3 record the finish writes: DONE only with all three answers. */
  function Saved(f: LaunchStep3Fields, stored: LaunchStep3Fields, startedAt: Option<string>, clock: Clock): (r: OnboardingStep)
    ensures r.step_number == 3 && r.fields == Launch3(stored)
    ensures r.required_fields_total == TotalRequired && r.required_fields_completed == CompletedCount(f)
    ensures r.status == StepDone <==> AllFieldsComplete(f)
    ensures r.completed_at.Some? <==> AllFieldsComplete(f)
    ensures Consistent(r)
  {
    StepRecord(3, "Switch on the site", "About 5 minutes", TotalRequired, CompletedCount(f),
      AllFieldsComplete(f), Launch3(stored), startedAt, clock)
  }

  /** Where the finish leads: home (after a short delay) once finished, the kit page otherwise. */
  function FinishPage(outcome: FinishOutcome): (page: Option<string>)
    ensures outcome.Finished? ==> page == Some(HomePage)
    ensures outcome.NotFinished? ==> page == Some(KitPage)
    ensures outcome.NoUser? ==> page.None?
  {
    match outcome
    case Finished(_) => Some(HomePage)
    case NotFinished => Some(KitPage)
    case NoUser => None
  }

  /**
   * `handleFinish`: save step 3; with all three answers, mark the draft and
   * the session finished and build the commit, whose step fields are those
   * the quiz re-merge gives (`fieldsOf`).
   */
  method HandleFinish(store: BrowserStorage, f: LaunchStep3Fields, stored: LaunchStep3Fields,
                      startedAt: Option<string>, clock: Clock, fieldsOf: OnboardingStep -> StepFields)
    returns (outcome: FinishOutcome)
    modifies store
    ensures old(store.user).None? ==>
      outcome == NoUser && store.user == old(store.user) && store.drafts == old(store.drafts)
    ensures old(store.user).Some? && !AllFieldsComplete(f) ==>
      && outcome == NotFinished && store.user == old(store.user)
      && store.drafts == AfterSave(old(store.drafts), old(store.user).value, PhaseStructure.LAUNCH, Saved(f, stored, startedAt, clock))
    ensures old(store.user).Some? && AllFieldsComplete(f) ==>
      var u := old(store.user).value;
      var after := AfterSave(old(store.drafts), u, PhaseStructure.LAUNCH, Saved(f, stored, startedAt, clock));
      && store.drafts == AfterFinish(old(store.drafts), u, PhaseStructure.LAUNCH, Saved(f, stored, startedAt, clock))
      && store.user == Some(u.(onboarding_finished := true))
      && outcome == Finished(CommitRequest(u, SaveKit(u, PhaseStructure.LAUNCH),
                                           after[DraftKey(SaveKit(u, PhaseStructure.LAUNCH))].steps, clock.iso, fieldsOf))
  {
    outcome := store.Finish(PhaseStructure.LAUNCH, Saved(f, stored, startedAt, clock), AllFieldsComplete(f), clock.iso, fieldsOf);
  }
}
