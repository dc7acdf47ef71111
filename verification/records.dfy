// The stored records the API routes read and write. Collections of records
// are sequences in the order the store returns them (newest first where a
// route asks for `createdAt desc`).

module Records {
  import opened Wrappers
  import opened PhaseStructure

  /** One row of the client phase state table. */
  datatype PhaseRow = PhaseRow(
    phaseId: string,
    status: Status,
    startedAt: Option<string>,
    completedAt: Option<string>,
    checklist: Option<map<string, bool>>)

  /** A client project; `plan` is its kit type. */
  datatype Client = Client(
    id: string,
    userId: string,
    email: string,
    name: Option<string>,
    plan: string,
    onboardingPercent: int,
    onboardingCompletedAt: Option<string>,
    currentDayOf14: Option<int>,
    nextFromUs: Option<string>,
    nextFromYou: Option<string>,
    phaseStates: seq<PhaseRow>)

  /** A stored quiz submission; `preferredKit` is LAUNCH, GROWTH or absent. */
  datatype QuizSubmission = QuizSubmission(
    id: string,
    email: string,
    fullName: string,
    phoneNumber: Option<string>,
    brandName: string,
    logoStatus: string,
    brandGoals: seq<string>,
    onlinePresence: string,
    audience: seq<string>,
    brandStyle: string,
    timeline: string,
    preferredKit: Option<string>)

  /** `subs[k]` is the email's first submission, which is its newest. */
  predicate NewestFor(subs: seq<QuizSubmission>, email: string, k: int) {
    0 <= k < |subs| && subs[k].email == email && forall j :: 0 <= j < k ==> subs[j].email != email
  }

  /** A project's onboarding is finished exactly when its percentage is 100. */
  predicate Finished(c: Client) {
    c.onboardingPercent == 100
  }
}
