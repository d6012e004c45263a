/**
 * The "my activity" screen: job cards with a status badge and, on the
 * current tab only, the action buttons their status allows; posting cards
 * with their own status badge; and the check-in button that hands a job to
 * the check-in modal.
 */
module MyActivity {

  import opened Wrappers
  import opened Seqs

  datatype Employer = Employer(name: string, phone: string)

  /** `JobActivity`; the optional fields are `None` when absent. */
  datatype JobActivity = JobActivity(
    id: string,
    title: string,
    company: string,
    kind: string,
    date: string,
    startTime: Option<string>,
    endTime: Option<string>,
    duration: string,
    pay: string,
    location: string,
    rating: Option<int>,
    review: Option<string>,
    applicants: Option<int>,
    employer: Option<Employer>)

  /** `MyPosting`. */
  datatype Posting = Posting(
    id: string,
    title: string,
    category: string,
    status: string,
    applicants: int,
    views: int,
    date: string,
    pay: string,
    duration: string,
    description: string)

  /** The buttons a job card can show. */
  datatype Action = CheckIn | Contact | Navigate | CancelApplication

  const Unknown: string := "알 수 없음"
  const Gray: string := "bg-gray-100 text-gray-800"

  /** The five kinds of job activity. */
  const JobKinds: set<string> := {"applied", "matched", "ongoing", "completed", "cancelled"}

  /** The three posting statuses. */
  const PostingStatuses: set<string> := {"active", "filled", "expired"}

  /** The job card's `getStatusText`. */
  function StatusText(kind: string): (t: string)
    ensures t == Unknown <==> kind !in JobKinds
    ensures kind == "applied" ==> t == "지원함"
    ensures kind == "matched" ==> t == "매칭됨"
    ensures kind == "ongoing" ==> t == "진행중"
    ensures kind == "completed" ==> t == "완료"
    ensures kind == "cancelled" ==> t == "취소됨"
  {
    if kind == "applied" then "지원함"
    else if kind == "matched" then "매칭됨"
    else if kind == "ongoing" then "진행중"
    else if kind == "completed" then "완료"
    else if kind == "cancelled" then "취소됨"
    else Unknown
  }

  /** Each known kind has a badge text of its own. */
  lemma StatusTextDistinguishesKinds(k1: string, k2: string)
    requires k1 in JobKinds && StatusText(k1) == StatusText(k2)
    ensures k1 == k2
  {
  }

  /** The job card's `getStatusColor`. */
  function StatusColor(kind: string): (c: string)
    ensures kind == "applied" ==> c == "bg-yellow-100 text-yellow-800"
    ensures kind == "matched" ==> c == "bg-blue-100 text-blue-800"
    ensures kind == "ongoing" ==> c == "bg-green-100 text-green-800"
    ensures kind == "cancelled" ==> c == "bg-red-100 text-red-800"
  {
    if kind == "applied" then "bg-yellow-100 text-yellow-800"
    else if kind == "matched" then "bg-blue-100 text-blue-800"
    else if kind == "ongoing" then "bg-green-100 text-green-800"
    else if kind == "completed" then Gray
    else if kind == "cancelled" then "bg-red-100 text-red-800"
    else Gray
  }

  /** A completed job's badge is coloured like an unknown one, and no other kind's is. */
  lemma GrayBadgeIffCompletedOrUnknown(kind: string)
    ensures StatusColor(kind) == Gray <==> kind == "completed" || kind !in JobKinds
  {
  }

  /** The posting card's `getStatusText`. */
  function PostingStatusText(status: string): (t: string)
    ensures t == Unknown <==> status !in PostingStatuses
    ensures status == "active" ==> t == "모집중"
    ensures status == "filled" ==> t == "모집완료"
    ensures status == "expired" ==> t == "만료됨"
  {
    if status == "active" then "모집중"
    else if status == "filled" then "모집완료"
    else if status == "expired" then "만료됨"
    else Unknown
  }

  /** The posting card's `getStatusColor`. */
  function PostingStatusColor(status: string): (c: string)
    ensures status == "active" ==> c == "bg-green-100 text-green-800"
    ensures status == "filled" ==> c == "bg-blue-100 text-blue-800"
  {
    if status == "active" then "bg-green-100 text-green-800"
    else if status == "filled" then "bg-blue-100 text-blue-800"
    else Gray
  }

  /** An expired posting's badge is coloured like an unknown status, and no other status's is. */
  lemma PostingGrayIffExpiredOrUnknown(status: string)
    ensures PostingStatusColor(status) == Gray <==> status == "expired" || status !in PostingStatuses
  {
  }

  /** The buttons of a job card: matched jobs get check-in, contact and directions, applied jobs a cancel button. */
  function Actions(job: JobActivity, showActions: bool): (r: seq<Action>)
    ensures CheckIn in r <==> showActions && job.kind == "matched"
    ensures Contact in r <==> showActions && job.kind == "matched"
    ensures Navigate in r <==> showActions && job.kind == "matched"
    ensures CancelApplication in r <==> showActions && job.kind == "applied"
  {
    if !showActions then []
    else if job.kind == "matched" then [CheckIn, Contact, Navigate]
    else if job.kind == "applied" then [CancelApplication]
    else []
  }

  /** A card never offers both checking in and cancelling the application. */
  lemma ActionSetsExclusive(job: JobActivity, showActions: bool)
    ensures !(CheckIn in Actions(job, showActions) && CancelApplication in Actions(job, showActions))
  {
  }

  /** A string is truthy in JavaScript when it is present and not empty. */
  predicate Truthy(s: Option<string>)
  {
    s.Some? && s.value != ""
  }

  /** The `{startTime} - {endTime}` line, drawn only when both times are truthy. */
  function TimeRange(job: JobActivity): (r: Option<string>)
    ensures r.Some? <==> Truthy(job.startTime) && Truthy(job.endTime)
    ensures r.Some? ==> r.value == job.startTime.value + " - " + job.endTime.value
  {
    if Truthy(job.startTime) && Truthy(job.endTime) then Some(job.startTime.value + " - " + job.endTime.value)
    else None
  }

  /** What `{job.applicants && (...)}` puts on the card. */
  datatype ApplicantsNode = ApplicantsLine(count: int) | StrayText(text: string)

  /**
   * The applicants line as written: React renders the left operand of a
   * falsy `&&` when it is a number, so a count of 0 shows a bare "0".
   */
  function ApplicantsAsWritten(applicants: Option<int>): (r: Option<ApplicantsNode>)
    ensures applicants == Some(0) ==> r == Some(StrayText("0"))
    ensures applicants.None? ==> r.None?
  {
    match applicants
    case None => None
    case Some(n) => if n == 0 then Some(StrayText("0")) else Some(ApplicantsLine(n))
  }

  /** The applicants line as intended: drawn for a non-zero count, nothing otherwise. */
  function Applicants(applicants: Option<int>): (r: Option<ApplicantsNode>)
    ensures r.Some? <==> applicants.Some? && applicants.value != 0
    ensures r.Some? ==> r == Some(ApplicantsLine(applicants.value))
  {
    if applicants.Some? && applicants.value != 0 then Some(ApplicantsLine(applicants.value)) else None
  }

  /** The two agree except on a zero count, where the card as written shows a stray "0". */
  lemma ZeroApplicantsShowStrayText(applicants: Option<int>)
    ensures applicants != Some(0) ==> ApplicantsAsWritten(applicants) == Applicants(applicants)
    ensures ApplicantsAsWritten(Some(0)) == Some(StrayText("0")) && Applicants(Some(0)).None?
  {
  }

  /** The parts of a job card that depend on its data. */
  datatype CardView = CardView(
    badgeText: string,
    badgeColor: string,
    timeRange: Option<string>,
    applicants: Option<ApplicantsNode>,
    actions: seq<Action>)

  /** `JobCard`, with the applicants line as intended. */
  function JobCard(job: JobActivity, showActions: bool): (v: CardView)
    ensures v.badgeText == StatusText(job.kind) && v.actions == Actions(job, showActions)
    ensures v.timeRange == TimeRange(job) && v.applicants == Applicants(job.applicants)
  {
    CardView(StatusText(job.kind), StatusColor(job.kind), TimeRange(job), Applicants(job.applicants),
             Actions(job, showActions))
  }

  function CurrentCard(job: JobActivity): CardView { JobCard(job, true) }
  function CompletedCard(job: JobActivity): CardView { JobCard(job, false) }

  /** The "current" tab: one card per job, with actions. */
  function CurrentTab(jobs: seq<JobActivity>): (cards: seq<CardView>)
    ensures |cards| == |jobs|
    ensures forall i :: 0 <= i < |jobs| ==> cards[i] == JobCard(jobs[i], true)
  {
    Map(jobs, CurrentCard)
  }

  /** The "completed" tab: one card per job, without actions. */
  function CompletedTab(jobs: seq<JobActivity>): (cards: seq<CardView>)
    ensures |cards| == |jobs|
    ensures forall i :: 0 <= i < |cards| ==> cards[i].actions == [] && cards[i].badgeText == StatusText(jobs[i].kind)
  {
    Map(jobs, CompletedCard)
  }

  /**
   * On the current tab a matched job can be checked in and an applied one
   * cancelled; the same jobs on the completed tab offer nothing.
   */
  lemma CurrentTabOffersCheckIn(jobs: seq<JobActivity>, i: int)
    requires 0 <= i < |jobs|
    ensures CheckIn in CurrentTab(jobs)[i].actions <==> jobs[i].kind == "matched"
    ensures CancelApplication in CurrentTab(jobs)[i].actions <==> jobs[i].kind == "applied"
    ensures CompletedTab(jobs)[i].actions == []
  {
  }

  /** The screen's state. */
  class Screen {
    var activeTab: string
    var showCheckIn: bool
    var showSchedule: bool
    var selectedJob: Option<JobActivity>
    var selectedPosting: Option<Posting>
    var showEditPosting: bool

    constructor ()
      ensures activeTab == "current" && !showCheckIn && !showSchedule && selectedJob == None
      ensures selectedPosting == None && !showEditPosting
    {
      activeTab := "current";
      showCheckIn := false;
      showSchedule := false;
      selectedJob := None;
      selectedPosting := None;
      showEditPosting := false;
    }

    /** `handleCheckIn(job)`: the job goes to the check-in modal, which opens. */
    method HandleCheckIn(job: JobActivity)
      modifies this
      ensures selectedJob == Some(job) && showCheckIn
      ensures activeTab == old(activeTab) && showSchedule == old(showSchedule)
      ensures selectedPosting == old(selectedPosting) && showEditPosting == old(showEditPosting)
    {
      selectedJob := Some(job);
      showCheckIn := true;
    }

    /** The check-in modal's `onClose`: it closes, keeping the selected job. */
    method CloseCheckIn()
      modifies this
      ensures !showCheckIn && selectedJob == old(selectedJob)
      ensures activeTab == old(activeTab) && showSchedule == old(showSchedule)
      ensures selectedPosting == old(selectedPosting) && showEditPosting == old(showEditPosting)
    {
      showCheckIn := false;
    }

    /** `handleEditPosting(posting)`: the posting goes to the edit modal, which opens. */
    method HandleEditPosting(posting: Posting)
      modifies this
      ensures selectedPosting == Some(posting) && showEditPosting
      ensures activeTab == old(activeTab) && showSchedule == old(showSchedule)
      ensures selectedJob == old(selectedJob) && showCheckIn == old(showCheckIn)
    {
      selectedPosting := Some(posting);
      showEditPosting := true;
    }

    method SetActiveTab(tab: string)
      modifies this
      ensures activeTab == tab
      ensures showCheckIn == old(showCheckIn) && showSchedule == old(showSchedule) && selectedJob == old(selectedJob)
      ensures selectedPosting == old(selectedPosting) && showEditPosting == old(showEditPosting)
    {
      activeTab := tab;
    }
  }
}
