/** The calendar entities of the calendar manager and its pure helpers: the uniform
    event record, the mapping of the two providers' events into it, the keyword
    heuristics (travel time, preparation time, meeting type) and the meeting
    preparation assistant's derived values. */
module Calendar {
  import opened Common
  import opened Clock

  datatype EventStatus = Confirmed | Tentative | Cancelled

  /** A stored calendar event. Times are milliseconds; `start < end` is assumed by the
      source, not enforced, so the model does not require it either. */
  datatype CalendarEvent = CalendarEvent(
    id: string,
    title: string,
    description: Option<string>,
    start: int,
    end: int,
    location: Option<string>,
    attendees: seq<string>,
    isAllDay: bool,
    status: EventStatus,
    priority: Level,
    reminders: seq<int>)

  // ------------------------------------------------------- provider mapping

  /** Google sends either a `dateTime` (a timed event) or a `date` (an all-day event). */
  datatype GoogleTime = DateTime(ms: int) | Date(ms: int) {
    function Ms(): int {
      match this
      case DateTime(t) => t
      case Date(t) => t
    }
  }

  /** The fields of a Google Calendar event that the converter reads. */
  datatype GoogleEvent = GoogleEvent(
    id: string,
    summary: Option<string>,
    description: Option<string>,
    start: GoogleTime,
    end: GoogleTime,
    location: Option<string>,
    attendeeEmails: Option<seq<string>>,
    status: Option<string>,
    reminderOverrides: Option<seq<int>>)

  /** The fields of a Microsoft Graph event that the converter reads. */
  datatype OutlookEvent = OutlookEvent(
    id: string,
    subject: Option<string>,
    bodyPreview: Option<string>,
    start: int,
    end: int,
    locationName: Option<string>,
    attendeeAddresses: seq<string>,
    isAllDay: bool,
    isCancelled: bool,
    response: Option<string>,
    importance: Option<string>)

  /** `convertGoogleEvent`. */
  function ConvertGoogleEvent(g: GoogleEvent): (e: CalendarEvent)
    ensures StartsWith(e.id, "google_") && e.id[|"google_"|..] == g.id
    ensures e.title != ""
    ensures Truthy(g.summary) ==> e.title == g.summary.value
    ensures !Truthy(g.summary) ==> e.title == "Untitled Event"
    ensures e.start == g.start.Ms() && e.end == g.end.Ms()
    ensures e.description == g.description && e.location == g.location
    ensures e.attendees == if g.attendeeEmails.Some? then g.attendeeEmails.value else []
    ensures e.isAllDay <==> g.start.Date?
    ensures e.status == Cancelled <==> g.status == Some("cancelled")
    ensures e.status == Tentative <==> g.status == Some("tentative")
    ensures e.priority == Medium
    ensures g.reminderOverrides.None? ==> e.reminders == [15]
    ensures g.reminderOverrides.Some? ==> e.reminders == g.reminderOverrides.value
  {
    CalendarEvent(
      "google_" + g.id,
      OrElse(g.summary, "Untitled Event"),
      g.description,
      g.start.Ms(),
      g.end.Ms(),
      g.location,
      g.attendeeEmails.GetOr([]),
      !g.start.DateTime?,
      if g.status == Some("cancelled") then Cancelled
      else if g.status == Some("tentative") then Tentative
      else Confirmed,
      Medium,
      g.reminderOverrides.GetOr([15]))
  }

  /** `convertOutlookEvent`. */
  function ConvertOutlookEvent(o: OutlookEvent): (e: CalendarEvent)
    ensures StartsWith(e.id, "outlook_") && e.id[|"outlook_"|..] == o.id
    ensures e.title != ""
    ensures Truthy(o.subject) ==> e.title == o.subject.value
    ensures !Truthy(o.subject) ==> e.title == "Untitled Event"
    ensures e.start == o.start && e.end == o.end
    ensures e.description == o.bodyPreview && e.location == o.locationName
    ensures e.attendees == o.attendeeAddresses && e.isAllDay == o.isAllDay
    ensures e.status == Cancelled <==> o.isCancelled
    ensures e.status == Tentative <==> !o.isCancelled && o.response == Some("tentativelyAccepted")
    ensures e.priority == High <==> o.importance == Some("high")
    ensures e.priority == Low <==> o.importance == Some("low")
    ensures e.reminders == [15]
  {
    CalendarEvent(
      "outlook_" + o.id,
      OrElse(o.subject, "Untitled Event"),
      o.bodyPreview,
      o.start,
      o.end,
      o.locationName,
      o.attendeeAddresses,
      o.isAllDay,
      if o.isCancelled then Cancelled
      else if o.response == Some("tentativelyAccepted") then Tentative
      else Confirmed,
      if o.importance == Some("high") then High
      else if o.importance == Some("low") then Low
      else Medium,
      [15])
  }

  // ------------------------------------------------------------- heuristics

  /** `estimateTravelTime`: minutes between two locations by keyword. */
  function TravelTime(from: string, to: string): (r: int)
    ensures r == 5 || r == 20 || r == 30
    ensures (Contains(Lower(from), "home") || Contains(Lower(to), "home")) <==> r == 20
    ensures r == 5 <==> !Contains(Lower(from), "home") && !Contains(Lower(to), "home")
                        && Contains(Lower(from), "office") && Contains(Lower(to), "office")
  {
    if Contains(Lower(from), "home") || Contains(Lower(to), "home") then 20
    else if Contains(Lower(from), "office") && Contains(Lower(to), "office") then 5
    else 30
  }

  /** The estimate does not depend on the direction of travel. */
  lemma TravelTimeSymmetric(a: string, b: string)
    ensures TravelTime(a, b) == TravelTime(b, a)
  {
  }

  /** `getDefaultPrepTime`: minutes of preparation a meeting title calls for. */
  function DefaultPrepTime(title: string): (r: int)
    ensures r in {15, 30, 10, 2, 5}
    ensures Contains(Lower(title), "interview") ==> r == 15
    ensures (!Contains(Lower(title), "interview")
             && (Contains(Lower(title), "presentation") || Contains(Lower(title), "demo"))) ==> r == 30
    ensures (!Contains(Lower(title), "interview")
             && !Contains(Lower(title), "presentation") && !Contains(Lower(title), "demo")
             && (Contains(Lower(title), "review") || Contains(Lower(title), "planning"))) ==> r == 10
    ensures (!Contains(Lower(title), "interview")
             && !Contains(Lower(title), "presentation") && !Contains(Lower(title), "demo")
             && !Contains(Lower(title), "review") && !Contains(Lower(title), "planning")
             && (Contains(Lower(title), "standup") || Contains(Lower(title), "daily"))) ==> r == 2
    ensures r == 5 <==> !Contains(Lower(title), "interview")
                        && !Contains(Lower(title), "presentation") && !Contains(Lower(title), "demo")
                        && !Contains(Lower(title), "review") && !Contains(Lower(title), "planning")
                        && !Contains(Lower(title), "standup") && !Contains(Lower(title), "daily")
  {
    var t := Lower(title);
    if Contains(t, "interview") then 15
    else if Contains(t, "presentation") || Contains(t, "demo") then 30
    else if Contains(t, "review") || Contains(t, "planning") then 10
    else if Contains(t, "standup") || Contains(t, "daily") then 2
    else 5
  }

  datatype MeetingType = Interview | Review | Planning | Standup | Social | General

  /** The keywords that select each meeting type, in the order the code checks them. */
  function Keywords(t: MeetingType): seq<string> {
    match t
    case Interview => InterviewWords
    case Review => ReviewWords
    case Planning => PlanningWords
    case Standup => StandupWords
    case Social => SocialWords
    case General => []
  }

  const InterviewWords: seq<string> := ["interview"]
  const ReviewWords: seq<string> := ["review", "retrospective"]
  const PlanningWords: seq<string> := ["planning", "roadmap"]
  const StandupWords: seq<string> := ["standup", "daily"]
  const SocialWords: seq<string> := ["social", "lunch", "coffee"]

  const TypeOrder: seq<MeetingType> := [Interview, Review, Planning, Standup, Social]

  predicate MentionsAny(text: string, words: seq<string>) {
    exists i :: 0 <= i < |words| && Contains(text, words[i])
  }

  /** The text `identifyMeetingType` searches: lower-cased title, a space, lower-cased
      description. */
  function MeetingText(e: CalendarEvent): string {
    Lower(e.title) + " " + Lower(e.description.GetOr(""))
  }

  /** `identifyMeetingType`. */
  function IdentifyMeetingType(e: CalendarEvent): (t: MeetingType)
  {
    var c := MeetingText(e);
    if Contains(c, "interview") then Interview
    else if Contains(c, "review") || Contains(c, "retrospective") then Review
    else if Contains(c, "planning") || Contains(c, "roadmap") then Planning
    else if Contains(c, "standup") || Contains(c, "daily") then Standup
    else if Contains(c, "social") || Contains(c, "lunch") || Contains(c, "coffee") then Social
    else General
  }

  /** The reference reading of the keyword table: the first type in `types` whose
      keywords the text mentions, or `General` when there is none. */
  function FirstMatch(text: string, types: seq<MeetingType>): (t: MeetingType)
    ensures t == General || t in types
    ensures t != General ==> MentionsAny(text, Keywords(t))
  {
    if types == [] then General
    else if MentionsAny(text, Keywords(types[0])) then types[0]
    else FirstMatch(text, types[1..])
  }

  /** A type listed after one the text mentions is never chosen: earlier rows of the
      table take precedence. */
  lemma {:induction false} FirstMatchPrecedence(text: string, types: seq<MeetingType>, i: nat, j: nat)
    requires i < j < |types| && MentionsAny(text, Keywords(types[i]))
    requires forall a, b :: 0 <= a < b < |types| ==> types[a] != types[b]
    ensures FirstMatch(text, types) != types[j]
    decreases |types|
  {
    if i > 0 && !MentionsAny(text, Keywords(types[0])) {
      FirstMatchPrecedence(text, types[1..], i - 1, j - 1);
    } else if i > 0 {
      assert types[0] != types[j];
    }
  }

  /** A type of the table that the text mentions forces a typed result. With
      `FirstMatchPrecedence` this makes the result the first such type. */
  lemma {:induction false} FirstMatchFound(text: string, types: seq<MeetingType>, i: nat)
    requires i < |types| && MentionsAny(text, Keywords(types[i]))
    ensures FirstMatch(text, types) != General
    decreases |types|
  {
    if i > 0 && !MentionsAny(text, Keywords(types[0])) {
      assert types[1..][i - 1] == types[i];
      FirstMatchFound(text, types[1..], i - 1);
    }
  }

  lemma MentionsOne(c: string, w: string)
    ensures MentionsAny(c, [w]) <==> Contains(c, w)
  {
    if Contains(c, w) { assert Contains(c, [w][0]); }
  }

  lemma MentionsTwo(c: string, w0: string, w1: string)
    ensures MentionsAny(c, [w0, w1]) <==> Contains(c, w0) || Contains(c, w1)
  {
    var w := [w0, w1];
    if Contains(c, w0) { assert Contains(c, w[0]); }
    if Contains(c, w1) { assert Contains(c, w[1]); }
  }

  /** The last row of the keyword table. */
  lemma SocialRow(c: string)
    ensures FirstMatch(c, [Social]) ==
            if Contains(c, "social") || Contains(c, "lunch") || Contains(c, "coffee") then Social else General
  {
    var w := ["social", "lunch", "coffee"];
    if Contains(c, "social") { assert Contains(c, w[0]); }
    if Contains(c, "lunch") { assert Contains(c, w[1]); }
    if Contains(c, "coffee") { assert Contains(c, w[2]); }
    assert MentionsAny(c, w) <==> Contains(c, "social") || Contains(c, "lunch") || Contains(c, "coffee");
  }

  /** The planning and standup rows of the keyword table. */
  lemma MiddleRows(c: string)
    ensures FirstMatch(c, [Planning, Standup, Social]) ==
            if Contains(c, "planning") || Contains(c, "roadmap") then Planning
            else if Contains(c, "standup") || Contains(c, "daily") then Standup
            else FirstMatch(c, [Social])
  {
    MentionsTwo(c, "planning", "roadmap");
    MentionsTwo(c, "standup", "daily");
    assert [Planning, Standup, Social][1..] == [Standup, Social];
    assert [Standup, Social][1..] == [Social];
  }

  /** `identifyMeetingType` is the first-match reading of the keyword table, in the
      order interview, review, planning, standup, social. */
  lemma MeetingTypeByTable(e: CalendarEvent)
    ensures IdentifyMeetingType(e) == FirstMatch(MeetingText(e), TypeOrder)
  {
    var c := MeetingText(e);
    MentionsOne(c, "interview");
    MentionsTwo(c, "review", "retrospective");
    SocialRow(c);
    MiddleRows(c);
    assert TypeOrder[1..] == [Review, Planning, Standup, Social];
    assert TypeOrder[1..][1..] == [Planning, Standup, Social];
  }

  // ----------------------------------------------------- meeting preparation

  const ReviewDocuments: seq<string> := ["Performance metrics", "Previous review notes", "Goal tracking spreadsheet"]
  const PlanningDocuments: seq<string> := ["Project timeline", "Resource allocation sheet", "Budget information"]
  const InterviewDocuments: seq<string> := ["Resume/CV", "Job description", "Interview question template"]
  const AlwaysNeeded: seq<string> := ["Meeting agenda", "Previous meeting notes"]

  predicate MentionsReview(e: CalendarEvent) {
    Contains(Lower(e.title), "review") || Contains(Lower(e.description.GetOr("")), "review")
  }

  predicate MentionsPlanning(e: CalendarEvent) {
    Contains(Lower(e.title), "planning") || Contains(Lower(e.description.GetOr("")), "planning")
  }

  /** The documents pushed, in order, before duplicates are removed. */
  function DocumentsFor(e: CalendarEvent): seq<string> {
    (if MentionsReview(e) then ReviewDocuments else [])
    + (if MentionsPlanning(e) then PlanningDocuments else [])
    + (if Contains(Lower(e.title), "interview") then InterviewDocuments else [])
    + AlwaysNeeded
  }

  /** `identifyNeededDocuments`: the keyword-selected documents, then the two that are always
      suggested, without repeats. */
  function IdentifyNeededDocuments(e: CalendarEvent): (r: seq<string>)
    ensures forall i, j :: 0 <= i < j < |r| ==> r[i] != r[j]
    ensures "Meeting agenda" in r && "Previous meeting notes" in r
    ensures forall i :: 0 <= i < |r| ==> r[i] in DocumentsFor(e)
    ensures forall d :: d in DocumentsFor(e) ==> d in r
    ensures MentionsReview(e) ==> "Performance metrics" in r
    ensures Contains(Lower(e.title), "interview") ==> "Resume/CV" in r
  {
    var docs := DocumentsFor(e);
    assert docs[|docs| - 2] == "Meeting agenda" && docs[|docs| - 1] == "Previous meeting notes";
    assert MentionsReview(e) ==> docs[0] == "Performance metrics";
    assert Contains(Lower(e.title), "interview") ==> docs[|docs| - 5] == "Resume/CV";
    Dedup(docs)
  }

  /** Minutes of buffer before arrival for each meeting type. */
  function ArrivalBuffer(t: MeetingType): int {
    match t
    case Interview => 10
    case Review => 8
    case Planning => 8
    case Standup => 2
    case _ => 5
  }

  /** Whether `calculateOptimalArrivalTime` adds travel time for this location (the
      `zoom`/`teams` match here is case-sensitive). */
  predicate NeedsTravel(location: Option<string>) {
    Truthy(location) && !Contains(location.value, "zoom") && !Contains(location.value, "teams")
  }

  /** Travel from the current position takes 20 minutes to a place mentioning home and
      30 anywhere else: the office-to-office rule never applies. */
  lemma TravelFromCurrentLocation(to: string)
    ensures TravelTime("current_location", to) == if Contains(Lower(to), "home") then 20 else 30
  {
    var here := "current_location";
    LowerLacks(here, 'h');
    LowerLacks(here, 'f');
    MissingCharNotContained(Lower(here), "home", 0);
    MissingCharNotContained(Lower(here), "office", 1);
  }

  /** `calculateOptimalArrivalTime`. */
  function CalculateOptimalArrivalTime(e: CalendarEvent): (r: int)
    ensures var t := IdentifyMeetingType(e);
            var buffer := if t == Interview then 10
                          else if t == Review || t == Planning then 8
                          else if t == Standup then 2
                          else 5;
            var travel := if !NeedsTravel(e.location) then 0
                          else if Contains(Lower(e.location.value), "home") then 20
                          else 30;
            e.start - r == Minutes(buffer + travel)
  {
    var buffer := ArrivalBuffer(IdentifyMeetingType(e));
    if NeedsTravel(e.location) then
      TravelFromCurrentLocation(e.location.value);
      e.start - Minutes(buffer + TravelTime("current_location", e.location.value))
    else
      e.start - Minutes(buffer)
  }

  /** The suggested arrival is 2 to 10 minutes early for a video call or a meeting without
      a place, and 22 to 40 minutes early for one that needs travel. */
  lemma ArrivalBounds(e: CalendarEvent)
    ensures !NeedsTravel(e.location) ==> Minutes(2) <= e.start - CalculateOptimalArrivalTime(e) <= Minutes(10)
    ensures NeedsTravel(e.location) ==> Minutes(22) <= e.start - CalculateOptimalArrivalTime(e) <= Minutes(40)
  {
    if NeedsTravel(e.location) {
      TravelFromCurrentLocation(e.location.value);
    }
  }

  /** The video-call tests disagree: a location naming `meet` but neither zoom nor teams
      gets the technology check, yet its arrival still adds travel time. */
  lemma MeetCallStillTravels(e: CalendarEvent)
    requires e.location.Some? && Contains(e.location.value, "meet")
    requires !Contains(e.location.value, "zoom") && !Contains(e.location.value, "teams")
    ensures IsVirtual(e.location) && NeedsTravel(e.location)
    ensures Minutes(22) <= e.start - CalculateOptimalArrivalTime(e) <= Minutes(40)
  {
    assert e.location.value != "";
    ArrivalBounds(e);
  }

  datatype PreparationTask = PreparationTask(
    id: string,
    title: string,
    description: string,
    estimatedTime: int,
    priority: Level,
    completed: bool,
    dueTime: int)

  /** Whether a location names a video-call service (case-sensitive, as written). */
  predicate IsVirtual(location: Option<string>) {
    location.Some? &&
    (Contains(location.value, "zoom") || Contains(location.value, "teams") || Contains(location.value, "meet"))
  }

  /** The preparation steps the source knows, each named by the id suffix it carries. */
  datatype StepKind = AgendaReview | CandidateResearch | InterviewQuestions
                    | ReviewMaterials | MeetingObjectives | TechCheck

  function Suffix(k: StepKind): string {
    match k
    case AgendaReview => "_review"
    case CandidateResearch => "_research"
    case InterviewQuestions => "_questions"
    case ReviewMaterials => "_materials"
    case MeetingObjectives => "_objectives"
    case TechCheck => "_tech"
  }

  /** Different steps carry different id suffixes. */
  lemma SuffixInjective(a: StepKind, b: StepKind)
    ensures Suffix(a) == Suffix(b) ==> a == b
  {
  }

  /** The title of each step's task. */
  function StepTitle(k: StepKind): string {
    match k
    case AgendaReview => "Review meeting agenda"
    case CandidateResearch => "Research candidate/company"
    case InterviewQuestions => "Prepare interview questions"
    case ReviewMaterials => "Gather review materials"
    case MeetingObjectives => "Define meeting objectives"
    case TechCheck => "Test video/audio setup"
  }

  /** The description of each step's task; the agenda review quotes the event's title. */
  function StepDescription(k: StepKind, eventTitle: string): string {
    match k
    case AgendaReview => "Review the agenda and objectives for \"" + eventTitle + "\""
    case CandidateResearch => "Review background information and prepare questions"
    case InterviewQuestions => "Draft relevant questions based on role requirements"
    case ReviewMaterials => "Collect relevant documents, reports, and data for review"
    case MeetingObjectives => "Clarify goals and desired outcomes for the planning session"
    case TechCheck => "Verify camera, microphone, and internet connection"
  }

  /** One preparation task before it is tied to an event: which step it is (which fixes
      its texts), the estimate, the priority, and how many minutes before the start it is due. */
  datatype PrepStep = PrepStep(kind: StepKind, minutes: int, priority: Level, before: int)

  function TypeSteps(t: MeetingType): (r: seq<PrepStep>)
    ensures |r| <= 2
    ensures forall i, j :: 0 <= i < j < |r| ==> r[i].kind != r[j].kind
    ensures forall i :: 0 <= i < |r| ==> r[i].before >= 45 && r[i].kind !in {AgendaReview, TechCheck}
  {
    match t
    case Interview => [PrepStep(CandidateResearch, 15, High, 60), PrepStep(InterviewQuestions, 10, Medium, 45)]
    case Review => [PrepStep(ReviewMaterials, 10, High, 45)]
    case Planning => [PrepStep(MeetingObjectives, 8, High, 60)]
    case _ => []
  }

  /** The steps `generatePreparationTasks` pushes, in order: the agenda review, the steps of
      the meeting type, and the audio/video check of a virtual meeting. */
  function PrepSteps(e: CalendarEvent): (r: seq<PrepStep>)
    ensures 1 <= |r| <= 4
    ensures forall i, j :: 0 <= i < j < |r| ==> r[i].kind != r[j].kind
    ensures r[0].kind == AgendaReview && r[0].before == 30
    ensures forall i :: 0 <= i < |r| ==> r[i].before >= 15
    ensures IsVirtual(e.location) <==> r[|r| - 1].kind == TechCheck
  {
    var middle := TypeSteps(IdentifyMeetingType(e));
    var tech := if IsVirtual(e.location) then [PrepStep(TechCheck, 3, Medium, 15)] else [];
    [PrepStep(AgendaReview, 5, High, 30)] + middle + tech
  }

  /** A common prefix keeps different suffixes apart. */
  lemma SuffixesApart(p: string, a: string, b: string)
    ensures p + a == p + b <==> a == b
  {
    assert (p + a)[|p|..] == a;
    assert (p + b)[|p|..] == b;
  }

  /** `generatePreparationTasks`. */
  function GeneratePreparationTasks(e: CalendarEvent): (r: seq<PreparationTask>)
    ensures 1 <= |r| <= 4
    ensures r[0].id == "prep_" + e.id + "_review" && r[0].dueTime == e.start - Minutes(30)
    ensures forall i :: 0 <= i < |r| ==> !r[i].completed && r[i].dueTime <= e.start - Minutes(15)
    ensures forall i, j :: 0 <= i < j < |r| ==> r[i].id != r[j].id
    ensures IsVirtual(e.location) <==> r[|r| - 1].id == "prep_" + e.id + "_tech"
  {
    var steps := PrepSteps(e);
    var prefix := "prep_" + e.id;
    var r := seq(|steps|, i requires 0 <= i < |steps| =>
                 PreparationTask(prefix + Suffix(steps[i].kind), StepTitle(steps[i].kind),
                                 StepDescription(steps[i].kind, e.title),
                                 steps[i].minutes, steps[i].priority, false, e.start - Minutes(steps[i].before)));
    forall i, j | 0 <= i < j < |r| ensures r[i].id != r[j].id {
      SuffixesApart(prefix, Suffix(steps[i].kind), Suffix(steps[j].kind));
      SuffixInjective(steps[i].kind, steps[j].kind);
    }
    SuffixesApart(prefix, Suffix(steps[|r| - 1].kind), "_tech");
    SuffixInjective(steps[|r| - 1].kind, TechCheck);
    assert r[0].id == prefix + "_review";
    r
  }

  /** `getDefaultKeyPoints`: the fallback discussion points of each meeting type. */
  function DefaultKeyPoints(e: CalendarEvent): (r: seq<string>)
    ensures |r| == (if IdentifyMeetingType(e) in {Standup, Review, Planning, Interview} then 3 else 4)
  {
    match IdentifyMeetingType(e)
    case Standup => StandupPoints
    case Review => ReviewPoints
    case Planning => PlanningPoints
    case Interview => InterviewPoints
    case _ => GeneralPoints
  }

  const StandupPoints: seq<string> :=
    ["What did you accomplish yesterday?", "What are you working on today?", "Any blockers or challenges?"]
  const ReviewPoints: seq<string> :=
    ["Review progress against goals", "Discuss achievements and challenges", "Plan next steps and improvements"]
  const PlanningPoints: seq<string> :=
    ["Define objectives and scope", "Identify resources and timeline", "Assign responsibilities and next actions"]
  const InterviewPoints: seq<string> :=
    ["Review candidate background", "Assess technical and cultural fit", "Discuss role expectations and growth"]
  const GeneralPoints: seq<string> :=
    ["Review agenda items", "Discuss current status and updates", "Identify action items and owners", "Plan follow-up activities"]

  /** `generateTravelInstructions`. */
  function GenerateTravelInstructions(location: string): (r: string)
    ensures IsVirtual(Some(location)) ==> r == VirtualInstructions
    ensures !IsVirtual(Some(location)) ==> StartsWith(r, "Navigate to: " + location + ".")
    ensures !IsVirtual(Some(location)) ==> r == "Navigate to: " + location + "." + TravelAdvice
  {
    if IsVirtual(Some(location)) then VirtualInstructions
    else
      var head := "Navigate to: " + location + ".";
      StartsWithConcat(head, TravelAdvice);
      head + TravelAdvice
  }

  const VirtualInstructions: string :=
    "Virtual meeting - ensure stable internet connection and test audio/video beforehand."
  const TravelAdvice: string :=
    " Consider checking traffic conditions and parking availability before departure. Allow extra time for security/check-in if visiting a new building."

  datatype MeetingPreparation = MeetingPreparation(
    event: CalendarEvent,
    preparationTasks: seq<PreparationTask>,
    documentsNeeded: seq<string>,
    keyPoints: seq<string>,
    suggestedArrivalTime: int,
    travelInstructions: Option<string>)

  /** `generateMeetingPreparation`, given the key points (which the source asks the
      language model for). Travel instructions are present exactly when the event has a
      truthy location. */
  function GenerateMeetingPreparation(e: CalendarEvent, keyPoints: seq<string>): (p: MeetingPreparation)
    ensures p.event == e && p.keyPoints == keyPoints
    ensures p.travelInstructions.Some? <==> Truthy(e.location)
    ensures p.suggestedArrivalTime < e.start
    ensures "Meeting agenda" in p.documentsNeeded
    ensures p.preparationTasks == GeneratePreparationTasks(e)
    ensures p.documentsNeeded == IdentifyNeededDocuments(e)
    ensures p.suggestedArrivalTime == CalculateOptimalArrivalTime(e)
    ensures p.travelInstructions ==
              if Truthy(e.location) then Some(GenerateTravelInstructions(e.location.value)) else None
  {
    ArrivalBounds(e);
    MeetingPreparation(
      e,
      GeneratePreparationTasks(e),
      IdentifyNeededDocuments(e),
      keyPoints,
      CalculateOptimalArrivalTime(e),
      if Truthy(e.location) then Some(GenerateTravelInstructions(e.location.value)) else None)
  }
}
