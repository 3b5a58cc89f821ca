/**
 * The intent table and the webhook endpoint: the intent's display name
 * selects a handler, the page cursor is taken from the first conversational
 * context that carries one, and the handler's text goes back with a
 * pagination context; an exception becomes an apology.
 */
module Dispatcher {
  import opened Wrappers
  import opened Text
  import opened Lists
  import opened Graph
  import opened PathResolver
  import opened Resolvers
  import opened Replies
  import opened Listings
  import GH = GenericHandlers
  import AQ = AssessmentQueries
  import CQ = CourseQueries
  import IQ = InstructorQueries
  import PQ = ProgramQueries
  import SP = SessionPlan

  // ---------------------------------------------------------------------
  // INTENT_HANDLERS
  // ---------------------------------------------------------------------

  /** The named `query_*` handlers the table refers to directly. */
  datatype QueryId =
    | ContactInstructor
    | CoursesByInstructor
    | FullSessionPlan
    | AssessmentPercentage
    | AssessmentDetails
    | HighestAssessmentTool
    | ProgramForCourse
    | TermForCourseProgram
    | CoursesInProgramTerm
    | InstructorsInProgramTerm
    | InstructorOffice
    | CoursesByInstructorInProgram
    | ConsultationContact

  /** What a table entry does with the parameters. */
  datatype HandlerSpec =
    | Standard(path: string, dataType: string)
      // `handle_standard_query(p, path, dataType)`
    | SessionStandard(prefix: string, dataType: string)
      // `handle_standard_query(p, prefix + str(p.get("sessionNumber")), dataType)`
    | ListOf(path: string, itemsName: string, fmt: GH.Formatter)
      // `handle_list_query(p, path, itemsName, fmt)`
    | Custom(query: QueryId)

  /** The seven `query_*` functions that only call `handle_standard_query`. */
  datatype StandardWrapper =
    | Prerequisites
    | YearBatch
    | Sections
    | CourseOverview
    | LearningOutcomes
    | Pedagogy
    | SessionDuration

  /** The call each wrapper makes. */
  function WrapperSpec(w: StandardWrapper): HandlerSpec {
    match w
    case Prerequisites => Standard("hasCourseMetadata.Prerequisites", "prerequisites")
    case YearBatch => Standard("hasCourseMetadata.YearBatch", "year/batch")
    case Sections => Standard("hasCourseMetadata.Sections", "sections")
    case CourseOverview => Standard("hasBasicInfo.Introduction", "course overview")
    case LearningOutcomes => Standard("hasBasicInfo.LearningOutcomes", "learning outcomes")
    case Pedagogy => Standard("hasBasicInfo.PedagogyUsed", "pedagogy information")
    case SessionDuration => Standard("hasCourseMetadata.SessionDuration", "session duration")
  }

  /** The intent whose table entry does what the wrapper does. */
  function WrapperIntent(w: StandardWrapper): string {
    match w
    case Prerequisites => "GetPrerequisites"
    case YearBatch => "GetYearBatch"
    case Sections => "GetSections"
    case CourseOverview => "GetCourseOverview"
    case LearningOutcomes => "GetLearningOutcomes"
    case Pedagogy => "GetPedagogy"
    case SessionDuration => "GetSessionDuration"
  }

  /** `INTENT_HANDLERS.get(intent)`: the table's entry for an intent's
      display name, `None` for a name it does not list. */
  function IntentHandler(intent: string): Option<HandlerSpec> {
    match intent
    case "GetCourseCredits" => Some(Standard("hasCourseMetadata.CourseCredit", "credit information"))
    case "GetCourseType" => Some(Standard("hasCourseMetadata.CourseType", "course type"))
    case "GetPrerequisites" => Some(Standard("hasCourseMetadata.Prerequisites", "prerequisites"))
    case "GetSessionDuration" => Some(Standard("hasCourseMetadata.SessionDuration", "session duration"))
    case "GetTotalSessions" => Some(Standard("hasCourseMetadata.TotalSessions", "total sessions"))
    case "GetCourseOverview" => Some(Standard("hasBasicInfo.Introduction", "course overview"))
    case "GetLearningOutcomes" => Some(Standard("hasBasicInfo.LearningOutcomes", "learning outcomes"))
    case "GetPedagogy" => Some(Standard("hasBasicInfo.PedagogyUsed", "pedagogy information"))
    case "GetInstructorForCourse" => Some(ListOf("hasInstructorDetails", "instructors", GH.InstructorName))
    case "GetInstructorContact" => Some(Standard("hasInstructorDetails.ContactDetails", "contact details"))
    case "GetContactInstructor" => Some(Custom(ContactInstructor))
    case "GetCoursesByInstructor" => Some(Custom(CoursesByInstructor))
    case "GetCourseTopics" => Some(ListOf("hasSessionPlan", "topics", GH.SessionLine))
    case "GetSessionInfo" => Some(SessionStandard("hasSessionPlan.", "session info"))
    case "GetFullSessionPlan" => Some(Custom(FullSessionPlan))
    case "GetAssessmentTools" => Some(ListOf("hasAssessment", "assessment tools", GH.ToolName))
    case "GetAssessmentPercentage" => Some(Custom(AssessmentPercentage))
    case "GetAssessmentDetails" => Some(Custom(AssessmentDetails))
    case "GetHighestAssessmentTool" => Some(Custom(HighestAssessmentTool))
    case "GetYearBatch" => Some(WrapperSpec(YearBatch))
    case "GetSections" => Some(WrapperSpec(Sections))
    case "GetProgramForCourse" => Some(Custom(ProgramForCourse))
    case "GetTermForCourseProgram" => Some(Custom(TermForCourseProgram))
    case "GetCoursesInProgramTerm" => Some(Custom(CoursesInProgramTerm))
    case "GetInstructorsInProgramTerm" => Some(Custom(InstructorsInProgramTerm))
    case "GetInstructorOffice" => Some(Custom(InstructorOffice))
    case "GetCoursesByInstructorInProgram" => Some(Custom(CoursesByInstructorInProgram))
    case "GetConsultationContact" => Some(Custom(ConsultationContact))
    case _ => None
  }

  /** Every wrapper is reachable: the table entry of its intent makes the
      same `handle_standard_query` call, inline or through the wrapper. */
  lemma WrappersMatchTable(w: StandardWrapper)
    ensures IntentHandler(WrapperIntent(w)) == Some(WrapperSpec(w))
  {
  }

  // ---------------------------------------------------------------------
  // Running a handler
  // ---------------------------------------------------------------------

  /** The path `GetSessionInfo` hands to `handle_standard_query`. */
  function SessionPath(p: Params, prefix: string): string {
    prefix + p.Shown("sessionNumber")
  }

  /** The replies `query_instructors_in_program_term` may give: the order
      of the names is that of a set, which the source does not fix. */
  ghost predicate InstructorsAnswer(g: KnowledgeGraph, p: Params, r: Reply) {
    (PQ.InstructorSet(g, p) == {} ==> r == Text(NoData("instructors", "program/term", PQ.ProgramOrTerm(p))))
    && (PQ.InstructorSet(g, p) != {} ==>
          exists order :: PQ.Enumerates(order, PQ.InstructorSet(g, p)) && r == Listing("Instructors: ", order, ", ", ""))
  }

  /** The replies the named handler may give. `showPercent` is the
      formatting of a float, which the model does not fix. */
  ghost predicate QueryAnswers(g: KnowledgeGraph, p: Params, q: QueryId, showPercent: real -> string, r: Reply) {
    match q
    case ContactInstructor => r == IQ.QueryContactInstructor(g, p)
    case CoursesByInstructor => r == IQ.CoursesByInstructorReply(g, p)
    case FullSessionPlan => r == SP.QueryFullSessionPlan(g, p)
    case AssessmentPercentage => r == AQ.AssessmentPercentageReply(g, p)
    case AssessmentDetails => r == AQ.QueryAssessmentDetailsFull(g, p)
    case HighestAssessmentTool => r == AQ.HighestAssessmentReply(g, p, showPercent)
    case ProgramForCourse => r == CQ.QueryProgramForCourse(g, p)
    case TermForCourseProgram => r == CQ.TermForCourseProgramReply(g, p)
    case CoursesInProgramTerm => r == PQ.CoursesInProgramTermReply(g, p)
    case InstructorsInProgramTerm => InstructorsAnswer(g, p, r)
    case InstructorOffice => r == CQ.QueryInstructorOffice(g, p)
    case CoursesByInstructorInProgram => r == IQ.CoursesByInstructorInProgramReply(g, p)
    case ConsultationContact => r == CQ.QueryConsultationContact(g, p)
  }

  /** The replies a table entry may give. */
  ghost predicate HandlerAnswers(g: KnowledgeGraph, p: Params, h: HandlerSpec, showPercent: real -> string, r: Reply) {
    match h
    case Standard(path, dataType) => r == GH.HandleStandardQuery(g, p, path, dataType, "course")
    case SessionStandard(prefix, dataType) => r == GH.HandleStandardQuery(g, p, SessionPath(p, prefix), dataType, "course")
    case ListOf(path, itemsName, fmt) => r == GH.ListReply(g, p, path, itemsName, fmt)
    case Custom(q) => QueryAnswers(g, p, q, showPercent, r)
  }

  /** Calls the named handler. */
  method RunQuery(g: KnowledgeGraph, p: Params, q: QueryId, showPercent: real -> string) returns (r: Reply)
    ensures QueryAnswers(g, p, q, showPercent, r)
  {
    match q
    case ContactInstructor => r := RunInstructorQuery(g, p, q);
    case CoursesByInstructor => r := RunInstructorQuery(g, p, q);
    case CoursesByInstructorInProgram => r := RunInstructorQuery(g, p, q);
    case AssessmentPercentage => r := RunAssessmentQuery(g, p, q, showPercent);
    case AssessmentDetails => r := RunAssessmentQuery(g, p, q, showPercent);
    case HighestAssessmentTool => r := RunAssessmentQuery(g, p, q, showPercent);
    case ProgramForCourse => r := RunCourseQuery(g, p, q);
    case TermForCourseProgram => r := RunCourseQuery(g, p, q);
    case InstructorOffice => r := RunCourseQuery(g, p, q);
    case ConsultationContact => r := RunCourseQuery(g, p, q);
    case FullSessionPlan => r := SP.QueryFullSessionPlan(g, p);
    case CoursesInProgramTerm => r := PQ.QueryCoursesInProgramTerm(g, p);
    case InstructorsInProgramTerm => r := PQ.QueryInstructorsInProgramTerm(g, p);
  }

  /** Calls one of the handlers that start from an instructor. */
  method RunInstructorQuery(g: KnowledgeGraph, p: Params, q: QueryId) returns (r: Reply)
    requires q.ContactInstructor? || q.CoursesByInstructor? || q.CoursesByInstructorInProgram?
    ensures forall showPercent :: QueryAnswers(g, p, q, showPercent, r)
  {
    match q
    case ContactInstructor => r := IQ.QueryContactInstructor(g, p);
    case CoursesByInstructor => r := IQ.QueryCoursesByInstructor(g, p);
    case CoursesByInstructorInProgram => r := IQ.QueryCoursesByInstructorInProgram(g, p);
  }

  /** Calls one of the handlers over a course's assessments. */
  method RunAssessmentQuery(g: KnowledgeGraph, p: Params, q: QueryId, showPercent: real -> string) returns (r: Reply)
    requires q.AssessmentPercentage? || q.AssessmentDetails? || q.HighestAssessmentTool?
    ensures QueryAnswers(g, p, q, showPercent, r)
  {
    match q
    case AssessmentPercentage => r := AQ.QueryAssessmentPercentage(g, p);
    case AssessmentDetails => r := AQ.QueryAssessmentDetailsFull(g, p);
    case HighestAssessmentTool => r := AQ.QueryHighestAssessmentTool(g, p, showPercent);
  }

  /** Calls one of the handlers that start from a course. */
  method RunCourseQuery(g: KnowledgeGraph, p: Params, q: QueryId) returns (r: Reply)
    requires q.ProgramForCourse? || q.TermForCourseProgram? || q.InstructorOffice? || q.ConsultationContact?
    ensures forall showPercent :: QueryAnswers(g, p, q, showPercent, r)
  {
    match q
    case ProgramForCourse => r := CQ.QueryProgramForCourse(g, p);
    case TermForCourseProgram => r := CQ.QueryTermForCourseProgram(g, p);
    case InstructorOffice => r := CQ.QueryInstructorOffice(g, p);
    case ConsultationContact => r := CQ.QueryConsultationContact(g, p);
  }

  /** `handler(params)` */
  method Dispatch(g: KnowledgeGraph, p: Params, h: HandlerSpec, showPercent: real -> string) returns (r: Reply)
    ensures HandlerAnswers(g, p, h, showPercent, r)
  {
    match h
    case Standard(path, dataType) =>
      r := GH.HandleStandardQuery(g, p, path, dataType, "course");
    case SessionStandard(prefix, dataType) =>
      r := GH.HandleStandardQuery(g, p, SessionPath(p, prefix), dataType, "course");
    case ListOf(path, itemsName, fmt) =>
      r := GH.HandleListQuery(g, p, path, itemsName, fmt);
    case Custom(q) =>
      r := RunQuery(g, p, q, showPercent);
  }

  // ---------------------------------------------------------------------
  // The webhook request and response
  // ---------------------------------------------------------------------

  /** An entry of `queryResult.outputContexts`: its `parameters`, if any. */
  datatype Context = Context(parameters: Option<map<string, Param>>)

  /** The parts of the request body the endpoint reads: the intent's
      display name ("" when absent), the parameters and the contexts. */
  datatype Request = Request(intent: string, parameters: map<string, string>, contexts: seq<Context>)

  /** The pagination context sent back: its name, lifespan, the page and
      the parameters (`original_query`, serialised in the source). */
  datatype OutputContext = OutputContext(name: string, lifespanCount: int, page: Param, originalQuery: Params)

  /** The JSON body returned: `outputContexts` is absent on the two
      fallback replies. */
  datatype Response = Response(fulfillmentText: string, outputContexts: Option<seq<OutputContext>>)

  const Unsupported: string := "This query type is not supported yet."
  const Apology: string := "Sorry, I encountered an error " + "processing your request."
  const PaginationContextName: string :=
    "projects/${projectId}/agent/sessions/" + "${sessionId}/contexts/pagination"

  /** A context that carries a page. */
  predicate CarriesPage(c: Context) {
    c.parameters.Some? && "page" in c.parameters.value
  }

  /** The index of the first context that carries a page, if any. */
  function FirstPaged(contexts: seq<Context>): (r: Option<nat>)
    ensures r.None? ==> forall k | 0 <= k < |contexts| :: !CarriesPage(contexts[k])
    ensures r.Some? ==> r.value < |contexts| && CarriesPage(contexts[r.value])
    ensures r.Some? ==> forall k | 0 <= k < r.value :: !CarriesPage(contexts[k])
    decreases |contexts|
  {
    if contexts == [] then None
    else
      var init := contexts[..|contexts| - 1];
      var r := FirstPaged(init);
      if r.Some? then Some(r.value)
      else if CarriesPage(contexts[|contexts| - 1]) then Some(|contexts| - 1)
      else None
  }

  /** The page of the first context that carries one, else 0. */
  function PageOf(contexts: seq<Context>): Param {
    match FirstPaged(contexts)
    case None => PInt(0)
    case Some(j) => contexts[j].parameters.value["page"]
  }

  /** The parameters the handler sees: the request's, with `page` set. */
  function RequestParams(req: Request): (p: Params)
    ensures p.fields == req.parameters && p.page.Some?
  {
    Params(req.parameters, Some(PageOf(req.contexts)))
  }

  /** The response for a handler's reply. */
  function Respond(req: Request, r: Reply): Response {
    match r
    case Fault => Response(Apology, None)
    case Text(t) =>
      var p := RequestParams(req);
      Response(t, Some([OutputContext(PaginationContextName, 5, p.page.value, p)]))
  }

  /** The endpoint. An unknown intent is refused without contexts; a
      handler that raises yields the apology without contexts; otherwise
      the handler's text is returned with one pagination context that
      carries the page the request's contexts supplied. */
  method Webhook(g: KnowledgeGraph, req: Request, showPercent: real -> string) returns (resp: Response)
    ensures IntentHandler(req.intent).None? ==> resp == Response(Unsupported, None)
    ensures IntentHandler(req.intent).Some? ==>
      exists r :: HandlerAnswers(g, RequestParams(req), IntentHandler(req.intent).value, showPercent, r)
        && resp == Respond(req, r)
  {
    var p := RequestParams(req);
    var handler := IntentHandler(req.intent);
    if handler.None? {
      return Response(Unsupported, None);
    }
    var r := Dispatch(g, p, handler.value, showPercent);
    match r
    case Fault =>
      resp := Response(Apology, None);
    case Text(t) =>
      resp := Response(t, Some([OutputContext(PaginationContextName, 5, p.page.value, p)]));
  }

  // ---------------------------------------------------------------------
  // Properties of the dispatch
  // ---------------------------------------------------------------------

  /** A reply is sent with a pagination context exactly when the handler
      returned text; that context lives five turns, names the page found in
      the request's contexts, and echoes the parameters with that page. */
  lemma RespondCarriesPage(req: Request, r: Reply)
    ensures Respond(req, r).outputContexts.Some? <==> r.Text?
    ensures r.Fault? ==> Respond(req, r).fulfillmentText == Apology
    ensures r.Text? ==>
      var cs := Respond(req, r).outputContexts.value;
      Respond(req, r).fulfillmentText == r.text && |cs| == 1 && cs[0].lifespanCount == 5
        && cs[0].page == PageOf(req.contexts)
        && cs[0].originalQuery == Params(req.parameters, Some(PageOf(req.contexts)))
  {
  }

  /** A standard query on `hasSessionPlan.<n>` reads attribute `n` of the
      course's first session record. */
  lemma SessionPathReadsFirstSession(g: KnowledgeGraph, p: Params)
    requires GH.CourseOf(g, p).Some?
    requires '.' !in p.Shown("sessionNumber")
    requires var s := Attr(g, GH.CourseOf(g, p).value, "hasSessionPlan"); s.Lst? || s == Nil
    ensures var first := First(Attr(g, GH.CourseOf(g, p).value, "hasSessionPlan"));
      var v := Finish(Attr(g, first, p.Shown("sessionNumber")));
      GH.HandleStandardQuery(g, p, SessionPath(p, "hasSessionPlan."), "session info", "course")
        == if Truthy(v) then Text(Render(v)) else Text(NoData("session info", "course", p.Shown("courseName")))
  {
    var n := p.Shown("sessionNumber");
    assert '.' !in "hasSessionPlan";
    assert SessionPath(p, "hasSessionPlan.") == "hasSessionPlan" + "." + n;
    GH.TwoSegmentPath(g, GH.CourseOf(g, p).value, "hasSessionPlan", n);
  }

  /** The session-info entry is a standard query on the session path. */
  lemma SessionInfoEntry()
    ensures IntentHandler("GetSessionInfo") == Some(SessionStandard("hasSessionPlan.", "session info"))
  {
  }

  /** `GetSessionInfo` reads the attribute named by the session number on
      the course's first session record; it does not look for the session
      with that number. So when that first record has no such attribute,
      the reply is "no data" whichever sessions exist. */
  lemma SessionInfoReadsFirstSession(g: KnowledgeGraph, p: Params, h: HandlerSpec, showPercent: real -> string, r: Reply)
    requires GH.CourseOf(g, p).Some?
    requires '.' !in p.Shown("sessionNumber")
    requires var s := Attr(g, GH.CourseOf(g, p).value, "hasSessionPlan"); s.Lst? || s == Nil
    requires IntentHandler("GetSessionInfo") == Some(h) && HandlerAnswers(g, p, h, showPercent, r)
    ensures var first := First(Attr(g, GH.CourseOf(g, p).value, "hasSessionPlan"));
      var v := Finish(Attr(g, first, p.Shown("sessionNumber")));
      r == if Truthy(v) then Text(Render(v)) else Text(NoData("session info", "course", p.Shown("courseName")))
    ensures var first := First(Attr(g, GH.CourseOf(g, p).value, "hasSessionPlan"));
      Lookup(g, first, p.Shown("sessionNumber")).None? ==>
        r == Text(NoData("session info", "course", p.Shown("courseName")))
  {
    SessionInfoEntry();
    SessionPathReadsFirstSession(g, p);
  }

  /** A standard query on `hasCourseMetadata.CourseCredit`. */
  lemma CreditPathReadsMetadata(g: KnowledgeGraph, p: Params)
    requires GH.CourseOf(g, p).Some?
    requires var m := Attr(g, GH.CourseOf(g, p).value, "hasCourseMetadata"); m.Lst? || m == Nil
    ensures var v := Finish(Attr(g, GetCourseMetadata(g, GH.CourseOf(g, p).value), "CourseCredit"));
      GH.HandleStandardQuery(g, p, "hasCourseMetadata.CourseCredit", "credit information", "course")
        == if Truthy(v) then Text(Render(v)) else Text(NoData("credit information", "course", p.Shown("courseName")))
  {
    assert '.' !in "CourseCredit";
    assert "hasCourseMetadata." + "CourseCredit" == "hasCourseMetadata.CourseCredit";
    GH.StandardQueryOnMetadata(g, p, "CourseCredit", "credit information");
  }

  /** The credits entry is a standard query on the credit path. */
  lemma CreditsEntry()
    ensures IntentHandler("GetCourseCredits") == Some(Standard("hasCourseMetadata.CourseCredit", "credit information"))
  {
  }

  /** The credits intent answers the bare `CourseCredit` of the metadata
      record `get_course_metadata` finds, not the "<n> credits." line of
      `query_course_credits`. */
  lemma CreditsIntentAnswersMetadata(g: KnowledgeGraph, p: Params, h: HandlerSpec, showPercent: real -> string, r: Reply)
    requires GH.CourseOf(g, p).Some?
    requires var m := Attr(g, GH.CourseOf(g, p).value, "hasCourseMetadata"); m.Lst? || m == Nil
    requires IntentHandler("GetCourseCredits") == Some(h) && HandlerAnswers(g, p, h, showPercent, r)
    ensures var v := Finish(Attr(g, GetCourseMetadata(g, GH.CourseOf(g, p).value), "CourseCredit"));
      r == if Truthy(v) then Text(Render(v)) else Text(NoData("credit information", "course", p.Shown("courseName")))
  {
    CreditsEntry();
    CreditPathReadsMetadata(g, p);
  }

  /** The list intents page with the cursor found in the request's
      contexts: a numeric page there selects that page of the items. */
  lemma ListIntentsUseContextPage(g: KnowledgeGraph, req: Request, showPercent: real -> string, r: Reply, i: int)
    requires IntentHandler(req.intent).Some? && IntentHandler(req.intent).value.ListOf?
    requires GH.CourseOf(g, RequestParams(req)).Some?
    requires PageOf(req.contexts) == PInt(i)
    requires HandlerAnswers(g, RequestParams(req), IntentHandler(req.intent).value, showPercent, r)
    ensures var p := RequestParams(req);
      var h := IntentHandler(req.intent).value;
      r == GH.PageReply(GH.ListItems(g, GH.CourseOf(g, p).value, h.path, h.fmt), i, h.itemsName, p.Shown("courseName"))
  {
  }
}
