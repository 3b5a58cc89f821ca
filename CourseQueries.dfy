/**
 * The handlers that answer about one named course: who teaches it, which
 * program and term it belongs to, its credits and session count, its
 * reading list, and its instructor's consultation details and office.
 */
module CourseQueries {
  import opened Wrappers
  import opened Text
  import opened Lists
  import opened Graph
  import opened PathResolver
  import opened Resolvers
  import opened Replies
  import opened GenericHandlers
  import opened Listings

  // ---------------------------------------------------------------------
  // query_instructor_for_course
  // ---------------------------------------------------------------------

  /** `query_instructor_for_course`: the truthy `Instructors` names of the
      course's instructor records, followed by "teaches <course>". */
  function QueryInstructorForCourse(g: KnowledgeGraph, p: Params): (r: Reply)
    ensures CourseOf(g, p).None? ==> r == Text(NotFound("course", p.Shown("courseName")))
    ensures CourseOf(g, p).Some?
      && (forall k | 0 <= k < |CourseRecords(g, p, "hasInstructorDetails")| ::
            !Truthy(Attr(g, CourseRecords(g, p, "hasInstructorDetails")[k], "Instructors")))
      ==> r == Text("No instructor listed.")
  {
    if CourseOf(g, p).None? then Text(NotFound("course", p.Shown("courseName")))
    else
      var instructors := AttrValues(g, CourseRecords(g, p, "hasInstructorDetails"), "Instructors");
      if instructors != [] then Listing("", instructors, ", ", " teaches " + p.Shown("courseName") + ".")
      else Text("No instructor listed.")
  }

  /** With some truthy name and every truthy name a string, the reply joins
      the names in record order; each of them is a name of one of the
      course's instructor records. */
  lemma InstructorForCourseNames(g: KnowledgeGraph, p: Params)
    requires CourseOf(g, p).Some?
    requires var records := CourseRecords(g, p, "hasInstructorDetails");
      && (exists k | 0 <= k < |records| :: Truthy(Attr(g, records[k], "Instructors")))
      && forall k | 0 <= k < |records| :: Truthy(Attr(g, records[k], "Instructors")) ==> Attr(g, records[k], "Instructors").Str?
    ensures var names := AttrValues(g, CourseRecords(g, p, "hasInstructorDetails"), "Instructors");
      && names != []
      && Texts(names).Some?
      && QueryInstructorForCourse(g, p) == Text(Join(", ", Texts(names).value) + " teaches " + p.Shown("courseName") + ".")
  {
    var records := CourseRecords(g, p, "hasInstructorDetails");
    var names := AttrValues(g, records, "Instructors");
    assert names != [] by {
      var k :| 0 <= k < |records| && Truthy(Attr(g, records[k], "Instructors"));
      AttrValuesMembers(g, records, "Instructors", Attr(g, records[k], "Instructors"));
    }
    assert Texts(names).Some? by {
      forall i | 0 <= i < |names| ensures names[i].Str? {
        AttrValuesMembers(g, records, "Instructors", names[i]);
      }
    }
    assert QueryInstructorForCourse(g, p) == Listing("", names, ", ", " teaches " + p.Shown("courseName") + ".");
    TeachesLine(names, p.Shown("courseName"));
  }

  lemma TeachesLine(names: seq<Value>, course: string)
    requires Texts(names).Some?
    ensures Listing("", names, ", ", " teaches " + course + ".")
      == Text(Join(", ", Texts(names).value) + " teaches " + course + ".")
  {
    var joined := Join(", ", Texts(names).value);
    assert "" + joined + (" teaches " + course + ".") == joined + " teaches " + course + ".";
  }

  // ---------------------------------------------------------------------
  // query_program_for_course
  // ---------------------------------------------------------------------

  /** The program of a course: the first program of its first term, when it
      has a term and that term has a program. */
  function ProgramOf(g: KnowledgeGraph, course: Value): Option<Value> {
    if !Truthy(Attr(g, course, "belongsToTerm")) then None
    else
      var term := First(Attr(g, course, "belongsToTerm"));
      if Truthy(term) && Truthy(Attr(g, term, "belongsToProgram"))
      then Some(First(Attr(g, term, "belongsToProgram")))
      else None
  }

  /** Indexing the two relations by hand reaches what `get_nested_property`
      reaches along the path `belongsToTerm.belongsToProgram`. */
  lemma ProgramOfAgreesWithPath(g: KnowledgeGraph, course: Value, program: Value)
    requires course.Ref?
    requires Attr(g, course, "belongsToTerm").Lst?
    requires ProgramOf(g, course) == Some(program)
    requires Attr(g, First(Attr(g, course, "belongsToTerm")), "belongsToProgram").Lst?
    ensures Resolve(g, course, ["belongsToTerm", "belongsToProgram"]) == Finish(Attr(g, First(Attr(g, course, "belongsToTerm")), "belongsToProgram"))
    ensures program != Nil && program != Str(Sentinel) ==> Resolve(g, course, ["belongsToTerm", "belongsToProgram"]) == program
  {
    var terms := Attr(g, course, "belongsToTerm");
    var term := First(terms);
    var programs := Attr(g, term, "belongsToProgram");
    var props: seq<string> := ["belongsToTerm", "belongsToProgram"];
    assert Step(g, course, props[0]) == Some(terms);
    assert Step(g, terms, props[1]) == Some(programs);
    assert props[1..] == ["belongsToProgram"];
    assert Walk(g, programs, []) == Some(programs);
    assert Walk(g, terms, props[1..]) == Some(programs);
    assert Walk(g, course, props) == Some(programs);
  }

  /** `query_program_for_course` */
  function QueryProgramForCourse(g: KnowledgeGraph, p: Params): (r: Reply)
    ensures r.Text?
    ensures CourseOf(g, p).None? ==> r == Text("Program not found.")
    ensures CourseOf(g, p).Some? && ProgramOf(g, CourseOf(g, p).value).None? ==> r == Text("Program not found.")
    ensures CourseOf(g, p).Some? && ProgramOf(g, CourseOf(g, p).value).Some? ==>
      r == Text("Taught in " + Render(Attr(g, ProgramOf(g, CourseOf(g, p).value).value, "programName")) + " program.")
  {
    match CourseOf(g, p)
    case None => Text("Program not found.")
    case Some(course) =>
      match ProgramOf(g, course)
      case None => Text("Program not found.")
      case Some(program) => Text("Taught in " + Render(Attr(g, program, "programName")) + " program.")
  }

  // ---------------------------------------------------------------------
  // query_term_for_course_program
  // ---------------------------------------------------------------------

  /** A term of the course that belongs to a program whose name contains the
      normalised program parameter. */
  predicate TermMatches(g: KnowledgeGraph, course: Value, programParam: string, term: Value) {
    && term in Items(Attr(g, course, "belongsToTerm"))
    && Truthy(Attr(g, term, "belongsToProgram"))
    && Contains(Name(First(Attr(g, term, "belongsToProgram"))), programParam)
  }

  function TermMatcher(g: KnowledgeGraph, course: Value, programParam: string): Value -> bool {
    t => TermMatches(g, course, programParam, t)
  }

  /** "Term <suffix>", the suffix being the part of the term's name after its last `_`. */
  function TermLabel(term: Value): string {
    var parts := Split(Name(term), '_');
    "Term " + parts[|parts| - 1]
  }

  /** The loop of `query_term_for_course_program`: the index of the first
      term, in search order, that matches. */
  method FirstMatchingTerm(g: KnowledgeGraph, course: Value, programParam: string, terms: seq<Value>)
    returns (found: Option<nat>)
    ensures found.Some? ==> found.value < |terms| && TermMatches(g, course, programParam, terms[found.value])
    ensures found.Some? ==> forall j | 0 <= j < found.value :: !TermMatches(g, course, programParam, terms[j])
    ensures found.None? ==> forall j | 0 <= j < |terms| :: !TermMatches(g, course, programParam, terms[j])
  {
    var i := 0;
    while i < |terms|
      invariant 0 <= i <= |terms|
      invariant forall j | 0 <= j < i :: !TermMatches(g, course, programParam, terms[j])
    {
      var term := terms[i];
      if term in Items(Attr(g, course, "belongsToTerm")) && Truthy(Attr(g, term, "belongsToProgram"))
        && Contains(Name(First(Attr(g, term, "belongsToProgram"))), programParam)
      {
        return Some(i);
      }
      i := i + 1;
    }
    found := None;
  }

  /** The reply for a found or missing course, the normalised program
      parameter and the terms in search order. */
  function TermReply(g: KnowledgeGraph, course: Option<Value>, programParam: string, terms: seq<Value>): Reply {
    match course
    case None => Text("Course not found in program.")
    case Some(c) =>
      match FirstIndex(terms, TermMatcher(g, c, programParam))
      case None => Text("Course not found in program.")
      case Some(k) => Text(TermLabel(terms[k]))
  }

  /** What `query_term_for_course_program` answers: the label of the first
      term of the whole graph, in search order, that the course belongs to
      and that belongs to a matching program. */
  function TermForCourseProgramReply(g: KnowledgeGraph, p: Params): Reply {
    TermReply(g, CourseOf(g, p), SanitizeId(p.Get("program", "")), OfKind(g, "Term"))
  }

  /** `query_term_for_course_program` */
  method QueryTermForCourseProgram(g: KnowledgeGraph, p: Params) returns (r: Reply)
    ensures r == TermForCourseProgramReply(g, p)
  {
    var course := CourseOf(g, p);
    var programParam := SanitizeId(p.Get("program", ""));
    var terms := OfKind(g, "Term");
    assert TermForCourseProgramReply(g, p) == TermReply(g, course, programParam, terms);
    if course.None? {
      return Text("Course not found in program.");
    }
    var found := FirstMatchingTerm(g, course.value, programParam, terms);
    FoundTermReply(g, course.value, programParam, terms, found);
    if found.Some? {
      r := Text(TermLabel(terms[found.value]));
    } else {
      r := Text("Course not found in program.");
    }
  }

  /** What the search loop finds decides the reply of `TermReply`. */
  lemma FoundTermReply(g: KnowledgeGraph, course: Value, programParam: string, terms: seq<Value>, found: Option<nat>)
    requires found.Some? ==> found.value < |terms| && TermMatches(g, course, programParam, terms[found.value])
    requires found.Some? ==> forall j | 0 <= j < found.value :: !TermMatches(g, course, programParam, terms[j])
    requires found.None? ==> forall j | 0 <= j < |terms| :: !TermMatches(g, course, programParam, terms[j])
    ensures found.Some? ==> TermReply(g, Some(course), programParam, terms) == Text(TermLabel(terms[found.value]))
    ensures found.None? ==> TermReply(g, Some(course), programParam, terms) == Text("Course not found in program.")
  {
    if found.Some? {
      FirstIndexIs(terms, TermMatcher(g, course, programParam), found.value);
    } else {
      assert FirstIndex(terms, TermMatcher(g, course, programParam)).None?;
    }
  }

  /** The first index `FirstIndex` finds is the first matching term. */
  lemma FirstMatchingTermIs(g: KnowledgeGraph, course: Value, programParam: string, terms: seq<Value>, k: nat)
    requires k < |terms| && TermMatches(g, course, programParam, terms[k])
    requires forall j | 0 <= j < k :: !TermMatches(g, course, programParam, terms[j])
    ensures FirstIndex(terms, TermMatcher(g, course, programParam)) == Some(k)
  {
    FirstIndexIs(terms, TermMatcher(g, course, programParam), k);
  }

  /** The reply names the first term, in search order, that the course
      belongs to and whose program matches; with no such term, or no such
      course, the course is reported missing from the program. */
  lemma TermReplyOutcomes(g: KnowledgeGraph, course: Option<Value>, programParam: string, terms: seq<Value>, k: nat)
    ensures course.None? ==> TermReply(g, course, programParam, terms) == Text("Course not found in program.")
    ensures course.Some? && (forall j | 0 <= j < |terms| :: !TermMatches(g, course.value, programParam, terms[j])) ==>
      TermReply(g, course, programParam, terms) == Text("Course not found in program.")
    ensures course.Some? && k < |terms| && TermMatches(g, course.value, programParam, terms[k])
      && (forall j | 0 <= j < k :: !TermMatches(g, course.value, programParam, terms[j]))
      ==> TermReply(g, course, programParam, terms) == Text(TermLabel(terms[k]))
  {
    if course.Some? {
      if k < |terms| && TermMatches(g, course.value, programParam, terms[k])
        && (forall j | 0 <= j < k :: !TermMatches(g, course.value, programParam, terms[j]))
      {
        FirstMatchingTermIs(g, course.value, programParam, terms, k);
      }
    }
  }

  // ---------------------------------------------------------------------
  // query_course_credits and query_total_sessions
  // ---------------------------------------------------------------------

  /** `get_course_metadata(course)` for the named course; a course that does
      not resolve has no metadata. */
  function MetadataOf(g: KnowledgeGraph, p: Params): Value {
    GetCourseMetadata(g, CourseOf(g, p).GetOr(Nil))
  }

  /** `f"{meta.<attr>}<suffix>"` when the metadata has a truthy `attr`, else `fallback`. */
  function MetadataLine(g: KnowledgeGraph, p: Params, attr: string, suffix: string, fallback: string): (r: Reply)
    ensures r.Text?
    ensures CourseOf(g, p).None? ==> r == Text(fallback)
    ensures Truthy(MetadataOf(g, p)) && Truthy(Attr(g, MetadataOf(g, p), attr)) ==>
      r == Text(Render(Attr(g, MetadataOf(g, p), attr)) + suffix)
    ensures !(Truthy(MetadataOf(g, p)) && Truthy(Attr(g, MetadataOf(g, p), attr))) ==> r == Text(fallback)
  {
    var meta := MetadataOf(g, p);
    if Truthy(meta) && Truthy(Attr(g, meta, attr)) then Text(Render(Attr(g, meta, attr)) + suffix)
    else Text(fallback)
  }

  /** `query_course_credits` */
  function QueryCourseCredits(g: KnowledgeGraph, p: Params): (r: Reply)
    ensures r.Text?
    ensures CourseOf(g, p).None? ==> r == Text("Credit info unavailable.")
    ensures Truthy(Attr(g, MetadataOf(g, p), "CourseCredit")) ==>
      r == Text(Render(Attr(g, MetadataOf(g, p), "CourseCredit")) + " credits.")
    ensures !Truthy(Attr(g, MetadataOf(g, p), "CourseCredit")) ==> r == Text("Credit info unavailable.")
  {
    MetadataLine(g, p, "CourseCredit", " credits.", "Credit info unavailable.")
  }

  /** `query_total_sessions` */
  function QueryTotalSessions(g: KnowledgeGraph, p: Params): (r: Reply)
    ensures r.Text?
    ensures CourseOf(g, p).None? ==> r == Text("Total sessions info unavailable.")
    ensures Truthy(Attr(g, MetadataOf(g, p), "TotalSessions")) ==>
      r == Text(Render(Attr(g, MetadataOf(g, p), "TotalSessions")) + " sessions.")
    ensures !Truthy(Attr(g, MetadataOf(g, p), "TotalSessions")) ==> r == Text("Total sessions info unavailable.")
  {
    MetadataLine(g, p, "TotalSessions", " sessions.", "Total sessions info unavailable.")
  }

  /** A metadata line and the standard query on the path
      `hasCourseMetadata.<attr>` read the same value: both show a real value
      (the line adds its suffix), both give up on a falsy one, and they part
      on the sentinel, which the line prints and the path reads as None. */
  lemma MetadataLineAgreesWithPath(g: KnowledgeGraph, p: Params, rel: string, attr: string,
                                   suffix: string, fallback: string, dataType: string)
    requires rel == "hasCourseMetadata" && '.' !in attr
    requires CourseOf(g, p).Some?
    requires Attr(g, CourseOf(g, p).value, rel).Lst?
    requires !Attr(g, MetadataOf(g, p), attr).Lst?
    ensures var v := Attr(g, MetadataOf(g, p), attr);
      Truthy(v) && v != Str(Sentinel) ==>
        && MetadataLine(g, p, attr, suffix, fallback) == Text(Render(v) + suffix)
        && HandleStandardQuery(g, p, rel + "." + attr, dataType, "course") == Text(Render(v))
    ensures var v := Attr(g, MetadataOf(g, p), attr);
      !Truthy(v) ==>
        && MetadataLine(g, p, attr, suffix, fallback) == Text(fallback)
        && HandleStandardQuery(g, p, rel + "." + attr, dataType, "course") == Text(NoData(dataType, "course", p.Shown("courseName")))
    ensures var v := Attr(g, MetadataOf(g, p), attr);
      v == Str(Sentinel) ==>
        && MetadataLine(g, p, attr, suffix, fallback) == Text(Sentinel + suffix)
        && HandleStandardQuery(g, p, rel + "." + attr, dataType, "course") == Text(NoData(dataType, "course", p.Shown("courseName")))
  {
    var course := CourseOf(g, p).value;
    TwoSegmentPath(g, course, rel, attr);
    var v := Attr(g, MetadataOf(g, p), attr);
    if Truthy(v) {
      assert Truthy(MetadataOf(g, p));
    }
  }

  /** Reading the credits through the metadata record agrees with reading
      them along the path `hasCourseMetadata.CourseCredit`, except that this
      handler adds " credits.". */
  lemma CourseCreditsAgreeWithPath(g: KnowledgeGraph, p: Params, rel: string, attr: string)
    requires rel == "hasCourseMetadata" && attr == "CourseCredit"
    requires CourseOf(g, p).Some?
    requires Attr(g, CourseOf(g, p).value, rel).Lst?
    requires var v := Attr(g, MetadataOf(g, p), attr);
      Truthy(v) && !v.Lst? && v != Str(Sentinel)
    ensures var v := Attr(g, MetadataOf(g, p), attr);
      && QueryCourseCredits(g, p) == Text(Render(v) + " credits.")
      && HandleStandardQuery(g, p, rel + "." + attr, "credit information", "course") == Text(Render(v))
  {
    MetadataLineAgreesWithPath(g, p, rel, attr, " credits.", "Credit info unavailable.", "credit information");
  }

  /** Likewise for the session count along `hasCourseMetadata.TotalSessions`:
      the handler adds " sessions.", and both give up on a missing count. */
  lemma TotalSessionsAgreeWithPath(g: KnowledgeGraph, p: Params, rel: string, attr: string)
    requires rel == "hasCourseMetadata" && attr == "TotalSessions"
    requires CourseOf(g, p).Some?
    requires Attr(g, CourseOf(g, p).value, rel).Lst?
    requires !Attr(g, MetadataOf(g, p), attr).Lst?
    ensures var v := Attr(g, MetadataOf(g, p), attr);
      Truthy(v) && v != Str(Sentinel) ==>
        && QueryTotalSessions(g, p) == Text(Render(v) + " sessions.")
        && HandleStandardQuery(g, p, rel + "." + attr, "total sessions", "course") == Text(Render(v))
    ensures var v := Attr(g, MetadataOf(g, p), attr);
      !Truthy(v) ==>
        && QueryTotalSessions(g, p) == Text("Total sessions info unavailable.")
        && HandleStandardQuery(g, p, rel + "." + attr, "total sessions", "course") == Text(NoData("total sessions", "course", p.Shown("courseName")))
  {
    MetadataLineAgreesWithPath(g, p, rel, attr, " sessions.", "Total sessions info unavailable.", "total sessions");
  }

  // ---------------------------------------------------------------------
  // query_reading_materials
  // ---------------------------------------------------------------------

  /** A session with reading material other than the sentinel. */
  function HasReading(g: KnowledgeGraph): Value -> bool {
    s => Truthy(Attr(g, s, "ReadingMaterial")) && Attr(g, s, "ReadingMaterial") != Str(Sentinel)
  }

  /** The reading materials of some sessions, in session order. */
  function MaterialsOf(g: KnowledgeGraph, sessions: seq<Value>): seq<Value> {
    FilterMap(sessions, HasReading(g), AttrOf(g, "ReadingMaterial"))
  }

  /** The reading materials of the course's sessions, in session order. */
  function Materials(g: KnowledgeGraph, p: Params): seq<Value> {
    MaterialsOf(g, CourseRecords(g, p, "hasSessionPlan"))
  }

  /** `materials[:5]` */
  function ShownMaterials(g: KnowledgeGraph, p: Params): seq<Value> {
    var materials := Materials(g, p);
    materials[..if |materials| < 5 then |materials| else 5]
  }

  /** `query_reading_materials`: the first five materials, one per line. */
  function QueryReadingMaterials(g: KnowledgeGraph, p: Params): (r: Reply)
    ensures CourseOf(g, p).None? ==> r == Text(NotFound("course", p.Shown("courseName")))
    ensures CourseOf(g, p).Some? && Materials(g, p) == [] ==> r == Text("No reading materials listed.")
    ensures CourseOf(g, p).Some? && Materials(g, p) != [] ==>
      (r == Fault <==> exists i | 0 <= i < |ShownMaterials(g, p)| :: !ShownMaterials(g, p)[i].Str?)
    ensures CourseOf(g, p).Some? && Materials(g, p) != [] && Texts(ShownMaterials(g, p)).Some? ==>
      r == Text("Required readings:\n" + Join("\n", Texts(ShownMaterials(g, p)).value))
  {
    if CourseOf(g, p).None? then Text(NotFound("course", p.Shown("courseName")))
    else if Materials(g, p) != [] then
      var shown := ShownMaterials(g, p);
      var r := Listing("Required readings:\n", shown, "\n", "");
      assert r.Text? ==> r.text == "Required readings:\n" + Join("\n", Texts(shown).value) + "";
      r
    else Text("No reading materials listed.")
  }

  /** The material of session `k` comes after those of the sessions before it. */
  lemma MaterialsInOrder(g: KnowledgeGraph, sessions: seq<Value>, k: nat)
    requires k < |sessions| && HasReading(g)(sessions[k])
    ensures var i := |MaterialsOf(g, sessions[..k])|;
      i < |MaterialsOf(g, sessions)| && MaterialsOf(g, sessions)[i] == Attr(g, sessions[k], "ReadingMaterial")
  {
    var before := sessions[..k];
    var upto := sessions[..k + 1];
    assert upto == before + [sessions[k]];
    assert sessions == upto + sessions[k + 1..];
    FilterMapSnoc(before, sessions[k], HasReading(g), AttrOf(g, "ReadingMaterial"));
    FilterMapAppend(upto, sessions[k + 1..], HasReading(g), AttrOf(g, "ReadingMaterial"));
  }

  /** The material of session `k` is shown when fewer than five earlier
      sessions have one, and then at the position that counts them: the
      reply lists the first five materials in session order. */
  lemma ReadingMaterialsInOrder(g: KnowledgeGraph, p: Params, k: nat)
    requires var sessions := CourseRecords(g, p, "hasSessionPlan");
      k < |sessions| && HasReading(g)(sessions[k]) && |MaterialsOf(g, sessions[..k])| < 5
    ensures var sessions := CourseRecords(g, p, "hasSessionPlan");
      var i := |MaterialsOf(g, sessions[..k])|;
      i < |ShownMaterials(g, p)| && ShownMaterials(g, p)[i] == Attr(g, sessions[k], "ReadingMaterial")
  {
    MaterialsInOrder(g, CourseRecords(g, p, "hasSessionPlan"), k);
  }

  /** At most five materials are listed, none of them the sentinel, each the
      material of one of the course's sessions. */
  lemma ReadingMaterialsListed(g: KnowledgeGraph, p: Params, v: Value)
    requires CourseOf(g, p).Some? && Materials(g, p) != []
    ensures var shown := Materials(g, p)[..if |Materials(g, p)| < 5 then |Materials(g, p)| else 5];
      && 1 <= |shown| <= 5
      && (v in shown ==>
            && v != Str(Sentinel) && Truthy(v)
            && exists k | 0 <= k < |CourseRecords(g, p, "hasSessionPlan")| :: v == Attr(g, CourseRecords(g, p, "hasSessionPlan")[k], "ReadingMaterial"))
  {
    var materials := Materials(g, p);
    var shown := materials[..if |materials| < 5 then |materials| else 5];
    if v in shown {
      assert v in materials;
      FilterMapFrom(CourseRecords(g, p, "hasSessionPlan"), HasReading(g), AttrOf(g, "ReadingMaterial"), v);
    }
  }

  // ---------------------------------------------------------------------
  // query_consultation_contact and query_instructor_office
  // ---------------------------------------------------------------------

  /** `course.hasInstructorDetails[0]` for a course that has instructor details. */
  function FirstInstructor(g: KnowledgeGraph, p: Params): Value {
    First(Attr(g, CourseOf(g, p).GetOr(Nil), "hasInstructorDetails"))
  }

  /** "Contact: <details>, Consultation Hours: <hours>", the line both
      contact handlers print. */
  function ContactLine(contact: Value, hours: Value): (line: string)
    ensures |line| > 0 && line[0] == 'C'
  {
    "Contact: " + Render(contact) + ", Consultation Hours: " + Render(hours)
  }

  /** `query_consultation_contact`: contact and hours of the first instructor
      record, when either is truthy. */
  function QueryConsultationContact(g: KnowledgeGraph, p: Params): (r: Reply)
    ensures r.Text?
    ensures CourseHas(g, p, "hasInstructorDetails") ==>
      var ins := FirstInstructor(g, p);
      Truthy(Attr(g, ins, "ContactDetails")) || Truthy(Attr(g, ins, "ConsultationHours")) ==>
        r == Text(ContactLine(Attr(g, ins, "ContactDetails"), Attr(g, ins, "ConsultationHours")))
    ensures !CourseHas(g, p, "hasInstructorDetails") ==>
      r == Text(NoData("consultation details", "instructor", p.Shown("courseName")))
    ensures CourseHas(g, p, "hasInstructorDetails") ==>
      var ins := FirstInstructor(g, p);
      (r == Text(NoData("consultation details", "instructor", p.Shown("courseName"))) <==>
        !Truthy(Attr(g, ins, "ContactDetails")) && !Truthy(Attr(g, ins, "ConsultationHours")))
  {
    var ins := FirstInstructor(g, p);
    if CourseHas(g, p, "hasInstructorDetails") && (Truthy(Attr(g, ins, "ContactDetails")) || Truthy(Attr(g, ins, "ConsultationHours")))
    then Text(ContactLine(Attr(g, ins, "ContactDetails"), Attr(g, ins, "ConsultationHours")))
    else Text(NoData("consultation details", "instructor", p.Shown("courseName")))
  }

  /** `query_instructor_office`: the office of the first instructor record. */
  function QueryInstructorOffice(g: KnowledgeGraph, p: Params): (r: Reply)
    ensures r.Text?
    ensures CourseHas(g, p, "hasInstructorDetails") && Truthy(Attr(g, FirstInstructor(g, p), "Office")) ==>
      r == Text("Office location: " + Render(Attr(g, FirstInstructor(g, p), "Office")))
    ensures !(CourseHas(g, p, "hasInstructorDetails") && Truthy(Attr(g, FirstInstructor(g, p), "Office"))) ==>
      r == Text(NoData("office location", "instructor", p.Shown("courseName")))
  {
    var ins := FirstInstructor(g, p);
    if CourseHas(g, p, "hasInstructorDetails") && Truthy(Attr(g, ins, "Office"))
    then Text("Office location: " + Render(Attr(g, ins, "Office")))
    else Text(NoData("office location", "instructor", p.Shown("courseName")))
  }
}
