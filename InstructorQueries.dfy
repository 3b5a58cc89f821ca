/**
 * The handlers that start from an instructor name: the instructor's
 * contact line, the courses they teach, and those of them taught in a
 * given program. The instructor is found by `get_instructor`, an exact
 * match on the trimmed `Instructors` value.
 */
module InstructorQueries {
  import opened Wrappers
  import opened Text
  import opened Lists
  import opened Graph
  import opened Resolvers
  import opened Replies
  import opened Listings
  import opened GenericHandlers
  import opened CourseQueries

  /** The raw instructor name the handlers echo back. */
  function InstructorName(p: Params): string {
    p.Get("instructorName", "")
  }

  /** `get_instructor(params.get("instructorName", ""))` */
  function InstructorOf(g: KnowledgeGraph, p: Params): Option<Value> {
    GetInstructor(g, InstructorName(p))
  }

  /** `inst and hasattr(inst, "teachesCourse")` */
  predicate TeachesSomething(g: KnowledgeGraph, p: Params) {
    InstructorOf(g, p).Some? && Lookup(g, InstructorOf(g, p).value, "teachesCourse").Some?
  }

  /** The courses the found instructor teaches, in their stored order. */
  function TaughtCourses(g: KnowledgeGraph, p: Params): seq<Value> {
    Items(Attr(g, InstructorOf(g, p).GetOr(Nil), "teachesCourse"))
  }

  // ---------------------------------------------------------------------
  // query_contact_instructor
  // ---------------------------------------------------------------------

  /** `query_contact_instructor` */
  function QueryContactInstructor(g: KnowledgeGraph, p: Params): (r: Reply)
    ensures r.Text?
    ensures InstructorOf(g, p).Some? && Truthy(Attr(g, InstructorOf(g, p).value, "ContactDetails")) ==>
      var inst := InstructorOf(g, p).value;
      r == Text(ContactLine(Attr(g, inst, "ContactDetails"), Attr(g, inst, "ConsultationHours")))
  {
    match InstructorOf(g, p)
    case Some(inst) =>
      if Truthy(Attr(g, inst, "ContactDetails"))
      then Text(ContactLine(Attr(g, inst, "ContactDetails"), Attr(g, inst, "ConsultationHours")))
      else Text(NotFound("instructor", InstructorName(p)))
    case None => Text(NotFound("instructor", InstructorName(p)))
  }

  /** The instructor is reported missing exactly when the name finds no
      instructor or the one found has no contact details. */
  lemma ContactInstructorOutcomes(g: KnowledgeGraph, p: Params)
    ensures QueryContactInstructor(g, p) == Text(NotFound("instructor", InstructorName(p))) <==>
      InstructorOf(g, p).None? || !Truthy(Attr(g, InstructorOf(g, p).value, "ContactDetails"))
    ensures !ValidateInput(InstructorName(p)) ==>
      QueryContactInstructor(g, p) == Text(NotFound("instructor", InstructorName(p)))
  {
    var r := QueryContactInstructor(g, p);
    if InstructorOf(g, p).Some? && Truthy(Attr(g, InstructorOf(g, p).value, "ContactDetails")) {
      assert r.text[0] == 'C';
      assert NotFound("instructor", InstructorName(p))[0] == 'I';
    }
  }

  /** The contact line answers for the first individual, in search order,
      whose `Instructors` value is the trimmed name, when it has contact
      details. */
  lemma ContactInstructorFindsFirst(g: KnowledgeGraph, p: Params, k: nat)
    requires ValidateInput(InstructorName(p))
    requires k < |g.order|
    requires HoldsText(Attr(g, Ref(g.order[k]), "Instructors"), Strip(InstructorName(p)))
    requires forall j | 0 <= j < k :: !HoldsText(Attr(g, Ref(g.order[j]), "Instructors"), Strip(InstructorName(p)))
    requires Truthy(Attr(g, Ref(g.order[k]), "ContactDetails"))
    ensures var inst := Ref(g.order[k]);
      QueryContactInstructor(g, p) == Text(ContactLine(Attr(g, inst, "ContactDetails"), Attr(g, inst, "ConsultationHours")))
  {
    GetInstructorIsFirst(g, InstructorName(p), k);
  }

  /** Asking for an instructor by name and asking for the consultation
      details of a course whose first instructor record is that instructor
      give the same contact line. */
  lemma ContactRepliesAgree(g: KnowledgeGraph, p: Params, q: Params)
    requires CourseHas(g, q, "hasInstructorDetails")
    requires InstructorOf(g, p) == Some(FirstInstructor(g, q))
    requires Truthy(Attr(g, FirstInstructor(g, q), "ContactDetails"))
    ensures QueryContactInstructor(g, p) == QueryConsultationContact(g, q)
  {
  }

  // ---------------------------------------------------------------------
  // query_courses_by_instructor
  // ---------------------------------------------------------------------

  /** What `query_courses_by_instructor` answers. */
  function CoursesByInstructorReply(g: KnowledgeGraph, p: Params): Reply {
    var name := InstructorName(p);
    if !TeachesSomething(g, p) then Text(NotFound("instructor", name))
    else
      var titles := CourseTitles(g, TaughtCourses(g, p));
      if titles != [] then Listing(name + " teaches: ", titles, ", ", ".")
      else Text(NoData("courses", "instructor", name))
  }

  /** `query_courses_by_instructor`, with its title loop. */
  method QueryCoursesByInstructor(g: KnowledgeGraph, p: Params) returns (r: Reply)
    ensures r == CoursesByInstructorReply(g, p)
  {
    var name := InstructorName(p);
    var inst := GetInstructor(g, name);
    if inst.Some? && Lookup(g, inst.value, "teachesCourse").Some? {
      var courses := Attr(g, inst.value, "teachesCourse");
      if Truthy(courses) {
        var titles := CollectTitles(g, Items(courses));
        if titles != [] {
          return Listing(name + " teaches: ", titles, ", ", ".");
        }
      } else {
        assert CourseTitles(g, Items(courses)) == [];
      }
      return Text(NoData("courses", "instructor", name));
    }
    r := Text(NotFound("instructor", name));
  }

  /** The three outcomes: not found when the instructor does not resolve or
      has no `teachesCourse`; no data when none of the taught courses has a
      title; otherwise the listing of the titles, each the title of a
      taught course. */
  lemma CoursesByInstructorOutcomes(g: KnowledgeGraph, p: Params, v: Value)
    ensures !TeachesSomething(g, p) ==>
      CoursesByInstructorReply(g, p) == Text(NotFound("instructor", InstructorName(p)))
    ensures TeachesSomething(g, p) && (forall k | 0 <= k < |TaughtCourses(g, p)| :: !HasTitle(g, TaughtCourses(g, p)[k])) ==>
      CoursesByInstructorReply(g, p) == Text(NoData("courses", "instructor", InstructorName(p)))
    ensures TeachesSomething(g, p) && (exists k | 0 <= k < |TaughtCourses(g, p)| :: HasTitle(g, TaughtCourses(g, p)[k])) ==>
      CoursesByInstructorReply(g, p) == Listing(InstructorName(p) + " teaches: ", CourseTitles(g, TaughtCourses(g, p)), ", ", ".")
    ensures v in CourseTitles(g, TaughtCourses(g, p)) <==>
      exists k | 0 <= k < |TaughtCourses(g, p)| :: HasTitle(g, TaughtCourses(g, p)[k]) && v == Title(g, TaughtCourses(g, p)[k])
  {
    CourseTitlesMembers(g, TaughtCourses(g, p), v);
  }

  // ---------------------------------------------------------------------
  // query_courses_by_instructor_in_program
  // ---------------------------------------------------------------------

  /** `program_param in course.belongsToTerm[0].belongsToProgram[0].name` */
  predicate InProgram(g: KnowledgeGraph, course: Value, programParam: string) {
    ProgramOf(g, course).Some? && Contains(Name(ProgramOf(g, course).value), programParam)
  }

  /** The titles the loop of `query_courses_by_instructor_in_program`
      collects: those of the courses in a matching program. */
  function ProgramTitles(g: KnowledgeGraph, courses: seq<Value>, programParam: string): seq<Value>
    decreases |courses|
  {
    if courses == [] then []
    else
      var last := courses[|courses| - 1];
      ProgramTitles(g, courses[..|courses| - 1], programParam)
        + (if InProgram(g, last, programParam) && HasTitle(g, last) then [Title(g, last)] else [])
  }

  /** The title `v` of a course whose program's name contains the parameter. */
  predicate Listed(g: KnowledgeGraph, course: Value, programParam: string, v: Value) {
    InProgram(g, course, programParam) && HasTitle(g, course) && v == Title(g, course)
  }

  /** Every collected title is that of a course in a matching program. */
  lemma {:induction false} ProgramTitlesSound(g: KnowledgeGraph, courses: seq<Value>, programParam: string, v: Value)
    requires v in ProgramTitles(g, courses, programParam)
    ensures exists k | 0 <= k < |courses| :: Listed(g, courses[k], programParam, v)
    decreases |courses|
  {
    var init := courses[..|courses| - 1];
    if v in ProgramTitles(g, init, programParam) {
      ProgramTitlesSound(g, init, programParam, v);
      var k :| 0 <= k < |init| && Listed(g, init[k], programParam, v);
      assert courses[k] == init[k];
    } else {
      assert Listed(g, courses[|courses| - 1], programParam, v);
    }
  }

  /** The title of every course in a matching program is collected. */
  lemma {:induction false} ProgramTitlesComplete(g: KnowledgeGraph, courses: seq<Value>, programParam: string, v: Value, k: nat)
    requires k < |courses| && Listed(g, courses[k], programParam, v)
    ensures v in ProgramTitles(g, courses, programParam)
    decreases |courses|
  {
    var init := courses[..|courses| - 1];
    if k < |init| {
      assert init[k] == courses[k];
      ProgramTitlesComplete(g, init, programParam, v, k);
    }
  }

  /** A title is collected exactly when it is the title of a course whose
      program's name contains the parameter. */
  lemma ProgramTitlesMembers(g: KnowledgeGraph, courses: seq<Value>, programParam: string, v: Value)
    ensures v in ProgramTitles(g, courses, programParam) <==>
      exists k | 0 <= k < |courses| :: Listed(g, courses[k], programParam, v)
  {
    if v in ProgramTitles(g, courses, programParam) {
      ProgramTitlesSound(g, courses, programParam, v);
    }
    if exists k | 0 <= k < |courses| :: Listed(g, courses[k], programParam, v) {
      var k :| 0 <= k < |courses| && Listed(g, courses[k], programParam, v);
      ProgramTitlesComplete(g, courses, programParam, v, k);
    }
  }

  /** Every program name contains the empty parameter, so with an empty
      parameter the courses listed are all the titled courses that belong
      to some program. */
  lemma {:induction false} EmptyProgramKeepsEveryProgram(g: KnowledgeGraph, courses: seq<Value>, programParam: string)
    requires programParam == []
    ensures forall k | 0 <= k < |courses| :: InProgram(g, courses[k], programParam) <==> ProgramOf(g, courses[k]).Some?
  {
    forall k | 0 <= k < |courses| && ProgramOf(g, courses[k]).Some?
      ensures Contains(Name(ProgramOf(g, courses[k]).value), programParam)
    {
      assert StartsWith(Name(ProgramOf(g, courses[k]).value), programParam);
    }
  }

  /** The reply for the instructor name, the instructor it finds, the
      normalised program parameter and the program as the user gave it. */
  function InProgramReply(g: KnowledgeGraph, name: string, inst: Option<Value>, programParam: string, shown: string): Reply {
    if inst.None? || Lookup(g, inst.value, "teachesCourse").None? then Text(NotFound("instructor", name))
    else
      var titles := ProgramTitles(g, Items(Attr(g, inst.value, "teachesCourse")), programParam);
      if titles != [] then Listing("Courses taught by " + name + " in " + shown + ": ", titles, ", ", ".")
      else Text(NoData("courses", "instructor", name))
  }

  /** What `query_courses_by_instructor_in_program` answers. */
  function CoursesByInstructorInProgramReply(g: KnowledgeGraph, p: Params): Reply {
    InProgramReply(g, InstructorName(p), InstructorOf(g, p), SanitizeId(p.Get("program", "")), p.Shown("program"))
  }

  /** One more course adds its title, when it has one and is in a matching program. */
  lemma ProgramTitlesSnoc(g: KnowledgeGraph, courses: seq<Value>, i: nat, programParam: string)
    requires i < |courses|
    ensures ProgramTitles(g, courses[..i + 1], programParam) ==
      ProgramTitles(g, courses[..i], programParam)
        + (if InProgram(g, courses[i], programParam) && HasTitle(g, courses[i]) then [Title(g, courses[i])] else [])
  {
    assert courses[..i + 1][..i] == courses[..i];
  }

  /** The loop over the taught courses. */
  method CollectProgramTitles(g: KnowledgeGraph, courses: seq<Value>, programParam: string) returns (found: seq<Value>)
    ensures found == ProgramTitles(g, courses, programParam)
  {
    found := [];
    var i := 0;
    while i < |courses|
      invariant 0 <= i <= |courses|
      invariant found == ProgramTitles(g, courses[..i], programParam)
    {
      var course := courses[i];
      ProgramTitlesSnoc(g, courses, i, programParam);
      if Truthy(Attr(g, course, "belongsToTerm")) && Truthy(Attr(g, First(Attr(g, course, "belongsToTerm")), "belongsToProgram")) {
        var prog := First(Attr(g, First(Attr(g, course, "belongsToTerm")), "belongsToProgram"));
        if Contains(Name(prog), programParam) {
          var meta := GetCourseMetadata(g, course);
          if Truthy(meta) && Truthy(Attr(g, meta, "CourseCodeTitle")) {
            found := found + [Attr(g, meta, "CourseCodeTitle")];
          }
        }
      }
      i := i + 1;
    }
    assert courses[..i] == courses;
  }

  /** The body of `query_courses_by_instructor_in_program` once the
      instructor is looked up. */
  method AnswerInProgram(g: KnowledgeGraph, name: string, inst: Option<Value>, programParam: string, shown: string)
    returns (r: Reply)
    ensures r == InProgramReply(g, name, inst, programParam, shown)
  {
    if inst.Some? && Lookup(g, inst.value, "teachesCourse").Some? {
      var found := CollectProgramTitles(g, Items(Attr(g, inst.value, "teachesCourse")), programParam);
      if found != [] {
        return Listing("Courses taught by " + name + " in " + shown + ": ", found, ", ", ".");
      }
      return Text(NoData("courses", "instructor", name));
    }
    r := Text(NotFound("instructor", name));
  }

  /** `query_courses_by_instructor_in_program` */
  method QueryCoursesByInstructorInProgram(g: KnowledgeGraph, p: Params) returns (r: Reply)
    ensures r == CoursesByInstructorInProgramReply(g, p)
  {
    var name := InstructorName(p);
    var inst := GetInstructor(g, name);
    r := AnswerInProgram(g, name, inst, SanitizeId(p.Get("program", "")), p.Shown("program"));
  }

  /** The courses listed for a program are among those listed for the
      instructor overall: filtering by program only drops titles. */
  lemma InProgramTitlesAreTaughtTitles(g: KnowledgeGraph, p: Params, v: Value)
    requires v in ProgramTitles(g, TaughtCourses(g, p), SanitizeId(p.Get("program", "")))
    ensures v in CourseTitles(g, TaughtCourses(g, p))
  {
    var courses := TaughtCourses(g, p);
    ProgramTitlesMembers(g, courses, SanitizeId(p.Get("program", "")), v);
    CourseTitlesMembers(g, courses, v);
  }
}
