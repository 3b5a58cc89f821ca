/**
 * The handlers that start from a program or a term: the courses offered in
 * a program during a term, and the instructors associated with a program
 * or a term. Programs and terms are looked up by normalised identifier;
 * a term within a program is matched by substring of its name.
 */
module ProgramQueries {
  import opened Wrappers
  import opened Text
  import opened Lists
  import opened Graph
  import opened Replies
  import opened Listings

  // ---------------------------------------------------------------------
  // query_courses_in_program_term
  // ---------------------------------------------------------------------

  const NoCoursesFound: string := "No courses found " + "for the specified program and term."

  /** `term_param in t.name` */
  function TermNamed(termParam: string): Value -> bool {
    t => Contains(Name(t), termParam)
  }

  /** The program with identifier `programId`, then the first of its terms
      whose name contains `termParam`. */
  function ProgramTerm(g: KnowledgeGraph, programId: string, termParam: string): Option<Value> {
    match FindById(g, programId)
    case None => None
    case Some(program) =>
      var terms := Items(Attr(g, program, "hasTerm"));
      match FirstIndex(terms, TermNamed(termParam))
      case None => None
      case Some(k) => Some(terms[k])
  }

  /** The term matched by the normalised `program` and `term` parameters. */
  function ProgramTermOf(g: KnowledgeGraph, p: Params): Option<Value> {
    ProgramTerm(g, SanitizeId(p.Get("program", "")), SanitizeId(p.Get("term", "")))
  }

  /** The courses of the matched term. */
  function TermCourses(g: KnowledgeGraph, p: Params): seq<Value> {
    Items(Attr(g, ProgramTermOf(g, p).GetOr(Nil), "hasCourse"))
  }

  /** The text before the titles. */
  function OfferedPrefix(p: Params): (r: string)
    ensures |r| > 0 && r[0] == 'C'
  {
    "Courses offered in " + p.Shown("program") + " during term " + p.Shown("term") + ": "
  }

  /** The reply for a matched term, or for none. */
  function TermCoursesReply(g: KnowledgeGraph, term: Option<Value>, prefix: string): Reply {
    if term.None? then Text(NoCoursesFound)
    else
      var titles := CourseTitles(g, Items(Attr(g, term.value, "hasCourse")));
      if titles != [] then Listing(prefix, titles, ", ", ".")
      else Text(NoCoursesFound)
  }

  /** What `query_courses_in_program_term` answers. */
  function CoursesInProgramTermReply(g: KnowledgeGraph, p: Params): Reply {
    TermCoursesReply(g, ProgramTermOf(g, p), OfferedPrefix(p))
  }

  /** `query_courses_in_program_term`, with its title loop. */
  method QueryCoursesInProgramTerm(g: KnowledgeGraph, p: Params) returns (r: Reply)
    ensures r == CoursesInProgramTermReply(g, p)
  {
    var termParam := SanitizeId(p.Get("term", ""));
    var progs := FindById(g, SanitizeId(p.Get("program", "")));
    if progs.Some? {
      var terms := Items(Attr(g, progs.value, "hasTerm"));
      var k := FirstIndex(terms, TermNamed(termParam));
      if k.Some? {
        var term := terms[k.value];
        assert ProgramTerm(g, SanitizeId(p.Get("program", "")), termParam) == Some(term);
        var found := CollectTitles(g, Items(Attr(g, term, "hasCourse")));
        assert found == CourseTitles(g, TermCourses(g, p));
        if found != [] {
          return Listing(OfferedPrefix(p), found, ", ", ".");
        }
        return Text(NoCoursesFound);
      }
      assert ProgramTerm(g, SanitizeId(p.Get("program", "")), termParam).None?;
    }
    r := Text(NoCoursesFound);
  }

  /** A matched term exists only when the program is in the graph, and it
      is the first of the program's terms whose name contains the
      parameter. */
  lemma ProgramTermIsFirstMatch(g: KnowledgeGraph, programId: string, termParam: string)
    requires ProgramTerm(g, programId, termParam).Some?
    ensures programId in g.nodes
    ensures var terms := Items(Attr(g, Ref(programId), "hasTerm"));
      exists k | 0 <= k < |terms| ::
        && terms[k] == ProgramTerm(g, programId, termParam).value
        && Contains(Name(terms[k]), termParam)
        && forall j | 0 <= j < k :: !Contains(Name(terms[j]), termParam)
  {
    var terms := Items(Attr(g, Ref(programId), "hasTerm"));
    var k := FirstIndex(terms, TermNamed(termParam)).value;
    assert TermNamed(termParam)(terms[k]);
  }

  /** The reply says no courses were found exactly when there is no
      matching term or none of its courses has a title, and otherwise lists
      the titles of the term's titled courses. */
  lemma CoursesInProgramTermOutcomes(g: KnowledgeGraph, term: Option<Value>, prefix: string, v: Value)
    requires |prefix| > 0 && prefix[0] == 'C'
    ensures var courses := Items(Attr(g, term.GetOr(Nil), "hasCourse"));
      TermCoursesReply(g, term, prefix) == Text(NoCoursesFound) <==>
        term.None? || forall k | 0 <= k < |courses| :: !HasTitle(g, courses[k])
    ensures var courses := Items(Attr(g, term.GetOr(Nil), "hasCourse"));
      v in CourseTitles(g, courses) <==>
        exists k | 0 <= k < |courses| :: HasTitle(g, courses[k]) && v == Title(g, courses[k])
  {
    var courses := Items(Attr(g, term.GetOr(Nil), "hasCourse"));
    CourseTitlesMembers(g, courses, v);
    if term.Some? && CourseTitles(g, courses) != [] {
      var r := Listing(prefix, CourseTitles(g, courses), ", ", ".");
      if r.Text? {
        assert r.text[0] == 'C';
        assert NoCoursesFound[0] == 'N';
      }
    }
  }

  // ---------------------------------------------------------------------
  // query_instructors_in_program_term
  // ---------------------------------------------------------------------

  /** The truthy `Instructors` values of some instructor records. */
  function RecordNames(g: KnowledgeGraph, records: seq<Value>): set<Value>
    decreases |records|
  {
    if records == [] then {}
    else
      var last := records[|records| - 1];
      RecordNames(g, records[..|records| - 1])
        + (if Truthy(Attr(g, last, "Instructors")) then {Attr(g, last, "Instructors")} else {})
  }

  /** The instructor names of one course. */
  function CourseNames(g: KnowledgeGraph, course: Value): set<Value> {
    RecordNames(g, Items(Attr(g, course, "hasInstructorDetails")))
  }

  /** The instructor names of some courses. */
  function CoursesNames(g: KnowledgeGraph, courses: seq<Value>): set<Value>
    decreases |courses|
  {
    if courses == [] then {}
    else CoursesNames(g, courses[..|courses| - 1]) + CourseNames(g, courses[|courses| - 1])
  }

  /** The instructor names of the courses of a term. */
  function TermNames(g: KnowledgeGraph, term: Value): set<Value> {
    CoursesNames(g, Items(Attr(g, term, "hasCourse")))
  }

  /** The instructor names of the courses of some terms. */
  function TermsNames(g: KnowledgeGraph, terms: seq<Value>): set<Value>
    decreases |terms|
  {
    if terms == [] then {}
    else TermsNames(g, terms[..|terms| - 1]) + TermNames(g, terms[|terms| - 1])
  }

  /** The set `query_instructors_in_program_term` builds: by program when the
      request has a `program` parameter, else by term when it has a `term`
      parameter. */
  function InstructorSet(g: KnowledgeGraph, p: Params): set<Value> {
    if "program" in p.fields then ProgramInstructors(g, SanitizeId(p.Get("program", "")))
    else if "term" in p.fields then TermInstructors(g, SanitizeId(p.Get("term", "")))
    else {}
  }

  /** The instructor names under the program with identifier `id`, if any. */
  function ProgramInstructors(g: KnowledgeGraph, id: string): set<Value> {
    match FindById(g, id)
    case None => {}
    case Some(program) => TermsNames(g, Items(Attr(g, program, "hasTerm")))
  }

  /** The instructor names under the term with identifier `id`, if any. */
  function TermInstructors(g: KnowledgeGraph, id: string): set<Value> {
    match FindById(g, id)
    case None => {}
    case Some(term) => TermNames(g, term)
  }

  /** `params.get("program") or params.get("term")` as the no-data name. */
  function ProgramOrTerm(p: Params): string {
    if "program" in p.fields && p.fields["program"] != "" then p.fields["program"] else p.Shown("term")
  }

  lemma {:induction false} RecordNamesMembers(g: KnowledgeGraph, records: seq<Value>, v: Value)
    ensures v in RecordNames(g, records) <==>
      exists k | 0 <= k < |records| :: Truthy(Attr(g, records[k], "Instructors")) && v == Attr(g, records[k], "Instructors")
    decreases |records|
  {
    if records != [] {
      var init := records[..|records| - 1];
      RecordNamesMembers(g, init, v);
      if v in RecordNames(g, init) {
        var k :| 0 <= k < |init| && Truthy(Attr(g, init[k], "Instructors")) && v == Attr(g, init[k], "Instructors");
        assert records[k] == init[k];
      }
      if exists k | 0 <= k < |records| :: Truthy(Attr(g, records[k], "Instructors")) && v == Attr(g, records[k], "Instructors") {
        var k :| 0 <= k < |records| && Truthy(Attr(g, records[k], "Instructors")) && v == Attr(g, records[k], "Instructors");
        if k < |init| {
          assert init[k] == records[k];
        }
      }
    }
  }

  lemma {:induction false} CoursesNamesMembers(g: KnowledgeGraph, courses: seq<Value>, v: Value)
    ensures v in CoursesNames(g, courses) <==> exists k | 0 <= k < |courses| :: v in CourseNames(g, courses[k])
    decreases |courses|
  {
    if courses != [] {
      var init := courses[..|courses| - 1];
      CoursesNamesMembers(g, init, v);
      if v in CoursesNames(g, init) {
        var k :| 0 <= k < |init| && v in CourseNames(g, init[k]);
        assert courses[k] == init[k];
      }
      if exists k | 0 <= k < |courses| :: v in CourseNames(g, courses[k]) {
        var k :| 0 <= k < |courses| && v in CourseNames(g, courses[k]);
        if k < |init| {
          assert init[k] == courses[k];
        }
      }
    }
  }

  lemma {:induction false} TermsNamesMembers(g: KnowledgeGraph, terms: seq<Value>, v: Value)
    ensures v in TermsNames(g, terms) <==>
      exists k | 0 <= k < |terms| :: v in TermNames(g, terms[k])
    decreases |terms|
  {
    if terms != [] {
      var init := terms[..|terms| - 1];
      TermsNamesMembers(g, init, v);
      if v in TermsNames(g, init) {
        var k :| 0 <= k < |init| && v in TermNames(g, init[k]);
        assert terms[k] == init[k];
      }
      if exists k | 0 <= k < |terms| :: v in TermNames(g, terms[k]) {
        var k :| 0 <= k < |terms| && v in TermNames(g, terms[k]);
        if k < |init| {
          assert init[k] == terms[k];
        }
      }
    }
  }

  /** Whether `v` is the truthy instructor name of a record of a course of
      a term of `program`. */
  predicate NamedUnderProgram(g: KnowledgeGraph, program: Value, v: Value) {
    exists t, c, i |
      && t in Items(Attr(g, program, "hasTerm"))
      && c in Items(Attr(g, t, "hasCourse"))
      && i in Items(Attr(g, c, "hasInstructorDetails"))
      :: Truthy(Attr(g, i, "Instructors")) && v == Attr(g, i, "Instructors")
  }

  /** Every name collected by program is found under the program. */
  lemma ProgramInstructorsSound(g: KnowledgeGraph, program: Value, v: Value)
    requires v in TermsNames(g, Items(Attr(g, program, "hasTerm")))
    ensures NamedUnderProgram(g, program, v)
  {
    var terms := Items(Attr(g, program, "hasTerm"));
    TermsNamesMembers(g, terms, v);
    var kt :| 0 <= kt < |terms| && v in TermNames(g, terms[kt]);
    var courses := Items(Attr(g, terms[kt], "hasCourse"));
    CoursesNamesMembers(g, courses, v);
    var kc :| 0 <= kc < |courses| && v in CourseNames(g, courses[kc]);
    var records := Items(Attr(g, courses[kc], "hasInstructorDetails"));
    RecordNamesMembers(g, records, v);
    var ki :| 0 <= ki < |records| && Truthy(Attr(g, records[ki], "Instructors")) && v == Attr(g, records[ki], "Instructors");
    assert terms[kt] in terms && courses[kc] in courses && records[ki] in records;
  }

  /** Every truthy name of an instructor record of a course of a term of
      the program is collected. */
  lemma ProgramInstructorsComplete(g: KnowledgeGraph, program: Value, t: Value, c: Value, i: Value)
    requires t in Items(Attr(g, program, "hasTerm"))
    requires c in Items(Attr(g, t, "hasCourse"))
    requires i in Items(Attr(g, c, "hasInstructorDetails"))
    requires Truthy(Attr(g, i, "Instructors"))
    ensures Attr(g, i, "Instructors") in TermsNames(g, Items(Attr(g, program, "hasTerm")))
  {
    var v := Attr(g, i, "Instructors");
    var terms := Items(Attr(g, program, "hasTerm"));
    var records := Items(Attr(g, c, "hasInstructorDetails"));
    var ki :| 0 <= ki < |records| && records[ki] == i;
    RecordNamesMembers(g, records, v);
    var courses := Items(Attr(g, t, "hasCourse"));
    var kc :| 0 <= kc < |courses| && courses[kc] == c;
    CoursesNamesMembers(g, courses, v);
    var kt :| 0 <= kt < |terms| && terms[kt] == t;
    TermsNamesMembers(g, terms, v);
  }

  /** By program, the set holds exactly the truthy instructor names found
      through the program's terms, their courses and the courses' instructor
      records, each once however often it occurs. */
  lemma ProgramInstructorsMembers(g: KnowledgeGraph, program: Value, v: Value)
    ensures v in TermsNames(g, Items(Attr(g, program, "hasTerm"))) <==> NamedUnderProgram(g, program, v)
  {
    if v in TermsNames(g, Items(Attr(g, program, "hasTerm"))) {
      ProgramInstructorsSound(g, program, v);
    }
    if NamedUnderProgram(g, program, v) {
      var t, c, i :|
        && t in Items(Attr(g, program, "hasTerm"))
        && c in Items(Attr(g, t, "hasCourse"))
        && i in Items(Attr(g, c, "hasInstructorDetails"))
        && Truthy(Attr(g, i, "Instructors")) && v == Attr(g, i, "Instructors");
      ProgramInstructorsComplete(g, program, t, c, i);
    }
  }

  /** The loop over one course's instructor records. */
  method AddRecordNames(g: KnowledgeGraph, records: seq<Value>, acc: set<Value>) returns (res: set<Value>)
    ensures res == acc + RecordNames(g, records)
  {
    res := acc;
    var i := 0;
    while i < |records|
      invariant 0 <= i <= |records|
      invariant res == acc + RecordNames(g, records[..i])
    {
      assert records[..i + 1][..i] == records[..i];
      var ins := records[i];
      if Truthy(Attr(g, ins, "Instructors")) {
        res := res + {Attr(g, ins, "Instructors")};
      }
      i := i + 1;
    }
    assert records[..i] == records;
  }

  /** The loop over some courses. */
  method AddCoursesNames(g: KnowledgeGraph, courses: seq<Value>, acc: set<Value>) returns (res: set<Value>)
    ensures res == acc + CoursesNames(g, courses)
  {
    res := acc;
    var i := 0;
    while i < |courses|
      invariant 0 <= i <= |courses|
      invariant res == acc + CoursesNames(g, courses[..i])
    {
      assert courses[..i + 1][..i] == courses[..i];
      res := AddRecordNames(g, Items(Attr(g, courses[i], "hasInstructorDetails")), res);
      i := i + 1;
    }
    assert courses[..i] == courses;
  }

  /** The loop over a program's terms. */
  method AddTermsNames(g: KnowledgeGraph, terms: seq<Value>, acc: set<Value>) returns (res: set<Value>)
    ensures res == acc + TermsNames(g, terms)
  {
    res := acc;
    var i := 0;
    while i < |terms|
      invariant 0 <= i <= |terms|
      invariant res == acc + TermsNames(g, terms[..i])
    {
      assert terms[..i + 1][..i] == terms[..i];
      res := AddCoursesNames(g, Items(Attr(g, terms[i], "hasCourse")), res);
      i := i + 1;
    }
    assert terms[..i] == terms;
  }

  /** `order` lists every element of `s` exactly once. */
  predicate Enumerates(order: seq<Value>, s: set<Value>) {
    && (forall v | v in s :: v in order)
    && (forall k | 0 <= k < |order| :: order[k] in s)
    && forall i, j | 0 <= i < j < |order| :: order[i] != order[j]
  }

  /** The iteration of `str.join` over a set: some order, each element once. */
  method Enumerate(s: set<Value>) returns (order: seq<Value>)
    ensures Enumerates(order, s)
  {
    order := [];
    var rest := s;
    while rest != {}
      invariant forall v :: v in s <==> v in rest || v in order
      invariant forall v | v in rest :: v !in order
      invariant forall i, j | 0 <= i < j < |order| :: order[i] != order[j]
      decreases |rest|
    {
      var v :| v in rest;
      order := order + [v];
      rest := rest - {v};
    }
  }

  /** Joining an enumeration of a set raises exactly when the set holds a
      value that is not a string. */
  lemma EnumerationListing(order: seq<Value>, s: set<Value>, prefix: string)
    requires Enumerates(order, s)
    ensures Listing(prefix, order, ", ", "") == Fault <==> exists v | v in s :: !v.Str?
  {
    if exists v | v in s :: !v.Str? {
      var v :| v in s && !v.Str?;
      var k :| 0 <= k < |order| && order[k] == v;
    }
  }

  /** The loops that fill `instructors_set`. */
  method CollectInstructors(g: KnowledgeGraph, p: Params) returns (instructors: set<Value>)
    ensures instructors == InstructorSet(g, p)
  {
    if "program" in p.fields {
      instructors := CollectProgramInstructors(g, SanitizeId(p.Get("program", "")));
    } else if "term" in p.fields {
      instructors := CollectTermInstructors(g, SanitizeId(p.Get("term", "")));
    } else {
      instructors := {};
    }
  }

  /** The loops over the terms of the program `id`. */
  method CollectProgramInstructors(g: KnowledgeGraph, id: string) returns (instructors: set<Value>)
    ensures instructors == ProgramInstructors(g, id)
  {
    instructors := {};
    var progs := FindById(g, id);
    if progs.Some? {
      var terms := Items(Attr(g, progs.value, "hasTerm"));
      instructors := AddTermsNames(g, terms, instructors);
      assert instructors == TermsNames(g, terms);
    }
  }

  /** The loops over the courses of the term `id`. */
  method CollectTermInstructors(g: KnowledgeGraph, id: string) returns (instructors: set<Value>)
    ensures instructors == TermInstructors(g, id)
  {
    instructors := {};
    var terms := FindById(g, id);
    if terms.Some? {
      var courses := Items(Attr(g, terms.value, "hasCourse"));
      instructors := AddCoursesNames(g, courses, instructors);
      assert instructors == TermNames(g, terms.value);
    }
  }

  /** `query_instructors_in_program_term`: the names joined in whatever
      order the set yields them, or the no-data reply when there are none. */
  method QueryInstructorsInProgramTerm(g: KnowledgeGraph, p: Params) returns (r: Reply)
    ensures InstructorSet(g, p) == {} ==> r == Text(NoData("instructors", "program/term", ProgramOrTerm(p)))
    ensures InstructorSet(g, p) != {} ==>
      exists order :: Enumerates(order, InstructorSet(g, p)) && r == Listing("Instructors: ", order, ", ", "")
    ensures r == Fault <==> exists v | v in InstructorSet(g, p) :: !v.Str?
  {
    var instructors := CollectInstructors(g, p);
    if instructors != {} {
      var order := Enumerate(instructors);
      r := Listing("Instructors: ", order, ", ", "");
      EnumerationListing(order, instructors, "Instructors: ");
    } else {
      r := Text(NoData("instructors", "program/term", ProgramOrTerm(p)));
    }
  }
}
