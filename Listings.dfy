/**
 * The collection idioms the `query_*` handlers share: the comprehension
 * `[r.<name> for r in records if r.<name>]`, the course-title loop over
 * `get_course_metadata`, and printing a list with `sep.join(...)`, which
 * raises unless every element is a string.
 */
module Listings {
  import opened Wrappers
  import opened Text
  import opened Lists
  import opened Graph
  import opened Resolvers
  import opened Replies

  /** `r.<name>` is truthy */
  function HasTruthy(g: KnowledgeGraph, name: string): Value -> bool {
    v => Truthy(Attr(g, v, name))
  }

  /** `r.<name>` */
  function AttrOf(g: KnowledgeGraph, name: string): Value -> Value {
    v => Attr(g, v, name)
  }

  /** `[r.<name> for r in records if r.<name>]` */
  function AttrValues(g: KnowledgeGraph, records: seq<Value>, name: string): seq<Value> {
    FilterMap(records, HasTruthy(g, name), AttrOf(g, name))
  }

  /** The comprehension holds exactly the truthy `name` values of the records. */
  lemma AttrValuesMembers(g: KnowledgeGraph, records: seq<Value>, name: string, v: Value)
    ensures v in AttrValues(g, records, name) <==>
      exists k | 0 <= k < |records| :: Truthy(Attr(g, records[k], name)) && v == Attr(g, records[k], name)
  {
    if v in AttrValues(g, records, name) {
      FilterMapFrom(records, HasTruthy(g, name), AttrOf(g, name), v);
    }
    if exists k | 0 <= k < |records| :: Truthy(Attr(g, records[k], name)) && v == Attr(g, records[k], name) {
      var k :| 0 <= k < |records| && Truthy(Attr(g, records[k], name)) && v == Attr(g, records[k], name);
      FilterMapHas(records, HasTruthy(g, name), AttrOf(g, name), k);
    }
  }

  /** When some record has a truthy `name` value and every truthy one is a
      string, the comprehension is non-empty and holds only strings. */
  lemma AttrValuesTexts(g: KnowledgeGraph, records: seq<Value>, name: string)
    requires exists k | 0 <= k < |records| :: Truthy(Attr(g, records[k], name))
    requires forall k | 0 <= k < |records| :: Truthy(Attr(g, records[k], name)) ==> Attr(g, records[k], name).Str?
    ensures AttrValues(g, records, name) != []
    ensures Texts(AttrValues(g, records, name)).Some?
  {
    var names := AttrValues(g, records, name);
    var k :| 0 <= k < |records| && Truthy(Attr(g, records[k], name));
    AttrValuesMembers(g, records, name, Attr(g, records[k], name));
    forall i | 0 <= i < |names| ensures names[i].Str? {
      AttrValuesMembers(g, records, name, names[i]);
    }
  }

  /** `prefix + sep.join(vs) + suffix`; the join raises on a value that is not a string. */
  function Listing(prefix: string, vs: seq<Value>, sep: string, suffix: string): (r: Reply)
    ensures r == Fault <==> exists k | 0 <= k < |vs| :: !vs[k].Str?
    ensures r.Text? <==> Texts(vs).Some?
    ensures r.Text? ==> r.text == prefix + Join(sep, Texts(vs).value) + suffix
  {
    match Texts(vs)
    case None => Fault
    case Some(texts) => Text(prefix + Join(sep, texts) + suffix)
  }

  // ---------------------------------------------------------------------
  // Course titles through get_course_metadata
  // ---------------------------------------------------------------------

  /** `meta.CourseCodeTitle` for `meta = get_course_metadata(course)`. */
  function Title(g: KnowledgeGraph, course: Value): Value {
    Attr(g, GetCourseMetadata(g, course), "CourseCodeTitle")
  }

  /** `meta and meta.CourseCodeTitle` */
  predicate HasTitle(g: KnowledgeGraph, course: Value) {
    Truthy(GetCourseMetadata(g, course)) && Truthy(Title(g, course))
  }

  /** `meta and meta.CourseCodeTitle` as a test on courses. */
  function Titled(g: KnowledgeGraph): Value -> bool {
    c => HasTitle(g, c)
  }

  /** `meta.CourseCodeTitle` as a map on courses. */
  function TitleOf(g: KnowledgeGraph): Value -> Value {
    c => Title(g, c)
  }

  /** The titles the loop `for course in courses: ... append(meta.CourseCodeTitle)`
      collects, in course order. */
  function CourseTitles(g: KnowledgeGraph, courses: seq<Value>): seq<Value> {
    FilterMap(courses, Titled(g), TitleOf(g))
  }

  /** The titles are exactly those of the courses that have one, and there
      is none only when no course has one. */
  lemma CourseTitlesMembers(g: KnowledgeGraph, courses: seq<Value>, v: Value)
    ensures v in CourseTitles(g, courses) <==>
      exists k | 0 <= k < |courses| :: HasTitle(g, courses[k]) && v == Title(g, courses[k])
    ensures CourseTitles(g, courses) == [] <==> forall k | 0 <= k < |courses| :: !HasTitle(g, courses[k])
  {
    if v in CourseTitles(g, courses) {
      FilterMapFrom(courses, Titled(g), TitleOf(g), v);
    }
    if exists k | 0 <= k < |courses| :: HasTitle(g, courses[k]) && v == Title(g, courses[k]) {
      var k :| 0 <= k < |courses| && HasTitle(g, courses[k]) && v == Title(g, courses[k]);
      FilterMapHas(courses, Titled(g), TitleOf(g), k);
    }
  }

  /** One more course adds its title, when it has one. */
  lemma CourseTitlesSnoc(g: KnowledgeGraph, courses: seq<Value>, i: nat)
    requires i < |courses|
    ensures CourseTitles(g, courses[..i + 1]) ==
      CourseTitles(g, courses[..i]) + (if HasTitle(g, courses[i]) then [Title(g, courses[i])] else [])
  {
    assert courses[..i + 1] == courses[..i] + [courses[i]];
    FilterMapSnoc(courses[..i], courses[i], Titled(g), TitleOf(g));
  }

  /** The title loop of `query_courses_by_instructor`, `query_courses_in_program_term`
      and `query_courses_by_instructor_in_program`. */
  method CollectTitles(g: KnowledgeGraph, courses: seq<Value>) returns (titles: seq<Value>)
    ensures titles == CourseTitles(g, courses)
  {
    titles := [];
    var i := 0;
    while i < |courses|
      invariant 0 <= i <= |courses|
      invariant titles == CourseTitles(g, courses[..i])
    {
      var course := courses[i];
      CourseTitlesSnoc(g, courses, i);
      var meta := GetCourseMetadata(g, course);
      if Truthy(meta) && Truthy(Attr(g, meta, "CourseCodeTitle")) {
        titles := titles + [Attr(g, meta, "CourseCodeTitle")];
      }
      i := i + 1;
    }
    assert courses[..i] == courses;
  }
}
