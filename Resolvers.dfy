/**
 * Entity resolution: `get_course` and `get_instructor` turn a raw name into
 * an individual of the graph, and `get_course_metadata` / `get_basic_info`
 * step to a course's single metadata and basic-info records. Both
 * resolvers are memoised behind `lru_cache`; `Memo` models that cache and
 * shows it transparent: a lookup through it answers what the resolver
 * answers.
 */
module Resolvers {
  import opened Wrappers
  import opened Text
  import opened Graph

  /** `get_course`: an invalid name finds nothing; a valid one is looked up
      by its normalised identifier. */
  function GetCourse(g: KnowledgeGraph, courseName: string): (r: Option<Value>)
    ensures r.Some? <==> ValidateInput(courseName) && SanitizeId(courseName) in g.nodes
    ensures r.Some? ==> r.value == Ref(SanitizeId(courseName))
  {
    if !ValidateInput(courseName) then None
    else FindById(g, SanitizeId(courseName))
  }

  /** Two valid spellings that normalise to the same identifier name the same
      course, and a course is found exactly under its own identifier. */
  lemma CourseNamesNormaliseAlike(g: KnowledgeGraph, a: string, b: string)
    requires ValidateInput(a) && ValidateInput(b)
    requires SanitizeId(a) == SanitizeId(b)
    ensures GetCourse(g, a) == GetCourse(g, b)
  {
  }

  /** `get_instructor`: the first individual whose `Instructors` value is the
      trimmed name, for a valid name. */
  function GetInstructor(g: KnowledgeGraph, instructorName: string): (r: Option<Value>)
    ensures !ValidateInput(instructorName) ==> r.None?
    ensures r.Some? ==> exists k | 0 <= k < |g.order| ::
      r.value == Ref(g.order[k])
      && HoldsText(Attr(g, Ref(g.order[k]), "Instructors"), Strip(instructorName))
      && forall j | 0 <= j < k :: !HoldsText(Attr(g, Ref(g.order[j]), "Instructors"), Strip(instructorName))
    ensures ValidateInput(instructorName) && r.None? ==>
      forall k | 0 <= k < |g.order| :: !HoldsText(Attr(g, Ref(g.order[k]), "Instructors"), Strip(instructorName))
  {
    if !ValidateInput(instructorName) then None
    else FindByValue(g, "Instructors", Strip(instructorName))
  }

  /** A valid name finds the first individual, in search order, whose
      `Instructors` value is the trimmed name. */
  lemma GetInstructorIsFirst(g: KnowledgeGraph, instructorName: string, k: nat)
    requires ValidateInput(instructorName)
    requires k < |g.order|
    requires HoldsText(Attr(g, Ref(g.order[k]), "Instructors"), Strip(instructorName))
    requires forall j | 0 <= j < k :: !HoldsText(Attr(g, Ref(g.order[j]), "Instructors"), Strip(instructorName))
    ensures GetInstructor(g, instructorName) == Some(Ref(g.order[k]))
  {
    var name := Strip(instructorName);
    var r := GetInstructor(g, instructorName);
    assert r.Some?;
    var k' :| 0 <= k' < |g.order| && r.value == Ref(g.order[k'])
      && HoldsText(Attr(g, Ref(g.order[k']), "Instructors"), name)
      && forall j | 0 <= j < k' :: !HoldsText(Attr(g, Ref(g.order[j]), "Instructors"), name);
    assert k' == k;
  }

  /** `get_course_metadata`: the first `hasCourseMetadata` record, or `None`. */
  function GetCourseMetadata(g: KnowledgeGraph, course: Value): (r: Value)
    ensures Items(Attr(g, course, "hasCourseMetadata")) == [] ==> r == Nil
    ensures Items(Attr(g, course, "hasCourseMetadata")) != [] ==> r == Items(Attr(g, course, "hasCourseMetadata"))[0]
  {
    First(Attr(g, course, "hasCourseMetadata"))
  }

  /** `get_basic_info`: the first `hasBasicInfo` record, or `None`. */
  function GetBasicInfo(g: KnowledgeGraph, course: Value): (r: Value)
    ensures Items(Attr(g, course, "hasBasicInfo")) == [] ==> r == Nil
    ensures Items(Attr(g, course, "hasBasicInfo")) != [] ==> r == Items(Attr(g, course, "hasBasicInfo"))[0]
  {
    First(Attr(g, course, "hasBasicInfo"))
  }

  // ---------------------------------------------------------------------
  // The lru_cache in front of each resolver
  // ---------------------------------------------------------------------

  datatype EntityKind = CourseEntity | InstructorEntity

  /** The resolver a cache memoises. */
  function Resolution(kind: EntityKind, g: KnowledgeGraph, name: string): Option<Value> {
    match kind
    case CourseEntity => GetCourse(g, name)
    case InstructorEntity => GetInstructor(g, name)
  }

  /** `maxsize` of each cache. */
  function Capacity(kind: EntityKind): nat {
    match kind
    case CourseEntity => 100
    case InstructorEntity => 50
  }

  predicate NoDuplicates(s: seq<string>) {
    forall i, j | 0 <= i < j < |s| :: s[i] != s[j]
  }

  /** `s` without `x`. */
  function Remove(s: seq<string>, x: string): (r: seq<string>)
    ensures forall y :: y in r <==> y in s && y != x
    ensures NoDuplicates(s) ==> NoDuplicates(r)
    ensures NoDuplicates(s) && x in s ==> |r| == |s| - 1
    ensures x !in s ==> r == s
    decreases |s|
  {
    if s == [] then []
    else if s[0] == x then Remove(s[1..], x)
    else
      var rest := Remove(s[1..], x);
      assert NoDuplicates(s) ==> s[0] !in s[1..];
      [s[0]] + rest
  }

  /** A memo keyed by the raw input string, evicting the least recently used
      entry once `Capacity(kind)` entries are held. */
  class Memo {
    const graph: KnowledgeGraph
    const kind: EntityKind
    var cache: map<string, Option<Value>>
    var recency: seq<string>   // keys, least recently used first

    ghost predicate Valid()
      reads this
    {
      && |recency| <= Capacity(kind)
      && NoDuplicates(recency)
      && (forall k :: k in cache <==> k in recency)
      && (forall k | k in cache :: cache[k] == Resolution(kind, graph, k))
    }

    constructor (g: KnowledgeGraph, kind: EntityKind)
      ensures Valid()
      ensures graph == g && this.kind == kind
      ensures cache == map[] && recency == []
    {
      graph := g;
      this.kind := kind;
      cache := map[];
      recency := [];
    }

    /** A call of the cached resolver: a hit answers from the cache, a miss
        asks the resolver and stores its answer, evicting the oldest entry
        when full. Either way the answer is the resolver's own. */
    method Lookup(name: string) returns (r: Option<Value>)
      requires Valid()
      modifies this
      ensures Valid()
      ensures r == Resolution(kind, graph, name)
      ensures name in cache && recency != [] && recency[|recency| - 1] == name
      ensures old(name in cache) ==> cache == old(cache) && recency == Remove(old(recency), name) + [name]
      ensures !old(name in cache) && |old(recency)| < Capacity(kind) ==>
        cache == old(cache)[name := r] && recency == old(recency) + [name]
      ensures !old(name in cache) && |old(recency)| == Capacity(kind) ==>
        cache == (old(cache) - {old(recency)[0]})[name := r] && recency == old(recency)[1..] + [name]
    {
      if name in cache {
        r := cache[name];
        recency := Remove(recency, name) + [name];
      } else {
        r := Resolution(kind, graph, name);
        if |recency| == Capacity(kind) {
          var oldest := recency[0];
          assert oldest !in recency[1..];
          cache := cache - {oldest};
          recency := recency[1..];
        }
        cache := cache[name := r];
        recency := recency + [name];
      }
    }
  }
}
