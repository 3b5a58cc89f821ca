/**
 * The two reusable handlers most intents go through. `handle_standard_query`
 * reads one value along a path from the named course and prints it;
 * `handle_list_query` collects the items of a multi-valued relation of the
 * course, shows one page of three of them and, when there is more than one
 * page, a footer naming the page.
 */
module GenericHandlers {
  import opened Wrappers
  import opened Text
  import opened Lists
  import opened Graph
  import opened PathResolver
  import opened Resolvers
  import opened Replies
  import opened Pagination

  /** The course a query names: `get_course(params.get("courseName", ""))`. */
  function CourseOf(g: KnowledgeGraph, p: Params): (r: Option<Value>)
    ensures r.Some? <==> ValidateInput(p.Get("courseName", "")) && SanitizeId(p.Get("courseName", "")) in g.nodes
    ensures r.Some? ==> r.value == Ref(SanitizeId(p.Get("courseName", "")))
  {
    GetCourse(g, p.Get("courseName", ""))
  }

  /** `course and course.<rel>`: the named course resolves and its relation is non-empty. */
  predicate CourseHas(g: KnowledgeGraph, p: Params, rel: string) {
    CourseOf(g, p).Some? && Truthy(Attr(g, CourseOf(g, p).value, rel))
  }

  /** The records `for r in course.<rel>` visits, or none when the course does not resolve. */
  function CourseRecords(g: KnowledgeGraph, p: Params, rel: string): seq<Value> {
    if CourseOf(g, p).Some? then Items(Attr(g, CourseOf(g, p).value, rel)) else []
  }

  // ---------------------------------------------------------------------
  // handle_standard_query
  // ---------------------------------------------------------------------

  /** `handle_standard_query(params, property_path, data_type, entity_name)`.
      A name that fails validation or names no course is reported as not
      found (the "invalid input" template is never used); a found course
      whose value is falsy has no data; otherwise the value is printed. */
  function HandleStandardQuery(g: KnowledgeGraph, p: Params, propertyPath: string, dataType: string, entityName: string): (r: Reply)
    ensures r.Text?
    ensures !ValidateInput(p.Get("courseName", "")) ==>
      r == Text(NotFound(entityName, p.Shown("courseName")))
    ensures SanitizeId(p.Get("courseName", "")) !in g.nodes ==>
      r == Text(NotFound(entityName, p.Shown("courseName")))
    ensures ValidateInput(p.Get("courseName", "")) && SanitizeId(p.Get("courseName", "")) in g.nodes ==>
      var value := ResolvePath(g, Ref(SanitizeId(p.Get("courseName", ""))), propertyPath);
      r == if Truthy(value) then Text(Render(value))
           else Text(NoData(dataType, entityName, p.Shown("courseName")))
  {
    match CourseOf(g, p)
    case None => Text(NotFound(entityName, p.Shown("courseName")))
    case Some(course) =>
      var value := ResolvePath(g, course, propertyPath);
      if !Truthy(value) then Text(NoData(dataType, entityName, p.Shown("courseName")))
      else Text(Render(value))
  }

  /** A two-segment path `rel.attr` through a multi-valued relation reads
      `attr` of the relation's first record: `get_nested_property` agrees
      with indexing the relation by hand, as `get_course_metadata` does. */
  lemma TwoSegmentPath(g: KnowledgeGraph, obj: Value, rel: string, attr: string)
    requires obj.Ref?
    requires '.' !in rel && '.' !in attr
    requires Attr(g, obj, rel).Lst? || Attr(g, obj, rel) == Nil
    ensures ResolvePath(g, obj, rel + "." + attr) == Finish(Attr(g, First(Attr(g, obj, rel)), attr))
  {
    SplitAtSep(rel, '.', attr);
    SplitNoSep(attr, '.');
    var props := Split(rel + "." + attr, '.');
    assert props == [rel, attr];
    assert props[1..] == [attr];
    var rv := Attr(g, obj, rel);
    match Step(g, obj, rel)
    case None =>
      assert Walk(g, obj, props) == None;
      assert First(rv) == Nil;
    case Some(v) =>
      assert v == rv;
      assert Walk(g, obj, props) == Walk(g, v, [attr]);
      if v.Lst? && v.items != [] {
        assert First(v) == v.items[0];
        match Lookup(g, v.items[0], attr)
        case None =>
          assert Walk(g, v, [attr]) == None;
        case Some(x) =>
          assert Walk(g, x, []) == Some(x);
          assert Walk(g, v, [attr]) == Some(x);
      } else {
        assert Walk(g, v, [attr]) == None;
      }
  }

  /** A standard query on `hasCourseMetadata.<attr>` prints `attr` of the
      course's metadata record, as `get_course_metadata` finds it, unless
      that value is falsy or the sentinel. */
  lemma StandardQueryOnMetadata(g: KnowledgeGraph, p: Params, attr: string, dataType: string)
    requires CourseOf(g, p).Some?
    requires '.' !in attr
    requires Attr(g, CourseOf(g, p).value, "hasCourseMetadata").Lst? || Attr(g, CourseOf(g, p).value, "hasCourseMetadata") == Nil
    ensures var v := Finish(Attr(g, GetCourseMetadata(g, CourseOf(g, p).value), attr));
      HandleStandardQuery(g, p, "hasCourseMetadata." + attr, dataType, "course")
        == if Truthy(v) then Text(Render(v)) else Text(NoData(dataType, "course", p.Shown("courseName")))
  {
    var course := CourseOf(g, p).value;
    assert '.' !in "hasCourseMetadata";
    assert "hasCourseMetadata" + "." + attr == "hasCourseMetadata." + attr;
    TwoSegmentPath(g, course, "hasCourseMetadata", attr);
  }

  /** The same for `hasBasicInfo.<attr>` and `get_basic_info`. */
  lemma StandardQueryOnBasicInfo(g: KnowledgeGraph, p: Params, attr: string, dataType: string)
    requires CourseOf(g, p).Some?
    requires '.' !in attr
    requires Attr(g, CourseOf(g, p).value, "hasBasicInfo").Lst? || Attr(g, CourseOf(g, p).value, "hasBasicInfo") == Nil
    ensures var v := Finish(Attr(g, GetBasicInfo(g, CourseOf(g, p).value), attr));
      HandleStandardQuery(g, p, "hasBasicInfo." + attr, dataType, "course")
        == if Truthy(v) then Text(Render(v)) else Text(NoData(dataType, "course", p.Shown("courseName")))
  {
    var course := CourseOf(g, p).value;
    assert '.' !in "hasBasicInfo";
    assert "hasBasicInfo" + "." + attr == "hasBasicInfo." + attr;
    TwoSegmentPath(g, course, "hasBasicInfo", attr);
  }

  // ---------------------------------------------------------------------
  // handle_list_query
  // ---------------------------------------------------------------------

  /** The `format_func` argument of `handle_list_query` at its call sites. */
  datatype Formatter =
    | NoFormat        // no formatter: items are kept as they are
    | InstructorName  // the `Instructors` value of an instructor record, by path
    | SessionLine     // "Session <n>: <module> - <topic>"
    | ToolName        // the `AssessmentTool` of an assessment record

  /** `format_func(v)` */
  function Format(g: KnowledgeGraph, fmt: Formatter, v: Value): Value {
    match fmt
    case NoFormat => v
    case InstructorName => ResolvePath(g, v, "Instructors")
    case SessionLine =>
      Str("Session " + Render(Attr(g, v, "Session")) + ": " + Render(Attr(g, v, "Module"))
        + " - " + Render(Attr(g, v, "Topic")))
    case ToolName => Attr(g, v, "AssessmentTool")
  }

  /** `getattr(course, first_prop, [])` */
  function Results(g: KnowledgeGraph, course: Value, firstProp: string): Value {
    Lookup(g, course, firstProp).GetOr(Lst([]))
  }

  /** With a nested path: the truthy nested values of the records, formatted,
      in record order. */
  function NestedItems(g: KnowledgeGraph, results: seq<Value>, rest: seq<string>, fmt: Formatter): seq<Value>
    decreases |results|
  {
    if results == [] then []
    else
      var value := Resolve(g, results[|results| - 1], rest);
      NestedItems(g, results[..|results| - 1], rest, fmt) + (if Truthy(value) then [Format(g, fmt, value)] else [])
  }

  /** With a one-segment path: keep a truthy item... */
  function KeepItem(): Value -> bool {
    item => Truthy(item)
  }

  /** ...and keep the item itself, formatted. */
  function FormatItem(g: KnowledgeGraph, fmt: Formatter): Value -> Value {
    item => Format(g, fmt, item)
  }

  /** The items `handle_list_query` collects from the course. */
  function ListItems(g: KnowledgeGraph, course: Value, propertyPath: string, fmt: Formatter): seq<Value> {
    var parts := Split(propertyPath, '.');
    var results := Items(Results(g, course, parts[0]));
    if |parts| > 1 then NestedItems(g, results, parts[1..], fmt)
    else FilterMap(results, KeepItem(), FormatItem(g, fmt))
  }

  /** The reply for the collected items and a page cursor: no data when there
      are none, otherwise the clamped page joined by newlines, followed by
      the footer when there is more than one page. Joining a page that holds
      a value other than a string raises. */
  function PageReply(items: seq<Value>, page: int, itemsName: string, name: string): Reply {
    var pages := Paginate(items);
    if pages == [] then Text(NoData(itemsName, "course", name))
    else
      var index := PageIndex(page, |pages|);
      match Texts(pages[index])
      case None => Fault
      case Some(texts) => Text(Join("\n", texts) + Footer(index, |pages|))
  }

  /** What `handle_list_query` answers. */
  function ListReply(g: KnowledgeGraph, p: Params, propertyPath: string, itemsName: string, fmt: Formatter): Reply {
    match CourseOf(g, p)
    case None => Text(NotFound("course", p.Shown("courseName")))
    case Some(course) =>
      match PageCursor(p)
      case None => Fault
      case Some(page) => PageReply(ListItems(g, course, propertyPath, fmt), page, itemsName, p.Shown("courseName"))
  }

  /** The nested branch of `handle_list_query`: the loop over the relation's
      records that keeps each truthy nested value, formatted. */
  method CollectNested(g: KnowledgeGraph, results: seq<Value>, rest: seq<string>, fmt: Formatter)
    returns (items: seq<Value>)
    requires rest != [] && forall i | 0 <= i < |rest| :: '.' !in rest[i]
    ensures items == NestedItems(g, results, rest, fmt)
  {
    var nestedPath := Join(".", rest);
    SplitJoin(rest, '.');
    items := [];
    var i := 0;
    while i < |results|
      invariant 0 <= i <= |results|
      invariant items == NestedItems(g, results[..i], rest, fmt)
    {
      var value := GetNestedProperty(g, results[i], nestedPath);
      assert results[..i + 1][..i] == results[..i];
      if Truthy(value) {
        items := items + [Format(g, fmt, value)];
      }
      i := i + 1;
    }
    assert results[..i] == results;
  }

  /** The end of `handle_list_query`: paginate, clamp the cursor, join the
      page and add the footer. */
  method ShowPage(items: seq<Value>, page: int, itemsName: string, name: string) returns (r: Reply)
    ensures r == PageReply(items, page, itemsName, name)
  {
    var pages := Paginate(items);
    if pages == [] {
      return Text(NoData(itemsName, "course", name));
    }
    var index := PageIndex(page, |pages|);
    var texts := Texts(pages[index]);
    if texts.None? {
      return Fault;
    }
    var response := Join("\n", texts.value);
    if |pages| > 1 {
      response := response + PaginationFooter(index + 1, |pages|);
    }
    r := Text(response);
  }

  /** `handle_list_query` */
  method HandleListQuery(g: KnowledgeGraph, p: Params, propertyPath: string, itemsName: string, fmt: Formatter)
    returns (r: Reply)
    ensures r == ListReply(g, p, propertyPath, itemsName, fmt)
  {
    var course := CourseOf(g, p);
    if course.None? {
      return Text(NotFound("course", p.Shown("courseName")));
    }
    var parts := Split(propertyPath, '.');
    var firstProp, rest := parts[0], parts[1..];
    var results := Items(Results(g, course.value, firstProp));
    var items: seq<Value>;
    if rest != [] {
      items := CollectNested(g, results, rest, fmt);
    } else {
      items := FilterMap(results, KeepItem(), FormatItem(g, fmt));
    }
    var page := PageCursor(p);
    if page.None? {
      return Fault;
    }
    r := ShowPage(items, page.value, itemsName, p.Shown("courseName"));
  }

  /** Nothing collected: the reply is the no-data template, whatever the page. */
  lemma PageReplyEmpty(page: int, itemsName: string, name: string)
    ensures PageReply([], page, itemsName, name) == Text(NoData(itemsName, "course", name))
  {
  }

  /** String items: the reply shows the three items starting at `3 * k`, for
      the cursor `k` clamped into the pages, and the footer reports page
      `k + 1` of `ceil(n / 3)` exactly when there are more than three items. */
  lemma PageReplyShows(items: seq<Value>, page: int, itemsName: string, name: string)
    requires items != []
    requires forall i | 0 <= i < |items| :: items[i].Str?
    ensures var count := (|items| + PageSize - 1) / PageSize;
      var k := PageIndex(page, count);
      var shown := items[k * PageSize..Min(k * PageSize + PageSize, |items|)];
      PageReply(items, page, itemsName, name)
        == Text(Join("\n", seq(|shown|, i requires 0 <= i < |shown| => shown[i].s))
                + (if |items| > PageSize then PaginationFooter(k + 1, count) else ""))
  {
    var pages := Paginate(items);
    var count := (|items| + PageSize - 1) / PageSize;
    assert |pages| == count;
    var k := PageIndex(page, count);
    var shown := items[k * PageSize..Min(k * PageSize + PageSize, |items|)];
    assert pages[k] == shown;
    assert forall i | 0 <= i < |shown| :: shown[i] == items[k * PageSize + i];
    assert Texts(shown).Some?;
    assert Texts(shown).value == seq(|shown|, i requires 0 <= i < |shown| => shown[i].s);
    assert count > 1 <==> |items| > PageSize;
  }

  /** Three items or fewer fit on one page: every item is shown, with no
      footer, whatever the cursor says. */
  lemma SinglePageIgnoresCursor(items: seq<Value>, page: int, page': int, itemsName: string, name: string)
    requires 1 <= |items| <= PageSize
    ensures PageReply(items, page, itemsName, name) == PageReply(items, page', itemsName, name)
    ensures PageReply(items, page, itemsName, name).Text? ==>
      PageReply(items, page, itemsName, name) == Text(Join("\n", Texts(items).value))
  {
    PaginateUnfold(items);
  }

  /** A cursor past either end shows the nearest page. */
  lemma CursorIsClamped(items: seq<Value>, page: int, itemsName: string, name: string)
    requires items != []
    ensures var count := |Paginate(items)|;
      && (page < 0 ==> PageReply(items, page, itemsName, name) == PageReply(items, 0, itemsName, name))
      && (page >= count ==> PageReply(items, page, itemsName, name) == PageReply(items, count - 1, itemsName, name))
  {
  }

  /** The page raises exactly when one of its items is not a string. */
  lemma PageReplyFaults(items: seq<Value>, page: int, itemsName: string, name: string)
    requires items != []
    ensures var pages := Paginate(items);
      var k := PageIndex(page, |pages|);
      PageReply(items, page, itemsName, name) == Fault <==> exists i | 0 <= i < |pages[k]| :: !pages[k][i].Str?
  {
  }

  /** An instructor record whose name is the sentinel formats to `None`. */
  lemma SentinelNameFormatsToNil(g: KnowledgeGraph, detail: string)
    requires detail in g.nodes && "Instructors" in g.nodes[detail].attrs
    requires g.nodes[detail].attrs["Instructors"] == Str(Sentinel)
    ensures Format(g, InstructorName, Ref(detail)) == Nil
  {
    var name := "Instructors";
    assert '.' !in name;
    SplitNoSep(name, '.');
    assert Walk(g, Ref(detail), [name]) == Some(Str(Sentinel));
  }

  /** The record itself is truthy, so it is kept and its formatted name,
      `None`, is the one item. */
  lemma SentinelRecordIsKept(g: KnowledgeGraph, course: Value, rel: string, detail: string)
    requires '.' !in rel
    requires Attr(g, course, rel) == Lst([Ref(detail)])
    requires detail in g.nodes && "Instructors" in g.nodes[detail].attrs
    requires g.nodes[detail].attrs["Instructors"] == Str(Sentinel)
    ensures ListItems(g, course, rel, InstructorName) == [Nil]
  {
    SplitNoSep(rel, '.');
    assert Items(Results(g, course, rel)) == [Ref(detail)];
    SentinelNameFormatsToNil(g, detail);
    FilterMapSnoc([], Ref(detail), KeepItem(), FormatItem(g, InstructorName));
    assert [] + [Ref(detail)] == [Ref(detail)];
  }

  /** A page holding `None` cannot be joined. */
  lemma NilPageFaults(page: int, itemsName: string, name: string)
    ensures PageReply([Nil], page, itemsName, name) == Fault
  {
    PaginateUnfold([Nil]);
  }

  /** With a one-segment path the filter tests the raw record, not the
      formatted value: an instructor record whose name is the sentinel is
      kept, formats to `None`, and the join raises. */
  lemma InstructorWithoutNameFaults(g: KnowledgeGraph, p: Params, rel: string, itemsName: string, detail: string)
    requires '.' !in rel
    requires CourseOf(g, p).Some? && PageCursor(p).Some?
    requires Attr(g, CourseOf(g, p).value, rel) == Lst([Ref(detail)])
    requires detail in g.nodes && "Instructors" in g.nodes[detail].attrs
    requires g.nodes[detail].attrs["Instructors"] == Str(Sentinel)
    ensures ListReply(g, p, rel, itemsName, InstructorName) == Fault
  {
    SentinelRecordIsKept(g, CourseOf(g, p).value, rel, detail);
    NilPageFaults(PageCursor(p).value, itemsName, p.Shown("courseName"));
  }
}
