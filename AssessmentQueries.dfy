/**
 * The handlers about a course's assessments: the list of tools, the weight
 * of one tool (matched without regard to case), every assessment's details,
 * and the tool with the highest weight.
 */
module AssessmentQueries {
  import opened Wrappers
  import opened Text
  import opened Graph
  import opened Replies
  import opened GenericHandlers
  import opened Listings

  // ---------------------------------------------------------------------
  // query_assessment_tools
  // ---------------------------------------------------------------------

  /** `query_assessment_tools`: the truthy tool names of the course's
      assessments, joined by commas. */
  function QueryAssessmentTools(g: KnowledgeGraph, p: Params): (r: Reply)
    ensures CourseOf(g, p).None? ==> r == Text(NotFound("course", p.Shown("courseName")))
    ensures CourseOf(g, p).Some? && AttrValues(g, CourseRecords(g, p, "hasAssessment"), "AssessmentTool") == [] ==>
      r == Text("No assessments listed.")
  {
    if CourseOf(g, p).None? then Text(NotFound("course", p.Shown("courseName")))
    else
      var tools := AttrValues(g, CourseRecords(g, p, "hasAssessment"), "AssessmentTool");
      if tools != [] then Listing("Assessment tools: ", tools, ", ", ".")
      else Text("No assessments listed.")
  }

  /** Listing the truthy `name` values of some records raises exactly
      when one of those values is not a string. */
  lemma AttrListingFaults(g: KnowledgeGraph, records: seq<Value>, name: string, prefix: string)
    ensures Listing(prefix, AttrValues(g, records, name), ", ", ".") == Fault <==>
      exists k | 0 <= k < |records| :: Truthy(Attr(g, records[k], name)) && !Attr(g, records[k], name).Str?
  {
    var tools := AttrValues(g, records, name);
    if exists k | 0 <= k < |records| :: Truthy(Attr(g, records[k], name)) && !Attr(g, records[k], name).Str? {
      var k :| 0 <= k < |records| && Truthy(Attr(g, records[k], name)) && !Attr(g, records[k], name).Str?;
      AttrValuesMembers(g, records, name, Attr(g, records[k], name));
      var i :| 0 <= i < |tools| && tools[i] == Attr(g, records[k], name);
      assert !tools[i].Str?;
    }
    if Listing(prefix, tools, ", ", ".") == Fault {
      var i :| 0 <= i < |tools| && !tools[i].Str?;
      AttrValuesMembers(g, records, name, tools[i]);
    }
  }

  /** The tool list raises exactly when some assessment has a truthy tool
      that is not a string. */
  lemma AssessmentToolsFaults(g: KnowledgeGraph, p: Params)
    ensures QueryAssessmentTools(g, p) == Fault <==>
      exists k | 0 <= k < |CourseRecords(g, p, "hasAssessment")| ::
        var tool := Attr(g, CourseRecords(g, p, "hasAssessment")[k], "AssessmentTool");
        Truthy(tool) && !tool.Str?
  {
    AttrListingFaults(g, CourseRecords(g, p, "hasAssessment"), "AssessmentTool", "Assessment tools: ");
  }

  /** When some assessment names a tool and every named tool is a string,
      the reply lists the tools in assessment order; a value is listed
      exactly when it is the truthy tool of one of the assessments. */
  lemma AssessmentToolsListed(g: KnowledgeGraph, p: Params, v: Value)
    requires CourseOf(g, p).Some?
    requires var records := CourseRecords(g, p, "hasAssessment");
      && (exists k | 0 <= k < |records| :: Truthy(Attr(g, records[k], "AssessmentTool")))
      && forall k | 0 <= k < |records| :: Truthy(Attr(g, records[k], "AssessmentTool")) ==> Attr(g, records[k], "AssessmentTool").Str?
    ensures var tools := AttrValues(g, CourseRecords(g, p, "hasAssessment"), "AssessmentTool");
      && Texts(tools).Some?
      && QueryAssessmentTools(g, p) == Text("Assessment tools: " + Join(", ", Texts(tools).value) + ".")
    ensures var records := CourseRecords(g, p, "hasAssessment");
      v in AttrValues(g, records, "AssessmentTool") <==>
        exists k | 0 <= k < |records| :: Truthy(Attr(g, records[k], "AssessmentTool")) && v == Attr(g, records[k], "AssessmentTool")
  {
    var records := CourseRecords(g, p, "hasAssessment");
    AttrValuesTexts(g, records, "AssessmentTool");
    AttrValuesMembers(g, records, "AssessmentTool", v);
  }

  // ---------------------------------------------------------------------
  // query_assessment_percentage
  // ---------------------------------------------------------------------

  /** An assessment whose tool is the asked-for one, up to case. */
  predicate ToolIs(g: KnowledgeGraph, a: Value, toolName: string) {
    var tool := Attr(g, a, "AssessmentTool");
    Truthy(tool) && tool.Str? && Lower(tool.s) == Lower(toolName)
  }

  /** An assessment whose truthy tool is not a string: `.lower()` raises on it. */
  predicate ToolRaises(g: KnowledgeGraph, a: Value) {
    var tool := Attr(g, a, "AssessmentTool");
    Truthy(tool) && !tool.Str?
  }

  /** How the scan for the tool ends: at the first matching assessment,
      by raising, or with no match. */
  datatype ToolScan = Matched(a: Value) | Raised | Exhausted

  /** The scan of `query_assessment_percentage` over `xs`, front to back. */
  function ScanTools(g: KnowledgeGraph, xs: seq<Value>, toolName: string): (r: ToolScan)
    ensures r.Matched? ==> exists k | 0 <= k < |xs| ::
      xs[k] == r.a && ToolIs(g, xs[k], toolName)
      && forall j | 0 <= j < k :: !ToolIs(g, xs[j], toolName) && !ToolRaises(g, xs[j])
    ensures r.Raised? ==> exists k | 0 <= k < |xs| ::
      ToolRaises(g, xs[k]) && forall j | 0 <= j < k :: !ToolIs(g, xs[j], toolName) && !ToolRaises(g, xs[j])
    ensures r.Exhausted? <==> forall k | 0 <= k < |xs| :: !ToolIs(g, xs[k], toolName) && !ToolRaises(g, xs[k])
    decreases |xs|
  {
    if xs == [] then Exhausted
    else if ToolRaises(g, xs[0]) then Raised
    else if ToolIs(g, xs[0], toolName) then Matched(xs[0])
    else
      var r := ScanTools(g, xs[1..], toolName);
      assert forall k | 1 <= k < |xs| :: xs[k] == xs[1..][k - 1];
      r
  }

  /** What `query_assessment_percentage` answers. */
  function AssessmentPercentageReply(g: KnowledgeGraph, p: Params): Reply {
    if !CourseHas(g, p, "hasAssessment") then Text(NotFound("course", p.Shown("courseName")))
    else
      match ScanTools(g, CourseRecords(g, p, "hasAssessment"), p.Get("assessmentTool", ""))
      case Raised => Fault
      case Exhausted => Text(NotFound("assessment tool", p.Get("assessmentTool", "")))
      case Matched(a) =>
        var percentage := Attr(g, a, "Percentage");
        if Truthy(percentage) then Text(Render(percentage) + "%")
        else Text(NoData("assessment percentage", "course", p.Shown("courseName")))
  }

  /** `query_assessment_percentage`: the weight of the first assessment whose
      tool matches the asked-for name without regard to case. */
  method QueryAssessmentPercentage(g: KnowledgeGraph, p: Params) returns (r: Reply)
    ensures r == AssessmentPercentageReply(g, p)
  {
    var toolName := p.Get("assessmentTool", "");
    if !CourseHas(g, p, "hasAssessment") {
      return Text(NotFound("course", p.Shown("courseName")));
    }
    var assessments := CourseRecords(g, p, "hasAssessment");
    var i := 0;
    while i < |assessments|
      invariant 0 <= i <= |assessments|
      invariant ScanTools(g, assessments, toolName) == ScanTools(g, assessments[i..], toolName)
    {
      var assessment := assessments[i];
      assert assessments[i..][1..] == assessments[i + 1..];
      var tool := Attr(g, assessment, "AssessmentTool");
      if Truthy(tool) {
        if !tool.Str? {
          return Fault;
        }
        if Lower(tool.s) == Lower(toolName) {
          var percentage := Attr(g, assessment, "Percentage");
          if Truthy(percentage) {
            return Text(Render(percentage) + "%");
          }
          return Text(NoData("assessment percentage", "course", p.Shown("courseName")));
        }
      }
      i := i + 1;
    }
    r := Text(NotFound("assessment tool", toolName));
  }

  /** Tool names are compared after lower-casing: two spellings that differ
      only in case find the same assessment. */
  lemma {:induction false} ToolMatchIgnoresCase(g: KnowledgeGraph, xs: seq<Value>, t: string, t': string)
    requires Lower(t) == Lower(t')
    ensures ScanTools(g, xs, t) == ScanTools(g, xs, t')
    decreases |xs|
  {
    if xs != [] {
      ToolMatchIgnoresCase(g, xs[1..], t, t');
    }
  }

  // ---------------------------------------------------------------------
  // query_assessment_details_full
  // ---------------------------------------------------------------------

  /** `v if v else default` */
  function OrElse(v: Value, default: string): Value {
    if Truthy(v) then v else Str(default)
  }

  /** One line of the details: "<tool> (<percentage>%): <description>". */
  function DetailLine(g: KnowledgeGraph, a: Value): string {
    Render(OrElse(Attr(g, a, "AssessmentTool"), "Unknown Tool"))
      + " (" + Render(OrElse(Attr(g, a, "Percentage"), "Unknown Percentage")) + "%): "
      + Render(OrElse(Attr(g, a, "AssessmentDescription"), ""))
  }

  /** The lines of the details, one per assessment in order. */
  function DetailLines(g: KnowledgeGraph, xs: seq<Value>): (lines: seq<string>)
    ensures |lines| == |xs|
    ensures forall k | 0 <= k < |xs| :: lines[k] == DetailLine(g, xs[k])
  {
    seq(|xs|, k requires 0 <= k < |xs| => DetailLine(g, xs[k]))
  }

  /** `query_assessment_details_full`: every assessment on its own line.
      The lines are f-strings, so nothing here raises. */
  function QueryAssessmentDetailsFull(g: KnowledgeGraph, p: Params): (r: Reply)
    ensures r.Text?
    ensures !CourseHas(g, p, "hasAssessment") ==> r == Text("No assessment details available.")
  {
    if CourseHas(g, p, "hasAssessment") then
      Text("Assessment details:\n" + Join("\n", DetailLines(g, CourseRecords(g, p, "hasAssessment"))))
    else Text("No assessment details available.")
  }

  /** When no detail line holds a newline, the body of the reply splits back
      into exactly one line per assessment, in order. */
  lemma AssessmentDetailsLines(g: KnowledgeGraph, p: Params)
    requires CourseHas(g, p, "hasAssessment")
    requires CourseRecords(g, p, "hasAssessment") != []
    requires forall k | 0 <= k < |CourseRecords(g, p, "hasAssessment")| ::
      '\n' !in DetailLine(g, CourseRecords(g, p, "hasAssessment")[k])
    ensures var header := "Assessment details:\n";
      var text := QueryAssessmentDetailsFull(g, p).text;
      |header| <= |text| && text[..|header|] == header
      && Split(text[|header|..], '\n') == DetailLines(g, CourseRecords(g, p, "hasAssessment"))
  {
    var lines := DetailLines(g, CourseRecords(g, p, "hasAssessment"));
    var header := "Assessment details:\n";
    var text := header + Join("\n", lines);
    assert text[|header|..] == Join("\n", lines);
    SplitJoin(lines, '\n');
  }

  // ---------------------------------------------------------------------
  // query_highest_assessment_tool
  // ---------------------------------------------------------------------

  /** An assessment and the weight it carries. */
  datatype Weighted = Weighted(percent: real, tool: Value)

  /** `a.Percentage or ""` is searched with a regular expression, which
      raises on a truthy value that is not a string. */
  predicate PercentRaises(g: KnowledgeGraph, a: Value) {
    var v := Attr(g, a, "Percentage");
    Truthy(v) && !v.Str?
  }

  /** The first number in the percentage text, or `None` when it holds no
      digit (or is empty) and the assessment is skipped. */
  function PercentOf(g: KnowledgeGraph, a: Value): Option<real> {
    var v := Attr(g, a, "Percentage");
    if Truthy(v) && v.Str? then LeadingNumber(v.s) else None
  }

  /** The weight the loop keeps after visiting `xs`: a later assessment
      replaces it only when strictly heavier. */
  function Highest(g: KnowledgeGraph, xs: seq<Value>): Option<Weighted>
    decreases |xs|
  {
    if xs == [] then None
    else
      var best := Highest(g, xs[..|xs| - 1]);
      var a := xs[|xs| - 1];
      match PercentOf(g, a)
      case None => best
      case Some(x) =>
        if best.None? || x > best.value.percent then Some(Weighted(x, Attr(g, a, "AssessmentTool"))) else best
  }

  /** Assessment `k` carries weight `w` and no earlier one carries as much. */
  predicate FirstWithWeight(g: KnowledgeGraph, xs: seq<Value>, k: int, w: Weighted) {
    && 0 <= k < |xs|
    && PercentOf(g, xs[k]) == Some(w.percent) && w.tool == Attr(g, xs[k], "AssessmentTool")
    && forall j | 0 <= j < k :: PercentOf(g, xs[j]).None? || PercentOf(g, xs[j]).value < w.percent
  }

  /** Nothing is kept exactly when no assessment has a number. */
  lemma {:induction false} HighestNone(g: KnowledgeGraph, xs: seq<Value>)
    ensures Highest(g, xs).None? <==> forall k | 0 <= k < |xs| :: PercentOf(g, xs[k]).None?
    decreases |xs|
  {
    if xs != [] {
      var init := xs[..|xs| - 1];
      HighestNone(g, init);
      assert forall j | 0 <= j < |init| :: init[j] == xs[j];
    }
  }

  /** The kept weight is at least every numeric weight. */
  lemma {:induction false} HighestIsMaximum(g: KnowledgeGraph, xs: seq<Value>)
    ensures Highest(g, xs).Some? ==>
      forall j | 0 <= j < |xs| :: PercentOf(g, xs[j]).None? || PercentOf(g, xs[j]).value <= Highest(g, xs).value.percent
    decreases |xs|
  {
    if xs != [] {
      var init := xs[..|xs| - 1];
      HighestIsMaximum(g, init);
      HighestNone(g, init);
      assert forall j | 0 <= j < |init| :: init[j] == xs[j];
    }
  }

  /** The kept weight and tool are those of the first assessment that
      carries the largest weight. */
  lemma {:induction false} HighestIsFirst(g: KnowledgeGraph, xs: seq<Value>)
    requires Highest(g, xs).Some?
    ensures exists k :: FirstWithWeight(g, xs, k, Highest(g, xs).value)
    decreases |xs|
  {
    var init := xs[..|xs| - 1];
    var best := Highest(g, init);
    var a := xs[|xs| - 1];
    if best == Highest(g, xs) {
      HighestIsFirst(g, init);
      var k :| FirstWithWeight(g, init, k, best.value);
      assert forall j | 0 <= j <= k :: init[j] == xs[j];
      assert FirstWithWeight(g, xs, k, best.value);
    } else {
      HighestIsMaximum(g, init);
      HighestNone(g, init);
      var w := Highest(g, xs).value;
      assert PercentOf(g, a) == Some(w.percent);
      forall j | 0 <= j < |xs| - 1
        ensures PercentOf(g, xs[j]).None? || PercentOf(g, xs[j]).value < w.percent
      {
        assert init[j] == xs[j];
      }
      assert FirstWithWeight(g, xs, |xs| - 1, Highest(g, xs).value);
    }
  }

  /** The kept weight is the largest numeric weight, and its tool is that of
      the first assessment carrying it; nothing is kept only when no
      assessment has a number. */
  lemma HighestIsFirstMaximum(g: KnowledgeGraph, xs: seq<Value>)
    ensures Highest(g, xs).None? <==> forall k | 0 <= k < |xs| :: PercentOf(g, xs[k]).None?
    ensures Highest(g, xs).Some? ==> exists k :: FirstWithWeight(g, xs, k, Highest(g, xs).value)
    ensures Highest(g, xs).Some? ==>
      forall j | 0 <= j < |xs| :: PercentOf(g, xs[j]).None? || PercentOf(g, xs[j]).value <= Highest(g, xs).value.percent
  {
    HighestNone(g, xs);
    HighestIsMaximum(g, xs);
    if Highest(g, xs).Some? {
      HighestIsFirst(g, xs);
    }
  }

  /** The loop of `query_highest_assessment_tool`: it raises at the first
      assessment whose percentage is not text, and otherwise keeps the
      heaviest weight seen. */
  method HighestAssessment(g: KnowledgeGraph, xs: seq<Value>) returns (raised: bool, best: Option<Weighted>)
    ensures raised <==> exists k | 0 <= k < |xs| :: PercentRaises(g, xs[k])
    ensures !raised ==> best == Highest(g, xs)
  {
    best := None;
    var i := 0;
    while i < |xs|
      invariant 0 <= i <= |xs|
      invariant forall j | 0 <= j < i :: !PercentRaises(g, xs[j])
      invariant best == Highest(g, xs[..i])
    {
      var a := xs[i];
      assert xs[..i + 1][..i] == xs[..i];
      if PercentRaises(g, a) {
        return true, best;
      }
      var percentageStr := Attr(g, a, "Percentage");
      var found := if Truthy(percentageStr) then LeadingNumber(percentageStr.s) else None;
      if found.Some? {
        var perc := found.value;
        if best.None? || perc > best.value.percent {
          best := Some(Weighted(perc, Attr(g, a, "AssessmentTool")));
        }
      }
      i := i + 1;
    }
    assert xs[..i] == xs;
    raised := false;
  }

  /** What `query_highest_assessment_tool` answers; `showPercent` stands for
      Python's printing of the float weight. */
  function HighestAssessmentReply(g: KnowledgeGraph, p: Params, showPercent: real -> string): Reply {
    var xs := CourseRecords(g, p, "hasAssessment");
    if CourseHas(g, p, "hasAssessment") && exists k | 0 <= k < |xs| :: PercentRaises(g, xs[k]) then Fault
    else if CourseHas(g, p, "hasAssessment") && Highest(g, xs).Some? then
      var w := Highest(g, xs).value;
      Text("Highest weighted assessment tool: " + Render(w.tool) + " (" + showPercent(w.percent) + "%).")
    else Text(NoData("assessment tool", "course", p.Shown("courseName")))
  }

  /** `query_highest_assessment_tool` */
  method QueryHighestAssessmentTool(g: KnowledgeGraph, p: Params, showPercent: real -> string) returns (r: Reply)
    ensures r == HighestAssessmentReply(g, p, showPercent)
  {
    if CourseHas(g, p, "hasAssessment") {
      var raised, highest := HighestAssessment(g, CourseRecords(g, p, "hasAssessment"));
      if raised {
        return Fault;
      }
      if highest.Some? {
        var w := highest.value;
        return Text("Highest weighted assessment tool: " + Render(w.tool) + " (" + showPercent(w.percent) + "%).");
      }
    }
    r := Text(NoData("assessment tool", "course", p.Shown("courseName")));
  }
}
