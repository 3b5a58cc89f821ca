/**
 * The two summary handlers that print a record's fields as
 * "<caption>: <value>, <caption>: <value>, ..." and then delete the sentinel
 * "NA" from the printed text with two `str.replace` calls:
 * `query_session_info` and `query_instructor_contact`. Neither is
 * registered in the dispatch table.
 *
 * Deleting "NA" from the printed text also deletes it from inside real
 * values: a topic "DNA" prints as "D". `CleanSummary` is the summary the
 * code evidently means, omitting only the fields whose value is the sentinel.
 */
module Summaries {
  import opened Wrappers
  import opened Text
  import opened Lists
  import opened Graph
  import opened Replies
  import opened GenericHandlers

  /** A labelled field of a summary. */
  datatype Field = Field(caption: string, value: Value)

  /** "<caption>: <value>" for every field, separated by ", ". */
  function Details(fields: seq<Field>): string
    decreases |fields|
  {
    if fields == [] then ""
    else if |fields| == 1 then fields[0].caption + ": " + Render(fields[0].value)
    else fields[0].caption + ": " + Render(fields[0].value) + ", " + Details(fields[1..])
  }

  /** `.replace("NA, ", "").replace("NA", "")` */
  function StripSentinel(details: string): string {
    ReplaceAll(ReplaceAll(details, Sentinel + ", ", ""), Sentinel, "")
  }

  // ---------------------------------------------------------------------
  // What the deletion does to a text
  // ---------------------------------------------------------------------

  lemma {:induction false} ContainsFits(s: string, pat: string)
    requires Contains(s, pat)
    ensures |pat| <= |s|
    decreases |s|
  {
    if !StartsWith(s, pat) {
      ContainsFits(s[1..], pat);
    }
  }

  lemma {:induction false} ContainsInSuffix(a: string, b: string, pat: string)
    requires Contains(b, pat)
    ensures Contains(a + b, pat)
    decreases |a|
  {
    if a == [] {
      assert a + b == b;
    } else {
      assert (a + b)[1..] == a[1..] + b;
      ContainsInSuffix(a[1..], b, pat);
    }
  }

  lemma {:induction false} ContainsInPrefix(a: string, b: string, pat: string)
    requires Contains(a, pat)
    ensures Contains(a + b, pat)
    decreases |a|
  {
    if StartsWith(a, pat) {
      assert (a + b)[..|pat|] == a[..|pat|];
    } else {
      assert (a + b)[1..] == a[1..] + b;
      ContainsInPrefix(a[1..], b, pat);
    }
  }

  /** Deleting a pattern never lengthens a text. */
  lemma {:induction false} DeletionShrinks(s: string, pat: string)
    requires pat != []
    ensures |ReplaceAll(s, pat, "")| <= |s|
    decreases |s|
  {
    if |s| >= |pat| {
      if s[..|pat|] == pat {
        DeletionShrinks(s[|pat|..], pat);
      } else {
        DeletionShrinks(s[1..], pat);
      }
    }
  }

  /** Deleting a pattern that occurs removes at least one whole occurrence. */
  lemma {:induction false} DeletionRemoves(s: string, pat: string)
    requires pat != [] && Contains(s, pat)
    ensures |ReplaceAll(s, pat, "")| <= |s| - |pat|
    decreases |s|
  {
    ContainsFits(s, pat);
    if s[..|pat|] == pat {
      DeletionShrinks(s[|pat|..], pat);
    } else {
      DeletionRemoves(s[1..], pat);
    }
  }

  /** Any text that contains "NA" anywhere comes out strictly shorter. */
  lemma StripSentinelShortens(details: string)
    requires Contains(details, Sentinel)
    ensures |StripSentinel(details)| < |details|
  {
    var once := ReplaceAll(details, Sentinel + ", ", "");
    DeletionShrinks(details, Sentinel + ", ");
    if Contains(details, Sentinel + ", ") {
      DeletionRemoves(details, Sentinel + ", ");
      DeletionShrinks(once, Sentinel);
    } else {
      ReplaceAllAbsent(details, Sentinel + ", ", "");
      DeletionRemoves(once, Sentinel);
    }
  }

  /** A value that prints with "NA" inside makes the whole summary contain it. */
  lemma {:induction false} DetailsContains(fields: seq<Field>, i: nat, pat: string)
    requires i < |fields| && Contains(Render(fields[i].value), pat)
    ensures Contains(Details(fields), pat)
    decreases |fields|
  {
    var head := fields[0].caption + ": " + Render(fields[0].value);
    if i == 0 {
      ContainsInSuffix(fields[0].caption + ": ", Render(fields[0].value), pat);
      if |fields| > 1 {
        ContainsInPrefix(head, ", " + Details(fields[1..]), pat);
        assert Details(fields) == head + (", " + Details(fields[1..]));
      }
    } else {
      DetailsContains(fields[1..], i - 1, pat);
      ContainsInSuffix(head + ", ", Details(fields[1..]), pat);
    }
  }

  /** The fields whose value is not the sentinel, in their order. */
  function Kept(fields: seq<Field>): (kept: seq<Field>)
    ensures forall f :: f in kept <==> f in fields && f.value != Str(Sentinel)
    decreases |fields|
  {
    if fields == [] then []
    else (if fields[0].value == Str(Sentinel) then [] else [fields[0]]) + Kept(fields[1..])
  }

  /** The summary the code evidently means: a field whose value is the
      sentinel is left out whole, caption and separator included; every
      other field is printed as it is. */
  function CleanSummary(fields: seq<Field>): string
    decreases |fields|
  {
    if fields == [] then ""
    else if fields[0].value == Str(Sentinel) then CleanSummary(fields[1..])
    else
      var head := fields[0].caption + ": " + Render(fields[0].value);
      var rest := CleanSummary(fields[1..]);
      if rest == "" then head else head + ", " + rest
  }

  /** Only an empty list of fields prints as the empty text. */
  lemma DetailsEmpty(fields: seq<Field>)
    ensures Details(fields) == "" <==> fields == []
  {
    if fields != [] {
      var head := fields[0].caption + ": " + Render(fields[0].value);
      assert |head| >= 2;
    }
  }

  /** The corrected summary is the summary of the fields that are not the
      sentinel. */
  lemma {:induction false} CleanSummaryOmitsSentinelFields(fields: seq<Field>)
    ensures CleanSummary(fields) == Details(Kept(fields))
    decreases |fields|
  {
    if fields != [] {
      CleanSummaryOmitsSentinelFields(fields[1..]);
      var f := fields[0];
      var rest := Kept(fields[1..]);
      if f.value == Str(Sentinel) {
        assert Kept(fields) == [] + rest == rest;
      } else {
        assert Kept(fields) == [f] + rest;
        DetailsEmpty(rest);
        if rest != [] {
          assert ([f] + rest)[1..] == rest;
        }
      }
    }
  }

  /** With no sentinel field, every field is kept. */
  lemma {:induction false} KeptAll(fields: seq<Field>)
    requires forall i | 0 <= i < |fields| :: fields[i].value != Str(Sentinel)
    ensures Kept(fields) == fields
    decreases |fields|
  {
    if fields != [] {
      KeptAll(fields[1..]);
      assert [fields[0]] + fields[1..] == fields;
    }
  }

  /** With no sentinel value, the corrected summary is the plain one: every
      value, "DNA" included, is printed as it is. */
  lemma CleanSummaryVerbatim(fields: seq<Field>)
    requires forall i | 0 <= i < |fields| :: fields[i].value != Str(Sentinel)
    ensures CleanSummary(fields) == Details(fields)
  {
    KeptAll(fields);
    CleanSummaryOmitsSentinelFields(fields);
  }

  /** A sentinel field is left out whole: the summary is that of the other
      fields. */
  lemma CleanSummaryDropsSentinel(caption: string, rest: seq<Field>)
    ensures CleanSummary([Field(caption, Str(Sentinel))] + rest) == CleanSummary(rest)
  {
    var fields := [Field(caption, Str(Sentinel))] + rest;
    assert fields[0] == Field(caption, Str(Sentinel));
    assert fields[1..] == rest;
  }

  /** Containing a longer pattern means containing its start. */
  lemma {:induction false} ContainsStart(s: string, a: string, b: string)
    requires Contains(s, a + b)
    ensures Contains(s, a)
    decreases |s|
  {
    if StartsWith(s, a + b) {
      assert s[..|a|] == s[..|a + b|][..|a|] == (a + b)[..|a|] == a;
    } else {
      ContainsStart(s[1..], a, b);
    }
  }

  /** The two deletions leave a text as it is exactly when it does not
      contain "NA". */
  lemma StripSentinelVerbatim(details: string)
    ensures StripSentinel(details) == details <==> !Contains(details, Sentinel)
  {
    if Contains(details, Sentinel) {
      StripSentinelShortens(details);
    } else {
      if Contains(details, Sentinel + ", ") {
        ContainsStart(details, Sentinel, ", ");
      }
      ReplaceAllAbsent(details, Sentinel + ", ", "");
      ReplaceAllAbsent(details, Sentinel, "");
    }
  }

  // ---------------------------------------------------------------------
  // query_session_info
  // ---------------------------------------------------------------------

  const SessionNotFound := "Session information not found."

  /** `str(s.Session) == session_num` */
  function SessionNumbered(g: KnowledgeGraph, sessionNum: string): Value -> bool {
    s => Render(Attr(g, s, "Session")) == sessionNum
  }

  /** The first session of the course whose number prints as the requested
      one, when that session is truthy. */
  function FoundSession(g: KnowledgeGraph, p: Params): (r: Option<Value>)
    ensures r.Some? ==> CourseOf(g, p).Some? && Truthy(r.value)
    ensures r.Some? ==> exists k | 0 <= k < |CourseRecords(g, p, "hasSessionPlan")| ::
      && r.value == CourseRecords(g, p, "hasSessionPlan")[k]
      && Render(Attr(g, r.value, "Session")) == p.Get("sessionNumber", "")
      && forall j | 0 <= j < k ::
           Render(Attr(g, CourseRecords(g, p, "hasSessionPlan")[j], "Session")) != p.Get("sessionNumber", "")
  {
    if CourseOf(g, p).None? then None
    else
      var sessions := CourseRecords(g, p, "hasSessionPlan");
      match FirstIndex(sessions, SessionNumbered(g, p.Get("sessionNumber", "")))
      case None => None
      case Some(k) => if Truthy(sessions[k]) then Some(sessions[k]) else None
  }

  /** Module, topic and reading material of a session. */
  function SessionFields(g: KnowledgeGraph, s: Value): (fields: seq<Field>)
    ensures |fields| == 3
  {
    [Field("Module", Attr(g, s, "Module")), Field("Topic", Attr(g, s, "Topic")),
     Field("Materials", Attr(g, s, "ReadingMaterial"))]
  }

  /** `query_session_info` as written. */
  function QuerySessionInfo(g: KnowledgeGraph, p: Params): (r: Reply)
    ensures r.Text?
    ensures FoundSession(g, p).None? ==> r == Text(SessionNotFound)
    ensures FoundSession(g, p).Some? ==> |r.text| <= |Details(SessionFields(g, FoundSession(g, p).value))|
    ensures FoundSession(g, p).Some? ==>
      (r == Text(Details(SessionFields(g, FoundSession(g, p).value)))
       <==> !Contains(Details(SessionFields(g, FoundSession(g, p).value)), Sentinel))
  {
    match FoundSession(g, p)
    case None => Text(SessionNotFound)
    case Some(s) =>
      var details := Details(SessionFields(g, s));
      StripSentinelVerbatim(details);
      DeletionShrinks(details, Sentinel + ", ");
      DeletionShrinks(ReplaceAll(details, Sentinel + ", ", ""), Sentinel);
      Text(StripSentinel(details))
  }

  /** A session whose topic merely contains "NA", such as "DNA", is not
      printed as it is: the deletion cuts the topic itself. */
  lemma SessionInfoMangles(g: KnowledgeGraph, p: Params, topic: string)
    requires FoundSession(g, p).Some?
    requires Attr(g, FoundSession(g, p).value, "Topic") == Str(topic) && Contains(topic, Sentinel)
    ensures QuerySessionInfo(g, p) != Text(Details(SessionFields(g, FoundSession(g, p).value)))
  {
    var fields := SessionFields(g, FoundSession(g, p).value);
    DetailsContains(fields, 1, Sentinel);
    StripSentinelShortens(Details(fields));
  }

  /** "DNA" contains the sentinel. */
  lemma DnaContainsSentinel()
    ensures Contains("DNA", Sentinel)
  {
    assert "DNA"[1..] == Sentinel;
    assert StartsWith("DNA"[1..], Sentinel);
  }

  /** The input that shows it: a session on "DNA" is not printed as it is. */
  lemma DnaTopicIsCut(g: KnowledgeGraph, p: Params)
    requires FoundSession(g, p).Some?
    requires Attr(g, FoundSession(g, p).value, "Topic") == Str("DNA")
    ensures QuerySessionInfo(g, p) != Text(Details(SessionFields(g, FoundSession(g, p).value)))
  {
    DnaContainsSentinel();
    SessionInfoMangles(g, p, "DNA");
  }

  /** `query_session_info` as intended: only fields whose value is the
      sentinel are omitted. */
  function QuerySessionInfoCorrected(g: KnowledgeGraph, p: Params): (r: Reply)
    ensures r.Text?
    ensures FoundSession(g, p).None? ==> r == Text(SessionNotFound)
  {
    match FoundSession(g, p)
    case None => Text(SessionNotFound)
    case Some(s) => Text(CleanSummary(SessionFields(g, s)))
  }

  /** With no sentinel field, the corrected handler prints the session as
      it is, and differs from the handler as written whenever the topic
      merely contains "NA" (a topic "DNA" among them). */
  lemma SessionInfoCorrectedKeepsValues(g: KnowledgeGraph, p: Params, topic: string)
    requires FoundSession(g, p).Some?
    requires forall i | 0 <= i < 3 :: SessionFields(g, FoundSession(g, p).value)[i].value != Str(Sentinel)
    ensures QuerySessionInfoCorrected(g, p) == Text(Details(SessionFields(g, FoundSession(g, p).value)))
    ensures Attr(g, FoundSession(g, p).value, "Topic") == Str(topic) && Contains(topic, Sentinel) ==>
      QuerySessionInfoCorrected(g, p) != QuerySessionInfo(g, p)
  {
    CleanSummaryVerbatim(SessionFields(g, FoundSession(g, p).value));
    if Attr(g, FoundSession(g, p).value, "Topic") == Str(topic) && Contains(topic, Sentinel) {
      SessionInfoMangles(g, p, topic);
    }
  }

  // ---------------------------------------------------------------------
  // query_instructor_contact
  // ---------------------------------------------------------------------

  const ContactNotFound := "Instructor contact not found."

  /** Contact details, office and consultation hours of an instructor record. */
  function ContactFields(g: KnowledgeGraph, ins: Value): (fields: seq<Field>)
    ensures |fields| == 3
  {
    [Field("Contact", Attr(g, ins, "ContactDetails")), Field("Office", Attr(g, ins, "Office")),
     Field("Hours", Attr(g, ins, "ConsultationHours"))]
  }

  /** The first instructor record of the course, when the course has one. */
  function ContactRecord(g: KnowledgeGraph, p: Params): Option<Value> {
    if CourseHas(g, p, "hasInstructorDetails")
    then Some(First(Attr(g, CourseOf(g, p).value, "hasInstructorDetails")))
    else None
  }

  /** `query_instructor_contact` as written. */
  function QueryInstructorContact(g: KnowledgeGraph, p: Params): (r: Reply)
    ensures r.Text?
    ensures ContactRecord(g, p).None? ==> r == Text(ContactNotFound)
    ensures ContactRecord(g, p).Some? ==> |r.text| <= |Details(ContactFields(g, ContactRecord(g, p).value))|
    ensures ContactRecord(g, p).Some? ==>
      (r == Text(Details(ContactFields(g, ContactRecord(g, p).value)))
       <==> !Contains(Details(ContactFields(g, ContactRecord(g, p).value)), Sentinel))
  {
    match ContactRecord(g, p)
    case None => Text(ContactNotFound)
    case Some(ins) =>
      var details := Details(ContactFields(g, ins));
      StripSentinelVerbatim(details);
      DeletionShrinks(details, Sentinel + ", ");
      DeletionShrinks(ReplaceAll(details, Sentinel + ", ", ""), Sentinel);
      Text(StripSentinel(details))
  }

  /** An office whose name contains "NA" (a "DNA Lab", say) is cut. */
  lemma InstructorContactMangles(g: KnowledgeGraph, p: Params, office: string)
    requires ContactRecord(g, p).Some?
    requires Attr(g, ContactRecord(g, p).value, "Office") == Str(office) && Contains(office, Sentinel)
    ensures QueryInstructorContact(g, p) != Text(Details(ContactFields(g, ContactRecord(g, p).value)))
  {
    var fields := ContactFields(g, ContactRecord(g, p).value);
    DetailsContains(fields, 1, Sentinel);
    StripSentinelShortens(Details(fields));
  }

  /** `query_instructor_contact` as intended: only fields whose value is the
      sentinel are omitted. */
  function QueryInstructorContactCorrected(g: KnowledgeGraph, p: Params): (r: Reply)
    ensures r.Text?
    ensures ContactRecord(g, p).None? ==> r == Text(ContactNotFound)
  {
    match ContactRecord(g, p)
    case None => Text(ContactNotFound)
    case Some(ins) => Text(CleanSummary(ContactFields(g, ins)))
  }

  /** With no sentinel field, the corrected handler prints the contact line
      as it is, and differs from the handler as written whenever the
      office merely contains "NA". */
  lemma InstructorContactCorrectedKeepsValues(g: KnowledgeGraph, p: Params, office: string)
    requires ContactRecord(g, p).Some?
    requires forall i | 0 <= i < 3 :: ContactFields(g, ContactRecord(g, p).value)[i].value != Str(Sentinel)
    ensures QueryInstructorContactCorrected(g, p) == Text(Details(ContactFields(g, ContactRecord(g, p).value)))
    ensures Attr(g, ContactRecord(g, p).value, "Office") == Str(office) && Contains(office, Sentinel) ==>
      QueryInstructorContactCorrected(g, p) != QueryInstructorContact(g, p)
  {
    CleanSummaryVerbatim(ContactFields(g, ContactRecord(g, p).value));
    if Attr(g, ContactRecord(g, p).value, "Office") == Str(office) && Contains(office, Sentinel) {
      InstructorContactMangles(g, p, office);
    }
  }
}
