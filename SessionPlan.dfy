/**
 * `query_full_session_plan`: the course's sessions ordered by session
 * number (Python's `sorted` with `key=int(x.Session)`, which is stable),
 * or in their stored order when some number does not parse; then one line
 * per session whose topic is set and is not the sentinel.
 */
module SessionPlan {
  import opened Wrappers
  import opened Text
  import opened Lists
  import opened Graph
  import opened Replies
  import opened GenericHandlers

  // ---------------------------------------------------------------------
  // A stable sort by integer key
  // ---------------------------------------------------------------------

  /** An item with the sort key computed for it. */
  datatype Keyed = Keyed(key: int, item: Value)

  predicate Sorted(ks: seq<Keyed>) {
    forall i, j | 0 <= i < j < |ks| :: ks[i].key <= ks[j].key
  }

  /** Inserts `x` before the first element whose key is not smaller, so
      that `x` stays ahead of the elements with its own key. */
  function Insert(x: Keyed, ys: seq<Keyed>): (r: seq<Keyed>)
    ensures |r| == |ys| + 1
    ensures multiset(r) == multiset(ys) + multiset{x}
    decreases |ys|
  {
    if ys == [] || x.key <= ys[0].key then [x] + ys
    else
      assert ys == [ys[0]] + ys[1..];
      [ys[0]] + Insert(x, ys[1..])
  }

  /** Insertion sort, inserting each element into the sorted rest. */
  function SortByKey(ks: seq<Keyed>): (r: seq<Keyed>)
    ensures multiset(r) == multiset(ks)
    decreases |ks|
  {
    if ks == [] then []
    else
      assert ks == [ks[0]] + ks[1..];
      Insert(ks[0], SortByKey(ks[1..]))
  }

  lemma {:induction false} InsertSorted(x: Keyed, ys: seq<Keyed>)
    requires Sorted(ys)
    ensures Sorted(Insert(x, ys))
    decreases |ys|
  {
    if ys != [] && x.key > ys[0].key {
      InsertSorted(x, ys[1..]);
      var r := Insert(x, ys[1..]);
      forall i | 0 <= i < |r| ensures ys[0].key <= r[i].key {
        assert r[i] in multiset(r);
        assert r[i] in multiset(ys[1..]) + multiset{x};
        if r[i] in multiset(ys[1..]) {
          var j :| 0 <= j < |ys[1..]| && ys[1..][j] == r[i];
          assert ys[j + 1] == r[i];
        }
      }
    }
  }

  /** The result is ordered by key. */
  lemma {:induction false} SortByKeySorted(ks: seq<Keyed>)
    ensures Sorted(SortByKey(ks))
    decreases |ks|
  {
    if ks != [] {
      SortByKeySorted(ks[1..]);
      InsertSorted(ks[0], SortByKey(ks[1..]));
    }
  }

  /** The elements with key `k`, in order. */
  function WithKey(ks: seq<Keyed>, k: int): seq<Keyed>
    decreases |ks|
  {
    if ks == [] then []
    else (if ks[0].key == k then [ks[0]] else []) + WithKey(ks[1..], k)
  }

  lemma {:induction false} InsertWithKey(x: Keyed, ys: seq<Keyed>, k: int)
    ensures WithKey(Insert(x, ys), k) == (if x.key == k then [x] else []) + WithKey(ys, k)
    decreases |ys|
  {
    if ys == [] || x.key <= ys[0].key {
      assert ([x] + ys)[1..] == ys;
    } else {
      InsertWithKey(x, ys[1..], k);
      assert ([ys[0]] + Insert(x, ys[1..]))[1..] == Insert(x, ys[1..]);
    }
  }

  /** The sort is stable: the elements sharing a key keep their order. */
  lemma {:induction false} SortByKeyStable(ks: seq<Keyed>, k: int)
    ensures WithKey(SortByKey(ks), k) == WithKey(ks, k)
    decreases |ks|
  {
    if ks != [] {
      SortByKeyStable(ks[1..], k);
      InsertWithKey(ks[0], SortByKey(ks[1..]), k);
    }
  }

  // ---------------------------------------------------------------------
  // Ordering the sessions
  // ---------------------------------------------------------------------

  /** `int(s.Session)` for every session, or `None` when one of them fails. */
  function SessionKeys(g: KnowledgeGraph, sessions: seq<Value>): (r: Option<seq<Keyed>>)
    ensures r.Some? <==> forall i | 0 <= i < |sessions| :: ToInt(Attr(g, sessions[i], "Session")).Some?
    ensures r.Some? ==> |r.value| == |sessions|
    ensures r.Some? ==> forall i | 0 <= i < |sessions| ::
      r.value[i] == Keyed(ToInt(Attr(g, sessions[i], "Session")).value, sessions[i])
  {
    if forall i | 0 <= i < |sessions| :: ToInt(Attr(g, sessions[i], "Session")).Some?
    then Some(seq(|sessions|, i requires 0 <= i < |sessions| => Keyed(ToInt(Attr(g, sessions[i], "Session")).value, sessions[i])))
    else None
  }

  /** The items of keyed sessions. */
  function Items'(ks: seq<Keyed>): (r: seq<Value>)
    ensures |r| == |ks| && forall i | 0 <= i < |ks| :: r[i] == ks[i].item
  {
    seq(|ks|, i requires 0 <= i < |ks| => ks[i].item)
  }

  /** Every key is the parsed number of its own session. */
  predicate KeyedBySession(g: KnowledgeGraph, ks: seq<Keyed>) {
    forall i | 0 <= i < |ks| :: ToInt(Attr(g, ks[i].item, "Session")) == Some(ks[i].key)
  }

  /** The sessions as the handler visits them. */
  function OrderedSessions(g: KnowledgeGraph, sessions: seq<Value>): seq<Value> {
    match SessionKeys(g, sessions)
    case None => sessions
    case Some(ks) => Items'(SortByKey(ks))
  }

  lemma KeyedByMultiset(g: KnowledgeGraph, a: seq<Keyed>, b: seq<Keyed>)
    requires KeyedBySession(g, a) && multiset(a) == multiset(b)
    ensures KeyedBySession(g, b)
  {
    forall i | 0 <= i < |b| ensures ToInt(Attr(g, b[i].item, "Session")) == Some(b[i].key) {
      assert b[i] in multiset(a);
    }
  }

  /** The items of keyed sessions, as a bag. */
  function ItemBag(ks: seq<Keyed>): multiset<Value>
    decreases |ks|
  {
    if ks == [] then multiset{} else multiset{ks[0].item} + ItemBag(ks[1..])
  }

  lemma {:induction false} ItemBagOfItems(ks: seq<Keyed>)
    ensures ItemBag(ks) == multiset(Items'(ks))
    decreases |ks|
  {
    if ks != [] {
      ItemBagOfItems(ks[1..]);
      assert Items'(ks) == [ks[0].item] + Items'(ks[1..]);
    }
  }

  lemma {:induction false} InsertItems(x: Keyed, ys: seq<Keyed>)
    ensures ItemBag(Insert(x, ys)) == ItemBag(ys) + multiset{x.item}
    decreases |ys|
  {
    if ys == [] || x.key <= ys[0].key {
      assert ([x] + ys)[1..] == ys;
    } else {
      InsertItems(x, ys[1..]);
      assert ([ys[0]] + Insert(x, ys[1..]))[1..] == Insert(x, ys[1..]);
    }
  }

  lemma {:induction false} SortByKeyItems(ks: seq<Keyed>)
    ensures ItemBag(SortByKey(ks)) == ItemBag(ks)
    decreases |ks|
  {
    if ks != [] {
      SortByKeyItems(ks[1..]);
      InsertItems(ks[0], SortByKey(ks[1..]));
    }
  }

  /** The handler visits every session exactly as often as it is stored,
      and in stored order when some number does not parse. */
  lemma OrderedSessionsPermutes(g: KnowledgeGraph, sessions: seq<Value>)
    ensures multiset(OrderedSessions(g, sessions)) == multiset(sessions)
    ensures SessionKeys(g, sessions).None? ==> OrderedSessions(g, sessions) == sessions
  {
    if SessionKeys(g, sessions).Some? {
      var ks := SessionKeys(g, sessions).value;
      assert Items'(ks) == sessions;
      SortByKeyItems(ks);
      ItemBagOfItems(ks);
      ItemBagOfItems(SortByKey(ks));
    }
  }

  /** When every number parses, the sessions come in non-decreasing number,
      and sessions with the same number keep their stored order. */
  lemma OrderedSessionsSorted(g: KnowledgeGraph, sessions: seq<Value>)
    requires SessionKeys(g, sessions).Some?
    ensures var ordered := OrderedSessions(g, sessions);
      && (forall i | 0 <= i < |ordered| :: ToInt(Attr(g, ordered[i], "Session")).Some?)
      && forall i, j | 0 <= i < j < |ordered| ::
           ToInt(Attr(g, ordered[i], "Session")).value <= ToInt(Attr(g, ordered[j], "Session")).value
    ensures forall k :: WithKey(SortByKey(SessionKeys(g, sessions).value), k) == WithKey(SessionKeys(g, sessions).value, k)
  {
    var ks := SessionKeys(g, sessions).value;
    var sorted := SortByKey(ks);
    assert KeyedBySession(g, ks);
    KeyedByMultiset(g, ks, sorted);
    SortByKeySorted(ks);
    forall k ensures WithKey(sorted, k) == WithKey(ks, k) {
      SortByKeyStable(ks, k);
    }
  }

  // ---------------------------------------------------------------------
  // The reply
  // ---------------------------------------------------------------------

  /** `s.Topic and s.Topic != "NA"` */
  predicate HasTopic(g: KnowledgeGraph, s: Value) {
    Truthy(Attr(g, s, "Topic")) && Attr(g, s, "Topic") != Str(Sentinel)
  }

  /** "Session <n>: <module> - <topic> (Materials: <reading>)" */
  function TopicLine(g: KnowledgeGraph, s: Value): string {
    "Session " + Render(Attr(g, s, "Session")) + ": " + Render(Attr(g, s, "Module"))
      + " - " + Render(Attr(g, s, "Topic")) + " (Materials: " + Render(Attr(g, s, "ReadingMaterial")) + ")"
  }

  /** The comprehension over the sessions: one line per session with a topic. */
  function TopicLines(g: KnowledgeGraph, sessions: seq<Value>): seq<string>
    decreases |sessions|
  {
    if sessions == [] then []
    else
      var last := sessions[|sessions| - 1];
      TopicLines(g, sessions[..|sessions| - 1]) + (if HasTopic(g, last) then [TopicLine(g, last)] else [])
  }

  /** The topic lines of the course, in visiting order. */
  function Topics(g: KnowledgeGraph, p: Params): seq<string> {
    TopicLines(g, OrderedSessions(g, CourseRecords(g, p, "hasSessionPlan")))
  }

  /** `query_full_session_plan` */
  function QueryFullSessionPlan(g: KnowledgeGraph, p: Params): (r: Reply)
    ensures r.Text?
    ensures !CourseHas(g, p, "hasSessionPlan") ==> r == Text(NoData("session plan", "course", p.Shown("courseName")))
  {
    if CourseHas(g, p, "hasSessionPlan") && Topics(g, p) != []
    then Text("Course topics:\n" + Join("\n", Topics(g, p)))
    else Text(NoData("session plan", "course", p.Shown("courseName")))
  }

  /** At most one line per session, and none exactly when no session has a
      topic. */
  lemma {:induction false} TopicLinesEmpty(g: KnowledgeGraph, sessions: seq<Value>)
    ensures |TopicLines(g, sessions)| <= |sessions|
    ensures TopicLines(g, sessions) == [] <==> forall i | 0 <= i < |sessions| :: !HasTopic(g, sessions[i])
    decreases |sessions|
  {
    if sessions != [] {
      var init := sessions[..|sessions| - 1];
      TopicLinesEmpty(g, init);
      assert forall i | 0 <= i < |init| :: init[i] == sessions[i];
    }
  }

  /** Reordering the sessions does not change whether some session has a
      topic. */
  lemma TopicLinesOfOrdered(g: KnowledgeGraph, sessions: seq<Value>)
    ensures |TopicLines(g, OrderedSessions(g, sessions))| <= |sessions|
    ensures TopicLines(g, OrderedSessions(g, sessions)) == [] <==>
      forall i | 0 <= i < |sessions| :: !HasTopic(g, sessions[i])
  {
    var ordered := OrderedSessions(g, sessions);
    OrderedSessionsPermutes(g, sessions);
    TopicLinesEmpty(g, ordered);
    assert |ordered| == |sessions| by {
      assert |multiset(ordered)| == |multiset(sessions)|;
    }
    if forall i | 0 <= i < |sessions| :: !HasTopic(g, sessions[i]) {
      forall i | 0 <= i < |ordered| ensures !HasTopic(g, ordered[i]) {
        assert ordered[i] in multiset(sessions);
      }
    } else {
      var i :| 0 <= i < |sessions| && HasTopic(g, sessions[i]);
      assert sessions[i] in multiset(ordered);
    }
  }

  /** The plan is reported missing exactly when the course has no sessions
      or none of them has a topic other than the sentinel; otherwise it
      lists one line per such session. */
  lemma FullSessionPlanOutcomes(g: KnowledgeGraph, p: Params)
    ensures QueryFullSessionPlan(g, p) == Text(NoData("session plan", "course", p.Shown("courseName"))) <==>
      || !CourseHas(g, p, "hasSessionPlan")
      || forall i | 0 <= i < |CourseRecords(g, p, "hasSessionPlan")| :: !HasTopic(g, CourseRecords(g, p, "hasSessionPlan")[i])
    ensures |Topics(g, p)| <= |CourseRecords(g, p, "hasSessionPlan")|
  {
    TopicLinesOfOrdered(g, CourseRecords(g, p, "hasSessionPlan"));
    if CourseHas(g, p, "hasSessionPlan") && Topics(g, p) != [] {
      TopicsNotNoData(Join("\n", Topics(g, p)), p.Shown("courseName"));
    }
  }

  lemma TopicsNotNoData(joined: string, name: string)
    ensures "Course topics:\n" + joined != NoData("session plan", "course", name)
  {
    assert ("Course topics:\n" + joined)[0] == 'C';
    assert NoData("session plan", "course", name)[0] == 'N';
  }
}
