/**
 * `get_nested_property`: reads a value along a dot-separated chain of
 * relation names. A list met before a segment stands for its first element;
 * an empty list or a relation the current individual lacks ends the walk
 * with `None`. At the end, a list gives its first element and `None` or the
 * sentinel "NA" give `None`. The resolver is total: its `except` clause
 * never has anything to catch in this model.
 */
module PathResolver {
  import opened Wrappers
  import opened Text
  import opened Graph

  /** One segment: collapse a list to its first element, then read `prop`. */
  function Step(g: KnowledgeGraph, obj: Value, prop: string): Option<Value> {
    if obj.Lst? then
      (if obj.items == [] then None else Lookup(g, obj.items[0], prop))
    else Lookup(g, obj, prop)
  }

  /** The value reached after every segment, or `None` if the walk stopped early. */
  function Walk(g: KnowledgeGraph, obj: Value, props: seq<string>): Option<Value>
    decreases |props|
  {
    if props == [] then Some(obj)
    else
      match Step(g, obj, props[0])
      case None => None
      case Some(next) => Walk(g, next, props[1..])
  }

  /** The treatment of the value the walk ends on. */
  function Finish(v: Value): Value {
    if v.Lst? then (if v.items == [] then Nil else v.items[0])
    else if v == Nil || v == Str(Sentinel) then Nil
    else v
  }

  /** What `get_nested_property` returns for already split segments. */
  function Resolve(g: KnowledgeGraph, obj: Value, props: seq<string>): Value {
    match Walk(g, obj, props)
    case None => Nil
    case Some(v) => Finish(v)
  }

  /** What `get_nested_property(obj, path)` returns. */
  function ResolvePath(g: KnowledgeGraph, obj: Value, path: string): Value {
    Resolve(g, obj, Split(path, '.'))
  }

  /** `get_nested_property`, walking the segments in a loop. */
  method GetNestedProperty(g: KnowledgeGraph, obj: Value, propertyPath: string) returns (r: Value)
    ensures r == ResolvePath(g, obj, propertyPath)
  {
    var properties := Split(propertyPath, '.');
    var cur := obj;
    var i := 0;
    while i < |properties|
      invariant 0 <= i <= |properties|
      invariant Walk(g, obj, properties) == Walk(g, cur, properties[i..])
    {
      var prop := properties[i];
      assert properties[i..][1..] == properties[i + 1..];
      if cur.Lst? {
        if cur.items == [] {
          return Nil;
        }
        cur := cur.items[0];
      }
      var found := Lookup(g, cur, prop);
      if found.None? {
        return Nil;
      }
      cur := found.value;
      i := i + 1;
    }
    if cur.Lst? {
      r := if cur.items == [] then Nil else cur.items[0];
      return;
    }
    r := if cur == Nil || cur == Str(Sentinel) then Nil else cur;
  }

  /** Walking a path in two parts is walking the first part and continuing
      from where it ended: a path of n segments is n single steps. */
  lemma {:induction false} WalkAppend(g: KnowledgeGraph, obj: Value, a: seq<string>, b: seq<string>)
    ensures Walk(g, obj, a + b) ==
      match Walk(g, obj, a)
      case None => None
      case Some(mid) => Walk(g, mid, b)
    decreases |a|
  {
    if a == [] {
      assert a + b == b;
    } else {
      assert (a + b)[0] == a[0];
      assert (a + b)[1..] == a[1..] + b;
      match Step(g, obj, a[0])
      case None =>
        assert Walk(g, obj, a + b) == None;
      case Some(next) =>
        WalkAppend(g, next, a[1..], b);
        assert Walk(g, obj, a + b) == Walk(g, next, a[1..] + b);
    }
  }

  /** A segment the individual reached so far lacks, or an empty list before
      it, makes the whole path `None`, whatever follows. */
  lemma AbsentSegmentGivesNone(g: KnowledgeGraph, obj: Value, props: seq<string>, i: nat)
    requires i < |props|
    requires Walk(g, obj, props[..i]).Some?
    requires Step(g, Walk(g, obj, props[..i]).value, props[i]) == None
    ensures Resolve(g, obj, props) == Nil
  {
    var mid := Walk(g, obj, props[..i]).value;
    WalkAppend(g, obj, props[..i], props[i..]);
    assert props[..i] + props[i..] == props;
  }

  /** Before a segment, a non-empty list is followed through its first
      element; an empty one stops the walk. */
  lemma ListFollowsFirst(g: KnowledgeGraph, xs: seq<Value>, props: seq<string>)
    requires props != []
    ensures xs == [] ==> Walk(g, Lst(xs), props) == None
    ensures xs != [] && !xs[0].Lst? ==> Walk(g, Lst(xs), props) == Walk(g, xs[0], props)
  {
  }

  /** The three ways a walk that reached its end can finish: a final list gives
      its first element unfiltered, even "NA"; an empty list gives `None`; a
      scalar gives itself unless it is `None` or the sentinel "NA". */
  lemma FinalValue(g: KnowledgeGraph, obj: Value, props: seq<string>, v: Value)
    requires Walk(g, obj, props) == Some(v)
    ensures v.Lst? && v.items != [] ==> Resolve(g, obj, props) == v.items[0]
    ensures v.Lst? && v.items == [] ==> Resolve(g, obj, props) == Nil
    ensures !v.Lst? ==> (Resolve(g, obj, props) == Nil <==> v == Nil || v == Str(Sentinel))
    ensures !v.Lst? && Resolve(g, obj, props) != Nil ==> Resolve(g, obj, props) == v
  {
  }

  /** A two-segment path through a one-element relation to an attribute
      holding the sentinel reads as `None`. */
  lemma SentinelReadsAsNone(g: KnowledgeGraph, node: string, rel: string, target: string, attr: string)
    requires node in g.nodes && rel in g.nodes[node].attrs
    requires g.nodes[node].attrs[rel] == Lst([Ref(target)])
    requires target in g.nodes && attr in g.nodes[target].attrs
    requires g.nodes[target].attrs[attr] == Str(Sentinel)
    requires '.' !in rel && '.' !in attr
    ensures ResolvePath(g, Ref(node), rel + "." + attr) == Nil
  {
    var props := Split(rel + "." + attr, '.');
    SplitAtSep(rel, '.', attr);
    SplitNoSep(attr, '.');
    assert props == [rel, attr];
    assert Walk(g, Ref(node), props) == Some(Str(Sentinel)) by {
      assert Step(g, Ref(node), rel) == Some(Lst([Ref(target)]));
      assert Step(g, Lst([Ref(target)]), attr) == Some(Str(Sentinel));
      assert props[1..] == [attr];
      assert Walk(g, Str(Sentinel), []) == Some(Str(Sentinel));
      assert Walk(g, Lst([Ref(target)]), [attr]) == Some(Str(Sentinel));
    }
  }
}
