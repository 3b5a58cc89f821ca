/**
 * The read-only course knowledge graph the webhook queries. Individuals are
 * named by the fragment of their IRI; each holds the values of its
 * properties by name. A property present in `attrs` is one `hasattr` sees;
 * a multi-valued property holds a `Lst`, an empty single-valued one `Nil`.
 */
module Graph {
  import opened Wrappers
  import opened Text
  import opened Lists

  /** What reading a property of an individual gives back in Python. */
  datatype Value =
    | Nil                       // None
    | Str(s: string)
    | Int(i: int)
    | Ref(id: string)           // an individual of the graph
    | Lst(items: seq<Value>)    // a multi-valued property

  datatype Individual = Individual(kind: string, attrs: map<string, Value>)

  /** `nodes` by name; `order` is the order in which a search visits them. */
  datatype KnowledgeGraph = KnowledgeGraph(nodes: map<string, Individual>, order: seq<string>)

  /** The sentinel stored for an absent optional attribute. */
  const Sentinel := "NA"

  /** Python truthiness of a value. */
  predicate Truthy(v: Value) {
    match v
    case Nil => false
    case Str(s) => s != []
    case Int(i) => i != 0
    case Ref(_) => true
    case Lst(xs) => xs != []
  }

  /** `getattr(v, name)` when `hasattr(v, name)`; `None` otherwise. */
  function Lookup(g: KnowledgeGraph, v: Value, name: string): (r: Option<Value>)
    ensures r.Some? <==> v.Ref? && v.id in g.nodes && name in g.nodes[v.id].attrs
  {
    if v.Ref? && v.id in g.nodes && name in g.nodes[v.id].attrs
    then Some(g.nodes[v.id].attrs[name]) else None
  }

  /** A direct read `v.name` of a property of the schema. */
  function Attr(g: KnowledgeGraph, v: Value, name: string): Value {
    Lookup(g, v, name).GetOr(Nil)
  }

  /** The elements a `for` loop visits in a multi-valued property. */
  function Items(v: Value): seq<Value> {
    if v.Lst? then v.items else []
  }

  /** `v[0]`, with an empty or missing list giving `None`. */
  function First(v: Value): (r: Value)
    ensures Items(v) != [] ==> r == Items(v)[0]
  {
    if Items(v) != [] then Items(v)[0] else Nil
  }

  /** `v.name`: the name of an individual. */
  function Name(v: Value): string {
    if v.Ref? then v.id else ""
  }

  /** `str(v)`, as an f-string renders a value. */
  function Render(v: Value): string
    decreases v, 0
  {
    match v
    case Nil => "None"
    case Str(s) => s
    case Int(i) => IntToString(i)
    case Ref(id) => id
    case Lst(xs) => "[" + Join(", ", seq(|xs|, k requires 0 <= k < |xs| => Repr(xs[k]))) + "]"
  }

  /** `repr(v)`, as a list renders its elements. */
  function Repr(v: Value): string
    decreases v, 1
  {
    if v.Str? then "'" + v.s + "'" else Render(v)
  }

  /** The texts of values that must all be strings, as `str.join` demands;
      `None` when one of them is not (a `TypeError`). */
  function Texts(vs: seq<Value>): (r: Option<seq<string>>)
    ensures r.Some? <==> forall k | 0 <= k < |vs| :: vs[k].Str?
    ensures r.Some? ==> |r.value| == |vs| && forall k | 0 <= k < |vs| :: r.value[k] == vs[k].s
  {
    if forall k | 0 <= k < |vs| :: vs[k].Str?
    then Some(seq(|vs|, k requires 0 <= k < |vs| => vs[k].s)) else None
  }

  /** `int(v)`: an integer, or a string `int()` accepts; anything else raises. */
  function ToInt(v: Value): Option<int> {
    match v
    case Int(i) => Some(i)
    case Str(s) => ParseInt(s)
    case _ => None
  }

  /** A string value converts as `int()` reads it: the decimal text of any
      integer gives that integer, and one underscore between two digits is
      accepted ("1_0" is 10). */
  lemma ToIntText(i: int, a: char, b: char)
    requires IsDigit(a) && IsDigit(b)
    ensures ToInt(Str(IntToString(i))) == Some(i)
    ensures ToInt(Str([a, '_', b])) == Some(DigitValue(a) * 10 + DigitValue(b))
  {
    ParseIntOfIntToString(i);
    ParseIntUnderscore(a, b);
  }

  /** Whether a property value holds the string `s` (what a search by value matches). */
  predicate HoldsText(v: Value, s: string) {
    v == Str(s) || (v.Lst? && Str(s) in v.items)
  }

  /** `onto.search(iri=f"*#{id}")`, first result. */
  function FindById(g: KnowledgeGraph, id: string): (r: Option<Value>)
    ensures r.Some? <==> id in g.nodes
    ensures r.Some? ==> r.value == Ref(id)
  {
    if id in g.nodes then Some(Ref(id)) else None
  }

  /** `next(iter(onto.search(<name>=value)), None)`: the first individual, in
      search order, whose property `name` holds `value`. */
  function FindByValue(g: KnowledgeGraph, name: string, value: string): (r: Option<Value>)
    ensures r.Some? ==> exists k | 0 <= k < |g.order| ::
      r.value == Ref(g.order[k]) && HoldsText(Attr(g, Ref(g.order[k]), name), value)
      && forall j | 0 <= j < k :: !HoldsText(Attr(g, Ref(g.order[j]), name), value)
    ensures r.None? <==> forall k | 0 <= k < |g.order| :: !HoldsText(Attr(g, Ref(g.order[k]), name), value)
  {
    match FirstIndex(g.order, id => HoldsText(Attr(g, Ref(id), name), value))
    case None => None
    case Some(k) => Some(Ref(g.order[k]))
  }

  /** `onto.search(type=...)`: every individual of a kind, in search order. */
  function OfKind(g: KnowledgeGraph, kind: string): seq<Value> {
    FilterMap(g.order, id => id in g.nodes && g.nodes[id].kind == kind, id => Ref(id))
  }
}
