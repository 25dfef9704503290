/**
 The strict JSON boundary of the destination evidence: a depth-first walk over an object graph that may
 be cyclic and may share children.  `Walker.Inspect` is the walk with its mutable `active` set; the rest of
 the module says, without the walk, which graphs it accepts.
 */
module EvidenceGraph {

  // ----- the object graph -----------------------------------------------------------------------

  type ObjId = nat

  /** `Foreign` stands for undefined, functions, symbols and big integers. */
  datatype Value =
    | Null
    | Text(text: string)
    | Truth(truth: bool)
    | Number(number: real)
    | NonFinite
    | Foreign
    | Ref(id: ObjId)

  datatype Key = Name(text: string) | Symbol(tag: nat)

  /** One own property with its descriptor.  An accessor with neither getter nor setter reads as
      `Property(_, Foreign, _, false)`: its descriptor carries no getter, no setter and no value. */
  datatype Property = Property(key: Key, value: Value, enumerable: bool, accessor: bool)

  datatype Prototype = ObjectPrototype | NullPrototype | OtherPrototype

  datatype Object = Object(isArray: bool, length: nat, proto: Prototype, properties: seq<Property>)

  type Heap = map<ObjId, Object>

  ghost predicate Closed(h: Heap) {
    forall o, k :: o in h && 0 <= k < |h[o].properties| && h[o].properties[k].value.Ref? ==>
      h[o].properties[k].value.id in h
  }

  ghost predicate InHeap(h: Heap, v: Value) {
    v.Ref? ==> v.id in h
  }

  // ----- what one object must look like ---------------------------------------------------------

  predicate IsDigit(c: char) { '0' <= c <= '9' }

  /** A canonical array index: "0", or digits that do not start with a zero. */
  predicate IsIndexText(s: string) {
    s == "0" || (|s| > 0 && s[0] != '0' && forall i :: 0 <= i < |s| ==> IsDigit(s[i]))
  }

  function DigitsValue(s: string): nat
    requires forall i :: 0 <= i < |s| ==> IsDigit(s[i])
  {
    if s == "" then 0
    else assert IsDigit(s[|s| - 1]); 10 * DigitsValue(s[..|s| - 1]) + (s[|s| - 1] as int - '0' as int)
  }

  predicate IsElementKey(o: Object, key: string) {
    IsIndexText(key) && DigitsValue(key) < o.length
  }

  /** The walk steps over the `length` property of an array. */
  predicate Skipped(o: Object, p: Property) {
    o.isArray && p.key == Name("length")
  }

  predicate PropertyOk(o: Object, p: Property) {
    p.key.Name? && p.key.text != "__proto__" && p.enumerable && !p.accessor
    && (o.isArray ==> IsElementKey(o, p.key.text))
  }

  predicate ShapeOk(o: Object) {
    o.isArray || o.proto != OtherPrototype
  }

  predicate ScalarOk(v: Value) {
    !v.NonFinite? && !v.Foreign?
  }

  /** An object that is acceptable on its own, whatever its children are. */
  predicate LocallyValid(o: Object) {
    ShapeOk(o) &&
    forall k :: 0 <= k < |o.properties| && !Skipped(o, o.properties[k]) ==>
      PropertyOk(o, o.properties[k]) && ScalarOk(o.properties[k].value)
  }

  // ----- the walk, as a function ----------------------------------------------------------------

  ghost predicate Accepts(h: Heap, v: Value, active: set<ObjId>)
    requires Closed(h) && InHeap(h, v) && active <= h.Keys
    decreases h.Keys - active
  {
    if v.Ref? then
      v.id !in active && LocallyValid(h[v.id]) &&
      forall k :: 0 <= k < |h[v.id].properties| && !Skipped(h[v.id], h[v.id].properties[k]) ==>
        Accepts(h, h[v.id].properties[k].value, active + {v.id})
    else
      ScalarOk(v)
  }

  /** The walk itself: `active` holds the objects on the path from the root. */
  class Walker {
    const heap: Heap
    var active: set<ObjId>

    constructor (heap: Heap)
      ensures this.heap == heap && active == {}
    {
      this.heap := heap;
      active := {};
    }

    /** `ok == false` is the thrown CANONICAL_EVIDENCE_JSON_INVALID.  The `active` set is given back on
        both ways out. */
    method Inspect(v: Value) returns (ok: bool)
      requires Closed(heap) && InHeap(heap, v) && active <= heap.Keys
      modifies this
      ensures active == old(active)
      ensures ok == Accepts(heap, v, old(active))
      decreases heap.Keys - active
    {
      if !v.Ref? {
        return ScalarOk(v);
      }
      if v.id in active {
        return false;
      }
      var o := heap[v.id];
      if !ShapeOk(o) {
        return false;
      }
      ghost var path := active + {v.id};
      active := active + {v.id};
      ok := true;
      var k := 0;
      while k < |o.properties| && ok
        invariant 0 <= k <= |o.properties|
        invariant active == path
        invariant ok <==> forall j :: 0 <= j < k && !Skipped(o, o.properties[j]) ==>
          PropertyOk(o, o.properties[j]) && ScalarOk(o.properties[j].value)
          && Accepts(heap, o.properties[j].value, path)
      {
        var p := o.properties[k];
        if !Skipped(o, p) {
          if PropertyOk(o, p) {
            ok := Inspect(p.value);
            assert ok ==> ScalarOk(p.value);
          } else {
            ok := false;
          }
        }
        k := k + 1;
      }
      active := active - {v.id};
    }
  }

  /** The whole check starts with nothing active. */
  method InspectRoot(h: Heap, v: Value) returns (ok: bool)
    requires Closed(h) && InHeap(h, v)
    ensures ok == Acceptable(h, v)
  {
    var w := new Walker(h);
    ok := w.Inspect(v);
    AcceptsIffAcceptable(h, v);
  }

  // ----- which graphs are accepted: reachability ------------------------------------------------

  ghost predicate Edge(h: Heap, a: ObjId, b: ObjId) {
    a in h && exists k :: 0 <= k < |h[a].properties| && !Skipped(h[a], h[a].properties[k])
                          && h[a].properties[k].value == Ref(b)
  }

  ghost predicate IsPath(h: Heap, p: seq<ObjId>) {
    |p| > 0 && (forall i :: 0 <= i < |p| ==> p[i] in h) &&
    forall i :: 0 <= i < |p| - 1 ==> Edge(h, p[i], p[i + 1])
  }

  ghost predicate IsPathBetween(h: Heap, p: seq<ObjId>, a: ObjId, b: ObjId) {
    IsPath(h, p) && p[0] == a && p[|p| - 1] == b
  }

  ghost predicate Reaches(h: Heap, a: ObjId, b: ObjId) {
    exists p :: IsPathBetween(h, p, a, b)
  }

  ghost predicate OnCycle(h: Heap, a: ObjId) {
    exists p :: IsPathBetween(h, p, a, a) && |p| > 1
  }

  /** Every reachable object is valid on its own and no cycle can be reached. */
  ghost predicate Acceptable(h: Heap, v: Value) {
    if v.Ref? then
      forall b :: Reaches(h, v.id, b) ==> b in h && LocallyValid(h[b]) && !OnCycle(h, b)
    else
      ScalarOk(v)
  }

  /** An accepted walk never meets an active object and never meets one object twice on a path. */
  lemma {:induction false} AcceptedPath(h: Heap, p: seq<ObjId>, active: set<ObjId>)
    requires Closed(h) && IsPath(h, p) && active <= h.Keys
    requires Accepts(h, Ref(p[0]), active)
    ensures forall i :: 0 <= i < |p| ==> p[i] !in active && LocallyValid(h[p[i]])
    ensures forall i, j :: 0 <= i < j < |p| ==> p[i] != p[j]
    decreases |p|
  {
    if |p| > 1 {
      var rest := p[1..];
      assert Edge(h, p[0], p[1]);
      assert IsPath(h, rest) by {
        forall i | 0 <= i < |rest| - 1 ensures Edge(h, rest[i], rest[i + 1]) {
          assert Edge(h, p[i + 1], p[i + 2]);
        }
      }
      AcceptedPath(h, rest, active + {p[0]});
      forall i | 0 < i < |p| ensures p[i] !in active && LocallyValid(h[p[i]]) && p[i] != p[0] {
        assert p[i] == rest[i - 1];
      }
      forall i, j | 0 <= i < j < |p| ensures p[i] != p[j] {
        if i > 0 {
          assert p[i] == rest[i - 1] && p[j] == rest[j - 1];
        }
      }
    }
  }

  /** Conversely: if no path from an object is bad or meets the active set, the walk accepts it. */
  lemma {:induction false} GoodPathsAccepted(h: Heap, a: ObjId, active: set<ObjId>)
    requires Closed(h) && a in h && active <= h.Keys
    requires forall b :: Reaches(h, a, b) ==> b !in active && LocallyValid(h[b]) && !OnCycle(h, b)
    ensures Accepts(h, Ref(a), active)
    decreases h.Keys - active
  {
    assert IsPathBetween(h, [a], a, a);
    assert Reaches(h, a, a);
    var o := h[a];
    forall k | 0 <= k < |o.properties| && !Skipped(o, o.properties[k])
      ensures Accepts(h, o.properties[k].value, active + {a})
    {
      var v := o.properties[k].value;
      if v.Ref? {
        assert Edge(h, a, v.id);
        forall b | Reaches(h, v.id, b)
          ensures b !in active + {a} && LocallyValid(h[b]) && !OnCycle(h, b)
        {
          var p :| IsPathBetween(h, p, v.id, b);
          PathPrepend(h, a, p);
          assert IsPathBetween(h, [a] + p, a, b);
          assert b == a ==> OnCycle(h, a);
        }
        GoodPathsAccepted(h, v.id, active + {a});
      }
    }
  }

  lemma PathPrepend(h: Heap, a: ObjId, p: seq<ObjId>)
    requires IsPath(h, p) && Edge(h, a, p[0])
    ensures IsPath(h, [a] + p)
  {
    var q := [a] + p;
    forall i | 0 <= i < |q| - 1 ensures Edge(h, q[i], q[i + 1]) {
      if i > 0 {
        assert q[i] == p[i - 1] && q[i + 1] == p[i];
      }
    }
  }

  lemma PathJoin(h: Heap, p: seq<ObjId>, q: seq<ObjId>)
    requires IsPath(h, p) && IsPath(h, q) && p[|p| - 1] == q[0]
    ensures IsPathBetween(h, p + q[1..], p[0], q[|q| - 1])
    ensures (p + q[1..])[|p| - 1] == p[|p| - 1]
  {
    var r := p + q[1..];
    forall i | 0 <= i < |r| - 1 ensures Edge(h, r[i], r[i + 1]) {
      if i < |p| - 1 {
        assert Edge(h, p[i], p[i + 1]);
      } else {
        assert r[i] == q[i - |p| + 1] && r[i + 1] == q[i - |p| + 2];
      }
    }
  }

  /** Main result: the walk accepts exactly the graphs in which every reachable object is valid on its own
      and from which no cycle can be reached.  Children that are shared but not cyclic are accepted. */
  lemma AcceptsIffAcceptable(h: Heap, v: Value)
    requires Closed(h) && InHeap(h, v)
    ensures Accepts(h, v, {}) <==> Acceptable(h, v)
  {
    if v.Ref? {
      if Accepts(h, v, {}) {
        forall b | Reaches(h, v.id, b)
          ensures b in h && LocallyValid(h[b]) && !OnCycle(h, b)
        {
          var p :| IsPathBetween(h, p, v.id, b);
          AcceptedPath(h, p, {});
          forall c | IsPathBetween(h, c, b, b) && |c| > 1 ensures false {
            PathJoin(h, p, c);
            AcceptedPath(h, p + c[1..], {});
          }
        }
      }
      if Acceptable(h, v) {
        GoodPathsAccepted(h, v.id, {});
      }
    }
  }

  // ----- which graphs are accepted: finite trees ------------------------------------------------

  datatype Json =
    | Scalar(scalar: Value)
    | Node(isArray: bool, fields: seq<Field>)

  datatype Field = Field(name: string, content: Json)

  function Kept(o: Object, ps: seq<Property>): (r: seq<Property>)
    ensures forall k :: 0 <= k < |ps| && !Skipped(o, ps[k]) ==> ps[k] in r
    ensures forall p :: p in r ==> p in ps && !Skipped(o, p)
  {
    if ps == [] then []
    else if Skipped(o, ps[0]) then Kept(o, ps[1..])
    else [ps[0]] + Kept(o, ps[1..])
  }

  function Visible(o: Object): (r: seq<Property>)
    ensures forall k :: 0 <= k < |o.properties| && !Skipped(o, o.properties[k]) ==> o.properties[k] in r
    ensures forall p :: p in r ==> p in o.properties && !Skipped(o, p)
  {
    Kept(o, o.properties)
  }

  /** The value denotes the tree: following every reference from it unfolds to exactly that tree. */
  ghost predicate Denotes(h: Heap, v: Value, t: Json)
    decreases t
  {
    if v.Ref? then
      v.id in h && t.Node? && LocallyValid(h[v.id]) && t.isArray == h[v.id].isArray
      && (var vis := Visible(h[v.id]);
          |t.fields| == |vis| &&
          forall k :: 0 <= k < |vis| ==>
            vis[k].key == Name(t.fields[k].name) && Denotes(h, vis[k].value, t.fields[k].content))
    else
      t == Scalar(v) && ScalarOk(v)
  }

  lemma VisibleAccepted(h: Heap, v: Value, active: set<ObjId>, p: Property)
    requires Closed(h) && InHeap(h, v) && active <= h.Keys && v.Ref?
    requires Accepts(h, v, active) && p in Visible(h[v.id])
    ensures p.key.Name? && InHeap(h, p.value) && v.id !in active && Accepts(h, p.value, active + {v.id})
  {
    var o := h[v.id];
    var j :| 0 <= j < |o.properties| && o.properties[j] == p;
  }

  /** Every accepted value unfolds to some finite tree. */
  lemma {:induction false} Unfold(h: Heap, v: Value, active: set<ObjId>) returns (t: Json)
    requires Closed(h) && InHeap(h, v) && active <= h.Keys
    requires Accepts(h, v, active)
    ensures Denotes(h, v, t)
    decreases h.Keys - active
  {
    if !v.Ref? {
      return Scalar(v);
    }
    var o := h[v.id];
    var vis := Visible(o);
    var fields: seq<Field> := [];
    while |fields| < |vis|
      invariant |fields| <= |vis|
      invariant forall k :: 0 <= k < |fields| ==>
        vis[k].key == Name(fields[k].name) && Denotes(h, vis[k].value, fields[k].content)
    {
      var p := vis[|fields|];
      VisibleAccepted(h, v, active, p);
      var u := Unfold(h, p.value, active + {v.id});
      fields := fields + [Field(p.key.text, u)];
    }
    t := Node(o.isArray, fields);
  }

  lemma {:induction false} DenotationUnique(h: Heap, v: Value, t: Json, u: Json)
    requires Denotes(h, v, t) && Denotes(h, v, u)
    ensures t == u
    decreases t
  {
    if v.Ref? {
      var vis := Visible(h[v.id]);
      forall k | 0 <= k < |vis| ensures t.fields[k] == u.fields[k] {
        DenotationUnique(h, vis[k].value, t.fields[k].content, u.fields[k].content);
      }
      assert t.fields == u.fields;
    }
  }

  ghost function Size(t: Json): nat {
    if t.Node? then 1 + FieldsSize(t.fields) else 1
  }

  ghost function FieldsSize(fs: seq<Field>): nat {
    if fs == [] then 0 else Size(fs[0].content) + FieldsSize(fs[1..])
  }

  lemma FieldSmaller(fs: seq<Field>, k: nat)
    requires k < |fs|
    ensures Size(fs[k].content) <= FieldsSize(fs)
  {
    if k > 0 {
      FieldSmaller(fs[1..], k - 1);
    }
  }

  /** Along a path the denoted trees get strictly smaller. */
  lemma {:induction false} PathDescends(h: Heap, p: seq<ObjId>, t: Json) returns (u: Json)
    requires Closed(h) && IsPath(h, p) && Denotes(h, Ref(p[0]), t)
    ensures Denotes(h, Ref(p[|p| - 1]), u)
    ensures Size(u) + |p| - 1 <= Size(t)
    decreases |p|
  {
    if |p| == 1 {
      return t;
    }
    assert Edge(h, p[0], p[1]);
    var o := h[p[0]];
    var k :| 0 <= k < |o.properties| && !Skipped(o, o.properties[k]) && o.properties[k].value == Ref(p[1]);
    assert o.properties[k] in Visible(o);
    var j :| 0 <= j < |Visible(o)| && Visible(o)[j] == o.properties[k];
    FieldSmaller(t.fields, j);
    var rest := p[1..];
    forall i | 0 <= i < |rest| - 1 ensures Edge(h, rest[i], rest[i + 1]) {
      assert Edge(h, p[i + 1], p[i + 2]);
    }
    u := PathDescends(h, rest, t.fields[j].content);
  }

  /** Second main result: a value is accepted exactly when it unfolds to a finite JSON tree, and that
      tree is the only one it unfolds to. */
  lemma AcceptsIffFiniteTree(h: Heap, v: Value)
    requires Closed(h) && InHeap(h, v)
    ensures Accepts(h, v, {}) <==> exists t :: Denotes(h, v, t)
    ensures forall t, u :: Denotes(h, v, t) && Denotes(h, v, u) ==> t == u
  {
    if Accepts(h, v, {}) {
      var t := Unfold(h, v, {});
      assert Denotes(h, v, t);
    }
    if exists t :: Denotes(h, v, t) {
      var t :| Denotes(h, v, t);
      TreeImpliesAcceptable(h, v, t);
      AcceptsIffAcceptable(h, v);
    }
    forall t, u | Denotes(h, v, t) && Denotes(h, v, u) ensures t == u {
      DenotationUnique(h, v, t, u);
    }
  }

  lemma TreeImpliesAcceptable(h: Heap, v: Value, t: Json)
    requires Closed(h) && InHeap(h, v) && Denotes(h, v, t)
    ensures Acceptable(h, v)
  {
    if v.Ref? {
      forall b | Reaches(h, v.id, b) ensures b in h && LocallyValid(h[b]) && !OnCycle(h, b) {
        var p :| IsPathBetween(h, p, v.id, b);
        var u := PathDescends(h, p, t);
        if OnCycle(h, b) {
          var c :| IsPathBetween(h, c, b, b) && |c| > 1;
          var w := PathDescends(h, c, u);
          DenotationUnique(h, Ref(b), u, w);
        }
      }
    }
  }

  lemma PathTail(h: Heap, p: seq<ObjId>)
    requires IsPath(h, p) && |p| > 1
    ensures IsPath(h, p[1..]) && Edge(h, p[0], p[1])
  {
    assert Edge(h, p[0], p[1]);
    forall i | 0 <= i < |p| - 2 ensures Edge(h, p[1..][i], p[1..][i + 1]) {
      assert Edge(h, p[i + 1], p[i + 2]);
    }
  }

  lemma PathThroughChild(h: Heap, a: ObjId, c: ObjId, b: ObjId)
    requires Edge(h, a, c) && Reaches(h, c, b)
    ensures Reaches(h, a, b) && (b == a ==> OnCycle(h, a))
  {
    var p :| IsPathBetween(h, p, c, b);
    PathPrepend(h, a, p);
    assert IsPathBetween(h, [a] + p, a, b);
  }

  lemma FirstChild(h: Heap, p: seq<ObjId>, a: ObjId, b: ObjId)
    requires IsPathBetween(h, p, a, b) && |p| > 1
    ensures Edge(h, a, p[1]) && Reaches(h, p[1], b)
  {
    PathTail(h, p);
    assert IsPathBetween(h, p[1..], p[1], b);
  }

  lemma AcceptableByChildren(h: Heap, a: ObjId)
    requires Closed(h) && a in h
    ensures Acceptable(h, Ref(a)) <==>
      LocallyValid(h[a]) && forall c :: Edge(h, a, c) ==> Acceptable(h, Ref(c)) && !Reaches(h, c, a)
  {
    assert IsPathBetween(h, [a], a, a);
    if Acceptable(h, Ref(a)) {
      assert LocallyValid(h[a]) && !OnCycle(h, a);
      forall c | Edge(h, a, c) ensures Acceptable(h, Ref(c)) && !Reaches(h, c, a) {
        forall b | Reaches(h, c, b) ensures b in h && LocallyValid(h[b]) && !OnCycle(h, b) && b != a {
          PathThroughChild(h, a, c, b);
        }
      }
    } else {
      var b :| Reaches(h, a, b) && !(b in h && LocallyValid(h[b]) && !OnCycle(h, b));
      var p :| IsPathBetween(h, p, a, b);
      if |p| > 1 {
        FirstChild(h, p, a, b);
      } else if LocallyValid(h[a]) {
        var c :| IsPathBetween(h, c, a, a) && |c| > 1;
        FirstChild(h, c, a, a);
      }
    }
  }

  /** What the walk asks of an object: that it is valid on its own, that each object it points to is accepted when the
      walk starts there, and that none of them leads back.  How often, or from where else, an object is pointed to
      plays no part. */
  lemma SharingNeverRefuses(h: Heap, a: ObjId)
    requires Closed(h) && a in h
    ensures Accepts(h, Ref(a), {}) <==>
      LocallyValid(h[a]) && forall c :: Edge(h, a, c) ==> c in h && Accepts(h, Ref(c), {}) && !Reaches(h, c, a)
  {
    AcceptableByChildren(h, a);
    AcceptsIffAcceptable(h, Ref(a));
    forall c | Edge(h, a, c) ensures c in h && (Accepts(h, Ref(c), {}) <==> Acceptable(h, Ref(c))) {
      AcceptsIffAcceptable(h, Ref(c));
    }
  }

  /** The smallest case: a value whose two fields point to one object is accepted. */
  lemma SharedChildAccepted()
    ensures var child := Object(false, 0, ObjectPrototype, []);
            var both := Object(false, 0, NullPrototype,
              [Property(Name("a"), Ref(1), true, false), Property(Name("b"), Ref(1), true, false)]);
            Accepts(map[0 := both, 1 := child], Ref(0), {})
  {
    var child := Object(false, 0, ObjectPrototype, []);
    var both := Object(false, 0, NullPrototype,
      [Property(Name("a"), Ref(1), true, false), Property(Name("b"), Ref(1), true, false)]);
    var h := map[0 := both, 1 := child];
    assert h[0] == both && h[1] == child;
    assert Accepts(h, Ref(1), {0});
  }

  // ----- the canonical form ---------------------------------------------------------------------

  /** A tree without the order of its fields.  This is what canonical bytes, with their sorted keys, determine. */
  datatype Plain = Leaf(scalar: Value) | Members(isArray: bool, members: map<string, Plain>)

  function Form(t: Json): Plain {
    match t
    case Scalar(scalar) => Leaf(scalar)
    case Node(isArray, fields) => Members(isArray, FormOf(fields))
  }

  function FormOf(fs: seq<Field>): map<string, Plain> {
    if fs == [] then map[] else FormOf(fs[..|fs| - 1])[fs[|fs| - 1].name := Form(fs[|fs| - 1].content)]
  }

  ghost predicate HasForm(h: Heap, v: Value, p: Plain) {
    exists t :: Denotes(h, v, t) && Form(t) == p
  }

  /** Writes out the canonical form of an accepted value. */
  method Canonicalize(h: Heap, v: Value, ghost active: set<ObjId>) returns (p: Plain)
    requires Closed(h) && InHeap(h, v) && active <= h.Keys
    requires Accepts(h, v, active)
    ensures HasForm(h, v, p)
    decreases h.Keys - active
  {
    if !v.Ref? {
      assert Denotes(h, v, Scalar(v)) && Form(Scalar(v)) == Leaf(v);
      return Leaf(v);
    }
    var o := h[v.id];
    var vis := Visible(o);
    var members: map<string, Plain> := map[];
    ghost var fields: seq<Field> := [];
    for k := 0 to |vis|
      invariant |fields| == k && members == FormOf(fields)
      invariant forall j :: 0 <= j < k ==>
        vis[j].key == Name(fields[j].name) && Denotes(h, vis[j].value, fields[j].content)
    {
      var prop := vis[k];
      VisibleAccepted(h, v, active, prop);
      var q := Canonicalize(h, prop.value, active + {v.id});
      ghost var u :| Denotes(h, prop.value, u) && Form(u) == q;
      FormOfNext(fields, Field(prop.key.text, u));
      members := members[prop.key.text := q];
      fields := fields + [Field(prop.key.text, u)];
    }
    ghost var t := Node(o.isArray, fields);
    assert Denotes(h, v, t) && Form(t) == Members(o.isArray, members);
    p := Members(o.isArray, members);
  }

  lemma FormOfNext(fs: seq<Field>, f: Field)
    ensures FormOf(fs + [f]) == FormOf(fs)[f.name := Form(f.content)]
  {
    assert (fs + [f])[..|fs|] == fs;
  }

  /** A value has at most one form. */
  lemma FormUnique(h: Heap, v: Value, p: Plain, q: Plain)
    requires HasForm(h, v, p) && HasForm(h, v, q)
    ensures p == q
  {
    var t :| Denotes(h, v, t) && Form(t) == p;
    var u :| Denotes(h, v, u) && Form(u) == q;
    DenotationUnique(h, v, t, u);
  }

  predicate DistinctNames(fs: seq<Field>) {
    forall i, j :: 0 <= i < j < |fs| ==> fs[i].name != fs[j].name
  }

  lemma {:induction false} FormByName(fs: seq<Field>, name: string)
    requires DistinctNames(fs)
    ensures name in FormOf(fs) <==> exists f :: f in fs && f.name == name
    ensures forall f :: f in fs && f.name == name ==> name in FormOf(fs) && FormOf(fs)[name] == Form(f.content)
  {
    if fs != [] {
      var front, last := fs[..|fs| - 1], fs[|fs| - 1];
      FormByName(front, name);
      assert forall f :: f in fs <==> f in front || f == last;
    }
  }

  /** The order in which the fields of an object come plays no part in its form. */
  lemma RearrangedSameForm(fs: seq<Field>, gs: seq<Field>)
    requires DistinctNames(fs) && DistinctNames(gs) && forall f :: f in fs <==> f in gs
    ensures FormOf(fs) == FormOf(gs)
  {
    forall name ensures name in FormOf(fs) <==> name in FormOf(gs) {
      FormByName(fs, name);
      FormByName(gs, name);
    }
    forall name | name in FormOf(fs) ensures FormOf(fs)[name] == FormOf(gs)[name] {
      FormByName(fs, name);
      FormByName(gs, name);
    }
  }
}
