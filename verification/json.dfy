/** JSON values as the field-filtering code sees them at run time, with the
    JavaScript semantics of truthiness, property reads and property writes. */
module Json {
  import opened Wrappers
  import opened Strings

  /** A JavaScript value built from parsed JSON. Arrays may have holes (`None`),
      which arise when an index past the end is written. Objects keep their
      properties in insertion order, the order `Object.keys` reports and
      `JSON.stringify` prints. Numbers are integers here. */
  datatype Json =
    | Null
    | Bool(b: bool)
    | Num(n: int)
    | Str(s: string)
    | Arr(elems: seq<Option<Json>>)
    | Obj(props: seq<(string, Json)>)
  {
    /** Objects and arrays accept property writes; primitives do not. */
    predicate IsContainer()
    {
      Arr? || Obj?
    }
  }

  /** JavaScript truthiness of a possibly `undefined` value. */
  predicate Truthy(v: Option<Json>)
  {
    match v
    case None => false
    case Some(Null) => false
    case Some(Bool(b)) => b
    case Some(Num(n)) => n != 0
    case Some(Str(s)) => s != ""
    case Some(_) => true
  }

  /** The key of the `i`-th element of an array, as a property name. */
  function IndexKey(i: nat): string
  {
    NatToString(i)
  }

  /** The property names of an object. */
  function KeySet(props: seq<(string, Json)>): set<string>
  {
    if |props| == 0 then {} else {props[0].0} + KeySet(props[1..])
  }

  /** No property name occurs twice, as in every object JavaScript builds. */
  predicate UniqueKeys(props: seq<(string, Json)>)
  {
    |props| == 0 || (props[0].0 !in KeySet(props[1..]) && UniqueKeys(props[1..]))
  }

  /** `obj[k]` on a plain object: the first property named `k`. */
  function Lookup(props: seq<(string, Json)>, k: string): (r: Option<Json>)
    ensures r.Some? <==> k in KeySet(props)
    ensures r.Some? ==> exists i :: 0 <= i < |props| && props[i] == (k, r.value)
  {
    if |props| == 0 then None
    else if props[0].0 == k then Some(props[0].1)
    else
      var r := Lookup(props[1..], k);
      assert r.Some? ==> exists i :: 1 <= i < |props| && props[i] == (k, r.value) by {
        if r.Some? {
          var i :| 0 <= i < |props[1..]| && props[1..][i] == (k, r.value);
          assert props[i + 1] == (k, r.value);
        }
      }
      r
  }

  /** `obj[k] = x` on a plain object: an existing key keeps its place, a new key
      goes last. */
  function Put(props: seq<(string, Json)>, k: string, x: Json): (r: seq<(string, Json)>)
    ensures KeySet(r) == KeySet(props) + {k}
    ensures k !in KeySet(props) ==> r == props + [(k, x)]
    ensures k in KeySet(props) ==> |r| == |props|
  {
    if |props| == 0 then [(k, x)]
    else if props[0].0 == k then
      var r := [(k, x)] + props[1..];
      assert r[1..] == props[1..];
      r
    else
      var tail := Put(props[1..], k, x);
      var r := [props[0]] + tail;
      assert r[1..] == tail;
      assert k !in KeySet(props) ==> r == props + [(k, x)] by {
        if k !in KeySet(props) {
          assert tail == props[1..] + [(k, x)];
          assert props == [props[0]] + props[1..];
        }
      }
      r
  }

  /** After `obj[k] = x`, reading `k` gives `x` and every other key reads as
      before; distinct keys stay distinct. */
  lemma {:induction false} PutLookup(props: seq<(string, Json)>, k: string, x: Json)
    ensures Lookup(Put(props, k, x), k) == Some(x)
    ensures forall k' :: k' != k ==> Lookup(Put(props, k, x), k') == Lookup(props, k')
    ensures UniqueKeys(props) ==> UniqueKeys(Put(props, k, x))
  {
    if |props| > 0 {
      var r := Put(props, k, x);
      if props[0].0 != k {
        PutLookup(props[1..], k, x);
        assert r[1..] == Put(props[1..], k, x);
      } else {
        assert r[1..] == props[1..];
      }
    }
  }

  /** The element at index `i`, `undefined` past the end or in a hole. */
  function At(elems: seq<Option<Json>>, i: nat): Option<Json>
  {
    if i < |elems| then elems[i] else None
  }

  /** `arr[i] = x`: writing past the end lengthens the array and leaves holes. */
  function SetIndex(elems: seq<Option<Json>>, i: nat, x: Json): (r: seq<Option<Json>>)
    ensures |r| == if i < |elems| then |elems| else i + 1
    ensures r[i] == Some(x)
    ensures forall j :: 0 <= j < |r| && j != i ==> r[j] == At(elems, j)
  {
    if i < |elems| then elems[i := Some(x)]
    else elems + seq(i - |elems|, _ => None) + [Some(x)]
  }

  /** `v[k]`: objects by name, arrays by canonical index; primitives expose no
      properties. */
  function Get(v: Json, k: string): (r: Option<Json>)
    ensures r.Some? ==> r.value < v
  {
    match v
    case Obj(props) =>
      var r := Lookup(props, k);
      assert r.Some? ==> r.value < v by {
        if r.Some? {
          var i :| 0 <= i < |props| && props[i] == (k, r.value);
        }
      }
      r
    case Arr(elems) =>
      (match ParseIndex(k)
       case Some(i) => At(elems, i)
       case None => None)
    case _ => None
  }

  /** `v[k] = x` on a container. A non-index key written to an array becomes a
      named property that `JSON.stringify` never shows; it is dropped here. */
  function Write(v: Json, k: string, x: Json): (r: Json)
    requires v.IsContainer()
    ensures r.Obj? == v.Obj? && r.Arr? == v.Arr?
  {
    match v
    case Obj(props) => Obj(Put(props, k, x))
    case Arr(elems) =>
      (match ParseIndex(k)
       case Some(i) => Arr(SetIndex(elems, i, x))
       case None => v)
  }

  lemma WriteExtends(v: Json, k: string, x: Json)
    requires v.IsContainer()
    ensures Extends(v, Write(v, k, x))
    ensures v.Obj? ==> Get(Write(v, k, x), k) == Some(x)
  {
    if v.Obj? {
      PutLookup(v.props, k, x);
    }
  }

  /** `v[k] = x` in strict-mode code: writing a property of a primitive throws. */
  function Set(v: Json, k: string, x: Json): (r: Result<Json>)
    ensures r.Ok? <==> v.IsContainer()
    ensures r.Ok? ==> Extends(v, r.value)
    ensures r.Ok? && v.Obj? ==> Get(r.value, k) == Some(x)
  {
    if v.IsContainer() then WriteExtends(v, k, x); Ok(Write(v, k, x)) else TypeError
  }

  /** `Object.assign(t, src)` where `src` is either a plain object or a falsy
      primitive. Assigning onto a primitive works on a temporary wrapper object
      and leaves `t` as it was. */
  function ObjectAssign(t: Json, src: Json): (r: Json)
    ensures Extends(t, r)
  {
    if src.Obj? && t.IsContainer() then AssignProps(t, src.props) else t
  }

  function AssignProps(t: Json, props: seq<(string, Json)>): (r: Json)
    requires t.IsContainer()
    ensures Extends(t, r)
    decreases |props|
  {
    if |props| == 0 then t
    else
      WriteExtends(t, props[0].0, props[0].1);
      AssignProps(Write(t, props[0].0, props[0].1), props[1..])
  }

  /** `after` is `before` with properties added or replaced but none removed:
      an object keeps all its keys, an array keeps at least its length, and a
      primitive is untouched. */
  predicate Extends(before: Json, after: Json)
  {
    match before
    case Obj(p) => after.Obj? && KeySet(p) <= KeySet(after.props) && (UniqueKeys(p) ==> UniqueKeys(after.props))
    case Arr(e) => after.Arr? && |e| <= |after.elems|
    case _ => after == before
  }
}
