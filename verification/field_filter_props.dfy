/** What `filterFields` and `parseFieldPaths` do, stated over all inputs. */
module FieldFilterProps {
  import opened Wrappers
  import opened Strings
  import opened Json
  import opened JsonLemmas
  import opened FieldFilter

  /** A segment of a dotted path: it contains no '.'. */
  predicate IsSegment(s: string)
  {
    '.' !in s
  }

  /** A dotted string whose pieces are separator-free is walked piece by piece. */
  lemma DottedSegments(parts: seq<string>)
    requires |parts| >= 1
    requires forall i :: 0 <= i < |parts| ==> IsSegment(parts[i])
    ensures Segments(Dotted(Join(parts, '.'))) == parts
  {
    SplitJoin(parts, '.');
  }

  lemma TwoSegments(a: string, b: string)
    requires IsSegment(a) && IsSegment(b)
    ensures Segments(Dotted(a + "." + b)) == [a, b]
  {
    assert Join([a, b], '.') == a + "." + b;
    DottedSegments([a, b]);
  }

  lemma ThreeSegments(a: string, b: string, c: string)
    requires IsSegment(a) && IsSegment(b) && IsSegment(c)
    ensures Segments(Dotted(a + "." + b + "." + c)) == [a, b, c]
  {
    assert [a, b, c][1..] == [b, c];
    assert Join([b, c], '.') == b + "." + c;
    assert Join([a, b, c], '.') == a + "." + b + "." + c;
    DottedSegments([a, b, c]);
  }

  /** A single field is one walk of its segments. */
  lemma OneField(data: Json, f: FieldPath, result: Json)
    ensures ApplyFields(data, [f], result) == ApplyPath(data, result, Segments(f))
  {
    var r := ApplyPath(data, result, Segments(f));
    if r.Ok? {
      assert ApplyFields(data, [f], result) == ApplyFields(data, [], r.value);
    }
  }

  /** Two fields are two walks, the second over the output of the first. */
  lemma TwoFields(data: Json, f: FieldPath, g: FieldPath, result: Json)
    ensures ApplyFields(data, [f, g], result)
         == match ApplyPath(data, result, Segments(f))
            case TypeError => TypeError
            case Ok(r) => ApplyPath(data, r, Segments(g))
  {
    assert [f, g][1..] == [g];
    var r := ApplyPath(data, result, Segments(f));
    if r.Ok? {
      OneField(data, g, r.value);
    }
  }

  /** A two-segment walk through a truthy property. */
  lemma DescendOnce(current: Json, target: Json, k: string, last: string)
    requires k != Wildcard && Truthy(Get(current, k))
    ensures
      var next := Get(current, k).value;
      var existing := Get(target, k);
      var sub := if Truthy(existing) then existing.value else EmptyLike(next);
      ApplyPath(current, target, [k, last])
      == match Terminal(next, sub, last)
         case TypeError => TypeError
         case Ok(sub') => Set(target, k, sub')
  {
    assert [k, last][1..] == [last];
  }

  /** A one-segment path on an object copies the property whenever it is
      defined, `null`, `0`, `false` and `""` included, and gives `{}` when it
      is not. */
  lemma TerminalObjectKey(p: seq<(string, Json)>, key: string)
    requires IsSegment(key)
    ensures FilterFields(Obj(p), [Dotted(key)])
         == Ok(Obj(if key in KeySet(p) then [(key, Lookup(p, key).value)] else []))
  {
    SplitFree(key, '.');
    var v := Lookup(p, key);
    var r := Terminal(Obj(p), Obj([]), key);
    assert r == if v.None? then Ok(Obj([])) else Set(Obj([]), key, v.value);
    assert ApplyPath(Obj(p), Obj([]), [key]) == r;
    assert r.Ok?;
    assert ApplyFields(Obj(p), [Dotted(key)], Obj([])) == ApplyFields(Obj(p), [], r.value);
  }

  /** Some element of the array is `null`. */
  predicate HasNullItem(items: seq<Option<Json>>)
  {
    exists j :: 0 <= j < |items| && items[j] == Some(Null)
  }

  /** What the terminal array branch puts in output slot `j` when that slot
      starts empty: `{key: item[key]}` if the element defines `key`, else a hole. */
  function CopiedSlot(items: seq<Option<Json>>, key: string, j: nat): Option<Json>
  {
    if j < |items| && items[j].Some? && Get(items[j].value, key).Some?
    then Some(Obj([(key, Get(items[j].value, key).value)]))
    else None
  }

  /** The terminal array branch from slot `i` on, when no slot from `i` on has
      been written: it throws exactly when an element from `i` on is `null`,
      and otherwise fills each slot as `CopiedSlot` says. */
  lemma CopyIntoFreshSlots(items: seq<Option<Json>>, out: seq<Option<Json>>, key: string, i: nat)
    requires |out| <= i
    ensures CopyKeyFromItems(items, out, key, i).TypeError?
        <==> exists j :: i <= j < |items| && items[j] == Some(Null)
    ensures CopyKeyFromItems(items, out, key, i).Ok? ==>
      var r := CopyKeyFromItems(items, out, key, i).value;
      && |r| <= (if |out| < |items| then |items| else |out|)
      && forall j: nat :: At(r, j) == (if j < i then At(out, j) else CopiedSlot(items, key, j))
  {
    CopyThrows(items, out, key, i);
    CopyFills(items, out, key, i);
  }

  lemma {:induction false} CopyThrows(items: seq<Option<Json>>, out: seq<Option<Json>>, key: string, i: nat)
    requires |out| <= i
    ensures CopyKeyFromItems(items, out, key, i).TypeError?
        <==> exists j :: i <= j < |items| && items[j] == Some(Null)
    decreases |items| - i
  {
    if i < |items| {
      match items[i]
      case None =>
        CopyThrows(items, out, key, i + 1);
      case Some(item) =>
        if !item.Null? {
          var v := Get(item, key);
          if v.None? {
            CopyThrows(items, out, key, i + 1);
          } else {
            CopyStep(items, out, key, i);
            CopyThrows(items, SetIndex(out, i, Obj([(key, v.value)])), key, i + 1);
          }
        }
    }
  }

  lemma {:induction false} CopyFills(items: seq<Option<Json>>, out: seq<Option<Json>>, key: string, i: nat)
    requires |out| <= i
    ensures CopyKeyFromItems(items, out, key, i).Ok? ==>
      var r := CopyKeyFromItems(items, out, key, i).value;
      && |r| <= (if |out| < |items| then |items| else |out|)
      && forall j: nat :: At(r, j) == (if j < i then At(out, j) else CopiedSlot(items, key, j))
    decreases |items| - i
  {
    if i < |items| {
      match items[i]
      case None =>
        CopyFills(items, out, key, i + 1);
      case Some(item) =>
        if !item.Null? {
          var v := Get(item, key);
          if v.None? {
            CopyFills(items, out, key, i + 1);
          } else {
            var out' := SetIndex(out, i, Obj([(key, v.value)]));
            CopyStep(items, out, key, i);
            CopyFills(items, out', key, i + 1);
          }
        }
    }
  }

  /** One defined `item[key]` at a fresh slot `i`: the slot becomes `{key: item[key]}`
      and the slots before it are kept. */
  lemma CopyStep(items: seq<Option<Json>>, out: seq<Option<Json>>, key: string, i: nat)
    requires |out| <= i < |items| && items[i].Some? && !items[i].value.Null?
    requires Get(items[i].value, key).Some?
    ensures var out' := SetIndex(out, i, Obj([(key, Get(items[i].value, key).value)]));
      && CopyKeyFromItems(items, out, key, i) == CopyKeyFromItems(items, out', key, i + 1)
      && |out'| == i + 1
      && forall j: nat :: At(out', j) == (if j < i then At(out, j) else if j == i then CopiedSlot(items, key, i) else None)
  {
    var v := Get(items[i].value, key).value;
    assert At(out, i) == None;
    assert Set(Obj([]), key, v) == Ok(Obj([(key, v)]));
  }

  /** A top-level array with a single-segment path: the terminal branch builds
      its output in an array that is never attached, so the result is `{}`,
      unless an element is `null`, which throws. */
  lemma TopLevelArraySingleSegment(items: seq<Option<Json>>, key: string)
    requires IsSegment(key)
    ensures FilterFields(Arr(items), [Dotted(key)])
         == if key != Wildcard && HasNullItem(items) then TypeError else Ok(Obj([]))
  {
    SplitFree(key, '.');
    var r := Terminal(Arr(items), Obj([]), key);
    if key != Wildcard {
      CopyIntoFreshSlots(items, [], key, 0);
      assert r == if HasNullItem(items) then TypeError else Ok(Obj([]));
    } else {
      assert r == Ok(Obj([]));
    }
    assert ApplyPath(Arr(items), Obj([]), [key]) == r;
    if r.Ok? {
      assert ApplyFields(Arr(items), [Dotted(key)], Obj([])) == ApplyFields(Arr(items), [], r.value);
    }
  }

  /** A missing or falsy value at an intermediate segment abandons the field,
      but the output container made for the segments before it stays:
      "a.b.c" with nothing truthy at `a.b` gives `{a: {}}` (or `{a: []}` when
      `a` is an array). */
  lemma MissingIntermediateKeepsContainer(p: seq<(string, Json)>, a: string, b: string, c: string)
    requires IsSegment(a) && IsSegment(b) && IsSegment(c)
    requires a != Wildcard && b != Wildcard
    requires Truthy(Lookup(p, a)) && !Truthy(Get(Lookup(p, a).value, b))
    ensures FilterFields(Obj(p), [Dotted(a + "." + b + "." + c)])
         == Ok(Obj([(a, EmptyLike(Lookup(p, a).value))]))
  {
    ThreeSegments(a, b, c);
    var v := Lookup(p, a).value;
    assert ApplyPath(v, EmptyLike(v), [a, b, c][1..]) == Ok(EmptyLike(v));
    var r := ApplyPath(Obj(p), Obj([]), [a, b, c]);
    assert r == Set(Obj([]), a, EmptyLike(v));
    assert ApplyFields(Obj(p), [Dotted(a + "." + b + "." + c)], Obj([])) == ApplyFields(Obj(p), [], r.value);
  }

  /** Two paths through the same object share its output container: "k.x" and
      "k.y" give `{k: {x, y}}`, in that order. */
  lemma SharedPrefixMerges(p: seq<(string, Json)>, k: string, x: string, y: string)
    requires IsSegment(k) && IsSegment(x) && IsSegment(y)
    requires k != Wildcard && x != y
    requires Lookup(p, k).Some? && Lookup(p, k).value.Obj?
    requires x in KeySet(Lookup(p, k).value.props) && y in KeySet(Lookup(p, k).value.props)
    ensures var q := Lookup(p, k).value.props;
      FilterFields(Obj(p), [Dotted(k + "." + x), Dotted(k + "." + y)])
      == Ok(Obj([(k, Obj([(x, Lookup(q, x).value), (y, Lookup(q, y).value)]))]))
  {
    var q := Lookup(p, k).value.props;
    var vx := Lookup(q, x).value;
    var vy := Lookup(q, y).value;
    TwoSegments(k, x);
    TwoSegments(k, y);
    TwoFields(Obj(p), Dotted(k + "." + x), Dotted(k + "." + y), Obj([]));
    var first := Obj([(x, vx)]);
    var both := Obj([(x, vx), (y, vy)]);
    DescendOnce(Obj(p), Obj([]), k, x);
    assert Terminal(Obj(q), Obj([]), x) == Ok(first);
    assert ApplyPath(Obj(p), Obj([]), [k, x]) == Ok(Obj([(k, first)]));
    DescendOnce(Obj(p), Obj([(k, first)]), k, y);
    assert Get(Obj([(k, first)]), k) == Some(first);
    assert Put([(x, vx)], y, vy) == [(x, vx), (y, vy)];
    assert Terminal(Obj(q), first, y) == Ok(both);
    assert Put([(k, first)], k, both) == [(k, both)];
  }

  /** A terminal '*' over an array appends all of its elements to the output
      array, so listing the field twice lists every element twice. */
  lemma TerminalWildcardAppends(p: seq<(string, Json)>, a: string)
    requires IsSegment(a) && a != Wildcard
    requires Lookup(p, a).Some? && Lookup(p, a).value.Arr?
    ensures var e := Lookup(p, a).value.elems;
      && FilterFields(Obj(p), [Dotted(a + ".*")]) == Ok(Obj([(a, Arr(e))]))
      && FilterFields(Obj(p), [Dotted(a + ".*"), Dotted(a + ".*")]) == Ok(Obj([(a, Arr(e + e))]))
  {
    var e := Lookup(p, a).value.elems;
    assert a + "." + Wildcard == a + ".*";
    TwoSegments(a, Wildcard);
    OneField(Obj(p), Dotted(a + ".*"), Obj([]));
    TwoFields(Obj(p), Dotted(a + ".*"), Dotted(a + ".*"), Obj([]));
    DescendOnce(Obj(p), Obj([]), a, Wildcard);
    assert [] + e == e;
    assert Terminal(Arr(e), Arr([]), Wildcard) == Ok(Arr(e));
    assert ApplyPath(Obj(p), Obj([]), [a, Wildcard]) == Ok(Obj([(a, Arr(e))]));
    DescendOnce(Obj(p), Obj([(a, Arr(e))]), a, Wildcard);
    assert Get(Obj([(a, Arr(e))]), a) == Some(Arr(e));
    assert Terminal(Arr(e), Arr(e), Wildcard) == Ok(Arr(e + e));
    assert Put([(a, Arr(e))], a, Arr(e + e)) == [(a, Arr(e + e))];
  }

  /** Projecting twice by the same fields need not give the first projection
      back: "a.*" listed twice doubles the array again on the second pass. */
  lemma ProjectionNotIdempotent()
    ensures var d := Obj([("a", Arr([Some(Num(1))]))]);
      var fields := [Dotted("a.*"), Dotted("a.*")];
      && FilterFields(d, fields) == Ok(Obj([("a", Arr([Some(Num(1)), Some(Num(1))]))]))
      && FilterFields(FilterFields(d, fields).value, fields)
         == Ok(Obj([("a", Arr([Some(Num(1)), Some(Num(1)), Some(Num(1)), Some(Num(1))]))]))
  {
    var one := [Some(Num(1))];
    var two := one + one;
    assert two == [Some(Num(1)), Some(Num(1))];
    assert two + two == [Some(Num(1)), Some(Num(1)), Some(Num(1)), Some(Num(1))];
    DoubledWildcard(one);
    DoubledWildcard(two);
  }

  /** Listing `a.*` twice doubles the array under `a`. */
  lemma DoubledWildcard(xs: seq<Option<Json>>)
    ensures FilterFields(Obj([("a", Arr(xs))]), [Dotted("a.*"), Dotted("a.*")]) == Ok(Obj([("a", Arr(xs + xs))]))
  {
    assert "a" + ".*" == "a.*";
    TerminalWildcardAppends([("a", Arr(xs))], "a");
  }


  /** A bracket path `[base, index]` is walked exactly like the dotted string
      "base.index" when neither part contains a '.'. */
  lemma BracketWalksLikeDotted(base: string, index: string)
    requires IsSegment(base) && IsSegment(index)
    ensures Segments(Bracket(base, index)) == Segments(Dotted(base + "." + index))
  {
    TwoSegments(base, index);
  }

  /** Only the segments of each path matter to the projection. */
  lemma SameSegmentsSameResult(data: Json, f1: seq<FieldPath>, f2: seq<FieldPath>)
    requires |f1| == |f2|
    requires forall i :: 0 <= i < |f1| ==> Segments(f1[i]) == Segments(f2[i])
    ensures FilterFields(data, f1) == FilterFields(data, f2)
  {
    SameSegmentsFrom(data, f1, f2, Obj([]));
  }

  lemma {:induction false} SameSegmentsFrom(data: Json, f1: seq<FieldPath>, f2: seq<FieldPath>, result: Json)
    requires |f1| == |f2|
    requires forall i :: 0 <= i < |f1| ==> Segments(f1[i]) == Segments(f2[i])
    ensures ApplyFields(data, f1, result) == ApplyFields(data, f2, result)
    decreases |f1|
  {
    if |f1| > 0 {
      var r := ApplyPath(data, result, Segments(f1[0]));
      if r.Ok? {
        SameSegmentsFrom(data, f1[1..], f2[1..], r.value);
      }
    }
  }

  /** Applying `fs + gs` is applying `fs`, then `gs` to what `fs` built; an
      error in either discards everything. */
  lemma {:induction false} ApplyFieldsAppend(data: Json, fs: seq<FieldPath>, gs: seq<FieldPath>, result: Json)
    ensures ApplyFields(data, fs + gs, result)
         == match ApplyFields(data, fs, result)
            case TypeError => TypeError
            case Ok(r) => ApplyFields(data, gs, r)
    decreases |fs|
  {
    if |fs| == 0 {
      assert fs + gs == gs;
    } else {
      assert (fs + gs)[0] == fs[0];
      assert (fs + gs)[1..] == fs[1..] + gs;
      var r := ApplyPath(data, result, Segments(fs[0]));
      if r.Ok? {
        ApplyFieldsAppend(data, fs[1..], gs, r.value);
      }
    }
  }

  /** Later fields only add to the result: every key the first fields produced
      is still there after more fields are applied, and an error the first
      fields raise is still raised. */
  lemma LaterFieldsOnlyAdd(data: Json, fs: seq<FieldPath>, gs: seq<FieldPath>)
    requires Truthy(Some(data)) && |fs| > 0
    ensures FilterFields(data, fs).TypeError? ==> FilterFields(data, fs + gs).TypeError?
    ensures FilterFields(data, fs).Ok? && FilterFields(data, fs + gs).Ok? ==>
      KeySet(FilterFields(data, fs).value.props) <= KeySet(FilterFields(data, fs + gs).value.props)
  {
    ApplyFieldsAppend(data, fs, gs, Obj([]));
  }

  /** A terminal key over an array reached by a non-wildcard segment: output
      slot `j` holds `{key: item[key]}` for each element that defines `key` and
      is a hole otherwise; a `null` element throws. */
  lemma TerminalKeyOverArray(p: seq<(string, Json)>, a: string, key: string)
    requires IsSegment(a) && IsSegment(key) && a != Wildcard && key != Wildcard
    requires Lookup(p, a).Some? && Lookup(p, a).value.Arr?
    ensures var e := Lookup(p, a).value.elems;
      var r := FilterFields(Obj(p), [Dotted(a + "." + key)]);
      && (r.TypeError? <==> HasNullItem(e))
      && (r.Ok? ==>
            && |r.value.props| == 1 && r.value.props[0].0 == a && r.value.props[0].1.Arr?
            && |r.value.props[0].1.elems| <= |e|
            && forall j: nat :: At(r.value.props[0].1.elems, j) == CopiedSlot(e, key, j))
  {
    var e := Lookup(p, a).value.elems;
    TwoSegments(a, key);
    OneField(Obj(p), Dotted(a + "." + key), Obj([]));
    DescendOnce(Obj(p), Obj([]), a, key);
    CopyIntoFreshSlots(e, [], key, 0);
    var c := CopyKeyFromItems(e, [], key, 0);
    assert Terminal(Arr(e), Arr([]), key) == if c.Ok? then Ok(Arr(c.value)) else TypeError;
  }

  /** What an intermediate '*' over an array puts in output slot `j` when that
      slot starts empty: the nested result for element `j` if it is an object,
      `{}` if the element is falsy, a hole if there is no element. */
  function MergedSlot(items: seq<Option<Json>>, rest: string, j: nat): Option<Json>
  {
    if j < |items| && items[j].Some? && FilterFields(items[j].value, [Dotted(rest)]).Ok?
    then Some(AsObject(FilterFields(items[j].value, [Dotted(rest)]).value))
    else None
  }

  /** A nested `filterFields` result has distinct keys whenever it is an object. */
  lemma NestedResultKeys(item: Json, rest: string)
    ensures FilterFields(item, [Dotted(rest)]).Ok? && FilterFields(item, [Dotted(rest)]).value.Obj?
            ==> UniqueKeys(FilterFields(item, [Dotted(rest)]).value.props)
  {
  }

  lemma {:induction false} WildcardIntoFreshArray(current: Json, out: seq<Option<Json>>, rest: string, i: nat)
    requires current.Arr? && |out| <= i
    ensures var r := WildcardOverArray(current, Arr(out), rest, i);
      && (r.TypeError? <==> exists j :: i <= j < |current.elems| && current.elems[j].Some?
                                      && FilterFields(current.elems[j].value, [Dotted(rest)]).TypeError?)
      && (r.Ok? ==>
            && r.value.Arr?
            && |r.value.elems| <= (if |out| < |current.elems| then |current.elems| else |out|)
            && forall j: nat :: At(r.value.elems, j) == (if j < i then At(out, j) else MergedSlot(current.elems, rest, j)))
    decreases |current.elems| - i
  {
    var e := current.elems;
    if i < |e| {
      match e[i]
      case None =>
        WildcardIntoFreshArray(current, out, rest, i + 1);
      case Some(item) =>
        var n := FilterFields(item, [Dotted(rest)]);
        if n.Ok? {
          IndexKeyRoundTrip(i, "");
          assert Get(Arr(out), IndexKey(i)) == None;
          NestedResultKeys(item, rest);
          AssignIntoEmpty(n.value);
          var out' := SetIndex(out, i, AsObject(n.value));
          assert MergeInto(Arr(out), IndexKey(i), n) == Ok(Arr(out'));
          WildcardIntoFreshArray(current, out', rest, i + 1);
        }
    }
  }

  /** The segments of "a.*.rest". */
  lemma WildcardSegments(a: string, rest: string)
    requires IsSegment(a)
    ensures Segments(Dotted(a + ".*." + rest)) == [a, Wildcard] + Split(rest, '.')
  {
    var tail := Wildcard + ['.'] + rest;
    assert a + ".*." + rest == a + ['.'] + tail;
    SplitCons(a, tail, '.');
    SplitCons(Wildcard, rest, '.');
  }


  /** A walk "a.*.rest" in which `a` is present and truthy, up to the wildcard. */
  lemma WildcardWalk(p: seq<(string, Json)>, a: string, rest: string)
    requires IsSegment(a) && a != Wildcard && Truthy(Lookup(p, a))
    ensures var v := Lookup(p, a).value;
      FilterFields(Obj(p), [Dotted(a + ".*." + rest)])
      == match ApplyPath(v, EmptyLike(v), [Wildcard] + Split(rest, '.'))
         case TypeError => TypeError
         case Ok(sub') => Set(Obj([]), a, sub')
  {
    WildcardSegments(a, rest);
    var path := [a, Wildcard] + Split(rest, '.');
    OneField(Obj(p), Dotted(a + ".*." + rest), Obj([]));
    assert path[1..] == [Wildcard] + Split(rest, '.');
  }

  /** "a.*.rest" with a container under `a`: the output is `{a: w}` where `w`
      is the wildcard loop over that container into a fresh one. */
  lemma WildcardEquation(p: seq<(string, Json)>, a: string, rest: string)
    requires IsSegment(a) && a != Wildcard
    requires Lookup(p, a).Some? && Lookup(p, a).value.IsContainer()
    ensures var v := Lookup(p, a).value;
      var w := if v.Arr? then WildcardOverArray(v, Arr([]), rest, 0) else WildcardOverObject(v, Obj([]), rest, 0);
      FilterFields(Obj(p), [Dotted(a + ".*." + rest)])
      == match w case TypeError => TypeError case Ok(o) => Ok(Obj([(a, o)]))
  {
    var v := Lookup(p, a).value;
    WildcardWalk(p, a, rest);
    var path := [Wildcard] + Split(rest, '.');
    assert path[1..] == Split(rest, '.');
    assert Join(path[1..], '.') == rest;
    assert ApplyPath(v, EmptyLike(v), path)
        == if v.Arr? then WildcardOverArray(v, Arr([]), rest, 0) else WildcardOverObject(v, Obj([]), rest, 0);
  }

  /** An intermediate '*' over an array: output slot `j` is the nested result of
      the rest of the path applied to element `j` (`{}` when that is not an
      object), the output has no more slots than the input, and a dense input
      gives an output of the same length. An error in any nested call is an
      error of the whole. */
  lemma WildcardOverArrayPerElement(p: seq<(string, Json)>, a: string, rest: string)
    requires IsSegment(a) && a != Wildcard
    requires Lookup(p, a).Some? && Lookup(p, a).value.Arr?
    ensures var e := Lookup(p, a).value.elems;
      var r := FilterFields(Obj(p), [Dotted(a + ".*." + rest)]);
      && (r.TypeError? <==> exists j :: 0 <= j < |e| && e[j].Some? && FilterFields(e[j].value, [Dotted(rest)]).TypeError?)
      && (r.Ok? ==>
            && |r.value.props| == 1 && r.value.props[0].0 == a && r.value.props[0].1.Arr?
            && |r.value.props[0].1.elems| <= |e|
            && (forall j: nat :: At(r.value.props[0].1.elems, j) == MergedSlot(e, rest, j))
            && ((forall j :: 0 <= j < |e| ==> e[j].Some?) ==> |r.value.props[0].1.elems| == |e|))
  {
    var e := Lookup(p, a).value.elems;
    WildcardEquation(p, a, rest);
    WildcardIntoFreshArray(Arr(e), [], rest, 0);
    var w := WildcardOverArray(Arr(e), Arr([]), rest, 0);
    if w.Ok? && (forall j :: 0 <= j < |e| ==> e[j].Some?) && |e| > 0 {
      assert MergedSlot(e, rest, |e| - 1).Some?;
      assert At(w.value.elems, |e| - 1).Some?;
    }
  }

  /** In an object with distinct keys, the `i`-th key is not among those of an
      output that holds exactly the keys before it. */
  lemma FreshKeyAt(q: seq<(string, Json)>, acc: seq<(string, Json)>, i: nat)
    requires UniqueKeys(q) && i < |q|
    requires |acc| == i && forall j :: 0 <= j < i ==> acc[j].0 == q[j].0
    ensures q[i].0 !in KeySet(acc)
  {
    SameNamesSameKeys(acc, q[..i]);
    UniqueAt(q, i);
  }

  /** Merging a nested result under a key the output lacks appends the key
      with that result as an object. */
  lemma NestedMergeFresh(item: Json, acc: seq<(string, Json)>, rest: string, key: string)
    requires key !in KeySet(acc)
    requires FilterFields(item, [Dotted(rest)]).Ok?
    ensures MergeInto(Obj(acc), key, FilterFields(item, [Dotted(rest)]))
         == Ok(Obj(acc + [(key, AsObject(FilterFields(item, [Dotted(rest)]).value))]))
  {
    var n := FilterFields(item, [Dotted(rest)]).value;
    NestedResultKeys(item, rest);
    AssignIntoEmpty(n);
    FreshMerge(acc, key, n);
  }

  lemma FreshMerge(acc: seq<(string, Json)>, key: string, n: Json)
    requires key !in KeySet(acc)
    requires ObjectAssign(Obj([]), n) == AsObject(n)
    ensures MergeInto(Obj(acc), key, Ok(n)) == Ok(Obj(acc + [(key, AsObject(n))]))
  {
    assert Get(Obj(acc), key) == None;
  }

  lemma PrefixOfExtended(ps: seq<(string, Json)>, acc: seq<(string, Json)>, k: string, x: Json)
    requires |acc| < |ps| && ps[..|acc| + 1] == acc + [(k, x)]
    ensures ps[..|acc|] == acc && ps[|acc|] == (k, x)
  {
    assert ps[..|acc|] == ps[..|acc| + 1][..|acc|];
    assert ps[|acc|] == ps[..|acc| + 1][|acc|];
  }

  /** The properties '*' over an object should produce when its output starts
      without any of its keys: each key with the nested result of the rest of
      the path on its value, as an object. */
  function MergedProps(q: seq<(string, Json)>, rest: string): (r: Result<seq<(string, Json)>>)
    ensures r.Ok? ==> |r.value| == |q|
  {
    if |q| == 0 then Ok([])
    else
      match FilterFields(q[0].1, [Dotted(rest)])
      case TypeError => TypeError
      case Ok(n) =>
        match MergedProps(q[1..], rest)
        case TypeError => TypeError
        case Ok(ps) => Ok([(q[0].0, AsObject(n))] + ps)
  }

  lemma {:induction false} MergedPropsAt(q: seq<(string, Json)>, rest: string)
    ensures MergedProps(q, rest).TypeError?
        <==> exists j :: 0 <= j < |q| && FilterFields(q[j].1, [Dotted(rest)]).TypeError?
    ensures MergedProps(q, rest).Ok? ==>
      forall j :: 0 <= j < |q| ==>
        && FilterFields(q[j].1, [Dotted(rest)]).Ok?
        && MergedProps(q, rest).value[j] == (q[j].0, AsObject(FilterFields(q[j].1, [Dotted(rest)]).value))
  {
    if |q| > 0 {
      MergedPropsAt(q[1..], rest);
      if MergedProps(q, rest).TypeError? && FilterFields(q[0].1, [Dotted(rest)]).Ok? {
        var j :| 0 <= j < |q[1..]| && FilterFields(q[1..][j].1, [Dotted(rest)]).TypeError?;
        assert q[1..][j] == q[j + 1];
      }
      if MergedProps(q, rest).Ok? {
        MergedPropsOk(q, rest);
      }
    }
  }

  lemma MergedPropsOk(q: seq<(string, Json)>, rest: string)
    requires |q| > 0 && MergedProps(q, rest).Ok?
    requires MergedProps(q[1..], rest).Ok? ==>
      forall j :: 0 <= j < |q[1..]| ==>
        && FilterFields(q[1..][j].1, [Dotted(rest)]).Ok?
        && MergedProps(q[1..], rest).value[j] == (q[1..][j].0, AsObject(FilterFields(q[1..][j].1, [Dotted(rest)]).value))
    ensures forall j :: 0 <= j < |q| ==>
        && FilterFields(q[j].1, [Dotted(rest)]).Ok?
        && MergedProps(q, rest).value[j] == (q[j].0, AsObject(FilterFields(q[j].1, [Dotted(rest)]).value))
  {
    var ps := MergedProps(q, rest).value;
    forall j | 0 <= j < |q|
      ensures FilterFields(q[j].1, [Dotted(rest)]).Ok?
      ensures ps[j] == (q[j].0, AsObject(FilterFields(q[j].1, [Dotted(rest)]).value))
    {
      if j > 0 {
        assert q[1..][j - 1] == q[j];
      }
    }
  }

  /** What '*' over an object yields from `i` on, given what it should yield. */
  predicate ObjectWildcardYields(current: Json, acc: seq<(string, Json)>, rest: string, i: nat)
    requires current.Obj? && i <= |current.props|
  {
    WildcardOverObject(current, Obj(acc), rest, i)
    == match MergedProps(current.props[i..], rest)
       case TypeError => TypeError
       case Ok(ps) => Ok(Obj(acc + ps))
  }

  lemma MergedPropsFrom(q: seq<(string, Json)>, rest: string, i: nat)
    requires i < |q| && FilterFields(q[i].1, [Dotted(rest)]).Ok?
    ensures MergedProps(q[i..], rest)
         == match MergedProps(q[i + 1..], rest)
            case TypeError => TypeError
            case Ok(ps) => Ok([(q[i].0, AsObject(FilterFields(q[i].1, [Dotted(rest)]).value))] + ps)
  {
    assert q[i..][0] == q[i] && q[i..][1..] == q[i + 1..];
  }

  /** One step of '*' over an object whose `i`-th nested call succeeds. */
  lemma ObjectWildcardStep(current: Json, acc: seq<(string, Json)>, rest: string, i: nat)
    requires current.Obj? && UniqueKeys(current.props) && i < |current.props|
    requires |acc| == i && forall j :: 0 <= j < i ==> acc[j].0 == current.props[j].0
    requires FilterFields(current.props[i].1, [Dotted(rest)]).Ok?
    requires ObjectWildcardYields(current, acc + [(current.props[i].0, AsObject(FilterFields(current.props[i].1, [Dotted(rest)]).value))], rest, i + 1)
    ensures ObjectWildcardYields(current, acc, rest, i)
  {
    var q := current.props;
    var x := (q[i].0, AsObject(FilterFields(q[i].1, [Dotted(rest)]).value));
    FreshKeyAt(q, acc, i);
    AppendOneKey(current, acc, rest, i);
    MergedPropsFrom(q, rest, i);
    var m := MergedProps(q[i + 1..], rest);
    if m.Ok? {
      assert (acc + [x]) + m.value == acc + ([x] + m.value);
    }
  }

  /** '*' over an object appends the `i`-th key when the output lacks it. */
  lemma AppendOneKey(current: Json, acc: seq<(string, Json)>, rest: string, i: nat)
    requires current.Obj? && i < |current.props| && current.props[i].0 !in KeySet(acc)
    requires FilterFields(current.props[i].1, [Dotted(rest)]).Ok?
    ensures WildcardOverObject(current, Obj(acc), rest, i)
         == WildcardOverObject(current, Obj(acc + [(current.props[i].0, AsObject(FilterFields(current.props[i].1, [Dotted(rest)]).value))]), rest, i + 1)
  {
    NestedMergeFresh(current.props[i].1, acc, rest, current.props[i].0);
  }

  /** One step of '*' over an object whose `i`-th nested call throws. */
  lemma ObjectWildcardStepThrows(current: Json, acc: seq<(string, Json)>, rest: string, i: nat)
    requires current.Obj? && i < |current.props|
    requires FilterFields(current.props[i].1, [Dotted(rest)]).TypeError?
    ensures ObjectWildcardYields(current, acc, rest, i)
  {
    var q := current.props;
    assert q[i..][0] == q[i];
  }

  /** '*' over an object with distinct keys, into an output that holds exactly
      the keys before `i`: the later keys are appended in order. */
  lemma {:induction false} WildcardIntoFreshObject(current: Json, acc: seq<(string, Json)>, rest: string, i: nat)
    requires current.Obj? && UniqueKeys(current.props) && i <= |current.props|
    requires |acc| == i && forall j :: 0 <= j < i ==> acc[j].0 == current.props[j].0
    ensures ObjectWildcardYields(current, acc, rest, i)
    decreases |current.props| - i
  {
    var q := current.props;
    if i < |q| {
      var n := FilterFields(q[i].1, [Dotted(rest)]);
      if n.Ok? {
        var x := (q[i].0, AsObject(n.value));
        WildcardIntoFreshObject(current, acc + [x], rest, i + 1);
        ObjectWildcardStep(current, acc, rest, i);
      } else {
        ObjectWildcardStepThrows(current, acc, rest, i);
      }
    } else {
      assert q[i..] == [] && acc + [] == acc;
    }
  }

  /** An intermediate '*' over an object: the output has the same keys in the
      same order, each holding the nested result of the rest of the path on
      that property's value (`{}` when that is not an object). */
  lemma WildcardOverObjectPerKey(p: seq<(string, Json)>, a: string, rest: string)
    requires IsSegment(a) && a != Wildcard
    requires Lookup(p, a).Some? && Lookup(p, a).value.Obj? && UniqueKeys(Lookup(p, a).value.props)
    ensures var q := Lookup(p, a).value.props;
      var r := FilterFields(Obj(p), [Dotted(a + ".*." + rest)]);
      && (r.TypeError? <==> exists j :: 0 <= j < |q| && FilterFields(q[j].1, [Dotted(rest)]).TypeError?)
      && (r.Ok? ==>
            && |r.value.props| == 1 && r.value.props[0].0 == a && r.value.props[0].1.Obj?
            && |r.value.props[0].1.props| == |q|
            && forall j :: 0 <= j < |q| ==>
                 && FilterFields(q[j].1, [Dotted(rest)]).Ok?
                 && r.value.props[0].1.props[j] == (q[j].0, AsObject(FilterFields(q[j].1, [Dotted(rest)]).value)))
  {
    var v := Lookup(p, a).value;
    var q := v.props;
    WildcardEquation(p, a, rest);
    WildcardIntoFreshObject(v, [], rest, 0);
    assert q[0..] == q;
    MergedPropsAt(q, rest);
    var m := MergedProps(q, rest);
    if m.Ok? {
      assert [] + m.value == m.value;
    }
  }


  /** A two-segment path through an object copies the inner property under a
      fresh container for the outer key. */
  lemma NestedObjectKey(p: seq<(string, Json)>, a: string, b: string)
    requires IsSegment(a) && IsSegment(b) && a != Wildcard
    requires Lookup(p, a).Some? && Lookup(p, a).value.Obj?
    ensures var q := Lookup(p, a).value.props;
      FilterFields(Obj(p), [Dotted(a + "." + b)])
      == Ok(Obj([(a, Obj(if b in KeySet(q) then [(b, Lookup(q, b).value)] else []))]))
  {
    var q := Lookup(p, a).value.props;
    TwoSegments(a, b);
    OneField(Obj(p), Dotted(a + "." + b), Obj([]));
    DescendOnce(Obj(p), Obj([]), a, b);
    assert Terminal(Obj(q), Obj([]), b) == Ok(Obj(if b in KeySet(q) then [(b, Lookup(q, b).value)] else []));
  }

  /** `"base[index]"` parses to the bracket path it spells. */
  lemma BracketRoundTrip(base: string, index: string)
    requires '[' !in base && '[' !in index && ']' !in index
    ensures ParseFieldPath(base + "[" + index + "]") == Bracket(base, index)
  {
    var tail := index + "]";
    assert base + "[" + index + "]" == base + ['['] + tail;
    SplitCons(base, tail, '[');
    SplitFree(tail, '[');
    assert tail == index + [']'] + [];
    RemoveFirstAt(index, ']', []);
  }

  /** Everything from a second '[' on is dropped, so `"a.b[0][1]"` keeps only
      the first index. */
  lemma SecondBracketDropped(base: string, index: string, more: string)
    requires '[' !in base && '[' !in index && ']' !in index
    ensures ParseFieldPath(base + "[" + index + "][" + more) == Bracket(base, index)
  {
    var s := base + "[" + index + "][" + more;
    var head := index + "]";
    SplitTwoBrackets(base, head, more);
    assert s == base + ['['] + head + ['['] + more;
    var pieces := Split(s, '[');
    assert '[' in s by {
      assert s[|base|] == '[';
    }
    assert pieces[0] == base && pieces[1] == head;
    assert head == index + [']'] + [];
    RemoveFirstAt(index, ']', []);
  }

  lemma SplitTwoBrackets(base: string, head: string, more: string)
    requires '[' !in base && '[' !in head
    ensures Split(base + ['['] + head + ['['] + more, '[') == [base, head] + Split(more, '[')
  {
    var tail := head + ['['] + more;
    assert base + ['['] + head + ['['] + more == base + ['['] + tail;
    SplitCons(base, tail, '[');
    SplitCons(head, more, '[');
  }

  /** A '[' without its ']' is accepted: the rest of the string is the index. */
  lemma UnclosedBracketAccepted(base: string, index: string)
    requires '[' !in base && '[' !in index && ']' !in index
    ensures ParseFieldPath(base + "[" + index) == Bracket(base, index)
  {
    assert base + "[" + index == base + ['['] + index;
    SplitCons(base, index, '[');
    SplitFree(index, '[');
  }

  lemma IndexedFieldExample()
    ensures ParseFieldPath("items[0]") == Bracket("items", "0")
  {
    assert "items[0]" == "items" + "[" + "0" + "]";
    BracketRoundTrip("items", "0");
  }

  lemma DoubleIndexExample()
    ensures ParseFieldPath("a.b[0][1]") == Bracket("a.b", "0")
  {
    assert "a.b[0][1]" == "a.b" + "[" + "0" + "][" + "1]";
    SecondBracketDropped("a.b", "0", "1]");
  }

  lemma UnclosedIndexExample()
    ensures ParseFieldPath("items[0") == Bracket("items", "0")
  {
    assert "items[0" == "items" + "[" + "0";
    UnclosedBracketAccepted("items", "0");
  }

  /** `{"x":{"y":5,"z":6}}` projected on `x.y` is `{"x":{"y":5}}`. */
  lemma DottedPathExample()
    ensures FilterFields(Obj([("x", Obj([("y", Num(5)), ("z", Num(6))]))]), [Dotted("x.y")])
         == Ok(Obj([("x", Obj([("y", Num(5))]))]))
  {
    var p := [("x", Obj([("y", Num(5)), ("z", Num(6))]))];
    assert "x" + "." + "y" == "x.y";
    NestedObjectKey(p, "x", "y");
    assert "y" in KeySet([("y", Num(5)), ("z", Num(6))]);
  }

  /** `{"a":1}` projected on `b` is `{}`. */
  lemma MissingKeyExample()
    ensures FilterFields(Obj([("a", Num(1))]), [Dotted("b")]) == Ok(Obj([]))
  {
    TerminalObjectKey([("a", Num(1))], "b");
  }

  /** `{"items":[{"v":1},{"v":2}]}` projected on `items.*.v` is itself. */
  lemma WildcardExample()
    ensures var d := Obj([("items", Arr([Some(Obj([("v", Num(1))])), Some(Obj([("v", Num(2))]))]))]);
      FilterFields(d, [Dotted("items.*.v")]) == Ok(d)
  {
    assert "items" + ".*." + "v" == "items.*.v";
    SelfProjection(1);
    SelfProjection(2);
    TwoSelfProjectingElements([("items", Arr([Some(Obj([("v", Num(1))])), Some(Obj([("v", Num(2))]))]))],
                              "items", "v", Obj([("v", Num(1))]), Obj([("v", Num(2))]));
  }

  /** Two elements that the rest of the path leaves as they are. */
  lemma TwoSelfProjectingElements(p: seq<(string, Json)>, a: string, rest: string, x: Json, y: Json)
    requires IsSegment(a) && a != Wildcard && p == [(a, Arr([Some(x), Some(y)]))]
    requires x.Obj? && y.Obj?
    requires FilterFields(x, [Dotted(rest)]) == Ok(x) && FilterFields(y, [Dotted(rest)]) == Ok(y)
    ensures FilterFields(Obj(p), [Dotted(a + ".*." + rest)]) == Ok(Obj(p))
  {
    assert Lookup(p, a) == Some(Arr([Some(x), Some(y)]));
    WildcardEquation(p, a, rest);
    TwoElementLoop(x, y, rest);
  }

  /** The '*' loop over two objects that the rest of the path leaves as they
      are rebuilds the same two-element array. */
  lemma TwoElementLoop(x: Json, y: Json, rest: string)
    requires x.Obj? && y.Obj?
    requires FilterFields(x, [Dotted(rest)]) == Ok(x) && FilterFields(y, [Dotted(rest)]) == Ok(y)
    ensures WildcardOverArray(Arr([Some(x), Some(y)]), Arr([]), rest, 0) == Ok(Arr([Some(x), Some(y)]))
  {
    var e := [Some(x), Some(y)];
    WildcardIntoFreshArray(Arr(e), [], rest, 0);
    var w := WildcardOverArray(Arr(e), Arr([]), rest, 0);
    assert e[0] == Some(x) && e[1] == Some(y);
    assert MergedSlot(e, rest, 0) == Some(x) && MergedSlot(e, rest, 1) == Some(y);
    TwoSlots(w.value.elems, x, y);
  }

  /** An array of at most two slots whose slots hold `x` and `y` is `[x, y]`. */
  lemma TwoSlots(out: seq<Option<Json>>, x: Json, y: Json)
    requires |out| <= 2 && At(out, 0) == Some(x) && At(out, 1) == Some(y)
    ensures out == [Some(x), Some(y)]
  {
  }


  lemma SelfProjection(n: int)
    ensures FilterFields(Obj([("v", Num(n))]), [Dotted("v")]) == Ok(Obj([("v", Num(n))]))
  {
    TerminalObjectKey([("v", Num(n))], "v");
  }

  /** The top-level array `[{"a":1,"b":2},{"a":3}]` projected on `a` is `{}`:
      the output is an object, and the array branch copies only into an
      array output. */
  lemma TopLevelArrayExample()
    ensures FilterFields(Arr([Some(Obj([("a", Num(1)), ("b", Num(2))])), Some(Obj([("a", Num(3))]))]), [Dotted("a")])
         == Ok(Obj([]))
  {
    var items := [Some(Obj([("a", Num(1)), ("b", Num(2))])), Some(Obj([("a", Num(3))]))];
    TopLevelArraySingleSegment(items, "a");
    assert !HasNullItem(items);
  }
}
