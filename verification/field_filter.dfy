/** Projection of a JSON value onto a list of field paths (`filterFields`) and the
    bracket-notation preprocessing of path strings (`parseFieldPaths`). */
module FieldFilter {
  import opened Wrappers
  import opened Strings
  import opened Json

  /** A field path: a dotted string such as "keyword_info.cpc", or the two-element
      array `[base, index]` that bracket notation is turned into. */
  datatype FieldPath = Dotted(text: string) | Bracket(base: string, index: string)

  /** The segment that means "every element" or "every property". */
  const Wildcard := "*"

  /** The segments a field path is walked by: a string is split on '.', an array
      is used as it is. */
  function Segments(field: FieldPath): (path: seq<string>)
    ensures |path| >= 1
  {
    match field
    case Dotted(text) => Split(text, '.')
    case Bracket(base, index) => [base, index]
  }

  /** `filterFields(data, fields)`. A falsy `data` or an empty field list gives
      `data` back; otherwise the fields are applied in order to a fresh object,
      which is the result. */
  function FilterFields(data: Json, fields: seq<FieldPath>): (r: Result<Json>)
    ensures !Truthy(Some(data)) || |fields| == 0 ==> r == Ok(data)
    ensures Truthy(Some(data)) && |fields| > 0 && r.Ok? ==> r.value.Obj? && UniqueKeys(r.value.props)
    decreases data, 3
  {
    if !Truthy(Some(data)) || |fields| == 0 then Ok(data)
    else ApplyFields(data, fields, Obj([]))
  }

  /** `fields.forEach(...)`: each field adds to the result built so far. */
  function ApplyFields(data: Json, fields: seq<FieldPath>, result: Json): (r: Result<Json>)
    ensures r.Ok? ==> Extends(result, r.value)
    decreases data, 2, |fields|
  {
    if |fields| == 0 then Ok(result)
    else
      match ApplyPath(data, result, Segments(fields[0]))
      case TypeError => TypeError
      case Ok(result') => ApplyFields(data, fields[1..], result')
  }

  /** The walk of one path: `current` is the value reached in the input, `target`
      the object or array reached in the output; the result is the updated
      `target`, which the caller writes back under the key it came from. */
  function ApplyPath(current: Json, target: Json, path: seq<string>): (r: Result<Json>)
    requires |path| >= 1
    ensures r.Ok? ==> Extends(target, r.value)
    decreases current, 1
  {
    if |path| == 1 then Terminal(current, target, path[0])
    else if path[0] == Wildcard then
      // The rest of the path is handed to a nested filterFields call, rejoined
      // with '.', and the walk of this field ends here.
      var rest := Join(path[1..], '.');
      match current
      case Arr(_) => WildcardOverArray(current, target, rest, 0)
      case Obj(_) => WildcardOverObject(current, target, rest, 0)
      case _ => Ok(target)
    else
      var next := Get(current, path[0]);
      if !Truthy(next) then
        // A missing or falsy intermediate value abandons the field; output
        // containers made for earlier segments stay.
        Ok(target)
      else
        var existing := Get(target, path[0]);
        var sub := if Truthy(existing) then existing.value else EmptyLike(next.value);
        match ApplyPath(next.value, sub, path[1..])
        case TypeError => TypeError
        case Ok(sub') => Set(target, path[0], sub')
  }

  /** `Array.isArray(current) ? [] : {}`. */
  function EmptyLike(v: Json): Json
  {
    if v.Arr? then Arr([]) else Obj([])
  }

  /** An intermediate '*' over an array: element `i` is filtered by the rest of
      the path and merged into the output slot `i` (made `{}` if falsy). Holes
      are skipped, as `forEach` skips them. */
  function WildcardOverArray(current: Json, target: Json, rest: string, i: nat): (r: Result<Json>)
    requires current.Arr?
    ensures r.Ok? ==> Extends(target, r.value)
    decreases current, 0, |current.elems| - i
  {
    if i >= |current.elems| then Ok(target)
    else
      match current.elems[i]
      case None => WildcardOverArray(current, target, rest, i + 1)
      case Some(item) =>
        match MergeInto(target, IndexKey(i), FilterFields(item, [Dotted(rest)]))
        case TypeError => TypeError
        case Ok(target') => WildcardOverArray(current, target', rest, i + 1)
  }

  /** An intermediate '*' over an object: the same, property by property in
      `Object.keys` order, into the output slot of the same name. */
  function WildcardOverObject(current: Json, target: Json, rest: string, i: nat): (r: Result<Json>)
    requires current.Obj?
    ensures r.Ok? ==> Extends(target, r.value)
    decreases current, 0, |current.props| - i
  {
    if i >= |current.props| then Ok(target)
    else
      var item := current.props[i].1;
      assert item < current;
      match MergeInto(target, current.props[i].0, FilterFields(item, [Dotted(rest)]))
      case TypeError => TypeError
      case Ok(target') => WildcardOverObject(current, target', rest, i + 1)
  }

  /** `if (!target[key]) target[key] = {}; Object.assign(target[key], nested)`. */
  function MergeInto(target: Json, key: string, nested: Result<Json>): (r: Result<Json>)
    ensures r.Ok? ==> Extends(target, r.value)
  {
    match nested
    case TypeError => TypeError
    case Ok(n) =>
      var existing := Get(target, key);
      var slot := if Truthy(existing) then existing.value else Obj([]);
      Set(target, key, ObjectAssign(slot, n))
  }

  /** The last segment. On an array, '*' appends every element to the output
      array and any other key copies `item[key]` into output slot `i` for each
      element that defines it; when the output is not an array, the array built
      for it is never attached and only a thrown error is observable. On
      anything else, a defined `current[key]` is copied, falsy or not. */
  function Terminal(current: Json, target: Json, lastKey: string): (r: Result<Json>)
    ensures r.Ok? ==> Extends(target, r.value)
  {
    match current
    case Arr(items) =>
      var out := if target.Arr? then target.elems else [];
      var filled := if lastKey == Wildcard then Ok(out + items) else CopyKeyFromItems(items, out, lastKey, 0);
      (match filled
       case TypeError => TypeError
       case Ok(out') => if target.Arr? then Ok(Arr(out')) else Ok(target))
    case _ =>
      match Get(current, lastKey)
      case None => Ok(target)
      case Some(v) => Set(target, lastKey, v)
  }

  /** `current.forEach((item, index) => ...)` of the terminal array branch.
      Reading a property of a `null` element throws. */
  function CopyKeyFromItems(items: seq<Option<Json>>, out: seq<Option<Json>>, key: string, i: nat): (r: Result<seq<Option<Json>>>)
    ensures r.Ok? ==> |out| <= |r.value|
    decreases |items| - i
  {
    if i >= |items| then Ok(out)
    else
      match items[i]
      case None => CopyKeyFromItems(items, out, key, i + 1)
      case Some(item) =>
        if item.Null? then TypeError
        else
          var v := Get(item, key);
          if v.None? then CopyKeyFromItems(items, out, key, i + 1)
          else
            var existing := At(out, i);
            var slot := if Truthy(existing) then existing.value else Obj([]);
            match Set(slot, key, v.value)
            case TypeError => TypeError
            case Ok(slot') => CopyKeyFromItems(items, SetIndex(out, i, slot'), key, i + 1)
  }

  /** `parseFieldPaths` on one string: with a '[' it becomes
      `[text before the first '[', the next piece with its first ']' removed]`;
      without one it is kept as a dotted path. */
  function ParseFieldPath(field: string): (r: FieldPath)
    ensures '[' !in field ==> r == Dotted(field)
    ensures '[' in field ==> r.Bracket? && '[' !in r.base && '[' !in r.index
  {
    if '[' in field then
      var pieces := Split(field, '[');
      Bracket(pieces[0], RemoveFirst(pieces[1], ']'))
    else Dotted(field)
  }

  /** `parseFieldPaths(fields)`: one path per string, in order. */
  function ParseFieldPaths(fields: seq<string>): (r: seq<FieldPath>)
    ensures |r| == |fields|
    ensures forall i :: 0 <= i < |fields| ==> r[i] == ParseFieldPath(fields[i])
  {
    if |fields| == 0 then [] else [ParseFieldPath(fields[0])] + ParseFieldPaths(fields[1..])
  }
}
