/** Facts about object property lists used by the projection proofs. */
module JsonLemmas {
  import opened Wrappers
  import opened Strings
  import opened Json

  lemma {:induction false} KeySetConcat(a: seq<(string, Json)>, b: seq<(string, Json)>)
    ensures KeySet(a + b) == KeySet(a) + KeySet(b)
    decreases |a|
  {
    if |a| > 0 {
      assert (a + b)[1..] == a[1..] + b;
      KeySetConcat(a[1..], b);
    } else {
      assert a + b == b;
    }
  }

  lemma {:induction false} UniqueConcat(a: seq<(string, Json)>, b: seq<(string, Json)>)
    ensures UniqueKeys(a + b) <==> UniqueKeys(a) && UniqueKeys(b) && KeySet(a) !! KeySet(b)
    decreases |a|
  {
    if |a| > 0 {
      assert (a + b)[1..] == a[1..] + b;
      UniqueConcat(a[1..], b);
      KeySetConcat(a[1..], b);
    } else {
      assert a + b == b;
    }
  }

  /** `Object.assign` onto an object with none of the source's keys appends the
      source's properties in order. */
  lemma {:induction false} AssignFresh(acc: seq<(string, Json)>, q: seq<(string, Json)>)
    requires UniqueKeys(acc + q)
    ensures AssignProps(Obj(acc), q) == Obj(acc + q)
    decreases |q|
  {
    if |q| > 0 {
      UniqueConcat(acc, q);
      assert q == [q[0]] + q[1..];
      assert q[0].0 in KeySet(q);
      assert q[0].0 !in KeySet(acc);
      assert acc + q == (acc + [q[0]]) + q[1..];
      AssignFresh(acc + [q[0]], q[1..]);
    } else {
      assert acc + q == acc;
    }
  }

  /** Merging a filtered value into a fresh `{}` gives that value when it is an
      object with distinct keys, and `{}` when it is a falsy primitive. */
  lemma AssignIntoEmpty(n: Json)
    requires n.Obj? ==> UniqueKeys(n.props)
    ensures ObjectAssign(Obj([]), n) == AsObject(n)
  {
    if n.Obj? {
      assert [] + n.props == n.props;
      AssignFresh([], n.props);
    }
  }

  /** The object a nested result contributes: itself if it is one, else `{}`. */
  function AsObject(n: Json): Json
  {
    if n.Obj? then n else Obj([])
  }

  lemma {:induction false} KeySetIndex(q: seq<(string, Json)>, j: nat)
    requires j < |q|
    ensures q[j].0 in KeySet(q)
    decreases j
  {
    if j > 0 {
      KeySetIndex(q[1..], j - 1);
    }
  }

  /** Two property lists with the same names in the same places have the same
      key set. */
  lemma {:induction false} SameNamesSameKeys(a: seq<(string, Json)>, b: seq<(string, Json)>)
    requires |a| == |b| && forall j :: 0 <= j < |a| ==> a[j].0 == b[j].0
    ensures KeySet(a) == KeySet(b)
    decreases |a|
  {
    if |a| > 0 {
      SameNamesSameKeys(a[1..], b[1..]);
    }
  }

  /** In an object with distinct keys, the `i`-th key is not among the keys
      before it. */
  lemma UniqueAt(q: seq<(string, Json)>, i: nat)
    requires UniqueKeys(q) && i < |q|
    ensures q[i].0 !in KeySet(q[..i])
  {
    assert q == q[..i] + q[i..];
    UniqueConcat(q[..i], q[i..]);
    KeySetIndex(q[i..], 0);
  }
}
