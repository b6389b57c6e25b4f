/**
 * The list operations the Redux reducers apply to documents keyed by `_id`:
 * `findIndex`, `filter` on a different id, and replacing the first match.
 */
module Lists {
  import opened Common

  /** A JSON document apart from its `_id`, kept as its text. */
  type Json = string

  /** A document as the client holds it: its `_id` and the rest. */
  datatype Entry<T> = Entry(id: Id, body: T)

  /** `xs.findIndex(x => x._id === id)`. */
  function FindIndex<T>(xs: seq<Entry<T>>, id: Id): (i: int)
    ensures -1 <= i < |xs|
    ensures i == -1 <==> forall k :: 0 <= k < |xs| ==> xs[k].id != id
    ensures i >= 0 ==> xs[i].id == id && forall k :: 0 <= k < i ==> xs[k].id != id
    decreases |xs|
  {
    if |xs| == 0 then -1
    else if xs[0].id == id then 0
    else
      var j := FindIndex(xs[1..], id);
      if j == -1 then -1 else j + 1
  }

  /** `xs.filter(x => x._id !== id)`. */
  function WithoutId<T(!new)>(xs: seq<Entry<T>>, id: Id): (r: seq<Entry<T>>)
    ensures |r| <= |xs|
    ensures forall k :: 0 <= k < |r| ==> r[k].id != id
    ensures forall e :: e in r <==> e in xs && e.id != id
    decreases |xs|
  {
    if |xs| == 0 then []
    else if xs[0].id == id then WithoutId(xs[1..], id)
    else
      assert forall e :: e in xs <==> e == xs[0] || e in xs[1..];
      [xs[0]] + WithoutId(xs[1..], id)
  }

  /** Filtering distributes over concatenation, so the kept documents keep their order. */
  lemma {:induction false} WithoutIdAppend<T(!new)>(a: seq<Entry<T>>, b: seq<Entry<T>>, id: Id)
    ensures WithoutId(a + b, id) == WithoutId(a, id) + WithoutId(b, id)
    decreases |a|
  {
    if |a| == 0 {
      assert a + b == b;
    } else {
      assert (a + b)[0] == a[0];
      assert (a + b)[1..] == a[1..] + b;
      WithoutIdAppend(a[1..], b, id);
    }
  }

  /** A list without the id is left exactly as it was. */
  lemma {:induction false} WithoutAbsentId<T(!new)>(xs: seq<Entry<T>>, id: Id)
    requires forall k :: 0 <= k < |xs| ==> xs[k].id != id
    ensures WithoutId(xs, id) == xs
    decreases |xs|
  {
    if |xs| > 0 {
      WithoutAbsentId(xs[1..], id);
      assert [xs[0]] + xs[1..] == xs;
    }
  }

  /** Filtering twice by the same id is filtering once. */
  lemma WithoutIdIdempotent<T(!new)>(xs: seq<Entry<T>>, id: Id)
    ensures WithoutId(WithoutId(xs, id), id) == WithoutId(xs, id)
  {
    WithoutAbsentId(WithoutId(xs, id), id);
  }

  /** `i = xs.findIndex(x => x._id === e._id); if (i !== -1) xs[i] = e`. */
  function ReplaceFirst<T>(xs: seq<Entry<T>>, e: Entry<T>): (r: seq<Entry<T>>)
    ensures |r| == |xs|
  {
    var i := FindIndex(xs, e.id);
    if i == -1 then xs else xs[i := e]
  }

  /**
   * Replacing keeps the length and every id; only the first document with the
   * new one's id changes, and it becomes the new one.
   */
  lemma ReplaceFirstChangesOnlyFirstMatch<T>(xs: seq<Entry<T>>, e: Entry<T>)
    ensures forall k :: 0 <= k < |xs| ==> ReplaceFirst(xs, e)[k].id == xs[k].id
    ensures forall k :: 0 <= k < |xs| && k != FindIndex(xs, e.id) ==> ReplaceFirst(xs, e)[k] == xs[k]
    ensures FindIndex(xs, e.id) >= 0 ==> ReplaceFirst(xs, e)[FindIndex(xs, e.id)] == e
    ensures FindIndex(xs, e.id) == -1 ==> ReplaceFirst(xs, e) == xs
  {
  }

  /** Replacing with the same document twice is replacing once. */
  lemma ReplaceFirstIdempotent<T>(xs: seq<Entry<T>>, e: Entry<T>)
    ensures ReplaceFirst(ReplaceFirst(xs, e), e) == ReplaceFirst(xs, e)
  {
    var i := FindIndex(xs, e.id);
    if i >= 0 {
      var r := ReplaceFirst(xs, e);
      assert forall k :: 0 <= k < |r| ==> r[k].id == xs[k].id;
      FindIndexSameIds(xs, r, e.id);
    }
  }

  /** Two lists with the same ids at the same places have the same first match. */
  lemma {:induction false} FindIndexSameIds<T>(xs: seq<Entry<T>>, ys: seq<Entry<T>>, id: Id)
    requires |xs| == |ys| && forall k :: 0 <= k < |xs| ==> xs[k].id == ys[k].id
    ensures FindIndex(xs, id) == FindIndex(ys, id)
    decreases |xs|
  {
    if |xs| > 0 {
      FindIndexSameIds(xs[1..], ys[1..], id);
    }
  }

  /** `current?._id === id`. */
  predicate HasId<T>(current: Option<Entry<T>>, id: Id) {
    current.Some? && current.value.id == id
  }
}
