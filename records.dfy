/** Lists of plain objects identified by their `id` key, as the document
    store, the control-panel store and the toast queue keep them, and the
    `filter(x => x.id !== id)` they all delete with. */
module Records {
  import opened Values
  import Lists

  /** `item.id === id`. */
  function IdIs(id: JsValue): Record -> bool {
    (item: Record) => StrictEquals(Get(item, "id"), id)
  }

  /** `items.filter(item => item.id !== id)`. */
  function Without(items: seq<Record>, id: JsValue): (r: seq<Record>)
    ensures |r| <= |items|
    ensures forall x :: x in r ==> x in items && !StrictEquals(Get(x, "id"), id)
  {
    Lists.Filter(items, Lists.Not(IdIs(id)))
  }

  /** Exactly the elements with another id survive, each as often as before. */
  lemma WithoutCounts(items: seq<Record>, id: JsValue, x: Record)
    ensures multiset(Without(items, id))[x] ==
            if StrictEquals(Get(x, "id"), id) then 0 else multiset(items)[x]
  {
    Lists.FilterCounts(items, Lists.Not(IdIs(id)), x);
  }

  /** The list gets shorter exactly when some element carried the id. */
  lemma WithoutShrinks(items: seq<Record>, id: JsValue)
    ensures |Without(items, id)| < |items| <==>
            exists i :: 0 <= i < |items| && StrictEquals(Get(items[i], "id"), id)
  {
    Lists.FilterShrinks(items, Lists.Not(IdIs(id)));
  }

  /** Removing the same id again changes nothing. */
  lemma WithoutIdempotent(items: seq<Record>, id: JsValue)
    ensures Without(Without(items, id), id) == Without(items, id)
  {
    Lists.FilterIdempotent(items, Lists.Not(IdIs(id)));
  }

  /** The survivors keep their relative order: removing from a concatenation
      is removing from each part. */
  lemma WithoutKeepsOrder(a: seq<Record>, b: seq<Record>, id: JsValue)
    ensures Without(a + b, id) == Without(a, id) + Without(b, id)
  {
    Lists.FilterAppend(a, b, Lists.Not(IdIs(id)));
  }
}
