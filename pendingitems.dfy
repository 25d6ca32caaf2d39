/** The mock pending-items route of the admin area: a fixed list of two
    items awaiting approval and the listing of every unapproved item. */
module PendingItems {
  import opened JsText
  import opened JsArray
  import opened Records

  /** `!item.approved`. */
  predicate Pending(item: Record) {
    !Truthy(Field(item, "approved"))
  }

  /** `GET` on the route's list, which nothing changes: the unapproved items,
      in stored order. */
  function Get(items: seq<Record>): (r: seq<Record>)
    ensures forall x | x in r :: x in items && Pending(x)
    ensures forall x | x in items && Pending(x) :: x in r
  {
    Filter(items, Pending)
  }

  /** An approval, whatever else it carries, takes an item out of the listing. */
  lemma ApprovedIsNotPending(items: seq<Record>, k: nat)
    requires k < |items| && Field(items[k], "approved") == Some(JBool(true))
    ensures items[k] !in Get(items)
  {
  }

  /** The two mock items. */
  const SeedItems: seq<Record> := [
    map[
      "id" := JNum(5), "user_id" := JNum(3), "title" := JStr("Leather Boots"),
      "description" := JStr("High-quality leather boots in excellent condition. Perfect for winter."),
      "category" := JStr("Footwear"), "type" := JStr("Boots"), "size" := JStr("9"),
      "condition" := JStr("Excellent"), "tags" := JStr("leather,boots,winter"),
      "images" := JStr("[\"https://images.unsplash.com/photo-1544966503-7cc5ac882d5f?w=400\"]"),
      "status" := JStr("available"), "approved" := JBool(false)],
    map[
      "id" := JNum(6), "user_id" := JNum(4), "title" := JStr("Summer Blouse"),
      "description" := JStr("Light and airy summer blouse in floral print."),
      "category" := JStr("Tops"), "type" := JStr("Blouse"), "size" := JStr("M"),
      "condition" := JStr("Like New"), "tags" := JStr("summer,blouse,floral"),
      "images" := JStr("[\"https://images.unsplash.com/photo-1594633312681-425c7b97ccd1?w=400\"]"),
      "status" := JStr("available"), "approved" := JBool(false)]
  ]

  /** Both mock items are unapproved, so the route lists items 5 and 6, in
      that order. */
  lemma SeedIsAllPending()
    ensures Get(SeedItems) == SeedItems
    ensures |Get(SeedItems)| == 2
    ensures Field(Get(SeedItems)[0], "id") == Some(JNum(5))
    ensures Field(Get(SeedItems)[1], "id") == Some(JNum(6))
  {
    assert SeedItems[0]["approved"] == JBool(false) && SeedItems[1]["approved"] == JBool(false);
    FilterAll(SeedItems, Pending);
  }
}
