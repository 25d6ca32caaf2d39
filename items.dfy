/** The mock items route: its in-memory list, the listing of approved
    available items, and the submission that appends an item awaiting
    approval. */
module Items {
  import opened JsText
  import opened JsArray
  import opened Records

  const Submitted := "Item submitted for approval"
  const Failed := "Failed to add item"

  /** The route's answer to a submission. */
  datatype PostReply = Accepted(message: string, item: Record) | Refused(status: int, error: string)

  /** `item.approved && item.status === "available"`. */
  predicate Listed(item: Record) {
    Truthy(Field(item, "approved")) && Field(item, "status") == Some(JStr("available"))
  }

  /** `GET` on the stored list, which it reads and leaves alone: the listed
      items, in stored order. */
  function Available(items: seq<Record>): (r: seq<Record>)
    ensures forall x | x in r :: x in items && Listed(x)
    ensures forall x | x in items && Listed(x) :: x in r
  {
    Filter(items, Listed)
  }

  /** The item a submission creates when `count` items are stored: the next
      id first, so the body can replace it, then the body, then a status,
      approval flag and time the body cannot replace. */
  function NewItem(count: nat, body: Record, now: string): (item: Record)
    ensures item.Keys == body.Keys + {"id", "status", "approved", "created_at"}
    ensures Field(item, "id") == Some(if "id" in body then body["id"] else JNum(count + 1))
    ensures item["status"] == JStr("available") && item["approved"] == JBool(false)
    ensures item["created_at"] == JStr(now)
    ensures forall k | k in body && k !in {"id", "status", "approved", "created_at"} :: item[k] == body[k]
  {
    Spread(map["id" := JNum(count + 1)], body,
           map["status" := JStr("available"), "approved" := JBool(false), "created_at" := JStr(now)])
  }

  /** A submitted item is never listed, so a submission leaves the listing
      exactly as it was. */
  lemma SubmissionIsNotListed(items: seq<Record>, body: Record, now: string)
    ensures !Listed(NewItem(|items|, body, now))
    ensures Available(items + [NewItem(|items|, body, now)]) == Available(items)
  {
    var item := NewItem(|items|, body, now);
    FilterAppend(items, [item], Listed);
    assert Filter([item], Listed) == Filter([], Listed);
  }

  /** The mock item. */
  const SeedItems: seq<Record> := [
    map[
      "id" := JNum(1), "user_id" := JNum(2), "title" := JStr("Vintage Denim Jacket"),
      "description" := JStr("Classic blue denim jacket in excellent condition."),
      "category" := JStr("Outerwear"), "type" := JStr("Jacket"), "size" := JStr("M"),
      "condition" := JStr("Excellent"), "tags" := JStr("vintage,denim,casual"),
      "images" := JStr("[\"https://images.unsplash.com/photo-1551698618-1dfe5d97d256?w=400\"]"),
      "status" := JStr("available"), "approved" := JBool(true)]
  ]

  class ItemStore {
    var items: seq<Record>

    constructor ()
      ensures items == SeedItems
    {
      items := SeedItems;
    }

    /** `POST` at time `now`: a body that cannot be read fails with 500 and
        changes nothing; otherwise exactly one new item is appended and
        returned. */
    method Post(body: Option<Record>, now: string) returns (reply: PostReply)
      modifies this
      ensures body.None? ==> reply == Refused(500, Failed) && items == old(items)
      ensures body.Some? ==>
        && items == old(items) + [NewItem(|old(items)|, body.value, now)]
        && reply == Accepted(Submitted, NewItem(|old(items)|, body.value, now))
      ensures Available(items) == Available(old(items))
    {
      if body.None? {
        return Refused(500, Failed);
      }
      var item := NewItem(|items|, body.value, now);
      SubmissionIsNotListed(items, body.value, now);
      items := items + [item];
      reply := Accepted(Submitted, item);
    }
  }

  /** The mock item is approved and available, so it is listed. */
  lemma SeedIsListed()
    ensures Available(SeedItems) == SeedItems
  {
    FilterAll(SeedItems, Listed);
  }
}
