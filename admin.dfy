/** The admin page of the clothing-exchange app: the access check on mount
    (a stored user who is an admin), the fetch of the items waiting for
    approval, and the approval or rejection that takes an item off the list
    once the endpoint accepts it. */
module Admin {
  import opened JsText
  import opened JsArray

  /** The user stored by the login page; a missing `isAdmin` is falsy. */
  datatype StoredUser = StoredUser(id: int, isAdmin: bool)

  datatype PendingItem = PendingItem(id: int, title: string)

  /** What the update endpoint did with an approval. */
  datatype ApprovalReply = Accepted | Declined | Unreachable

  /** A PATCH sent to the update endpoint: the item and the decision. */
  datatype Decision = Decision(itemId: int, approved: bool)

  /** What the page draws. */
  datatype View = Loading | Nothing | Dashboard(items: seq<PendingItem>)

  /** The list without the items that carry the id. */
  function WithoutItem(items: seq<PendingItem>, itemId: int): (r: seq<PendingItem>)
    ensures forall x | x in r :: x in items && x.id != itemId
    ensures forall x | x in items && x.id != itemId :: x in r
  {
    Filter(items, (item: PendingItem) => item.id != itemId)
  }

  /** Taking an item off keeps the others in their order: removing from two
      lists one after the other is removing from each. */
  lemma WithoutItemKeepsOrder(xs: seq<PendingItem>, ys: seq<PendingItem>, itemId: int)
    ensures WithoutItem(xs + ys, itemId) == WithoutItem(xs, itemId) + WithoutItem(ys, itemId)
  {
    FilterAppend(xs, ys, (item: PendingItem) => item.id != itemId);
  }

  /** Taking off an id that is not listed changes nothing. */
  lemma WithoutAbsentItem(items: seq<PendingItem>, itemId: int)
    requires forall x | x in items :: x.id != itemId
    ensures WithoutItem(items, itemId) == items
  {
    FilterAll(items, (item: PendingItem) => item.id != itemId);
  }

  class AdminPage {
    var user: Option<StoredUser>
    var pendingItems: seq<PendingItem>
    var loading: bool
    var redirect: Option<string>
    /** The lists requested from the pending-items endpoint. */
    ghost var fetches: nat
    /** The decisions sent to the update endpoint, in order. */
    ghost var decisions: seq<Decision>

    /** Only an admin is ever kept as the page's user. */
    ghost predicate Valid()
      reads this
    {
      user.Some? ==> user.value.isAdmin
    }

    constructor ()
      ensures Valid() && user.None? && pendingItems == [] && loading && redirect.None?
      ensures fetches == 0 && decisions == []
    {
      user := None;
      pendingItems := [];
      loading := true;
      redirect := None;
      fetches := 0;
      decisions := [];
    }

    /** The mount effect: no stored user goes to /login, a user who is not an
        admin goes to /dashboard, and neither fetches anything; an admin's
        visit fetches the pending list. */
    method Mount(stored: Option<StoredUser>, reply: Option<seq<PendingItem>>)
      requires Valid()
      modifies this
      ensures Valid() && decisions == old(decisions)
      ensures stored.None? ==> redirect == Some("/login")
      ensures stored.Some? && !stored.value.isAdmin ==> redirect == Some("/dashboard")
      ensures (stored.None? || !stored.value.isAdmin) ==>
        && fetches == old(fetches) && user == old(user)
        && pendingItems == old(pendingItems) && loading == old(loading)
      ensures stored.Some? && stored.value.isAdmin ==>
        && user == stored && fetches == old(fetches) + 1 && !loading && redirect == old(redirect)
        && pendingItems == (if reply.Some? then reply.value else old(pendingItems))
    {
      if stored.None? {
        redirect := Some("/login");
        return;
      }
      if !stored.value.isAdmin {
        redirect := Some("/dashboard");
        return;
      }
      user := stored;
      fetches := fetches + 1;
      if reply.Some? {
        pendingItems := reply.value;
      }
      loading := false;
    }

    /** `handleApproval`: the decision is sent, and only an accepted one
        takes the item off the list. */
    method HandleApproval(itemId: int, approved: bool, reply: ApprovalReply)
      requires Valid()
      modifies this
      ensures Valid() && user == old(user) && loading == old(loading) && fetches == old(fetches)
      ensures redirect == old(redirect)
      ensures decisions == old(decisions) + [Decision(itemId, approved)]
      ensures reply.Accepted? ==> pendingItems == WithoutItem(old(pendingItems), itemId)
      ensures !reply.Accepted? ==> pendingItems == old(pendingItems)
    {
      decisions := decisions + [Decision(itemId, approved)];
      if reply.Accepted? {
        pendingItems := Filter(pendingItems, (item: PendingItem) => item.id != itemId);
      }
    }

    /** The page: loading first, then nothing unless the user is an admin. */
    function Render(): (v: View)
      reads this
      ensures v.Dashboard? ==> user.Some? && user.value.isAdmin && !loading
      ensures !loading && user.Some? && user.value.isAdmin ==> v == Dashboard(pendingItems)
    {
      if loading then Loading
      else if user.None? || !user.value.isAdmin then Nothing
      else Dashboard(pendingItems)
    }
  }
}
