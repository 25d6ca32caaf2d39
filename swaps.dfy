/** The mock swaps route: an initially empty in-memory list of swap requests,
    each appended with the next id and a pending status. */
module Swaps {
  import opened JsText
  import opened Records

  const Sent := "Swap request sent successfully"
  const Failed := "Failed to create swap request"

  /** The route's answer to a request. */
  datatype PostReply = Accepted(message: string, swap: Record) | Refused(status: int, error: string)

  /** The swap a request creates when `count` swaps are stored: the next id
      first, so the body can replace it, then the body, then a pending status
      and a time the body cannot replace. */
  function NewSwap(count: nat, body: Record, now: string): (swap: Record)
    ensures swap.Keys == body.Keys + {"id", "status", "created_at"}
    ensures Field(swap, "id") == Some(if "id" in body then body["id"] else JNum(count + 1))
    ensures swap["status"] == JStr("pending") && swap["created_at"] == JStr(now)
    ensures forall k | k in body && k !in {"id", "status", "created_at"} :: swap[k] == body[k]
  {
    Spread(map["id" := JNum(count + 1)], body, map["status" := JStr("pending"), "created_at" := JStr(now)])
  }

  /** Every stored swap is pending and stamped. */
  ghost predicate AllPending(swaps: seq<Record>) {
    forall k | 0 <= k < |swaps| ::
      Field(swaps[k], "status") == Some(JStr("pending")) && "created_at" in swaps[k]
  }

  /** Unless a body names its own id, the k-th swap has id k + 1. */
  ghost predicate IdsFollowCount(swaps: seq<Record>) {
    forall k | 0 <= k < |swaps| && Field(swaps[k], "id") != Some(JNum(k + 1)) ::
      exists b: Record, t: string | "id" in b :: swaps[k] == NewSwap(k, b, t)
  }

  /** A request appends a pending swap, whose id is the count plus one when
      its body has none. */
  lemma RequestKeepsSwapsPending(swaps: seq<Record>, body: Record, now: string)
    requires AllPending(swaps)
    requires IdsFollowCount(swaps)
    ensures AllPending(swaps + [NewSwap(|swaps|, body, now)])
    ensures IdsFollowCount(swaps + [NewSwap(|swaps|, body, now)])
  {
    var grown := swaps + [NewSwap(|swaps|, body, now)];
    forall k | 0 <= k < |grown| && Field(grown[k], "id") != Some(JNum(k + 1))
      ensures exists b: Record, t: string | "id" in b :: grown[k] == NewSwap(k, b, t)
    {
      if k < |swaps| {
        assert grown[k] == swaps[k];
      } else {
        assert "id" in body && grown[k] == NewSwap(k, body, now);
      }
    }
  }

  class SwapStore {
    var swaps: seq<Record>

    ghost predicate Valid()
      reads this
    {
      AllPending(swaps) && IdsFollowCount(swaps)
    }

    /** The list starts empty. */
    constructor ()
      ensures Valid() && swaps == []
    {
      swaps := [];
    }

    /** `POST` at time `now`: a body that cannot be read fails with 500 and
        changes nothing; otherwise exactly one new swap is appended and
        returned. */
    method Post(body: Option<Record>, now: string) returns (reply: PostReply)
      requires Valid()
      modifies this
      ensures Valid()
      ensures body.None? ==> reply == Refused(500, Failed) && swaps == old(swaps)
      ensures body.Some? ==>
        && swaps == old(swaps) + [NewSwap(|old(swaps)|, body.value, now)]
        && reply == Accepted(Sent, NewSwap(|old(swaps)|, body.value, now))
    {
      if body.None? {
        return Refused(500, Failed);
      }
      var swap := NewSwap(|swaps|, body.value, now);
      RequestKeepsSwapsPending(swaps, body.value, now);
      swaps := swaps + [swap];
      reply := Accepted(Sent, swap);
    }
  }
}
