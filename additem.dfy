/** The add-item page of the clothing-exchange app: the signed-in check on
    mount, the form fields, the list of at most five images, and the submit
    guard that refuses a listing without images. */
module AddItem {
  import opened JsText

  const MaxImages := 5

  const TooManyImages := "Maximum 5 images allowed"
  const NoImages := "Please add at least one image"
  const DefaultFailure := "Failed to add item"
  const NetworkFailure := "Network error. Please try again."

  /** The placeholder address given to the `index`-th file of an upload made
      at time `now`. */
  function PlaceholderUrl(now: int, index: nat): string {
    "https://images.unsplash.com/photo-1445205170230-053b83016050?w=400&sig=" + IntToString(now) + "-" + IntToString(index)
  }

  /** The addresses of an upload, one per file; `stamps[k]` is the clock
      read while the k-th address is built. */
  function UploadUrls(stamps: seq<int>): (urls: seq<string>)
    ensures |urls| == |stamps|
    ensures forall k | 0 <= k < |stamps| :: urls[k] == PlaceholderUrl(stamps[k], k)
  {
    seq(|stamps|, k requires 0 <= k < |stamps| => PlaceholderUrl(stamps[k], k))
  }

  /** `images.filter((_, i) => i !== index)`. */
  function Without<T>(xs: seq<T>, index: int): (r: seq<T>)
    ensures 0 <= index < |xs| ==> |r| == |xs| - 1
    ensures 0 <= index < |xs| ==> forall k | 0 <= k < |r| :: r[k] == if k < index then xs[k] else xs[k + 1]
    ensures !(0 <= index < |xs|) ==> r == xs
  {
    if 0 <= index < |xs| then xs[..index] + xs[index + 1..] else xs
  }

  /** What the item endpoint answered. */
  datatype SubmitReply = Created | Refused(error: Option<string>) | NoResponse

  /** A submitted listing: the form, the user's id, and the images. */
  datatype Listing = Listing(form: map<string, string>, userId: int, images: seq<string>)

  /** The initial form: every field empty. */
  function EmptyForm(): (m: map<string, string>)
    ensures forall k | k in m :: m[k] == ""
  {
    map["title" := "", "description" := "", "category" := "", "type" := "", "size" := "", "condition" := "",
        "tags" := ""]
  }

  /** The error a submitted listing ends with, if any. */
  function SubmitError(reply: SubmitReply): (e: Option<string>)
    ensures e.None? <==> reply.Created?
    ensures reply.Refused? ==> e == Some(OrElse(reply.error, DefaultFailure))
    ensures reply.NoResponse? ==> e == Some(NetworkFailure)
  {
    match reply
    case Created => None
    case Refused(m) => Some(OrElse(m, DefaultFailure))
    case NoResponse => Some(NetworkFailure)
  }

  class AddItemPage {
    /** The stored user's id, once read. */
    var user: Option<int>
    var form: map<string, string>
    var images: seq<string>
    var loading: bool
    var error: string
    var redirect: Option<string>
    /** The listings sent to the item endpoint, in order. */
    ghost var posted: seq<Listing>

    /** There are never more than five images. */
    ghost predicate Valid()
      reads this
    {
      |images| <= MaxImages
    }

    constructor ()
      ensures Valid() && user.None? && form == EmptyForm() && images == [] && !loading && error == ""
      ensures redirect.None? && posted == []
    {
      user := None;
      form := EmptyForm();
      images := [];
      loading := false;
      error := "";
      redirect := None;
      posted := [];
    }

    /** The mount effect: without a stored user the page goes to /login. */
    method Mount(stored: Option<int>)
      modifies this
      ensures stored.None? ==> redirect == Some("/login") && user == old(user)
      ensures stored.Some? ==> user == stored && redirect == old(redirect)
      ensures form == old(form) && images == old(images) && posted == old(posted) && error == old(error)
      ensures loading == old(loading)
    {
      if stored.None? {
        redirect := Some("/login");
        return;
      }
      user := stored;
    }

    /** `handleInputChange`: only the named field changes. */
    method HandleInputChange(name: string, value: string)
      modifies this
      ensures form == old(form)[name := value]
      ensures forall k | k in old(form) && k != name :: k in form && form[k] == old(form)[k]
      ensures images == old(images) && error == old(error) && posted == old(posted)
      ensures user == old(user) && loading == old(loading) && redirect == old(redirect)
    {
      form := form[name := value];
    }

    /** `handleImageUpload`: an upload that would pass five images is refused
        whole; otherwise its images follow the existing ones. The upload
        holds one file per clock reading in `stamps`. */
    method HandleImageUpload(stamps: seq<int>)
      requires Valid()
      modifies this
      ensures Valid()
      ensures |stamps| + |old(images)| > MaxImages ==> images == old(images) && error == TooManyImages
      ensures |stamps| + |old(images)| <= MaxImages ==> images == old(images) + UploadUrls(stamps) && error == ""
      ensures form == old(form) && posted == old(posted)
      ensures user == old(user) && loading == old(loading) && redirect == old(redirect)
    {
      if |stamps| + |images| > MaxImages {
        error := TooManyImages;
        return;
      }
      images := images + UploadUrls(stamps);
      error := "";
    }

    /** `removeImage`: exactly the entry at `index` goes. */
    method RemoveImage(index: int)
      requires Valid()
      modifies this
      ensures Valid()
      ensures images == Without(old(images), index)
      ensures form == old(form) && error == old(error) && posted == old(posted)
      ensures user == old(user) && loading == old(loading) && redirect == old(redirect)
    {
      images := Without(images, index);
    }

    /** `handleSubmit`, reachable only once the page shows, that is, with a
        user. Without images nothing is sent. */
    method HandleSubmit(reply: SubmitReply)
      requires user.Some?
      modifies this
      ensures !loading
      ensures images == old(images) && form == old(form) && user == old(user)
      ensures old(images) == [] ==> error == NoImages && posted == old(posted) && redirect == old(redirect)
      ensures old(images) != [] ==>
        && posted == old(posted) + [Listing(old(form), old(user).value, old(images))]
        && (SubmitError(reply).None? ==> redirect == Some("/dashboard") && error == "")
        && (SubmitError(reply).Some? ==> error == SubmitError(reply).value && redirect == old(redirect))
    {
      loading := true;
      error := "";
      if |images| == 0 {
        error := NoImages;
        loading := false;
        return;
      }
      posted := posted + [Listing(form, user.value, images)];
      var failure := SubmitError(reply);
      if failure.None? {
        redirect := Some("/dashboard");
      } else {
        error := failure.value;
      }
      loading := false;
    }
  }
}
