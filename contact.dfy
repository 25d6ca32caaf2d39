/** The contact form: its three fields, the submission flags, the
    validation chain run on submit (blank fields first, then the email's
    shape), and what a submission leaves behind for each reply of the
    notification service. */
module Contact {
  import opened JsText
  import Notifications

  datatype Field = Name | Email | Message

  datatype FormData = FormData(name: string, email: string, message: string)

  const EmptyForm := FormData("", "", "")

  const BlankError := "Please fill in all fields"
  const EmailError := "Please enter a valid email address"
  const FailedError := "Failed to send message. Please try again or call us directly."
  const ThrownError := "An error occurred. Please try again or contact us directly at +91 9409073136"

  // ---------------------------------------------------------------------------
  // The email pattern ^[^\s@]+@[^\s@]+\.[^\s@]+$
  // ---------------------------------------------------------------------------

  /** A run of the class `[^\s@]`. */
  predicate Plain(s: string) {
    forall k | 0 <= k < |s| :: !IsSpace(s[k]) && s[k] != '@'
  }

  /** The pattern, read off the regular expression: a non-empty plain run, an
      '@' at i, a non-empty plain run, a '.' at j, a non-empty plain run. */
  ghost predicate MatchesPattern(s: string) {
    exists i, j | 0 < i && i + 1 < j && j + 1 < |s| ::
      s[i] == '@' && s[j] == '.' && Plain(s[..i]) && Plain(s[i + 1..j]) && Plain(s[j + 1..])
  }

  /** The check as the form's rule reads: no white space, exactly one '@'
      and not at the start, and a '.' after it that is neither right after
      the '@' nor last. */
  predicate ValidEmail(s: string) {
    && (forall k | 0 <= k < |s| :: !IsSpace(s[k]))
    && exists i | 0 < i < |s| ::
         && s[i] == '@'
         && (forall k | 0 <= k < |s| && k != i :: s[k] != '@')
         && (exists j | i + 1 < j < |s| - 1 :: s[j] == '.')
  }

  /** A slice of characters outside `[\s@]` is a plain run. */
  lemma PlainSlice(s: string, lo: int, hi: int)
    requires 0 <= lo <= hi <= |s|
    requires forall k | lo <= k < hi :: !IsSpace(s[k]) && s[k] != '@'
    ensures Plain(s[lo..hi])
  {
    var t := s[lo..hi];
    forall k | 0 <= k < |t| ensures !IsSpace(t[k]) && t[k] != '@' {
      assert t[k] == s[lo + k];
    }
  }

  /** A string the rule accepts matches the regular expression. */
  lemma ValidEmailMatches(s: string)
    requires ValidEmail(s)
    ensures MatchesPattern(s)
  {
    var i :| 0 < i < |s| && s[i] == '@' && (forall k | 0 <= k < |s| && k != i :: s[k] != '@')
             && (exists j | i + 1 < j < |s| - 1 :: s[j] == '.');
    var j :| i + 1 < j < |s| - 1 && s[j] == '.';
    PlainSlice(s, 0, i);
    PlainSlice(s, i + 1, j);
    PlainSlice(s, j + 1, |s|);
    assert s[0..i] == s[..i];
  }

  /** A string matching the regular expression is accepted by the rule. */
  lemma PatternIsValid(s: string)
    requires MatchesPattern(s)
    ensures ValidEmail(s)
  {
    var i, j :| 0 < i && i + 1 < j && j + 1 < |s| &&
      s[i] == '@' && s[j] == '.' && Plain(s[..i]) && Plain(s[i + 1..j]) && Plain(s[j + 1..]);
    forall k | 0 <= k < |s| && k != i
      ensures !IsSpace(s[k]) && s[k] != '@'
    {
      if k < i {
        assert s[k] == s[..i][k];
      } else if k < j {
        assert s[k] == s[i + 1..j][k - i - 1];
      } else if k > j {
        assert s[k] == s[j + 1..][k - j - 1];
      }
    }
    assert !IsSpace(s[i]);
    assert i + 1 < j < |s| - 1 && s[j] == '.';
  }

  /** The rule and the regular expression accept the same strings. */
  lemma ValidEmailIffPattern(s: string)
    ensures ValidEmail(s) <==> MatchesPattern(s)
  {
    if ValidEmail(s) {
      ValidEmailMatches(s);
    }
    if MatchesPattern(s) {
      PatternIsValid(s);
    }
  }

  /** A valid email has no white space at either end, so trimming it before
      the send changes nothing. */
  lemma ValidEmailIsTrimmed(s: string)
    requires ValidEmail(s)
    ensures Trim(s) == s
    ensures !Blank(s)
  {
    assert |s| >= 1 && !IsSpace(s[0]) && !IsSpace(s[|s| - 1]);
    assert TrimStart(s) == s;
    assert TrimEnd(s) == s;
  }

  // ---------------------------------------------------------------------------
  // Validation chain
  // ---------------------------------------------------------------------------

  /** The blank check first, then the email's shape on the untrimmed email. */
  function Validate(f: FormData): (e: Option<string>)
    ensures e == Some(BlankError) <==> Blank(f.name) || Blank(f.email) || Blank(f.message)
    ensures e == Some(EmailError) <==> !Blank(f.name) && !Blank(f.email) && !Blank(f.message) && !ValidEmail(f.email)
    ensures e == None <==> !Blank(f.name) && !Blank(f.message) && ValidEmail(f.email)
  {
    if Blank(f.name) || Blank(f.email) || Blank(f.message) then Some(BlankError)
    else if !ValidEmail(f.email) then Some(EmailError)
    else None
  }

  /** What a valid submission hands to the notification service. */
  function Trimmed(f: FormData): FormData {
    FormData(Trim(f.name), Trim(f.email), Trim(f.message))
  }

  /** An accepted form is sent with its email exactly as typed and every
      field non-empty. */
  lemma AcceptedFormIsSentClean(f: FormData)
    requires Validate(f) == None
    ensures Trimmed(f).email == f.email
    ensures Trimmed(f).name != "" && Trimmed(f).email != "" && Trimmed(f).message != ""
  {
    ValidEmailIsTrimmed(f.email);
  }

  /** The form after one field changes. */
  function WithField(f: FormData, field: Field, value: string): (g: FormData)
    ensures field == Name ==> g == f.(name := value)
    ensures field == Email ==> g == f.(email := value)
    ensures field == Message ==> g == f.(message := value)
  {
    match field
    case Name => f.(name := value)
    case Email => f.(email := value)
    case Message => f.(message := value)
  }

  /** The reply of the service: its result, or a thrown error. */
  type Reply = Notifications.Settled<Notifications.FlowResult>

  /** The error a sent form ends with: none on success. */
  function SendError(reply: Reply): (e: string)
    ensures e == "" <==> reply.Resolved? && reply.value.success
  {
    match reply
    case Rejected(_) => ThrownError
    case Resolved(r) => if r.success then "" else FailedError
  }

  class ContactForm {
    var form: FormData
    var submitted: bool
    var loading: bool
    var error: string
    /** The forms handed to the notification service, in order. */
    ghost var sent: seq<FormData>

    constructor ()
      ensures form == EmptyForm && !submitted && !loading && error == "" && sent == []
    {
      form := EmptyForm;
      submitted := false;
      loading := false;
      error := "";
      sent := [];
    }

    /** `handleChange`: one field takes the new value and the error clears. */
    method HandleChange(field: Field, value: string)
      modifies this
      ensures form == WithField(old(form), field, value)
      ensures error == ""
      ensures submitted == old(submitted) && loading == old(loading) && sent == old(sent)
    {
      form := WithField(form, field, value);
      error := "";
    }

    /** `handleSubmit`: a rejected form sends nothing and keeps its fields;
        an accepted one is sent trimmed, cleared only on success. */
    method HandleSubmit(reply: Reply)
      modifies this
      ensures !loading
      ensures Validate(old(form)).Some? ==>
        && error == Validate(old(form)).value
        && form == old(form) && submitted == old(submitted) && sent == old(sent)
      ensures Validate(old(form)).None? ==>
        && sent == old(sent) + [Trimmed(old(form))]
        && error == SendError(reply)
        && (error == "" ==> submitted && form == EmptyForm)
        && (error != "" ==> submitted == old(submitted) && form == old(form))
    {
      loading := true;
      error := "";
      var check := Validate(form);
      if check.Some? {
        error := check.value;
        loading := false;
        return;
      }
      sent := sent + [Trimmed(form)];
      match reply {
        case Rejected(_) =>
          error := ThrownError;
        case Resolved(r) =>
          if r.success {
            submitted := true;
            form := EmptyForm;
          } else {
            error := FailedError;
          }
      }
      loading := false;
    }
  }
}
