/** The server-side mail sender: credential validation, the retrying send over
    the TLS transport and over the SSL transport, and the fallback that tries
    TLS, then SSL, and reports instead of throwing. Each send attempt (create
    the transport, verify the connection, send the mail) is an outside outcome,
    given as an oracle from attempt number to outcome; the waits between
    attempts are recorded in a ghost log instead of being slept. */
module Mailer {
  import opened JsText

  /** The two environment variables; an unset and an empty variable are both falsy. */
  datatype Env = Env(emailUser: Option<string>, emailPass: Option<string>)

  datatype Transport = Tls | Ssl

  /** What one attempt ended in. */
  datatype Attempt = Sent | AttemptFailed(message: string)

  /** A send either returns normally or throws an error with a message. */
  datatype SendResult = Returned | Threw(message: string)

  /** The object `sendEmailSafe` resolves to. */
  datatype SafeResult = SafeResult(success: bool, error: Option<string>, via: Option<string>)

  datatype Credentials = Credentials(user: string, pass: string)

  datatype Config = ConfigOk(credentials: Credentials) | ConfigFailed(message: string)

  const CredentialsError := "EMAIL_USER and EMAIL_PASS environment variables must be defined"

  /** The number of attempts `sendEmailSafe` asks each transport for (the
      parameter's default). */
  const DefaultRetries := 3

  predicate Configured(env: Env) {
    Present(env.emailUser) && Present(env.emailPass)
  }

  /** `validateEmailConfig` */
  function ValidateEmailConfig(onServer: bool, env: Env): (c: Config)
    ensures c.ConfigOk? <==> onServer && Configured(env)
    ensures c.ConfigOk? ==> c.credentials == Credentials(env.emailUser.value, env.emailPass.value)
    ensures onServer && !Configured(env) ==> c == ConfigFailed(CredentialsError)
  {
    if !onServer then ConfigFailed("Email configuration can only be validated on the server side")
    else if !Present(env.emailUser) || !Present(env.emailPass) then ConfigFailed(CredentialsError)
    else ConfigOk(Credentials(env.emailUser.value, env.emailPass.value))
  }

  function TransportName(t: Transport): string {
    match t
    case Tls => "TLS"
    case Ssl => "SSL"
  }

  /** The error thrown when the send function is called in the browser. */
  function ClientError(t: Transport): string {
    match t
    case Tls => "sendEmail can only be called on server side"
    case Ssl => "sendEmailAlternative can only be called on server side"
  }

  /** The error thrown after the last failed attempt. */
  function ExhaustedError(t: Transport, retries: int, last: string): string {
    "Failed to send email (" + TransportName(t) + ") after " + IntToString(retries) + " attempts: " + last
  }

  /** The wait after failed attempt k: 1000 * 2^(k - 1) ms. */
  function Delay(k: nat): nat
    requires k >= 1
  {
    1000 * Pow2(k - 1)
  }

  /** The waits after attempts 1 .. n. */
  function Backoff(n: nat): (d: seq<nat>)
    ensures |d| == n
    ensures forall i | 0 <= i < n :: d[i] == Delay(i + 1)
  {
    seq(n, i requires 0 <= i < n => Delay(i + 1))
  }

  function MessageOf(a: Attempt): string {
    match a
    case Sent => ""
    case AttemptFailed(m) => m
  }

  /** The first attempt number in [from, to] whose outcome is `Sent`, or the
      first number past the range. */
  function FirstSent(outcome: nat -> Attempt, from: nat, to: int): (k: nat)
    decreases to - from
    ensures from <= k
    ensures k <= to ==> outcome(k).Sent?
    ensures forall j | from <= j < k && j <= to :: !outcome(j).Sent?
    ensures k > to ==> k == if from <= to then to + 1 else from
  {
    if from > to then from
    else if outcome(from).Sent? then from
    else FirstSent(outcome, from + 1, to)
  }

  /** What a send returns once the credentials have been validated. A
      non-positive `retries` skips the loop, and the send returns normally. */
  function Delivery(t: Transport, retries: int, outcome: nat -> Attempt): (r: SendResult)
    ensures retries >= 1 ==> (r.Returned? <==> exists k | 1 <= k <= retries :: outcome(k).Sent?)
    ensures retries >= 1 && r.Threw? ==> r.message == ExhaustedError(t, retries, MessageOf(outcome(retries)))
    ensures retries <= 0 ==> r == Returned
  {
    if retries <= 0 then Returned
    else if FirstSent(outcome, 1, retries) <= retries then Returned
    else Threw(ExhaustedError(t, retries, MessageOf(outcome(retries))))
  }

  /** How many attempts a send makes once the credentials have been
      validated: up to and including the first success, at most `retries`. */
  function AttemptCount(retries: int, outcome: nat -> Attempt): (n: nat)
    ensures retries <= 0 ==> n == 0
    ensures retries >= 1 ==> 1 <= n <= retries
    ensures retries >= 1 && n < retries ==> outcome(n).Sent?
    ensures forall j | 1 <= j < n :: !outcome(j).Sent?
  {
    if retries <= 0 then 0
    else var k := FirstSent(outcome, 1, retries); if k <= retries then k else retries
  }

  /** `sendEmail` (TLS) and `sendEmailAlternative` (SSL). */
  method SendEmail(t: Transport, onServer: bool, env: Env, retries: int, outcome: nat -> Attempt)
    returns (r: SendResult, ghost attempts: nat, ghost delays: seq<nat>)
    ensures !onServer ==> r == Threw(ClientError(t)) && attempts == 0 && delays == []
    ensures onServer && !Configured(env) ==> r == Threw(CredentialsError) && attempts == 0 && delays == []
    ensures onServer && Configured(env) ==>
      && r == Delivery(t, retries, outcome)
      && attempts == AttemptCount(retries, outcome)
      && delays == Backoff(if attempts == 0 then 0 else attempts - 1)
  {
    if !onServer {
      return Threw(ClientError(t)), 0, [];
    }
    var config := ValidateEmailConfig(onServer, env);
    if config.ConfigFailed? {
      return Threw(config.message), 0, [];
    }
    attempts := 0;
    delays := [];
    var attempt := 1;
    while attempt <= retries
      invariant 1 <= attempt && (retries >= 1 ==> attempt <= retries) && (retries <= 0 ==> attempt == 1)
      invariant attempts == attempt - 1
      invariant forall j | 1 <= j < attempt :: !outcome(j).Sent?
      invariant delays == Backoff(attempt - 1)
      decreases retries - attempt
    {
      attempts := attempts + 1;
      var o := outcome(attempt);
      if o.Sent? {
        r := Returned;
        assert FirstSent(outcome, 1, retries) == attempt by {
          FirstSentIsLeast(outcome, 1, retries, attempt);
        }
        return;
      }
      if attempt == retries {
        assert FirstSent(outcome, 1, retries) == retries + 1;
        r := Threw(ExhaustedError(t, retries, o.message));
        return;
      }
      delays := delays + [Delay(attempt)];
      attempt := attempt + 1;
    }
    r := Returned;
  }

  /** A `Sent` at k with no `Sent` before it makes k the first. */
  lemma {:induction false} FirstSentIsLeast(outcome: nat -> Attempt, from: nat, to: int, k: nat)
    requires from <= k <= to && outcome(k).Sent?
    requires forall j | from <= j < k :: !outcome(j).Sent?
    ensures FirstSent(outcome, from, to) == k
    decreases k - from
  {
    if from < k {
      FirstSentIsLeast(outcome, from + 1, to, k);
    }
  }

  /** `sendEmailSafe`: TLS first, SSL if TLS threw, a combined report if both
      threw; it never throws. */
  method SendEmailSafe(onServer: bool, env: Env, tls: nat -> Attempt, ssl: nat -> Attempt)
    returns (r: SafeResult, ghost tlsAttempts: nat, ghost sslAttempts: nat)
    ensures !onServer ==>
      r == SafeResult(false, Some("Email sending can only be performed on server side"), None)
      && tlsAttempts == 0 && sslAttempts == 0
    ensures onServer && !Configured(env) ==>
      && r == SafeResult(false, Some("TLS: " + CredentialsError + ", SSL: " + CredentialsError), None)
      && tlsAttempts == 0 && sslAttempts == 0
    ensures onServer && Configured(env) ==>
      && tlsAttempts == AttemptCount(DefaultRetries, tls)
      && (Delivery(Tls, DefaultRetries, tls).Returned? ==>
            r == SafeResult(true, None, Some("TLS")) && sslAttempts == 0)
      && (Delivery(Tls, DefaultRetries, tls).Threw? ==> sslAttempts == AttemptCount(DefaultRetries, ssl))
      && (Delivery(Tls, DefaultRetries, tls).Threw? && Delivery(Ssl, DefaultRetries, ssl).Returned? ==>
            r == SafeResult(true, None, Some("SSL")))
      && (Delivery(Tls, DefaultRetries, tls).Threw? && Delivery(Ssl, DefaultRetries, ssl).Threw? ==>
            r == SafeResult(false, Some("TLS: " + Delivery(Tls, DefaultRetries, tls).message + ", SSL: "
                                        + Delivery(Ssl, DefaultRetries, ssl).message), None))
    ensures r.success <==>
      onServer && Configured(env)
      && ((exists k | 1 <= k <= DefaultRetries :: tls(k).Sent?) || (exists k | 1 <= k <= DefaultRetries :: ssl(k).Sent?))
    ensures r.success <==> r.via.Some?
  {
    if !onServer {
      return SafeResult(false, Some("Email sending can only be performed on server side"), None), 0, 0;
    }
    tlsAttempts, sslAttempts := 0, 0;
    var first: SendResult;
    var config := ValidateEmailConfig(onServer, env);
    if config.ConfigFailed? {
      first := Threw(config.message);
    } else {
      ghost var delays;
      first, tlsAttempts, delays := SendEmail(Tls, onServer, env, DefaultRetries, tls);
    }
    if first.Returned? {
      return SafeResult(true, None, Some("TLS")), tlsAttempts, sslAttempts;
    }
    ghost var sslDelays;
    var second;
    second, sslAttempts, sslDelays := SendEmail(Ssl, onServer, env, DefaultRetries, ssl);
    if second.Returned? {
      return SafeResult(true, None, Some("SSL")), tlsAttempts, sslAttempts;
    }
    r := SafeResult(false, Some("TLS: " + first.message + ", SSL: " + second.message), None);
  }

  // ---------------------------------------------------------------------------
  // A non-positive `retries`
  // ---------------------------------------------------------------------------

  /** As written, a send asked for zero attempts returns normally, so its
      caller takes an email that was never sent for a delivered one. */
  lemma ZeroRetriesReportsDelivery(t: Transport, outcome: nat -> Attempt)
    ensures Delivery(t, 0, outcome) == Returned
    ensures AttemptCount(0, outcome) == 0
  {
  }

  /** The evidently intended delivery: a normal return only after an attempt
      that sent, and a thrown "after 0 attempts" error otherwise. */
  function CheckedDelivery(t: Transport, retries: int, outcome: nat -> Attempt): (r: SendResult)
    ensures r.Returned? <==> exists k | 1 <= k <= retries :: outcome(k).Sent?
  {
    if retries <= 0 then Threw("Failed to send email (" + TransportName(t) + ") after " + IntToString(retries) + " attempts")
    else Delivery(t, retries, outcome)
  }

  /** The two agree whenever at least one attempt is asked for, as with the
      default of 3 that every caller uses. */
  lemma CheckedDeliveryAgrees(t: Transport, retries: int, outcome: nat -> Attempt)
    requires retries >= 1
    ensures CheckedDelivery(t, retries, outcome) == Delivery(t, retries, outcome)
    ensures CheckedDelivery(t, retries, outcome).Returned? ==> AttemptCount(retries, outcome) >= 1
  {
  }
}
