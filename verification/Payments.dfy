/** The client that asks the back end for a card payment intent
    (`initializePayment`): up to three attempts, exponential back-off
    between them, and the first usable client secret wins. The back end is
    an oracle from the attempt number to what that attempt observed; the
    waits are returned instead of slept. */
module Payments {
  import opened Wrappers
  import opened Text

  const MaxRetries: nat := 3
  const BackoffBaseMs: nat := 1000
  const DefaultCurrency: string := "usd"

  const MissingSecretMessage: string :=
    "Invalid response from payment server: missing client secret"
  const ConnectFailedMessage: string := "Failed to connect to payment server"

  /** What `response.json()` produced: a parse error, or a body whose
      `clientSecret` field may be absent. */
  datatype Body = Unparsable(parseError: string) | Json(clientSecret: Option<string>)

  /** What one attempt observed: `fetch` rejected (with an `Error`, or with
      some other value), or the server answered. */
  datatype Response =
    | Rejected(thrownIsError: bool, message: string)
    | Http(ok: bool, status: nat, statusText: string, body: Body)

  /** The body `JSON.stringify({amount, currency})` of one request. */
  datatype PaymentRequest = PaymentRequest(amount: int, currency: string)

  /** The verdict on one attempt: a client secret, or the message of the
      error the attempt ended with (`lastError.message`). */
  datatype Attempt = Issued(secret: string) | Failed(message: string)

  /** A response is usable exactly when it is ok and carries a truthy
      (present, non-empty) client secret. */
  predicate Usable(r: Response) {
    r.Http? && r.ok && r.body.Json? && r.body.clientSecret.Some? && r.body.clientSecret.value != ""
  }

  function Classify(r: Response): (a: Attempt)
    ensures a.Issued? <==> Usable(r)
    ensures a.Issued? ==> a.secret == r.body.clientSecret.value
    ensures r.Http? && !r.ok ==>
      a == Failed("Server responded with " + NatToString(r.status) + ": " + r.statusText)
    ensures r.Http? && r.ok && r.body.Json? && !Usable(r) ==> a == Failed(MissingSecretMessage)
  {
    match r
    case Rejected(isError, message) =>
      Failed(if isError then message else ConnectFailedMessage)
    case Http(ok, status, statusText, body) =>
      if !ok then
        Failed("Server responded with " + NatToString(status) + ": " + statusText)
      else
        match body
        case Unparsable(e) => Failed(e)
        case Json(secret) =>
          if secret.Some? && secret.value != "" then Issued(secret.value)
          else Failed(MissingSecretMessage)
  }

  function Pow2(k: nat): (p: nat)
    ensures p >= 1
  {
    if k == 0 then 1 else 2 * Pow2(k - 1)
  }

  /** The wait after failed attempt `k`: `Math.pow(2, k) * 1000` ms. */
  function Backoff(k: nat): (w: nat)
    ensures w >= BackoffBaseMs
  {
    Pow2(k) * BackoffBaseMs
  }

  function Sum(s: seq<nat>): (total: nat) {
    if s == [] then 0 else Sum(s[..|s| - 1]) + s[|s| - 1]
  }

  /** The waits of a schedule of `n` back-offs add up to (2^n - 1) seconds. */
  lemma {:induction false} BackoffTotal(waits: seq<nat>)
    requires forall i :: 0 <= i < |waits| ==> waits[i] == Backoff(i)
    ensures Sum(waits) == (Pow2(|waits|) - 1) * BackoffBaseMs
  {
    if waits != [] {
      BackoffTotal(waits[..|waits| - 1]);
    }
  }

  function ExhaustedMessage(lastMessage: string): (m: string) {
    "Payment initialization failed after " + NatToString(MaxRetries) + " attempts: " + lastMessage
  }

  /** `initializePayment(amount, currency)`, with the amount already in
      cents. Returns the outcome, the requests sent and the waits taken. */
  method InitializePayment(server: nat -> Response, amountCents: int, currency: string := DefaultCurrency)
    returns (result: Result<string>, requests: seq<PaymentRequest>, waits: seq<nat>)
    ensures 1 <= |requests| <= MaxRetries
    ensures forall i :: 0 <= i < |requests| ==> requests[i] == PaymentRequest(amountCents, currency)
    // every attempt before the last one made failed
    ensures forall i :: 0 <= i < |requests| - 1 ==> !Usable(server(i))
    // success: the last attempt made returned this secret, unchanged
    ensures result.Ok? ==> Classify(server(|requests| - 1)) == Issued(result.value)
    // failure: all three attempts failed and the last one's message is reported
    ensures result.Err? ==>
      && |requests| == MaxRetries
      && !Usable(server(MaxRetries - 1))
      && result.error == ExhaustedMessage(Classify(server(MaxRetries - 1)).message)
    ensures result.Ok? <==> exists k :: 0 <= k < MaxRetries && Usable(server(k))
    // a wait follows every failed attempt except the last, doubling from 1 s
    ensures |waits| == |requests| - 1
    ensures forall i :: 0 <= i < |waits| ==> waits[i] == Backoff(i)
    ensures Sum(waits) <= (Pow2(MaxRetries - 1) - 1) * BackoffBaseMs
  {
    requests, waits := [], [];
    var lastError: Option<string> := None;
    var attempt: nat := 0;
    while attempt < MaxRetries
      invariant attempt <= MaxRetries
      invariant |requests| == attempt
      invariant forall i :: 0 <= i < attempt ==> requests[i] == PaymentRequest(amountCents, currency)
      invariant forall i :: 0 <= i < attempt ==> !Usable(server(i))
      invariant attempt > 0 ==> lastError == Some(Classify(server(attempt - 1)).message)
      invariant |waits| == if attempt < MaxRetries then attempt else MaxRetries - 1
      invariant forall i :: 0 <= i < |waits| ==> waits[i] == Backoff(i)
    {
      requests := requests + [PaymentRequest(amountCents, currency)];
      match Classify(server(attempt)) {
        case Issued(secret) =>
          BackoffTotal(waits);
          result := Ok(secret);
          return;
        case Failed(message) =>
          lastError := Some(message);
          // only wait and retry if attempts are left
          if attempt < MaxRetries - 1 {
            waits := waits + [Backoff(attempt)];
          }
      }
      attempt := attempt + 1;
    }
    BackoffTotal(waits);
    result := Err(ExhaustedMessage(lastError.value));
  }
}
