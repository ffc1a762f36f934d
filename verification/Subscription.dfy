/** `cancelSubscription(email, name)`: a chain of guards over the customer
    table, the subscription table, the payment provider and the database's
    `cancel_subscription` procedure. Each of those is an oracle in
    `Backend`; the result records which of them were consulted. */
module Subscription {
  import opened Wrappers
  import opened Text

  datatype Customer = Customer(id: string, firstName: string, lastName: string)

  datatype ActiveSubscription = ActiveSubscription(id: string, stripeSubscriptionId: Option<string>)

  /** The outside world as the chain sees it. A lookup yields `None` when
      the query errs or `.single()` finds no single row; a call yields
      `false` when it fails (a non-ok response or a rejected request for the
      provider, an error result for the procedure). */
  datatype Backend = Backend(
    customerByEmail: string -> Option<Customer>,
    activeSubscriptionOf: string -> Option<ActiveSubscription>,
    remoteCancelOk: string -> bool,
    cancelProcedureOk: string -> bool)

  /** One call the chain makes on the outside world, with its key. */
  datatype Effect =
    | CustomerQuery(email: string)
    | SubscriptionQuery(customerId: string)
    | RemoteCancel(stripeSubscriptionId: string)
    | CancelProcedure(subscriptionId: string)

  datatype CancellationResult = CancellationResult(success: bool, message: string)

  datatype Cancellation = Cancellation(result: CancellationResult, effects: seq<Effect>)

  const NoAccountMessage: string :=
    "No account found with this email address. Please check your information and try again."
  const NameMismatchMessage: string :=
    "The name provided does not match our records. Please check your information and try again."
  const NoActiveSubscriptionMessage: string := "No active subscription found for this account."
  const CancelledMessage: string :=
    "Your subscription has been successfully cancelled. You will have access until the end of your current billing period."
  const GenericErrorMessage: string :=
    "An error occurred while cancelling your subscription. Please try again or contact support."

  /** The stored full name matches the given one, ignoring case. */
  predicate NameMatches(c: Customer, name: string) {
    Lower(c.firstName + " " + c.lastName) == Lower(name)
  }

  /** The subscription is known to the payment provider (a truthy id). */
  predicate HasRemote(s: ActiveSubscription) {
    s.stripeSubscriptionId.Some? && s.stripeSubscriptionId.value != ""
  }

  /** When cancellation should succeed, stated without the chain's order:
      an account for the e-mail whose name matches, an active
      subscription, the provider accepting the cancel if it knows the
      subscription, and the procedure succeeding. */
  predicate Cancellable(b: Backend, email: string, name: string) {
    var c := b.customerByEmail(Lower(email));
    && c.Some? && NameMatches(c.value, name)
    && var s := b.activeSubscriptionOf(c.value.id);
    && s.Some?
    && (HasRemote(s.value) ==> b.remoteCancelOk(s.value.stripeSubscriptionId.value))
    && b.cancelProcedureOk(s.value.id)
  }

  predicate KnownMessage(m: string) {
    m in {NoAccountMessage, NameMismatchMessage, NoActiveSubscriptionMessage,
          CancelledMessage, GenericErrorMessage}
  }

  function CancelSubscription(b: Backend, email: string, name: string): (c: Cancellation)
    // the customer is always looked up first, by the lower-cased e-mail
    ensures 1 <= |c.effects| <= 4 && c.effects[0] == CustomerQuery(Lower(email))
    // no account: that message, and nothing else is consulted
    ensures b.customerByEmail(Lower(email)).None? ==>
      c == Cancellation(CancellationResult(false, NoAccountMessage), [CustomerQuery(Lower(email))])
    // wrong name: that message, and no subscription lookup or remote call
    ensures b.customerByEmail(Lower(email)).Some? && !NameMatches(b.customerByEmail(Lower(email)).value, name) ==>
      c == Cancellation(CancellationResult(false, NameMismatchMessage), [CustomerQuery(Lower(email))])
    // no active subscription: that message, after exactly the two lookups
    ensures (var cu := b.customerByEmail(Lower(email));
             cu.Some? && NameMatches(cu.value, name) && b.activeSubscriptionOf(cu.value.id).None?) ==>
      c == Cancellation(CancellationResult(false, NoActiveSubscriptionMessage),
                        [CustomerQuery(Lower(email)), SubscriptionQuery(b.customerByEmail(Lower(email)).value.id)])
    // the provider refuses: the generic error, and the procedure is not run
    ensures (var cu := b.customerByEmail(Lower(email));
             cu.Some? && NameMatches(cu.value, name) && b.activeSubscriptionOf(cu.value.id).Some? &&
             var sub := b.activeSubscriptionOf(cu.value.id).value;
             HasRemote(sub) && !b.remoteCancelOk(sub.stripeSubscriptionId.value)) ==>
      var cu := b.customerByEmail(Lower(email)).value;
      var sub := b.activeSubscriptionOf(cu.id).value;
      c == Cancellation(CancellationResult(false, GenericErrorMessage),
                        [CustomerQuery(Lower(email)), SubscriptionQuery(cu.id), RemoteCancel(sub.stripeSubscriptionId.value)])
    // the provider accepted or does not know the subscription: the provider
    // is called iff it knows it, then the procedure runs, and its outcome
    // decides between the cancelled message and the generic error
    ensures (var cu := b.customerByEmail(Lower(email));
             cu.Some? && NameMatches(cu.value, name) && b.activeSubscriptionOf(cu.value.id).Some? &&
             var sub := b.activeSubscriptionOf(cu.value.id).value;
             !(HasRemote(sub) && !b.remoteCancelOk(sub.stripeSubscriptionId.value))) ==>
      var cu := b.customerByEmail(Lower(email)).value;
      var sub := b.activeSubscriptionOf(cu.id).value;
      && c.effects == [CustomerQuery(Lower(email)), SubscriptionQuery(cu.id)]
                      + (if HasRemote(sub) then [RemoteCancel(sub.stripeSubscriptionId.value)] else [])
                      + [CancelProcedure(sub.id)]
      && c.result == (if b.cancelProcedureOk(sub.id) then CancellationResult(true, CancelledMessage)
                      else CancellationResult(false, GenericErrorMessage))
    // the provider is called only for a subscription it knows
    ensures forall k :: 0 <= k < |c.effects| && c.effects[k].RemoteCancel? ==>
      k == 2 && c.effects[1].SubscriptionQuery? && c.effects[k].stripeSubscriptionId != ""
    // the procedure runs last, and only after the provider (if called) accepted
    ensures forall k :: 0 <= k < |c.effects| && c.effects[k].CancelProcedure? ==>
      && k == |c.effects| - 1
      && forall j :: 0 <= j < k && c.effects[j].RemoteCancel? ==> b.remoteCancelOk(c.effects[j].stripeSubscriptionId)
    ensures c.result.success <==> Cancellable(b, email, name)
    ensures c.result.success <==> c.result.message == CancelledMessage
    ensures KnownMessage(c.result.message)
  {
    var lookup := CustomerQuery(Lower(email));
    match b.customerByEmail(Lower(email))
    case None =>
      Cancellation(CancellationResult(false, NoAccountMessage), [lookup])
    case Some(customer) =>
      if !NameMatches(customer, name) then
        Cancellation(CancellationResult(false, NameMismatchMessage), [lookup])
      else
        var trace := [lookup, SubscriptionQuery(customer.id)];
        match b.activeSubscriptionOf(customer.id)
        case None =>
          Cancellation(CancellationResult(false, NoActiveSubscriptionMessage), trace)
        case Some(sub) =>
          var trace' :=
            if HasRemote(sub) then trace + [RemoteCancel(sub.stripeSubscriptionId.value)] else trace;
          if HasRemote(sub) && !b.remoteCancelOk(sub.stripeSubscriptionId.value) then
            Cancellation(CancellationResult(false, GenericErrorMessage), trace')
          else if !b.cancelProcedureOk(sub.id) then
            Cancellation(CancellationResult(false, GenericErrorMessage), trace' + [CancelProcedure(sub.id)])
          else
            Cancellation(CancellationResult(true, CancelledMessage), trace' + [CancelProcedure(sub.id)])
  }

  /** The name check compares first and last name separately, each
      ignoring case, with a single space between them. */
  lemma NameCheckByParts(c: Customer, name: string)
    ensures NameMatches(c, name) <==> Lower(c.firstName) + " " + Lower(c.lastName) == Lower(name)
  {
    LowerConcat(c.firstName, " ");
    LowerConcat(c.firstName + " ", c.lastName);
  }

  /** The e-mail's case never changes the outcome. */
  lemma EmailCaseIrrelevant(b: Backend, e1: string, e2: string, name: string)
    requires Lower(e1) == Lower(e2)
    ensures CancelSubscription(b, e1, name) == CancelSubscription(b, e2, name)
  {
  }

  /** Neither does the case of the name. */
  lemma NameCaseIrrelevant(b: Backend, email: string, n1: string, n2: string)
    requires Lower(n1) == Lower(n2)
    ensures CancelSubscription(b, email, n1) == CancelSubscription(b, email, n2)
  {
  }

  /** Entering the name already lower-cased still passes the check. */
  lemma {:induction false} LowerCasedNameAccepted(c: Customer, name: string)
    requires NameMatches(c, name)
    ensures NameMatches(c, Lower(name))
  {
    LowerIdempotent(name);
  }
}
