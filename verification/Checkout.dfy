/** The checkout page (`Checkout`): its component state as the fields of a
    class, its handlers as methods, and the button-enable conditions and
    the post-payment route as functions of a snapshot of that state. The
    payment widgets are outside the model; their success callback is the
    call `HandlePaymentSuccess`. */
module Checkout {
  import opened Wrappers
  import opened Text
  import Payments
  import Email

  /** The plan handed over from the pricing page; its price in cents. */
  datatype Plan = Plan(name: string, priceCents: int)

  /** The plan shown when the page is opened without one. */
  const DefaultPlan: Plan := Plan("Basic", 500)

  const FreePromoCode: string := "free"
  const InvalidPromoMessage: string := "Invalid promo code"
  const PaymentInitFailedMessage: string := "Failed to initialize payment. Please try again."

  datatype PaymentMethod = Card | PayPal

  /** Where the page navigates after a successful payment, with the
      navigation state it carries. */
  datatype Navigation =
    | ThankYou(plan: string)
    | ThankYouGift(giftEmail: string, plan: string, senderName: string, giftMessage: string)

  /** All component state of the page at one moment. */
  datatype State = State(
    isGift: bool, giftEmail: string, gifterName: string, giftMessage: string,
    customerName: string, customerEmail: string,
    promoCode: string, promoApplied: bool, paymentMethod: PaymentMethod,
    clientSecret: Option<string>, isProcessing: bool, error: Option<string>)

  const InitialState: State :=
    State(false, "", "", "", "", "", "", false, Card, None, false, None)

  /** The promo code is accepted when its lower-cased form is `"free"`. */
  predicate PromoAccepted(code: string) {
    Lower(code) == FreePromoCode
  }

  /** Every capitalisation of "free", and nothing else, is accepted. */
  lemma PromoAcceptedSpellings(code: string)
    ensures PromoAccepted(code) <==>
      && |code| == 4
      && (code[0] == 'f' || code[0] == 'F') && (code[1] == 'r' || code[1] == 'R')
      && (code[2] == 'e' || code[2] == 'E') && (code[3] == 'e' || code[3] == 'E')
  {
    var l := Lower(code);
    if |code| == 4 {
      assert l == [l[0], l[1], l[2], l[3]];
      assert FreePromoCode == ['f', 'r', 'e', 'e'];
    }
  }

  /** The Apply button is enabled while no promo is applied and a code is typed. */
  predicate ApplyEnabled(s: State) {
    !(s.promoApplied || s.promoCode == "")
  }

  /** The Complete Order button is enabled when the page is idle, name and
      e-mail are filled in and, for a gift, so is the recipient's e-mail. */
  predicate CompleteOrderEnabled(s: State) {
    !(s.isProcessing || (s.isGift && s.giftEmail == "") || s.customerEmail == "" || s.customerName == "")
  }

  /** The name shown as the giver: `gifterName || customerName`. */
  function SenderName(s: State): (r: string)
    ensures s.gifterName != "" ==> r == s.gifterName
    ensures s.gifterName == "" ==> r == s.customerName
  {
    if s.gifterName != "" then s.gifterName else s.customerName
  }

  /** Where a successful payment leads. */
  function Route(s: State, planName: string): (n: Navigation)
    ensures n.ThankYouGift? <==> s.isGift && s.giftEmail != ""
    ensures n.plan == planName
    ensures n.ThankYouGift? ==> n == ThankYouGift(s.giftEmail, planName, SenderName(s), s.giftMessage)
  {
    if s.isGift && s.giftEmail != "" then
      ThankYouGift(s.giftEmail, planName, SenderName(s), s.giftMessage)
    else
      ThankYou(planName)
  }

  /** When Complete Order is enabled, the gift route is taken exactly for a
      gift, and the giver's name is never empty. */
  lemma EnabledOrderRoutes(s: State, planName: string)
    requires CompleteOrderEnabled(s)
    ensures Route(s, planName).ThankYouGift? <==> s.isGift
    ensures Route(s, planName).ThankYouGift? ==> Route(s, planName).senderName != ""
  {
  }

  class CheckoutPage {
    const plan: Plan
    var isGift: bool
    var giftEmail: string
    var gifterName: string
    var giftMessage: string
    var customerName: string
    var customerEmail: string
    var promoCode: string
    var promoApplied: bool
    var paymentMethod: PaymentMethod
    var clientSecret: Option<string>
    var isProcessing: bool
    var error: Option<string>

    function Snapshot(): State
      reads this
    {
      State(isGift, giftEmail, gifterName, giftMessage, customerName, customerEmail,
            promoCode, promoApplied, paymentMethod, clientSecret, isProcessing, error)
    }

    /** A payment secret never survives an applied promo code. */
    ghost predicate Valid()
      reads this
    {
      promoApplied ==> clientSecret.None?
    }

    /** Opening the page, with or without a plan from the pricing page. */
    constructor (selected: Option<Plan>)
      ensures Valid()
      ensures plan == selected.GetOr(DefaultPlan)
      ensures Snapshot() == InitialState
    {
      plan := selected.GetOr(DefaultPlan);
      isGift, giftEmail, gifterName, giftMessage := false, "", "", "";
      customerName, customerEmail := "", "";
      promoCode, promoApplied, paymentMethod := "", false, Card;
      clientSecret, isProcessing, error := None, false, None;
    }

    method SetCustomerName(v: string)
      requires Valid()
      modifies this
      ensures Valid() && (old(promoApplied) ==> promoApplied)
      ensures Snapshot() == old(Snapshot()).(customerName := v)
    {
      customerName := v;
    }

    method SetCustomerEmail(v: string)
      requires Valid()
      modifies this
      ensures Valid() && (old(promoApplied) ==> promoApplied)
      ensures Snapshot() == old(Snapshot()).(customerEmail := v)
    {
      customerEmail := v;
    }

    method ToggleGift()
      requires Valid()
      modifies this
      ensures Valid() && (old(promoApplied) ==> promoApplied)
      ensures Snapshot() == old(Snapshot()).(isGift := !old(isGift))
    {
      isGift := !isGift;
    }

    method SetGiftEmail(v: string)
      requires Valid()
      modifies this
      ensures Valid() && (old(promoApplied) ==> promoApplied)
      ensures Snapshot() == old(Snapshot()).(giftEmail := v)
    {
      giftEmail := v;
    }

    method SetGifterName(v: string)
      requires Valid()
      modifies this
      ensures Valid() && (old(promoApplied) ==> promoApplied)
      ensures Snapshot() == old(Snapshot()).(gifterName := v)
    {
      gifterName := v;
    }

    method SetGiftMessage(v: string)
      requires Valid()
      modifies this
      ensures Valid() && (old(promoApplied) ==> promoApplied)
      ensures Snapshot() == old(Snapshot()).(giftMessage := v)
    {
      giftMessage := v;
    }

    method SetPromoCode(v: string)
      requires Valid()
      modifies this
      ensures Valid() && (old(promoApplied) ==> promoApplied)
      ensures Snapshot() == old(Snapshot()).(promoCode := v)
    {
      promoCode := v;
    }

    method SelectPaymentMethod(m: PaymentMethod)
      requires Valid()
      modifies this
      ensures Valid() && (old(promoApplied) ==> promoApplied)
      ensures Snapshot() == old(Snapshot()).(paymentMethod := m)
    {
      paymentMethod := m;
    }

    /** One firing of the payment-initialisation effect: nothing happens
        once a promo is applied or for PayPal; otherwise the error is
        cleared and `initializePayment` runs, and its secret or a fixed
        error message lands in the state. */
    method InitPayment(server: nat -> Payments.Response) returns (requests: seq<Payments.PaymentRequest>)
      requires Valid()
      modifies this
      ensures Valid() && (old(promoApplied) ==> promoApplied)
      ensures old(promoApplied) || old(paymentMethod) != Card ==>
        requests == [] && Snapshot() == old(Snapshot())
      ensures !old(promoApplied) && old(paymentMethod) == Card ==>
        && 1 <= |requests| <= Payments.MaxRetries
        && (forall i :: 0 <= i < |requests| ==>
              requests[i] == Payments.PaymentRequest(plan.priceCents, Payments.DefaultCurrency))
        && if exists k :: 0 <= k < Payments.MaxRetries && Payments.Usable(server(k)) then
             && clientSecret.Some?
             && Payments.Classify(server(|requests| - 1)) == Payments.Issued(clientSecret.value)
             && Snapshot() == old(Snapshot()).(clientSecret := clientSecret, error := None)
           else
             Snapshot() == old(Snapshot()).(error := Some(PaymentInitFailedMessage))
    {
      requests := [];
      if promoApplied || paymentMethod != Card {
        return;
      }
      error := None;
      var result, waits;
      result, requests, waits := Payments.InitializePayment(server, plan.priceCents);
      match result {
        case Ok(secret) => clientSecret := Some(secret);
        case Err(_) => error := Some(PaymentInitFailedMessage);
      }
    }

    /** `handlePromoCode`: "free" in any case applies the promo, clears the
        error and drops the payment secret; anything else only sets the
        error. */
    method HandlePromoCode()
      requires Valid()
      modifies this
      ensures Valid() && (old(promoApplied) ==> promoApplied)
      ensures PromoAccepted(old(promoCode)) ==>
        Snapshot() == old(Snapshot()).(promoApplied := true, error := None, clientSecret := None)
      ensures !PromoAccepted(old(promoCode)) ==>
        Snapshot() == old(Snapshot()).(error := Some(InvalidPromoMessage))
    {
      if PromoAccepted(promoCode) {
        promoApplied := true;
        error := None;
        clientSecret := None;
      } else {
        error := Some(InvalidPromoMessage);
      }
    }

    /** A click on Apply, which runs the handler only when enabled. */
    method ClickApply() returns (handled: bool)
      requires Valid()
      modifies this
      ensures Valid() && (old(promoApplied) ==> promoApplied)
      ensures handled == ApplyEnabled(old(Snapshot()))
      ensures !handled ==> Snapshot() == old(Snapshot())
      ensures handled && PromoAccepted(old(promoCode)) ==>
        Snapshot() == old(Snapshot()).(promoApplied := true, error := None, clientSecret := None)
      ensures handled && !PromoAccepted(old(promoCode)) ==>
        Snapshot() == old(Snapshot()).(error := Some(InvalidPromoMessage))
    {
      handled := ApplyEnabled(Snapshot());
      if handled {
        HandlePromoCode();
      }
    }

    /** `handlePaymentSuccess`: for a gift with a recipient, send the gift
        e-mail (whose failure `sendEmail` already absorbs) and go to the
        gift confirmation; otherwise go to the plain one. The page ends
        idle with no error. */
    method HandlePaymentSuccess(relay: Email.EmailRequest -> Email.RelayOutcome)
      returns (nav: Navigation, sent: Option<Email.EmailOptions>)
      requires Valid()
      modifies this
      ensures Valid() && (old(promoApplied) ==> promoApplied)
      ensures nav == Route(old(Snapshot()), plan.name)
      ensures sent.Some? <==> nav.ThankYouGift?
      ensures nav.ThankYouGift? ==>
        sent == Some(Email.GiftEmail(old(giftEmail), SenderName(old(Snapshot())), plan.name))
      ensures Snapshot() == old(Snapshot()).(isProcessing := false, error := None)
    {
      isProcessing := true;
      error := None;
      if isGift && giftEmail != "" {
        var sender := if gifterName != "" then gifterName else customerName;
        var gift := Email.GiftEmail(giftEmail, sender, plan.name);
        var _ := Email.SendEmail(gift, relay);
        sent := Some(gift);
        nav := ThankYouGift(giftEmail, plan.name, sender, giftMessage);
      } else {
        sent := None;
        nav := ThankYou(plan.name);
      }
      isProcessing := false;
    }

    /** A click on Complete Order, shown only once a promo is applied and
        acting only when enabled. */
    method ClickCompleteOrder(relay: Email.EmailRequest -> Email.RelayOutcome)
      returns (nav: Option<Navigation>, sent: Option<Email.EmailOptions>)
      requires Valid()
      modifies this
      ensures Valid() && (old(promoApplied) ==> promoApplied)
      ensures nav.Some? <==> old(promoApplied) && CompleteOrderEnabled(old(Snapshot()))
      ensures nav.Some? ==> nav.value == Route(old(Snapshot()), plan.name)
      ensures nav.Some? ==> Snapshot() == old(Snapshot()).(isProcessing := false, error := None)
      ensures sent.Some? <==> nav.Some? && nav.value.ThankYouGift?
      ensures sent.Some? ==>
        sent == Some(Email.GiftEmail(old(giftEmail), SenderName(old(Snapshot())), plan.name))
      ensures nav.None? ==> Snapshot() == old(Snapshot())
    {
      nav, sent := None, None;
      if promoApplied && CompleteOrderEnabled(Snapshot()) {
        var n;
        n, sent := HandlePaymentSuccess(relay);
        nav := Some(n);
      }
    }
  }

  /** A free checkout: the promo is applied before any payment method is
      used, no payment request is ever made, and Complete Order alone
      leads to the confirmation. */
  method FreeCheckoutScenario(server: nat -> Payments.Response, relay: Email.EmailRequest -> Email.RelayOutcome)
  {
    var page := new CheckoutPage(Some(Plan("Basic", 500)));
    page.SetCustomerName("Ada");
    page.SetCustomerEmail("ada@example.com");
    page.SetPromoCode("FREE");
    assert PromoAccepted("FREE");
    var handled := page.ClickApply();
    assert handled && page.promoApplied && page.clientSecret == None;
    var requests := page.InitPayment(server);
    assert requests == [];
    var nav, sent := page.ClickCompleteOrder(relay);
    assert nav == Some(ThankYou("Basic")) && sent == None;
  }
}
