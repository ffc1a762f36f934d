/** The browser's e-mail client: `sendEmail` posts a message to the mail
    relay and reports delivery as a boolean, and four template builders
    choose the recipient, subject and text. The relay is an oracle from the
    request body to what the request observed. */
module Email {
  import opened Text

  const SenderEmail: string := "support@kinscreen.com"
  const FreeTrialPlan: string := "Free Trial"

  /** What a caller hands to `sendEmail`. */
  datatype EmailOptions = EmailOptions(to: string, subject: string, text: string)

  /** The JSON body posted to the relay's `/send-email` endpoint. */
  datatype EmailRequest = EmailRequest(from: string, to: string, subject: string, text: string)

  /** What the `fetch` to the relay observed: a response, or an exception. */
  datatype RelayOutcome = Responded(ok: bool, status: nat, statusText: string) | Threw(message: string)

  /** The request body: the fixed sender, and the caller's fields as given. */
  function RequestBody(o: EmailOptions): (r: EmailRequest)
    ensures r.from == SenderEmail
    ensures EmailOptions(r.to, r.subject, r.text) == o
  {
    EmailRequest(SenderEmail, o.to, o.subject, o.text)
  }

  /** `sendEmail`: delivered exactly when the relay answered ok; a non-ok
      answer and a thrown error both come back as `false`, never as an
      exception. */
  function SendEmail(o: EmailOptions, relay: EmailRequest -> RelayOutcome): (delivered: bool)
    ensures delivered <==> relay(RequestBody(o)).Responded? && relay(RequestBody(o)).ok
    ensures relay(RequestBody(o)).Threw? ==> !delivered
  {
    match relay(RequestBody(o))
    case Responded(ok, _, _) => ok
    case Threw(_) => false
  }

  // ---------------------------------------------------------------- welcome

  const WelcomeSubject: string := "Welcome to KinScreen!"
  const TrialGreeting: string := "Welcome to your free trial!"
  const TrialDetails: string :=
    "Your Free Trial Details:\n- 7 days of full access\n- All premium features included\n- $1 authorization charge (will be refunded)\n- Converts to $5/month after trial\n- Cancel anytime during trial at no cost"
  const TrialReminder: string :=
    "\nReminder: Your free trial will automatically convert to a $5/month subscription after 7 days. You can cancel anytime during the trial period at no cost."
  const WelcomeGettingStarted: string :=
    "\n\nGetting Started:\n1. Download KinScreen for your device:\n   - Windows: https://download.kinscreen.com/windows\n   - Mac: https://download.kinscreen.com/mac\n\n"
  const SignInPrompt: string := "2. Sign in with your email: "
  const WelcomeLinks: string :=
    "\n\n3. Start sharing your memories!\n\nImportant Links:\n- Download Page: https://kinscreen.com/download\n- Support Center: https://kinscreen.com/support\n- Account Settings: https://kinscreen.com/account\n\nNeed help? Our support team is here for you:\n- Email: support@kinscreen.com\n- Phone: 1-800-MEMORY\n- Live Chat: Available 24/7 on our website\n\n"
  const SignOff: string := "\n\nBest regards,\nThe KinScreen Team"

  function WelcomeOpening(name: string): string {
    "Dear " + name + ",\n\nThank you for choosing KinScreen! "
  }

  function PlanThanks(planName: string): string {
    "Thank you for subscribing to our " + planName + " plan."
  }

  /** The line after the opening: trial greeting or thanks for the plan. */
  function WelcomeLine(planName: string): string {
    if planName == FreeTrialPlan then TrialGreeting else PlanThanks(planName)
  }

  function TrialDetailsFor(planName: string): string {
    if planName == FreeTrialPlan then TrialDetails else ""
  }

  function TrialReminderFor(planName: string): string {
    if planName == FreeTrialPlan then TrialReminder else ""
  }

  function WelcomeEmail(email: string, name: string, planName: string): (o: EmailOptions)
    ensures o.to == email && o.subject == WelcomeSubject
  {
    EmailOptions(email, WelcomeSubject,
      WelcomeOpening(name) + WelcomeLine(planName) + "\n\n" + TrialDetailsFor(planName)
      + WelcomeGettingStarted + SignInPrompt + email + WelcomeLinks
      + TrialReminderFor(planName) + SignOff)
  }

  /** The trial greeting follows the opening exactly when the plan is
      `"Free Trial"` (compared exactly, case included); any other plan is
      thanked by name there instead. */
  lemma WelcomeTrialWording(email: string, name: string, planName: string)
    ensures StartsWith(WelcomeEmail(email, name, planName).text, WelcomeOpening(name) + TrialGreeting)
            <==> planName == FreeTrialPlan
    ensures planName != FreeTrialPlan ==>
      StartsWith(WelcomeEmail(email, name, planName).text, WelcomeOpening(name) + PlanThanks(planName))
  {
    var o, l := WelcomeOpening(name), WelcomeLine(planName);
    var p := o + l;
    StartsWithConcat(p, "\n\n");
    StartsWithGrow(p + "\n\n", p, TrialDetailsFor(planName));
    StartsWithGrow(p + "\n\n" + TrialDetailsFor(planName), p, WelcomeGettingStarted);
    var s := p + "\n\n" + TrialDetailsFor(planName) + WelcomeGettingStarted;
    StartsWithGrow(s, p, SignInPrompt);
    StartsWithGrow(s + SignInPrompt, p, email);
    StartsWithGrow(s + SignInPrompt + email, p, WelcomeLinks);
    StartsWithGrow(s + SignInPrompt + email + WelcomeLinks, p, TrialReminderFor(planName));
    StartsWithGrow(s + SignInPrompt + email + WelcomeLinks + TrialReminderFor(planName), p, SignOff);
    var text := WelcomeEmail(email, name, planName).text;
    assert StartsWith(text, p);
    if planName != FreeTrialPlan {
      var k := |o|;
      assert text[k] == p[k] == PlanThanks(planName)[0] == 'T';
      assert (o + TrialGreeting)[k] == TrialGreeting[0] == 'W';
    }
  }

  /** A trial welcome carries both the trial details and the reminder. */
  lemma WelcomeTrialBlocks(email: string, name: string)
    ensures Contains(WelcomeEmail(email, name, FreeTrialPlan).text, TrialDetails)
    ensures Contains(WelcomeEmail(email, name, FreeTrialPlan).text, TrialReminder)
  {
    var plan := FreeTrialPlan;
    var h := WelcomeOpening(name) + WelcomeLine(plan) + "\n\n";
    ContainsSuffix(h, TrialDetailsFor(plan));
    var s := h + TrialDetailsFor(plan);
    ContainsGrow(s, TrialDetails, WelcomeGettingStarted);
    ContainsGrow(s + WelcomeGettingStarted, TrialDetails, SignInPrompt);
    ContainsGrow(s + WelcomeGettingStarted + SignInPrompt, TrialDetails, email);
    ContainsGrow(s + WelcomeGettingStarted + SignInPrompt + email, TrialDetails, WelcomeLinks);
    var s' := s + WelcomeGettingStarted + SignInPrompt + email + WelcomeLinks;
    ContainsGrow(s', TrialDetails, TrialReminderFor(plan));
    ContainsGrow(s' + TrialReminderFor(plan), TrialDetails, SignOff);
    ContainsBetween(s', TrialReminderFor(plan), SignOff);
  }

  /** The welcome tells the reader to sign in with the address it was sent to. */
  lemma WelcomeSignIn(email: string, name: string, planName: string)
    ensures Contains(WelcomeEmail(email, name, planName).text, SignInPrompt + email)
  {
    var s := WelcomeOpening(name) + WelcomeLine(planName) + "\n\n" + TrialDetailsFor(planName)
      + WelcomeGettingStarted;
    ContainsPair(s, SignInPrompt, email);
    ContainsGrow(s + SignInPrompt + email, SignInPrompt + email, WelcomeLinks);
    ContainsGrow(s + SignInPrompt + email + WelcomeLinks, SignInPrompt + email, TrialReminderFor(planName));
    ContainsGrow(s + SignInPrompt + email + WelcomeLinks + TrialReminderFor(planName), SignInPrompt + email, SignOff);
  }

  // ------------------------------------------------------------------- gift

  const GiftSubject: string := "You've Received a KinScreen Gift! \U{1F381}"
  const GiftInstructions: string :=
    " subscription to KinScreen - a beautiful way to keep your family memories always in view!\n\nGet Started Now:\n1. Download KinScreen for your device:\n   - Windows: https://download.kinscreen.com/windows\n   - Mac: https://download.kinscreen.com/mac\n\n2. Install the application\n3. Sign in with this email address\n4. Your gift subscription will be automatically activated\n\nNeed help? Our support team is here for you:\n- Email: support@kinscreen.com\n- Phone: 1-800-MEMORY\n- Live Chat: Available 24/7 on our website\n\nEnjoy your gift!\nThe KinScreen Team"

  function GiftAnnouncement(senderName: string, planName: string): string {
    "Great news! " + senderName + " has gifted you a " + planName
  }

  function GiftEmail(recipientEmail: string, senderName: string, planName: string): (o: EmailOptions)
    ensures o.to == recipientEmail && o.subject == GiftSubject
  {
    EmailOptions(recipientEmail, GiftSubject,
      "Dear " + recipientEmail + "," + "\n\n" + GiftAnnouncement(senderName, planName) + GiftInstructions)
  }

  /** The gift text greets the recipient and names the sender and the plan. */
  lemma GiftNamesSenderAndPlan(recipientEmail: string, senderName: string, planName: string)
    ensures StartsWith(GiftEmail(recipientEmail, senderName, planName).text, "Dear " + recipientEmail + ",")
    ensures Contains(GiftEmail(recipientEmail, senderName, planName).text, GiftAnnouncement(senderName, planName))
    ensures Contains(GiftEmail(recipientEmail, senderName, planName).text, senderName)
    ensures Contains(GiftEmail(recipientEmail, senderName, planName).text, planName)
  {
    var greeting := "Dear " + recipientEmail + ",";
    var announcement := GiftAnnouncement(senderName, planName);
    StartsWithConcat(greeting, "\n\n");
    StartsWithGrow(greeting + "\n\n", greeting, announcement);
    StartsWithGrow(greeting + "\n\n" + announcement, greeting, GiftInstructions);
    var head := greeting + "\n\n";
    ContainsBetween(head, announcement, GiftInstructions);
    ContainsBetween("Great news! ", senderName, " has gifted you a ");
    ContainsGrow("Great news! " + senderName + " has gifted you a ", senderName, planName);
    ContainsGrowLeft(head, announcement, senderName);
    ContainsGrow(head + announcement, senderName, GiftInstructions);
    ContainsSuffix("Great news! " + senderName + " has gifted you a ", planName);
    ContainsGrowLeft(head, announcement, planName);
    ContainsGrow(head + announcement, planName, GiftInstructions);
  }

  // ----------------------------------------------------------- cancellation

  const CancellationSubject: string := "KinScreen Subscription Cancellation Confirmation"
  const CancellationBody: string :=
    "\n\nWe've received your request to cancel your KinScreen subscription.\n\nWhat happens next:\n- Your subscription will remain active until the end of your current billing period\n- You'll still have access to all your photos and memories\n- No further payments will be charged\n- You can reactivate your subscription at any time\n\nWe're sorry to see you go. If you change your mind, you can reactivate your subscription at any time.\n\nNeed help? Contact our support team at support@kinscreen.com\n\nBest regards,\nThe KinScreen Team"

  function CancellationEmail(email: string, name: string): (o: EmailOptions)
    ensures o.to == email && o.subject == CancellationSubject
  {
    EmailOptions(email, CancellationSubject, "Dear " + name + "," + CancellationBody)
  }

  /** The confirmation addresses the reader by the name given. */
  lemma CancellationAddressesName(email: string, name: string)
    ensures StartsWith(CancellationEmail(email, name).text, "Dear " + name + ",")
  {
    StartsWithConcat("Dear " + name + ",", CancellationBody);
  }

  // ---------------------------------------------------- order confirmation

  const TrialAmountText: string :=
    "Trial Period: 7 days\nAmount: $1.00 (authorization charge, will be refunded)\nRegular Price: $5.00/month after trial"
  const TrialInformation: string :=
    "\nImportant Trial Information:\n- Your free trial starts today\n- $1 authorization charge will be refunded\n- After 7 days, you'll be charged $5.00/month\n- Cancel anytime during trial at no cost"
  const BillingHeading: string := "\n\nBilling Summary:\n---------------\n"
  const OrderAccount: string :=
    "\n\nYour subscription is now active. You can start using KinScreen right away!\n\nAccess your account:\n- Visit: https://app.kinscreen.com\n- Email: "
  const OrderFooter: string :=
    "\n\nNeed help? Contact our support team:\n- Email: support@kinscreen.com\n- Phone: 1-800-MEMORY\n\nThank you for choosing KinScreen!\n\nBest regards,\nThe KinScreen Team\n\nNote: This is an automated email. Please do not reply to this message."

  /** The receipt up to and including the `Plan:` line. */
  function OrderHeader(name: string, planName: string, orderNumber: string, orderDate: string): string {
    "Dear " + name + ",\n\nThank you for your order! Here's your receipt:\n\nOrder Details:\n-------------\nOrder Number: "
    + orderNumber + "\nDate: " + orderDate + "\nPlan: " + planName + "\n"
  }

  function AmountLine(isFreeTrial: bool, amount: string): string {
    if isFreeTrial then TrialAmountText else "Amount: " + amount
  }

  function BillingSummary(amount: string): string {
    "Subtotal: " + amount + "\nTax: $0.00\nTotal: " + amount
  }

  function TrialInformationFor(isFreeTrial: bool): string {
    if isFreeTrial then TrialInformation else ""
  }

  /** `sendOrderConfirmationEmail`; the order number and date, which the
      source takes from the clock, are parameters. */
  function OrderConfirmationEmail(email: string, name: string, planName: string, amount: string,
                                  orderNumber: string, orderDate: string, isFreeTrial: bool := false): (o: EmailOptions)
    ensures o.to == email && o.subject == "KinScreen - Order Confirmation #" + orderNumber
  {
    EmailOptions(email, "KinScreen - Order Confirmation #" + orderNumber,
      OrderHeader(name, planName, orderNumber, orderDate) + AmountLine(isFreeTrial, amount)
      + BillingHeading + BillingSummary(amount) + "\n\n" + TrialInformationFor(isFreeTrial)
      + OrderAccount + email + OrderFooter)
  }

  /** Right after the plan line comes the fixed authorization text for a
      trial and the amount otherwise; subtotal and total are both the
      amount either way. */
  lemma OrderAmounts(email: string, name: string, planName: string, amount: string,
                     orderNumber: string, orderDate: string, isFreeTrial: bool)
    ensures StartsWith(OrderConfirmationEmail(email, name, planName, amount, orderNumber, orderDate, isFreeTrial).text,
                       OrderHeader(name, planName, orderNumber, orderDate)
                       + (if isFreeTrial then TrialAmountText else "Amount: " + amount))
    ensures Contains(OrderConfirmationEmail(email, name, planName, amount, orderNumber, orderDate, isFreeTrial).text,
                     "Subtotal: " + amount + "\nTax: $0.00\nTotal: " + amount)
  {
    var p := OrderHeader(name, planName, orderNumber, orderDate) + AmountLine(isFreeTrial, amount);
    var summary := BillingSummary(amount);
    var info := TrialInformationFor(isFreeTrial);
    StartsWithConcat(p, BillingHeading);
    StartsWithGrow(p + BillingHeading, p, summary);
    StartsWithGrow(p + BillingHeading + summary, p, "\n\n");
    StartsWithGrow(p + BillingHeading + summary + "\n\n", p, info);
    StartsWithGrow(p + BillingHeading + summary + "\n\n" + info, p, OrderAccount);
    StartsWithGrow(p + BillingHeading + summary + "\n\n" + info + OrderAccount, p, email);
    StartsWithGrow(p + BillingHeading + summary + "\n\n" + info + OrderAccount + email, p, OrderFooter);
    ContainsBetween(p + BillingHeading, summary, "\n\n");
    ContainsGrow(p + BillingHeading + summary + "\n\n", summary, info);
    ContainsGrow(p + BillingHeading + summary + "\n\n" + info, summary, OrderAccount);
    ContainsGrow(p + BillingHeading + summary + "\n\n" + info + OrderAccount, summary, email);
    ContainsGrow(p + BillingHeading + summary + "\n\n" + info + OrderAccount + email, summary, OrderFooter);
  }
}
