/** Buying credits: POST /buy_credits validates the amount and asks Stripe for
    a hosted checkout; the Stripe webhook later credits the paid amount. The
    Stripe answer, the signature check and the parsed event are inputs. */
module Checkout {
  import opened Store
  import Decimal

  const MinCredits := 1
  const MaxCredits := 5
  /** Price of one credit in cents (one dollar). */
  const CentsPerCredit := 100

  const CompletedEvent := "checkout.session.completed"

  /** The checkout session requested from Stripe. */
  datatype CheckoutParams = CheckoutParams(
    paymentMethods: seq<string>,
    mode: string,
    currency: string,
    unitAmount: int,
    productName: string,
    quantity: int,
    successUrl: string,
    cancelUrl: string,
    metadataEmail: string,
    metadataCredits: int)

  /** What Stripe answers to the session request. */
  datatype StripeResult = Created(url: string) | Failed(message: string)

  datatype BuyOutcome =
    | LoginRedirect
    | UserNotFound
    | InvalidAmount
    | StripeError(message: string)
      /** the browser is sent to Stripe's hosted page */
    | RedirectToCheckout(params: CheckoutParams, url: string)

  /** A webhook event after signature checking and JSON decoding. `email` and
      `credits` are the metadata entries; None stands for an absent entry, and
      for an empty credit amount. */
  datatype Event = Event(kind: string, email: Option<string>, credits: Option<int>)

  datatype WebhookBody = ErrorBody(message: string) | StatusBody(status: string)
  /** What page_stripe_webhook returns: a dict and the number beside it in
      the returned pair. */
  datatype WebhookReply = WebhookReply(code: int, body: WebhookBody)

  function Plural(n: int): string {
    if n > 1 then "s" else ""
  }

  /** The line-item name, "Buy 3 Credits for $3": the digits after "Buy "
      read as `n`, and "Credit" takes an "s" exactly when `n` exceeds one. */
  function ProductName(n: nat): (r: string)
    ensures |r| > 4 && r[..4] == "Buy "
    ensures Decimal.DigitRun(r[4..]) == Decimal.Show(n)
    ensures
      var k := 4 + |Decimal.Show(n)| + |" Credit"|;
      k < |r| && (r[k] == 's' <==> n > 1)
    ensures
      var d := 4 + |Decimal.Show(n)|;
      d + |" Credit"| <= |r| && r[d..d + |" Credit"|] == " Credit"
    ensures
      var price := " for $" + Decimal.Show(n);
      |price| <= |r| && r[|r| - |price|..] == price
    ensures |r| == 4 + |Decimal.Show(n)| + |" Credit"| + |Plural(n)| + |" for $"| + |Decimal.Show(n)|
  {
    var digits := Decimal.Show(n);
    var pl := Plural(n);
    NameLayout(digits, pl);
    assert (pl + " for $")[0] == 's' <==> n > 1;
    "Buy " + (digits + (" Credit" + pl + " for $" + digits))
  }

  /** Where each part of "Buy {d} Credit{pl} for ${d}" sits, for any digit
      string `d`. */
  lemma NameLayout(d: string, pl: string)
    requires Decimal.AllDigits(d)
    ensures
      var r := "Buy " + (d + (" Credit" + pl + " for $" + d));
      var k := 4 + |d| + |" Credit"|;
      && |r| > 4 && r[..4] == "Buy "
      && Decimal.DigitRun(r[4..]) == d
      && r[4 + |d|..k] == " Credit"
      && k < |r| && r[k] == (pl + " for $")[0]
      && r[|r| - |" for $" + d|..] == " for $" + d
      && |r| == 4 + |d| + |" Credit"| + |pl| + |" for $"| + |d|
  {
    var tail := " Credit" + pl + " for $" + d;
    var r := "Buy " + (d + tail);
    assert r[4..] == d + tail;
    Decimal.DigitRunOf(d, tail);
    assert r == "Buy " + d + " Credit" + (pl + " for $") + d;
  }

  const SuccessPath := "/success?session_id={CHECKOUT_SESSION_ID}"
  const CancelPath := "/cancel"

  /** The session parameters page_buy_credits_post sends for `amount` credits:
      one line item in dollars priced at one dollar a credit, the return
      URLs on the app's domain, and the buyer and amount as metadata for the
      webhook. */
  function Params(email: string, amount: nat, domain: string): (r: CheckoutParams)
    ensures r.currency == "usd" && r.quantity == 1
    ensures r.unitAmount == CentsPerCredit * amount
    ensures r.productName == ProductName(amount)
    ensures r.successUrl == domain + SuccessPath && r.cancelUrl == domain + CancelPath
    ensures r.metadataEmail == email && r.metadataCredits == amount
    ensures r.paymentMethods == ["card"] && r.mode == "payment"
    ensures r.unitAmount * r.quantity == CentsPerCredit * r.metadataCredits
    ensures Decimal.DigitRun(r.productName[4..]) == Decimal.Show(r.metadataCredits)
  {
    CheckoutParams(["card"], "payment", "usd", amount * CentsPerCredit, ProductName(amount), 1,
      domain + SuccessPath, domain + CancelPath, email, amount)
  }

  /** The session is signed in as a known account asking for 1 to 5 credits. */
  predicate ValidPurchase(s: State, sess: Session, amount: int) {
    LoggedIn(sess) && sess.auth.value in s.accounts && MinCredits <= amount <= MaxCredits
  }

  /** page_buy_credits_post. It returns no new store: no balance changes here. */
  function BuyCredits(s: State, sess: Session, amount: int, stripe: StripeResult, domain: string): (r: BuyOutcome)
    ensures r == LoginRedirect <==> !LoggedIn(sess)
    ensures r == UserNotFound <==> LoggedIn(sess) && sess.auth.value !in s.accounts
    ensures LoggedIn(sess) && sess.auth.value in s.accounts ==>
      (r == InvalidAmount <==> amount < MinCredits || amount > MaxCredits)
    ensures ValidPurchase(s, sess, amount) ==>
      (r.RedirectToCheckout? <==> stripe.Created?) && (r.StripeError? <==> stripe.Failed?)
    ensures r.StripeError? ==> ValidPurchase(s, sess, amount) && stripe == Failed(r.message)
    ensures r.RedirectToCheckout? ==>
      && ValidPurchase(s, sess, amount)
      && stripe == Created(r.url)
      && r.params == Params(sess.auth.value, amount, domain)
  {
    if !LoggedIn(sess) then LoginRedirect
    else if sess.auth.value !in s.accounts then UserNotFound
    else if amount < MinCredits || amount > MaxCredits then InvalidAmount
    else
      var params := Params(sess.auth.value, amount, domain);
      match stripe
      case Failed(msg) => StripeError(msg)
      case Created(url) => RedirectToCheckout(params, url)
  }

  /** The checkout a purchase asks for is priced at a dollar a credit, in
      dollars, names the amount bought with "Credits" plural exactly when it
      exceeds one, and carries the buyer and amount for the webhook. */
  lemma PurchaseParams(s: State, sess: Session, amount: int, url: string, domain: string)
    requires BuyCredits(s, sess, amount, Created(url), domain).RedirectToCheckout?
    ensures
      var p := BuyCredits(s, sess, amount, Created(url), domain).params;
      var k := 4 + |Decimal.Show(amount)| + |" Credit"|;
      && p.currency == "usd" && p.unitAmount == 100 * amount
      && Decimal.DigitRun(p.productName[4..]) == Decimal.Show(amount)
      && k < |p.productName| && (p.productName[k] == 's' <==> amount > 1)
      && p.productName[k - |" Credit"|..k] == " Credit"
      && p.metadataEmail == sess.auth.value && p.metadataCredits == amount
    ensures
      var name := BuyCredits(s, sess, amount, Created(url), domain).params.productName;
      var price := " for $" + Decimal.Show(amount);
      |price| <= |name| && name[|name| - |price|..] == price
    ensures
      var name := BuyCredits(s, sess, amount, Created(url), domain).params.productName;
      |name| == 4 + |Decimal.Show(amount)| + |" Credit"| + |Plural(amount)| + |" for $"| + |Decimal.Show(amount)|
  {
  }

  /** Different amounts get different product names. */
  lemma ProductNameInjective(m: nat, n: nat)
    requires ProductName(m) == ProductName(n)
    ensures m == n
  {
    Decimal.ShowInjective(m, n);
  }

  predicate Present(email: Option<string>, credits: Option<int>) {
    email.Some? && email.value != "" && credits.Some?
  }

  /** page_stripe_webhook. `signatureValid` stands for Stripe's payload and
      signature verification. */
  function StripeWebhook(s: State, signatureValid: bool, ev: Event): (r: (State, WebhookReply))
    ensures !signatureValid ==> r == (s, WebhookReply(400, ErrorBody("Invalid payload or signature")))
    ensures signatureValid && ev.kind != CompletedEvent ==>
      r == (s, WebhookReply(400, StatusBody("unhandled_event_type")))
    ensures signatureValid && ev.kind == CompletedEvent && !Present(ev.email, ev.credits) ==>
      r.0 == s && r.1.code == 400
    ensures signatureValid && ev.kind == CompletedEvent && Present(ev.email, ev.credits) && ev.email.value !in s.accounts ==>
      r.0 == s && r.1.code == 404
    ensures r.1.code == 200 <==>
      signatureValid && ev.kind == CompletedEvent && Present(ev.email, ev.credits) && ev.email.value in s.accounts
    ensures r.1.code != 200 ==> r.0 == s
    ensures r.1.code == 200 ==>
      var e := ev.email.value;
      && e in r.0.accounts
      && r.0.accounts[e] == s.accounts[e].(balance := s.accounts[e].balance + ev.credits.value)
      && AgreeExcept(s.accounts, r.0.accounts, e)
      && r.0.order == s.order && r.0.gens == s.gens && r.0.nextGenId == s.nextGenId
  {
    if !signatureValid then (s, WebhookReply(400, ErrorBody("Invalid payload or signature")))
    else if ev.kind == CompletedEvent then
      if !Present(ev.email, ev.credits) then
        (s, WebhookReply(400, ErrorBody("Missing user email or credit amount in metadata")))
      else if ev.email.value !in s.accounts then
        (s, WebhookReply(404, ErrorBody("User not found")))
      else
        var e := ev.email.value;
        var row := s.accounts[e].(balance := s.accounts[e].balance + ev.credits.value);
        (s.(accounts := s.accounts[e := row]), WebhookReply(200, StatusBody("success")))
    else
      (s, WebhookReply(400, StatusBody("unhandled_event_type")))
  }

  /** A credit of a non-negative amount keeps the tables well formed. */
  lemma WebhookPreservesInv(s: State, signatureValid: bool, ev: Event)
    requires ev.credits.Some? ==> ev.credits.value >= 0
    ensures Inv(s) ==> Inv(StripeWebhook(s, signatureValid, ev).0)
    ensures TokensUnique(s) ==> TokensUnique(StripeWebhook(s, signatureValid, ev).0)
  {
  }

  /** The purchase round trip: the completion event Stripe sends back for a
      checkout this application created credits exactly the bought amount to
      the buyer, and nobody else. */
  lemma PurchaseThenWebhook(s: State, sess: Session, amount: int, url: string, domain: string)
    requires Inv(s)
    requires BuyCredits(s, sess, amount, Created(url), domain).RedirectToCheckout?
    ensures
      var p := BuyCredits(s, sess, amount, Created(url), domain).params;
      var r := StripeWebhook(s, true, Event(CompletedEvent, Some(p.metadataEmail), Some(p.metadataCredits)));
      && r.1 == WebhookReply(200, StatusBody("success"))
      && Balance(r.0, sess.auth.value) == Balance(s, sess.auth.value) + amount
      && forall e :: e != sess.auth.value ==> Balance(r.0, e) == Balance(s, e)
  {
  }
}
