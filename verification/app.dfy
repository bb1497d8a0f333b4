/** The application as a whole: a request is routed through the sign-in gate
    to its handler, and a run is a sequence of requests. The ledger view of a
    run says how every balance moved. */
module App {
  import opened Store
  import MagicLink
  import Generate
  import Checkout
  import Preview
  import Gate
  import Decimal

  /** One HTTP request with its inputs, external answers included. */
  datatype Call =
    | SendLink(email: string, token: string, now: int)
    | VerifyLink(token: string, now: int)
    | PostGenerate(tour: string, pick: Generate.PromptIndex, uuid: string)
    | PostBuy(amount: int, stripe: Checkout.StripeResult)
    | PostWebhook(signatureValid: bool, event: Checkout.Event)
    | ViewGeneration(id: nat, files: set<string>)

  datatype Request = Request(sess: Session, call: Call)

  datatype Reply =
    | Redirected
    | Sent(send: MagicLink.SendOutcome)
    | Verified(verify: MagicLink.VerifyOutcome)
    | Generated(generate: Generate.GenerateOutcome)
    | Bought(buy: Checkout.BuyOutcome)
    | Hooked(hook: Checkout.WebhookReply)
    | Previewed(preview: Preview.PreviewOutcome)

  /** How a request moved the ledger. */
  datatype LedgerEffect = NoEffect | Debit(account: string) | Credit(account: string, amount: int)

  function Path(c: Call): string {
    match c
    case SendLink(_, _, _) => "/send_magic_link"
    case VerifyLink(token, _) => MagicLink.VerifyRoute + token
    case PostGenerate(_, _, _) => "/generate_images"
    case PostBuy(_, _) => "/buy_credits"
    case PostWebhook(_, _) => Gate.WebhookPaths[0]
    case ViewGeneration(id, _) => Preview.PollPath(id)
  }

  /** The one account a request changes, if any: the link's recipient, the
      account signed in by the link, the debited account, or the credited
      one. Refused requests and every other reply change none. */
  function Touched(req: Request, reply: Reply): Option<string> {
    match reply
    case Sent(LinkSent(email, _)) => Some(email)
    case Verified(SignedIn(email)) => Some(email)
    case Generated(Started(e, _, _)) => Some(e)
    case Generated(SessionIdMissing(e)) => Some(e)
    case Hooked(h) =>
      if h.code == 200 && req.call.PostWebhook? && req.call.event.email.Some?
      then req.call.event.email else None
    case _ => None
  }

  /** One request: the sign-in gate with skip list `skip`, then the route's
      handler. `Gate.SkipAsWritten` is the app as written, `Gate.Skip` the
      corrected app. */
  function Handle(s: State, req: Request, skip: seq<Gate.Pattern>, domain: string): (r: (State, Session, Reply))
    ensures Touched(req, r.2).None? ==> r.0.accounts == s.accounts
    ensures Touched(req, r.2).Some? ==> AgreeExcept(s.accounts, r.0.accounts, Touched(req, r.2).value)
    ensures r.2.Redirected? || r.2.Bought? || r.2.Previewed? || (r.2.Hooked? && r.2.hook.code != 200) ==> r.0 == s
    ensures !r.2.Verified? ==> r.1 == req.sess
    ensures r.2.Redirected? <==> !Gate.Admit(skip, Path(req.call), req.sess)
  {
    if !Gate.Admit(skip, Path(req.call), req.sess) then (s, req.sess, Redirected)
    else
      match req.call
      case SendLink(email, token, now) =>
        var (s', out) := MagicLink.SendMagicLink(s, email, token, now, domain);
        (s', req.sess, Sent(out))
      case VerifyLink(token, now) =>
        var (s', sess', out) := MagicLink.VerifyMagicLink(s, req.sess, token, now);
        (s', sess', Verified(out))
      case PostGenerate(tour, pick, uuid) =>
        var (s', out) := Generate.GenerateImages(s, req.sess, tour, pick, uuid);
        (s', req.sess, Generated(out))
      case PostBuy(amount, stripe) =>
        (s, req.sess, Bought(Checkout.BuyCredits(s, req.sess, amount, stripe, domain)))
      case PostWebhook(valid, ev) =>
        var (s', out) := Checkout.StripeWebhook(s, valid, ev);
        (s', req.sess, Hooked(out))
      case ViewGeneration(id, files) =>
        (s, req.sess, Previewed(Preview.PagePreview(s, id, req.sess, files)))
  }

  function Effect(req: Request, reply: Reply): LedgerEffect {
    match reply
    case Generated(Started(e, _, _)) => Debit(e)
    case Generated(SessionIdMissing(e)) => Debit(e)
    case Hooked(h) =>
      if h.code == 200 && req.call.PostWebhook? && req.call.event.email.Some? && req.call.event.credits.Some?
      then Credit(req.call.event.email.value, req.call.event.credits.value)
      else NoEffect
    case _ => NoEffect
  }

  function Delta(eff: LedgerEffect, e: string): int {
    match eff
    case Debit(a) => if a == e then -1 else 0
    case Credit(a, n) => if a == e then n else 0
    case NoEffect => 0
  }

  /** No request removes an account or alters a stored generation record;
      new records only ever take fresh ids. */
  lemma HandleKeepsRecords(s: State, req: Request, skip: seq<Gate.Pattern>, domain: string)
    ensures s.accounts.Keys <= Handle(s, req, skip, domain).0.accounts.Keys
    ensures IdsBelowNext(s) ==>
      IdsBelowNext(Handle(s, req, skip, domain).0) && GensKept(s, Handle(s, req, skip, domain).0)
  {
  }

  /** Each request moves `e`'s balance by exactly its ledger effect, and a
      debit only happens from a balance of at least one credit. */
  lemma HandleLedger(s: State, req: Request, skip: seq<Gate.Pattern>, domain: string, e: string)
    ensures
      var r := Handle(s, req, skip, domain);
      Balance(r.0, e) == Balance(s, e) + Delta(Effect(req, r.2), e)
    ensures
      var r := Handle(s, req, skip, domain);
      Effect(req, r.2).Debit? ==> Balance(s, Effect(req, r.2).account) >= 1
  {
  }

  /** The requests whose ledger effect cannot be negative except by a debit:
      completion events carry the non-negative amount this application put
      into the checkout's metadata. */
  predicate Admissible(req: Request) {
    req.call.PostWebhook? && req.call.event.credits.Some? ==> req.call.event.credits.value >= 0
  }

  /** A magic-link request carries a token no account holds yet. */
  ghost predicate FreshToken(s: State, req: Request) {
    req.call.SendLink? ==> TokenFresh(s, req.call.token)
  }

  lemma HandlePreservesInv(s: State, req: Request, skip: seq<Gate.Pattern>, domain: string)
    requires Inv(s) && Admissible(req)
    ensures Inv(Handle(s, req, skip, domain).0)
  {
    match req.call
    case PostGenerate(tour, pick, uuid) =>
      Generate.GeneratePreservesInv(s, req.sess, tour, pick, uuid);
    case PostWebhook(valid, ev) =>
      Checkout.WebhookPreservesInv(s, valid, ev);
    case _ =>
  }

  /** With fresh magic-link tokens, no two accounts ever share an outstanding
      token. */
  lemma HandleKeepsTokensUnique(s: State, req: Request, skip: seq<Gate.Pattern>, domain: string)
    requires TokensUnique(s) && FreshToken(s, req)
    ensures TokensUnique(Handle(s, req, skip, domain).0)
  {
  }

  /** Runs the requests in order; returns the final store and the ledger
      effect of each request. No account is ever removed, and while ids stay
      below the next id no generation record is removed or altered. */
  function Run(s: State, reqs: seq<Request>, skip: seq<Gate.Pattern>, domain: string): (r: (State, seq<LedgerEffect>))
    ensures |r.1| == |reqs|
    ensures s.accounts.Keys <= r.0.accounts.Keys
    ensures IdsBelowNext(s) ==> IdsBelowNext(r.0) && GensKept(s, r.0)
    decreases |reqs|
  {
    if reqs == [] then (s, [])
    else
      var h := Handle(s, reqs[0], skip, domain);
      HandleKeepsRecords(s, reqs[0], skip, domain);
      var t := Run(h.0, reqs[1..], skip, domain);
      (t.0, [Effect(reqs[0], h.2)] + t.1)
  }

  function Net(effects: seq<LedgerEffect>, e: string): int {
    if effects == [] then 0 else Delta(effects[0], e) + Net(effects[1..], e)
  }

  /** Ledger additivity: after any run, a balance is the initial one plus the
      credits and minus the debits the run recorded for that account. */
  lemma {:induction false} LedgerAdditivity(s: State, reqs: seq<Request>, skip: seq<Gate.Pattern>, domain: string, e: string)
    ensures
      var r := Run(s, reqs, skip, domain);
      Balance(r.0, e) == Balance(s, e) + Net(r.1, e)
    decreases |reqs|
  {
    if reqs != [] {
      var h := Handle(s, reqs[0], skip, domain);
      HandleLedger(s, reqs[0], skip, domain, e);
      LedgerAdditivity(h.0, reqs[1..], skip, domain, e);
      var r := Run(s, reqs, skip, domain);
      assert r.1[1..] == Run(h.0, reqs[1..], skip, domain).1;
    }
  }

  /** No run of admissible requests breaks the tables' well-formedness, so no
      balance ever becomes negative. */
  lemma {:induction false} RunPreservesInv(s: State, reqs: seq<Request>, skip: seq<Gate.Pattern>, domain: string)
    requires Inv(s)
    requires forall i :: 0 <= i < |reqs| ==> Admissible(reqs[i])
    ensures Inv(Run(s, reqs, skip, domain).0)
    ensures forall e :: e in Run(s, reqs, skip, domain).0.accounts ==> Run(s, reqs, skip, domain).0.accounts[e].balance >= 0
    decreases |reqs|
  {
    if reqs != [] {
      HandlePreservesInv(s, reqs[0], skip, domain);
      RunPreservesInv(Handle(s, reqs[0], skip, domain).0, reqs[1..], skip, domain);
    }
  }

  /** Each magic-link request of the run carries a token that is fresh in the
      state the run has reached when it arrives. */
  ghost predicate FreshTokensAlong(s: State, reqs: seq<Request>, skip: seq<Gate.Pattern>, domain: string)
    decreases |reqs|
  {
    reqs != [] ==>
      && FreshToken(s, reqs[0])
      && FreshTokensAlong(Handle(s, reqs[0], skip, domain).0, reqs[1..], skip, domain)
  }

  /** Outstanding tokens stay unique along every run whose magic-link tokens
      are fresh, so the single-use property of verification holds in every
      reachable state. */
  lemma {:induction false} RunKeepsTokensUnique(s: State, reqs: seq<Request>, skip: seq<Gate.Pattern>, domain: string)
    requires TokensUnique(s) && FreshTokensAlong(s, reqs, skip, domain)
    ensures TokensUnique(Run(s, reqs, skip, domain).0)
    decreases |reqs|
  {
    if reqs != [] {
      HandleKeepsTokensUnique(s, reqs[0], skip, domain);
      RunKeepsTokensUnique(Handle(s, reqs[0], skip, domain).0, reqs[1..], skip, domain);
    }
  }

  /** The webhook route, unlike the skip list as written, is reached by
      Stripe's cookieless call, and a completed purchase is credited. */
  lemma CookielessWebhookCredits(s: State, ev: Checkout.Event, domain: string)
    requires ev.kind == Checkout.CompletedEvent && Checkout.Present(ev.email, ev.credits) && ev.email.value in s.accounts
    ensures
      var req := Request(Session(None, None), PostWebhook(true, ev));
      var r := Handle(s, req, Gate.Skip, domain);
      && r.2 == Hooked(Checkout.WebhookReply(200, Checkout.StatusBody("success")))
      && Effect(req, r.2) == Credit(ev.email.value, ev.credits.value)
      && Balance(r.0, ev.email.value) == Balance(s, ev.email.value) + ev.credits.value
  {
    Gate.WebhookAdmitted(Gate.WebhookPaths[0], Session(None, None));
  }

  /** In the app as written the same cookieless call is redirected: the store
      is unchanged and the run records no credit. */
  lemma CookielessWebhookIgnoredAsWritten(s: State, ev: Checkout.Event, domain: string)
    ensures
      var req := Request(Session(None, None), PostWebhook(true, ev));
      var r := Handle(s, req, Gate.SkipAsWritten, domain);
      && r.2 == Redirected
      && r.0 == s
      && Effect(req, r.2) == NoEffect
  {
    Gate.WebhookRedirectedAsWritten(Gate.WebhookPaths[0], Session(None, None));
  }

  /** Without a signed-in email, the gate as written lets through the sign-in
      routes and the generate route and redirects buying credits, previews
      and the webhook; the corrected gate differs only on the webhook. */
  lemma GatedRoutes(s: State, req: Request, skip: seq<Gate.Pattern>, domain: string)
    requires skip == Gate.SkipAsWritten || skip == Gate.Skip
    requires !Gate.HasAuth(req.sess)
    requires req.call.VerifyLink? ==> Gate.NoNewline(req.call.token)
    ensures Handle(s, req, skip, domain).2.Redirected? <==>
      req.call.PostBuy? || req.call.ViewGeneration? || (req.call.PostWebhook? && skip == Gate.SkipAsWritten)
  {
    var path := Path(req.call);
    var token := if req.call.VerifyLink? then req.call.token else "";
    Gate.PublicRoutes(token);
    Gate.WebhookAdmitted(path, req.sess);
    match req.call
    case PostWebhook(_, _) =>
      Gate.WebhookRedirectedAsWritten(path, req.sess);
    case ViewGeneration(id, _) =>
      var digits := Decimal.Show(id);
      assert path[..6] == "/gens/" && path[|path| - 1] == digits[|digits| - 1];
      assert Decimal.IsDigit(digits[|digits| - 1]);
      Gate.GensNotSkipped(path);
      assert path !in Gate.WebhookPaths;
    case _ =>
  }
}
