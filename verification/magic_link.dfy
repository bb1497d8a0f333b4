/** Sign-in by emailed magic link: POST /send_magic_link issues a token with
    a fifteen-minute lifetime, GET /verify_magic_link/{token} redeems it. The
    random token, the clock and the mail delivery are inputs and outputs. */
module MagicLink {
  import opened Store

  /** Lifetime of a link, in seconds of the model clock (15 minutes). */
  const LinkLifetime: int := 15 * 60

  const VerifyRoute := "/verify_magic_link/"

  datatype SendOutcome =
    | EmailRequired
      /** the mail to hand to the mail service: recipient and sign-in URL */
    | LinkSent(recipient: string, link: string)

  datatype VerifyOutcome =
    | InvalidOrExpired
      /** redirect to the home page with the session signed in as `email` */
    | SignedIn(email: string)

  /** The account holds `token` and its expiry lies strictly after `now`. */
  predicate Redeemable(a: Account, token: string, now: int) {
    a.token == Some(token) && a.expiry.Some? && a.expiry.value > now
  }

  /** page_send_magic_link. `token` stands for the fresh random token. */
  function SendMagicLink(s: State, email: string, token: string, now: int, domain: string): (r: (State, SendOutcome))
    ensures email == "" ==> r == (s, EmailRequired)
    ensures email != "" ==>
      && email in r.0.accounts
      && r.0.accounts[email].token == Some(token)
      && r.0.accounts[email].expiry == Some(now + LinkLifetime)
      && r.0.accounts[email].balance == Balance(s, email)
      && r.0.accounts[email].active == (email in s.accounts && s.accounts[email].active)
      && AgreeExcept(s.accounts, r.0.accounts, email)
      && r.0.gens == s.gens && r.0.nextGenId == s.nextGenId
      && r.1 == LinkSent(email, domain + VerifyRoute + token)
    ensures email != "" ==> r.0.order == if email in s.accounts then s.order else s.order + [email]
    ensures Inv(s) ==> Inv(r.0)
  {
    if email == "" then (s, EmailRequired)
    else
      var known := email in s.accounts;
      var row := if known then s.accounts[email] else NewAccount;
      var order := if known then s.order else s.order + [email];
      var row' := row.(token := Some(token), expiry := Some(now + LinkLifetime));
      (s.(accounts := s.accounts[email := row'], order := order), LinkSent(email, domain + VerifyRoute + token))
  }

  /** The first email, in row order, whose account can redeem `token` at `now`:
      the `[0]` of the query in page_verify_magic_link. */
  function FirstRedeemable(order: seq<string>, accounts: map<string, Account>, token: string, now: int): (r: Option<string>)
    ensures r.Some? ==> r.value in accounts && Redeemable(accounts[r.value], token, now)
    ensures r.Some? ==>
      exists k ::
        && 0 <= k < |order| && order[k] == r.value
        && (forall i :: 0 <= i < k && order[i] in accounts ==> !Redeemable(accounts[order[i]], token, now))
    ensures r.None? <==> forall i :: 0 <= i < |order| && order[i] in accounts ==> !Redeemable(accounts[order[i]], token, now)
  {
    if order == [] then None
    else if order[0] in accounts && Redeemable(accounts[order[0]], token, now) then Some(order[0])
    else
      var rest := FirstRedeemable(order[1..], accounts, token, now);
      if rest.Some? then
        ghost var k :|
          && 0 <= k < |order[1..]| && order[1..][k] == rest.value
          && (forall i :: 0 <= i < k && order[1..][i] in accounts ==> !Redeemable(accounts[order[1..][i]], token, now));
        assert order[k + 1] == rest.value;
        rest
      else
        rest
  }

  /** page_verify_magic_link: returns the new store, the new session and the outcome. */
  function VerifyMagicLink(s: State, sess: Session, token: string, now: int): (r: (State, Session, VerifyOutcome))
    ensures Inv(s) ==> (r.2.SignedIn? <==> exists e :: e in s.accounts && Redeemable(s.accounts[e], token, now))
    ensures r.2.InvalidOrExpired? ==> r.0 == s && r.1 == sess
    ensures r.2.SignedIn? ==>
      var e := r.2.email;
      && e in s.accounts && Redeemable(s.accounts[e], token, now)
      && e in r.0.accounts
      && r.0.accounts[e].token.None? && r.0.accounts[e].expiry.None?
      && r.0.accounts[e].active
      && r.0.accounts[e].balance == s.accounts[e].balance
      && AgreeExcept(s.accounts, r.0.accounts, e)
      && r.0.order == s.order && r.0.gens == s.gens && r.0.nextGenId == s.nextGenId
      && r.1 == sess.(auth := Some(e))
    ensures Inv(s) ==> Inv(r.0)
    ensures TokensUnique(s) ==> TokensUnique(r.0)
  {
    match FirstRedeemable(s.order, s.accounts, token, now)
    case None => (s, sess, InvalidOrExpired)
    case Some(e) =>
      var row := s.accounts[e].(token := None, expiry := None, active := true);
      (s.(accounts := s.accounts[e := row]), sess.(auth := Some(e)), SignedIn(e))
  }

  /** A fresh token keeps outstanding tokens unique. */
  lemma SendKeepsTokensUnique(s: State, email: string, token: string, now: int, domain: string)
    requires TokensUnique(s) && TokenFresh(s, token)
    ensures TokensUnique(SendMagicLink(s, email, token, now, domain).0)
  {
  }

  /** A link verified before its expiry signs in its recipient, with the
      balance untouched; one verified at or after the expiry fails. */
  lemma SendThenVerify(s: State, sess: Session, email: string, token: string, now: int, later: int, domain: string)
    requires Inv(s) && TokenFresh(s, token) && email != ""
    ensures
      var s1 := SendMagicLink(s, email, token, now, domain).0;
      var r := VerifyMagicLink(s1, sess, token, later);
      && (later < now + LinkLifetime ==>
            && r.2 == SignedIn(email)
            && r.0.accounts[email].active
            && r.0.accounts[email].token.None?
            && r.0.accounts[email].balance == Balance(s, email)
            && r.1.auth == Some(email))
      && (later >= now + LinkLifetime ==> r.2 == InvalidOrExpired && r.0 == s1)
  {
  }

  /** Tokens are single use: once a token has signed someone in, the same
      token fails at any later (or earlier) time and changes nothing. */
  lemma VerifyTwiceFails(s: State, sess: Session, token: string, now: int, sess2: Session, now2: int)
    requires TokensUnique(s)
    requires VerifyMagicLink(s, sess, token, now).2.SignedIn?
    ensures
      var s1 := VerifyMagicLink(s, sess, token, now).0;
      VerifyMagicLink(s1, sess2, token, now2) == (s1, sess2, InvalidOrExpired)
  {
  }

  /** Requesting a new link replaces the outstanding one: the old token no
      longer redeems on that account. */
  lemma ResendRevokesOldToken(s: State, email: string, previous: string, token: string, now: int, later: int, domain: string)
    requires email != "" && previous != token
    ensures !Redeemable(SendMagicLink(s, email, token, now, domain).0.accounts[email], previous, later)
  {
  }
}
