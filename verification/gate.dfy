/** The authentication Beforeware of the production app: every request whose
    path matches none of the skip patterns is redirected to the home page
    unless the session carries a signed-in email. */
module Gate {
  import opened Store

  /** The three shapes of skip pattern the app uses, read as Python's
      `re.fullmatch`: a literal, a literal followed by `.*`, or `.*` followed
      by a literal. `.` does not match a newline. */
  datatype Pattern = Exact(text: string) | StartsWith(text: string) | EndsWith(text: string)

  predicate NoNewline(s: string) {
    forall i :: 0 <= i < |s| ==> s[i] != '\n'
  }

  predicate FullMatch(p: Pattern, path: string) {
    match p
    case Exact(t) => path == t
    case StartsWith(t) => |t| <= |path| && path[..|t|] == t && NoNewline(path[|t|..])
    case EndsWith(t) => |t| <= |path| && path[|path| - |t|..] == t && NoNewline(path[..|path| - |t|])
  }

  /** The skip list exactly as the app declares it. */
  const SkipAsWritten: seq<Pattern> := [
    Exact("/favicon.ico"), StartsWith("/static/"), EndsWith(".css"), Exact("/login"),
    Exact("/send_magic_link"), StartsWith("/verify_magic_link/"), Exact("/"), Exact("/about"),
    StartsWith("/media/"), Exact("/generate_images")]

  const WebhookPaths := ["/webhook", "/webhook/"]

  /** The skip list with Stripe's webhook routes added: Stripe calls them
      without the user's session cookie. */
  const Skip: seq<Pattern> := SkipAsWritten + [Exact(WebhookPaths[0]), Exact(WebhookPaths[1])]

  predicate Skipped(patterns: seq<Pattern>, path: string) {
    exists i :: 0 <= i < |patterns| && FullMatch(patterns[i], path)
  }

  /** `before`: an absent or empty `auth` is "not auth". */
  predicate HasAuth(sess: Session) {
    sess.auth.Some? && sess.auth.value != ""
  }

  /** Whether the request reaches its handler (otherwise: 303 to "/"). */
  predicate Admit(patterns: seq<Pattern>, path: string, sess: Session) {
    Skipped(patterns, path) || HasAuth(sess)
  }

  /** `before` is stricter than `is_user_logged_in`: both want an email in the
      session, and `before` also refuses the empty one. */
  lemma AuthStricterThanLoggedIn(sess: Session)
    ensures HasAuth(sess) ==> LoggedIn(sess)
    ensures LoggedIn(sess) && !HasAuth(sess) <==> sess.auth == Some("")
  {
  }

  /** A pattern that cannot fully match `path` when `path` has `c` at index
      `k`: a literal start differs there, or a literal end is not one of
      `path`. */
  predicate Excludes(p: Pattern, k: nat, c: char, path: string) {
    match p
    case Exact(t) => |t| <= k || t[k] != c
    case StartsWith(t) => |t| > k && t[k] != c
    case EndsWith(t) => !(|t| <= |path| && path[|path| - |t|..] == t)
  }

  lemma NotSkipped(patterns: seq<Pattern>, k: nat, c: char, path: string)
    requires k < |path| && path[k] == c
    requires forall i :: 0 <= i < |patterns| ==> Excludes(patterns[i], k, c, path)
    ensures !Skipped(patterns, path)
  {
  }

  lemma WebhookNotSkippedAsWritten(path: string)
    requires path in WebhookPaths
    ensures !Skipped(SkipAsWritten, path)
  {
    assert path[|path| - 1] != 's';
    assert forall i :: 0 <= i < |SkipAsWritten| ==> Excludes(SkipAsWritten[i], 1, 'w', path);
    NotSkipped(SkipAsWritten, 1, 'w', path);
  }

  /** The sign-in routes and the generate route are public; buying credits is
      not. */
  lemma PublicRoutes(token: string)
    requires NoNewline(token)
    ensures Skipped(SkipAsWritten, "/send_magic_link")
    ensures Skipped(SkipAsWritten, "/verify_magic_link/" + token)
    ensures Skipped(SkipAsWritten, "/generate_images")
    ensures !Skipped(SkipAsWritten, "/buy_credits")
  {
    assert FullMatch(SkipAsWritten[4], "/send_magic_link");
    var v := "/verify_magic_link/" + token;
    assert v[..19] == "/verify_magic_link/" && v[19..] == token;
    assert FullMatch(SkipAsWritten[5], v);
    assert FullMatch(SkipAsWritten[9], "/generate_images");
    assert forall i :: 0 <= i < |SkipAsWritten| ==> Excludes(SkipAsWritten[i], 1, 'b', "/buy_credits");
    NotSkipped(SkipAsWritten, 1, 'b', "/buy_credits");
  }

  /** A path under `/gens/` ending in a digit (a generation's poll path) is
      not public. */
  lemma GensNotSkipped(path: string)
    requires |path| > 6 && path[..6] == "/gens/" && '0' <= path[|path| - 1] <= '9'
    ensures !Skipped(SkipAsWritten, path)
  {
    assert path[4] == 's';
    assert forall i :: 0 <= i < |SkipAsWritten| ==> Excludes(SkipAsWritten[i], 4, 's', path);
    NotSkipped(SkipAsWritten, 4, 's', path);
  }

  /** As written, a webhook call without a session cookie (as Stripe sends
      it) is redirected before the handler runs, so it can never credit. */
  lemma WebhookRedirectedAsWritten(path: string, sess: Session)
    requires path in WebhookPaths && !HasAuth(sess)
    ensures !Admit(SkipAsWritten, path, sess)
  {
    WebhookNotSkippedAsWritten(path);
  }

  /** With the corrected skip list every webhook call reaches its handler,
      and every other path is admitted exactly as before. */
  lemma WebhookAdmitted(path: string, sess: Session)
    ensures path in WebhookPaths ==> Admit(Skip, path, sess)
    ensures path !in WebhookPaths ==> (Admit(Skip, path, sess) <==> Admit(SkipAsWritten, path, sess))
  {
    if path in WebhookPaths {
      var i := if path == WebhookPaths[0] then |SkipAsWritten| else |SkipAsWritten| + 1;
      assert FullMatch(Skip[i], path);
    } else {
      if Skipped(Skip, path) {
        var i :| 0 <= i < |Skip| && FullMatch(Skip[i], path);
        assert i < |SkipAsWritten| && Skip[i] == SkipAsWritten[i];
      }
      if Skipped(SkipAsWritten, path) {
        var i :| 0 <= i < |SkipAsWritten| && FullMatch(SkipAsWritten[i], path);
        assert Skip[i] == SkipAsWritten[i];
      }
    }
  }
}
