# Credit ledger and magic-link sign-in of the SafeFast virtual-tours app

A Dafny model of the state machine under the FastHTML app in `main.py`. The
app signs users in with emailed magic links, sells image credits through
Stripe Checkout, and spends one credit per AI image generation. Generations
are polled until their image file exists.

The model is an immutable store: the users table (`Store.Account` keyed by
email, plus the table's row order), the gens table (`Store.Generation` keyed
by id, with the next id), and a browser `Store.Session` (signed-in email and
anonymous session id). Each HTTP handler is a pure function from the store
and its inputs to a new store and an outcome. Everything the handlers get
from outside is an explicit input:

- the random magic-link token, `secrets.token_urlsafe` (`token`);
- the clock (`now`, in seconds);
- the random folder name, `uuid4` (`uuid`);
- the random prompt choice (`pick`);
- Stripe's answer to the checkout request (`StripeResult`);
- the webhook's signature check (`signatureValid`) and its decoded event (`Event`);
- the set of image files that exist (`files`).

Modules follow the handlers:

- `Store`: the tables, the session and the invariant every handler keeps.
  The invariant says the row order lists each account once, no email is
  empty, every balance is non-negative, token and expiry are set together,
  and generation ids lie below the next id.
- `MagicLink`: `page_send_magic_link` and `page_verify_magic_link`.
- `Generate`: the POST `page_generate_images` handler and its prompt table.
- `Checkout`: `page_buy_credits_post` and `page_stripe_webhook`.
- `Preview`: `generation_preview` and the `/gens/{id}` route.
- `Gate`: the authentication Beforeware and its skip list.
- `App`: routes a request through the gate to its handler, and runs
  sequences of requests.
- `Decimal`: how ids and amounts are printed in paths and product names.

Behaviour of the code worth noting:

- A verified webhook event of any type other than `checkout.session.completed`
  is answered with the pair (`unhandled_event_type`, 400). Every webhook reply is such a pair, a dict and a number; `Checkout.WebhookReply.code` is that number.
- The handler for POST /generate_images checks `'auth' in session`, while
  other handlers use `is_user_logged_in`, which also rejects a None value.
  The session's `auth` is an `Option`, so the two checks coincide (`Store.LoggedIn`).
  The app only ever stores an email there.
- A session without `session_id` makes generation raise KeyError after the
  debit. The model keeps the debit and inserts no record
  (`Generate.SessionIdMissing`). This is the credit lost between debit and
  record creation.

## Model

| member | source | states |
|---|---|---|
| Store.EmptyInv | main.py:62-85 | freshly created, empty tables satisfy the store invariant and have no outstanding tokens |
| Decimal.Show | main.py:665 | a number prints as a non-empty string of digits, with no leading zero unless it is 0 |
| Decimal.ReadShow | main.py:508-509 | reading the printed digits back as `int` yields the number |
| MagicLink.SendMagicLink | main.py:384-407 | an empty email is refused with no change; otherwise the account exists afterwards with the new token and expiry now+15 min; a new email is appended to the row order, which is otherwise kept; a new account has balance 0 and is inactive, an existing one keeps its balance and flag; no other account or generation changes; the mail carries the verify URL with the token; the invariant is kept |
| MagicLink.FirstRedeemable | main.py:418 | the chosen account holds the token with an expiry strictly after now and is the first such row; none is chosen exactly when no row qualifies |
| MagicLink.VerifyMagicLink | main.py:413-427 | succeeds iff some account holds the token with expiry > now; on success that account is active with token and expiry both cleared, balance unchanged, the session signed in as it and nothing else changed; on failure nothing changes; keeps the invariant and token uniqueness |
| MagicLink.SendKeepsTokensUnique | main.py:397-401 | issuing a fresh token keeps outstanding tokens unique |
| MagicLink.SendThenVerify | main.py:398-421 | a link verified strictly before now+15 min signs its recipient in, keeping the balance; verified at or after the expiry it fails and changes nothing |
| MagicLink.VerifyTwiceFails | main.py:418-421 | after a token has signed someone in, verifying it again fails and changes nothing |
| MagicLink.ResendRevokesOldToken | main.py:397-401 | a new link replaces the account's previous token, which no longer redeems |
| Generate.Lookup | main.py:728 | `dict.get`: a found value is stored under the key; nothing is found iff no entry has the key |
| Generate.SelectPrompt | main.py:717-731 | a known tour yields its own scene, an unknown one the randomly picked scene; the prompt always ends with the TOK suffix |
| Generate.GenerateImages | main.py:691-741 | unauthenticated, unknown user and balance < 1 change nothing; a generation starts iff the caller has an account with at least one credit and a session id, and the debit without a record happens iff the same holds without a session id; in both cases exactly that account loses one credit; a started generation is a new record under a new id, with the caller's session id, the fresh folder and the selected prompt, and its task is dispatched; every other outcome leaves the store unchanged |
| Generate.GeneratePreservesInv | main.py:702-714 | generating keeps the invariant, so the debit never makes a balance negative, and keeps tokens unique |
| Generate.NoCreditNoGeneration | main.py:702-710 | with balance below one, the store is unchanged and no generation is started |
| Generate.FreshFolder | main.py:734-740 | a fresh folder name gives the new record a folder no other record uses |
| Generate.KnownTourPrompt | main.py:718-728 | every tour name of the table selects its own scene whatever the random pick |
| Generate.TourNamesDistinct | main.py:718-725 | the six tour names are distinct |
| Generate.FormValuesFallBack | main.py:469-472 | the values the generate form submits are not tour names, so they always get the random scene |
| Checkout.BuyCredits | main.py:634-687 | redirects to login iff not signed in; refuses iff signed in as an unknown user; refuses an amount outside 1..5 iff the user is known; for a valid purchase it redirects to Stripe iff Stripe created the session, with exactly the checkout parameters of the purchase, and reports Stripe's failure iff Stripe failed; no store is returned, so no balance changes |
| Checkout.Params | main.py:658-677 | the checkout charges exactly one dollar per credit that its metadata tells the webhook to grant, and the product name shows that same number of credits (its digit run after "Buy "); it is a card payment in usd, quantity 1, returning to `{DOMAIN}/success?session_id={CHECKOUT_SESSION_ID}` or `{DOMAIN}/cancel`, with the buyer's email in the metadata |
| Checkout.ProductName | main.py:665 | the name is exactly "Buy ", the amount in digits, " Credit", an "s" iff more than one credit is bought, then " for $" and the amount: the prefix, the "s" position and the ending are pinned and the length leaves no other characters |
| Checkout.PurchaseParams | main.py:658-677 | the checkout a successful purchase asks for is in usd at 100 cents per credit, is named exactly "Buy {n} Credit{s} for ${n}" (prefix, digits, " Credit", the "s" iff the amount exceeds one, the ending and the total length), and carries the session's email and the amount |
| Checkout.ProductNameInjective | main.py:665 | different amounts give different product names |
| Checkout.StripeWebhook | main.py:801-830 | the number returned beside the reply's dict is 400 for a bad signature, for another event type and for a missing email or amount, and 404 for an unknown user, each with no change; otherwise it is 200 and exactly that user's balance grows by the amount |
| Checkout.WebhookPreservesInv | main.py:820-823 | crediting a non-negative amount keeps the invariant and token uniqueness |
| Checkout.PurchaseThenWebhook | main.py:812-828 | the completion event for a checkout the app created credits the buyer exactly the bought amount and leaves every other balance alone |
| Preview.GenerationPreview | main.py:207-242 | missing session id is an error; a different session id always gets "Wrong session ID!"; otherwise ready iff the file `{folder}/{id}.png` exists, else pending, polling `/gens/{id}` every 2 s |
| Preview.PagePreview | main.py:508-514 | an id with no record is "Generation not found."; otherwise the preview of that record |
| Preview.PollTargetsSameGeneration | main.py:238 | the path a pending placeholder polls leads back to the same generation id |
| Preview.ImagePathsDistinct | main.py:212 | distinct generations in one folder own distinct image files |
| Preview.OtherSessionSeesNothing | main.py:209 | a record of one session is never shown to another, whatever files exist |
| Gate.WebhookNotSkippedAsWritten | main.py:100 | neither webhook path matches any pattern of the skip list as written |
| Gate.WebhookRedirectedAsWritten | main.py:96-100 | as written, a cookieless webhook call is redirected before its handler runs |
| Gate.WebhookAdmitted | main.py:100 | with the webhook paths added to the skip list, every webhook call reaches its handler and every other path is admitted as before |
| Store.LoggedIn | main.py:119-121 | `is_user_logged_in`: the session holds an email (an `auth` that is present and not None) |
| Gate.FullMatch | main.py:100 | `re.fullmatch` of the three skip-pattern shapes: the literal itself, the literal followed by any line, or any line followed by the literal |
| Gate.HasAuth | main.py:96-98 | `before` lets a session through only when its `auth` is present and truthy, i.e. a non-empty email |
| Gate.Admit | main.py:96-100 | a request reaches its handler iff its path fully matches a skip pattern or the session passes `before` |
| Gate.AuthStricterThanLoggedIn | main.py:96-98 | every session `before` admits is logged in; the two checks differ exactly on an empty email |
| Gate.PublicRoutes | main.py:100 | the send-link, verify-link (any token without a newline) and generate paths match the skip list; /buy_credits does not |
| Gate.GensNotSkipped | main.py:100 | no generation's poll path under /gens/ matches the skip list |
| App.Handle | main.py:96-98 | for either skip list, a request changes at most one account: the recipient of a sent link, the account a link signs in, the debited or the credited account; every other outcome leaves the accounts unchanged; gated, buy and preview requests and failed webhooks change nothing; only verification changes the session; a request is redirected iff the gate refuses it |
| App.HandleKeepsRecords | main.py:702-740 | no request removes an account; when generation ids lie below the next id, no request alters or removes a generation record and new records keep that property |
| App.HandleKeepsTokensUnique | main.py:397-421 | given a fresh magic-link token, every request keeps outstanding tokens unique |
| App.GatedRoutes | main.py:96-100 | without a signed-in email, a request is redirected iff it buys credits, previews a generation, or is the webhook under the skip list as written |
| App.HandleLedger | main.py:711-714 | each request moves a balance by exactly its recorded debit or credit, and a debit happens only from a balance of at least one |
| App.HandlePreservesInv | main.py:702-714 | every handler keeps the store invariant, given non-negative webhook amounts |
| App.Run | main.py:702-740 | a run records one ledger effect per request and never removes an account; from a store whose generation ids lie below the next id, it keeps that property and never alters or removes a stored generation record |
| App.LedgerAdditivity | main.py:820-823 | after any run a balance is the initial balance plus the recorded credits minus the recorded debits |
| App.RunPreservesInv | main.py:702-714 | after any run of admissible requests the invariant holds and no balance is negative |
| App.RunKeepsTokensUnique | main.py:397-421 | along every run whose magic-link tokens are fresh when issued, outstanding tokens stay unique |
| App.CookielessWebhookCredits | main.py:801-828 | through the corrected gate, Stripe's cookieless completion event credits the buyer |
| App.CookielessWebhookIgnoredAsWritten | main.py:96-100 | through the gate as written, the same cookieless event is redirected, the store is unchanged and no credit is recorded |

## Findings

| source | as written | input that shows it | evidently intended | confidence | as-written member | corrected member |
|---|---|---|---|---|---|---|
| main.py:100 | the Beforeware skip list does not include `/webhook` or `/webhook/`, and production mode (`dev_mode = False`) installs it | Stripe's POST /webhook, which carries no session cookie, is answered with a 303 redirect to `/` before `page_stripe_webhook` runs, so no purchase is ever credited | the webhook routes are skipped like the other public routes | medium (depends on the framework applying `re.fullmatch` to the skip patterns), not executed | Gate.WebhookRedirectedAsWritten | Gate.WebhookAdmitted |

`App.Handle` and `App.Run` take the skip list as a parameter, so every run theorem holds for the app as written and for the corrected one. `App.CookielessWebhookIgnoredAsWritten` and `App.CookielessWebhookCredits` show the difference on the webhook.

## Left out

- Page rendering: HTML, CSS, the navigation bar, the login form, and the home, about, login, logout, success and cancel pages. Also left out: both GET /generate_images pages, GET /get_updated_balance and the HTML fragments the handlers return. Outcomes are datatypes instead.
- The home page's assignment of `session_id`: sessions are inputs.
- The image provider: the Replicate call, the image download, the `@threaded` dispatch and its generation parameters. `Generate.Started` stands for the dispatch. The image file the background job writes appears only through the `files` input.
- The preview of the new record that the generate reply embeds. It is `Preview.GenerationPreview` of that record.
- Resend mail delivery: `MagicLink.LinkSent` carries the recipient and the URL to send.
- Stripe session creation and webhook signature cryptography: reduced to `StripeResult` and `signatureValid`.
- Randomness: `secrets.token_urlsafe`, `uuid4` and `random.choice` are inputs. Their freshness is a premise of the lemmas that need it.
- Database and table setup, environment variables, `load_dotenv`, stripping the trailing slash from `DOMAIN` (an input here), and the `dev_mode` switch. The model is production mode, where the Beforeware is installed.
- Static file serving.
- The SQL text of the `where` clauses: modelled by its intended meaning. The interpolated token allows SQL injection, and expiry is compared as timestamp text. Neither is modelled; time is an integer count of seconds.
- Concurrency: the read-then-write race between the debit and the webhook credit. Each handler is atomic.
- FastHTML's conversion of form and path parameters to `int`: a value that does not convert never reaches a handler here.
- Checkout.StripeWebhook: whether FastHTML sends the number returned beside the dict as the HTTP status, or renders the pair as a 200 response, is not modelled; `code` is the handler's number. The metadata amount is an already-parsed integer (None for absent or empty). The ValueError that `int()` raises on non-numeric text, and the signs, blanks and underscores `int()` accepts, are not modelled.
- In `App` the preview route takes a natural id. Negative ids are handled by `Preview.PagePreview`, which answers "Generation not found.".
