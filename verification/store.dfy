/** The two persisted tables of the application (users and gens) and the
    browser session, as immutable values, with the well-formedness that every
    handler keeps. */
module Store {

  datatype Option<+T> = None | Some(value: T)

  /** One row of the users table, keyed by email. */
  datatype Account = Account(token: Option<string>, expiry: Option<int>, active: bool, balance: int)

  /** One row of the gens table; its id is the key it is stored under. */
  datatype Generation = Generation(prompt: string, sessionId: string, folder: string)

  /** A browser session: `auth` is the signed-in email (absent when the key is
      missing), `sessionId` the anonymous id the home page assigns. */
  datatype Session = Session(auth: Option<string>, sessionId: Option<string>)

  /** `order` lists the emails in row order of the users table, which is the
      order a `where` query returns them in. Generation ids are handed out by
      the counter `nextGenId`, as the table's integer primary key does when
      rows are never deleted. */
  datatype State = State(
    accounts: map<string, Account>,
    order: seq<string>,
    gens: map<nat, Generation>,
    nextGenId: nat)

  /** The row inserted for an unknown email. */
  const NewAccount := Account(None, None, false, 0)

  const Empty := State(map[], [], map[], 1)

  /** is_user_logged_in: an `auth` entry that is not None. */
  predicate LoggedIn(sess: Session) {
    sess.auth.Some?
  }

  /** Balance of `e`, reading an absent account as zero credits. */
  function Balance(s: State, e: string): int {
    if e in s.accounts then s.accounts[e].balance else 0
  }

  ghost predicate OrderIsKeys(s: State) {
    && (forall i, j :: 0 <= i < j < |s.order| ==> s.order[i] != s.order[j])
    && (forall e :: e in s.accounts <==> e in s.order)
  }

  /** Token and expiry are set and cleared together. */
  predicate Paired(a: Account) {
    a.token.Some? <==> a.expiry.Some?
  }

  ghost predicate Inv(s: State) {
    && OrderIsKeys(s)
    && "" !in s.accounts
    && (forall e :: e in s.accounts ==> s.accounts[e].balance >= 0)
    && (forall e :: e in s.accounts ==> Paired(s.accounts[e]))
    && IdsBelowNext(s)
  }

  /** Ids start at one, and every stored generation id was handed out before
      the next one. */
  ghost predicate IdsBelowNext(s: State) {
    && 1 <= s.nextGenId
    && forall id :: id in s.gens ==> 1 <= id < s.nextGenId
  }

  /** Every generation record of `s` is still in `s'`, unchanged. */
  ghost predicate GensKept(s: State, s': State) {
    forall id :: id in s.gens ==> id in s'.gens && s'.gens[id] == s.gens[id]
  }

  /** No two accounts hold the same outstanding token. */
  ghost predicate TokensUnique(s: State) {
    forall e1, e2 :: e1 in s.accounts && e2 in s.accounts && e1 != e2 && s.accounts[e1].token.Some?
      ==> s.accounts[e1].token != s.accounts[e2].token
  }

  /** `token` is not outstanding on any account. */
  ghost predicate TokenFresh(s: State, token: string) {
    forall e :: e in s.accounts ==> s.accounts[e].token != Some(token)
  }

  /** Every account other than `e` is present in both maps with the same row,
      or in neither. */
  ghost predicate AgreeExcept(a: map<string, Account>, b: map<string, Account>, e: string) {
    forall k :: k != e ==> (k in a <==> k in b) && (k in a ==> a[k] == b[k])
  }

  lemma EmptyInv()
    ensures Inv(Empty) && TokensUnique(Empty)
  {
  }
}
