/** POST /generate_images: the guarded debit of one credit, the choice of a
    prompt and the insertion of a pending Generation. The random prompt, the
    fresh folder name and the dispatch of the background image task are
    inputs and outputs. */
module Generate {
  import opened Store

  /** The tour names a request may ask for and their scene descriptions, in
      the order the handler lists them. */
  const PromptTable: seq<(string, string)> := [
    ("Julius Caesar at the Roman Forum",
     "Emperor Julius Caesar giving a speech at the Roman Forum, addressing a crowd of Roman citizens with grand Roman architecture in the background."),
    ("Gladiators in the Colosseum",
     "Gladiators preparing for battle inside the Colosseum, with their armor gleaming, the arena packed with spectators cheering them on."),
    ("A Roman Feast",
     "A lavish Roman feast with nobles and emperors dining in an extravagant hall, surrounded by luxurious food, wine, and ornate decorations."),
    ("Architects Designing the Pantheon",
     "Roman architects working on detailed blueprints of the Pantheon under the guidance of Emperor Hadrian, surrounded by construction materials and models."),
    ("Roman Soldiers Marching",
     "Roman soldiers in full armor marching through a grand triumphal arch, celebrating a victorious return from battle with flags and banners waving."),
    ("Empress Livia in Palace Gardens",
     "Empress Livia, wife of Augustus, walking gracefully through the beautifully manicured palace gardens, with vibrant flowers and elegant statues surrounding her.")
  ]

  /** Appended to every prompt to steer the fine-tuned image model. */
  const Suffix := " Some of the people, statues, or objects in the scene should look like TOK"

  const GensDir := "data/gens/"

  /** The outcome of the random choice among the six scene descriptions. */
  type PromptIndex = i: nat | i < |PromptTable| witness 0

  datatype GenerateOutcome =
    | NotAuthenticated
    | UserNotFound
      /** the page redirects to /buy_credits */
    | InsufficientBalance
      /** `session['session_id']` raised KeyError after the debit (HTTP 500) */
    | SessionIdMissing(account: string)
      /** record `id` inserted and the image task dispatched with its prompt and folder */
    | Started(account: string, id: nat, gen: Generation)

  /** `dict.get` on an association list. */
  function Lookup(table: seq<(string, string)>, key: string): (r: Option<string>)
    ensures r.Some? ==> exists i :: 0 <= i < |table| && table[i] == (key, r.value)
    ensures r.None? <==> forall i :: 0 <= i < |table| ==> table[i].0 != key
  {
    if table == [] then None
    else if table[0].0 == key then Some(table[0].1)
    else
      var rest := Lookup(table[1..], key);
      assert forall i :: 1 <= i < |table| ==> table[i] == table[1..][i - 1];
      rest
  }

  predicate IsTour(tour: string) {
    exists i :: 0 <= i < |PromptTable| && PromptTable[i].0 == tour
  }

  /** The prompt sent to the image model: the named tour's scene when the
      name is known, otherwise the randomly picked scene, then the suffix. */
  function SelectPrompt(tour: string, pick: PromptIndex): (r: string)
    ensures IsTour(tour) ==> exists i :: 0 <= i < |PromptTable| && PromptTable[i].0 == tour && r == PromptTable[i].1 + Suffix
    ensures !IsTour(tour) ==> r == PromptTable[pick].1 + Suffix
    ensures |r| > |Suffix| && r[|r| - |Suffix|..] == Suffix
  {
    var scene := match Lookup(PromptTable, tour)
      case Some(p) => p
      case None => PromptTable[pick].1;
    assert |scene| > 0 by {
      var i :| 0 <= i < |PromptTable| && scene == PromptTable[i].1;
    }
    scene + Suffix
  }

  /** The session is signed in as a known account holding at least one credit. */
  predicate CanDebit(s: State, sess: Session) {
    sess.auth.Some? && sess.auth.value in s.accounts && s.accounts[sess.auth.value].balance >= 1
  }

  /** page_generate_images (POST). `pick` stands for random.choice, `uuid`
      for the fresh folder name. */
  function GenerateImages(s: State, sess: Session, tour: string, pick: PromptIndex, uuid: string): (r: (State, GenerateOutcome))
    ensures sess.auth.None? ==> r == (s, NotAuthenticated)
    ensures sess.auth.Some? && sess.auth.value !in s.accounts ==> r == (s, UserNotFound)
    ensures sess.auth.Some? && sess.auth.value in s.accounts && s.accounts[sess.auth.value].balance < 1 ==>
      r == (s, InsufficientBalance)
    ensures r.1.Started? <==> CanDebit(s, sess) && sess.sessionId.Some?
    ensures r.1.SessionIdMissing? <==> CanDebit(s, sess) && sess.sessionId.None?
    ensures !(r.1.Started? || r.1.SessionIdMissing?) ==> r.0 == s
    ensures r.1.SessionIdMissing? || r.1.Started? ==>
      var e := r.1.account;
      && sess.auth == Some(e) && e in s.accounts && s.accounts[e].balance >= 1
      && e in r.0.accounts
      && r.0.accounts[e] == s.accounts[e].(balance := s.accounts[e].balance - 1)
      && AgreeExcept(s.accounts, r.0.accounts, e)
      && r.0.order == s.order
    ensures r.1.SessionIdMissing? ==> sess.sessionId.None? && r.0.gens == s.gens && r.0.nextGenId == s.nextGenId
    ensures r.1.Started? ==>
      && sess.sessionId == Some(r.1.gen.sessionId)
      && r.1.gen.folder == GensDir + uuid
      && r.1.gen.prompt == SelectPrompt(tour, pick)
      && r.1.id == s.nextGenId
      && r.0.gens == s.gens[r.1.id := r.1.gen]
      && r.0.nextGenId == s.nextGenId + 1
    ensures Inv(s) && r.1.Started? ==> r.1.id !in s.gens
  {
    match sess.auth
    case None => (s, NotAuthenticated)
    case Some(e) =>
      if e !in s.accounts then (s, UserNotFound)
      else if s.accounts[e].balance < 1 then (s, InsufficientBalance)
      else
        var debited := s.(accounts := s.accounts[e := s.accounts[e].(balance := s.accounts[e].balance - 1)]);
        var prompt := SelectPrompt(tour, pick);
        var folder := GensDir + uuid;
        match sess.sessionId
        case None => (debited, SessionIdMissing(e))
        case Some(sid) =>
          var g := Generation(prompt, sid, folder);
          var id := s.nextGenId;
          (debited.(gens := s.gens[id := g], nextGenId := id + 1), Started(e, id, g))
  }

  /** Generating keeps the tables well formed: in particular the one debit
      never takes a balance below zero. */
  lemma GeneratePreservesInv(s: State, sess: Session, tour: string, pick: PromptIndex, uuid: string)
    ensures Inv(s) ==> Inv(GenerateImages(s, sess, tour, pick, uuid).0)
    ensures TokensUnique(s) ==> TokensUnique(GenerateImages(s, sess, tour, pick, uuid).0)
  {
    var r := GenerateImages(s, sess, tour, pick, uuid);
    if r.1.Started? || r.1.SessionIdMissing? {
      var e := r.1.account;
      assert forall k :: k in r.0.accounts && k != e ==> r.0.accounts[k] == s.accounts[k];
      if Inv(s) {
        assert OrderIsKeys(r.0);
      }
    }
  }

  /** Below one credit nothing happens: no balance moves, no record is
      inserted and no task is dispatched. */
  lemma NoCreditNoGeneration(s: State, sess: Session, tour: string, pick: PromptIndex, uuid: string)
    requires sess.auth.Some? && Balance(s, sess.auth.value) < 1
    ensures
      var r := GenerateImages(s, sess, tour, pick, uuid);
      r.0 == s && !r.1.Started?
  {
  }

  /** Successful generations never share a folder when the folder names are
      fresh. */
  lemma FreshFolder(s: State, sess: Session, tour: string, pick: PromptIndex, uuid: string)
    requires forall id :: id in s.gens ==> s.gens[id].folder != GensDir + uuid
    ensures
      var r := GenerateImages(s, sess, tour, pick, uuid);
      r.1.Started? ==> forall id :: id in s.gens ==> s.gens[id].folder != r.1.gen.folder
  {
  }

  /** Every tour name of the table yields its own scene, whatever the random pick. */
  lemma KnownTourPrompt(i: nat, pick: PromptIndex)
    requires i < |PromptTable|
    ensures SelectPrompt(PromptTable[i].0, pick) == PromptTable[i].1 + Suffix
  {
    var tour := PromptTable[i].0;
    var j :| 0 <= j < |PromptTable| && PromptTable[j].0 == tour && SelectPrompt(tour, pick) == PromptTable[j].1 + Suffix;
    TourNamesDistinct(i, j);
  }

  /** No two rows of the table share a tour name (their lengths differ). */
  lemma TourNamesDistinct(i: nat, j: nat)
    requires i < |PromptTable| && j < |PromptTable| && PromptTable[i].0 == PromptTable[j].0
    ensures i == j
  {
  }

  /** The values the generate page's form submits (emperors, gladiators,
      citizens) are not tour names, so for them the prompt is always the
      random pick. */
  lemma FormValuesFallBack(pick: PromptIndex)
    ensures SelectPrompt("emperors", pick) == PromptTable[pick].1 + Suffix
    ensures SelectPrompt("gladiators", pick) == PromptTable[pick].1 + Suffix
    ensures SelectPrompt("citizens", pick) == PromptTable[pick].1 + Suffix
  {
    assert !IsTour("emperors") && !IsTour("gladiators") && !IsTour("citizens");
  }
}
