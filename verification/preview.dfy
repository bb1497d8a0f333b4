/** The polling view of a generation: generation_preview and the route
    GET /gens/{id} that the pending placeholder polls. Readiness is the
    existence of the image file, so the set of existing files is an input. */
module Preview {
  import opened Store
  import Decimal

  const GensRoute := "/gens/"
  /** Seconds between two polls of a pending generation. */
  const PollSeconds: nat := 2

  datatype PreviewOutcome =
    | WrongSession
      /** `session['session_id']` raised KeyError (HTTP 500) */
    | SessionIdMissing
    | Ready(imagePath: string, prompt: string)
      /** placeholder that re-requests `pollPath` every `everySeconds` */
    | Pending(prompt: string, pollPath: string, everySeconds: nat)
    | NotFound

  /** Where the background task writes the image of generation `id`. */
  function ImagePath(id: nat, g: Generation): string {
    g.folder + "/" + Decimal.Show(id) + ".png"
  }

  function PollPath(id: nat): string {
    GensRoute + Decimal.Show(id)
  }

  /** generation_preview: only the session that created a generation sees it;
      it is ready exactly when its image file exists. */
  function GenerationPreview(id: nat, g: Generation, sess: Session, files: set<string>): (r: PreviewOutcome)
    ensures sess.sessionId.None? <==> r == SessionIdMissing
    ensures sess.sessionId.Some? && sess.sessionId.value != g.sessionId <==> r == WrongSession
    ensures r.Ready? <==> sess.sessionId == Some(g.sessionId) && ImagePath(id, g) in files
    ensures r.Pending? <==> sess.sessionId == Some(g.sessionId) && ImagePath(id, g) !in files
    ensures r.Ready? ==> r.imagePath == ImagePath(id, g) && r.prompt == g.prompt
    ensures r.Pending? ==> r.prompt == g.prompt && r.pollPath == PollPath(id) && r.everySeconds == PollSeconds
    ensures !r.NotFound?
  {
    match sess.sessionId
    case None => SessionIdMissing
    case Some(sid) =>
      if g.sessionId != sid then WrongSession
      else if ImagePath(id, g) in files then Ready(ImagePath(id, g), g.prompt)
      else Pending(g.prompt, PollPath(id), PollSeconds)
  }

  /** page_preview: the record with that id, or "Generation not found.". */
  function PagePreview(s: State, id: int, sess: Session, files: set<string>): (r: PreviewOutcome)
    ensures r.NotFound? <==> id < 0 || id as nat !in s.gens
    ensures !r.NotFound? ==> r == GenerationPreview(id as nat, s.gens[id as nat], sess, files)
  {
    if id < 0 || id as nat !in s.gens then NotFound
    else GenerationPreview(id as nat, s.gens[id as nat], sess, files)
  }

  /** The id the route /gens/{id} reads out of a path made of the route
      prefix and digits. */
  function RouteId(path: string): (r: Option<nat>)
    ensures r.Some? ==> |path| > |GensRoute| && path[..|GensRoute|] == GensRoute
  {
    if |path| > |GensRoute| && path[..|GensRoute|] == GensRoute && Decimal.AllDigits(path[|GensRoute|..])
    then Some(Decimal.Read(path[|GensRoute|..]))
    else None
  }

  /** A pending placeholder polls the route of its own generation. */
  lemma PollTargetsSameGeneration(id: nat)
    ensures RouteId(PollPath(id)) == Some(id)
  {
    var p := PollPath(id);
    assert p[..|GensRoute|] == GensRoute;
    assert p[|GensRoute|..] == Decimal.Show(id);
    Decimal.ReadShow(id);
  }

  /** Distinct generations in one folder own distinct image files. */
  lemma ImagePathsDistinct(i: nat, j: nat, g: Generation, h: Generation)
    requires g.folder == h.folder && i != j
    ensures ImagePath(i, g) != ImagePath(j, h)
  {
    var si, sj := Decimal.Show(i), Decimal.Show(j);
    var p := g.folder + "/";
    assert ImagePath(i, g) == p + (si + ".png");
    assert ImagePath(j, h) == p + (sj + ".png");
    if ImagePath(i, g) == ImagePath(j, h) {
      assert si + ".png" == (p + (si + ".png"))[|p|..];
      assert sj + ".png" == (p + (sj + ".png"))[|p|..];
      Decimal.DigitRunOf(si, ".png");
      Decimal.DigitRunOf(sj, ".png");
      Decimal.ShowInjective(i, j);
    }
  }

  /** Session isolation: a generation recorded for one session is never shown
      to another, whether or not its image exists. */
  lemma OtherSessionSeesNothing(s: State, id: nat, sess: Session, files: set<string>)
    requires id in s.gens && sess.sessionId.Some? && sess.sessionId.value != s.gens[id].sessionId
    ensures PagePreview(s, id, sess, files) == WrongSession
  {
  }
}
