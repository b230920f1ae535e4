// Finding a reusable image or building one, and sharing it with the target.
module Images {
  import opened Wrappers
  import opened World
  import opened CloudApi
  import opened HelperAccess
  import opened NormalizationRun

  datatype Config = Config(
    target: Project,
    ownerProject: Option<Project>,
    imageId: Option<Id>,
    shareProjects: seq<Project>,
    shareOrganization: bool,
    agentEnabled: bool,
    performance: string)

  function Owner(cfg: Config): Project {
    if cfg.ownerProject.Some? then cfg.ownerProject.value else cfg.target
  }

  // ---------- Search ----------

  predicate IsCandidate(img: Image, p: Project, sha: Sha) {
    Visible(img, p) && LabelsMatch(img, sha) && (img.status.ImageAvailable? || (img.status.ImageCreating? && img.owner == p))
  }

  function VisibleTo(w: World, p: Project): map<Id, Image> {
    map i | i in w.images && Visible(w.images[i], p) :: w.images[i]
  }

  predicate ShowsAvailable(shown: map<Id, Image>, sha: Sha) {
    exists i | i in shown :: LabelsMatch(shown[i], sha) && shown[i].status.ImageAvailable?
  }

  /** The best candidate seen in a listing: local before shared, finished before unfinished. */
  ghost predicate IsBest(w: World, p: Project, sha: Sha, found: Option<Id>) {
    match found
    case None => forall i | i in w.images :: !IsCandidate(w.images[i], p, sha)
    case Some(f) =>
      && f in w.images && IsCandidate(w.images[f], p, sha)
      && (w.images[f].owner != p ==>
            forall i | i in w.images && IsCandidate(w.images[i], p, sha) && w.images[i].status.ImageAvailable? ::
              w.images[i].owner != p)
      && (w.images[f].status.ImageCreating? ==>
            forall i | i in w.images && IsCandidate(w.images[i], p, sha) :: w.images[i].status.ImageCreating?)
  }

  ghost predicate NoOwnAvailable(w: World, p: Project, sha: Sha) {
    forall i | i in w.images && w.images[i].owner == p && LabelsMatch(w.images[i], sha) :: !w.images[i].status.ImageAvailable?
  }

  /** While an AVAILABLE image is visible, the search may pick this one now or once it has finished. */
  ghost predicate Eligible(w: World, i: Id, p: Project, sha: Sha) {
    && i in w.images && Visible(w.images[i], p) && LabelsMatch(w.images[i], sha)
    && w.images[i].status in {ImageAvailable, ImageCreating}
    && (w.images[i].owner == p || NoOwnAvailable(w, p, sha))
  }

  lemma BestIsEligible(a: World, b: World, p: Project, sha: Sha, f: Id)
    requires ImagesEvolve(a, b) && IsBest(b, p, sha, Some(f))
    ensures Eligible(a, f, p, sha)
  {
    assert a.images[f].status in {ImageAvailable, ImageCreating};
    if a.images[f].owner != p {
      forall i | i in a.images && a.images[i].owner == p && LabelsMatch(a.images[i], sha)
        ensures !a.images[i].status.ImageAvailable?
      {
        assert ImageEvolves(a.images[i], b.images[i]);
      }
    }
  }

  /** The state in which this image has finished. */
  function Finish(w: World, i: Id): World
    requires i in w.images
  {
    w.(images := w.images[i := w.images[i].(status := ImageAvailable)])
  }

  lemma EligibleIsBest(w: World, i: Id, p: Project, sha: Sha)
    requires Eligible(w, i, p, sha)
    ensures ImagesEvolve(w, Finish(w, i)) && IsBest(Finish(w, i), p, sha, Some(i))
  {
    var b := Finish(w, i);
    if w.images[i].owner != p {
      forall j | j in b.images && IsCandidate(b.images[j], p, sha) && b.images[j].status.ImageAvailable?
        ensures b.images[j].owner != p
      {
        assert j != i ==> b.images[j] == w.images[j];
      }
    }
  }

  lemma ImagesEvolving(a: World, b: World)
    requires Evolved(a, b)
    ensures ImagesEvolve(a, b)
  {
  }

  ghost predicate Found(w: World, i: Id, p: Project, sha: Sha, own: bool, status: ImageStatus) {
    && i in w.images && IsCandidate(w.images[i], p, sha)
    && (w.images[i].owner == p) == own && w.images[i].status == status
  }

  /** Lists the images visible to project p and picks the best candidate. */
  method FindImage(c: Cloud, p: Project, sha: Sha) returns (ok: bool, found: Option<Id>)
    modifies c
    ensures Undisturbed(old(c.Now()), c.Now())
    ensures ImagesEvolve(old(c.w), c.w)
    ensures ok ==> IsBest(c.w, p, sha, found)
    ensures ok <==> c.errors == old(c.errors)
    ensures c.log == old(c.log) + (if ok then [Listed(p, VisibleTo(c.w, p))] else [])
  {
    hide Undisturbed, VisibleTo, Evolved, ImagesEvolve;
    found := None;
    ok := c.Read();
    ImagesEvolving(old(c.w), c.w);
    if !ok {
      return;
    }
    ghost var s1 := c.Now();
    c.Note(Listed(p, VisibleTo(c.w, p)));
    Trans(old(c.Now()), s1, c.Now());
    var local: Option<Id> := None;
    var shared: Option<Id> := None;
    var creating: Option<Id> := None;
    var rest := c.w.images.Keys;
    while rest != {}
      invariant rest <= c.w.images.Keys
      invariant forall i | i in c.w.images && i !in rest && IsCandidate(c.w.images[i], p, sha) ::
        && (c.w.images[i].status.ImageAvailable? ==> if c.w.images[i].owner == p then local.Some? else shared.Some?)
        && (c.w.images[i].status.ImageCreating? ==> creating.Some?)
      invariant local.Some? ==> Found(c.w, local.value, p, sha, true, ImageAvailable)
      invariant shared.Some? ==> Found(c.w, shared.value, p, sha, false, ImageAvailable)
      invariant creating.Some? ==> Found(c.w, creating.value, p, sha, true, ImageCreating)
      decreases rest
    {
      var i :| i in rest;
      rest := rest - {i};
      var img := c.w.images[i];
      if Visible(img, p) && LabelsMatch(img, sha) {
        match img.status
        case ImageAvailable =>
          if img.owner == p {
            local := Some(i);
          } else if shared.None? {
            shared := Some(i);
          }
        case ImageCreating =>
          if img.owner == p {
            creating := Some(i);
          }
        case ImageError =>
        case ImageOther =>
      }
    }
    found := if local.Some? then local else if shared.Some? then shared else creating;
  }

  /** The hash label of a configured image, if it has one, is that of the OVA. */
  predicate LabelFits(img: Image, sha: Sha) {
    Sprint(img.sha) == "" || Sprint(img.sha) == sha[..32]
  }

  predicate IsUsable(img: Image) {
    img.status.ImageAvailable? || img.status.ImageCreating?
  }

  /** A configured image must be usable and must not be labelled for another OVA. */
  predicate AcceptsConfigured(img: Image, sha: Sha) {
    IsUsable(img) && LabelFits(img, sha)
  }

  /** The configured image can be read from project p and belongs to this OVA. */
  predicate Resolves(w: World, p: Project, id: Id, sha: Sha) {
    id in w.images && Visible(w.images[id], p) && LabelFits(w.images[id], sha)
  }

  lemma ResolvesStill(a: World, b: World, p: Project, id: Id, sha: Sha)
    requires ImagesEvolve(a, b)
    ensures Resolves(a, p, id, sha) <==> Resolves(b, p, id, sha)
  {
  }

  method ResolveImage(c: Cloud, p: Project, imageId: Option<Id>, sha: Sha) returns (ok: bool, found: Option<Id>)
    modifies c
    ensures Undisturbed(old(c.Now()), c.Now())
    ensures ImagesEvolve(old(c.w), c.w)
    ensures imageId.None? && ok ==> IsBest(c.w, p, sha, found)
    ensures imageId.None? && ok ==> c.log == old(c.log) + [Listed(p, VisibleTo(c.w, p))]
    ensures imageId.Some? ==> c.log == old(c.log)
    ensures imageId.Some? && ok ==>
              found == imageId && found.value in c.w.images && AcceptsConfigured(c.w.images[found.value], sha)
    ensures imageId.Some? && ok ==> Resolves(old(c.w), p, imageId.value, sha)
    ensures !ok && (imageId.Some? ==> Resolves(old(c.w), p, imageId.value, sha)) ==> old(c.errors) < c.errors
    ensures ok ==> c.errors == old(c.errors)
    ensures forall i | |old(c.log)| <= i < |c.log| :: c.log[i].Listed?
  {
    if imageId.None? {
      ok, found := FindImage(c, p, sha);
      Grows(old(c.Now()), c.Now());
      return;
    }
    hide Undisturbed, Evolved, ImagesEvolve;
    ghost var what := AwaitUsable(imageId.value);
    ok := c.Read(what);
    ghost var s1 := c.Now();
    ImagesEvolving(old(c.w), c.w);
    ResolvesStill(old(c.w), c.w, p, imageId.value, sha);
    found := imageId;
    if ok {
      ok := Resolves(c.w, p, imageId.value, sha);
      if ok && !IsUsable(c.w.images[imageId.value]) {
        c.Fail(Failed(what, |c.answers| - 1));
        GaveUp(old(c.Now()), s1, c.Now(), Failed(what, |c.answers| - 1));
        ok := false;
      }
    }
  }

  /**
   * The warning about a configured image without hash label never applies: a
   * missing label prints as "<nil>", so such an image is always refused.
   */
  lemma UnlabelledImageIsRefused(img: Image, sha: Sha)
    requires IsUsable(img)
    ensures AcceptsConfigured(img, sha) <==> img.sha in {Some(""), Some(sha[..32])}
  {
    if img.sha.None? {
      assert |Sprint(img.sha)| == 5 && |sha[..32]| == 32;
    }
  }

  // ---------- Reuse ----------

  /** Both listings came before the start of a normalization, and neither showed an available image. */
  ghost predicate StartJustified(log: seq<Event>, start: nat, cfg: Config, sha: Sha) {
    forall j | start <= j < |log| && log[j].NormalizationStarted? ::
      && log[j].owner == Owner(cfg)
      && ListedWithout(log[..j], start, cfg.target, sha) && ListedWithout(log[..j], start, Owner(cfg), sha)
  }

  ghost predicate ListedWithout(log: seq<Event>, start: nat, p: Project, sha: Sha) {
    exists i | start <= i < |log| :: log[i].Listed? && log[i].project == p && !ShowsAvailable(log[i].shown, sha)
  }

  /** Without an available candidate, the listing shows no available image. */
  lemma ListingWithout(w: World, p: Project, sha: Sha, found: Option<Id>)
    requires IsBest(w, p, sha, found) && (found.Some? ==> w.images[found.value].status.ImageCreating?)
    ensures !ShowsAvailable(VisibleTo(w, p), sha)
  {
  }

  lemma NoneFound(w: World, p: Project, sha: Sha)
    requires IsBest(w, p, sha, None)
    ensures NoImport(w, p, sha)
  {
  }

  /** No image but `id` is an unfinished import of this project and hash. */
  ghost predicate NoOtherImport(w: World, p: Project, sha: Sha, id: Id) {
    forall i | i in w.images && i != id && w.images[i].owner == p && w.images[i].sha == Some(sha[..32]) :: !IsImport(w.images[i])
  }

  /** A run may rebuild the image without doubling an import. */
  ghost predicate ImportIsSafe(w: World, cfg: Config, sha: Sha) {
    cfg.imageId.Some? ==> NoOtherImport(w, Owner(cfg), sha, cfg.imageId.value)
  }

  /**
   * Withdrawing a configured import and requesting a new one keeps the single-import
   * invariant exactly if there was no other unfinished import of the hash.
   */
  lemma StaleBranchKeepsOneImport(w: World, id: Id, next: Id, p: Project, sha: Sha, organization: set<Project>)
    requires OneImport(w) && id in w.images && next !in w.images
    ensures OneImport(CreateImage(DeleteImage(w, id), next, Import(p, sha, organization))) <==> NoOtherImport(w, p, sha, id)
  {
    var rest := DeleteImage(w, id);
    assert OneImport(rest);
    CreateImageKeepsOneImport(rest, next, Import(p, sha, organization), sha);
    assert forall i | i in w.images && i != id :: i in rest.images && rest.images[i] == w.images[i];
    assert NoImport(rest, p, sha) <==> NoOtherImport(w, p, sha, id);
  }

  /** A configured image that is itself the import of this hash is always safe to rebuild. */
  lemma OwnImportIsAlone(w: World, p: Project, sha: Sha, id: Id)
    requires OneImport(w) && id in w.images && IsImport(w.images[id])
    requires w.images[id].owner == p && w.images[id].sha == Some(sha[..32])
    ensures NoOtherImport(w, p, sha, id)
  {
  }

  lemma ConfiguredWithdrawn(a: Snapshot, b: Snapshot, p: Project, sha: Sha, id: Id)
    requires Undisturbed(a, b) && NoOtherImport(a.w, p, sha, id)
    ensures NoImport(DeleteImage(b.w, id), p, sha)
  {
  }

  /** Withdrawing the only unfinished import of a project leaves none. */
  lemma StaleWithdrawn(w: World, p: Project, sha: Sha, id: Id)
    requires OneImport(w) && id in w.images && IsCandidate(w.images[id], p, sha)
    requires w.images[id].status.ImageCreating? && w.images[id].owner == p
    ensures NoImport(DeleteImage(w, id), p, sha)
  {
    LabelIsSome(w.images[id], sha);
  }

  lemma LabelIsSome(img: Image, sha: Sha)
    requires LabelsMatch(img, sha)
    ensures img.sha == Some(sha[..32]) && img.normalized == Some("agent-v2")
  {
    assert |sha[..32]| == 32 && |Sprint(None)| == 5 && |AGENT_V2| == 8;
  }

  lemma SearchedLog(l0: seq<Event>, l1: seq<Event>, p: Project, shown: map<Id, Image>, sha: Sha)
    requires l0 + [Listed(p, shown)] <= l1 && !ShowsAvailable(shown, sha)
    ensures ListedWithout(l1, |l0|, p, sha)
  {
    assert l1[|l0|] == Listed(p, shown);
  }

  lemma ListedLater(l0: seq<Event>, l1: seq<Event>, start: nat, mid: nat, p: Project, sha: Sha)
    requires start <= mid && l0 <= l1 && ListedWithout(l0, mid, p, sha)
    ensures ListedWithout(l1, start, p, sha)
  {
    var i :| mid <= i < |l0| && l0[i].Listed? && l0[i].project == p && !ShowsAvailable(l0[i].shown, sha);
    assert l1[i] == l0[i];
  }

  /** Where the first search looks: a configured image is read in the owner project, if there is one. */
  function Lookup(cfg: Config): Project {
    if cfg.imageId.Some? && cfg.ownerProject.Some? then Owner(cfg) else cfg.target
  }

  /** A configured image, if there is one, can be read and belongs to this OVA. */
  predicate ConfigurationFits(w: World, cfg: Config, sha: Sha) {
    cfg.imageId.Some? ==>
      Resolves(w, if cfg.ownerProject.Some? then cfg.ownerProject.value else cfg.target, cfg.imageId.value, sha)
  }

  /**
   * installer/stackit.go:256-265: the configured image, or the best image the target sees,
   * or else the best one the owner project sees.
   */
  method Search(c: Cloud, cfg: Config, sha: Sha) returns (ok: bool, found: Option<Id>)
    modifies c
    ensures !ok && ConfigurationFits(old(c.w), cfg, sha) ==> old(c.errors) < c.errors
    ensures ok ==> ConfigurationFits(old(c.w), cfg, sha) && c.errors == old(c.errors)
    ensures Undisturbed(old(c.Now()), c.Now())
    ensures ImagesEvolve(old(c.w), c.w)
    ensures ok && cfg.imageId.Some? ==> found == cfg.imageId && c.log == old(c.log)
    ensures ok && found.Some? ==> found.value in c.w.images
    ensures ok && cfg.imageId.None? && found.Some? && c.w.images[found.value].status.ImageCreating? ==>
              c.w.images[found.value].owner in {cfg.target, Owner(cfg)}
    ensures ok && cfg.imageId.None? && !NoImport(c.w, cfg.target, sha) ==>
              found.Some? && IsCandidate(c.w.images[found.value], cfg.target, sha)
    ensures ok && cfg.imageId.None? && !NoImport(c.w, cfg.target, sha) && c.w.images[found.value].status.ImageAvailable?
            && !ShowsAvailable(VisibleTo(old(c.w), cfg.target), sha) ==>
              FinishedByItself(old(c.w), c.w, found.value, cfg, sha)
    ensures ok && cfg.imageId.None? && (found.None? || c.w.images[found.value].owner == Owner(cfg)) ==>
              && (found.Some? ==> IsCandidate(c.w.images[found.value], Owner(cfg), sha))
              && (found.None? ==> NoImport(c.w, Owner(cfg), sha))
              && (found.None? || c.w.images[found.value].status.ImageCreating? ==>
                    && ListedWithout(c.log, |old(c.log)|, cfg.target, sha)
                    && ListedWithout(c.log, |old(c.log)|, Owner(cfg), sha))
    ensures ok && cfg.imageId.None? && found.Some? ==> LabelsMatch(c.w.images[found.value], sha)
    ensures ok && found.Some? ==> c.w.images[found.value].status in {ImageAvailable, ImageCreating}
    ensures forall i | |old(c.log)| <= i < |c.log| :: c.log[i].Listed?
    ensures ok && cfg.imageId.None? && ShowsAvailable(VisibleTo(old(c.w), cfg.target), sha) ==>
              && found.Some? && Eligible(old(c.w), found.value, cfg.target, sha)
              && c.w.images[found.value].status.ImageAvailable?
  {
    hide Undisturbed, ImagesEvolve, IsBest, VisibleTo, ShowsAvailable, ListedWithout, NoImport, Eligible, FinishedByItself;
    ok, found := ResolveImage(c, Lookup(cfg), cfg.imageId, sha);
    if !ok || cfg.imageId.Some? {
      return;
    }
    ghost var s1 := c.Now();
    BestIsCandidate(c.w, cfg.target, sha, found);
    if ShowsAvailable(VisibleTo(old(c.w), cfg.target), sha) {
      AvailableIsFound(old(c.w), c.w, cfg.target, sha, found);
      BestIsEligible(old(c.w), c.w, cfg.target, sha, found.value);
    }
    if found.None? || c.w.images[found.value].status.ImageCreating? {
      ListingWithout(c.w, cfg.target, sha, found);
      SearchedLog(old(c.log), c.log, cfg.target, VisibleTo(c.w, cfg.target), sha);
    }
    if found.None? {
      NoneFound(c.w, cfg.target, sha);
    }
    if found.Some? && c.w.images[found.value].status.ImageAvailable? {
      if !ShowsAvailable(VisibleTo(old(c.w), cfg.target), sha) {
        NewlyAvailable(old(c.w), c.w, found.value, cfg, sha);
      }
    }
    if found.None? && Owner(cfg) != cfg.target {
      ok, found := FindImage(c, Owner(cfg), sha);
      Grows(s1, c.Now());
      Trans(old(c.Now()), s1, c.Now());
      ImagesMove(old(c.w), s1.w, c.w);
      SelfAdvanced(s1, c.Now());
      StillNoImport(s1, c.Now(), cfg.target, sha);
      if ok {
        BestIsCandidate(c.w, Owner(cfg), sha, found);
        if found.None? {
          NoneFound(c.w, Owner(cfg), sha);
        }
        if found.None? || c.w.images[found.value].status.ImageCreating? {
          ListingWithout(c.w, Owner(cfg), sha, found);
          SearchedLog(s1.log, c.log, Owner(cfg), VisibleTo(c.w, Owner(cfg)), sha);
          ListedLater(s1.log, c.log, |old(c.log)|, |old(c.log)|, cfg.target, sha);
          ListedLater(c.log, c.log, |old(c.log)|, |s1.log|, Owner(cfg), sha);
        }
      }
    }
  }

  lemma BestIsCandidate(w: World, p: Project, sha: Sha, found: Option<Id>)
    requires IsBest(w, p, sha, found)
    ensures found.Some? ==> found.value in w.images && IsCandidate(w.images[found.value], p, sha)
    ensures (exists i | i in w.images :: IsCandidate(w.images[i], p, sha)) ==> found.Some?
  {
  }

  lemma AvailableIsFound(a: World, b: World, p: Project, sha: Sha, found: Option<Id>)
    requires ImagesEvolve(a, b) && IsBest(b, p, sha, found)
    requires ShowsAvailable(VisibleTo(a, p), sha)
    ensures found.Some? && b.images[found.value].status.ImageAvailable?
  {
    var shown := VisibleTo(a, p);
    var i :| i in shown && LabelsMatch(shown[i], sha) && shown[i].status.ImageAvailable?;
    assert b.images[i] == a.images[i] && IsCandidate(b.images[i], p, sha);
  }

  predicate OwnImport(w: World, i: Id, p: Project, sha: Sha) {
    i in w.images && IsImport(w.images[i]) && w.images[i].owner == p && w.images[i].sha == Some(sha[..32])
  }

  /** An unfinished import of the hash that is waited for and never withdrawn, because its owner is not the owner project. */
  predicate IsAwaited(w: World, i: Id, cfg: Config, sha: Sha) {
    && i in w.images && OwnImport(w, i, w.images[i].owner, sha) && w.images[i].owner != Owner(cfg)
    && (if cfg.imageId.None? then w.images[i].owner == cfg.target else cfg.imageId == Some(i))
  }

  /** Without a configured image, such an import exists exactly if the owner is not the target, which has an unfinished import. */
  lemma AwaitedWhen(w: World, cfg: Config, sha: Sha)
    requires cfg.imageId.None?
    ensures (exists i :: IsAwaited(w, i, cfg, sha)) <==> Owner(cfg) != cfg.target && !NoImport(w, cfg.target, sha)
  {
    if Owner(cfg) != cfg.target && !NoImport(w, cfg.target, sha) {
      var i :| i in w.images && w.images[i].owner == cfg.target && w.images[i].sha == Some(sha[..32]) && IsImport(w.images[i]);
      assert IsAwaited(w, i, cfg, sha);
    }
  }

  /** An unfinished import of the target would be waited for, but never withdrawn. */
  predicate Outwaits(cfg: Config) {
    cfg.imageId.None? && Owner(cfg) != cfg.target
  }

  /** An image the target sees was unfinished before and is AVAILABLE now. */
  predicate FinishedByItself(a: World, b: World, i: Id, cfg: Config, sha: Sha) {
    && i in a.images && a.images[i].status.ImageCreating?
    && i in b.images && b.images[i].status.ImageAvailable?
    && Visible(a.images[i], cfg.target) && LabelsMatch(a.images[i], sha)
  }

  lemma NewlyAvailable(a: World, b: World, i: Id, cfg: Config, sha: Sha)
    requires ImagesEvolve(a, b) && i in b.images && IsCandidate(b.images[i], cfg.target, sha)
    requires b.images[i].status.ImageAvailable? && !ShowsAvailable(VisibleTo(a, cfg.target), sha)
    ensures FinishedByItself(a, b, i, cfg, sha)
  {
    assert i in a.images && Visible(a.images[i], cfg.target) && LabelsMatch(a.images[i], sha);
    assert i in VisibleTo(a, cfg.target) && VisibleTo(a, cfg.target)[i] == a.images[i];
  }

  /** An unfinished image that the search finds was an import all along. */
  lemma CreatingBefore(a: World, b: World, i: Id, cfg: Config, sha: Sha)
    requires ImagesEvolve(a, b) && i in b.images && b.images[i].status.ImageCreating?
    ensures i in a.images && a.images[i].status.ImageCreating? && a.images[i] == b.images[i]
    ensures LabelsMatch(b.images[i], sha) ==> OwnImport(a, i, a.images[i].owner, sha)
  {
    if LabelsMatch(b.images[i], sha) {
      LabelIsSome(b.images[i], sha);
    }
  }

  lemma CandidateIsOwn(img: Image, p: Project, sha: Sha)
    requires img.status.ImageCreating?
    ensures IsCandidate(img, p, sha) ==> img.owner == p
  {
  }

  predicate IsFinished(w: World, i: Id) {
    i in w.images && w.images[i].status.ImageAvailable?
  }

  lemma ConfiguredStays(a: World, b: World, i: Id)
    requires ImagesEvolve(a, b)
    ensures i !in a.images ==> i !in b.images
    ensures IsFinished(a, i) ==> IsFinished(b, i)
    ensures i in b.images ==> i in a.images && b.images[i].owner == a.images[i].owner
  {
  }

  /**
   * installer/stackit.go:256-279: a reusable AVAILABLE image, found or awaited. A stale
   * import of the owner project is withdrawn.
   */
  method FindReusable(c: Cloud, cfg: Config, sha: Sha, stale: bool) returns (ok: bool, found: Option<Id>)
    modifies c
    ensures cfg.imageId.None? && stale ==>
              forall j | |old(c.log)| <= j < |c.log| && c.log[j].Waiting? ::
                IsAwaited(old(c.w), c.log[j].image, cfg, sha)
    ensures Outwaits(cfg) && !ShowsAvailable(VisibleTo(old(c.w), cfg.target), sha) && !NoImport(c.w, cfg.target, sha) ==>
              && ImagesEvolve(old(c.w), c.w) && UnchangedLog(c.log, |old(c.log)|)
              && (ok ==> found.Some? && FinishedByItself(old(c.w), c.w, found.value, cfg, sha))
    ensures !ok && ConfigurationFits(old(c.w), cfg, sha) ==> old(c.errors) < c.errors
    ensures ok ==> ConfigurationFits(old(c.w), cfg, sha) && c.errors == old(c.errors)
    ensures c.w.images.Keys <= old(c.w).images.Keys
    ensures !stale ==> UnchangedLog(c.log, |old(c.log)|)
    ensures stale ==> forall j | |old(c.log)| <= j < |c.log| && c.log[j].Waiting? ::
              c.log[j].image in old(c.w).images && old(c.w).images[c.log[j].image].owner != Owner(cfg)
    ensures Undisturbed(old(c.Now()), c.Now())
    ensures ok && found.Some? ==> found.value in c.w.images && c.w.images[found.value].status.ImageAvailable?
    ensures ok && found.Some? && cfg.imageId.None? ==> LabelsMatch(c.w.images[found.value], sha)
    ensures ok && found.None? && ImportIsSafe(old(c.w), cfg, sha) && OneImportAlways(old(c.Now())) ==>
              NoImport(c.w, Owner(cfg), sha)
    ensures ok && found.None? && cfg.imageId.None? ==>
              && ListedWithout(c.log, |old(c.log)|, cfg.target, sha)
              && ListedWithout(c.log, |old(c.log)|, Owner(cfg), sha)
    ensures cfg.imageId.None? && ShowsAvailable(VisibleTo(old(c.w), cfg.target), sha) ==>
              && ImagesEvolve(old(c.w), c.w) && UnchangedLog(c.log, |old(c.log)|)
              && (ok ==> found.Some? && Eligible(old(c.w), found.value, cfg.target, sha))
    ensures ok && found.Some? ==> ImagesEvolve(old(c.w), c.w)
    ensures ok && cfg.imageId.Some? ==> if found.Some? then found == cfg.imageId else cfg.imageId.value !in c.w.images
    ensures cfg.imageId.Some? && (cfg.imageId.value !in old(c.w).images || IsFinished(old(c.w), cfg.imageId.value)
              || old(c.w).images[cfg.imageId.value].owner != Owner(cfg)) ==>
              UnchangedLog(c.log, |old(c.log)|) && (ok ==> found.Some?)
  {
    hide Undisturbed, ImagesEvolve, VisibleTo, ShowsAvailable, ListedWithout, NoImport, IsCandidate, Eligible, NoOtherImport,
         ConfigurationFits, Evolved, OwnImport, FinishedByItself, LabelsMatch, OneImportAlways;
    ok, found := Search(c, cfg, sha);
    SameIds(old(c.w), c.w);
    if cfg.imageId.Some? {
      ConfiguredStays(old(c.w), c.w, cfg.imageId.value);
    }
    Grows(old(c.Now()), c.Now());
    if ok && found.Some? && c.w.images[found.value].status.ImageCreating? {
      var image := found.value;
      ghost var s1 := c.Now();
      CandidateIsOwn(c.w.images[image], cfg.target, sha);
      ok, found := ReuseUnfinished(c, cfg, sha, image, stale, old(c.Now()));
      SelfAdvanced(s1, c.Now());
      StillNoImport(s1, c.Now(), cfg.target, sha);
      if Outwaits(cfg) && !NoImport(c.w, cfg.target, sha) && ok {
        FinishedNow(old(c.w), s1.w, c.w, image, cfg, sha);
      }
    }
  }

  /** installer/stackit.go:266-279: the image found is unfinished; it is withdrawn or awaited. */
  method ReuseUnfinished(c: Cloud, cfg: Config, sha: Sha, image: Id, stale: bool, ghost s0: Snapshot)
    returns (ok: bool, found: Option<Id>)
    requires Undisturbed(s0, c.Now()) && ImagesEvolve(s0.w, c.w) && c.errors == s0.errors
    requires s0.log <= c.log && forall j | |s0.log| <= j < |c.log| :: c.log[j].Listed?
    requires image in c.w.images && c.w.images[image].status.ImageCreating?
    requires cfg.imageId.Some? ==> cfg.imageId == Some(image)
    requires cfg.imageId.None? ==>
               LabelsMatch(c.w.images[image], sha) && c.w.images[image].owner in {cfg.target, Owner(cfg)}
    requires cfg.imageId.None? && c.w.images[image].owner == Owner(cfg) ==>
               && IsCandidate(c.w.images[image], Owner(cfg), sha)
               && ListedWithout(c.log, |s0.log|, cfg.target, sha) && ListedWithout(c.log, |s0.log|, Owner(cfg), sha)
    modifies c
    ensures Undisturbed(s0, c.Now()) && c.w.images.Keys <= s0.w.images.Keys
    ensures Undisturbed(old(c.Now()), c.Now())
    ensures ok <==> c.errors == s0.errors
    ensures !ok ==> s0.errors < c.errors
    ensures ok && found.Some? ==> found == Some(image) && ImagesEvolve(s0.w, c.w)
    ensures ok && found.Some? ==> image in c.w.images && c.w.images[image].status.ImageAvailable?
    ensures ok && found.Some? && cfg.imageId.None? ==> LabelsMatch(c.w.images[image], sha)
    ensures ok && found.None? ==> image !in c.w.images
    ensures ok ==> (found.None? <==> stale && old(c.w).images[image].owner == Owner(cfg))
    ensures !stale ==> UnchangedLog(c.log, |s0.log|)
    ensures ok && found.None? && ImportIsSafe(s0.w, cfg, sha) && OneImportAlways(s0) ==> NoImport(c.w, Owner(cfg), sha)
    ensures ok && found.None? && cfg.imageId.None? ==>
              ListedWithout(c.log, |s0.log|, cfg.target, sha) && ListedWithout(c.log, |s0.log|, Owner(cfg), sha)
    ensures stale ==> forall j | |s0.log| <= j < |c.log| && c.log[j].Waiting? ::
              c.log[j].image in s0.w.images && s0.w.images[c.log[j].image].owner != Owner(cfg)
    ensures cfg.imageId.None? && stale ==>
              forall j | |s0.log| <= j < |c.log| && c.log[j].Waiting? ::
                IsAwaited(s0.w, c.log[j].image, cfg, sha)
    ensures old(c.w).images[image].owner != Owner(cfg) ==>
              ImagesEvolve(s0.w, c.w) && UnchangedLog(c.log, |s0.log|) && (ok ==> found.Some?)
  {
    hide Undisturbed, ImagesEvolve, ListedWithout, NoImport, IsCandidate, LabelsMatch, OwnImport, OneImportAlways,
         ImportIsSafe, DeleteImage, IsImport, OldImports, Grown, Waited, Visible;
    ghost var s1 := c.Now();
    CreatingBefore(s0.w, c.w, image, cfg, sha);
    if stale && c.w.images[image].owner == Owner(cfg) {
      if ImportIsSafe(s0.w, cfg, sha) && OneImportAlways(s0) {
        WithdrawalLeavesNone(s0, s1, cfg, sha, image);
      }
      ok := WithdrawImport(c, image, Owner(cfg), sha);
      found := None;
      if cfg.imageId.None? {
        ListedLater(s1.log, c.log, |s0.log|, |s0.log|, cfg.target, sha);
        ListedLater(s1.log, c.log, |s0.log|, |s0.log|, Owner(cfg), sha);
      }
    } else {
      ok := AwaitImport(c, image);
      found := Some(image);
      ImagesMove(s0.w, s1.w, c.w);
      if ok && cfg.imageId.None? {
        LabelsStill(s1.w, c.w, image, sha);
      }
    }
    Trans(s0, s1, c.Now());
    Grows(s1, c.Now());
    NoNewImage(s0, c.Now());
  }

  lemma WithdrawalLeavesNone(a: Snapshot, b: Snapshot, cfg: Config, sha: Sha, image: Id)
    requires Undisturbed(a, b) && ImportIsSafe(a.w, cfg, sha) && OneImportAlways(a)
    requires image in b.w.images && b.w.images[image].status.ImageCreating? && b.w.images[image].owner == Owner(cfg)
    requires if cfg.imageId.None? then IsCandidate(b.w.images[image], Owner(cfg), sha) else cfg.imageId == Some(image)
    ensures NoImport(DeleteImage(b.w, image), Owner(cfg), sha)
  {
    hide Undisturbed, OneImportAlways, IsCandidate, NoImport, NoOtherImport;
    if cfg.imageId.None? {
      ImportsStillOne(a, b);
      StaleWithdrawn(b.w, Owner(cfg), sha, image);
    } else {
      ConfiguredWithdrawn(a, b, Owner(cfg), sha, image);
    }
  }

  lemma FinishedNow(a: World, b: World, c: World, i: Id, cfg: Config, sha: Sha)
    requires ImagesEvolve(a, b) && i in b.images && IsCandidate(b.images[i], cfg.target, sha) && b.images[i].status.ImageCreating?
    requires i in c.images && c.images[i].status.ImageAvailable?
    ensures FinishedByItself(a, c, i, cfg, sha)
  {
    assert ImageEvolves(a.images[i], b.images[i]);
  }

  /** Deletes a stale import, which may have finished meanwhile. */
  method WithdrawImport(c: Cloud, image: Id, p: Project, sha: Sha) returns (ok: bool)
    modifies c
    ensures Undisturbed(old(c.Now()), c.Now())
    ensures ok <==> c.errors == old(c.errors)
    ensures ok ==> image !in c.w.images
    ensures ok && NoImport(DeleteImage(old(c.w), image), p, sha) ==> NoImport(c.w, p, sha)
    ensures c.log == old(c.log) + [OtherChange]
  {
    hide Undisturbed, Evolved, NoImport;
    c.Drift();
    ghost var moved := c.Now();
    if NoImport(DeleteImage(old(c.w), image), p, sha) {
      StillWithdrawn(old(c.Now()), moved, p, sha, image);
    }
    ImageRemoved(c.w, image);
    ok := c.Change(DeleteImage(c.w, image));
    Trans(old(c.Now()), moved, c.Now());
  }

  /** Waits for an import of an earlier run. */
  method AwaitImport(c: Cloud, image: Id) returns (ok: bool)
    modifies c
    ensures Undisturbed(old(c.Now()), c.Now())
    ensures ok <==> c.errors == old(c.errors)
    ensures ok ==> image in c.w.images && c.w.images[image].status.ImageAvailable?
    ensures ImagesEvolve(old(c.w), c.w)
    ensures c.log == old(c.log) + [Waiting(image)] + (if ok then [SeenAvailable(image)] else [])
  {
    hide Undisturbed, ImagesEvolve;
    ghost var s1 := c.Now();
    c.Note(Waiting(image));
    ghost var s2 := c.Now();
    ok := WaitImage(c, image);
    Trans(s1, s2, c.Now());
  }

  lemma StillWithdrawn(a: Snapshot, b: Snapshot, p: Project, sha: Sha, id: Id)
    requires Undisturbed(a, b) && NoImport(DeleteImage(a.w, id), p, sha)
    ensures NoImport(DeleteImage(b.w, id), p, sha)
  {
    assert forall i | i in b.w.images && IsImport(b.w.images[i]) && i != id :: i in DeleteImage(a.w, id).images;
  }

  /** From `start` on nothing was created, changed or deleted. */
  ghost predicate UnchangedLog(log: seq<Event>, start: nat) {
    forall i | start <= i < |log| :: !Changes(log[i])
  }

  lemma ImportsStillOne(a: Snapshot, b: Snapshot)
    requires Undisturbed(a, b) && OneImportAlways(a)
    ensures OneImport(b.w)
  {
  }

  lemma LabelsStill(a: World, b: World, id: Id, sha: Sha)
    requires ImagesEvolve(a, b) && id in a.images && LabelsMatch(a.images[id], sha)
    ensures id in b.images && LabelsMatch(b.images[id], sha)
  {
  }

  // ---------- Sharing ----------

  /** The projects an image must be shared with: the configured ones, and the target if it is not the owner. */
  function ShareWith(cfg: Config): set<Project> {
    (set p | p in cfg.shareProjects && p != "")
    + (if Owner(cfg) != cfg.target && !cfg.shareOrganization && cfg.target != "" then {cfg.target} else {})
  }

  predicate ShareCovers(img: Image, cfg: Config) {
    if cfg.shareOrganization then img.sharedOrg else ShareWith(cfg) <= img.sharedWith
  }

  lemma Shared(w: World, id: Id, projects: set<Project>, organization: bool)
    ensures Mild(w, ShareImage(w, id, projects, organization)) && Labelled(w, ShareImage(w, id, projects, organization))
  {
    LabelsShared(w, id, projects, organization);
    hide Labelled;
  }

  lemma LabelsShared(w: World, id: Id, projects: set<Project>, organization: bool)
    ensures Labelled(w, ShareImage(w, id, projects, organization))
  {
    LabelledSelf(w);
    hide ImageLabelled, VolumesLabelled, ServersLabelled, IpsLabelled, KeypairsLabelled, GroupsLabelled;
  }

  /** Adds what the current share misses; it never takes a consumer away. */
  method EnsureImageShare(c: Cloud, image: Id, cfg: Config) returns (ok: bool)
    requires image in c.w.images
    modifies c
    ensures Undisturbed(old(c.Now()), c.Now())
    ensures AccessEvolves(old(c.w), c.w)
    ensures ok ==> image in c.w.images && ShareCovers(c.w.images[image], cfg)
    ensures ok ==>
              if cfg.shareOrganization then c.w.images[image].sharedOrg
              else
                && (forall p | p in cfg.shareProjects && p != "" :: p in c.w.images[image].sharedWith)
                && (Owner(cfg) != cfg.target && cfg.target != "" ==> cfg.target in c.w.images[image].sharedWith)
    ensures ok <==> c.errors == old(c.errors)
    ensures SameButShare(old(c.w), c.w, image)
    ensures ShareCovers(old(c.w).images[image], cfg) ==> c.log == old(c.log)
    ensures ok && !ShareCovers(old(c.w).images[image], cfg) ==> c.log == old(c.log) + [OtherChange]
  {
    AccessEvolved(c.w, c.w) by {
      EvolvedSelf(c.w);
    }
    hide Undisturbed, Evolved, Mild, Labelled, AccessEvolves;
    SameStart(c.w, image);
    if !cfg.shareOrganization && ShareWith(cfg) == {} {
      Unchanged(c.Now());
      return true;
    }
    ok := c.Read();
    ghost var s1 := c.Now();
    SameEvolved(old(c.w), c.w, image);
    AccessEvolved(old(c.w), c.w);
    if !ok || ShareCovers(c.w.images[image], cfg) {
      return;
    }
    var missing := if cfg.shareOrganization then {} else ShareWith(cfg) - c.w.images[image].sharedWith;
    c.Drift();
    ghost var s2 := c.Now();
    Trans(old(c.Now()), s1, s2);
    AccessEvolved(s1.w, s2.w);
    AccessEvolvesTrans(old(c.w), s1.w, s2.w);
    SameEvolved(s1.w, s2.w, image);
    SameTrans(old(c.w), s1.w, s2.w, image);
    Shared(c.w, image, missing, cfg.shareOrganization);
    SharedMore(old(c.w), c.w, image, missing, cfg.shareOrganization);
    ok := c.Change(ShareImage(c.w, image, missing, cfg.shareOrganization));
    Trans(old(c.Now()), s2, c.Now());
    SameAccess(old(c.w), s2.w, c.w);
  }

  lemma SameAccess(a: World, b: World, c: World)
    requires AccessEvolves(a, b) && c.keypairs == b.keypairs && c.groups == b.groups && c.ips == b.ips
    ensures AccessEvolves(a, c)
  {
  }

  /** The image is as before, except that its status may have settled and its share may have grown. */
  ghost predicate SameButShare(a: World, b: World, id: Id) {
    && id in a.images && id in b.images
    && b.images[id] == a.images[id].(
         status := b.images[id].status, sharedWith := b.images[id].sharedWith, sharedOrg := b.images[id].sharedOrg)
    && (!a.images[id].status.ImageCreating? ==> b.images[id].status == a.images[id].status)
    && a.images[id].sharedWith <= b.images[id].sharedWith
    && (a.images[id].sharedOrg ==> b.images[id].sharedOrg)
  }

  lemma SameStart(w: World, id: Id)
    requires id in w.images
    ensures SameButShare(w, w, id)
  {
  }

  lemma SameEvolved(a: World, b: World, id: Id)
    requires Evolved(a, b) && id in a.images
    ensures SameButShare(a, b, id)
    ensures b.images[id].sharedWith == a.images[id].sharedWith && b.images[id].sharedOrg == a.images[id].sharedOrg
  {
  }

  lemma SameTrans(a: World, b: World, c: World, id: Id)
    requires SameButShare(a, b, id) && SameButShare(b, c, id)
    ensures SameButShare(a, c, id)
  {
  }

  lemma SharedMore(a: World, b: World, id: Id, projects: set<Project>, organization: bool)
    requires SameButShare(a, b, id)
    ensures SameButShare(a, ShareImage(b, id, projects, organization), id)
  {
  }

  /** One poll; a failing answer means "not visible yet". */
  method LookForImage(c: Cloud, image: Id, p: Project, ghost s0: Snapshot, ghost n: nat) returns (seen: bool)
    requires image in s0.w.images && Looking(s0, c.Now(), n, image, p)
    modifies c
    ensures Undisturbed(s0, c.Now()) && OnlyEvolved(s0.w, c.w, image)
    ensures c.polls == s0.polls && c.log == s0.log && c.errors == s0.errors
    ensures if seen then SeenFrom(c.w, image, p) else Looking(s0, c.Now(), n + 1, image, p)
  {
    hide Undisturbed, Evolved, OnlyEvolved, NotSeen, SeenFrom, Grown;
    ghost var before := c.Now();
    seen := c.Read(AwaitVisible(image, p));
    ghost var answered := c.Now();
    Trans(s0, before, answered);
    Grows(before, answered);
    GrownParts(before, answered);
    OnlyEvolvedStep(s0.w, before.w, c.w, image);
    if seen && SeenFrom(c.w, image, p) {
      return;
    }
    NotSeenYet(s0.answers, before.answers, n, image, p, if seen then Some(c.w) else None);
    seen := false;
    c.Tolerate(s0.errors);
    Tolerated(s0, answered, c.Now());
  }

  /** Polls until the target project sees the image as AVAILABLE. */
  method WaitImageVisible(c: Cloud, image: Id, p: Project) returns (ok: bool)
    requires image in c.w.images
    modifies c
    ensures Undisturbed(old(c.Now()), c.Now()) && OnlyEvolved(old(c.w), c.w, image)
    ensures ok ==> image in c.w.images && c.w.images[image].status.ImageAvailable? && Visible(c.w.images[image], p)
    ensures ok <==> c.errors == old(c.errors)
    ensures c.log == old(c.log)
    ensures !ok ==>
              && |c.answers| == |old(c.answers)| + c.polls
              && forall k | |old(c.answers)| <= k < |c.answers| && c.answers[k].shown.Some? ::
                   !SeenFrom(c.answers[k].shown.value, image, p)
  {
    ghost var s0 := c.Now();
    LookingStarts(s0, image, p);
    hide Undisturbed, OnlyEvolved, Looking, Justified;
    for n := 0 to c.polls
      invariant Looking(s0, c.Now(), n, image, p) && c.polls == s0.polls
    {
      ok := LookForImage(c, image, p, s0, n);
      if ok {
        return;
      }
    }
    ghost var last := c.Now();
    ghost var cause := Expired(AwaitVisible(image, p), |s0.answers|);
    NeverSeen(s0, last, image, p);
    c.Fail(cause);
    GaveUp(s0, last, c.Now(), cause);
    return false;
  }

  /** The first n polls of a wait that began in a were not answered, or did not show the image. */
  ghost predicate Looking(a: Snapshot, b: Snapshot, n: nat, image: Id, p: Project) {
    && Undisturbed(a, b) && b.polls == a.polls && b.log == a.log && b.errors == a.errors
    && (a.w == b.w || OnlyEvolved(a.w, b.w, image)) && NotSeen(a.answers, b.answers, n, image, p)
  }

  lemma LookingStarts(s: Snapshot, image: Id, p: Project)
    ensures Looking(s, s, 0, image, p)
  {
    Unchanged(s);
    hide Undisturbed;
  }

  /** The image and all access as before, except for what happens by itself. */
  ghost predicate OnlyEvolved(a: World, b: World, id: Id) {
    && AccessEvolves(a, b) && SameButShare(a, b, id)
    && b.images[id].sharedWith == a.images[id].sharedWith && b.images[id].sharedOrg == a.images[id].sharedOrg
  }

  lemma OnlyEvolvedStep(a: World, b: World, c: World, id: Id)
    requires id in a.images && (a == b || OnlyEvolved(a, b, id)) && Evolved(b, c)
    ensures OnlyEvolved(a, c, id)
  {
    AccessEvolved(b, c);
    SameEvolved(b, c, id);
    if a != b {
      AccessEvolvesTrans(a, b, c);
    }
    hide AccessEvolves, Evolved;
  }

  lemma OnlyEvolvedMeans(a: World, b: World, id: Id)
    requires OnlyEvolved(a, b, id)
    ensures AccessEvolves(a, b) && SameButShare(a, b, id)
    ensures b.images[id].sharedWith == a.images[id].sharedWith && b.images[id].sharedOrg == a.images[id].sharedOrg
  {
  }

  predicate SeenFrom(w: World, image: Id, p: Project) {
    image in w.images && w.images[image].status.ImageAvailable? && Visible(w.images[image], p)
  }

  /** The first n polls were not answered, or did not show the image. */
  ghost predicate NotSeen(before: seq<Answer>, after: seq<Answer>, n: nat, image: Id, p: Project) {
    && before <= after && |after| == |before| + n
    && forall k | |before| <= k < |after| ::
         after[k].what == AwaitVisible(image, p) && (after[k].shown.Some? ==> !SeenFrom(after[k].shown.value, image, p))
  }

  lemma NotSeenYet(before: seq<Answer>, after: seq<Answer>, n: nat, image: Id, p: Project, shown: Option<World>)
    requires NotSeen(before, after, n, image, p) && (shown.Some? ==> !SeenFrom(shown.value, image, p))
    ensures NotSeen(before, after + [Answer(AwaitVisible(image, p), shown)], n + 1, image, p)
  {
  }

  lemma NeverSeen(a: Snapshot, b: Snapshot, image: Id, p: Project)
    requires image in a.w.images && Looking(a, b, b.polls, image, p)
    ensures Undisturbed(a, b) && OnlyEvolved(a.w, b.w, image) && b.log == a.log && b.errors == a.errors
    ensures Justified(b.answers, |a.answers|, b.polls, Expired(AwaitVisible(image, p), |a.answers|))
    ensures |b.answers| == |a.answers| + b.polls
    ensures forall k | |a.answers| <= k < |b.answers| && b.answers[k].shown.Some? ::
              !SeenFrom(b.answers[k].shown.value, image, p)
  {
    hide Undisturbed;
    EvolvedSelf(a.w);
    OnlyEvolvedStep(a.w, a.w, a.w, image);
    hide OnlyEvolved;
  }

  // ---------- The whole step ----------

  /** What one run promises about the cloud, in every state it passes through, and about its own trace. */
  ghost predicate ImageRun(a: Snapshot, b: Snapshot, cfg: Config, sha: Sha) {
    && Grown(a.(polls := b.polls), b) && OldImports(a, b)
    && (OneHelperAlways(a) ==> OneHelperAlways(b))
    && (ImportIsSafe(a.w, cfg, sha) && OneImportAlways(a) ==> OneImportAlways(b))
    && (cfg.imageId.None? ==> StartJustified(b.log, |a.log|, cfg, sha))
    && EvidenceKept(b.log, |a.log|) && UploadsPrepared(b.log, |a.log|) && OneRequest(b.log, |a.log|)
    && (forall v | v in a.w.volumes && v !in b.w.volumes :: WasExported(b.log, |a.log|, v))
  }

  /** A run of normalization between two quiet stretches keeps its trace properties. */
  lemma TraceInContext(a: Snapshot, b: Snapshot, c: Snapshot, d: Snapshot, p: Project, sha: Sha)
    requires Begun(a, b) && RunStep(b, c, p, sha) && Undisturbed(c, d)
    ensures EvidenceKept(d.log, |a.log|) && UploadsPrepared(d.log, |a.log|) && OneRequest(d.log, |a.log|)
  {
    hide NoNewImport, NoNewHelper, OneImportAlways, OneHelperAlways, VolumesKept;
    forall j | |a.log| <= j < |d.log| && d.log[j].Uploaded?
      ensures SourceReady(d.log[..j], |a.log|, d.log[j].source)
    {
      assert d.log[..j] == c.log[..j];
      assert SourceReady(c.log[..j], |b.log|, c.log[j].source);
    }
  }

  /** What was exported in a part of the log was exported in the whole. */
  lemma ExportedInContext(l1: seq<Event>, l2: seq<Event>, start: nat, mid: nat, v: Id)
    requires start <= mid && l1 <= l2 && WasExported(l1, mid, v)
    ensures WasExported(l2, start, v)
  {
    var k, i :| mid <= k < i < |l1| && l1[k].Uploaded? && l1[i] == SeenAvailable(l1[k].image)
                && v in {l1[k].source, l1[k].scratch};
    assert l2[k] == l1[k] && l2[i] == l1[i];
  }

  lemma VolumesInContext(a: Snapshot, b: Snapshot, c: Snapshot, d: Snapshot, p: Project, sha: Sha)
    requires Begun(a, b) && RunStep(b, c, p, sha) && Undisturbed(c, d)
    ensures forall v | v in a.w.volumes && v !in d.w.volumes :: WasExported(d.log, |a.log|, v)
  {
    hide EvidenceKept, UploadsPrepared, OneRequest, NoStart, OneImportAlways, OneHelperAlways, WasExported;
    forall v | v in a.w.volumes && v !in d.w.volumes
      ensures WasExported(d.log, |a.log|, v)
    {
      if v in c.w.volumes {
        StillThere(c, d, v);
      }
      assert v in b.w.volumes;
      ExportedInContext(c.log, d.log, |a.log|, |b.log|, v);
    }
  }

  lemma InvariantsInContext(a: Snapshot, b: Snapshot, c: Snapshot, d: Snapshot, p: Project, sha: Sha)
    requires Begun(a, b) && RunStep(b, c, p, sha) && Undisturbed(c, d)
    ensures Grown(a, d) && OldImports(a, d)
    ensures OneHelperAlways(a) ==> OneHelperAlways(d)
    ensures OneImportAlways(a) && NoImport(b.w, p, sha) ==> OneImportAlways(d)
  {
    BegunGrows(a, b);
    RunGrows(b, c, p, sha);
    Grows(c, d);
    GrownTrans(a, b, c);
    GrownTrans(a, c, d);
    OldImportsTrans(a, b, c);
    OldImportsTrans(a, c, d);
    hide NoImport, OneImportAlways, OneHelperAlways, NoNewHelper, NoNewImport, VolumesKept, Quiet, OldImports, Grown,
         EvidenceKept, UploadsPrepared, OneRequest, WasExported;
  }

  lemma BegunGrows(a: Snapshot, b: Snapshot)
    requires Begun(a, b)
    ensures Grown(a, b) && a.warnings <= b.warnings && Seen(a) <= Seen(b) && OldImports(a, b)
  {
  }

  lemma RunInContext(a: Snapshot, b: Snapshot, c: Snapshot, d: Snapshot, cfg: Config, sha: Sha)
    requires Begun(a, b) && RunStep(b, c, Owner(cfg), sha) && Undisturbed(c, d)
    requires cfg.imageId.None? ==> StartJustified(d.log, |a.log|, cfg, sha)
    requires ImportIsSafe(a.w, cfg, sha) && OneImportAlways(a) ==> NoImport(b.w, Owner(cfg), sha)
    ensures ImageRun(a, d, cfg, sha) && Grown(a, d)
  {
    TraceInContext(a, b, c, d, Owner(cfg), sha);
    InvariantsInContext(a, b, c, d, Owner(cfg), sha);
    VolumesInContext(a, b, c, d, Owner(cfg), sha);
    hide EvidenceKept, UploadsPrepared, OneRequest, WasExported, NoImport, OneImportAlways, OneHelperAlways,
         Undisturbed, RunStep, StartJustified, OldImports;
    hide Explained, Labelled;
    assert a.(polls := d.polls) == a;
  }

  lemma QuietImageRun(a: Snapshot, b: Snapshot, cfg: Config, sha: Sha)
    requires Undisturbed(a, b)
    ensures ImageRun(a, b, cfg, sha)
  {
    Grows(a, b);
    assert a.(polls := b.polls) == a;
    hide Explained, Labelled;
  }

  /** The image an installation can use. */
  ghost predicate Ready(w: World, id: Id, cfg: Config) {
    && id in w.images && w.images[id].status.ImageAvailable?
    && Visible(w.images[id], cfg.target)
    && AgentReady(w.images[id], cfg)
    && ShareCovers(w.images[id], cfg)
  }

  /** No other image of this hash is or may become visible to the target as AVAILABLE. */
  ghost predicate Sole(w: World, id: Id, cfg: Config, sha: Sha) {
    forall i | i in w.images && Visible(w.images[i], cfg.target) && LabelsMatch(w.images[i], sha)
      && w.images[i].status in {ImageAvailable, ImageCreating} :: i == id
  }

  /** The target sees an AVAILABLE image, and whatever the search may pick is prepared. */
  ghost predicate NothingToUpdate(w: World, cfg: Config, sha: Sha) {
    && ShowsAvailable(VisibleTo(w, cfg.target), sha)
    && forall i | Eligible(w, i, cfg.target, sha) :: IsPrepared(w.images[i], cfg)
  }

  /**
   * While an AVAILABLE image is visible: every image that a search may pick is prepared,
   * however unfinished imports come out, exactly if every eligible image is.
   */
  lemma PickedIsPrepared(w: World, cfg: Config, sha: Sha)
    requires ShowsAvailable(VisibleTo(w, cfg.target), sha)
    ensures (forall b, f | ImagesEvolve(w, b) && IsBest(b, cfg.target, sha, Some(f)) :: IsPrepared(b.images[f], cfg))
            <==> NothingToUpdate(w, cfg, sha)
  {
    hide IsCandidate, LabelsMatch, NoOwnAvailable, ShowsAvailable, VisibleTo, IsPrepared;
    if NothingToUpdate(w, cfg, sha) {
      forall b, f | ImagesEvolve(w, b) && IsBest(b, cfg.target, sha, Some(f)) ensures IsPrepared(b.images[f], cfg) {
        BestIsEligible(w, b, cfg.target, sha, f);
        StillPrepared(w, b, f, cfg);
      }
    } else {
      var i :| Eligible(w, i, cfg.target, sha) && !IsPrepared(w.images[i], cfg);
      EligibleIsBest(w, i, cfg.target, sha);
      StillPrepared(w, Finish(w, i), i, cfg);
    }
  }

  lemma StillPrepared(a: World, b: World, i: Id, cfg: Config)
    requires ImagesEvolve(a, b) && i in a.images
    ensures IsPrepared(a.images[i], cfg) <==> IsPrepared(b.images[i], cfg)
  {
  }

  /**
   * A second run may have something to update: it may prefer an image that is not shared
   * to the one that a first run has made ready.
   */
  lemma RivalIsShared(sha: Sha, p: Project, consumer: Project)
    requires p != "" && consumer != ""
    ensures exists w, cfg, ready, rival ::
      && Ready(w, ready, cfg) && LabelsMatch(w.images[ready], sha)
      && IsBest(w, cfg.target, sha, Some(rival)) && !IsPrepared(w.images[rival], cfg)
      && !NothingToUpdate(w, cfg, sha)
  {
    var cfg := Config(p, None, None, [consumer], false, true, "");
    var unshared := Import(p, sha, {}).(status := ImageAvailable);
    var w := World(map[0 := unshared.(sharedWith := {consumer}), 1 := unshared], map[], map[], map[], map[], map[]);
    assert consumer in ShareWith(cfg) && ShareWith(cfg) <= {consumer};
    assert Ready(w, 0, cfg) && LabelsMatch(w.images[0], sha);
    assert IsBest(w, p, sha, Some(1)) && !IsPrepared(w.images[1], cfg);
    assert Eligible(w, 1, p, sha);
  }

  lemma ReadyShows(w: World, id: Id, cfg: Config, sha: Sha)
    requires Ready(w, id, cfg) && LabelsMatch(w.images[id], sha)
    ensures ShowsAvailable(VisibleTo(w, cfg.target), sha)
  {
    assert id in VisibleTo(w, cfg.target);
  }

  lemma SameLabels(a: Image, b: Image, sha: Sha)
    requires b.sha == a.sha && b.normalized == a.normalized && LabelsMatch(a, sha)
    ensures LabelsMatch(b, sha)
  {
  }

  lemma ExportedLabels(w: World, id: Id, p: Project, sha: Sha)
    requires IsExported(w, id, p, sha)
    ensures id in w.images && w.images[id].status.ImageAvailable? && LabelsMatch(w.images[id], sha)
  {
  }

  lemma RunGrows(a: Snapshot, b: Snapshot, p: Project, sha: Sha)
    requires RunStep(a, b, p, sha)
    ensures Grown(a, b) && a.log <= b.log && a.errors <= b.errors && a.warnings <= b.warnings && NoStart(b.log, |a.log|)
    ensures Seen(a) <= Seen(b) && OldImports(a, b)
  {
  }

  /** The one start of a run follows both listings. */
  lemma StartIsJustified(l0: seq<Event>, l1: seq<Event>, l2: seq<Event>, l3: seq<Event>, cfg: Config, sha: Sha)
    requires l0 <= l1 && NoStart(l1, |l0|)
    requires ListedWithout(l1, |l0|, cfg.target, sha) && ListedWithout(l1, |l0|, Owner(cfg), sha)
    requires l1 + [NormalizationStarted(Owner(cfg))] <= l2 <= l3 && NoStart(l2, |l1| + 1) && NoStart(l3, |l2|)
    ensures StartJustified(l3, |l0|, cfg, sha)
  {
    forall j | |l0| <= j < |l3| && l3[j].NormalizationStarted?
      ensures j == |l1|
    {
      if j < |l2| {
        assert l3[j] == l2[j];
      }
    }
    assert l3[|l1|] == l2[|l1|] == NormalizationStarted(Owner(cfg));
    assert l3[..|l1|] == l1;
  }

  lemma AgentSet(w: World, id: Id)
    ensures Mild(w, SetAgent(w, id)) && Labelled(w, SetAgent(w, id))
  {
    LabelledSelf(w);
    hide ImageLabelled, VolumesLabelled, ServersLabelled, IpsLabelled, KeypairsLabelled, GroupsLabelled;
  }

  /** With the agent enabled, an image has to be normalized for it. */
  predicate HasAgentLabel(img: Image, cfg: Config) {
    cfg.agentEnabled ==> Sprint(img.normalized) == AGENT_V2
  }

  /** installer/stackit.go:298-315: the agent label is required, and an own image is marked agent compatible. */
  method EnsureAgent(c: Cloud, cfg: Config, image: Id) returns (ok: bool)
    requires image in c.w.images && c.w.images[image].status.ImageAvailable?
    modifies c
    ensures Undisturbed(old(c.Now()), c.Now())
    ensures AccessEvolves(old(c.w), c.w)
    ensures image in c.w.images
    ensures ok <==> c.errors == old(c.errors) && HasAgentLabel(old(c.w).images[image], cfg)
    ensures c.w.images[image] == old(c.w).images[image].(agent := c.w.images[image].agent)
    ensures ok ==> AgentReady(c.w.images[image], cfg)
    ensures ok && cfg.agentEnabled ==>
              c.w.images[image].normalized == Some("agent-v2") && (c.w.images[image].owner == Owner(cfg) ==> c.w.images[image].agent)
    ensures AgentReady(old(c.w).images[image], cfg) ==> ok && c.Now() == old(c.Now())
    ensures ok && !AgentReady(old(c.w).images[image], cfg) ==> c.log == old(c.log) + [OtherChange]
  {
    Unchanged(c.Now());
    AccessEvolved(c.w, c.w) by {
      EvolvedSelf(c.w);
    }
    hide Undisturbed, Mild, Labelled, AccessEvolves;
    var img := c.w.images[image];
    assert |Sprint(None)| == 5 && |AGENT_V2| == 8;
    if !HasAgentLabel(img, cfg) {
      return false;
    }
    if cfg.agentEnabled && img.owner == Owner(cfg) && !img.agent {
      c.Drift();
      ghost var s1 := c.Now();
      AccessEvolved(old(c.w), c.w);
      AgentSet(c.w, image);
      ok := c.Change(SetAgent(c.w, image));
      Trans(old(c.Now()), s1, c.Now());
      SameAccess(old(c.w), s1.w, c.w);
    } else {
      ok := true;
    }
  }

  /** Neither its agent support nor its share has to be updated. */
  predicate IsPrepared(img: Image, cfg: Config) {
    AgentReady(img, cfg) && ShareCovers(img, cfg)
  }

  predicate AgentReady(img: Image, cfg: Config) {
    cfg.agentEnabled ==> Sprint(img.normalized) == AGENT_V2 && (img.owner == Owner(cfg) ==> img.agent)
  }

  /** installer/stackit.go:298-322: agent metadata, share, and visibility from the target. */
  method FinishImage(c: Cloud, cfg: Config, image: Id) returns (ok: bool)
    requires image in c.w.images && c.w.images[image].status.ImageAvailable?
    modifies c
    ensures Undisturbed(old(c.Now()), c.Now())
    ensures AccessEvolves(old(c.w), c.w)
    ensures ok ==> Ready(c.w, image, cfg)
    ensures image in c.w.images && c.w.images[image].sha == old(c.w).images[image].sha
            && c.w.images[image].normalized == old(c.w).images[image].normalized
    ensures c.w.images[image].status.ImageAvailable?
    ensures Visible(old(c.w).images[image], cfg.target) ==> Visible(c.w.images[image], cfg.target)
    ensures ok <==> c.errors == old(c.errors) && HasAgentLabel(old(c.w).images[image], cfg)
    ensures IsPrepared(old(c.w).images[image], cfg) ==> c.log == old(c.log)
    ensures ok && !IsPrepared(old(c.w).images[image], cfg) ==> !UnchangedLog(c.log, |old(c.log)|)
  {
    hide Undisturbed, ShareCovers, ShareWith, AccessEvolves, OnlyEvolved, Grown, SeenFrom;
    ok := EnsureAgent(c, cfg, image);
    Grows(old(c.Now()), c.Now());
    if !ok {
      return;
    }
    ghost var s1 := c.Now();
    SameShareCovers(s1.w.images[image], old(c.w).images[image], cfg);
    ok := EnsureImageShare(c, image, cfg);
    ghost var s2 := c.Now();
    Trans(old(c.Now()), s1, s2);
    Grows(s1, s2);
    AccessEvolvesTrans(old(c.w), s1.w, s2.w);
    if !ok {
      return;
    }
    assert !IsPrepared(old(c.w).images[image], cfg) ==> c.log[|old(c.log)|] == OtherChange;
    if c.w.images[image].owner != cfg.target {
      ok := WaitImageVisible(c, image, cfg.target);
      Trans(old(c.Now()), s2, c.Now());
      Grows(s2, c.Now());
      OnlyEvolvedMeans(s2.w, c.w, image);
      SameShareCovers(c.w.images[image], s2.w.images[image], cfg);
      AccessEvolvesTrans(old(c.w), s2.w, c.w);
    }
  }

  lemma SameShareCovers(a: Image, b: Image, cfg: Config)
    requires a.sharedWith == b.sharedWith && a.sharedOrg == b.sharedOrg
    ensures ShareCovers(a, cfg) <==> ShareCovers(b, cfg)
  {
  }

  /** A normalization was started. */
  ghost predicate Started(log: seq<Event>, start: nat) {
    exists j | start <= j < |log| :: log[j].NormalizationStarted?
  }

  /** In this state, a run changes nothing. */
  ghost predicate NothingToDo(w: World, cfg: Config, sha: Sha) {
    match cfg.imageId
    case None => NothingToUpdate(w, cfg, sha)
    case Some(id) => id !in w.images || (IsFinished(w, id) && IsPrepared(w.images[id], cfg))
  }

  /** Nothing was changed by reusing a prepared image. */
  lemma ReuseChangesNothing(a: Snapshot, b: Snapshot, found: Id, cfg: Config, sha: Sha)
    requires NothingToDo(a.w, cfg, sha) && ImagesEvolve(a.w, b.w) && found in b.w.images
    requires if cfg.imageId.None? then Eligible(a.w, found, cfg.target, sha) else cfg.imageId == Some(found)
    ensures IsPrepared(b.w.images[found], cfg)
  {
    StillPrepared(a.w, b.w, found, cfg);
  }

  lemma StillRival(a: Snapshot, b: Snapshot, p: Project, sha: Sha)
    requires Undisturbed(a, b)
    requires !NoImport(a.w, p, sha) ==> !OneImportAlways(a)
    ensures !NoImport(b.w, p, sha) ==> !OneImportAlways(b)
  {
  }

  lemma NotStarted(l0: seq<Event>, l1: seq<Event>)
    requires l0 <= l1 && NoStart(l1, |l0|)
    ensures !Started(l1, |l0|)
  {
  }

  /**
   * Provides a normalized image. Success means a Ready image. A run that finds only
   * prepared images changes nothing in the cloud. A run that builds an image while
   * another import of its hash stays unfinished has broken the single-import invariant.
   */
  method EnsureImage(c: Cloud, cfg: Config, sha: Sha, stale: bool) returns (r: Result<Id>)
    modifies c
    ensures ImageRun(old(c.Now()), c.Now(), cfg, sha)
    ensures r.Ok? ==> Ready(c.w, r.value, cfg)
    ensures r.Ok? && cfg.imageId.None? ==> LabelsMatch(c.w.images[r.value], sha)
    ensures r.Ok? && cfg.imageId.Some? ==>
              if Started(c.log, |old(c.log)|) then cfg.imageId.value !in c.w.images else r.value == cfg.imageId.value
    ensures r.Ok? && cfg.imageId.Some? && IsFinished(old(c.w), cfg.imageId.value) ==> r.value == cfg.imageId.value
    ensures r.Ok? ==> ConfigurationFits(old(c.w), cfg, sha)
    ensures r.Err? && ConfigurationSuits(old(c.w), cfg, sha) ==> old(c.errors) < c.errors
    ensures r.Ok? ==> c.errors == old(c.errors)
    ensures r.Ok? && Started(c.log, |old(c.log)|) && c.warnings == old(c.warnings) && OneHelperAlways(old(c.Now())) ==>
              NothingLeft(c.w, Owner(cfg), sha) && OlderGroupsOnly(old(c.w), c.w, Owner(cfg), sha)
    ensures c.polls == old(c.polls)
    ensures forall i | Blocks(old(c.w), c.w, i, cfg, sha) :: r.Err? && UnchangedLog(c.log, |old(c.log)|)
    ensures cfg.imageId.None? && ShowsAvailable(VisibleTo(old(c.w), cfg.target), sha) ==>
              ShowsAvailable(VisibleTo(c.w, cfg.target), sha)
    ensures cfg.imageId.Some? && cfg.imageId.value !in old(c.w).images ==> cfg.imageId.value !in c.w.images
    ensures NothingToDo(old(c.w), cfg, sha) ==> UnchangedLog(c.log, |old(c.log)|)
    ensures NothingToDo(old(c.w), cfg, sha) && cfg.imageId.None? && r.Ok? ==> Eligible(old(c.w), r.value, cfg.target, sha)
    ensures r.Ok? && UnchangedLog(c.log, |old(c.log)|) && !Started(c.log, |old(c.log)|) ==>
              r.value in old(c.w).images && IsPrepared(old(c.w).images[r.value], cfg)
    ensures r.Ok? && Started(c.log, |old(c.log)|) && !NoImport(c.w, Owner(cfg), sha) ==> !OneImportAlways(c.Now())
  {
    hide ImageRun, Undisturbed, RunStep, Begun, Ready, NoImport, StartJustified, ListedWithout, IsExported, NothingLeft,
         UnchangedLog, ImagesEvolve, VisibleTo, ShowsAvailable, LabelsMatch, IsCandidate, Eligible, IsPrepared, Started,
         OneImportAlways, OneHelperAlways, NoOtherImport, ConfigurationFits, HasAgentLabel, FinishedByItself, Blocks, AccessEvolves,
         OldImports, Seen, Grown, OlderGroupsOnly;
    r := Err;
    ghost var s0 := c.Now();
    var ok, found := FindReusable(c, cfg, sha, stale);
    ghost var s1 := c.Now();
    SuitsThenFits(s0.w, cfg, sha);
    Grows(s0, s1);
    if cfg.imageId.None? && ShowsAvailable(VisibleTo(s0.w, cfg.target), sha) {
      StillShows(s0.w, s1.w, cfg.target, sha);
    }
    GrownParts(s0, s1);
    if !ok {
      QuietImageRun(s0, s1, cfg, sha);
      Unchanged(s1);
      Grows(s1, s1);
      forall i | Blocks(s0.w, s1.w, i, cfg, sha) ensures UnchangedLog(s1.log, |s0.log|) {
        BlockedThen(s0, s1, s1, i, cfg, sha);
      }
      return;
    }
    if found.Some? {
      r := ReuseImage(c, cfg, sha, found.value, s0);
      Grows(s1, c.Now());
      QuietImageRun(s0, c.Now(), cfg, sha);
      NotBlocked(s0, s1, c.Now(), found, cfg, sha);
      return;
    }
    ImagesSeen(s0);
    r := BuildImage(c, cfg, sha, s0);
    NotBlocked(s0, s1, c.Now(), found, cfg, sha);
  }

  /** installer/stackit.go:295-323, when a finished image was found. */
  method ReuseImage(c: Cloud, cfg: Config, sha: Sha, found: Id, ghost s0: Snapshot) returns (r: Result<Id>)
    requires Undisturbed(s0, c.Now()) && ImagesEvolve(s0.w, c.w) && IsFinished(c.w, found) && c.errors == s0.errors
    requires if cfg.imageId.None? then LabelsMatch(c.w.images[found], sha) else cfg.imageId == Some(found)
    requires NothingToDo(s0.w, cfg, sha) ==>
               UnchangedLog(c.log, |s0.log|) && (cfg.imageId.None? ==> Eligible(s0.w, found, cfg.target, sha))
    modifies c
    ensures Undisturbed(s0, c.Now()) && !Started(c.log, |s0.log|) && c.polls == s0.polls
    ensures Undisturbed(old(c.Now()), c.Now())
    ensures r.Ok? ==> r.value == found && Ready(c.w, found, cfg) && c.errors == s0.errors
    ensures found in c.w.images
    ensures cfg.imageId.None? ==> LabelsMatch(c.w.images[found], sha)
    ensures r.Err? && ConfigurationSuits(s0.w, cfg, sha) ==> s0.errors < c.errors
    ensures NothingToDo(s0.w, cfg, sha) ==> UnchangedLog(c.log, |s0.log|)
    ensures r.Ok? && UnchangedLog(c.log, |s0.log|) ==> found in s0.w.images && IsPrepared(s0.w.images[found], cfg)
    ensures cfg.imageId.None? && (Eligible(s0.w, found, cfg.target, sha) || FinishedByItself(s0.w, old(c.w), found, cfg, sha)) ==>
              ShowsAvailable(VisibleTo(c.w, cfg.target), sha)
  {
    hide Undisturbed, Ready, NoImport, UnchangedLog, ImagesEvolve, VisibleTo, ShowsAvailable, LabelsMatch, Eligible,
         IsPrepared, Started, HasAgentLabel, FinishedByItself, AccessEvolves, ConfigurationSuits, NothingToUpdate;
    ghost var s1 := c.Now();
    if NothingToDo(s0.w, cfg, sha) {
      ReuseChangesNothing(s0, s1, found, cfg, sha);
    }
    SameIds(s0.w, s1.w);
    StillPrepared(s0.w, s1.w, found, cfg);
    if ConfigurationSuits(s0.w, cfg, sha) {
      ReusedHasLabel(s0.w, s1.w, found, cfg, sha);
    }
    var ok := FinishImage(c, cfg, found);
    r := if ok then Ok(found) else Err;
    ghost var s2 := c.Now();
    Trans(s0, s1, s2);
    Grows(s0, s1);
    Grows(s1, s2);
    Grows(s0, s2);
    if ok && UnchangedLog(s2.log, |s0.log|) {
      UnchangedLater(s2.log, |s0.log|, |s1.log|);
    }
    NotStarted(s0.log, s2.log);
    GrownParts(s0, s2);
    if cfg.imageId.None? {
      SeenByTarget(s0.w, s1.w, found, cfg, sha);
      SameLabels(s1.w.images[found], c.w.images[found], sha);
      FoundShows(s2.w, found, cfg.target, sha);
    }
  }

  /** Before and after, such an import is unfinished and a search finds nothing else. */
  ghost predicate Blocks(a: World, b: World, i: Id, cfg: Config, sha: Sha) {
    && IsAwaited(a, i, cfg, sha) && IsAwaited(b, i, cfg, sha)
    && (cfg.imageId.None? ==>
          && !ShowsAvailable(VisibleTo(a, cfg.target), sha)
          && !ShowsAvailable(VisibleTo(b, cfg.target), sha))
  }

  lemma BlockedThen(a: Snapshot, b: Snapshot, c: Snapshot, i: Id, cfg: Config, sha: Sha)
    requires Blocks(a.w, c.w, i, cfg, sha) && OldImports(b, c) && Seen(a) <= Seen(b)
    ensures cfg.imageId.None? ==>
              && Outwaits(cfg) && !ShowsAvailable(VisibleTo(a.w, cfg.target), sha) && !NoImport(b.w, cfg.target, sha)
              && !ShowsAvailable(VisibleTo(c.w, cfg.target), sha)
    ensures cfg.imageId.Some? ==>
              && cfg.imageId == Some(i) && i in a.w.images && a.w.images[i].owner != Owner(cfg)
              && i in b.w.images && !IsFinished(b.w, i)
  {
    hide ShowsAvailable, VisibleTo;
    assert i in Seen(a);
  }

  /** A run in which the wait ended was not blocked. */
  lemma NotBlocked(a: Snapshot, b: Snapshot, c: Snapshot, found: Option<Id>, cfg: Config, sha: Sha)
    requires OldImports(b, c) && Seen(a) <= Seen(b)
    requires Outwaits(cfg) && !ShowsAvailable(VisibleTo(a.w, cfg.target), sha) && !NoImport(b.w, cfg.target, sha) ==>
               ShowsAvailable(VisibleTo(c.w, cfg.target), sha)
    requires cfg.imageId.Some? && cfg.imageId.value in a.w.images && a.w.images[cfg.imageId.value].owner != Owner(cfg) ==>
               found == cfg.imageId && IsFinished(b.w, found.value)
    ensures forall i :: !Blocks(a.w, c.w, i, cfg, sha)
  {
    hide ShowsAvailable, VisibleTo, Blocks, OldImports, Seen, NoImport;
    forall i
      ensures !Blocks(a.w, c.w, i, cfg, sha)
    {
      if Blocks(a.w, c.w, i, cfg, sha) {
        BlockedThen(a, b, c, i, cfg, sha);
        assert false;
      }
    }
  }

  lemma ImagesSeen(s: Snapshot)
    ensures s.w.images.Keys <= Seen(s)
  {
  }

  lemma StillShows(a: World, b: World, p: Project, sha: Sha)
    requires ImagesEvolve(a, b) && ShowsAvailable(VisibleTo(a, p), sha)
    ensures ShowsAvailable(VisibleTo(b, p), sha)
  {
    var i :| i in VisibleTo(a, p) && LabelsMatch(VisibleTo(a, p)[i], sha) && VisibleTo(a, p)[i].status.ImageAvailable?;
    assert b.images[i] == a.images[i] && i in VisibleTo(b, p);
  }

  lemma FoundShows(w: World, id: Id, p: Project, sha: Sha)
    requires IsFinished(w, id) && LabelsMatch(w.images[id], sha)
    ensures Visible(w.images[id], p) ==> ShowsAvailable(VisibleTo(w, p), sha)
  {
    assert Visible(w.images[id], p) ==> id in VisibleTo(w, p);
  }

  lemma SeenByTarget(a: World, b: World, id: Id, cfg: Config, sha: Sha)
    requires ImagesEvolve(a, b) && id in b.images
    ensures Eligible(a, id, cfg.target, sha) || FinishedByItself(a, b, id, cfg, sha) ==> Visible(b.images[id], cfg.target)
  {
  }

  /** The configured image, if there is one, can be read, belongs to this OVA and is normalized if it has to be. */
  predicate ConfigurationSuits(w: World, cfg: Config, sha: Sha) {
    ConfigurationFits(w, cfg, sha) && (cfg.imageId.Some? ==> HasAgentLabel(w.images[cfg.imageId.value], cfg))
  }

  lemma SuitsThenFits(w: World, cfg: Config, sha: Sha)
    ensures ConfigurationSuits(w, cfg, sha) ==> ConfigurationFits(w, cfg, sha)
    ensures ConfigurationFits(w, cfg, sha) && cfg.imageId.Some? ==> cfg.imageId.value in w.images
  {
  }

  lemma ReusedHasLabel(a: World, b: World, found: Id, cfg: Config, sha: Sha)
    requires ConfigurationSuits(a, cfg, sha) && ImagesEvolve(a, b) && found in b.images
    requires if cfg.imageId.None? then LabelsMatch(b.images[found], sha) else cfg.imageId == Some(found)
    ensures HasAgentLabel(b.images[found], cfg)
  {
  }

  lemma SameIds(a: World, b: World)
    requires ImagesEvolve(a, b)
    ensures a.images.Keys == b.images.Keys
  {
  }

  lemma UnchangedLater(log: seq<Event>, start: nat, later: nat)
    requires UnchangedLog(log, start) && start <= later
    ensures UnchangedLog(log, later)
  {
  }

  /** installer/stackit.go:280-323, when no reusable image was found. */
  method BuildImage(c: Cloud, cfg: Config, sha: Sha, ghost s0: Snapshot) returns (r: Result<Id>)
    requires Undisturbed(s0, c.Now())
    requires ImportIsSafe(s0.w, cfg, sha) && OneImportAlways(s0) ==> NoImport(c.w, Owner(cfg), sha)
    requires cfg.imageId.None? ==>
               ListedWithout(c.log, |s0.log|, cfg.target, sha) && ListedWithout(c.log, |s0.log|, Owner(cfg), sha)
    requires cfg.imageId.Some? ==> cfg.imageId.value !in c.w.images
    modifies c
    ensures ImageRun(s0, c.Now(), cfg, sha)
    ensures Seen(old(c.Now())) <= Seen(c.Now()) && OldImports(old(c.Now()), c.Now())
    ensures old(c.errors) <= c.errors
    ensures r.Ok? ==> Started(c.log, |s0.log|) && StartedInNetwork(c.log, |s0.log|, cfg)
    ensures r.Ok? <==> c.errors == old(c.errors)
    ensures r.Ok? && c.warnings == s0.warnings && OneHelperAlways(s0) ==>
              NothingLeft(c.w, Owner(cfg), sha) && OlderGroupsOnly(s0.w, c.w, Owner(cfg), sha)
    ensures c.polls == s0.polls
    ensures r.Ok? ==> Ready(c.w, r.value, cfg) && LabelsMatch(c.w.images[r.value], sha)
    ensures r.Ok? && cfg.imageId.Some? && cfg.imageId.value in Seen(old(c.Now())) ==> cfg.imageId.value !in c.w.images
    ensures r.Ok? && !NoImport(c.w, Owner(cfg), sha) ==> !OneImportAlways(c.Now())
  {
    hide ImageRun, Undisturbed, RunStep, Begun, Ready, NoImport, StartJustified, ListedWithout, IsExported, NothingLeft,
         LabelsMatch, OneImportAlways, OneHelperAlways, NoOtherImport, ImportIsSafe, HasAgentLabel, AccessEvolves, Seen, OldImports,
         Grown, Labelled, OlderGroupsOnly, ResumedIfPossible, Started;
    r := Err;
    ghost var s1 := c.Now();
    Grows(s0, s1);
    Unchanged(s1);
    if Owner(cfg) != cfg.target {
      var ok := c.Step(NetworkReady(Owner(cfg))); // ensureNetworkInProject
      Trans(s0, s1, c.Now());
      if !ok {
        QuietImageRun(s0, c.Now(), cfg, sha);
        Grows(s1, c.Now());
        Grows(s0, c.Now());
        GrownParts(s0, c.Now());
        return;
      }
    }
    ghost var s3 := c.Now();
    c.Note(NormalizationStarted(Owner(cfg)));
    ghost var s4 := c.Now();
    BuildBegun(s0, s1, s3, s4, cfg, sha);
    var network: string := *; // the target's network, or the owner project's
    r := NormalizeAndUploadImage(c, Owner(cfg), sha, cfg.performance, network);
    ghost var s5 := c.Now();
    assert s4.errors == s1.errors;
    if r.Err? {
      Unchanged(s5);
      BuildDone(s0, s1, s3, s4, s5, s5, cfg, sha);
      return;
    }
    ExportedLabels(c.w, r.value, Owner(cfg), sha);
    ExportedHasLabel(c.w.images[r.value], cfg, sha);
    var ok := FinishImage(c, cfg, r.value);
    ghost var s6 := c.Now();
    BuildDone(s0, s1, s3, s4, s5, s6, cfg, sha);
    NoNewImage(s5, s6);
    StillRival(s5, s6, Owner(cfg), sha);
    BuiltCleanly(s0, s4, s5, s6, cfg, sha);
    SameLabels(s5.w.images[r.value], c.w.images[r.value], sha);
    if !ok {
      r := Err;
    }
  }

  /** What the parts of a build keep, the build keeps. */
  lemma BuildDone(a: Snapshot, b: Snapshot, c: Snapshot, d: Snapshot, e: Snapshot, f: Snapshot, cfg: Config, sha: Sha)
    requires Begun(a, d) && Grown(b, d) && OldImports(b, d) && Seen(b) <= Seen(d)
    requires a.log <= c.log && NoStart(c.log, |a.log|) && d.log == c.log + [NormalizationStarted(Owner(cfg))]
    requires RunStep(d, e, Owner(cfg), sha) && Undisturbed(e, f)
    requires cfg.imageId.None? ==>
               ListedWithout(c.log, |a.log|, cfg.target, sha) && ListedWithout(c.log, |a.log|, Owner(cfg), sha)
    requires ImportIsSafe(a.w, cfg, sha) && OneImportAlways(a) ==> NoImport(d.w, Owner(cfg), sha)
    requires Owner(cfg) != cfg.target ==> |a.log| < |c.log| && c.log[|c.log| - 1] == NetworkReady(Owner(cfg))
    ensures ImageRun(a, f, cfg, sha) && f.polls == a.polls && Grown(a, f) && Grown(d, e)
    ensures Seen(b) <= Seen(f) && OldImports(b, f) && b.errors <= f.errors && d.errors <= e.errors <= f.errors
    ensures Started(f.log, |a.log|) && StartedInNetwork(f.log, |a.log|, cfg)
  {
    hide Begun, Undisturbed, RunStep, ImageRun, Grown, OldImports, ListedWithout, NoImport, ImportIsSafe, OneImportAlways, Seen,
         Started, StartedInNetwork, StartJustified;
    RunGrows(d, e, Owner(cfg), sha);
    Grows(e, f);
    GrownTrans(b, d, e);
    GrownTrans(b, e, f);
    GrownParts(b, f);
    OldImportsTrans(b, d, e);
    OldImportsTrans(b, e, f);
    if cfg.imageId.None? {
      StartIsJustified(a.log, c.log, e.log, f.log, cfg, sha);
    }
    RunInContext(a, d, e, f, cfg, sha);
    GrownParts(a, f);
    StartedAt(c.log, f.log, |a.log|, cfg);
  }

  lemma BuildBegun(a: Snapshot, b: Snapshot, c: Snapshot, d: Snapshot, cfg: Config, sha: Sha)
    requires Undisturbed(a, b) && Undisturbed(a, c) && Undisturbed(b, c) && Begun(c, d)
    requires d.log == c.log + [NormalizationStarted(Owner(cfg))]
    ensures Begun(a, d) && Grown(b, d) && OldImports(b, d) && Seen(b) <= Seen(d)
    ensures NoImport(b.w, Owner(cfg), sha) ==> NoImport(d.w, Owner(cfg), sha)
    ensures a.log <= c.log && b.log <= c.log && NoStart(c.log, |a.log|)
    ensures ListedWithout(b.log, |a.log|, cfg.target, sha) ==> ListedWithout(c.log, |a.log|, cfg.target, sha)
    ensures ListedWithout(b.log, |a.log|, Owner(cfg), sha) ==> ListedWithout(c.log, |a.log|, Owner(cfg), sha)
  {
    hide Undisturbed, Begun, ListedWithout, NoImport, OldImports, Grown;
    BegunTrans(a, c, d);
    BegunTrans(b, c, d);
    BegunGrows(b, d);
    StillNoImport(b, d, Owner(cfg), sha);
    Grows(a, b);
    Grows(a, c);
    Grows(b, c);
    if ListedWithout(b.log, |a.log|, cfg.target, sha) {
      ListedLater(b.log, c.log, |a.log|, |a.log|, cfg.target, sha);
    }
    if ListedWithout(b.log, |a.log|, Owner(cfg), sha) {
      ListedLater(b.log, c.log, |a.log|, |a.log|, Owner(cfg), sha);
    }
  }

  /** In another project, the network for the helper was there right before the start. */
  ghost predicate StartedInNetwork(log: seq<Event>, start: nat, cfg: Config) {
    exists j | start <= j < |log| ::
      && log[j] == NormalizationStarted(Owner(cfg))
      && (Owner(cfg) != cfg.target ==> start < j && log[j - 1] == NetworkReady(Owner(cfg)))
  }

  lemma StartedAt(l0: seq<Event>, l1: seq<Event>, start: nat, cfg: Config)
    requires start <= |l0| && l0 + [NormalizationStarted(Owner(cfg))] <= l1
    requires Owner(cfg) != cfg.target ==> start < |l0| && l0[|l0| - 1] == NetworkReady(Owner(cfg))
    ensures Started(l1, start) && StartedInNetwork(l1, start, cfg)
  {
    assert l1[|l0|] == NormalizationStarted(Owner(cfg));
    assert forall j | 0 <= j < |l0| :: l1[j] == l0[j];
  }

  /** Without a warning in the end, there was none when the normalization had ended. */
  lemma BuiltCleanly(a: Snapshot, b: Snapshot, c: Snapshot, d: Snapshot, cfg: Config, sha: Sha)
    requires Begun(a, b) && Grown(b, c) && Undisturbed(c, d) && AccessEvolves(c.w, d.w) && Grown(a, d)
    requires c.warnings == b.warnings && OneHelperAlways(b) ==> NothingLeft(c.w, Owner(cfg), sha)
    ensures d.warnings == a.warnings && OneHelperAlways(a) ==>
              NothingLeft(d.w, Owner(cfg), sha) && OlderGroupsOnly(a.w, d.w, Owner(cfg), sha)
  {
    hide Begun, Undisturbed, Grown, AccessEvolves, NothingLeft, OlderGroupsOnly, OneHelperAlways;
    Grows(c, d);
    BegunGrows(a, b);
    BegunKeepsHelpers(a, b);
    GrownTrans(b, c, d);
    WarnedBetween(a, b, d);
    WarnedBetween(b, c, d);
    StillNothingLeft(c, d, Owner(cfg), sha);
    OnlyOlderGroups(a, d, Owner(cfg), sha);
  }

  lemma BegunKeepsHelpers(a: Snapshot, b: Snapshot)
    requires Begun(a, b)
    ensures OneHelperAlways(a) ==> OneHelperAlways(b)
  {
  }

  lemma StillNothingLeft(a: Snapshot, b: Snapshot, p: Project, sha: Sha)
    requires Undisturbed(a, b) && AccessEvolves(a.w, b.w)
    ensures NothingLeft(a.w, p, sha) ==> NothingLeft(b.w, p, sha)
  {
    hide Undisturbed, AccessEvolves, HelpersWithin, NoAccess;
    StillWithin(a, b, p, sha, {});
    if NothingLeft(a.w, p, sha) {
      StillNoAccess(a.w, b.w, p, sha);
    }
  }

  lemma ExportedHasLabel(img: Image, cfg: Config, sha: Sha)
    requires LabelsMatch(img, sha)
    ensures HasAgentLabel(img, cfg)
  {
  }

  /**
   * A state in which a configured image is not safe: a stale import that was never
   * normalized, beside another unfinished import of the same hash.
   */
  lemma ConfiguredImageCanDouble(sha: Sha, p: Project)
    ensures exists w, id ::
      && OneImport(w) && id in w.images && AcceptsConfigured(w.images[id], sha)
      && w.images[id].status.ImageCreating? && w.images[id].owner == p
      && !NoOtherImport(w, p, sha, id)
  {
    var rival := Import(p, sha, {});
    var stale := rival.(normalized := None);
    var w := World(map[0 := stale, 1 := rival], map[], map[], map[], map[], map[]);
    assert |Sprint(None)| == 5 && |AGENT_V2| == 8;
    assert !IsImport(w.images[0]) && IsImport(w.images[1]);
    assert OneImport(w) && !NoOtherImport(w, p, sha, 0);
  }

  // ---------- Sequences of runs ----------

  datatype Run = Run(cfg: Config, sha: Sha, polls: nat, stale: bool)

  /** What holds over any sequence of runs, however each of them ended. */
  ghost predicate OverAllRuns(a: Snapshot, b: Snapshot) {
    && a.log <= b.log && Labelled(a.w, b.w)
    && EvidenceKept(b.log, |a.log|) && UploadsPrepared(b.log, |a.log|)
    && (forall v | v in a.w.volumes && v !in b.w.volumes :: WasExported(b.log, |a.log|, v))
  }

  lemma OneMoreRun(a: Snapshot, b: Snapshot, c: Snapshot, cfg: Config, sha: Sha)
    requires OverAllRuns(a, b) && ImageRun(b, c, cfg, sha)
    ensures OverAllRuns(a, c)
  {
    hide Labelled, Explained, OldImports, StartJustified, NoImport, OneImportAlways, OneHelperAlways, ImportIsSafe, OneRequest,
         EvidenceKept, UploadsPrepared, WasExported;
    LabelledTrans(a.w, b.w, c.w);
    MoreUploads(a.log, b.log, c.log);
    MoreEvidence(a.log, b.log, c.log);
    forall v | v in a.w.volumes && v !in c.w.volumes
      ensures WasExported(c.log, |a.log|, v)
    {
      if v in b.w.volumes {
        ExportedInContext(c.log, c.log, |a.log|, |b.log|, v);
      } else {
        ExportedInContext(b.log, c.log, |a.log|, |a.log|, v);
      }
    }
  }

  lemma MoreUploads(a: seq<Event>, b: seq<Event>, c: seq<Event>)
    requires a <= b <= c && UploadsPrepared(b, |a|) && UploadsPrepared(c, |b|)
    ensures UploadsPrepared(c, |a|)
  {
    hide PreparedIn;
    forall j | |a| <= j < |c| && c[j].Uploaded?
      ensures SourceReady(c[..j], |a|, c[j].source)
    {
      if j < |b| {
        assert c[..j] == b[..j];
        assert SourceReady(b[..j], |a|, b[j].source);
      } else {
        assert SourceReady(c[..j], |b|, c[j].source);
      }
    }
  }

  lemma MoreEvidence(a: seq<Event>, b: seq<Event>, c: seq<Event>)
    requires a <= b <= c && EvidenceKept(b, |a|) && EvidenceKept(c, |b|)
    ensures EvidenceKept(c, |a|)
  {
    forall j | |a| <= j < |c| && c[j].VolumeDeletion?
      ensures exists k, i | |a| <= k < i < j ::
        && c[k].Uploaded? && c[i] == SeenAvailable(c[k].image) && c[j].volume in {c[k].source, c[k].scratch}
    {
      if j < |b| {
        var k, i :| |a| <= k < i < j && b[k].Uploaded? && b[i] == SeenAvailable(b[k].image)
                    && b[j].volume in {b[k].source, b[k].scratch};
        assert c[k] == b[k] && c[i] == b[i];
      }
    }
  }

  /** Every run that has a configured image was safe when it started. */
  ghost predicate AllSafe(runs: seq<Run>, states: seq<Snapshot>)
    requires |runs| <= |states|
  {
    forall n | 0 <= n < |runs| :: ImportIsSafe(states[n].w, runs[n].cfg, runs[n].sha)
  }

  /**
   * Any number of runs, one after the other, each possibly failing or stopping
   * anywhere; `states` are those between the runs. In no state are there two live
   * helpers or, if every run with a configured image was safe when it started, two
   * unfinished imports for one project and hash.
   */
  method RunRepeatedly(c: Cloud, runs: seq<Run>) returns (ghost states: seq<Snapshot>)
    requires OneHelperAlways(c.Now()) && OneImportAlways(c.Now())
    modifies c
    ensures |states| == |runs| + 1 && states[0] == old(c.Now()) && states[|runs|] == c.Now()
    ensures forall n | 0 <= n < |runs| :: ImageRun(states[n], states[n + 1], runs[n].cfg, runs[n].sha)
    ensures forall n | 0 <= n < |runs| :: states[n + 1].polls == runs[n].polls
    ensures OneHelperAlways(c.Now())
    ensures AllSafe(runs, states) ==> OneImportAlways(c.Now())
    ensures OverAllRuns(old(c.Now()), c.Now())
  {
    hide OneHelperAlways, OneImportAlways, EvidenceKept, UploadsPrepared, WasExported, ImageRun, ImportIsSafe, Labelled,
         OlderGroupsOnly, NothingLeft, Ready, NothingToDo, Blocks, Eligible, Started, UnchangedLog, ConfigurationFits, ConfigurationSuits,
         NoImport, LabelsMatch, ShowsAvailable, VisibleTo, IsPrepared, IsFinished, AllSafe;
    NoRunYet(c.Now());
    hide OverAllRuns;
    states := [c.Now()];
    for n := 0 to |runs|
      invariant |states| == n + 1 && states[0] == old(c.Now()) && states[n] == c.Now()
      invariant forall k | 0 <= k < n :: ImageRun(states[k], states[k + 1], runs[k].cfg, runs[k].sha)
      invariant forall k | 0 <= k < n :: states[k + 1].polls == runs[k].polls
      invariant OneHelperAlways(c.Now())
      invariant AllSafe(runs[..n], states) ==> OneImportAlways(c.Now())
      invariant OverAllRuns(old(c.Now()), c.Now())
    {
      ghost var before, earlier := c.Now(), states;
      var run := runs[n];
      c.Begin(run.polls);
      ghost var begun := c.Now();
      var _ := EnsureImage(c, run.cfg, run.sha, run.stale);
      RunBegun(before, begun, c.Now(), run.cfg, run.sha);
      states := states + [c.Now()];
      OneRunMore(runs, earlier, n, c.Now());
      RunKeeps(before, c.Now(), run.cfg, run.sha);
      OneMoreRun(old(c.Now()), before, c.Now(), run.cfg, run.sha);
    }
    assert runs[..|runs|] == runs;
  }

  /** The deadlines are those of the run. */
  lemma RunBegun(a: Snapshot, b: Snapshot, c: Snapshot, cfg: Config, sha: Sha)
    requires b == a.(polls := b.polls) && c.polls == b.polls && ImageRun(b, c, cfg, sha)
    ensures ImageRun(a, c, cfg, sha)
  {
    assert a.(polls := c.polls) == b && b.(polls := c.polls) == b;
    hide Grown, OldImports;
    assert Seen(a) == Seen(b);
    OldImportsSame(a, b, c);
  }

  lemma OldImportsSame(a: Snapshot, b: Snapshot, c: Snapshot)
    requires b == a.(polls := b.polls) && OldImports(b, c)
    ensures OldImports(a, c)
  {
  }

  lemma OneRunMore(runs: seq<Run>, states: seq<Snapshot>, n: nat, last: Snapshot)
    requires n < |runs| && |states| == n + 1
    ensures AllSafe(runs[..n + 1], states + [last]) <==>
            AllSafe(runs[..n], states) && ImportIsSafe(states[n].w, runs[n].cfg, runs[n].sha)
  {
    var more := states + [last];
    if AllSafe(runs[..n + 1], more) {
      forall k | 0 <= k < n ensures ImportIsSafe(states[k].w, runs[..n][k].cfg, runs[..n][k].sha) {
        assert ImportIsSafe(more[k].w, runs[..n + 1][k].cfg, runs[..n + 1][k].sha);
      }
      assert ImportIsSafe(more[n].w, runs[..n + 1][n].cfg, runs[..n + 1][n].sha);
    }
  }

  lemma NoRunYet(s: Snapshot)
    ensures OverAllRuns(s, s)
  {
    LabelledSelf(s.w);
  }

  lemma RunKeeps(a: Snapshot, b: Snapshot, cfg: Config, sha: Sha)
    requires ImageRun(a, b, cfg, sha)
    ensures OneHelperAlways(a) ==> OneHelperAlways(b)
    ensures ImportIsSafe(a.w, cfg, sha) && OneImportAlways(a) ==> OneImportAlways(b)
  {
  }

  lemma SolePick(w: World, id: Id, i: Id, cfg: Config, sha: Sha)
    requires Sole(w, id, cfg, sha) && Eligible(w, i, cfg.target, sha)
    ensures i == id
  {
  }

  /** A ready image that has no rival leaves nothing to update. */
  lemma SoleNeedsNothing(w: World, id: Id, cfg: Config, sha: Sha)
    requires Ready(w, id, cfg) && LabelsMatch(w.images[id], sha) && Sole(w, id, cfg, sha)
    ensures NothingToUpdate(w, cfg, sha)
  {
    ReadyShows(w, id, cfg, sha);
  }

  /**
   * Right after a successful run, a second one changes nothing: always with a configured
   * image, and with a search if every image it may pick is prepared. If there is only
   * one, it returns the same.
   */
  method RunTwice(c: Cloud, cfg: Config, sha: Sha, stale: bool, later: nat)
    returns (first: Result<Id>, second: Result<Id>, ghost between: Snapshot)
    modifies c
    ensures first.Ok? ==> between.log <= c.log
    ensures first.Ok? && (cfg.imageId.Some? || NothingToUpdate(between.w, cfg, sha)) ==> UnchangedLog(c.log, |between.log|)
    ensures first.Ok? && cfg.imageId.None? && Sole(between.w, first.value, cfg, sha) ==>
              UnchangedLog(c.log, |between.log|) && (second.Ok? ==> second == first)
    ensures first.Ok? && second.Ok? && cfg.imageId.Some? ==> second == first == Ok(cfg.imageId.value)
    ensures first.Ok? && cfg.imageId.Some? && Started(between.log, |old(c.log)|) ==> second.Err?
  {
    hide Sole, UnchangedLog, LabelsMatch, Started, Ready, NothingToUpdate, Eligible, IsPrepared;
    first := EnsureImage(c, cfg, sha, stale);
    between := c.Now();
    if first.Ok? {
      ReadyIsPrepared(c.w, first.value, cfg);
      if cfg.imageId.None? && Sole(c.w, first.value, cfg, sha) {
        SoleNeedsNothing(c.w, first.value, cfg, sha);
      }
    }
    c.Begin(later);
    second := EnsureImage(c, cfg, sha, stale);
    if first.Ok? && second.Ok? && cfg.imageId.None? && Sole(between.w, first.value, cfg, sha) {
      SolePick(between.w, first.value, second.value, cfg, sha);
    }
  }

  /**
   * Once a configured image is gone, as after the withdrawal of a stale import, every run
   * that names it fails and changes nothing.
   */
  method RunWithoutImage(c: Cloud, id: Id, runs: seq<Run>) returns (answers: seq<Result<Id>>)
    requires id !in c.w.images && forall run | run in runs :: run.cfg.imageId == Some(id)
    modifies c
    ensures |answers| == |runs| && forall r | r in answers :: r.Err?
    ensures id !in c.w.images
    ensures |old(c.log)| <= |c.log| && UnchangedLog(c.log, |old(c.log)|)
  {
    answers := [];
    hide ImageRun;
    for n := 0 to |runs|
      invariant |answers| == n && forall r | r in answers :: r.Err?
      invariant id !in c.w.images
      invariant old(c.log) <= c.log && UnchangedLog(c.log, |old(c.log)|)
    {
      ghost var before := c.Now();
      var run := runs[n];
      assert run in runs;
      c.Begin(run.polls);
      ghost var begun := c.Now();
      var r := EnsureImage(c, run.cfg, run.sha, run.stale);
      RunBegun(before, begun, c.Now(), run.cfg, run.sha);
      RunExtends(before, c.Now(), run.cfg, run.sha);
      answers := answers + [r];
    }
  }

  /**
   * A second dead end: while an unfinished import that a run waits for stays unfinished, and a
   * search finds no finished image, every run with this configuration fails and changes nothing.
   */
  method RunBesideImport(c: Cloud, runs: seq<Run>, ghost cfg: Config, ghost sha: Sha, ghost i: Id)
    returns (answers: seq<Result<Id>>)
    requires IsAwaited(c.w, i, cfg, sha) && forall run | run in runs :: run.cfg == cfg && run.sha == sha
    modifies c
    ensures |answers| == |runs| && |old(c.log)| <= |c.log|
    ensures Blocks(old(c.w), c.w, i, cfg, sha) ==>
              (forall r | r in answers :: r.Err?) && UnchangedLog(c.log, |old(c.log)|)
  {
    answers := [];
    hide ImageRun, ShowsAvailable, VisibleTo, OldImports, Seen, Ready, NothingToDo, Started, NothingLeft, Eligible, IsAwaited;
    ghost var s0 := c.Now();
    Unchanged(s0);
    Grows(s0, s0);
    for n := 0 to |runs|
      invariant |answers| == n && s0.log <= c.log
      invariant Seen(s0) <= Seen(c.Now()) && OldImports(s0, c.Now())
      invariant Blocks(s0.w, c.w, i, cfg, sha) ==> (forall r | r in answers :: r.Err?) && UnchangedLog(c.log, |s0.log|)
    {
      ghost var before := c.Now();
      var run := runs[n];
      assert run in runs;
      c.Begin(run.polls);
      ghost var begun := c.Now();
      var r := EnsureImage(c, run.cfg, run.sha, run.stale);
      RunBegun(before, begun, c.Now(), cfg, sha);
      RunExtends(before, c.Now(), cfg, sha);
      OldImportsTrans(s0, before, c.Now());
      if Blocks(s0.w, c.w, i, cfg, sha) {
        AwaitedBefore(s0, before, c.Now(), i, cfg, sha);
        assert Blocks(s0.w, before.w, i, cfg, sha) && Blocks(before.w, c.w, i, cfg, sha);
      }
      answers := answers + [r];
    }
  }

  /**
   * A run without owner project that is stopped right after its import request leaves such a
   * state for the runs that name another owner project.
   */
  lemma StoppedRunBlocks(w: World, next: Id, cfg: Config, sha: Sha, organization: set<Project>)
    requires cfg.imageId.None? && Owner(cfg) != cfg.target && next !in w.images
    requires !ShowsAvailable(VisibleTo(w, cfg.target), sha)
    ensures var left := CreateImage(w, next, Import(cfg.target, sha, organization)); Blocks(left, left, next, cfg, sha)
  {
    var left := CreateImage(w, next, Import(cfg.target, sha, organization));
    forall i | i in VisibleTo(left, cfg.target) && LabelsMatch(left.images[i], sha)
      ensures !left.images[i].status.ImageAvailable?
    {
      assert i != next ==> i in VisibleTo(w, cfg.target);
    }
    assert Sprint(Some(AGENT_V2)) == AGENT_V2;
  }

  lemma AwaitedBefore(a: Snapshot, b: Snapshot, c: Snapshot, i: Id, cfg: Config, sha: Sha)
    requires IsAwaited(a.w, i, cfg, sha) && IsAwaited(c.w, i, cfg, sha) && Seen(a) <= Seen(b) && OldImports(b, c)
    ensures IsAwaited(b.w, i, cfg, sha)
  {
    assert i in Seen(a);
  }

  lemma RunExtends(a: Snapshot, b: Snapshot, cfg: Config, sha: Sha)
    requires ImageRun(a, b, cfg, sha)
    ensures a.log <= b.log && a.errors <= b.errors && AllJustified(b.answers, |a.answers|, b.polls, b.errors, |a.errors|)
    ensures Seen(a) <= Seen(b) && OldImports(a, b)
  {
  }

  /**
   * After any number of runs, however each of them ended, one more run provides a ready
   * image exactly if no error ends it: a call that fails, a wait that reaches its deadline,
   * or a resource that fails. What it tolerates, like a leftover helper that it cannot
   * resume on, is no such error. A configured image has to suit for that. If the run built
   * the image and reported no warning, no helper and no access of the hash are left.
   */
  method RecoverAfterRuns(c: Cloud, runs: seq<Run>, cfg: Config, sha: Sha, stale: bool, polls: nat)
    returns (r: Result<Id>, ghost last: Snapshot)
    requires OneHelperAlways(c.Now()) && OneImportAlways(c.Now())
    modifies c
    ensures OverAllRuns(old(c.Now()), last) && ImageRun(last, c.Now(), cfg, sha)
    ensures last.polls == c.polls == polls
    ensures ConfigurationSuits(last.w, cfg, sha) ==> (r.Ok? <==> c.errors == last.errors)
    ensures AllJustified(c.answers, |last.answers|, polls, c.errors, |last.errors|)
    ensures ConfigurationSuits(last.w, cfg, sha) && AllAnswered(last, c.Now()) && SettledInTime(c.answers, |last.answers|, polls) ==>
              r.Ok?
    ensures r.Ok? ==> ConfigurationFits(last.w, cfg, sha) && Ready(c.w, r.value, cfg)
    ensures r.Ok? && cfg.imageId.None? ==>
              c.w.images[r.value].sha == Some(sha[..32]) && c.w.images[r.value].normalized == Some("agent-v2")
    ensures r.Ok? && Started(c.log, |last.log|) && c.warnings == last.warnings ==>
              NothingLeft(c.w, Owner(cfg), sha) && OlderGroupsOnly(last.w, c.w, Owner(cfg), sha)
  {
    ghost var _ := RunRepeatedly(c, runs);
    c.Begin(polls);
    last := c.Now();
    r := EnsureImage(c, cfg, sha, stale);
    RunExtends(last, c.Now(), cfg, sha);
    if r.Ok? && cfg.imageId.None? {
      LabelIsSome(c.w.images[r.value], sha);
    }
    if ConfigurationSuits(last.w, cfg, sha) && AllAnswered(last, c.Now()) && SettledInTime(c.answers, |last.answers|, polls) {
      NothingWentWrong(last, c.Now());
    }
  }

  lemma ReadyIsPrepared(w: World, id: Id, cfg: Config)
    requires Ready(w, id, cfg)
    ensures IsFinished(w, id) && IsPrepared(w.images[id], cfg)
  {
  }
}
