// Building the normalized image on a temporary helper VM: volumes, helper,
// conversion, export as an image import, and cleanup.
module NormalizationRun {
  import opened Wrappers
  import opened World
  import opened CloudApi
  import opened HelperAccess
  import Nics

  // ---------- Traces ----------

  /** After `start`, a volume is deleted only when an image exported from it was seen AVAILABLE before. */
  ghost predicate EvidenceKept(log: seq<Event>, start: nat) {
    forall j | start <= j < |log| && log[j].VolumeDeletion? ::
      exists k, i | start <= k < i < j ::
        && log[k].Uploaded? && log[i] == SeenAvailable(log[k].image)
        && log[j].volume in {log[k].source, log[k].scratch}
  }

  /**
   * After `start`, an image is filled only from a volume that was probed ready, or onto
   * which the staged disk was converted and which was then prepared.
   */
  ghost predicate UploadsPrepared(log: seq<Event>, start: nat) {
    forall j | start <= j < |log| && log[j].Uploaded? :: SourceReady(log[..j], start, log[j].source)
  }

  ghost predicate SourceReady(log: seq<Event>, start: nat, source: Id) {
    || (exists k | start <= k < |log| :: log[k] == ProbedReady(source))
    || (exists l, m, k | start <= l < m < k < |log| :: PreparedIn(log, l, m, k, source))
  }

  /** The disk was staged, converted onto the volume, and prepared there. */
  predicate PreparedIn(log: seq<Event>, l: nat, m: nat, k: nat, source: Id)
    requires l < m < k < |log|
  {
    log[l] == Staged && log[m] == Converted(source) && log[k] == Prepared(source)
  }

  /** The events of one export, complete or broken off. */
  ghost predicate ExportLog(before: seq<Event>, after: seq<Event>, image: Id, source: Id, scratch: Id, done: bool) {
    if done then
      after == before + [ImageRequested(image), ImageGranted(image), Uploaded(image, source, scratch), SeenAvailable(image)]
    else
      || after == before + [ImageRequested(image)]
      || (after == before + [ImageRequested(image), ImageGranted(image)] && source == scratch)
      || after == before + [ImageRequested(image), ImageGranted(image), OtherChange]
      || after == before + [ImageRequested(image), ImageGranted(image), Uploaded(image, source, scratch)]
  }

  /** The events of a cleanup: no image is requested or filled, and only these volumes are deleted. */
  ghost predicate CleanupLog(before: seq<Event>, after: seq<Event>, volumes: set<Id>) {
    && before <= after
    && forall i | |before| <= i < |after| ::
         && !after[i].ImageRequested? && !after[i].Uploaded? && !after[i].NormalizationStarted?
         && (after[i].VolumeDeletion? ==> after[i].volume in volumes)
  }

  /** A whole run: quiet until the export, then the export, then the cleanup. */
  lemma WholeRun(l0: seq<Event>, start: nat, l1: seq<Event>, l2: seq<Event>, image: Id, source: Id, scratch: Id, done: bool)
    requires start <= |l0| && Quiet(l0, start) && NoStart(l0, start)
    requires ExportLog(l0, l1, image, source, scratch, done)
    requires SourceReady(l0, start, source)
    requires if done then CleanupLog(l1, l2, {source, scratch}) else l2 == l1
    ensures EvidenceKept(l2, start) && UploadsPrepared(l2, start)
    ensures OneRequest(l2, start) && NoStart(l2, start)
  {
    forall j | start <= j < |l2| && l2[j].Uploaded?
      ensures SourceReady(l2[..j], start, l2[j].source)
    {
      assert j == |l0| + 2 && l2[..j][..|l0|] == l0;
      LaterStillReady(l0, l2[..j], start, source);
    }
    forall j | start <= j < |l2| && l2[j].VolumeDeletion?
      ensures exists k, i | start <= k < i < j ::
        && l2[k].Uploaded? && l2[i] == SeenAvailable(l2[k].image)
        && l2[j].volume in {l2[k].source, l2[k].scratch}
    {
      var k, i := |l0| + 2, |l0| + 3;
      assert j > i && l2[k] == Uploaded(image, source, scratch) && l2[i] == SeenAvailable(image);
    }
  }

  lemma LaterStillReady(a: seq<Event>, b: seq<Event>, start: nat, source: Id)
    requires a <= b && SourceReady(a, start, source)
    ensures SourceReady(b, start, source)
  {
    hide PreparedIn;
    if k :| start <= k < |a| && a[k] == ProbedReady(source) {
      assert b[k] == ProbedReady(source);
    } else {
      var l: nat, m: nat, k: nat :| start <= l < m < k < |a| && PreparedIn(a, l, m, k, source);
      StillPreparedIn(a, b, l, m, k, source);
    }
  }

  lemma StillPreparedIn(a: seq<Event>, b: seq<Event>, l: nat, m: nat, k: nat, source: Id)
    requires a <= b && l < m < k < |a| && PreparedIn(a, l, m, k, source)
    ensures PreparedIn(b, l, m, k, source)
  {
  }

  // ---------- Volumes ----------

  predicate IsNormalizationVolume(v: Volume, p: Project, sha: Sha, purpose: Purpose, performance: string) {
    v.project == p && v.managed && v.purpose == purpose && Sprint(v.sha) == sha[..32] && v.performance == performance
  }

  predicate Usable(v: Volume) {
    v.status.VolumeAvailable? || v.status.VolumeAttached? || v.status.VolumeCreating? || v.status.VolumeDownloading?
  }

  /** The labels by which a volume is found. */
  lemma VolumeLabels(v: Volume, p: Project, sha: Sha, purpose: Purpose, performance: string)
    ensures IsNormalizationVolume(v, p, sha, purpose, performance) <==>
            v == Volume(p, true, purpose, Some(sha[..32]), performance, v.status)
  {
    assert |Sprint(None)| == 5 && |sha[..32]| == 32;
  }

  ghost predicate NoneUsable(w: World, p: Project, sha: Sha, purpose: Purpose, performance: string) {
    forall v | v in w.volumes && Usable(w.volumes[v]) :: !IsNormalizationVolume(w.volumes[v], p, sha, purpose, performance)
  }

  /** A labelled volume of this hash, purpose and performance class that has not failed. */
  method FindNormalizationVolume(c: Cloud, p: Project, sha: Sha, purpose: Purpose, performance: string)
    returns (ok: bool, found: Option<Id>)
    modifies c
    ensures Undisturbed(old(c.Now()), c.Now()) && Evolved(old(c.w), c.w)
    ensures ok <==> c.errors == old(c.errors)
    ensures ok && found.Some? ==>
              && found.value in c.w.volumes && IsNormalizationVolume(c.w.volumes[found.value], p, sha, purpose, performance)
              && c.w.volumes[found.value].status in {VolumeAvailable, VolumeAttached, VolumeCreating, VolumeDownloading}
    ensures ok && found.None? ==> NoneUsable(c.w, p, sha, purpose, performance)
  {
    hide Undisturbed, Evolved;
    found := None;
    ok := c.Read();
    if !ok {
      return;
    }
    var rest := c.w.volumes.Keys;
    while rest != {}
      invariant rest <= c.w.volumes.Keys
      invariant forall v | v in c.w.volumes && v !in rest && Usable(c.w.volumes[v]) ::
        !IsNormalizationVolume(c.w.volumes[v], p, sha, purpose, performance)
      decreases rest
    {
      var v :| v in rest;
      rest := rest - {v};
      if IsNormalizationVolume(c.w.volumes[v], p, sha, purpose, performance) && Usable(c.w.volumes[v]) {
        found := Some(v);
        return;
      }
    }
  }

  lemma VolumeReadyOver(volume: Id, attached: bool, w: World)
    ensures Settled(AwaitVolume(volume, attached), w) <==>
            volume in w.volumes && w.volumes[volume].status in {VolumeAvailable} + if attached then {VolumeAttached} else {}
    ensures Broken(AwaitVolume(volume, attached), w) <==> volume !in w.volumes || w.volumes[volume].status.VolumeError?
  {
  }

  /** Polls until the volume is usable as `attached` allows, fails, or the deadline passes. */
  method WaitVolume(c: Cloud, volume: Id, attached: bool) returns (ok: bool)
    modifies c
    ensures Undisturbed(old(c.Now()), c.Now())
    ensures AccessEvolves(old(c.w), c.w)
    ensures ok <==> c.errors == old(c.errors)
    ensures ok && !attached ==> c.log == old(c.log) + [SeenFree(volume)]
    ensures ok ==> volume in c.w.volumes
    ensures ok ==> c.w.volumes[volume].status.VolumeAvailable? || (attached && c.w.volumes[volume].status.VolumeAttached?)
    ensures Waited(old(c.answers), c.answers, c.polls, AwaitVolume(volume, attached), ok)
  {
    ghost var s0 := c.Now();
    ghost var what := AwaitVolume(volume, attached);
    PollingStarts(s0, what);
    AccessEvolved(c.w, c.w) by {
      EvolvedSelf(c.w);
    }
    hide Polling, Undisturbed, Evolved, AccessEvolves, Waited, InVain, Settled, Broken;
    for n := 0 to c.polls
      invariant Polling(s0, c.Now(), what, n) && c.polls == s0.polls
      invariant AccessEvolves(s0.w, c.w)
      invariant c.log == s0.log && c.errors == s0.errors
    {
      ghost var before := c.Now();
      var read := c.Poll(s0, what, n);
      VolumeReadyOver(volume, attached, c.w);
      AccessEvolved(before.w, c.w);
      AccessEvolvesTrans(s0.w, before.w, c.w);
      if !read {
        return false;
      }
      if volume !in c.w.volumes || c.w.volumes[volume].status.VolumeError? {
        c.GiveUp(s0, what);
        return false;
      }
      var status := c.w.volumes[volume].status;
      if status.VolumeAvailable? {
        ghost var last := c.Now();
        c.Note(SeenFree(volume));
        Trans(s0, last, c.Now());
        return true;
      }
      if attached && status.VolumeAttached? {
        return true;
      }
    }
    IsPolling(s0, c.Now(), what, c.polls);
    c.GiveUp(s0, what);
    return false;
  }

  lemma SameVolumes(a: World, b: World)
    requires Evolved(a, b)
    ensures a.volumes.Keys == b.volumes.Keys
  {
  }

  lemma VolumeAdded(w: World, id: Id, v: Volume)
    requires id !in w.volumes && VolumeLabelled(v)
    ensures Mild(w, CreateVolume(w, id, v)) && Labelled(w, CreateVolume(w, id, v))
  {
  }

  /** Reuses the labelled volume of an earlier run; one is created only if the listing shows none. */
  method EnsureVolume(c: Cloud, p: Project, sha: Sha, purpose: Purpose, performance: string)
    returns (r: Result<Id>)
    modifies c
    ensures Undisturbed(old(c.Now()), c.Now())
    ensures r.Ok? ==> r.value in c.w.volumes && IsNormalizationVolume(c.w.volumes[r.value], p, sha, purpose, performance)
    ensures r.Ok? <==> c.errors == old(c.errors)
    ensures c.w.volumes.Keys == old(c.w).volumes.Keys
            || exists seen :: Evolved(old(c.w), seen) && NoneUsable(seen, p, sha, purpose, performance)
  {
    hide Undisturbed, Evolved, NoneUsable;
    var ok, found := FindNormalizationVolume(c, p, sha, purpose, performance);
    if !ok {
      SameVolumes(old(c.w), c.w);
      return Err;
    }
    if found.Some? {
      SameVolumes(old(c.w), c.w);
      return Ok(found.value);
    }
    ghost var s1 := c.Now();
    var id := Fresh(c.w.volumes.Keys);
    var v := Volume(p, true, purpose, Some(sha[..32]), performance, VolumeCreating);
    VolumeAdded(c.w, id, v);
    ok := c.Change(CreateVolume(c.w, id, v));
    ghost var s2 := c.Now();
    Trans(old(c.Now()), s1, s2);
    if !ok {
      return Err;
    }
    ok := WaitVolume(c, id, true);
    Trans(old(c.Now()), s2, c.Now());
    if ok && id in s2.w.volumes {
      StillThere(s2, c.Now(), id);
    }
    return if ok then Ok(id) else Err;
  }

  // ---------- Helper servers ----------

  predicate IsHelperFor(s: Server, p: Project, sha: Sha) {
    s.project == p && s.managed && s.purpose == Normalization && Sprint(s.sha) == sha[..12]
  }

  /** Deleted on replacement: helpers of this hash, and helpers that carry no hash at all. */
  predicate IsStaleHelper(s: Server, p: Project, sha: Sha) {
    s.project == p && s.managed && s.purpose == Normalization
    && (s.sha in {None, Some("")} || s.sha == Some(sha[..12]))
  }

  /** The labels by which a helper is found; one without a hash is only found to be deleted. */
  lemma HelperLabels(s: Server, p: Project, sha: Sha)
    ensures IsHelperFor(s, p, sha) <==> s == Server(p, true, Normalization, Some(sha[..12]), s.status)
    ensures IsStaleHelper(s, p, sha) <==>
            IsHelperFor(s, p, sha) || s in {Server(p, true, Normalization, None, s.status), Server(p, true, Normalization, Some(""), s.status)}
    ensures IsHelperFor(s, p, sha) ==> IsHelper(s) && s.sha == Some(sha[..12])
    ensures IsHelper(s) && s.project == p && s.sha == Some(sha[..12]) ==> IsStaleHelper(s, p, sha)
  {
    if s.sha.None? {
      assert |Sprint(s.sha)| == 5 && |sha[..12]| == 12;
    }
  }

  /** A helper of an earlier run that is not yet DELETED. */
  method FindNormalizationHelper(c: Cloud, p: Project, sha: Sha) returns (ok: bool, found: Option<Id>)
    modifies c
    ensures Undisturbed(old(c.Now()), c.Now())
    ensures ok <==> c.errors == old(c.errors)
    ensures ok && found.Some? ==> found.value in c.w.servers && IsHelperFor(c.w.servers[found.value], p, sha)
    ensures ok && found.None? ==> HelpersWithin(c.w, p, sha, {})
    ensures c.answers == old(c.answers) + [Answer(AnyHelper(p, sha), if ok then Some(c.w) else None)]
  {
    hide Undisturbed, Evolved;
    found := None;
    ok := c.Read(AnyHelper(p, sha));
    if !ok {
      return;
    }
    var rest := c.w.servers.Keys;
    while rest != {}
      invariant rest <= c.w.servers.Keys
      invariant HelpersWithin(c.w, p, sha, rest)
      decreases rest
    {
      var i :| i in rest;
      rest := rest - {i};
      if IsHelperFor(c.w.servers[i], p, sha) && !c.w.servers[i].status.ServerDeleted? {
        found := Some(i);
        return;
      }
    }
  }

  ghost predicate ServersRelabelled(a: World, b: World) {
    forall i | i in b.servers :: i in a.servers && b.servers[i] == a.servers[i].(status := b.servers[i].status)
  }

  lemma ServersEvolve(a: World, b: World)
    requires Evolved(a, b)
    ensures ServersRelabelled(a, b)
  {
  }

  lemma ServersTrans(a: World, b: World, c: World)
    requires ServersRelabelled(a, b) && ServersRelabelled(b, c)
    ensures ServersRelabelled(a, c)
  {
  }

  lemma ServerOver(server: Id, w: World)
    ensures Settled(AwaitServer(server), w) <==> server in w.servers && w.servers[server].status.ServerActive?
    ensures Broken(AwaitServer(server), w) <==> server !in w.servers || w.servers[server].status in {ServerError, ServerDeleted}
  {
  }

  /** Polls until the server is ACTIVE, fails, or the deadline passes. */
  method WaitServer(c: Cloud, server: Id) returns (ok: bool)
    modifies c
    ensures Undisturbed(old(c.Now()), c.Now())
    ensures ServersRelabelled(old(c.w), c.w)
    ensures ok <==> c.errors == old(c.errors)
    ensures ok ==> server in c.w.servers && c.w.servers[server].status.ServerActive?
    ensures Waited(old(c.answers), c.answers, c.polls, AwaitServer(server), ok) && c.log == old(c.log)
  {
    ghost var s0 := c.Now();
    ghost var what := AwaitServer(server);
    PollingStarts(s0, what);
    ServersEvolve(c.w, c.w) by {
      EvolvedSelf(c.w);
    }
    hide Polling, Undisturbed, Evolved, ServersRelabelled, Waited, InVain, Settled, Broken;
    for n := 0 to c.polls
      invariant Polling(s0, c.Now(), what, n) && c.polls == s0.polls
      invariant ServersRelabelled(s0.w, c.w)
      invariant c.errors == s0.errors && c.log == s0.log
    {
      ghost var before := c.Now();
      var read := c.Poll(s0, what, n);
      ServerOver(server, c.w);
      ServersEvolve(before.w, c.w);
      ServersTrans(s0.w, before.w, c.w);
      if !read {
        return false;
      }
      if server !in c.w.servers || c.w.servers[server].status in {ServerError, ServerDeleted} {
        c.GiveUp(s0, what);
        return false;
      }
      if c.w.servers[server].status.ServerActive? {
        return true;
      }
    }
    IsPolling(s0, c.Now(), what, c.polls);
    c.GiveUp(s0, what);
    return false;
  }

  /** Apart from helpers of this hash, every server is as it was. */
  ghost predicate UntouchedServers(a: World, b: World, p: Project, sha: Sha) {
    && b.servers.Keys == a.servers.Keys
    && forall i | i in a.servers && !IsStaleHelper(a.servers[i], p, sha) :: b.servers[i] == a.servers[i]
  }

  lemma NothingTouched(w: World, p: Project, sha: Sha)
    ensures UntouchedServers(w, w, p, sha) && HelpersWithin(w, p, sha, w.servers.Keys)
  {
  }

  lemma OthersUntouched(a: World, b: World, i: Id, p: Project, sha: Sha)
    requires UntouchedServers(a, b, p, sha) && i in b.servers && IsStaleHelper(b.servers[i], p, sha)
    ensures UntouchedServers(a, DeleteServer(b, i), p, sha)
  {
  }

  lemma NotAHelper(w: World, i: Id, p: Project, sha: Sha, rest: set<Id>)
    requires i in w.servers && !IsStaleHelper(w.servers[i], p, sha) && HelpersWithin(w, p, sha, rest + {i})
    ensures HelpersWithin(w, p, sha, rest)
  {
    HelperLabels(w.servers[i], p, sha);
  }

  lemma HelperRemoved(w: World, i: Id, p: Project, sha: Sha, rest: set<Id>)
    requires i !in rest
    ensures Mild(w, DeleteServer(w, i)) && Labelled(w, DeleteServer(w, i))
    ensures HelpersWithin(w, p, sha, rest + {i}) ==> HelpersWithin(DeleteServer(w, i), p, sha, rest)
  {
    RemovalKeepsLabels(w, i);
    hide Labelled;
  }

  lemma RemovalKeepsLabels(w: World, i: Id)
    ensures Labelled(w, DeleteServer(w, i))
  {
  }

  /** Deletes every listed helper of this hash. Success means that none is live. */
  method RemoveStaleNormalizationHelpers(c: Cloud, p: Project, sha: Sha) returns (ok: bool)
    modifies c
    ensures Undisturbed(old(c.Now()), c.Now())
    ensures ok ==> HelpersWithin(c.w, p, sha, {})
    ensures ok <==> c.errors == old(c.errors)
    ensures exists seen :: Evolved(old(c.w), seen) && UntouchedServers(seen, c.w, p, sha)
  {
    hide Undisturbed, UntouchedServers, HelpersWithin, Evolved, IsStaleHelper, Mild, Labelled, DeleteServer;
    ok := c.Read();
    ghost var seen := c.w;
    NothingTouched(seen, p, sha);
    if !ok {
      return;
    }
    var rest := c.w.servers.Keys;
    while rest != {}
      invariant Undisturbed(old(c.Now()), c.Now())
      invariant rest <= c.w.servers.Keys
      invariant UntouchedServers(seen, c.w, p, sha)
      invariant c.errors == old(c.errors)
      invariant HelpersWithin(c.w, p, sha, rest)
      decreases rest
    {
      var i :| i in rest;
      ghost var left := rest;
      rest := rest - {i};
      assert left == rest + {i};
      if !IsStaleHelper(c.w.servers[i], p, sha) {
        NotAHelper(c.w, i, p, sha, rest);
      }
      if IsStaleHelper(c.w.servers[i], p, sha) {
        ghost var before := c.Now();
        HelperRemoved(c.w, i, p, sha, rest);
        OthersUntouched(seen, c.w, i, p, sha);
        ok := c.Change(DeleteServer(c.w, i));
        Trans(old(c.Now()), before, c.Now());
        if !ok {
          return;
        }
      }
    }
  }

  lemma HelperStarted(a: Snapshot, b: Snapshot, id: Id, s: Server, p: Project, sha: Sha)
    requires HelpersWithin(a.w, p, sha, {}) && id !in a.w.servers
    requires s == Server(p, true, Normalization, Some(sha[..12]), ServerCreating)
    requires Called(a, b, CreateServer(a.w, id, s), OtherChange) && Grown(a, b)
    ensures Advanced(a, b) && HelpersWithin(b.w, p, sha, {id})
  {
    if OneHelper(a.w) {
      CreateServerKeepsOneHelper(a.w, id, s, sha);
    }
    hide OneHelper, OneImport, Explained, Labelled;
    if OneImport(a.w) {
      NoNewKeepsOne(a.w, b.w);
    }
  }

  /**
   * Starts the helper VM and waits for its agent. Called only when no helper of
   * this hash is live, it leaves at most the new one.
   */
  method CreateNormalizationHelper(c: Cloud, p: Project, sha: Sha) returns (r: Result<Id>)
    requires HelpersWithin(c.w, p, sha, {})
    modifies c
    ensures Advanced(old(c.Now()), c.Now())
    ensures r.Ok? <==> c.errors == old(c.errors)
    ensures r.Ok? ==> HelpersWithin(c.w, p, sha, {r.value})
    ensures r.Ok? ==> |c.log| > |old(c.log)| && c.log[|c.log| - 1] == AgentAnswered(r.value)
    ensures r.Ok? ==> r.value in c.w.servers && r.value !in old(c.w).servers
    ensures r.Ok? ==> IsHelperFor(c.w.servers[r.value], p, sha) && c.w.servers[r.value].status.ServerActive?
  {
    hide Undisturbed, Advanced, HelpersWithin, Grown, Waited;
    var id := Fresh(c.w.servers.Keys);
    var s := Server(p, true, Normalization, Some(sha[..12]), ServerCreating);
    ghost var s0 := c.Now();
    var ok := c.Call(CreateServer(c.w, id, s), OtherChange);
    ghost var s1 := c.Now();
    HelperStarted(s0, s1, id, s, p, sha);
    if !ok {
      return Err;
    }
    ok := WaitServer(c, id);
    ghost var s2 := c.Now();
    AdvancedTrans(s0, s1, s2);
    StillWithin(s1, s2, p, sha, {id});
    if !ok {
      return Err;
    }
    ok := c.Step(AgentAnswered(id)); // waitServerAgent
    AdvancedTrans(s0, s2, c.Now());
    StillWithin(s2, c.Now(), p, sha, {id});
    return if ok then Ok(id) else Err;
  }

  // ---------- Export ----------

  function Import(p: Project, sha: Sha, organization: set<Project>): Image {
    Image(p, ImageCreating, Some(sha[..32]), Some(AGENT_V2), true, {}, false, organization)
  }

  /** The exported image: available, owned by p, labelled for this hash, agent enabled. */
  ghost predicate IsExported(w: World, id: Id, p: Project, sha: Sha) {
    && id in w.images
    && w.images[id] == Import(p, sha, w.images[id].organization).(status := ImageAvailable)
  }

  lemma ImagesStart(w: World)
    ensures ImagesEvolve(w, w)
  {
  }

  lemma ImagesMove(a: World, b: World, c: World)
    requires ImagesEvolve(a, b) && (Evolved(b, c) || ImagesEvolve(b, c))
    ensures ImagesEvolve(a, c)
  {
  }

  lemma ImageOver(image: Id, w: World)
    ensures Settled(AwaitAvailable(image), w) <==> image in w.images && w.images[image].status.ImageAvailable?
    ensures Broken(AwaitAvailable(image), w) <==> image !in w.images || w.images[image].status.ImageError?
  {
  }

  /** Polls until the image is AVAILABLE, fails, or the deadline passes. */
  method WaitImage(c: Cloud, image: Id) returns (ok: bool)
    modifies c
    ensures ok ==> image in c.w.images && c.w.images[image].status.ImageAvailable?
    ensures ImagesEvolve(old(c.w), c.w)
    ensures c.log == old(c.log) + (if ok then [SeenAvailable(image)] else [])
    ensures ok <==> c.errors == old(c.errors)
    ensures Undisturbed(old(c.Now()), c.Now())
    ensures Waited(old(c.answers), c.answers, c.polls, AwaitAvailable(image), ok)
  {
    ghost var s0 := c.Now();
    ghost var what := AwaitAvailable(image);
    PollingStarts(s0, what);
    hide Polling, Undisturbed, ImagesEvolve, Evolved, Waited, InVain, Settled, Broken;
    ImagesStart(c.w);
    for n := 0 to c.polls
      invariant Polling(s0, c.Now(), what, n) && c.polls == s0.polls
      invariant ImagesEvolve(s0.w, c.w)
      invariant c.log == s0.log && c.errors == s0.errors
    {
      ghost var before := c.Now();
      var read := c.Poll(s0, what, n);
      ImageOver(image, c.w);
      ImagesMove(s0.w, before.w, c.w);
      if !read {
        return false;
      }
      if image !in c.w.images || c.w.images[image].status.ImageError? {
        c.GiveUp(s0, what);
        return false;
      }
      if c.w.images[image].status.ImageAvailable? {
        ghost var last := c.Now();
        c.Note(SeenAvailable(image));
        Trans(s0, last, c.Now());
        return true;
      }
    }
    IsPolling(s0, c.Now(), what, c.polls);
    c.GiveUp(s0, what);
    return false;
  }

  /** What an export may do: request one import, which keeps the single-import invariant if there was none. */
  ghost predicate ExportStep(a: Snapshot, b: Snapshot, p: Project, sha: Sha) {
    && Grown(a, b) && OldImports(a, b)
    && (OneHelperAlways(a) ==> OneHelperAlways(b))
    && (OneImportAlways(a) && NoImport(a.w, p, sha) ==> OneImportAlways(b))
    && NoNewHelper(a.w, b.w) && VolumesKept(a.w, b.w)
  }

  lemma ImportRequested(a: Snapshot, b: Snapshot, id: Id, img: Image, p: Project, sha: Sha)
    requires id !in Seen(a) && img.owner == p && IsImport(img) && img.sha == Some(sha[..32])
    requires Called(a, b, CreateImage(a.w, id, img), ImageRequested(id)) && Grown(a, b)
    ensures ExportStep(a, b, p, sha)
  {
    if OneImport(a.w) && NoImport(a.w, p, sha) {
      CreateImageKeepsOneImport(a.w, id, img, sha);
    }
    hide OneImport, OneHelper, NoImport, Explained, Labelled;
    NoNewKeepsOne(a.w, b.w);
  }

  lemma ExportStepThen(a: Snapshot, b: Snapshot, c: Snapshot, p: Project, sha: Sha)
    requires ExportStep(a, b, p, sha) && Undisturbed(b, c)
    ensures ExportStep(a, c, p, sha)
  {
    Grows(b, c);
    GrownTrans(a, b, c);
    hide Grown;
    OldImportsTrans(a, b, c);
  }

  lemma ImageRemoved(w: World, id: Id)
    ensures Mild(w, DeleteImage(w, id)) && Labelled(w, DeleteImage(w, id))
  {
  }

  /** Creates the import, which has no data yet. */
  method RequestImport(c: Cloud, p: Project, sha: Sha) returns (ok: bool, id: Id, ghost img: Image)
    modifies c
    ensures ExportStep(old(c.Now()), c.Now(), p, sha)
    ensures c.log == old(c.log) + [ImageRequested(id)] + if ok then [ImageGranted(id)] else []
    ensures c.errors == if ok then old(c.errors) else old(c.errors) + [Unanswered]
    ensures img == Import(p, sha, img.organization) && IsImport(img)
    ensures ok ==> id in c.w.images && c.w.images[id] == img
    ensures c.w.images.Keys <= old(c.w).images.Keys + {id} && id !in Seen(old(c.Now()))
  {
    id := Fresh(c.issued + c.w.images.Keys);
    var organization: set<Project> := *;
    img := Import(p, sha, organization);
    ghost var s0 := c.Now();
    ok := c.Call(CreateImage(c.w, id, Import(p, sha, organization)), ImageRequested(id));
    ImportRequested(s0, c.Now(), id, img, p, sha);
    if ok {
      ghost var s1 := c.Now();
      c.Note(ImageGranted(id));
      FillRecorded(s0, s1, c.Now(), p, sha);
    }
  }

  /**
   * Requests the image import, fills it from the source volume and waits for it.
   * A failed fill withdraws the import; a failed wait leaves it in the cloud.
   */
  method ExportNormalizedVolume(c: Cloud, p: Project, sha: Sha, source: Id, scratch: Id)
    returns (r: Result<Id>, ghost image: Id)
    modifies c
    ensures ExportStep(old(c.Now()), c.Now(), p, sha)
    ensures ExportLog(old(c.log), c.log, image, source, scratch, r.Ok?)
    ensures r.Ok? ==> c.errors == old(c.errors)
    ensures r.Ok? ==> r.value == image && IsExported(c.w, image, p, sha)
    ensures r.Err? && source != scratch ==> old(c.errors) < c.errors
    ensures c.w.images.Keys <= old(c.w).images.Keys + {image} && image !in Seen(old(c.Now()))
    ensures r.Ok? && !NoImport(c.w, p, sha) ==> !OneImportAlways(c.Now())
  {
    hide Undisturbed, ExportStep, Mild, Labelled, Waited, ImagesEvolve, OldImports, NoImport, OneImport, OneImportAlways, Evolved, Seen;
    ghost var s0 := c.Now();
    var ok, id;
    ghost var img;
    ok, id, img := RequestImport(c, p, sha);
    image := id;
    ghost var s1 := c.Now();
    if !ok || source == scratch {
      return Err, image;
    }
    assert c.w.images.Keys <= s0.w.images.Keys + {image};
    ok := c.Fill(id, source, scratch); // convert to QCOW2, check and upload
    ghost var s2 := c.Now();
    if !ok {
      ExportStepThen(s0, s1, s2, p, sha);
      ImageRemoved(c.w, id);
      var _ := c.Change(DeleteImage(c.w, id));
      ExportStepThen(s0, s2, c.Now(), p, sha);
      assert s0.errors + [Unanswered] <= c.errors;
      return Err, image;
    }
    FillRecorded(s0, s1, s2, p, sha);
    ok := WaitImage(c, id);
    ExportStepThen(s0, s2, c.Now(), p, sha);
    Grows(s2, c.Now());
    NoNewImage(s2, c.Now());
    if !ok {
      return Err, image;
    }
    Finished(s2.w, c.w, id, img);
    if !NoImport(c.w, p, sha) {
      RivalWasThere(s1, s2, c.Now(), p, sha, id);
    }
    return Ok(id), image;
  }

  /** An import that is still unfinished when the new one is available was a second one when that was requested. */
  lemma RivalWasThere(a: Snapshot, c: Snapshot, d: Snapshot, p: Project, sha: Sha, id: Id)
    requires c == a.(log := c.log) && Undisturbed(c, d)
    requires id in a.w.images && IsImport(a.w.images[id]) && a.w.images[id].owner == p && a.w.images[id].sha == Some(sha[..32])
    requires id in d.w.images && d.w.images[id].status.ImageAvailable?
    requires !NoImport(d.w, p, sha)
    ensures !OneImportAlways(d)
  {
    var i :| i in d.w.images && d.w.images[i].owner == p && d.w.images[i].sha == Some(sha[..32]) && IsImport(d.w.images[i]);
    assert i != id && i in c.w.images && i in a.w.images;
    assert IsImport(a.w.images[i]);
    assert !OneImport(a.w);
  }

  lemma FillRecorded(a: Snapshot, b: Snapshot, c: Snapshot, p: Project, sha: Sha)
    requires ExportStep(a, b, p, sha) && c == b.(log := c.log) && b.log <= c.log
    ensures ExportStep(a, c, p, sha)
  {
    hide Justified, Labelled;
  }

  lemma Finished(a: World, b: World, id: Id, img: Image)
    requires id in a.images && a.images[id] == img && ImagesEvolve(a, b)
    ensures b.images[id] == img.(status := b.images[id].status)
  {
  }

  // ---------- Cleanup ----------

  /** What a cleanup may do: delete these volumes, and create neither imports nor helpers. */
  ghost predicate CleanupStep(a: Snapshot, b: Snapshot, volumes: set<Id>) {
    && Grown(a, b) && CleanupLog(a.log, b.log, volumes)
    && (OneImportAlways(b) ==> OneImportAlways(a))
    && (OneHelperAlways(a) ==> OneHelperAlways(b))
    && (OneImportAlways(a) ==> OneImportAlways(b))
    && CleanedUp(a.w, b.w, volumes)
  }

  ghost predicate CleanedUp(a: World, b: World, volumes: set<Id>) {
    && NoNewImport(a, b) && NoNewHelper(a, b)
    && (forall v | v in a.volumes && v !in volumes :: v in b.volumes)
    && (forall v | v in volumes && v !in a.volumes :: v !in b.volumes)
    && ImagesEvolve(a, b)
  }

  lemma CleanedUpTrans(a: World, b: World, c: World, volumes: set<Id>)
    requires CleanedUp(a, b, volumes) && CleanedUp(b, c, volumes)
    ensures CleanedUp(a, c, volumes)
  {
  }

  lemma CleanupQuiet(a: Snapshot, b: Snapshot, volumes: set<Id>)
    requires Undisturbed(a, b) && ImagesEvolve(a.w, b.w) && b.w.volumes.Keys == a.w.volumes.Keys
    ensures CleanupStep(a, b, volumes)
  {
  }

  lemma CleanupTrans(a: Snapshot, b: Snapshot, c: Snapshot, volumes: set<Id>)
    requires CleanupStep(a, b, volumes) && CleanupStep(b, c, volumes)
    ensures CleanupStep(a, c, volumes)
  {
    GrownTrans(a, b, c);
    CleanedUpTrans(a.w, b.w, c.w, volumes);
    hide Explained, Labelled, CleanedUp, OneImportAlways, OneHelperAlways;
  }

  lemma VolumeRemoved(a: Snapshot, b: Snapshot, volume: Id, volumes: set<Id>)
    requires volume in volumes
    requires Called(a, b, DeleteVolume(a.w, volume), VolumeDeletion(volume)) && Grown(a, b)
    ensures CleanupStep(a, b, volumes)
  {
    ImagesStart(a.w);
    hide OneImport, OneHelper;
    NoNewKeepsOne(a.w, b.w);
  }

  /**
   * Waits until the volume is detached, then deletes it. It fails with a call that fails,
   * when the volume is gone, or when it never was AVAILABLE while there was time.
   */
  method WaitVolumeDetachedAndDelete(c: Cloud, volume: Id, ghost volumes: set<Id>) returns (ok: bool)
    requires volume in volumes
    modifies c
    ensures CleanupStep(old(c.Now()), c.Now(), volumes)
    ensures ok <==> c.errors == old(c.errors)
    ensures ok ==> volume !in c.w.volumes
    ensures c.errors in {old(c.errors), old(c.errors) + [Unanswered]} ||
            Waited(old(c.answers), c.answers, c.polls, AwaitDetached(volume), false)
    ensures ok ==> Waited(old(c.answers), c.answers, c.polls, AwaitDetached(volume), true)
  {
    ghost var s0 := c.Now();
    ghost var what := AwaitDetached(volume);
    PollingStarts(s0, what);
    ImagesStart(c.w);
    hide CleanupStep, Polling, Undisturbed, Evolved, ImagesEvolve, Waited, InVain, Mild, Labelled, Settled, Broken;
    for n := 0 to c.polls
      invariant Polling(s0, c.Now(), what, n) && c.polls == s0.polls
      invariant ImagesEvolve(s0.w, c.w) && c.w.volumes.Keys == s0.w.volumes.Keys
      invariant c.errors == s0.errors
    {
      ghost var before := c.Now();
      ok := c.Poll(s0, what, n);
      VolumeOver(volume, c.w);
      ImagesMove(s0.w, before.w, c.w);
      SameVolumes(before.w, c.w);
      CleanupQuiet(s0, c.Now(), volumes);
      if !ok {
        return;
      }
      if volume !in c.w.volumes {
        c.GiveUp(s0, what);
        CleanupQuiet(s0, c.Now(), volumes);
        return false;
      }
      if c.w.volumes[volume].status.VolumeAvailable? {
        ghost var seen := c.Now();
        c.Drift();
        ghost var moved := c.Now();
        CleanupRead(seen, moved, volumes);
        CleanupTrans(s0, seen, moved, volumes);
        DeletionKeepsLabels(c.w, volume);
        ok := c.Call(DeleteVolume(c.w, volume), VolumeDeletion(volume));
        VolumeRemoved(moved, c.Now(), volume, volumes);
        CleanupTrans(s0, moved, c.Now(), volumes);
        return;
      }
    }
    IsPolling(s0, c.Now(), what, c.polls);
    c.GiveUp(s0, what);
    CleanupQuiet(s0, c.Now(), volumes);
    return false;
  }

  lemma VolumeOver(volume: Id, w: World)
    ensures Settled(AwaitDetached(volume), w) <==> volume in w.volumes && w.volumes[volume].status.VolumeAvailable?
    ensures Broken(AwaitDetached(volume), w) <==> volume !in w.volumes
  {
  }

  lemma DeletionKeepsLabels(w: World, volume: Id)
    ensures Labelled(w, DeleteVolume(w, volume))
  {
    LabelledSelf(w);
  }

  lemma CleanupRead(a: Snapshot, b: Snapshot, volumes: set<Id>)
    requires Undisturbed(a, b) && Evolved(a.w, b.w)
    ensures CleanupStep(a, b, volumes)
  {
    assert ImagesEvolve(a.w, b.w);
    hide Undisturbed, CleanupStep;
    CleanupQuiet(a, b, volumes);
  }

  /** Nothing labelled for this hash is left in project p. */
  ghost predicate NothingLeft(w: World, p: Project, sha: Sha) {
    HelpersWithin(w, p, sha, {}) && NoAccess(w, p, sha)
  }

  /** Deletes the helper, then the volumes it frees. */
  method DeleteHelperAndVolumes(c: Cloud, p: Project, sha: Sha, helper: Id, source: Id, scratch: Id)
    modifies c
    ensures CleanupStep(old(c.Now()), c.Now(), {source, scratch})
    ensures c.errors == old(c.errors) ==> source !in c.w.volumes && scratch !in c.w.volumes
    ensures c.errors == old(c.errors) && HelpersWithin(old(c.w), p, sha, {helper}) ==> HelpersWithin(c.w, p, sha, {})
  {
    hide CleanupStep, Undisturbed, HelpersWithin, Evolved, Mild, Labelled, Waited, Grown, DeleteServer;
    ghost var vs := {source, scratch};
    ghost var s0 := c.Now();
    c.Drift();
    ghost var moved := c.Now();
    CleanupRead(s0, moved, vs);
    StillWithin(s0, moved, p, sha, {helper});
    HelperRemoved(c.w, helper, p, sha, {});
    assert {} + {helper} == {helper};
    var ok := c.Change(DeleteServer(c.w, helper));
    ghost var s1 := c.Now();
    CleanupHelper(moved, s1, helper, vs);
    CleanupTrans(s0, moved, s1, vs);
    ok := WaitVolumeDetachedAndDelete(c, source, vs);
    ghost var s2 := c.Now();
    CleanupTrans(s0, s1, s2, vs);
    ok := WaitVolumeDetachedAndDelete(c, scratch, vs);
    ghost var s3 := c.Now();
    CleanupTrans(s0, s2, s3, vs);
    GoneStays(s1, s2, p, sha, source, vs);
    GoneStays(s2, s3, p, sha, source, vs);
    GoneStays(moved, s1, p, sha, source, vs);
    GoneStays(s0, moved, p, sha, source, vs);
  }

  /**
   * Deletes helper, volumes and access; errors are only reported. Without any
   * error the two volumes are gone and, if this was the only live helper, nothing
   * labelled for this hash is left.
   */
  method CleanupNormalizationResources(
    c: Cloud, p: Project, sha: Sha, helper: Id, access: Option<Access>, source: Id, scratch: Id)
    modifies c
    ensures CleanupStep(old(c.Now()), c.Now(), {source, scratch})
    ensures c.errors == old(c.errors) ==> source !in c.w.volumes && scratch !in c.w.volumes
    ensures c.errors == old(c.errors) && HelpersWithin(old(c.w), p, sha, {helper}) ==> NothingLeft(c.w, p, sha)
    ensures access.Some? && c.errors == old(c.errors) ==> IsWithdrawn(c.w, access.value)
  {
    hide CleanupStep, Undisturbed, HelpersWithin, NoAccess, OnlyAccessRemoved, Grown, IsWithdrawn;
    ghost var vs := {source, scratch};
    ghost var s0 := c.Now();
    DeleteHelperAndVolumes(c, p, sha, helper, source, scratch);
    ghost var s3 := c.Now();
    CleanupHelperSSHAccess(c, access);
    ghost var s4 := c.Now();
    Grows(s3, s4);
    if access.Some? && s4.errors == s3.errors {
      AccessDeleted(s3.w, s4.w, access.value);
    }
    CleanupSame(s3, s4, vs);
    CleanupTrans(s0, s3, s4, vs);
    var ok := CleanupStaleHelperAccess(c, p, sha);
    Grows(s4, c.Now());
    if access.Some? {
      StillDeleted(s4.w, c.w, access.value, p, sha);
    }
    CleanupAccess(s4, c.Now(), p, sha, vs);
    CleanupTrans(s0, s4, c.Now(), vs);
    GoneStays(s3, c.Now(), p, sha, source, vs) by { CleanupTrans(s3, s4, c.Now(), vs); }
    GoneStays(s3, c.Now(), p, sha, scratch, vs) by { CleanupTrans(s3, s4, c.Now(), vs); }
    GoneStays(s0, s3, p, sha, source, vs);
    GoneStays(s3, s4, p, sha, source, vs);
    GoneStays(s4, c.Now(), p, sha, source, vs);
  }

  /** What the run was granted is gone, whether or not it carries labels. */
  predicate IsWithdrawn(w: World, access: Access) {
    access.keypair !in w.keypairs && access.group !in w.groups && (access.ip.Some? ==> access.ip.value !in w.ips)
  }

  lemma AccessDeleted(a: World, b: World, access: Access)
    requires b.ips == a.ips - (if access.ip.Some? then {access.ip.value} else {})
    requires b.keypairs == a.keypairs - {access.keypair} && b.groups == a.groups - {access.group}
    ensures IsWithdrawn(b, access)
  {
  }

  lemma StillDeleted(a: World, b: World, access: Access, p: Project, sha: Sha)
    requires OnlyAccessRemoved(a, b, p, sha)
    ensures IsWithdrawn(a, access) ==> IsWithdrawn(b, access)
  {
  }

  lemma CleanupSame(a: Snapshot, b: Snapshot, vs: set<Id>)
    requires Undisturbed(a, b) && b.w.images == a.w.images && b.w.volumes == a.w.volumes
    ensures CleanupStep(a, b, vs)
  {
    ImagesStart(a.w);
    hide Undisturbed, CleanupStep;
    CleanupQuiet(a, b, vs);
  }

  lemma CleanupHelper(a: Snapshot, b: Snapshot, helper: Id, vs: set<Id>)
    requires Undisturbed(a, b) && b.w in {a.w, DeleteServer(a.w, helper)}
    ensures CleanupStep(a, b, vs)
  {
    ImagesStart(a.w);
    hide Undisturbed, CleanupStep, ImagesEvolve;
    CleanupQuiet(a, b, vs);
  }

  lemma CleanupAccess(a: Snapshot, b: Snapshot, p: Project, sha: Sha, vs: set<Id>)
    requires Undisturbed(a, b) && OnlyAccessRemoved(a.w, b.w, p, sha)
    ensures CleanupStep(a, b, vs)
  {
    hide Undisturbed, CleanupStep;
    CleanupQuiet(a, b, vs);
  }

  lemma GoneStays(a: Snapshot, b: Snapshot, p: Project, sha: Sha, volume: Id, vs: set<Id>)
    requires CleanupStep(a, b, vs) && volume in vs
    ensures a.errors <= b.errors
    ensures HelpersWithin(a.w, p, sha, {}) ==> HelpersWithin(b.w, p, sha, {})
    ensures volume !in a.w.volumes ==> volume !in b.w.volumes
  {
  }

  // ---------- The whole run ----------

  /** What a normalization run promises about everything between its start and its end. */
  ghost predicate RunStep(a: Snapshot, b: Snapshot, p: Project, sha: Sha) {
    && Grown(a, b) && OldImports(a, b)
    && (OneHelperAlways(a) ==> OneHelperAlways(b))
    && (OneImportAlways(a) && NoImport(a.w, p, sha) ==> OneImportAlways(b))
    && EvidenceKept(b.log, |a.log|)
    && UploadsPrepared(b.log, |a.log|)
    && OneRequest(b.log, |a.log|)
    && NoStart(b.log, |a.log|)
    && (forall v | v in a.w.volumes && v !in b.w.volumes :: WasExported(b.log, |a.log|, v))
  }

  ghost predicate OneRequest(log: seq<Event>, start: nat) {
    forall i, j | start <= i < |log| && start <= j < |log| && log[i].ImageRequested? && log[j].ImageRequested? :: i == j
  }

  /** An image exported from this volume was seen AVAILABLE. */
  ghost predicate WasExported(log: seq<Event>, start: nat, volume: Id) {
    exists k, i | start <= k < i < |log| ::
      log[k].Uploaded? && log[i] == SeenAvailable(log[k].image) && volume in {log[k].source, log[k].scratch}
  }

  lemma QuietRun(a: Snapshot, b: Snapshot, p: Project, sha: Sha)
    requires Undisturbed(a, b) || Advanced(a, b)
    ensures RunStep(a, b, p, sha)
  {
  }

  /** A quiet start, an export from a ready source and, if that succeeded, a cleanup make a run. */
  lemma ComposeRun(a: Snapshot, b: Snapshot, c: Snapshot, d: Snapshot, p: Project, sha: Sha,
                   image: Id, source: Id, scratch: Id, done: bool)
    requires Undisturbed(a, b) || Advanced(a, b)
    requires SourceReady(b.log, |a.log|, source)
    requires ExportStep(b, c, p, sha) && ExportLog(b.log, c.log, image, source, scratch, done)
    requires if done then CleanupStep(c, d, {source, scratch}) else d == c
    ensures RunStep(a, d, p, sha)
  {
    hide EvidenceKept, UploadsPrepared, OneRequest, NoStart, WasExported, NoImport, OneImportAlways, OneHelperAlways,
         SourceReady, Undisturbed, Advanced, ExportStep, ExportLog, CleanupStep, OldImports, Grown;
    TraceOfRun(a, b, c, d, p, sha, image, source, scratch, done);
    InvariantsOfRun(a, b, c, d, p, sha, source, scratch, done);
    VolumesOfRun(a, b, c, d, p, sha, image, source, scratch, done);
  }

  lemma TraceOfRun(a: Snapshot, b: Snapshot, c: Snapshot, d: Snapshot, p: Project, sha: Sha,
                   image: Id, source: Id, scratch: Id, done: bool)
    requires Undisturbed(a, b) || Advanced(a, b)
    requires SourceReady(b.log, |a.log|, source)
    requires ExportStep(b, c, p, sha) && ExportLog(b.log, c.log, image, source, scratch, done)
    requires if done then CleanupStep(c, d, {source, scratch}) else d == c
    ensures EvidenceKept(d.log, |a.log|) && UploadsPrepared(d.log, |a.log|)
    ensures OneRequest(d.log, |a.log|) && NoStart(d.log, |a.log|)
  {
    assert a.log <= b.log && Quiet(b.log, |a.log|) && NoStart(b.log, |a.log|);
    hide Kept, Mild, NoNewImport, NoNewHelper, VolumesKept, OldImports, Seen, ImagesEvolve;
    WholeRun(b.log, |a.log|, c.log, d.log, image, source, scratch, done);
  }

  lemma VolumesOfRun(a: Snapshot, b: Snapshot, c: Snapshot, d: Snapshot, p: Project, sha: Sha,
                     image: Id, source: Id, scratch: Id, done: bool)
    requires Undisturbed(a, b) || Advanced(a, b)
    requires ExportStep(b, c, p, sha) && ExportLog(b.log, c.log, image, source, scratch, done)
    requires if done then CleanupStep(c, d, {source, scratch}) else d == c
    ensures forall v | v in a.w.volumes && v !in d.w.volumes :: WasExported(d.log, |a.log|, v)
  {
    hide NoNewImport, NoNewHelper, OldImports, Seen, ImagesEvolve, WasExported, OneImportAlways, OneHelperAlways, NoImport;
    Grows(a, b);
    forall v | v in a.w.volumes && v !in d.w.volumes
      ensures WasExported(d.log, |a.log|, v)
    {
      StillThere(a, b, v);
      assert v in c.w.volumes;
      ExportSeen(b.log, c.log, d.log, |a.log|, image, source, scratch);
    }
  }

  lemma InvariantsOfRun(a: Snapshot, b: Snapshot, c: Snapshot, d: Snapshot, p: Project, sha: Sha,
                        source: Id, scratch: Id, done: bool)
    requires Undisturbed(a, b) || Advanced(a, b)
    requires ExportStep(b, c, p, sha)
    requires if done then CleanupStep(c, d, {source, scratch}) else d == c
    ensures Grown(a, d) && OldImports(a, d)
    ensures OneHelperAlways(a) ==> OneHelperAlways(d)
    ensures OneImportAlways(a) && NoImport(a.w, p, sha) ==> OneImportAlways(d)
  {
    StillNoImport(a, b, p, sha);
    Grows(a, b);
    GrownTrans(a, b, c);
    if done {
      GrownTrans(a, c, d);
    }
    hide Explained, Labelled;
    OldImportsTrans(a, b, c);
    assert OldImports(c, d);
    OldImportsTrans(a, c, d);
    hide OldImports, NoImport, OneImportAlways, OneHelperAlways, NoNewHelper, NoNewImport, VolumesKept, ImagesEvolve, Quiet;
  }

  lemma ExportSeen(l0: seq<Event>, l1: seq<Event>, l2: seq<Event>, start: nat, image: Id, source: Id, scratch: Id)
    requires start <= |l0| && l1 <= l2 && ExportLog(l0, l1, image, source, scratch, true)
    ensures WasExported(l2, start, source) && WasExported(l2, start, scratch)
  {
    var k, i := |l0| + 2, |l0| + 3;
    assert l2[k] == l1[k] == Uploaded(image, source, scratch) && l2[i] == l1[i] == SeenAvailable(image);
  }

  lemma ExportKeepsHelpers(a: Snapshot, b: Snapshot, p: Project, sha: Sha, ids: set<Id>)
    requires ExportStep(a, b, p, sha) && HelpersWithin(a.w, p, sha, ids)
    ensures HelpersWithin(b.w, p, sha, ids)
  {
  }

  lemma StillExported(a: Snapshot, b: Snapshot, id: Id, p: Project, sha: Sha, vs: set<Id>)
    requires CleanupStep(a, b, vs) && IsExported(a.w, id, p, sha)
    ensures IsExported(b.w, id, p, sha) && b.w.images.Keys == a.w.images.Keys
  {
  }

  lemma CleanupErrors(a: Snapshot, b: Snapshot, vs: set<Id>)
    requires CleanupStep(a, b, vs)
    ensures Grown(a, b) && a.errors <= b.errors && a.warnings <= b.warnings
  {
  }

  /** Errors of a cleanup are only reported. */
  lemma CleanupWarned(a: Snapshot, b: Snapshot, c: Snapshot, vs: set<Id>)
    requires CleanupStep(a, b, vs)
    requires c == b.(errors := a.errors, warnings := b.warnings + b.errors[|a.errors|..])
    ensures CleanupStep(a, c, vs)
  {
    MovedJustified(c.answers, |a.answers|, c.polls, b.warnings, b.errors, |a.warnings|, |a.errors|);
    hide Justified, Labelled;
  }

  lemma ExportWarnings(a: Snapshot, b: Snapshot, p: Project, sha: Sha)
    requires ExportStep(a, b, p, sha)
    ensures Grown(a, b) && a.warnings <= b.warnings
  {
  }

  lemma RivalRemembered(a: Snapshot, b: Snapshot, p: Project, sha: Sha, vs: set<Id>)
    requires CleanupStep(a, b, vs) && !NoImport(b.w, p, sha)
    requires !NoImport(a.w, p, sha) ==> !OneImportAlways(a)
    ensures !OneImportAlways(b)
  {
  }

  /** Export and cleanup, common to the fresh and the resumed run. */
  method FinishRun(c: Cloud, p: Project, sha: Sha, helper: Id, access: Option<Access>, source: Id, scratch: Id,
                   ghost start: Snapshot)
    returns (r: Result<Id>)
    requires Undisturbed(start, c.Now()) || Advanced(start, c.Now())
    requires SourceReady(c.log, |start.log|, source)
    modifies c
    ensures RunStep(start, c.Now(), p, sha)
    ensures r.Ok? ==> IsExported(c.w, r.value, p, sha) && c.w.images.Keys <= old(c.w).images.Keys + {r.value}
    ensures r.Ok? ==> r.value !in Seen(old(c.Now())) && c.errors == old(c.errors)
    ensures r.Err? && source != scratch ==> old(c.errors) < c.errors
    ensures r.Ok? && !NoImport(c.w, p, sha) ==> !OneImportAlways(c.Now())
    ensures old(c.warnings) <= c.warnings && Grown(old(c.Now()), c.Now())
    ensures r.Ok? && c.warnings == old(c.warnings) && HelpersWithin(old(c.w), p, sha, {helper}) ==> NothingLeft(c.w, p, sha)
  {
    hide RunStep, Undisturbed, Advanced, SourceReady, ExportStep, ExportLog, CleanupStep, IsExported, HelpersWithin,
         NothingLeft, Evolved, Grown, Waited;
    ghost var earlier := c.Now();
    c.Drift();
    ghost var s1 := c.Now();
    AdvancedTrans(start, earlier, s1);
    StillWithin(earlier, s1, p, sha, {helper});
    NoNewImage(earlier, s1);
    Grows(earlier, s1);
    ghost var image;
    r, image := ExportNormalizedVolume(c, p, sha, source, scratch);
    ghost var s2 := c.Now();
    ExportWarnings(s1, s2, p, sha);
    GrownTrans(earlier, s1, s2);
    if r.Err? {
      ComposeRun(start, s1, s2, s2, p, sha, image, source, scratch, false);
      return;
    }
    if HelpersWithin(s1.w, p, sha, {helper}) {
      ExportKeepsHelpers(s1, s2, p, sha, {helper});
    }
    ghost var before := c.errors;
    CleanupNormalizationResources(c, p, sha, helper, access, source, scratch);
    ghost var s3 := c.Now();
    CleanupErrors(s2, s3, {source, scratch});
    c.Warn(before);
    CleanupWarned(s2, s3, c.Now(), {source, scratch});
    CleanupErrors(s2, c.Now(), {source, scratch});
    GrownTrans(earlier, s2, c.Now());
    ComposeRun(start, s1, s2, c.Now(), p, sha, image, source, scratch, true);
    StillExported(s2, c.Now(), r.value, p, sha, {source, scratch});
    if !NoImport(c.w, p, sha) {
      RivalRemembered(s2, c.Now(), p, sha, {source, scratch});
    }
  }

  /** Since `start`, the listing of the helpers showed none that is live. */
  ghost predicate NoHelperListed(answers: seq<Answer>, start: nat, p: Project, sha: Sha) {
    exists k | start <= k < |answers| ::
      answers[k].what == AnyHelper(p, sha) && answers[k].shown.Some? && HelpersWithin(answers[k].shown.value, p, sha, {})
  }

  /** The helper was resumed, or it could not be: there was none, or what it takes failed. */
  ghost predicate ResumedIfPossible(a: Snapshot, b: Snapshot, p: Project, sha: Sha) {
    || (exists j | |a.log| <= j < |b.log| :: b.log[j].ProbedReady?)
    || NoHelperListed(b.answers, |a.answers|, p, sha)
    || a.tolerated < b.tolerated
  }

  /**
   * A helper of an earlier run whose source volume still holds the prepared appliance. One
   * that does not become ready is no error: the run goes on with a new helper.
   */
  method TryResume(c: Cloud, p: Project, sha: Sha, source: Id) returns (ok: bool, helper: Option<Id>)
    modifies c
    ensures Undisturbed(old(c.Now()), c.Now())
    ensures ok <==> c.errors == old(c.errors)
    ensures ok && helper.Some? ==>
              |old(c.log)| + 2 <= |c.log| && c.log[|c.log| - 2..] == [AgentAnswered(helper.value), ProbedReady(source)]
    ensures ok && helper.Some? && OneHelper(c.w) ==> HelpersWithin(c.w, p, sha, {helper.value})
    ensures ok && helper.None? ==>
              || NoHelperListed(c.answers, |old(c.answers)|, p, sha)
              || old(c.tolerated) < c.tolerated
  {
    hide Undisturbed, HelpersWithin, OneHelper, ServersRelabelled, Waited, Grown;
    ghost var s0 := c.Now();
    ok, helper := FindNormalizationHelper(c, p, sha);
    ghost var s1 := c.Now();
    Grows(s0, s1);
    if !ok || helper.None? {
      assert c.answers[|s0.answers|] == Answer(AnyHelper(p, sha), if ok then Some(c.w) else None);
      return;
    }
    ghost var before := c.errors;
    var ready := WaitServer(c, helper.value);
    ghost var s2 := c.Now();
    Trans(s0, s1, s2);
    Unchanged(s2);
    if ready {
      SoleHelper(s1.w, s2.w, helper.value, p, sha);
      ready := c.Step(AgentAnswered(helper.value)); // waitServerAgent
      ghost var s3 := c.Now();
      Trans(s0, s2, s3);
      if ready {
        ready := c.Step(ProbedReady(source)); // normalizedVolumeReady
        Trans(s0, s3, c.Now());
        Trans(s2, s3, c.Now());
        if ready {
          Grows(s0, s3);
          return;
        }
      }
    }
    helper := None;
    ghost var last := c.Now();
    Grows(s0, last);
    Grows(s1, last) by {
      Trans(s1, s2, last);
    }
    c.Tolerate(before);
    Tolerated(s0, last, c.Now());
  }

  lemma SoleHelper(a: World, b: World, helper: Id, p: Project, sha: Sha)
    requires ServersRelabelled(a, b) && helper in a.servers && IsHelperFor(a.servers[helper], p, sha)
    requires helper in b.servers && b.servers[helper].status.ServerActive?
    ensures OneHelper(b) ==> HelpersWithin(b, p, sha, {helper})
  {
    HelperLabels(a.servers[helper], p, sha);
  }

  /** Clears every helper and all access an earlier run left behind and waits for both volumes to be free. */
  method PrepareReusableResources(c: Cloud, p: Project, sha: Sha, source: Id, scratch: Id) returns (ok: bool)
    modifies c
    ensures Undisturbed(old(c.Now()), c.Now())
    ensures ok ==> HelpersWithin(c.w, p, sha, {}) && NoAccess(c.w, p, sha)
    ensures ok <==> c.errors == old(c.errors)
    ensures ok ==> |c.log| >= |old(c.log)| + 2 && c.log[|c.log| - 2..] == [SeenFree(source), SeenFree(scratch)]
  {
    hide Undisturbed, HelpersWithin, UntouchedServers, Evolved, OnlyAccessRemoved, NoAccess, AccessEvolves;
    ghost var s0 := c.Now();
    ok := RemoveStaleNormalizationHelpers(c, p, sha);
    if !ok {
      return;
    }
    ghost var s1 := c.Now();
    ok := CleanupStaleHelperAccess(c, p, sha);
    ghost var s2 := c.Now();
    Trans(s0, s1, s2);
    StillWithin(s1, s2, p, sha, {});
    if !ok {
      return;
    }
    ok := WaitVolume(c, source, false);
    ghost var s3 := c.Now();
    Trans(s0, s2, s3);
    StillWithin(s2, s3, p, sha, {});
    StillNoAccess(s2.w, s3.w, p, sha);
    if !ok {
      return;
    }
    ok := WaitVolume(c, scratch, false);
    Trans(s0, s3, c.Now());
    StillWithin(s3, c.Now(), p, sha, {});
    StillNoAccess(s3.w, c.w, p, sha);
    Grows(s0, s2);
  }

  /** A fresh helper with SSH access; afterwards it is the only live one of this hash. */
  method StartHelper(c: Cloud, p: Project, sha: Sha, network: Nics.Id) returns (r: Result<(Id, Access)>)
    requires HelpersWithin(c.w, p, sha, {})
    modifies c
    ensures Advanced(old(c.Now()), c.Now())
    ensures r.Ok? <==> c.errors == old(c.errors)
    ensures r.Ok? ==> HelpersWithin(c.w, p, sha, {r.value.0})
    ensures r.Ok? ==> |c.log| > |old(c.log)| && c.log[|c.log| - 1] == TransferReady(r.value.0)
    ensures r.Ok? ==> exists j | |old(c.log)| <= j < |c.log| :: c.log[j] == AgentAnswered(r.value.0)
    ensures r.Ok? ==>
              && r.value.1.ip.Some? && r.value.1.ip.value in c.w.ips
              && IsHelperIp(c.w.ips[r.value.1.ip.value], p, sha) && c.w.ips[r.value.1.ip.value].nic.Some?
  {
    hide Undisturbed, Advanced, HelpersWithin, IsGranted, IsHelperIp, Grown, Mild, Labelled, Nics.NicOf, Nics.IsNicOf;
    ghost var s0 := c.Now();
    var access := CreateHelperSSHAccess(c, p, sha);
    ghost var s1 := c.Now();
    SelfAdvanced(s0, s1);
    StillWithin(s0, s1, p, sha, {});
    if access.Err? {
      return Err;
    }
    c.Drift();
    SelfAdvanced(s1, c.Now());
    AdvancedTrans(s0, s1, c.Now());
    StillWithin(s1, c.Now(), p, sha, {});
    s1 := c.Now();
    var helper := CreateNormalizationHelper(c, p, sha);
    ghost var s2 := c.Now();
    AdvancedTrans(s0, s1, s2);
    Grows(s1, s2);
    if helper.Err? {
      CleanupHelperSSHAccess(c, Some(access.value));
      Grows(s2, c.Now());
      AdvancedTrans(s0, s2, c.Now());
      return Err;
    }
    var own: seq<Nics.ServerNic>, listed: seq<Nics.Nic<Id>> := *, *;
    access := AssignHelperPublicIp(c, p, sha, access.value, helper.value, network, own, listed);
    ghost var s3 := c.Now();
    Grows(s0, s1);
    Grows(s2, s3);
    assert s3.log[|s2.log| - 1] == AgentAnswered(helper.value);
    AdvancedTrans(s0, s2, s3);
    StillWithin(s2, s3, p, sha, {helper.value});
    if access.Err? {
      return Err;
    }
    var ok := c.Step(TransferReady(helper.value)); // prepareHelperTransfer
    AdvancedTrans(s0, s3, c.Now());
    StillWithin(s3, c.Now(), p, sha, {helper.value});
    return if ok then Ok((helper.value, access.value)) else Err;
  }

  lemma SelfAdvanced(a: Snapshot, b: Snapshot)
    requires Undisturbed(a, b)
    ensures Advanced(a, b)
  {
  }

  /** Upload, conversion onto the source volume and offline preparation. */
  method FillSourceVolume(c: Cloud, source: Id) returns (ok: bool)
    modifies c
    ensures Undisturbed(old(c.Now()), c.Now())
    ensures ok ==> c.log == old(c.log) + [Staged, Converted(source), Prepared(source)]
    ensures ok <==> c.errors == old(c.errors)
    ensures c.w == old(c.w)
  {
    hide Undisturbed, Grown;
    ghost var s0 := c.Now();
    ok := c.Step(Staged); // uploadOVAToHelper
    ghost var s1 := c.Now();
    if !ok {
      return;
    }
    ok := c.Step(Converted(source)); // importVMDKScript
    ghost var s2 := c.Now();
    Trans(s0, s1, s2);
    if !ok {
      return;
    }
    ok := c.Step(Prepared(source)); // normalizeApplianceScript
    Trans(s0, s2, c.Now());
    assert ok ==> c.log == s0.log + [Staged, Converted(source), Prepared(source)];
  }

  lemma FilledIsReady(before: seq<Event>, source: Id)
    ensures SourceReady(before + [Staged, Converted(source), Prepared(source)], |before|, source)
  {
    var log, l := before + [Staged, Converted(source), Prepared(source)], |before|;
    assert PreparedIn(log, l, l + 1, l + 2, source);
  }

  /** installer/normalization.go:458-538: a fresh helper prepares the volumes, and the image is exported. */
  method RunAfresh(c: Cloud, p: Project, sha: Sha, network: Nics.Id, source: Id, scratch: Id, ghost s0: Snapshot)
    returns (r: Result<Id>)
    requires Undisturbed(s0, c.Now()) && source != scratch
    modifies c
    ensures RunStep(s0, c.Now(), p, sha) && Grown(old(c.Now()), c.Now())
    ensures r.Ok? ==> IsExported(c.w, r.value, p, sha) && c.w.images.Keys <= old(c.w).images.Keys + {r.value}
    ensures r.Ok? ==> r.value !in Seen(old(c.Now()))
    ensures r.Ok? <==> c.errors == old(c.errors)
    ensures r.Ok? && !NoImport(c.w, p, sha) ==> !OneImportAlways(c.Now())
    ensures r.Ok? && c.warnings == old(c.warnings) ==> NothingLeft(c.w, p, sha)
  {
    hide RunStep, Undisturbed, Advanced, HelpersWithin, NothingLeft, IsExported, SourceReady, OldImports, Grown,
         NoImport, NoAccess, OneImportAlways, OneHelperAlways, IsHelperIp;
    ghost var s3 := c.Now();
    var ok := PrepareReusableResources(c, p, sha, source, scratch);
    ghost var s4 := c.Now();
    Trans(s0, s3, s4);
    Grows(s3, s4);
    if !ok {
      QuietRun(s0, s4, p, sha);
      return Err;
    }
    var started := StartHelper(c, p, sha, network);
    ghost var s5 := c.Now();
    AdvancedTrans(s0, s4, s5);
    AdvancedTrans(s3, s4, s5);
    Grows(s3, s5);
    Grows(s4, s5);
    if started.Err? {
      QuietRun(s0, s5, p, sha);
      return Err;
    }
    ok := FillSourceVolume(c, source);
    FilledIsReady(s5.log, source);
    ghost var s6 := c.Now();
    AdvancedTrans(s0, s5, s6);
    AdvancedTrans(s3, s5, s6);
    Grows(s3, s6);
    Grows(s5, s6);
    if !ok {
      QuietRun(s0, s6, p, sha);
      return Err;
    }
    ReadyAfter(s0, s5, s6, source);
    NoNewImage(s3, s6);
    r := FinishRun(c, p, sha, started.value.0, Some(started.value.1), source, scratch, s0);
    GrownTrans(s3, s6, c.Now());
  }

  /**
   * Builds the normalized image in project p. Whatever fails or stops, helpers
   * stay unique, an import is requested at most once and only from a ready
   * source, and no volume disappears before its image was seen AVAILABLE.
   */
  method NormalizeAndUploadImage(c: Cloud, p: Project, sha: Sha, performance: string, network: Nics.Id)
    returns (r: Result<Id>)
    modifies c
    ensures RunStep(old(c.Now()), c.Now(), p, sha)
    ensures r.Ok? ==> IsExported(c.w, r.value, p, sha) && c.w.images.Keys <= old(c.w).images.Keys + {r.value}
    ensures r.Ok? ==> r.value !in Seen(old(c.Now()))
    ensures r.Ok? <==> c.errors == old(c.errors)
    ensures r.Ok? && !NoImport(c.w, p, sha) ==> !OneImportAlways(c.Now())
    ensures r.Ok? && c.warnings == old(c.warnings) && OneHelperAlways(old(c.Now())) ==>
              NothingLeft(c.w, p, sha) && OlderGroupsOnly(old(c.w), c.w, p, sha)
    ensures r.Ok? ==> ResumedIfPossible(old(c.Now()), c.Now(), p, sha)
  {
    hide OlderGroupsOnly, ResumedIfPossible, NoHelperListed, Grown, Waited, Labelled, RunStep, Undisturbed, Advanced, HelpersWithin, NothingLeft, IsExported, SourceReady, IsNormalizationVolume,
         OldImports, Seen, NoImport, NoAccess, OneImportAlways, OneHelperAlways, OneHelper, NoneUsable, Evolved, IsHelperIp;
    ghost var s0 := c.Now();
    r := Err;
    var source := EnsureVolume(c, p, sha, Normalization, performance);
    ghost var s1 := c.Now();
    if source.Err? {
      QuietRun(s0, s1, p, sha);
      return;
    }
    var scratch := EnsureVolume(c, p, sha, NormalizationScratch, performance);
    ghost var s2 := c.Now();
    Trans(s0, s1, s2);
    if scratch.Err? {
      QuietRun(s0, s2, p, sha);
      return;
    }
    TwoVolumes(s1, s2, source.value, scratch.value, p, sha, performance);
    var ok, helper := TryResume(c, p, sha, source.value);
    ghost var s3 := c.Now();
    Grows(s0, s2);
    Grows(s2, s3);
    Trans(s0, s2, s3);
    Grows(s0, s3);
    if !ok {
      QuietRun(s0, s3, p, sha);
      return;
    }
    if helper.Some? {
      ProbedIsReady(s0, s2, s3, source.value, p, sha);
      AlwaysNow(s0, s3);
      NoNewImage(s0, s3);
      r := FinishRun(c, p, sha, helper.value, None, source.value, scratch.value, s0);
      WarnedBetween(s0, s3, c.Now());
      StillResumed(s0, s3, c.Now(), p, sha);
      GrownTrans(s0, s3, c.Now());
      OnlyOlderGroups(s0, c.Now(), p, sha);
      return;
    }
    NoNewImage(s0, s3);
    r := RunAfresh(c, p, sha, network, source.value, scratch.value, s0);
    WarnedBetween(s0, s3, c.Now());
    NotResumed(s0, s2, s3, c.Now(), p, sha);
    GrownTrans(s0, s3, c.Now());
    OnlyOlderGroups(s0, c.Now(), p, sha);
  }

  /** Each group with the name of the helper group was there before, without the label. */
  ghost predicate OlderGroupsOnly(a: World, b: World, p: Project, sha: Sha) {
    forall g | g in b.groups && b.groups[g].project == p && b.groups[g].name == HelperGroupName(sha) ::
      g in a.groups && a.groups[g].project == p && a.groups[g].name == HelperGroupName(sha) && !a.groups[g].managed
  }

  lemma OnlyOlderGroups(a: Snapshot, b: Snapshot, p: Project, sha: Sha)
    requires Grown(a, b)
    ensures NothingLeft(b.w, p, sha) ==> OlderGroupsOnly(a.w, b.w, p, sha)
  {
  }

  /** A probe just made in this run shows that the source is ready. */
  lemma ProbedIsReady(a: Snapshot, b: Snapshot, c: Snapshot, source: Id, p: Project, sha: Sha)
    requires Undisturbed(a, b) && Undisturbed(b, c)
    requires |b.log| < |c.log| && c.log[|c.log| - 1] == ProbedReady(source)
    ensures SourceReady(c.log, |a.log|, source) && ResumedIfPossible(a, c, p, sha)
  {
    Grows(a, b);
  }

  lemma StillResumed(a: Snapshot, b: Snapshot, c: Snapshot, p: Project, sha: Sha)
    requires ResumedIfPossible(a, b, p, sha) && Grown(a, b) && Grown(b, c)
    ensures ResumedIfPossible(a, c, p, sha)
  {
    hide HelpersWithin, Explained, Labelled;
    if j :| |a.log| <= j < |b.log| && b.log[j].ProbedReady? {
      assert c.log[j] == b.log[j];
    } else if NoHelperListed(b.answers, |a.answers|, p, sha) {
      var k :| |a.answers| <= k < |b.answers| && b.answers[k].what == AnyHelper(p, sha) && b.answers[k].shown.Some?
               && HelpersWithin(b.answers[k].shown.value, p, sha, {});
      assert c.answers[k] == b.answers[k];
    }
  }

  /** What stood against resuming in a part of a run did so in the whole. */
  lemma NotResumed(a: Snapshot, b: Snapshot, c: Snapshot, d: Snapshot, p: Project, sha: Sha)
    requires Grown(a, b) && Grown(b, c) && Grown(c, d)
    requires NoHelperListed(c.answers, |b.answers|, p, sha) || b.tolerated < c.tolerated
    ensures ResumedIfPossible(a, d, p, sha)
  {
    hide Explained, Labelled, HelpersWithin;
    if NoHelperListed(c.answers, |b.answers|, p, sha) {
      var k :| |b.answers| <= k < |c.answers| && c.answers[k].what == AnyHelper(p, sha) && c.answers[k].shown.Some?
               && HelpersWithin(c.answers[k].shown.value, p, sha, {});
      assert d.answers[k] == c.answers[k];
    }
  }

  /** Source and scratch volume are told apart by their purpose. */
  lemma TwoVolumes(a: Snapshot, b: Snapshot, source: Id, scratch: Id, p: Project, sha: Sha, performance: string)
    requires Undisturbed(a, b) && source in a.w.volumes && scratch in b.w.volumes
    requires IsNormalizationVolume(a.w.volumes[source], p, sha, Normalization, performance)
    requires IsNormalizationVolume(b.w.volumes[scratch], p, sha, NormalizationScratch, performance)
    ensures source != scratch
  {
    StillThere(a, b, source);
  }

  lemma ReadyAfter(a: Snapshot, b: Snapshot, c: Snapshot, source: Id)
    requires Undisturbed(a, b) || Advanced(a, b)
    requires SourceReady(c.log, |b.log|, source)
    ensures SourceReady(c.log, |a.log|, source)
  {
  }

  lemma AlwaysNow(a: Snapshot, b: Snapshot)
    requires Undisturbed(a, b)
    ensures OneHelperAlways(a) ==> OneHelper(b.w)
  {
  }
}
