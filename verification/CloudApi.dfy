// The cloud behind the API. A call may be answered, may fail without effect,
// or may take effect although its answer is lost. A run that is stopped after
// some call is the run in which every later call fails without effect.
module CloudApi {
  import opened Wrappers
  import opened World
  import Nics

  datatype Event =
    | Listed(project: Project, shown: map<Id, Image>)
    | NetworkReady(owner: Project)
    | NormalizationStarted(owner: Project)
    | AgentAnswered(server: Id)
    | TransferReady(server: Id)
    | Staged
    | Converted(volume: Id)
    | Prepared(volume: Id)
    | ProbedReady(volume: Id)
    | ImageRequested(image: Id)
    | ImageGranted(image: Id)
    | Uploaded(image: Id, source: Id, scratch: Id)
    | Waiting(image: Id)
    | SeenAvailable(image: Id)
    | SeenFree(volume: Id)
    | VolumeDeletion(volume: Id)
    | OtherChange

  /** Events that create, change or delete something in the cloud. */
  predicate Changes(e: Event) {
    e.ImageRequested? || e.VolumeDeletion? || e.OtherChange?
  }

  /** What a reading call is for: one poll of a wait, a look for a helper, or nothing in particular. */
  datatype Awaited =
    | AwaitNothing
    | AwaitUsable(image: Id)
    | AwaitAvailable(image: Id)
    | AwaitVisible(image: Id, project: Project)
    | AwaitVolume(volume: Id, attached: bool)
    | AwaitDetached(volume: Id)
    | AwaitServer(server: Id)
    | AwaitIps(project: Project, sha: Sha)
    | AnyHelper(project: Project, sha: Sha)

  /** The state in which the wait ends well. */
  predicate Settled(what: Awaited, w: World) {
    match what
    case AwaitNothing => true
    case AnyHelper(_, _) => true
    case AwaitUsable(i) => i in w.images ==> w.images[i].status in {ImageAvailable, ImageCreating}
    case AwaitAvailable(i) => i in w.images && w.images[i].status.ImageAvailable?
    case AwaitVisible(i, p) => i in w.images && w.images[i].status.ImageAvailable? && Visible(w.images[i], p)
    case AwaitVolume(v, attached) =>
      v in w.volumes && (w.volumes[v].status.VolumeAvailable? || (attached && w.volumes[v].status.VolumeAttached?))
    case AwaitDetached(v) => v in w.volumes && w.volumes[v].status.VolumeAvailable?
    case AwaitServer(s) => s in w.servers && w.servers[s].status.ServerActive?
    case AwaitIps(p, sha) => forall i | i in w.ips && IsHelperIp(w.ips[i], p, sha) :: w.ips[i].nic.None?
  }

  /** The state in which waiting on is of no use: what is awaited is gone or has failed. */
  predicate Broken(what: Awaited, w: World) {
    match what
    case AwaitNothing => false
    case AnyHelper(_, _) => false
    case AwaitUsable(i) => i in w.images && w.images[i].status !in {ImageAvailable, ImageCreating}
    case AwaitAvailable(i) => i !in w.images || w.images[i].status.ImageError?
    case AwaitVisible(_, _) => false
    case AwaitVolume(v, _) => v !in w.volumes || w.volumes[v].status.VolumeError?
    case AwaitDetached(v) => v !in w.volumes
    case AwaitServer(s) => s !in w.servers || w.servers[s].status in {ServerError, ServerDeleted}
    case AwaitIps(_, _) => false
  }

  /** What a reading call was for and the state that its answer shows, if there is an answer. */
  datatype Answer = Answer(what: Awaited, shown: Option<World>)

  /** Why an operation fails. Positions are those of answers. */
  datatype Cause =
    | Unanswered
    | NoInterface(own: seq<Nics.ServerNic>, listed: seq<Nics.Nic<Id>>, network: Nics.Id, server: Id)
    | Failed(what: Awaited, at: nat)
    | Expired(what: Awaited, since: nat)

  /** All `polls` answers of a wait showed that it is not over. */
  ghost predicate AllPending(answers: seq<Answer>, since: nat, polls: nat, what: Awaited) {
    && since + polls <= |answers|
    && forall k | since <= k < since + polls ::
         && answers[k].what == what
         && if answers[k].shown.Some? then !Settled(what, answers[k].shown.value) else what.AwaitVisible?
  }

  /** The cause is one that the answers after `from` show, or a call that failed. */
  ghost predicate Justified(answers: seq<Answer>, from: nat, polls: nat, cause: Cause) {
    match cause
    case Unanswered => true
    case NoInterface(own, listed, network, server) => Nics.IsNicOf(own, listed, network, server, "")
    case Failed(what, at) =>
      from <= at < |answers| && answers[at].what == what && answers[at].shown.Some? && Broken(what, answers[at].shown.value)
    case Expired(what, since) => from <= since && AllPending(answers, since, polls, what)
  }

  /** Since `since`, only this was polled for, and every answer showed that the wait is not over. */
  ghost predicate Unsettled(answers: seq<Answer>, since: nat, what: Awaited) {
    forall k | since <= k < |answers| ::
      && answers[k].what == what && answers[k].shown.Some?
      && !Settled(what, answers[k].shown.value) && !Broken(what, answers[k].shown.value)
  }

  /**
   * What a wait has read: it ends with the first answer that is missing, settled or broken,
   * and without one only when the time for `polls` answers is up.
   */
  ghost predicate Waited(before: seq<Answer>, after: seq<Answer>, polls: nat, what: Awaited, ok: bool) {
    && before <= after
    && if Unsettled(after, |before|, what) then
         !ok && |after| == |before| + polls
       else
         var last := |after| - 1;
         && |before| <= last < |before| + polls && Unsettled(after[..last], |before|, what) && after[last].what == what
         && if ok then after[last].shown.Some? && Settled(what, after[last].shown.value)
            else after[last].shown.Some? ==> Broken(what, after[last].shown.value)
  }

  /** Why a wait has failed whose last reading call was answered. */
  ghost function GivingUp(before: seq<Answer>, after: seq<Answer>, what: Awaited): (cause: Cause)
    ensures !cause.Unanswered?
  {
    if Unsettled(after, |before|, what) || after == [] then Expired(what, |before|) else Failed(what, |after| - 1)
  }

  /** One more answer showed that the wait is not over. */
  lemma StillUnsettled(before: seq<Answer>, after: seq<Answer>, what: Awaited, w: World)
    requires before <= after && Unsettled(after, |before|, what)
    requires !Settled(what, w) && !Broken(what, w)
    ensures Unsettled(after + [Answer(what, Some(w))], |before|, what)
  {
  }

  /** A wait has failed, but not because a reading call failed. */
  ghost predicate InVain(before: seq<Answer>, after: seq<Answer>, polls: nat, what: Awaited) {
    && Waited(before, after, polls, what, false)
    && (Unsettled(after, |before|, what) || after[|after| - 1].shown.Some?)
  }

  lemma GivingUpIsJustified(before: seq<Answer>, after: seq<Answer>, polls: nat, what: Awaited)
    requires InVain(before, after, polls, what)
    ensures Justified(after, |before|, polls, GivingUp(before, after, what))
  {
  }

  /** The time of a wait is up. */
  lemma UpToTime(before: seq<Answer>, after: seq<Answer>, polls: nat, what: Awaited)
    requires before <= after && Unsettled(after, |before|, what) && |after| == |before| + polls
    ensures InVain(before, after, polls, what)
  {
  }

  lemma WaitOver(before: seq<Answer>, after: seq<Answer>, polls: nat, what: Awaited, shown: Option<World>)
    requires before <= after && Unsettled(after, |before|, what) && |after| < |before| + polls
    ensures shown.None? || Broken(what, shown.value) ==> Waited(before, after + [Answer(what, shown)], polls, what, false)
    ensures shown.Some? && Broken(what, shown.value) ==> InVain(before, after + [Answer(what, shown)], polls, what)
    ensures shown.Some? && Settled(what, shown.value) ==> Waited(before, after + [Answer(what, shown)], polls, what, true)
  {
    var all := after + [Answer(what, shown)];
    assert all[..|all| - 1] == after && all[|all| - 1] == Answer(what, shown);
  }

  ghost predicate AllJustified(answers: seq<Answer>, from: nat, polls: nat, causes: seq<Cause>, since: nat) {
    forall k | since <= k < |causes| :: Justified(answers, from, polls, causes[k])
  }

  /**
   * The cloud with what is recorded about the runs: errors that ended an operation, those
   * that were only reported, those after which the operation went on another way, what
   * reading calls answered, how many answers a wait has time for, events, earlier states,
   * and image identifiers used earlier.
   */
  datatype Snapshot = Snapshot(
    w: World, errors: seq<Cause>, warnings: seq<Cause>, tolerated: seq<Cause>, answers: seq<Answer>, polls: nat,
    log: seq<Event>, history: seq<World>, issued: set<Id>)

  /** Every error since a is one that the answers since a justify. */
  ghost predicate Explained(a: Snapshot, b: Snapshot) {
    && AllJustified(b.answers, |a.answers|, b.polls, b.errors, |a.errors|)
    && AllJustified(b.answers, |a.answers|, b.polls, b.warnings, |a.warnings|)
    && AllJustified(b.answers, |a.answers|, b.polls, b.tolerated, |a.tolerated|)
  }

  /** Records only grow, every error is explained, and nothing appears without labels. */
  ghost predicate Grown(a: Snapshot, b: Snapshot) {
    && a.log <= b.log && a.answers <= b.answers && a.polls == b.polls && Seen(a) <= Seen(b)
    && a.errors <= b.errors && a.warnings <= b.warnings && a.tolerated <= b.tolerated
    && Explained(a, b) && Labelled(a.w, b.w)
  }

  lemma GrownTrans(a: Snapshot, b: Snapshot, c: Snapshot)
    requires Grown(a, b) && Grown(b, c)
    ensures Grown(a, c)
  {
    hide Labelled, Justified, AllPending, Seen;
    LabelledTrans(a.w, b.w, c.w);
    StillJustified(a.answers, b.answers, c.answers, c.polls, b.errors, c.errors, |a.errors|);
    StillJustified(a.answers, b.answers, c.answers, c.polls, b.warnings, c.warnings, |a.warnings|);
    StillJustified(a.answers, b.answers, c.answers, c.polls, b.tolerated, c.tolerated, |a.tolerated|);
  }

  lemma GrownParts(a: Snapshot, b: Snapshot)
    requires Grown(a, b)
    ensures a.polls == b.polls && a.log <= b.log && a.errors <= b.errors && a.warnings <= b.warnings
    ensures Labelled(a.w, b.w) && Seen(a) <= Seen(b)
  {
  }

  /** What was not reported at the end was not reported in between. */
  lemma WarnedBetween(a: Snapshot, b: Snapshot, c: Snapshot)
    requires Grown(a, b) && Grown(b, c)
    ensures a.warnings <= c.warnings
    ensures c.warnings == a.warnings ==> b.warnings == a.warnings && c.warnings == b.warnings
  {
    assert a.warnings <= b.warnings <= c.warnings;
    hide Explained, Labelled;
    assert |c.warnings| == |a.warnings| ==> b.warnings == b.warnings[..|a.warnings|] == a.warnings;
  }

  lemma StillJustified(a: seq<Answer>, b: seq<Answer>, c: seq<Answer>, polls: nat, x: seq<Cause>, y: seq<Cause>, since: nat)
    requires a <= b <= c && since <= |x| && x <= y
    requires AllJustified(b, |a|, polls, x, since) && AllJustified(c, |b|, polls, y, |x|)
    ensures AllJustified(c, |a|, polls, y, since)
  {
    forall k | since <= k < |y|
      ensures Justified(c, |a|, polls, y[k])
    {
      if k < |x| {
        assert Justified(b, |a|, polls, x[k]);
      } else {
        assert Justified(c, |b|, polls, y[k]);
      }
    }
  }

  /** Every image identifier used so far; none is used for a second image. */
  function Seen(s: Snapshot): set<Id> {
    s.issued + s.w.images.Keys
  }

  /** An unfinished import of b whose identifier a had seen was one in a. */
  ghost predicate OldImports(a: Snapshot, b: Snapshot) {
    forall i | i in Seen(a) && i in b.w.images && IsImport(b.w.images[i]) ::
      && i in a.w.images && IsImport(a.w.images[i])
      && a.w.images[i].owner == b.w.images[i].owner && a.w.images[i].sha == b.w.images[i].sha
  }

  /** In no state so far, this one included, had a project two live helpers for one hash. */
  ghost predicate OneHelperAlways(s: Snapshot) {
    OneHelper(s.w) && forall x | x in s.history :: OneHelper(x)
  }

  /** In no state so far had a project two unfinished imports for one hash. */
  ghost predicate OneImportAlways(s: Snapshot) {
    OneImport(s.w) && forall x | x in s.history :: OneImport(x)
  }

  /** Records only grow, an invariant that holds in every state held before, and both are kept. */
  ghost predicate Kept(a: Snapshot, b: Snapshot) {
    && Grown(a, b)
    && (OneImportAlways(b) ==> OneImportAlways(a))
    && (OneHelperAlways(a) ==> OneHelperAlways(b))
    && (OneImportAlways(a) ==> OneImportAlways(b))
  }

  /** From `start` on no import was requested or filled and no volume deleted. */
  ghost predicate Quiet(log: seq<Event>, start: nat) {
    forall i | start <= i < |log| :: !log[i].ImageRequested? && !log[i].Uploaded? && !log[i].VolumeDeletion?
  }

  /** No new image or import, no new helper, and every volume still there. */
  ghost predicate Mild(a: World, b: World) {
    NoNewImport(a, b) && NoNewHelper(a, b) && VolumesKept(a, b) && b.images.Keys <= a.images.Keys
  }

  /** From `start` on no normalization was started. */
  ghost predicate NoStart(log: seq<Event>, start: nat) {
    forall i | start <= i < |log| :: !log[i].NormalizationStarted?
  }

  /** Kept, quiet and mild. */
  ghost predicate Begun(a: Snapshot, b: Snapshot) {
    Kept(a, b) && Quiet(b.log, |a.log|) && Mild(a.w, b.w)
  }

  /** Kept, quiet and mild, and no normalization was started either. */
  ghost predicate Undisturbed(a: Snapshot, b: Snapshot) {
    Begun(a, b) && NoStart(b.log, |a.log|)
  }

  /** Like Undisturbed, except that a helper may have been started. */
  ghost predicate Advanced(a: Snapshot, b: Snapshot) {
    && Kept(a, b) && Quiet(b.log, |a.log|) && NoStart(b.log, |a.log|)
    && NoNewImport(a.w, b.w) && VolumesKept(a.w, b.w) && b.w.images.Keys <= a.w.images.Keys
  }

  lemma GrownSelf(s: Snapshot)
    ensures Grown(s, s)
  {
  }

  lemma Unchanged(s: Snapshot)
    ensures Undisturbed(s, s)
  {
    GrownSelf(s);
    hide Grown;
  }

  lemma Trans(a: Snapshot, b: Snapshot, c: Snapshot)
    requires Undisturbed(a, b) && Undisturbed(b, c)
    ensures Undisturbed(a, c)
  {
    GrownTrans(a, b, c);
    hide Explained, Labelled;
  }

  lemma Grows(a: Snapshot, b: Snapshot)
    requires Undisturbed(a, b) || Advanced(a, b)
    ensures Grown(a, b) && NoStart(b.log, |a.log|)
    ensures a.log <= b.log && a.errors <= b.errors && a.warnings <= b.warnings && Seen(a) <= Seen(b)
    ensures OldImports(a, b)
  {
  }

  lemma StillThere(a: Snapshot, b: Snapshot, v: Id)
    requires Undisturbed(a, b) || Advanced(a, b)
    requires v in a.w.volumes
    ensures v in b.w.volumes && b.w.volumes[v] == a.w.volumes[v].(status := b.w.volumes[v].status)
  {
  }

  lemma AdvancedTrans(a: Snapshot, b: Snapshot, c: Snapshot)
    requires Undisturbed(a, b) || Advanced(a, b)
    requires Undisturbed(b, c) || Advanced(b, c)
    ensures Advanced(a, c)
  {
    GrownTrans(a, b, c);
    hide Explained, Labelled;
  }

  lemma NoNewImage(a: Snapshot, b: Snapshot)
    requires Undisturbed(a, b) || Advanced(a, b)
    ensures b.w.images.Keys <= a.w.images.Keys
  {
  }

  lemma BegunTrans(a: Snapshot, b: Snapshot, c: Snapshot)
    requires Undisturbed(a, b) && Begun(b, c)
    ensures Begun(a, c)
  {
    GrownTrans(a, b, c);
    hide Explained, Labelled;
  }

  /** What is undisturbed keeps the absence of imports and the set of helpers. */
  lemma StillWithin(a: Snapshot, b: Snapshot, p: Project, sha: Sha, ids: set<Id>)
    requires Undisturbed(a, b)
    ensures HelpersWithin(a.w, p, sha, ids) ==> HelpersWithin(b.w, p, sha, ids)
  {
  }

  lemma StillNoImport(a: Snapshot, b: Snapshot, p: Project, sha: Sha)
    requires Begun(a, b) || Advanced(a, b)
    ensures NoImport(a.w, p, sha) ==> NoImport(b.w, p, sha)
  {
  }

  /** A wait has ended without success, for a cause that the answers since a show. */
  lemma GaveUp(a: Snapshot, b: Snapshot, c: Snapshot, cause: Cause)
    requires Undisturbed(a, b) && c == b.(errors := b.errors + [cause])
    requires Justified(b.answers, |a.answers|, b.polls, cause)
    ensures Undisturbed(a, c)
  {
    GrownGivingUp(a, b, c, cause);
    hide Grown;
    assert Quiet(c.log, |a.log|) && NoStart(c.log, |a.log|);
  }

  lemma GrownGivingUp(a: Snapshot, b: Snapshot, c: Snapshot, cause: Cause)
    requires Grown(a, b) && c == b.(errors := b.errors + [cause])
    requires Justified(b.answers, |a.answers|, b.polls, cause)
    ensures Grown(a, c)
  {
    hide Justified, Labelled;
  }

  /** Errors that do not end the operation are set aside. */
  lemma Tolerated(a: Snapshot, b: Snapshot, c: Snapshot)
    requires Undisturbed(a, b) && a.errors <= c.errors <= b.errors
    requires c == b.(errors := c.errors, tolerated := b.tolerated + b.errors[|c.errors|..])
    ensures Undisturbed(a, c)
  {
    GrownTolerating(a, b, c);
    hide Grown;
    assert Quiet(c.log, |a.log|) && NoStart(c.log, |a.log|);
  }

  lemma GrownTolerating(a: Snapshot, b: Snapshot, c: Snapshot)
    requires Grown(a, b) && a.errors <= c.errors <= b.errors
    requires c == b.(errors := c.errors, tolerated := b.tolerated + b.errors[|c.errors|..])
    ensures Grown(a, c)
  {
    hide Justified, Labelled;
    MovedJustified(c.answers, |a.answers|, c.polls, b.tolerated, b.errors, |a.tolerated|, |c.errors|);
  }

  lemma MovedJustified(answers: seq<Answer>, from: nat, polls: nat, x: seq<Cause>, y: seq<Cause>, since: nat, moved: nat)
    requires AllJustified(answers, from, polls, x, since) && moved <= |y| && AllJustified(answers, from, polls, y, moved)
    ensures AllJustified(answers, from, polls, x + y[moved..], since)
  {
    hide Justified;
    var z := x + y[moved..];
    forall k | since <= k < |z|
      ensures Justified(answers, from, polls, z[k])
    {
      assert k >= |x| ==> z[k] == y[moved + (k - |x|)];
    }
  }

  lemma OldImportsTrans(a: Snapshot, b: Snapshot, c: Snapshot)
    requires OldImports(a, b) && OldImports(b, c) && Seen(a) <= Seen(b)
    ensures OldImports(a, c)
  {
  }

  /** One call: it is answered or not, takes effect or not, and nothing else is recorded about it. */
  ghost predicate Called(a: Snapshot, b: Snapshot, next: World, e: Event) {
    && b.w in {a.w, next} && b.history == a.history + [a.w] && b.issued == a.issued + a.w.images.Keys
    && b.log == a.log + [e] && b.errors in {a.errors, a.errors + [Unanswered]}
    && b == a.(w := b.w, history := b.history, issued := b.issued, log := b.log, errors := b.errors)
  }

  lemma CallGrows(a: Snapshot, b: Snapshot, next: World, e: Event)
    requires Called(a, b, next, e) && Labelled(a.w, next)
    ensures Grown(a, b)
  {
    LabelledSelf(a.w);
    hide Labelled, OldImports;
  }

  lemma LabelledSelf(w: World)
    ensures Labelled(w, w)
  {
  }

  /** A recorded step that is mild for the cloud leaves everything undisturbed. */
  lemma Recorded(a: Snapshot, b: Snapshot)
    requires Mild(a.w, b.w) && Labelled(a.w, b.w)
    requires b.history in {a.history, a.history + [a.w]} && (b.history == a.history ==> b.w == a.w)
    requires b.errors in {a.errors, a.errors + [Unanswered]} && b.warnings == a.warnings && b.tolerated == a.tolerated
    requires a.answers <= b.answers && b.polls == a.polls
    requires a.log <= b.log && Quiet(b.log, |a.log|) && Seen(a) <= Seen(b)
    ensures Begun(a, b)
    ensures NoStart(b.log, |a.log|) ==> Undisturbed(a, b)
  {
    hide NoNewImport, NoNewHelper, OneImport, OneHelper, Labelled;
    NoNewKeepsOne(a.w, b.w);
  }

  lemma MildSelf(w: World)
    ensures Mild(w, w) && Labelled(w, w)
  {
  }

  lemma EvolvedSelf(w: World)
    ensures Evolved(w, w)
  {
  }

  lemma MildEvolution(a: World, b: World)
    requires Evolved(a, b)
    ensures Mild(a, b) && Labelled(a, b)
  {
    EvolutionAddsNothing(a, b);
  }

  /** A wait that began in a has read n answers, none of which ends it. */
  ghost predicate Polling(a: Snapshot, b: Snapshot, what: Awaited, n: nat) {
    && Undisturbed(a, b) && a.polls == b.polls && b.log == a.log && b.errors == a.errors
    && a.answers <= b.answers && |b.answers| == |a.answers| + n && Unsettled(b.answers, |a.answers|, what)
  }

  lemma PollingStarts(s: Snapshot, what: Awaited)
    ensures Polling(s, s, what, 0)
  {
    Unchanged(s);
    hide Undisturbed;
  }

  lemma IsPolling(a: Snapshot, b: Snapshot, what: Awaited, n: nat)
    requires Polling(a, b, what, n)
    ensures Undisturbed(a, b) && b.errors == a.errors
  {
  }

  /** No error since a is a call that failed or a server without an interface. */
  ghost predicate AllAnswered(a: Snapshot, b: Snapshot) {
    forall k | |a.errors| <= k < |b.errors| :: !b.errors[k].Unanswered? && !b.errors[k].NoInterface?
  }

  /** Since `from`, no answer showed that what a wait is for had failed, and each wait was over within `polls` answers. */
  ghost predicate SettledInTime(answers: seq<Answer>, from: nat, polls: nat) {
    && 0 < polls
    && (forall k | from <= k < |answers| && answers[k].shown.Some? :: !Broken(answers[k].what, answers[k].shown.value))
    && (forall since | from <= since && since + polls <= |answers| && OneWait(answers, since, polls) ::
          answers[since].what.AwaitNothing? || AnySettled(answers, since, polls))
  }

  ghost predicate OneWait(answers: seq<Answer>, since: nat, polls: nat)
    requires since + polls <= |answers|
  {
    forall k | since <= k < since + polls :: answers[k].what == answers[since].what
  }

  ghost predicate AnySettled(answers: seq<Answer>, since: nat, polls: nat)
    requires since + polls <= |answers|
  {
    exists k | since <= k < since + polls :: answers[k].shown.Some? && Settled(answers[k].what, answers[k].shown.value)
  }

  /** When every call was answered and whatever was awaited came in time, there was no error. */
  lemma NothingWentWrong(a: Snapshot, b: Snapshot)
    requires a.errors <= b.errors && AllJustified(b.answers, |a.answers|, b.polls, b.errors, |a.errors|)
    requires AllAnswered(a, b) && SettledInTime(b.answers, |a.answers|, b.polls)
    ensures b.errors == a.errors
  {
    if a.errors < b.errors {
      var cause := b.errors[|a.errors|];
      assert Justified(b.answers, |a.answers|, b.polls, cause);
      if cause.Expired? {
        NoWaitExpires(b.answers, |a.answers|, b.polls, cause.since, cause.what);
      }
      assert false;
    }
  }

  lemma NoWaitExpires(answers: seq<Answer>, from: nat, polls: nat, since: nat, what: Awaited)
    requires SettledInTime(answers, from, polls) && from <= since
    ensures !AllPending(answers, since, polls, what)
  {
    if AllPending(answers, since, polls, what) {
      PendingIsOneWait(answers, since, polls, what);
      assert false;
    }
  }

  lemma PendingIsOneWait(answers: seq<Answer>, since: nat, polls: nat, what: Awaited)
    requires AllPending(answers, since, polls, what)
    ensures OneWait(answers, since, polls) && !AnySettled(answers, since, polls)
    ensures 0 < polls ==> !answers[since].what.AwaitNothing?
  {
  }

  class Cloud {
    var w: World
    ghost var errors: seq<Cause>       // errors that ended an operation
    ghost var warnings: seq<Cause>     // errors that were only reported
    ghost var tolerated: seq<Cause>    // errors after which the operation went on
    ghost var answers: seq<Answer>     // what every reading call showed
    var polls: nat                     // answers a wait can read before its deadline
    ghost var log: seq<Event>          // what the runs did, in order
    ghost var history: seq<World>      // every earlier state of the cloud
    var issued: set<Id>                // identifiers of earlier images

    ghost function Now(): Snapshot
      reads this
    {
      Snapshot(w, errors, warnings, tolerated, answers, polls, log, history, issued)
    }

    constructor (w: World, polls: nat)
      ensures Now() == Snapshot(w, [], [], [], [], polls, [], [], {})
    {
      this.w, this.polls := w, polls;
      errors, warnings, tolerated, answers := [], [], [], [];
      log, history, issued := [], [], {};
    }

    /** A new run starts, with its own deadlines. */
    method Begin(polls: nat)
      modifies this`polls
      ensures this.polls == polls
    {
      this.polls := polls;
    }

    /** A call that changes the cloud to `next` when it takes effect. */
    method Call(next: World, ghost e: Event) returns (ok: bool)
      requires Labelled(w, next)
      modifies this
      ensures w == next || (!ok && w == old(w))
      ensures errors == if ok then old(errors) else old(errors) + [Unanswered]
      ensures log == old(log) + [e] && answers == old(answers)
      ensures Called(old(Now()), Now(), next, e)
      ensures Grown(old(Now()), Now())
    {
      ok := *;
      var applied: bool := *;
      history, issued := history + [w], issued + w.images.Keys;
      if ok || applied {
        w := next;
      }
      if !ok {
        errors := errors + [Unanswered];
      }
      log := log + [e];
      CallGrows(old(Now()), Now(), next, e);
    }

    /** A call that creates neither import nor helper and deletes no volume. */
    method Change(next: World) returns (ok: bool)
      requires Mild(w, next) && Labelled(w, next)
      modifies this
      ensures w == next || (!ok && w == old(w))
      ensures errors == if ok then old(errors) else old(errors) + [Unanswered]
      ensures log == old(log) + [OtherChange] && answers == old(answers)
      ensures Undisturbed(old(Now()), Now())
    {
      hide Mild, Undisturbed, Begun, Labelled, Grown;
      MildSelf(w);
      ok := Call(next, OtherChange);
      Recorded(old(Now()), Now());
    }

    /** A call that changes addresses, keypairs or security groups. */
    method ChangeAccess(next: World) returns (ok: bool)
      requires next.images == w.images && next.volumes == w.volumes && next.servers == w.servers
      requires IpsLabelled(w.ips, next.ips) && KeypairsLabelled(w.keypairs, next.keypairs) && GroupsLabelled(w.groups, next.groups)
      modifies this
      ensures w == next || (!ok && w == old(w))
      ensures errors == if ok then old(errors) else old(errors) + [Unanswered]
      ensures log == old(log) + [OtherChange] && answers == old(answers)
      ensures Undisturbed(old(Now()), Now())
    {
      assert Mild(w, next) && Labelled(w, next) by {
        MildSelf(w);
      }
      hide Mild, Undisturbed, Begun, Labelled;
      ok := Change(next);
    }

    /** Time passes, and the cloud moves by itself. */
    method Drift()
      modifies this
      ensures Evolved(old(w), w)
      ensures errors == old(errors) && log == old(log) && answers == old(answers)
      ensures Undisturbed(old(Now()), Now())
    {
      var next: World := *;
      history := history + [w];
      if Evolved(w, next) {
        w := next;
      }
      EvolvedSelf(old(w));
      hide Mild, Undisturbed, Begun, Evolved, Labelled, Grown;
      MildEvolution(old(w), w);
      Recorded(old(Now()), Now());
    }

    /** A reading call: time has passed, and the answer shows the state `w`. */
    method Read(ghost what: Awaited := AwaitNothing) returns (ok: bool)
      modifies this
      ensures Evolved(old(w), w)
      ensures errors == if ok then old(errors) else old(errors) + [Unanswered]
      ensures answers == old(answers) + [Answer(what, if ok then Some(w) else None)]
      ensures log == old(log)
      ensures Undisturbed(old(Now()), Now())
    {
      hide Mild, Undisturbed, Begun, Evolved, Labelled, Grown;
      Drift();
      ghost var moved := Now();
      ok := *;
      answers := answers + [Answer(what, if ok then Some(w) else None)];
      if !ok {
        errors := errors + [Unanswered];
      }
      MildSelf(w);
      Recorded(moved, Now());
      Trans(old(Now()), moved, Now());
    }

    /** One poll of a wait that began in s0. */
    method Poll(ghost s0: Snapshot, ghost what: Awaited, ghost n: nat) returns (ok: bool)
      requires Polling(s0, Now(), what, n) && n < polls
      modifies this
      ensures Evolved(old(w), w) && Undisturbed(s0, Now())
      ensures log == old(log) && polls == old(polls)
      ensures ok ==> errors == old(errors)
      ensures !ok ==> errors == old(errors) + [Unanswered] && Waited(s0.answers, answers, polls, what, false)
      ensures ok && Settled(what, w) ==> Waited(s0.answers, answers, polls, what, true)
      ensures ok && Broken(what, w) ==> InVain(s0.answers, answers, polls, what)
      ensures ok && !Settled(what, w) && !Broken(what, w) ==> Polling(s0, Now(), what, n + 1)
    {
      hide Undisturbed, Evolved, Waited, InVain, Settled, Broken, Unsettled, Grown;
      ghost var before := Now();
      ok := Read(what);
      Trans(s0, before, Now());
      Grows(before, Now());
      WaitOver(s0.answers, before.answers, polls, what, answers[|answers| - 1].shown);
      if ok && !Settled(what, w) && !Broken(what, w) {
        StillUnsettled(s0.answers, before.answers, what, w);
      }
    }

    /** A wait that began in s0 ends without success: the deadline has passed, or what is awaited is gone or has failed. */
    ghost method GiveUp(s0: Snapshot, what: Awaited)
      requires Undisturbed(s0, Now()) && errors == s0.errors
      requires InVain(s0.answers, answers, polls, what) || Polling(s0, Now(), what, polls)
      modifies this`errors
      ensures Undisturbed(s0, Now())
      ensures errors == s0.errors + [GivingUp(s0.answers, answers, what)]
      ensures Waited(s0.answers, answers, polls, what, false)
    {
      hide Undisturbed, Waited, Unsettled, GivingUp, Grown, Justified;
      ghost var last := Now();
      if !InVain(s0.answers, answers, polls, what) {
        UpToTime(s0.answers, answers, polls, what);
      }
      GivingUpIsJustified(s0.answers, answers, polls, what);
      Fail(GivingUp(s0.answers, answers, what));
      GaveUp(s0, last, Now(), GivingUp(s0.answers, last.answers, what));
    }

    /** A step outside the resource API (a script on the helper, a transfer): it succeeds, which is recorded, or fails. */
    method Step(ghost e: Event) returns (ok: bool)
      requires !Changes(e) && !e.Uploaded? && !e.NormalizationStarted?
      modifies this
      ensures w == old(w) && answers == old(answers)
      ensures log == if ok then old(log) + [e] else old(log)
      ensures errors == if ok then old(errors) else old(errors) + [Unanswered]
      ensures Undisturbed(old(Now()), Now())
    {
      hide Mild, Undisturbed, Begun, Labelled, Grown;
      MildSelf(w);
      ok := *;
      if ok {
        log := log + [e];
      } else {
        errors := errors + [Unanswered];
      }
      Recorded(old(Now()), Now());
    }

    /** The script that converts the source volume, checks the result and fills the image with it. */
    method Fill(ghost image: Id, ghost source: Id, ghost scratch: Id) returns (ok: bool)
      modifies this
      ensures ok ==> Now() == old(Now()).(log := old(log) + [Uploaded(image, source, scratch)])
      ensures !ok ==> Now() == old(Now()).(errors := old(errors) + [Unanswered])
      ensures !ok ==> Undisturbed(old(Now()), Now())
    {
      hide Mild, Undisturbed, Begun, Labelled, Grown;
      MildSelf(w);
      ok := *;
      if ok {
        log := log + [Uploaded(image, source, scratch)];
      } else {
        errors := errors + [Unanswered];
        Recorded(old(Now()), Now());
      }
    }

    /** An operation gives up, for another cause than a call that failed. */
    ghost method Fail(cause: Cause)
      requires !cause.Unanswered?
      modifies this`errors
      ensures Now() == old(Now()).(errors := old(errors) + [cause])
    {
      errors := errors + [cause];
    }

    /** The operation goes on another way: errors since then do not end it. */
    ghost method Tolerate(earlier: seq<Cause>)
      requires earlier <= errors
      modifies this`errors, this`tolerated
      ensures Now() == old(Now()).(errors := earlier, tolerated := old(tolerated) + old(errors)[|earlier|..])
    {
      errors, tolerated := earlier, tolerated + errors[|earlier|..];
    }

    /** The operation goes on: errors since then are reported as warnings. */
    ghost method Warn(earlier: seq<Cause>)
      requires earlier <= errors
      modifies this`errors, this`warnings
      ensures Now() == old(Now()).(errors := earlier, warnings := old(warnings) + old(errors)[|earlier|..])
    {
      errors, warnings := earlier, warnings + errors[|earlier|..];
    }

    /** Records an observation that changes nothing. */
    ghost method Note(e: Event)
      requires !Changes(e)
      modifies this`log
      ensures log == old(log) + [e]
      ensures !e.Uploaded? ==> Begun(old(Now()), Now())
      ensures !e.Uploaded? && !e.NormalizationStarted? ==> Undisturbed(old(Now()), Now())
    {
      hide Mild, Undisturbed, Begun, Labelled, Grown;
      MildSelf(w);
      log := log + [e];
      if !e.Uploaded? {
        Recorded(old(Now()), Now());
      }
    }
  }

  /** An identifier no resource of this kind has. */
  method Fresh(used: set<Id>) returns (id: Id)
    ensures id !in used
  {
    var rest := used;
    id := 0;
    while rest != {}
      invariant rest <= used
      invariant forall i | i in used && i !in rest :: i < id
      decreases rest
    {
      var i :| i in rest;
      rest := rest - {i};
      id := if id <= i then i + 1 else id;
    }
  }
}
