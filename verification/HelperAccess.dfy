// The temporary public IP, keypair and security group of the normalization helper.
module HelperAccess {
  import opened Wrappers
  import opened World
  import opened CloudApi
  import Nics
  import SecurityGroups

  datatype Access = Access(keypair: Id, group: Id, ip: Option<Id>)

  const SSH_RULES := [Rule(true, "Temporary installer SSH upload", "tcp", "0.0.0.0/0", 22)]

  /** Of the addresses, only labelled ones disappear, and the others may detach. */
  ghost predicate IpsRemoved(a: World, b: World, p: Project, sha: Sha) {
    && (forall i | i in a.ips && !IsHelperIp(a.ips[i], p, sha) :: i in b.ips)
    && (forall i | i in b.ips :: i in a.ips && IpEvolves(a.ips[i], b.ips[i]))
  }

  ghost predicate KeypairsRemoved(a: World, b: World, p: Project, sha: Sha) {
    && (forall i | i in a.keypairs && !IsHelperKeypair(a.keypairs[i], p, sha) :: i in b.keypairs)
    && (forall i | i in b.keypairs :: i in a.keypairs && a.keypairs[i] == b.keypairs[i])
  }

  ghost predicate GroupsRemoved(a: World, b: World, p: Project, sha: Sha) {
    && (forall i | i in a.groups && !IsHelperGroup(a.groups[i], p, sha) :: i in b.groups)
    && (forall i | i in b.groups :: i in a.groups && a.groups[i] == b.groups[i])
  }

  /** Nothing but this hash's helper access disappears from project p. */
  ghost predicate OnlyAccessRemoved(a: World, b: World, p: Project, sha: Sha) {
    && ImagesEvolve(a, b)
    && b.volumes.Keys == a.volumes.Keys
    && IpsRemoved(a, b, p, sha) && KeypairsRemoved(a, b, p, sha) && GroupsRemoved(a, b, p, sha)
  }

  lemma IpsTrans(a: World, b: World, c: World, p: Project, sha: Sha)
    requires IpsRemoved(a, b, p, sha) && IpsRemoved(b, c, p, sha)
    ensures IpsRemoved(a, c, p, sha)
  {
  }

  lemma KeysTrans(a: World, b: World, c: World, p: Project, sha: Sha)
    requires KeypairsRemoved(a, b, p, sha) && KeypairsRemoved(b, c, p, sha)
    requires GroupsRemoved(a, b, p, sha) && GroupsRemoved(b, c, p, sha)
    ensures KeypairsRemoved(a, c, p, sha) && GroupsRemoved(a, c, p, sha)
  {
  }

  lemma OnlyAccessTrans(a: World, b: World, c: World, p: Project, sha: Sha)
    requires OnlyAccessRemoved(a, b, p, sha) && OnlyAccessRemoved(b, c, p, sha)
    ensures OnlyAccessRemoved(a, c, p, sha)
  {
    hide IpsRemoved, KeypairsRemoved, GroupsRemoved;
    IpsTrans(a, b, c, p, sha);
    KeysTrans(a, b, c, p, sha);
  }

  lemma EvolutionRemovesNoAccess(a: World, b: World, p: Project, sha: Sha)
    requires Evolved(a, b)
    ensures OnlyAccessRemoved(a, b, p, sha)
  {
  }

  predicate Deletable(ip: PublicIp, p: Project, sha: Sha) {
    IsHelperIp(ip, p, sha) && ip.nic.None?
  }

  /** Only labelled addresses that are attached to nothing are deleted, all of them when `done`. */
  ghost predicate IpsDeleted(before: map<Id, PublicIp>, after: map<Id, PublicIp>, p: Project, sha: Sha, done: bool) {
    && (forall i | i in after :: i in before && after[i] == before[i])
    && (forall i | i in before && !Deletable(before[i], p, sha) :: i in after)
    && (done ==> forall i | i in after :: !Deletable(after[i], p, sha))
  }

  ghost predicate KeypairsDeleted(before: map<Id, Keypair>, after: map<Id, Keypair>, p: Project, sha: Sha, done: bool) {
    && (forall i | i in after :: i in before && after[i] == before[i])
    && (forall i | i in before && !IsHelperKeypair(before[i], p, sha) :: i in after)
    && (done ==> forall i | i in after :: !IsHelperKeypair(after[i], p, sha))
  }

  ghost predicate GroupsDeleted(before: map<Id, Group>, after: map<Id, Group>, p: Project, sha: Sha, done: bool) {
    && (forall i | i in after :: i in before && after[i] == before[i])
    && (forall i | i in before && !IsHelperGroup(before[i], p, sha) :: i in after)
    && (done ==> forall i | i in after :: !IsHelperGroup(after[i], p, sha))
  }

  /** Deletions of one kind of labelled access from a listed state remove only access. */
  lemma DeletionRemovesAccess(a: World, listed: World, b: World, p: Project, sha: Sha)
    requires Evolved(a, listed) && b == listed.(ips := b.ips, keypairs := b.keypairs, groups := b.groups)
    requires b.ips == listed.ips || IpsDeleted(listed.ips, b.ips, p, sha, false)
    requires b.keypairs == listed.keypairs || KeypairsDeleted(listed.keypairs, b.keypairs, p, sha, false)
    requires b.groups == listed.groups || GroupsDeleted(listed.groups, b.groups, p, sha, false)
    ensures OnlyAccessRemoved(a, b, p, sha)
  {
    EvolutionRemovesNoAccess(a, listed, p, sha);
  }

  /** The keypair and the security group are there, labelled and open for SSH. */
  ghost predicate IsGranted(w: World, p: Project, sha: Sha, access: Access) {
    && access.keypair in w.keypairs && IsHelperKeypair(w.keypairs[access.keypair], p, sha)
    && access.group in w.groups && w.groups[access.group].project == p && w.groups[access.group].name == HelperGroupName(sha)
    && SecurityGroups.HasIngress(w.groups[access.group].rules, SSH_RULES[0].description)
  }

  lemma OpenForSSH(before: seq<Rule>, after: seq<Rule>)
    requires after == SecurityGroups.Converged(before, SSH_RULES)
    ensures SecurityGroups.HasIngress(after, SSH_RULES[0].description)
    ensures before == [] ==> after == [Rule(true, "Temporary installer SSH upload", "tcp", "0.0.0.0/0", 22)]
  {
    SecurityGroups.WantedIsThere(before, SSH_RULES, SSH_RULES[0]);
    assert SSH_RULES[1..] == [];
    assert SecurityGroups.Converged([], SSH_RULES) == SSH_RULES;
  }

  /**
   * A fresh keypair, and a security group for SSH that is reused by name. If there is no
   * group the keypair is withdrawn again, and is gone if that call does not fail.
   */
  method CreateHelperSSHAccess(c: Cloud, p: Project, sha: Sha) returns (r: Result<Access>)
    modifies c
    ensures Undisturbed(old(c.Now()), c.Now())
    ensures r.Ok? <==> c.errors == old(c.errors)
    ensures r.Ok? ==> r.value.ip.None? && r.value.keypair !in old(c.w).keypairs && IsGranted(c.w, p, sha, r.value)
    ensures r.Ok? && r.value.group !in old(c.w).groups ==>
              c.w.groups[r.value.group].rules == [Rule(true, "Temporary installer SSH upload", "tcp", "0.0.0.0/0", 22)]
    ensures forall k | k in c.w.keypairs && k !in old(c.w).keypairs :: IsHelperKeypair(c.w.keypairs[k], p, sha)
    ensures forall g | g in c.w.groups && g !in old(c.w).groups :: IsHelperGroup(c.w.groups[g], p, sha)
    ensures r.Err? && |c.answers| > |old(c.answers)| && |c.errors| == |old(c.errors)| + 1 ==> c.w.keypairs == old(c.w).keypairs
  {
    hide Undisturbed, Grown, SecurityGroups.GroupsGrow, SecurityGroups.Converged, SecurityGroups.Missing,
         SecurityGroups.HasIngress;
    var name := Fresh(c.w.keypairs.Keys);
    var keypair := Keypair(true, Normalization, Some(p), Some(sha[..32]));
    var ok := c.ChangeAccess(CreateKeypair(c.w, name, keypair));
    if !ok {
      return Err;
    }
    ghost var s1 := c.Now();
    var g := SecurityGroups.EnsureSecurityGroup(c, p, HelperGroupName(sha), SSH_RULES);
    ghost var s2 := c.Now();
    Trans(old(c.Now()), s1, s2);
    Grows(s1, s2);
    if g.Err? {
      var _ := c.ChangeAccess(DeleteKeypair(c.w, name));
      Trans(old(c.Now()), s2, c.Now());
      return Err;
    }
    OpenForSSH(if g.value in s1.w.groups then s1.w.groups[g.value].rules else [], c.w.groups[g.value].rules);
    return Ok(Access(name, g.value, None));
  }

  /**
   * One pass over the listed addresses: labelled ones are deleted unless still attached.
   * Nothing else changes.
   */
  method DeleteDetachedIps(c: Cloud, p: Project, sha: Sha) returns (ok: bool, pending: bool, ghost listed: World)
    modifies c
    ensures Undisturbed(old(c.Now()), c.Now())
    ensures Evolved(old(c.w), listed) && c.w == listed.(ips := c.w.ips) && IpsDeleted(listed.ips, c.w.ips, p, sha, ok)
    ensures OnlyAccessRemoved(old(c.w), c.w, p, sha)
    ensures ok ==> (pending <==> exists i | i in c.w.ips :: IsHelperIp(c.w.ips[i], p, sha))
    ensures ok ==> (pending <==> AnyAttached(listed, p, sha))
    ensures c.errors == if ok then old(c.errors) else old(c.errors) + [Unanswered]
    ensures ok ==> c.answers == old(c.answers) + [Answer(AwaitIps(p, sha), Some(listed))]
    ensures !ok ==> |c.answers| == |old(c.answers)| + 1
  {
    hide Undisturbed, OnlyAccessRemoved, Evolved, IsHelperIp;
    pending := false;
    ok := c.Read(AwaitIps(p, sha));
    listed := c.w;
    DeletionRemovesAccess(old(c.w), listed, c.w, p, sha);
    if !ok {
      return;
    }
    var rest := c.w.ips.Keys;
    while rest != {}
      invariant Undisturbed(old(c.Now()), c.Now())
      invariant c.w == listed.(ips := c.w.ips) && IpsDeleted(listed.ips, c.w.ips, p, sha, false)
      invariant OnlyAccessRemoved(old(c.w), c.w, p, sha)
      invariant rest <= c.w.ips.Keys
      invariant forall i | i in c.w.ips && Deletable(c.w.ips[i], p, sha) :: i in rest
      invariant pending <==> exists i | i in c.w.ips && i !in rest :: IsHelperIp(c.w.ips[i], p, sha)
      invariant pending <==> exists i | i in listed.ips && i !in rest :: IsHelperIp(listed.ips[i], p, sha) && listed.ips[i].nic.Some?
      invariant c.errors == old(c.errors)
      invariant c.answers == old(c.answers) + [Answer(AwaitIps(p, sha), Some(listed))]
      decreases rest
    {
      var i :| i in rest;
      rest := rest - {i};
      if IsHelperIp(c.w.ips[i], p, sha) {
        if c.w.ips[i].nic.Some? {
          pending := true;
        } else {
          ghost var before := c.Now();
          ok := c.ChangeAccess(DeleteIp(c.w, i));
          Trans(old(c.Now()), before, c.Now());
          DeletionRemovesAccess(old(c.w), listed, c.w, p, sha);
          if !ok {
            return;
          }
        }
      }
    }
  }

  method DeleteKeypairs(c: Cloud, p: Project, sha: Sha) returns (ok: bool, ghost listed: World)
    modifies c
    ensures Undisturbed(old(c.Now()), c.Now())
    ensures Evolved(old(c.w), listed) && c.w == listed.(keypairs := c.w.keypairs)
    ensures KeypairsDeleted(listed.keypairs, c.w.keypairs, p, sha, ok)
    ensures OnlyAccessRemoved(old(c.w), c.w, p, sha)
    ensures c.errors == if ok then old(c.errors) else old(c.errors) + [Unanswered]
  {
    hide Undisturbed, OnlyAccessRemoved, Evolved, IsHelperKeypair;
    ok := c.Read();
    listed := c.w;
    DeletionRemovesAccess(old(c.w), listed, c.w, p, sha);
    if !ok {
      return;
    }
    var rest := c.w.keypairs.Keys;
    while rest != {}
      invariant Undisturbed(old(c.Now()), c.Now())
      invariant c.w == listed.(keypairs := c.w.keypairs) && KeypairsDeleted(listed.keypairs, c.w.keypairs, p, sha, false)
      invariant OnlyAccessRemoved(old(c.w), c.w, p, sha)
      invariant rest <= c.w.keypairs.Keys
      invariant forall i | i in c.w.keypairs && IsHelperKeypair(c.w.keypairs[i], p, sha) :: i in rest
      invariant c.errors == old(c.errors)
      decreases rest
    {
      var i :| i in rest;
      rest := rest - {i};
      if IsHelperKeypair(c.w.keypairs[i], p, sha) {
        ghost var before := c.Now();
        ok := c.ChangeAccess(DeleteKeypair(c.w, i));
        Trans(old(c.Now()), before, c.Now());
        DeletionRemovesAccess(old(c.w), listed, c.w, p, sha);
        if !ok {
          return;
        }
      }
    }
  }

  method DeleteGroups(c: Cloud, p: Project, sha: Sha) returns (ok: bool, ghost listed: World)
    modifies c
    ensures Undisturbed(old(c.Now()), c.Now())
    ensures Evolved(old(c.w), listed) && c.w == listed.(groups := c.w.groups)
    ensures GroupsDeleted(listed.groups, c.w.groups, p, sha, ok)
    ensures OnlyAccessRemoved(old(c.w), c.w, p, sha)
    ensures c.errors == if ok then old(c.errors) else old(c.errors) + [Unanswered]
  {
    hide Undisturbed, OnlyAccessRemoved, Evolved, IsHelperGroup;
    ok := c.Read();
    listed := c.w;
    DeletionRemovesAccess(old(c.w), listed, c.w, p, sha);
    if !ok {
      return;
    }
    var rest := c.w.groups.Keys;
    while rest != {}
      invariant Undisturbed(old(c.Now()), c.Now())
      invariant c.w == listed.(groups := c.w.groups) && GroupsDeleted(listed.groups, c.w.groups, p, sha, false)
      invariant OnlyAccessRemoved(old(c.w), c.w, p, sha)
      invariant rest <= c.w.groups.Keys
      invariant forall i | i in c.w.groups && IsHelperGroup(c.w.groups[i], p, sha) :: i in rest
      invariant c.errors == old(c.errors)
      decreases rest
    {
      var i :| i in rest;
      rest := rest - {i};
      if IsHelperGroup(c.w.groups[i], p, sha) {
        ghost var before := c.Now();
        ok := c.ChangeAccess(DeleteGroup(c.w, i));
        Trans(old(c.Now()), before, c.Now());
        DeletionRemovesAccess(old(c.w), listed, c.w, p, sha);
        if !ok {
          return;
        }
      }
    }
  }

  /**
   * Passes over the addresses until none is pending. It fails with a call that fails, or
   * when every listing that there was time for showed a labelled address still attached.
   */
  method DeleteIps(c: Cloud, p: Project, sha: Sha) returns (ok: bool)
    modifies c
    ensures Undisturbed(old(c.Now()), c.Now())
    ensures OnlyAccessRemoved(old(c.w), c.w, p, sha)
    ensures ok ==> forall i | i in c.w.ips :: !IsHelperIp(c.w.ips[i], p, sha)
    ensures ok <==> c.errors == old(c.errors)
    ensures ok ==> Waited(old(c.answers), c.answers, c.polls, AwaitIps(p, sha), true)
    ensures !ok && c.errors != old(c.errors) + [Unanswered] ==>
              && |c.answers| == |old(c.answers)| + c.polls
              && forall k | |old(c.answers)| <= k < |c.answers| ::
                   c.answers[k].shown.Some? && AnyAttached(c.answers[k].shown.value, p, sha)
  {
    Unchanged(c.Now());
    OnlyAccessSelf(c.w, p, sha);
    ghost var what := AwaitIps(p, sha);
    assert Unsettled(c.answers, |c.answers|, what);
    hide Undisturbed, OnlyAccessRemoved, IsHelperIp, Waited, InVain, GivingUp, Justified, Unsettled, Settled, Grown, AnyAttached;
    for n := 0 to c.polls
      invariant Undisturbed(old(c.Now()), c.Now()) && c.polls == old(c.polls)
      invariant OnlyAccessRemoved(old(c.w), c.w, p, sha)
      invariant c.errors == old(c.errors)
      invariant old(c.answers) <= c.answers && |c.answers| == |old(c.answers)| + n
      invariant Unsettled(c.answers, |old(c.answers)|, what)
    {
      ghost var before := c.Now();
      var pending;
      ghost var listed;
      ok, pending, listed := DeleteDetachedIps(c, p, sha);
      Trans(old(c.Now()), before, c.Now());
      Grows(before, c.Now());
      OnlyAccessTrans(old(c.w), before.w, c.w, p, sha);
      if !ok {
        return;
      }
      if !pending {
        NoneAttached(listed, p, sha);
        WaitOver(old(c.answers), before.answers, c.polls, what, Some(listed));
        return;
      }
      SomeAttached(listed, p, sha);
      StillUnsettled(old(c.answers), before.answers, what, listed);
    }
    ghost var last := c.Now();
    UpToTime(old(c.answers), c.answers, c.polls, what);
    GivingUpIsJustified(old(c.answers), c.answers, c.polls, what);
    AlwaysAttached(c.answers, |old(c.answers)|, p, sha);
    c.Fail(GivingUp(old(c.answers), c.answers, what));
    GaveUp(old(c.Now()), last, c.Now(), GivingUp(old(c.answers), last.answers, what));
    ok := false;
  }

  ghost predicate AnyAttached(w: World, p: Project, sha: Sha) {
    exists i | i in w.ips :: IsHelperIp(w.ips[i], p, sha) && w.ips[i].nic.Some?
  }

  lemma NoneAttached(w: World, p: Project, sha: Sha)
    requires !AnyAttached(w, p, sha)
    ensures Settled(AwaitIps(p, sha), w)
  {
  }

  lemma SomeAttached(w: World, p: Project, sha: Sha)
    requires AnyAttached(w, p, sha)
    ensures !Settled(AwaitIps(p, sha), w)
  {
  }

  lemma AlwaysAttached(answers: seq<Answer>, since: nat, p: Project, sha: Sha)
    requires Unsettled(answers, since, AwaitIps(p, sha))
    ensures forall k | since <= k < |answers| :: answers[k].shown.Some? && AnyAttached(answers[k].shown.value, p, sha)
  {
  }

  lemma OnlyAccessSelf(w: World, p: Project, sha: Sha)
    ensures OnlyAccessRemoved(w, w, p, sha)
  {
  }

  lemma NoAccessStays(a: World, b: World, p: Project, sha: Sha)
    requires OnlyAccessRemoved(a, b, p, sha)
    ensures (forall i | i in a.ips :: !IsHelperIp(a.ips[i], p, sha)) ==> forall i | i in b.ips :: !IsHelperIp(b.ips[i], p, sha)
    ensures (forall i | i in a.keypairs :: !IsHelperKeypair(a.keypairs[i], p, sha)) ==>
              forall i | i in b.keypairs :: !IsHelperKeypair(b.keypairs[i], p, sha)
  {
  }

  /** Access as it was, except that addresses may have detached. */
  ghost predicate AccessEvolves(a: World, b: World) {
    && b.keypairs == a.keypairs && b.groups == a.groups
    && b.ips.Keys == a.ips.Keys && forall i | i in a.ips :: IpEvolves(a.ips[i], b.ips[i])
  }

  lemma AccessEvolved(a: World, b: World)
    requires Evolved(a, b)
    ensures AccessEvolves(a, b) && AccessEvolves(a, a)
  {
  }

  lemma AccessEvolvesTrans(a: World, b: World, c: World)
    requires AccessEvolves(a, b) && AccessEvolves(b, c)
    ensures AccessEvolves(a, c)
  {
  }

  lemma StillNoAccess(a: World, b: World, p: Project, sha: Sha)
    requires AccessEvolves(a, b) && NoAccess(a, p, sha)
    ensures NoAccess(b, p, sha)
  {
  }

  /**
   * Deletes all labelled helper access of this hash, waiting for addresses to detach. Success means that none is left.
   */
  method CleanupStaleHelperAccess(c: Cloud, p: Project, sha: Sha) returns (ok: bool)
    modifies c
    ensures Undisturbed(old(c.Now()), c.Now())
    ensures OnlyAccessRemoved(old(c.w), c.w, p, sha)
    ensures ok <==> c.errors == old(c.errors)
    ensures ok ==> NoAccess(c.w, p, sha)
  {
    hide Undisturbed, OnlyAccessRemoved, IsHelperIp, IsHelperKeypair, IsHelperGroup;
    ok := DeleteIps(c, p, sha);
    if !ok {
      return;
    }
    ghost var s1 := c.Now();
    ghost var listed;
    ok, listed := DeleteKeypairs(c, p, sha);
    ghost var s2 := c.Now();
    Trans(old(c.Now()), s1, s2);
    OnlyAccessTrans(old(c.w), s1.w, s2.w, p, sha);
    if !ok {
      return;
    }
    ok, listed := DeleteGroups(c, p, sha);
    Trans(old(c.Now()), s2, c.Now());
    OnlyAccessTrans(old(c.w), s2.w, c.w, p, sha);
    NoAccessStays(s1.w, s2.w, p, sha);
    NoAccessStays(s2.w, c.w, p, sha);
  }

  /** Deletes the access of this run by identifier; errors are only reported. */
  method CleanupHelperSSHAccess(c: Cloud, access: Option<Access>)
    modifies c
    ensures Undisturbed(old(c.Now()), c.Now())
    ensures c.w.servers == old(c.w).servers && c.w.images == old(c.w).images && c.w.volumes == old(c.w).volumes
    ensures access.Some? && c.errors == old(c.errors) ==>
              && c.w.ips == old(c.w).ips - (if access.value.ip.Some? then {access.value.ip.value} else {})
              && c.w.keypairs == old(c.w).keypairs - {access.value.keypair}
              && c.w.groups == old(c.w).groups - {access.value.group}
  {
    Unchanged(c.Now());
    hide Undisturbed;
    if access.None? {
      return;
    }
    ghost var s1 := c.Now();
    if access.value.ip.Some? {
      var _ := c.ChangeAccess(DeleteIp(c.w, access.value.ip.value));
      s1 := c.Now();
    }
    var _ := c.ChangeAccess(DeleteKeypair(c.w, access.value.keypair));
    ghost var s2 := c.Now();
    Trans(old(c.Now()), s1, s2);
    var _ := c.ChangeAccess(DeleteGroup(c.w, access.value.group));
    Trans(old(c.Now()), s2, c.Now());
  }

  /**
   * Reserves a labelled address for the helper's interface in the network. `own` is what
   * the server resource answers, `listed` what the listing of the network does.
   */
  method AssignHelperPublicIp(c: Cloud, p: Project, sha: Sha, access: Access, helper: Id, network: Nics.Id,
                              own: seq<Nics.ServerNic>, listed: seq<Nics.Nic<Id>>)
    returns (r: Result<Access>)
    modifies c
    ensures Undisturbed(old(c.Now()), c.Now())
    ensures r.Ok? ==> r.value.ip.Some? && r.value == access.(ip := r.value.ip)
    ensures r.Ok? ==>
              && r.value.ip.value in c.w.ips && r.value.ip.value !in old(c.w).ips
              && IsHelperIp(c.w.ips[r.value.ip.value], p, sha)
              && c.w.ips[r.value.ip.value].nic == Some(Nics.NicOf(own, listed, network, helper))
    ensures Nics.IsNicOf(own, listed, network, helper, "") ==> r.Err?
    ensures r.Ok? <==> c.errors == old(c.errors)
    ensures c.w.keypairs == old(c.w).keypairs && c.w.groups == old(c.w).groups
  {
    hide Undisturbed, Nics.IsOwnNic, Nics.IsDeviceNic, Nics.NicOf;
    var ok := c.Read();
    if !ok {
      return Err;
    }
    var nic := Nics.FindOwnNic(own, network);
    if nic == "" {
      ghost var s1 := c.Now();
      ok := c.Read();
      Trans(old(c.Now()), s1, c.Now());
      if !ok {
        return Err;
      }
      nic := Nics.FindDeviceNic(listed, network, helper);
    } else {
      Nics.OwnComesFirst(own, network, nic);
    }
    Nics.FoundNic(own, listed, network, helper, nic);
    if nic == "" {
      ghost var s2 := c.Now();
      c.Fail(NoInterface(own, listed, network, helper));
      GaveUp(old(c.Now()), s2, c.Now(), NoInterface(own, listed, network, helper));
      return Err;
    }
    if Nics.IsNicOf(own, listed, network, helper, "") {
      Nics.NicIsUnique(own, listed, network, helper, nic, "");
    }
    ghost var s2 := c.Now();
    var id := Fresh(c.w.ips.Keys);
    ok := c.ChangeAccess(CreateIp(c.w, id, PublicIp(p, true, Normalization, Some(sha[..32]), Some(nic))));
    Trans(old(c.Now()), s2, c.Now());
    return if ok then Ok(access.(ip := Some(id))) else Err;
  }
}
