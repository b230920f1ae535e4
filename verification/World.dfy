// The cloud as the installer sees it: every resource it lists, creates, labels
// or deletes, and one function for each kind of change an API call makes.
module World {
  import opened Wrappers

  type Id = nat
  type Project = string

  /** The hexadecimal SHA-256 of the OVA. Labels carry its first 32 or 12 characters. */
  type Sha = s: string | |s| == 64 witness seq(64, _ => '0')

  datatype Purpose = NoPurpose | Normalization | NormalizationScratch | OtherPurpose

  datatype ImageStatus = ImageCreating | ImageAvailable | ImageError | ImageOther

  datatype Image = Image(
    owner: Project,
    status: ImageStatus,
    sha: Option<string>,
    normalized: Option<string>,
    agent: bool,
    sharedWith: set<Project>,
    sharedOrg: bool,
    organization: set<Project>)

  datatype VolumeStatus =
    | VolumeCreating | VolumeDownloading | VolumeAvailable | VolumeAttached | VolumeError | VolumeOther

  datatype Volume = Volume(
    project: Project, managed: bool, purpose: Purpose, sha: Option<string>, performance: string, status: VolumeStatus)

  datatype ServerStatus = ServerCreating | ServerActive | ServerError | ServerDeleting | ServerDeleted

  datatype Server = Server(
    project: Project, managed: bool, purpose: Purpose, sha: Option<string>, status: ServerStatus)

  datatype PublicIp = PublicIp(
    project: Project, managed: bool, purpose: Purpose, sha: Option<string>, nic: Option<string>)

  datatype Keypair = Keypair(managed: bool, purpose: Purpose, project: Option<Project>, sha: Option<string>)

  datatype Rule = Rule(ingress: bool, description: string, protocol: string, cidr: string, port: int)

  datatype Group = Group(project: Project, name: string, managed: bool, rules: seq<Rule>)

  datatype World = World(
    images: map<Id, Image>,
    volumes: map<Id, Volume>,
    servers: map<Id, Server>,
    ips: map<Id, PublicIp>,
    keypairs: map<Id, Keypair>,
    groups: map<Id, Group>)

  /** fmt.Sprint of a label: a missing label prints as "<nil>", not as "". */
  function Sprint(value: Option<string>): string {
    if value.Some? then value.value else "<nil>"
  }

  // ---------- Images ----------

  const AGENT_V2 := "agent-v2"

  predicate LabelsMatch(img: Image, sha: Sha) {
    Sprint(img.sha) == sha[..32] && Sprint(img.normalized) == AGENT_V2
  }

  /** Listing with all=true shows a project its own images and those shared with it. */
  predicate Visible(img: Image, p: Project) {
    img.owner == p || p in img.sharedWith || (img.sharedOrg && p in img.organization)
  }

  /** An unfinished import of a normalized image. */
  predicate IsImport(img: Image) {
    img.status.ImageCreating? && img.sha.Some? && Sprint(img.normalized) == AGENT_V2
  }

  /** No project owns two unfinished imports with the same hash label. */
  ghost predicate OneImport(w: World) {
    forall i, j |
      && i in w.images && j in w.images
      && IsImport(w.images[i]) && IsImport(w.images[j])
      && w.images[i].owner == w.images[j].owner
      && w.images[i].sha == w.images[j].sha
      :: i == j
  }

  ghost predicate NoImport(w: World, p: Project, sha: Sha) {
    forall i | i in w.images && w.images[i].owner == p && w.images[i].sha == Some(sha[..32]) :: !IsImport(w.images[i])
  }

  /** Every unfinished import of b already was one in a, with the same owner and label. */
  ghost predicate NoNewImport(a: World, b: World) {
    forall i | i in b.images && IsImport(b.images[i]) ::
      i in a.images && IsImport(a.images[i]) && a.images[i].owner == b.images[i].owner && a.images[i].sha == b.images[i].sha
  }

  // ---------- Helper servers ----------

  predicate Live(s: Server) {
    !s.status.ServerDeleting? && !s.status.ServerDeleted?
  }

  predicate IsHelper(s: Server) {
    s.managed && s.purpose == Normalization && s.sha.Some?
  }

  /** No project has two live normalization helpers with the same hash label. */
  ghost predicate OneHelper(w: World) {
    forall i, j |
      && i in w.servers && j in w.servers
      && IsHelper(w.servers[i]) && IsHelper(w.servers[j])
      && Live(w.servers[i]) && Live(w.servers[j])
      && w.servers[i].project == w.servers[j].project
      && w.servers[i].sha == w.servers[j].sha
      :: i == j
  }

  /** Every live helper for this project and hash is one of `ids`. */
  ghost predicate HelpersWithin(w: World, p: Project, sha: Sha, ids: set<Id>) {
    forall i |
      && i in w.servers && IsHelper(w.servers[i]) && Live(w.servers[i])
      && w.servers[i].project == p && w.servers[i].sha == Some(sha[..12])
      :: i in ids
  }

  ghost predicate NoNewHelper(a: World, b: World) {
    forall i | i in b.servers && IsHelper(b.servers[i]) && Live(b.servers[i]) ::
      && i in a.servers && IsHelper(a.servers[i]) && Live(a.servers[i])
      && a.servers[i].project == b.servers[i].project && a.servers[i].sha == b.servers[i].sha
  }

  // ---------- Volumes ----------

  /** Every volume of a is still there, with the same labels. */
  ghost predicate VolumesKept(a: World, b: World) {
    forall v | v in a.volumes :: v in b.volumes && b.volumes[v] == a.volumes[v].(status := b.volumes[v].status)
  }

  // ---------- Temporary helper access ----------

  predicate IsHelperIp(ip: PublicIp, p: Project, sha: Sha) {
    ip.project == p && ip.managed && ip.purpose == Normalization && Sprint(ip.sha) == sha[..32]
  }

  predicate IsHelperKeypair(k: Keypair, p: Project, sha: Sha) {
    k.managed && k.purpose == Normalization && Sprint(k.project) == p && Sprint(k.sha) == sha[..32]
  }

  function HelperGroupName(sha: Sha): string {
    "coriolis-normalizer-ssh-" + sha[..12]
  }

  predicate IsHelperGroup(g: Group, p: Project, sha: Sha) {
    g.project == p && g.name == HelperGroupName(sha) && g.managed
  }

  /** No labelled public IP, keypair or helper security group is left for this hash. */
  ghost predicate NoAccess(w: World, p: Project, sha: Sha) {
    && (forall i | i in w.ips :: !IsHelperIp(w.ips[i], p, sha))
    && (forall i | i in w.keypairs :: !IsHelperKeypair(w.keypairs[i], p, sha))
    && (forall i | i in w.groups :: !IsHelperGroup(w.groups[i], p, sha))
  }

  /** The labels by which temporary access is found belong to one project and one hash. */
  lemma AccessLabels(ip: PublicIp, k: Keypair, g: Group, p: Project, sha: Sha)
    ensures IsHelperIp(ip, p, sha) <==> ip == PublicIp(p, true, Normalization, Some(sha[..32]), ip.nic)
    ensures |p| != 5 ==> (IsHelperKeypair(k, p, sha) <==> k == Keypair(true, Normalization, Some(p), Some(sha[..32])))
    ensures IsHelperGroup(g, p, sha) <==> g == Group(p, "coriolis-normalizer-ssh-" + sha[..12], true, g.rules)
  {
    assert |Sprint(None)| == 5 && |sha[..32]| == 32;
  }

  // ---------- Labels ----------

  predicate ImageLabelled(img: Image) { img.sha.Some? && img.normalized == Some(AGENT_V2) }

  predicate VolumeLabelled(v: Volume) { v.managed && v.sha.Some? }

  predicate ServerLabelled(s: Server) { s.managed && s.purpose == Normalization && s.sha.Some? }

  predicate IpLabelled(ip: PublicIp) { ip.managed && ip.purpose == Normalization && ip.sha.Some? }

  predicate KeypairLabelled(k: Keypair) { k.managed && k.purpose == Normalization && k.project.Some? && k.sha.Some? }

  ghost predicate ImagesLabelled(a: map<Id, Image>, b: map<Id, Image>) {
    forall i | i in b ::
      ImageLabelled(b[i]) || (i in a && b[i].owner == a[i].owner && b[i].sha == a[i].sha && b[i].normalized == a[i].normalized)
  }

  ghost predicate VolumesLabelled(a: map<Id, Volume>, b: map<Id, Volume>) {
    forall i | i in b :: VolumeLabelled(b[i]) || (i in a && b[i] == a[i].(status := b[i].status))
  }

  ghost predicate ServersLabelled(a: map<Id, Server>, b: map<Id, Server>) {
    forall i | i in b :: ServerLabelled(b[i]) || (i in a && b[i] == a[i].(status := b[i].status))
  }

  ghost predicate IpsLabelled(a: map<Id, PublicIp>, b: map<Id, PublicIp>) {
    forall i | i in b :: IpLabelled(b[i]) || (i in a && b[i] == a[i].(nic := b[i].nic))
  }

  ghost predicate KeypairsLabelled(a: map<Id, Keypair>, b: map<Id, Keypair>) {
    forall i | i in b :: KeypairLabelled(b[i]) || (i in a && b[i] == a[i])
  }

  ghost predicate GroupsLabelled(a: map<Id, Group>, b: map<Id, Group>) {
    forall i | i in b :: b[i].managed || (i in a && b[i] == a[i].(rules := b[i].rules))
  }

  /** Whatever b has carries the installer's labels, or was there in a with the labels it has. */
  ghost predicate Labelled(a: World, b: World) {
    && ImagesLabelled(a.images, b.images) && VolumesLabelled(a.volumes, b.volumes)
    && ServersLabelled(a.servers, b.servers) && IpsLabelled(a.ips, b.ips)
    && KeypairsLabelled(a.keypairs, b.keypairs) && GroupsLabelled(a.groups, b.groups)
  }

  lemma LabelledTrans(a: World, b: World, c: World)
    requires Labelled(a, b) && Labelled(b, c)
    ensures Labelled(a, c)
  {
  }

  // ---------- What happens by itself ----------

  predicate ImageEvolves(a: Image, b: Image) {
    b == a.(status := b.status) && (!a.status.ImageCreating? ==> b.status == a.status)
  }

  predicate ServerEvolves(a: Server, b: Server) {
    b == a.(status := b.status) && (Live(b) ==> Live(a))
  }

  predicate IpEvolves(a: PublicIp, b: PublicIp) {
    b == a.(nic := b.nic) && (b.nic == a.nic || b.nic.None?)
  }

  /** Same images, of which only the statuses of unfinished ones may differ. */
  ghost predicate ImagesEvolve(a: World, b: World) {
    b.images.Keys == a.images.Keys && forall i | i in b.images :: ImageEvolves(a.images[i], b.images[i])
  }

  /**
   * Asynchronous progress of the cloud between two API calls: imports finish or
   * fail, volumes and servers change status, deleted servers disappear and
   * their addresses detach. Nobody else creates or labels anything.
   */
  predicate Evolved(a: World, b: World) {
    && b.images.Keys == a.images.Keys
    && (forall i | i in b.images :: ImageEvolves(a.images[i], b.images[i]))
    && b.volumes.Keys == a.volumes.Keys
    && (forall i | i in b.volumes :: b.volumes[i] == a.volumes[i].(status := b.volumes[i].status))
    && b.servers.Keys <= a.servers.Keys
    && (forall i | i in b.servers :: ServerEvolves(a.servers[i], b.servers[i]))
    && b.ips.Keys == a.ips.Keys
    && (forall i | i in b.ips :: IpEvolves(a.ips[i], b.ips[i]))
    && b.keypairs == a.keypairs
    && b.groups == a.groups
  }

  // ---------- What API calls change ----------

  function CreateImage(w: World, id: Id, img: Image): World { w.(images := w.images[id := img]) }

  function DeleteImage(w: World, id: Id): World { w.(images := w.images - {id}) }

  function SetAgent(w: World, id: Id): World {
    if id in w.images then w.(images := w.images[id := w.images[id].(agent := true)]) else w
  }

  function ShareImage(w: World, id: Id, projects: set<Project>, org: bool): World {
    if id in w.images then
      var img := w.images[id];
      w.(images := w.images[id := img.(sharedWith := img.sharedWith + projects, sharedOrg := img.sharedOrg || org)])
    else w
  }

  function CreateVolume(w: World, id: Id, v: Volume): World { w.(volumes := w.volumes[id := v]) }

  function DeleteVolume(w: World, id: Id): World { w.(volumes := w.volumes - {id}) }

  function CreateServer(w: World, id: Id, s: Server): World { w.(servers := w.servers[id := s]) }

  /** A deleted server stays listed as DELETING until the cloud has removed it. */
  function DeleteServer(w: World, id: Id): World {
    if id in w.servers && Live(w.servers[id]) then
      w.(servers := w.servers[id := w.servers[id].(status := ServerDeleting)])
    else w
  }

  function CreateIp(w: World, id: Id, ip: PublicIp): World { w.(ips := w.ips[id := ip]) }

  function DeleteIp(w: World, id: Id): World { w.(ips := w.ips - {id}) }

  function CreateKeypair(w: World, id: Id, k: Keypair): World { w.(keypairs := w.keypairs[id := k]) }

  function DeleteKeypair(w: World, id: Id): World { w.(keypairs := w.keypairs - {id}) }

  function CreateGroup(w: World, id: Id, g: Group): World { w.(groups := w.groups[id := g]) }

  function DeleteGroup(w: World, id: Id): World { w.(groups := w.groups - {id}) }

  function CreateRule(w: World, id: Id, r: Rule): World {
    if id in w.groups then
      w.(groups := w.groups[id := w.groups[id].(rules := w.groups[id].rules + [r])])
    else w
  }

  // ---------- What the changes keep ----------

  /** Nothing that happens by itself adds an import or a helper. */
  lemma EvolutionAddsNothing(a: World, b: World)
    requires Evolved(a, b)
    ensures NoNewImport(a, b) && NoNewHelper(a, b)
  {
  }

  lemma NoNewKeepsOne(a: World, b: World)
    ensures OneImport(a) && NoNewImport(a, b) ==> OneImport(b)
    ensures OneHelper(a) && NoNewHelper(a, b) ==> OneHelper(b)
  {
  }

  /**
   * Requesting an import keeps the single-import invariant exactly when the
   * project has no unfinished import for that label yet.
   */
  lemma CreateImageKeepsOneImport(w: World, id: Id, img: Image, sha: Sha)
    requires OneImport(w) && id !in w.images
    requires IsImport(img) && img.sha == Some(sha[..32])
    ensures OneImport(CreateImage(w, id, img)) <==> NoImport(w, img.owner, sha)
  {
    var v := CreateImage(w, id, img);
    assert v.images[id] == img;
    if !NoImport(w, img.owner, sha) {
      var i :| i in w.images && w.images[i].owner == img.owner && w.images[i].sha == Some(sha[..32]) && IsImport(w.images[i]);
      assert v.images[i] == w.images[i] && i != id;
      assert !OneImport(v);
    }
  }

  /** Starting a helper keeps the single-helper invariant exactly when none is live. */
  lemma CreateServerKeepsOneHelper(w: World, id: Id, s: Server, sha: Sha)
    requires OneHelper(w) && id !in w.servers
    requires IsHelper(s) && Live(s) && s.sha == Some(sha[..12])
    ensures OneHelper(CreateServer(w, id, s)) <==> HelpersWithin(w, s.project, sha, {})
  {
    var v := CreateServer(w, id, s);
    assert v.servers[id] == s;
    if !HelpersWithin(w, s.project, sha, {}) {
      var i :| i in w.servers && IsHelper(w.servers[i]) && Live(w.servers[i])
               && w.servers[i].project == s.project && w.servers[i].sha == Some(sha[..12]);
      assert v.servers[i] == w.servers[i] && i != id;
      assert !OneHelper(v);
    }
  }
}
