// Giving the appliance a public address.
module PublicAddress {
  import opened Wrappers
  import opened Nics

  /** A public IP; `nic` is empty when it is attached to nothing. */
  datatype Ip = Ip(id: Id, address: string, nic: Id, managedBy: Option<string>)

  const INSTALLER := "coriolis-installer"

  /** What the server resource shows as the public IP of its NIC. */
  function Shown(shown: map<Id, string>, nic: Id): string {
    if nic in shown then shown[nic] else ""
  }

  ghost predicate Holds(ips: seq<Ip>, nic: Id, address: string) {
    exists i | 0 <= i < |ips| :: ips[i].nic == nic && ips[i].address == address
  }

  predicate Unattached(ips: seq<Ip>, nic: Id) {
    forall i | 0 <= i < |ips| :: ips[i].nic != nic
  }

  /** A NIC has at most one public IP, and the servers show the same as the IP table. */
  ghost predicate Agree(ips: seq<Ip>, shown: map<Id, string>) {
    && (forall i, j | 0 <= i < j < |ips| :: ips[i].nic != "" ==> ips[i].nic != ips[j].nic)
    && (forall i | 0 <= i < |ips| :: ips[i].address != "")
    && Shown(shown, "") == ""
    && (forall nic | nic != "" ::
          if Shown(shown, nic) != "" then Holds(ips, nic, Shown(shown, nic)) else Unattached(ips, nic))
  }

  /** Nothing changed, or one free IP was attached to `nic`, or one was created there. */
  ghost predicate AtMostOneAttached(before: seq<Ip>, after: seq<Ip>, nic: Id) {
    || after == before
    || (|after| == |before| + 1 && after[..|before|] == before && after[|before|].nic == nic)
    || (|after| == |before| && exists i | 0 <= i < |before| ::
          && before[i].nic == "" && after == before[i := after[i]]
          && after[i].nic == nic && after[i].id == before[i].id && after[i].address == before[i].address)
  }

  /** No IP is lost, renamed or taken from a NIC. */
  ghost predicate NoneMoved(before: seq<Ip>, after: seq<Ip>) {
    && |before| <= |after|
    && forall i | 0 <= i < |before| ::
         && after[i].id == before[i].id && after[i].address == before[i].address
         && (before[i].nic != "" ==> after[i].nic == before[i].nic)
  }

  /**
   * An address was taken only if it was free and, with a request, is the one named, and
   * without a request, was labelled as the installer's. One was created only without a
   * request. Both carry the label now.
   */
  ghost predicate RightfullyTaken(before: seq<Ip>, after: seq<Ip>, requestedId: Id, requestedAddress: string) {
    && |before| <= |after|
    && (forall i | 0 <= i < |before| && after[i] != before[i] ::
          && before[i].nic == "" && after[i].managedBy == Some("coriolis-installer")
          && if requestedId == "" && requestedAddress == "" then before[i].managedBy == Some("coriolis-installer")
             else requestedId in {"", before[i].id} && requestedAddress in {"", before[i].address})
    && (forall i | |before| <= i < |after| :: after[i].managedBy == Some("coriolis-installer"))
    && (|before| < |after| ==> requestedId == "" && requestedAddress == "")
  }

  lemma RightfullyTakenTrans(a: seq<Ip>, b: seq<Ip>, c: seq<Ip>, requestedId: Id, requestedAddress: string)
    requires RightfullyTaken(a, b, requestedId, requestedAddress) && NoneMoved(a, b)
    requires RightfullyTaken(b, c, requestedId, requestedAddress)
    ensures RightfullyTaken(a, c, requestedId, requestedAddress)
  {
    forall i | |a| <= i < |c|
      ensures c[i].managedBy == Some("coriolis-installer")
    {
      if i < |b| {
        assert b[i].managedBy == Some("coriolis-installer");
      }
    }
  }

  lemma OneAttachedMovesNone(before: seq<Ip>, after: seq<Ip>, nic: Id)
    requires AtMostOneAttached(before, after, nic)
    ensures NoneMoved(before, after)
  {
    if |after| == |before| + 1 {
      assert forall i | 0 <= i < |before| :: after[i] == after[..|before|][i];
    }
  }

  /** Attaching a free IP to a NIC without one, or creating one there, keeps the tables in agreement. */
  lemma AttachedAgrees(before: seq<Ip>, shown: map<Id, string>, i: nat, ip: Ip)
    requires Agree(before, shown) && i <= |before| && ip.nic != "" && ip.address != ""
    requires Unattached(before, ip.nic)
    requires i < |before| ==> before[i].nic == "" && before[i].address == ip.address
    ensures Agree(if i < |before| then before[i := ip] else before + [ip], shown[ip.nic := ip.address])
  {
    var after := if i < |before| then before[i := ip] else before + [ip];
    var now := shown[ip.nic := ip.address];
    forall nic | nic != ""
      ensures if Shown(now, nic) != "" then Holds(after, nic, Shown(now, nic)) else Unattached(after, nic)
    {
      if nic == ip.nic {
        assert after[i].nic == nic && after[i].address == Shown(now, nic);
      } else {
        assert Shown(now, nic) == Shown(shown, nic);
        if Shown(shown, nic) != "" {
          var k :| 0 <= k < |before| && before[k].nic == nic && before[k].address == Shown(shown, nic);
          assert after[k] == before[k];
        }
      }
    }
  }

  /** The servers, NICs and public IPs of a project. */
  class Network {
    var servers: map<Id, seq<ServerNic>>
    var nics: seq<Nic<Id>>
    var ips: seq<Ip>
    var shown: map<Id, string>
    ghost var errors: nat     // calls that failed so far
    ghost var attached: nat   // attachments made so far

    constructor (servers: map<Id, seq<ServerNic>>, nics: seq<Nic<Id>>, ips: seq<Ip>, shown: map<Id, string>)
      ensures this.servers == servers && this.nics == nics && this.ips == ips && this.shown == shown
      ensures errors == 0 && attached == 0
    {
      this.servers, this.nics, this.ips, this.shown := servers, nics, ips, shown;
      errors, attached := 0, 0;
    }

    /** A reading call is answered or fails. */
    method Answered() returns (ok: bool)
      modifies this`errors
      ensures errors == old(errors) + (if ok then 0 else 1)
    {
      ok := *;
      if !ok {
        errors := errors + 1;
      }
    }

    /**
     * Attaches a free IP to a NIC. The call may fail, and it may take effect although
     * its answer is lost.
     */
    method Attach(i: nat, nic: Id) returns (ok: bool)
      requires i < |ips| && ips[i].nic == "" && nic != ""
      modifies this`ips, this`shown, this`errors, this`attached
      ensures errors == old(errors) + (if ok then 0 else 1)
      ensures AtMostOneAttached(old(ips), ips, nic)
      ensures attached == old(attached) + (if ips == old(ips) then 0 else 1)
      ensures ips != old(ips) ==> ips == old(ips)[i := ips[i]] && ips[i].nic == nic && ips[i].managedBy == Some(INSTALLER)
      ensures ok ==> ips != old(ips) && ips[i].id == old(ips)[i].id && ips[i].address == old(ips)[i].address
      ensures Agree(old(ips), old(shown)) && Unattached(old(ips), nic) ==> Agree(ips, shown)
    {
      ok := *;
      var reached: bool := *;
      if ok || reached {
        var ip := Ip(ips[i].id, ips[i].address, nic, Some(INSTALLER));
        if Agree(ips, shown) && Unattached(ips, nic) {
          AttachedAgrees(ips, shown, i, ip);
        }
        ips, shown := ips[i := ip], shown[nic := ip.address];
        attached := attached + 1;
        assert ips[i] == ip && old(ips)[i].nic == "";
      }
      if !ok {
        errors := errors + 1;
      }
    }

    /** Creates a public IP at a NIC, with the same failures. */
    method Create(nic: Id) returns (ok: bool)
      requires nic != ""
      modifies this`ips, this`shown, this`errors, this`attached
      ensures errors == old(errors) + (if ok then 0 else 1)
      ensures AtMostOneAttached(old(ips), ips, nic)
      ensures attached == old(attached) + (if ips == old(ips) then 0 else 1)
      ensures ips != old(ips) ==> |ips| == |old(ips)| + 1 && ips[|old(ips)|].nic == nic
      ensures ips != old(ips) ==> ips[|old(ips)|].managedBy == Some(INSTALLER)
      ensures ok ==> ips != old(ips)
      ensures Agree(old(ips), old(shown)) && Unattached(old(ips), nic) ==> Agree(ips, shown)
    {
      ok := *;
      var reached: bool := *;
      if ok || reached {
        var id: Id, address: string := *, *;
        var ip := Ip(id, if address == "" then "0.0.0.0" else address, nic, Some(INSTALLER));
        if Agree(ips, shown) && Unattached(ips, nic) {
          AttachedAgrees(ips, shown, |ips|, ip);
        }
        ips, shown := ips + [ip], shown[nic := ip.address];
        attached := attached + 1;
      }
      if !ok {
        errors := errors + 1;
      }
    }
  }

  // ---------- The NIC of the server ----------

  /** Where the server resource, or else the NIC listing, attaches the server to the network, or "". */
  ghost function NicIn(n: Network, server: Id, network: Id): Id
    reads n
  {
    if server in n.servers then NicOf(n.servers[server], n.nics, network, server) else ""
  }

  /** The NIC and the address the server already shows there; both empty on an error or when there is none. */
  method LocateNic(n: Network, server: Id, network: Id) returns (nic: Id, address: string)
    modifies n`errors
    ensures nic != "" ==> nic == NicIn(n, server, network)
    ensures address != "" ==> server in n.servers && IsOwnNic(n.servers[server], network, nic) && address == Shown(n.shown, nic)
    ensures nic != "" || address != "" ==> n.errors == old(n.errors)
    ensures n.errors >= old(n.errors)
    ensures nic == "" && address == "" ==> n.errors > old(n.errors) || NicIn(n, server, network) == ""
  {
    hide IsOwnNic, IsDeviceNic, NicOf;
    var ok := n.Answered();
    if !ok || server !in n.servers {
      return "", "";
    }
    var own := n.servers[server];
    nic := FindOwnNic(own, network);
    address := Shown(n.shown, nic);
    if nic != "" {
      OwnComesFirst(own, network, nic);
      FoundNic(own, n.nics, network, server, nic);
    }
    if address != "" || nic != "" {
      return;
    }
    ok := n.Answered();
    if !ok {
      return;
    }
    nic := FindDeviceNic(n.nics, network, server);
    FoundNic(own, n.nics, network, server, nic);
  }

  // ---------- Choosing the address ----------

  /** The IP a request names; an empty part of it names nothing. */
  predicate Meets(ip: Ip, requestedId: Id, requestedAddress: string) {
    (requestedId == "" || ip.id == requestedId) && (requestedAddress == "" || ip.address == requestedAddress)
  }

  predicate Reusable(ip: Ip) {
    ip.managedBy == Some(INSTALLER) && ip.nic == ""
  }

  /** There is a request, and the first address that meets it, if there is one, is attached. */
  ghost predicate CannotBeMet(ips: seq<Ip>, requestedId: Id, requestedAddress: string) {
    && (requestedId != "" || requestedAddress != "")
    && forall k | 0 <= k < |ips| && Meets(ips[k], requestedId, requestedAddress) ::
         exists j | 0 <= j <= k :: ips[j].nic != "" && Meets(ips[j], requestedId, requestedAddress)
  }

  method FirstAttached(ips: seq<Ip>, nic: Id) returns (i: nat)
    ensures i <= |ips| && (i < |ips| ==> ips[i].nic == nic)
    ensures i == |ips| ==> Unattached(ips, nic)
  {
    i := 0;
    while i < |ips| && ips[i].nic != nic
      invariant i <= |ips| && forall k | 0 <= k < i :: ips[k].nic != nic
    {
      i := i + 1;
    }
  }

  method FirstRequested(ips: seq<Ip>, requestedId: Id, requestedAddress: string) returns (i: nat)
    ensures i <= |ips| && (i < |ips| ==> Meets(ips[i], requestedId, requestedAddress))
    ensures forall k | 0 <= k < i :: !Meets(ips[k], requestedId, requestedAddress)
  {
    i := 0;
    while i < |ips| && !Meets(ips[i], requestedId, requestedAddress)
      invariant i <= |ips| && forall k | 0 <= k < i :: !Meets(ips[k], requestedId, requestedAddress)
    {
      i := i + 1;
    }
  }

  method FirstReusable(ips: seq<Ip>) returns (i: nat)
    ensures i <= |ips| && (i < |ips| ==> Reusable(ips[i]))
    ensures forall k | 0 <= k < i :: !Reusable(ips[k])
  {
    i := 0;
    while i < |ips| && !Reusable(ips[i])
      invariant i <= |ips| && forall k | 0 <= k < i :: !Reusable(ips[k])
    {
      i := i + 1;
    }
  }

  /**
   * Attaches or creates an address at a NIC that has none. The request is met by an
   * IP that is free; without a request a managed free IP is used before a new one.
   */
  method Assign(n: Network, nic: Id, requestedId: Id, requestedAddress: string) returns (r: Result<string>)
    requires nic != "" && Unattached(n.ips, nic)
    modifies n`ips, n`shown, n`errors, n`attached
    ensures AtMostOneAttached(old(n.ips), n.ips, nic)
    ensures RightfullyTaken(old(n.ips), n.ips, requestedId, requestedAddress)
    ensures n.attached == old(n.attached) + (if n.ips == old(n.ips) then 0 else 1)
    ensures n.ips != old(n.ips) ==> !Unattached(n.ips, nic)
    ensures Agree(old(n.ips), old(n.shown)) ==> Agree(n.ips, n.shown)
    ensures r.Ok? ==> Holds(n.ips, nic, r.value) && n.errors == old(n.errors)
    ensures n.errors >= old(n.errors)
    ensures r.Ok? && (requestedId != "" || requestedAddress != "") ==>
              exists i | 0 <= i < |n.ips| :: n.ips[i].nic == nic && Meets(n.ips[i], requestedId, requestedAddress)
    ensures r.Ok? && requestedId == "" && requestedAddress == "" && |n.ips| > |old(n.ips)| ==>
              forall k | 0 <= k < |old(n.ips)| :: !Reusable(old(n.ips)[k])
    ensures r.Err? && n.errors == old(n.errors) ==>
              n.ips == old(n.ips) && CannotBeMet(n.ips, requestedId, requestedAddress)
  {
    var i;
    if requestedId != "" || requestedAddress != "" {
      i := FirstRequested(n.ips, requestedId, requestedAddress);
      if i == |n.ips| || n.ips[i].nic != "" {
        return Err;
      }
    } else {
      i := FirstReusable(n.ips);
      if i == |n.ips| {
        var ok := n.Create(nic);
        return if ok then Ok(n.ips[i].address) else Err;
      }
    }
    var ok := n.Attach(i, nic);
    r := if ok then Ok(n.ips[i].address) else Err;
  }

  /**
   * Returns the address of the server in the network, attaching one if it has none.
   * When the tables agree: the address returned is attached to the server's NIC, and
   * a server that has an address keeps it and nothing changes.
   */
  method EnsurePublicIP(n: Network, server: Id, network: Id, requestedId: Id, requestedAddress: string)
    returns (r: Result<string>)
    modifies n`ips, n`shown, n`errors, n`attached
    ensures NoneMoved(old(n.ips), n.ips) && AtMostOneAttached(old(n.ips), n.ips, NicIn(n, server, network))
    ensures RightfullyTaken(old(n.ips), n.ips, requestedId, requestedAddress)
    ensures n.attached == old(n.attached) + (if n.ips == old(n.ips) then 0 else 1)
    ensures var nic := NicIn(n, server, network);
            n.ips != old(n.ips) ==> nic != "" && Unattached(old(n.ips), nic) && !Unattached(n.ips, nic)
    ensures Agree(old(n.ips), old(n.shown)) ==> Agree(n.ips, n.shown)
    ensures r.Ok? ==> n.errors == old(n.errors)
    ensures n.errors >= old(n.errors)
    ensures var nic := NicIn(n, server, network);
            Agree(old(n.ips), old(n.shown)) && r.Ok? ==> nic != "" && Holds(n.ips, nic, r.value)
    ensures var nic := NicIn(n, server, network);
            r.Ok? && n.ips != old(n.ips) && (requestedId != "" || requestedAddress != "") ==>
              exists i | 0 <= i < |n.ips| :: n.ips[i].nic == nic && Meets(n.ips[i], requestedId, requestedAddress)
    ensures var nic := NicIn(n, server, network);
            n.errors == old(n.errors) && r.Err? ==>
              nic == "" || (n.ips == old(n.ips) && CannotBeMet(n.ips, requestedId, requestedAddress))
  {
    var nic, address := LocateNic(n, server, network);
    if address != "" {
      return Ok(address);
    }
    if nic == "" {
      return Err;
    }
    var ok := n.Answered();
    if !ok {
      return Err;
    }
    var i := FirstAttached(n.ips, nic);
    if i < |n.ips| {
      return Ok(n.ips[i].address);
    }
    hide Agree;
    r := Assign(n, nic, requestedId, requestedAddress);
    OneAttachedMovesNone(old(n.ips), n.ips, nic);
  }

  /** A NIC holds one address, by agreement of the tables. */
  lemma OneAddress(ips: seq<Ip>, shown: map<Id, string>, nic: Id, a: string, b: string)
    requires Agree(ips, shown) && nic != "" && Holds(ips, nic, a) && Holds(ips, nic, b)
    ensures a == b
  {
  }

  lemma NoneMovedTrans(a: seq<Ip>, b: seq<Ip>, c: seq<Ip>)
    requires NoneMoved(a, b) && NoneMoved(b, c)
    ensures NoneMoved(a, c)
  {
  }

  /**
   * Any number of runs, each failing or answered: together they attach at most one
   * address to the server, and no IP is moved. Once one was answered, every later one
   * that is answered returns the same address.
   */
  method RunRepeatedly(n: Network, server: Id, network: Id, requestedId: Id, requestedAddress: string, runs: nat)
    returns (answers: seq<string>)
    requires Agree(n.ips, n.shown)
    modifies n`ips, n`shown, n`errors, n`attached
    ensures Agree(n.ips, n.shown) && NoneMoved(old(n.ips), n.ips)
    ensures RightfullyTaken(old(n.ips), n.ips, requestedId, requestedAddress)
    ensures old(n.attached) <= n.attached <= old(n.attached) + 1
    ensures n.attached > old(n.attached) ==> Unattached(old(n.ips), NicIn(n, server, network))
    ensures forall a, b | a in answers && b in answers :: a == b
    ensures |answers| <= runs && n.errors >= old(n.errors)
    ensures NicIn(n, server, network) != "" && requestedId == "" && requestedAddress == "" ==>
              runs <= |answers| + (n.errors - old(n.errors))
    ensures forall a | a in answers :: Holds(n.ips, NicIn(n, server, network), a)
  {
    answers := [];
    ghost var nic := NicIn(n, server, network);
    for k := 0 to runs
      invariant Agree(n.ips, n.shown) && NoneMoved(old(n.ips), n.ips)
      invariant RightfullyTaken(old(n.ips), n.ips, requestedId, requestedAddress)
      invariant old(n.attached) <= n.attached <= old(n.attached) + 1
      invariant n.attached == old(n.attached) ==> n.ips == old(n.ips)
      invariant n.attached > old(n.attached) ==> nic != "" && Unattached(old(n.ips), nic) && !Unattached(n.ips, nic)
      invariant answers != [] ==> nic != ""
      invariant |answers| <= k && n.errors >= old(n.errors)
      invariant nic != "" && requestedId == "" && requestedAddress == "" ==> k <= |answers| + (n.errors - old(n.errors))
      invariant forall a | a in answers :: Holds(n.ips, nic, a)
    {
      ghost var before := n.ips;
      var r := EnsurePublicIP(n, server, network, requestedId, requestedAddress);
      RightfullyTakenTrans(old(n.ips), before, n.ips, requestedId, requestedAddress);
      NoneMovedTrans(old(n.ips), before, n.ips);
      forall a | a in answers ensures Holds(n.ips, nic, a) {
        HeldBefore(before, n.ips, nic, a);
      }
      if r.Ok? {
        answers := answers + [r.value];
      }
    }
    forall a, b | a in answers && b in answers ensures a == b {
      OneAddress(n.ips, n.shown, nic, a, b);
    }
  }

  lemma HeldBefore(before: seq<Ip>, after: seq<Ip>, nic: Id, address: string)
    requires NoneMoved(before, after) && nic != "" && Holds(before, nic, address)
    ensures Holds(after, nic, address)
  {
    var i :| 0 <= i < |before| && before[i].nic == nic && before[i].address == address;
    assert after[i].nic == nic && after[i].address == address;
  }
}
