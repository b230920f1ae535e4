// The network interface that attaches a server to a network.
module Nics {
  type Id = string

  /** An interface as the server resource shows it, and as the network's listing does. */
  datatype ServerNic = ServerNic(network: Id, nic: Id)
  datatype Nic<D> = Nic(id: Id, network: Id, device: D)

  /** `nic` belongs to the first entry in this network, or is empty because no entry is in it. */
  ghost predicate IsOwnNic(nics: seq<ServerNic>, network: Id, nic: Id) {
    || (exists i | 0 <= i < |nics| ::
          && nics[i].network == network && nics[i].nic == nic
          && forall k | 0 <= k < i :: nics[k].network != network)
    || (nic == "" && forall k | 0 <= k < |nics| :: nics[k].network != network)
  }

  predicate IsDevice<D(==)>(n: Nic<D>, network: Id, server: D) {
    n.network == network && n.device == server
  }

  /** `nic` is the first of the server in this network, or empty because there is none. */
  ghost predicate IsDeviceNic<D>(nics: seq<Nic<D>>, network: Id, server: D, nic: Id) {
    || (exists i | 0 <= i < |nics| ::
          && nics[i] == Nic(nic, network, server)
          && forall k | 0 <= k < i :: nics[k].network != network || nics[k].device != server)
    || (nic == "" && forall k | 0 <= k < |nics| :: nics[k].network != network || nics[k].device != server)
  }

  /** What the server resource shows comes first; the listing decides if that is nothing. */
  ghost predicate IsNicOf<D>(own: seq<ServerNic>, listed: seq<Nic<D>>, network: Id, server: D, nic: Id) {
    if IsOwnNic(own, network, "") then IsDeviceNic(listed, network, server, nic) else IsOwnNic(own, network, nic)
  }

  method FindOwnNic(nics: seq<ServerNic>, network: Id) returns (nic: Id)
    ensures IsOwnNic(nics, network, nic)
  {
    for i := 0 to |nics|
      invariant forall k | 0 <= k < i :: nics[k].network != network
    {
      if nics[i].network == network {
        return nics[i].nic;
      }
    }
    nic := "";
  }

  method FindDeviceNic<D(==)>(nics: seq<Nic<D>>, network: Id, server: D) returns (nic: Id)
    ensures IsDeviceNic(nics, network, server, nic)
  {
    for i := 0 to |nics|
      invariant forall k | 0 <= k < i :: !IsDevice(nics[k], network, server)
    {
      if IsDevice(nics[i], network, server) {
        return nics[i].id;
      }
    }
    nic := "";
  }

  lemma OwnNicIsUnique(nics: seq<ServerNic>, network: Id, a: Id, b: Id)
    requires IsOwnNic(nics, network, a) && IsOwnNic(nics, network, b)
    ensures a == b
  {
  }

  lemma DeviceNicIsUnique<D>(nics: seq<Nic<D>>, network: Id, server: D, a: Id, b: Id)
    requires IsDeviceNic(nics, network, server, a) && IsDeviceNic(nics, network, server, b)
    ensures a == b
  {
  }

  lemma OwnComesFirst(own: seq<ServerNic>, network: Id, nic: Id)
    requires IsOwnNic(own, network, nic) && nic != ""
    ensures !IsOwnNic(own, network, "")
  {
    hide IsOwnNic;
    if IsOwnNic(own, network, "") {
      OwnNicIsUnique(own, network, nic, "");
    }
  }

  /** The two answers name one interface, or none. */
  lemma NicIsUnique<D>(own: seq<ServerNic>, listed: seq<Nic<D>>, network: Id, server: D, a: Id, b: Id)
    requires IsNicOf(own, listed, network, server, a) && IsNicOf(own, listed, network, server, b)
    ensures a == b
  {
    hide IsOwnNic, IsDeviceNic;
    if IsOwnNic(own, network, "") {
      DeviceNicIsUnique(listed, network, server, a, b);
    } else {
      OwnNicIsUnique(own, network, a, b);
    }
  }

  /** The interface of the server, or "". */
  ghost function NicOf<D>(own: seq<ServerNic>, listed: seq<Nic<D>>, network: Id, server: D): Id {
    if exists nic :: IsNicOf(own, listed, network, server, nic) then
      var nic :| IsNicOf(own, listed, network, server, nic);
      nic
    else ""
  }

  lemma FoundNic<D>(own: seq<ServerNic>, listed: seq<Nic<D>>, network: Id, server: D, nic: Id)
    requires IsNicOf(own, listed, network, server, nic)
    ensures nic == NicOf(own, listed, network, server)
  {
    NicIsUnique(own, listed, network, server, nic, NicOf(own, listed, network, server));
  }
}
