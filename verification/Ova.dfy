// Finding the disk of an appliance archive in two passes, and streaming it.
module Ova {
  import opened Wrappers
  import Scratch

  datatype File = File(id: string, href: string)
  datatype Disk = Disk(capacity: string, ref: string)
  datatype Config = Config(key: string, value: string)
  datatype Item = Item(resourceType: string, quantity: string)

  /** What a descriptor decodes to; a missing name or description leaves an earlier one in place. */
  datatype Ovf = Ovf(
    name: Option<string>, os: Option<string>, disks: seq<Disk>, files: seq<File>, configs: seq<Config>, items: seq<Item>)

  const EMPTY := Ovf(None, None, [], [], [], [])

  /** A member of the archive; `ovf` is what its bytes decode to as a descriptor. */
  datatype Member = Member(name: string, size: nat, ovf: Option<Ovf>)

  /** An archive with the digest of its bytes; a broken one fails to read after the members given. */
  datatype Archive = Archive(members: seq<Member>, broken: bool, digest: string)

  datatype Info = Info(
    ovfName: string, diskName: string, diskFileBytes: nat, sha256: string, name: string, os: string,
    firmware: string, vcpus: int, memoryMiB: int, diskGiB: int)

  // ---------- Numbers ----------

  /** White space that trimming removes. */
  predicate IsSpace(c: char) {
    || c == ' ' || '\t' <= c <= '\r' || c == '\U{85}' || c == '\U{A0}' || c == '\U{1680}'
    || '\U{2000}' <= c <= '\U{200A}' || c == '\U{2028}' || c == '\U{2029}' || c == '\U{202F}' || c == '\U{205F}' || c == '\U{3000}'
  }

  function Trim(s: string): string {
    if s != "" && IsSpace(s[0]) then Trim(s[1..])
    else if s != "" && IsSpace(s[|s| - 1]) then Trim(s[..|s| - 1])
    else s
  }

  predicate IsDigit(c: char) {
    '0' <= c <= '9'
  }

  /** Reading digits from the left stops at the first character that is none, or when 64 bits are exceeded. */
  datatype Scanned = Digits(value: nat) | NoNumber | TooLarge

  function Scan(s: string): Scanned {
    if s == "" then Digits(0)
    else
      var before, c := Scan(s[..|s| - 1]), s[|s| - 1];
      if !before.Digits? then before
      else if !IsDigit(c) then NoNumber
      else
        var value := before.value * 10 + (c as int - '0' as int);
        if value >= Scratch.TWO64 then TooLarge else Digits(value)
  }

  function Clamp(value: int): int {
    if value > Scratch.MAX64 then Scratch.MAX64 else if value < -Scratch.MAX64 - 1 then -Scratch.MAX64 - 1 else value
  }

  /** strconv.ParseInt without its error: 0 for what is no number, the nearest 64-bit number for what is too large. */
  function ParseInt(s: string): int {
    var negative := s != "" && s[0] == '-';
    var digits := if s != "" && (s[0] == '-' || s[0] == '+') then s[1..] else s;
    if digits == "" then 0
    else
      match Scan(digits)
      case NoNumber => 0
      case TooLarge => if negative then -Scratch.MAX64 - 1 else Scratch.MAX64
      case Digits(value) =>
        var signed: int := value;
        Clamp(if negative then -signed else signed)
  }

  function Decimal(n: nat): string {
    var last := ['0' + (n % 10) as char];
    if n < 10 then last else Decimal(n / 10) + last
  }

  lemma {:induction false} ScanDecimal(n: nat)
    requires n < Scratch.TWO64
    ensures Scan(Decimal(n)) == Digits(n) && Decimal(n) != "" && IsDigit(Decimal(n)[0])
  {
    var s := Decimal(n);
    if n >= 10 {
      ScanDecimal(n / 10);
      assert s[..|s| - 1] == Decimal(n / 10);
    } else {
      assert s[..|s| - 1] == "";
    }
  }

  /** A number written in decimal is read back, up to the largest of 64 bits; a larger one is read as that. */
  lemma ParsedDecimal(n: nat)
    requires n < Scratch.TWO64
    ensures ParseInt(Decimal(n)) == Clamp(n)
  {
    ScanDecimal(n);
  }

  // ---------- The inspection ----------

  /** The name ends in ".ovf", in any case. */
  predicate IsDescriptor(name: string) {
    var n := |name|;
    && n >= 4 && name[n - 4] == '.'
    && (name[n - 3] == 'o' || name[n - 3] == 'O')
    && (name[n - 2] == 'v' || name[n - 2] == 'V')
    && (name[n - 1] == 'f' || name[n - 1] == 'F')
  }

  /** Every descriptor decodes. */
  predicate Readable(members: seq<Member>) {
    forall m | m in members && IsDescriptor(m.name) :: m.ovf.Some?
  }

  function Merge(a: Ovf, b: Ovf): Ovf {
    Ovf(if b.name.Some? then b.name else a.name, if b.os.Some? then b.os else a.os,
        a.disks + b.disks, a.files + b.files, a.configs + b.configs, a.items + b.items)
  }

  /** All descriptors together: each one decoded adds its lists to those before. */
  function Decoded(members: seq<Member>): Ovf
    requires Readable(members)
  {
    if members == [] then EMPTY
    else
      var before := Decoded(members[..|members| - 1]);
      var m := members[|members| - 1];
      if IsDescriptor(m.name) then Merge(before, m.ovf.value) else before
  }

  function LastDescriptor(members: seq<Member>): string {
    if members == [] then ""
    else if IsDescriptor(members[|members| - 1].name) then members[|members| - 1].name
    else LastDescriptor(members[..|members| - 1])
  }

  /** The size of the last member of this name, or 0. */
  function LastSize(members: seq<Member>, name: string): nat {
    if members == [] then 0
    else if members[|members| - 1].name == name then members[|members| - 1].size
    else LastSize(members[..|members| - 1], name)
  }

  /** The size of the first member of this name. */
  function FirstSize(members: seq<Member>, name: string): Option<nat> {
    if members == [] then None
    else if members[0].name == name then Some(members[0].size)
    else FirstSize(members[1..], name)
  }

  /** The file the reference names: the last with that identity, or "". */
  function HrefOf(files: seq<File>, ref: string): string {
    if files == [] then ""
    else if files[|files| - 1].id == ref then files[|files| - 1].href
    else HrefOf(files[..|files| - 1], ref)
  }

  /** The value of the last configuration entry with this key, or "". */
  function LastConfig(configs: seq<Config>, key: string): string {
    if configs == [] then ""
    else if configs[|configs| - 1].key == key then configs[|configs| - 1].value
    else LastConfig(configs[..|configs| - 1], key)
  }

  /** The quantity of the last hardware item of this type, or 0. */
  function LastQuantity(items: seq<Item>, resourceType: string): int {
    if items == [] then 0
    else if items[|items| - 1].resourceType == resourceType then ParseInt(Trim(items[|items| - 1].quantity))
    else LastQuantity(items[..|items| - 1], resourceType)
  }

  function TextOf(text: Option<string>): string {
    if text.Some? then text.value else ""
  }

  /**
   * What the inspection finds. In the first pass the disk name is still empty, so only
   * a member without a name can set the size there; the second pass runs if none did.
   */
  function Inspected(archive: Archive): Result<Info> {
    if archive.broken || !Readable(archive.members) then Err
    else
      var ovf := Decoded(archive.members);
      var ovfName := LastDescriptor(archive.members);
      if |ovf.disks| != 1 then Err
      else
        var diskName := HrefOf(ovf.files, ovf.disks[0].ref);
        if ovfName == "" || diskName == "" then Err
        else
          var unnamed := LastSize(archive.members, "");
          var second := FirstSize(archive.members, diskName);
          var size := if unnamed != 0 then unnamed else if second.Some? then second.value else 0;
          if size < 1 then Err
          else
            Ok(Info(ovfName, diskName, size, archive.digest, TextOf(ovf.name), TextOf(ovf.os),
                    LastConfig(ovf.configs, "firmware"), LastQuantity(ovf.items, "3"), LastQuantity(ovf.items, "4"),
                    ParseInt(ovf.disks[0].capacity)))
  }

  method FirstPass(members: seq<Member>) returns (ok: bool, ovf: Ovf, ovfName: string, unnamed: nat)
    ensures ok <==> Readable(members)
    ensures ok ==> ovf == Decoded(members) && ovfName == LastDescriptor(members) && unnamed == LastSize(members, "")
  {
    ovf, ovfName, unnamed := EMPTY, "", 0;
    var diskName := "";
    for k := 0 to |members|
      invariant Readable(members[..k])
      invariant ovf == Decoded(members[..k]) && ovfName == LastDescriptor(members[..k])
      invariant unnamed == LastSize(members[..k], "")
    {
      var m := members[k];
      assert members[..k + 1][..k] == members[..k];
      if IsDescriptor(m.name) {
        if m.ovf.None? {
          assert m in members;
          return false, ovf, ovfName, unnamed;
        }
        ovf := Merge(ovf, m.ovf.value);
        ovfName := m.name;
      }
      if m.name == diskName {
        unnamed := m.size;
      }
    }
    assert members[..|members|] == members;
    ok := true;
  }

  method FindFile(files: seq<File>, ref: string) returns (href: string)
    ensures href == HrefOf(files, ref)
  {
    href := "";
    for k := 0 to |files|
      invariant href == HrefOf(files[..k], ref)
    {
      assert files[..k + 1][..k] == files[..k];
      if files[k].id == ref {
        href := files[k].href;
      }
    }
    assert files[..|files|] == files;
  }

  method FindFirmware(configs: seq<Config>) returns (firmware: string)
    ensures firmware == LastConfig(configs, "firmware")
  {
    firmware := "";
    for k := 0 to |configs|
      invariant firmware == LastConfig(configs[..k], "firmware")
    {
      assert configs[..k + 1][..k] == configs[..k];
      if configs[k].key == "firmware" {
        firmware := configs[k].value;
      }
    }
    assert configs[..|configs|] == configs;
  }

  method FindHardware(items: seq<Item>) returns (vcpus: int, memoryMiB: int)
    ensures vcpus == LastQuantity(items, "3") && memoryMiB == LastQuantity(items, "4")
  {
    vcpus, memoryMiB := 0, 0;
    for k := 0 to |items|
      invariant vcpus == LastQuantity(items[..k], "3") && memoryMiB == LastQuantity(items[..k], "4")
    {
      assert items[..k + 1][..k] == items[..k];
      var quantity := ParseInt(Trim(items[k].quantity));
      if items[k].resourceType == "3" {
        vcpus := quantity;
      }
      if items[k].resourceType == "4" {
        memoryMiB := quantity;
      }
    }
    assert items[..|items|] == items;
  }

  /** The scan for a member by its name, in the second pass and when the disk is opened. */
  method FindMember(members: seq<Member>, name: string) returns (k: nat)
    ensures k <= |members|
    ensures k < |members| ==> members[k].name == name && FirstSize(members, name) == Some(members[k].size)
    ensures k == |members| ==> FirstSize(members, name) == None
    ensures forall j | 0 <= j < k :: members[j].name != name
  {
    k := 0;
    assert members[0..] == members;
    while k < |members| && members[k].name != name
      invariant k <= |members| && forall j | 0 <= j < k :: members[j].name != name
      invariant FirstSize(members, name) == FirstSize(members[k..], name)
    {
      assert members[k..][1..] == members[k + 1..];
      k := k + 1;
    }
  }

  method InspectOVA(archive: Archive) returns (r: Result<Info>)
    ensures r == Inspected(archive)
  {
    var ok, ovf, ovfName, size := FirstPass(archive.members);
    if !ok || archive.broken {
      return Err;
    }
    var firmware := FindFirmware(ovf.configs);
    var vcpus, memoryMiB := FindHardware(ovf.items);
    if |ovf.disks| != 1 {
      return Err;
    }
    var diskGiB := ParseInt(ovf.disks[0].capacity);
    var diskName := FindFile(ovf.files, ovf.disks[0].ref);
    if ovfName == "" || diskName == "" {
      return Err;
    }
    if size == 0 {
      var k := FindMember(archive.members, diskName);
      if k < |archive.members| {
        size := archive.members[k].size;
      }
    }
    if size < 1 {
      return Err;
    }
    r := Ok(Info(ovfName, diskName, size, archive.digest, TextOf(ovf.name), TextOf(ovf.os), firmware, vcpus, memoryMiB, diskGiB));
  }

  /** Opens the disk for the upload: the first member of that name, wherever the archive breaks later. */
  method OpenDisk(archive: Archive, info: Info) returns (r: Option<nat>)
    ensures r == FirstSize(archive.members, info.diskName)
  {
    var k := FindMember(archive.members, info.diskName);
    r := if k < |archive.members| then Some(archive.members[k].size) else None;
  }

  // ---------- What is read, entry by entry ----------

  /** The last entry of a list that matches. */
  ghost predicate IsLast<T(!new)>(list: seq<T>, k: int, matches: T -> bool) {
    0 <= k < |list| && matches(list[k]) && forall j | k < j < |list| :: !matches(list[j])
  }

  predicate HasOvf(m: Member) {
    IsDescriptor(m.name) && m.ovf.Some?
  }

  /** Entry k of this descriptor is the last of all descriptors that matches. */
  ghost predicate IsLastOf<T(!new)>(members: seq<Member>, m: int, k: int, list: Ovf -> seq<T>, matches: T -> bool) {
    && 0 <= m < |members| && HasOvf(members[m]) && IsLast(list(members[m].ovf.value), k, matches)
    && forall n | m < n < |members| && HasOvf(members[n]) :: NoneIn(list(members[n].ovf.value), matches)
  }

  ghost predicate NoneIn<T(!new)>(list: seq<T>, matches: T -> bool) {
    forall j | 0 <= j < |list| :: !matches(list[j])
  }

  ghost predicate NoneOf<T(!new)>(members: seq<Member>, list: Ovf -> seq<T>, matches: T -> bool) {
    forall n | 0 <= n < |members| && HasOvf(members[n]) :: NoneIn(list(members[n].ovf.value), matches)
  }

  /** A list that decoding appends to. */
  ghost predicate Appends<T(!new)>(list: Ovf -> seq<T>) {
    list(EMPTY) == [] && forall a, b :: list(Merge(a, b)) == list(a) + list(b)
  }

  lemma {:induction false} LastIsDecoded<T(!new)>(members: seq<Member>, m: nat, k: nat, list: Ovf -> seq<T>, matches: T -> bool)
    returns (d: nat)
    requires Readable(members) && Appends(list) && IsLastOf(members, m, k, list, matches)
    ensures IsLast(list(Decoded(members)), d, matches) && list(Decoded(members))[d] == list(members[m].ovf.value)[k]
    decreases |members|
  {
    var rest, last := members[..|members| - 1], members[|members| - 1];
    if m == |members| - 1 {
      d := |list(Decoded(rest))| + k;
    } else {
      d := LastIsDecoded(rest, m, k, list, matches);
      assert HasOvf(last) ==> list(Decoded(members)) == list(Decoded(rest)) + list(last.ovf.value);
    }
  }

  lemma {:induction false} NoneIsDecoded<T(!new)>(members: seq<Member>, list: Ovf -> seq<T>, matches: T -> bool)
    requires Readable(members) && Appends(list) && NoneOf(members, list, matches)
    ensures NoneIn(list(Decoded(members)), matches)
    decreases |members|
  {
    if members != [] {
      var last := members[|members| - 1];
      NoneIsDecoded(members[..|members| - 1], list, matches);
      if IsDescriptor(last.name) {
        assert last in members && HasOvf(last);
        assert NoneIn(list(last.ovf.value), matches);
      }
    }
  }

  lemma {:induction false} QuantityAt(items: seq<Item>, k: nat, resourceType: string)
    requires IsLast(items, k, (i: Item) => i.resourceType == resourceType)
    ensures LastQuantity(items, resourceType) == ParseInt(Trim(items[k].quantity))
  {
    if k < |items| - 1 {
      QuantityAt(items[..|items| - 1], k, resourceType);
    }
  }

  lemma {:induction false} NoQuantity(items: seq<Item>, resourceType: string)
    requires NoneIn(items, (i: Item) => i.resourceType == resourceType)
    ensures LastQuantity(items, resourceType) == 0
  {
    if items != [] {
      NoQuantity(items[..|items| - 1], resourceType);
    }
  }

  lemma {:induction false} ConfigAt(configs: seq<Config>, k: nat, key: string)
    requires IsLast(configs, k, (c: Config) => c.key == key)
    ensures LastConfig(configs, key) == configs[k].value
  {
    if k < |configs| - 1 {
      ConfigAt(configs[..|configs| - 1], k, key);
    }
  }

  lemma {:induction false} NoConfig(configs: seq<Config>, key: string)
    requires NoneIn(configs, (c: Config) => c.key == key)
    ensures LastConfig(configs, key) == ""
  {
    if configs != [] {
      NoConfig(configs[..|configs| - 1], key);
    }
  }

  lemma {:induction false} HrefAt(files: seq<File>, k: nat, ref: string)
    requires IsLast(files, k, (f: File) => f.id == ref)
    ensures HrefOf(files, ref) == files[k].href
  {
    if k < |files| - 1 {
      HrefAt(files[..|files| - 1], k, ref);
    }
  }

  lemma {:induction false} NoHref(files: seq<File>, ref: string)
    requires NoneIn(files, (f: File) => f.id == ref)
    ensures HrefOf(files, ref) == ""
  {
    if files != [] {
      NoHref(files[..|files| - 1], ref);
    }
  }

  /** The number of vCPUs is that of the last item of type 3 in the archive, the memory that of the last of type 4. */
  lemma HardwareIsFound(archive: Archive, m: nat, k: nat)
    requires Inspected(archive).Ok?
    ensures IsLastOf(archive.members, m, k, (o: Ovf) => o.items, (i: Item) => i.resourceType == "3") ==>
              Inspected(archive).value.vcpus == ParseInt(Trim(archive.members[m].ovf.value.items[k].quantity))
    ensures IsLastOf(archive.members, m, k, (o: Ovf) => o.items, (i: Item) => i.resourceType == "4") ==>
              Inspected(archive).value.memoryMiB == ParseInt(Trim(archive.members[m].ovf.value.items[k].quantity))
    ensures NoneOf(archive.members, (o: Ovf) => o.items, (i: Item) => i.resourceType == "3") ==> Inspected(archive).value.vcpus == 0
    ensures NoneOf(archive.members, (o: Ovf) => o.items, (i: Item) => i.resourceType == "4") ==>
              Inspected(archive).value.memoryMiB == 0
  {
    QuantityIsFound(archive.members, m, k, "3");
    QuantityIsFound(archive.members, m, k, "4");
  }

  lemma QuantityIsFound(members: seq<Member>, m: nat, k: nat, resourceType: string)
    requires Readable(members)
    ensures IsLastOf(members, m, k, (o: Ovf) => o.items, (i: Item) => i.resourceType == resourceType) ==>
              LastQuantity(Decoded(members).items, resourceType) == ParseInt(Trim(members[m].ovf.value.items[k].quantity))
    ensures NoneOf(members, (o: Ovf) => o.items, (i: Item) => i.resourceType == resourceType) ==>
              LastQuantity(Decoded(members).items, resourceType) == 0
  {
    var list, matches := (o: Ovf) => o.items, (i: Item) => i.resourceType == resourceType;
    if IsLastOf(members, m, k, list, matches) {
      var d := LastIsDecoded(members, m, k, list, matches);
      QuantityAt(Decoded(members).items, d, resourceType);
    }
    if NoneOf(members, list, matches) {
      NoneIsDecoded(members, list, matches);
      NoQuantity(Decoded(members).items, resourceType);
    }
  }

  /** Descriptor m is the last one that names the machine. */
  ghost predicate NamesLast(members: seq<Member>, m: int) {
    && 0 <= m < |members| && HasOvf(members[m]) && members[m].ovf.value.name.Some?
    && forall n | m < n < |members| && HasOvf(members[n]) :: members[n].ovf.value.name.None?
  }

  /** Descriptor m is the last one that describes the operating system. */
  ghost predicate DescribesLast(members: seq<Member>, m: int) {
    && 0 <= m < |members| && HasOvf(members[m]) && members[m].ovf.value.os.Some?
    && forall n | m < n < |members| && HasOvf(members[n]) :: members[n].ovf.value.os.None?
  }

  lemma {:induction false} TextsDecoded(members: seq<Member>, m: nat)
    requires Readable(members)
    ensures NamesLast(members, m) ==> Decoded(members).name == members[m].ovf.value.name
    ensures DescribesLast(members, m) ==> Decoded(members).os == members[m].ovf.value.os
    ensures (forall n | 0 <= n < |members| && HasOvf(members[n]) :: members[n].ovf.value.name.None?) ==> Decoded(members).name.None?
    ensures (forall n | 0 <= n < |members| && HasOvf(members[n]) :: members[n].ovf.value.os.None?) ==> Decoded(members).os.None?
    decreases |members|
  {
    if members != [] {
      var rest, last := members[..|members| - 1], members[|members| - 1];
      assert last in members;
      TextsDecoded(rest, m);
      assert forall n | 0 <= n < |rest| :: rest[n] == members[n];
    }
  }

  /** The digest, and name, description and firmware by their last entry in the archive, or empty without one. */
  lemma TextsAreFound(archive: Archive, m: nat, k: nat)
    requires Inspected(archive).Ok?
    ensures var members, info := archive.members, Inspected(archive).value;
            && info.sha256 == archive.digest
            && (IsLast(members, m, HasOvf) ==> info.ovfName == members[m].name)
            && (NamesLast(members, m) ==> Some(info.name) == members[m].ovf.value.name)
            && (DescribesLast(members, m) ==> Some(info.os) == members[m].ovf.value.os)
            && (IsLastOf(members, m, k, (o: Ovf) => o.configs, (c: Config) => c.key == "firmware") ==>
                  info.firmware == members[m].ovf.value.configs[k].value)
            && (NoneOf(members, (o: Ovf) => o.configs, (c: Config) => c.key == "firmware") ==> info.firmware == "")
            && ((forall n | 0 <= n < |members| && HasOvf(members[n]) :: members[n].ovf.value.name.None?) ==> info.name == "")
            && ((forall n | 0 <= n < |members| && HasOvf(members[n]) :: members[n].ovf.value.os.None?) ==> info.os == "")
  {
    var members := archive.members;
    var list, matches := (o: Ovf) => o.configs, (c: Config) => c.key == "firmware";
    TextsDecoded(members, m);
    if IsLast(members, m, HasOvf) {
      assert forall n | m < n < |members| :: members[n] in members;
      DescriptorNamed(members, m);
    }
    if IsLastOf(members, m, k, list, matches) {
      var d := LastIsDecoded(members, m, k, list, matches);
      ConfigAt(Decoded(members).configs, d, "firmware");
    }
    if NoneOf(members, list, matches) {
      NoneIsDecoded(members, list, matches);
      NoConfig(Decoded(members).configs, "firmware");
    }
  }

  /** Descriptor m has the one disk of the archive. */
  ghost predicate HasTheDisk(members: seq<Member>, m: int) {
    && 0 <= m < |members| && HasOvf(members[m]) && |members[m].ovf.value.disks| == 1
    && forall n | 0 <= n < |members| && n != m && HasOvf(members[n]) :: members[n].ovf.value.disks == []
  }

  lemma {:induction false} NoDiskDecoded(members: seq<Member>)
    requires Readable(members) && forall n | 0 <= n < |members| && HasOvf(members[n]) :: members[n].ovf.value.disks == []
    ensures Decoded(members).disks == []
  {
    if members != [] {
      assert members[|members| - 1] in members;
      NoDiskDecoded(members[..|members| - 1]);
    }
  }

  lemma {:induction false} DiskDecoded(members: seq<Member>, m: nat)
    requires Readable(members) && HasTheDisk(members, m)
    ensures Decoded(members).disks == members[m].ovf.value.disks
    decreases |members|
  {
    var rest, last := members[..|members| - 1], members[|members| - 1];
    assert last in members;
    assert forall n | 0 <= n < |rest| :: rest[n] == members[n];
    if m == |rest| {
      NoDiskDecoded(rest);
    } else {
      DiskDecoded(rest, m);
      assert HasOvf(last) ==> last.ovf.value.disks == [];
    }
  }

  /** One decoded disk comes from one descriptor. */
  lemma {:induction false} OneDiskIsTheDisk(members: seq<Member>) returns (m: nat)
    requires Readable(members) && |Decoded(members).disks| == 1
    ensures HasTheDisk(members, m)
    decreases |members|
  {
    var rest, last := members[..|members| - 1], members[|members| - 1];
    assert last in members;
    assert forall n | 0 <= n < |rest| :: rest[n] == members[n];
    if HasOvf(last) && last.ovf.value.disks != [] {
      m := |rest|;
      AllDisksDecoded(rest);
    } else {
      m := OneDiskIsTheDisk(rest);
    }
  }

  lemma {:induction false} AllDisksDecoded(members: seq<Member>)
    requires Readable(members) && Decoded(members).disks == []
    ensures forall n | 0 <= n < |members| && HasOvf(members[n]) :: members[n].ovf.value.disks == []
  {
    if members != [] {
      var rest := members[..|members| - 1];
      assert members[|members| - 1] in members;
      assert forall n | 0 <= n < |rest| :: rest[n] == members[n];
      AllDisksDecoded(rest);
    }
  }

  /** The file that the reference names is this entry. */
  ghost predicate NamesDisk(members: seq<Member>, ref: string, n: int, k: int) {
    IsLastOf(members, n, k, (o: Ovf) => o.files, (f: File) => f.id == ref) && members[n].ovf.value.files[k].href != ""
  }

  /** Capacity and name of the one disk; the name is that of the last file with its reference. */
  lemma DiskIsFound(archive: Archive, m: nat, n: nat, k: nat)
    requires Inspected(archive).Ok? && HasTheDisk(archive.members, m)
    ensures var disk, info := archive.members[m].ovf.value.disks[0], Inspected(archive).value;
            && info.diskGiB == ParseInt(disk.capacity)
            && (NamesDisk(archive.members, disk.ref, n, k) ==> info.diskName == archive.members[n].ovf.value.files[k].href)
  {
    DiskDecoded(archive.members, m);
    NameDecoded(archive.members, archive.members[m].ovf.value.disks[0].ref, n, k);
  }

  lemma NameDecoded(members: seq<Member>, ref: string, n: nat, k: nat)
    requires Readable(members)
    ensures IsLastOf(members, n, k, (o: Ovf) => o.files, (f: File) => f.id == ref) ==>
              HrefOf(Decoded(members).files, ref) == members[n].ovf.value.files[k].href
    ensures NoneOf(members, (o: Ovf) => o.files, (f: File) => f.id == ref) ==> HrefOf(Decoded(members).files, ref) == ""
  {
    var list, matches := (o: Ovf) => o.files, (f: File) => f.id == ref;
    if IsLastOf(members, n, k, list, matches) {
      var d := LastIsDecoded(members, n, k, list, matches);
      HrefAt(Decoded(members).files, d, ref);
    }
    if NoneOf(members, list, matches) {
      NoneIsDecoded(members, list, matches);
      NoHref(Decoded(members).files, ref);
    }
  }

  /** This item is the last one of its type, with this quantity. */
  ghost predicate WritesQuantity(members: seq<Member>, m: int, k: int, resourceType: string, quantity: string) {
    && IsLastOf(members, m, k, (o: Ovf) => o.items, (i: Item) => i.resourceType == resourceType)
    && members[m].ovf.value.items[k].quantity == quantity
  }

  /** A descriptor written in decimal is read back. */
  lemma DecimalIsReadBack(archive: Archive, m: nat, k: nat, value: nat)
    requires Inspected(archive).Ok? && value <= Scratch.MAX64
    ensures var members, info := archive.members, Inspected(archive).value;
            && (WritesQuantity(members, m, k, "3", Decimal(value)) ==> info.vcpus == value)
            && (WritesQuantity(members, m, k, "4", Decimal(value)) ==> info.memoryMiB == value)
            && (HasTheDisk(members, m) && members[m].ovf.value.disks[0].capacity == Decimal(value) ==> info.diskGiB == value)
  {
    ParsedDecimal(value);
    DecimalIsTrimmed(value);
    HardwareIsFound(archive, m, k);
    if HasTheDisk(archive.members, m) {
      DiskIsFound(archive, m, 0, 0);
    }
  }

  lemma {:induction false} DecimalIsTrimmed(n: nat)
    requires n < Scratch.TWO64
    ensures Trim(Decimal(n)) == Decimal(n)
  {
    ScanDecimal(n);
    assert IsDigit(Decimal(n)[|Decimal(n)| - 1]);
  }

  lemma {:induction false} LastIn<T(!new)>(list: seq<T>, matches: T -> bool) returns (k: nat)
    requires !NoneIn(list, matches)
    ensures IsLast(list, k, matches)
    decreases |list|
  {
    k := |list| - 1;
    if !matches(list[k]) {
      assert forall j | 0 <= j < k :: list[..k][j] == list[j];
      k := LastIn(list[..k], matches);
    }
  }

  lemma {:induction false} LastOf<T(!new)>(members: seq<Member>, list: Ovf -> seq<T>, matches: T -> bool) returns (m: nat, k: nat)
    requires !NoneOf(members, list, matches)
    ensures IsLastOf(members, m, k, list, matches)
    decreases |members|
  {
    m := |members| - 1;
    if HasOvf(members[m]) && !NoneIn(list(members[m].ovf.value), matches) {
      k := LastIn(list(members[m].ovf.value), matches);
    } else {
      assert forall j | 0 <= j < m :: members[..m][j] == members[j];
      m, k := LastOf(members[..m], list, matches);
    }
  }

  /** The one disk of the archive names a file, and there is a size for it. */
  ghost predicate IsInspectable(members: seq<Member>, m: int, n: int, k: int) {
    && HasTheDisk(members, m) && NamesDisk(members, members[m].ovf.value.disks[0].ref, n, k)
    && (LastSize(members, "") > 0 || FirstSize(members, members[n].ovf.value.files[k].href) !in {None, Some(0)})
  }

  lemma {:induction false} DescriptorNamed(members: seq<Member>, m: nat)
    requires m < |members| && IsDescriptor(members[m].name)
    ensures LastDescriptor(members) != ""
    ensures (forall n | m < n < |members| :: !IsDescriptor(members[n].name)) ==> LastDescriptor(members) == members[m].name
  {
    if m < |members| - 1 {
      DescriptorNamed(members[..|members| - 1], m);
    }
  }

  lemma InspectableIsAccepted(archive: Archive, m: nat, n: nat, k: nat)
    requires !archive.broken && Readable(archive.members) && IsInspectable(archive.members, m, n, k)
    ensures Inspected(archive).Ok?
  {
    DiskDecoded(archive.members, m);
    NameDecoded(archive.members, archive.members[m].ovf.value.disks[0].ref, n, k);
    DescriptorNamed(archive.members, m);
    hide Decoded, HrefOf, LastDescriptor, LastSize, FirstSize, LastConfig, LastQuantity, ParseInt, IsLastOf;
  }

  lemma AcceptedIsInspectable(archive: Archive) returns (m: nat, n: nat, k: nat)
    requires Inspected(archive).Ok?
    ensures IsInspectable(archive.members, m, n, k)
  {
    var members := archive.members;
    hide Decoded, HrefOf, LastDescriptor, LastSize, FirstSize, LastConfig, LastQuantity, ParseInt, IsLastOf, NoneOf;
    m := OneDiskIsTheDisk(members);
    DiskDecoded(members, m);
    var ref := members[m].ovf.value.disks[0].ref;
    NameDecoded(members, ref, 0, 0);
    n, k := LastOf(members, (o: Ovf) => o.files, (f: File) => f.id == ref);
    NameDecoded(members, ref, n, k);
  }

  /** An archive is accepted exactly if it can be read, has one disk, and a file with a size for it. */
  lemma AcceptedExactly(archive: Archive)
    ensures Inspected(archive).Ok? <==>
            !archive.broken && Readable(archive.members) && exists m, n, k :: IsInspectable(archive.members, m, n, k)
  {
    hide IsInspectable;
    if Inspected(archive).Ok? {
      var m, n, k := AcceptedIsInspectable(archive);
    } else if !archive.broken && Readable(archive.members) {
      forall m, n, k ensures !IsInspectable(archive.members, m, n, k) {
        if IsInspectable(archive.members, m, n, k) {
          IndicesOf(archive.members, m, n, k);
          InspectableIsAccepted(archive, m, n, k);
        }
      }
    }
  }

  lemma IndicesOf(members: seq<Member>, m: int, n: int, k: int)
    requires IsInspectable(members, m, n, k)
    ensures 0 <= m && 0 <= n && 0 <= k
  {
  }

  /**
   * The size found by the inspection, which the scratch volume is checked against, is that of
   * the disk streamed to the helper exactly when the last member without a name, if it has
   * any bytes, happens to have as many as the disk.
   */
  lemma SizeIsStreamed(archive: Archive)
    requires Inspected(archive).Ok?
    ensures var info := Inspected(archive).value;
            var unnamed := LastSize(archive.members, "");
            var streamed := FirstSize(archive.members, info.diskName);
            && info.diskName != "" && info.diskFileBytes > 0
            && (streamed == Some(info.diskFileBytes) <==> unnamed == 0 || streamed == Some(unnamed))
  {
  }

  lemma {:induction false} NoUnnamed(members: seq<Member>, name: string)
    requires forall m | m in members :: m.name != name
    ensures LastSize(members, name) == 0
  {
    if members != [] {
      NoUnnamed(members[..|members| - 1], name);
    }
  }

  lemma {:induction false} FirstSizeIsAMember(members: seq<Member>, name: string)
    ensures FirstSize(members, name).Some? <==> exists m | m in members :: m.name == name
    ensures FirstSize(members, name).Some? ==> exists m | m in members :: m.name == name && m.size == FirstSize(members, name).value
  {
    if members != [] && members[0].name != name {
      FirstSizeIsAMember(members[1..], name);
      assert forall m :: m in members <==> m == members[0] || m in members[1..];
    }
  }

  /** An archive whose members all have names: what is accepted has a disk, and its size is the one found. */
  lemma NamedArchive(archive: Archive)
    requires Inspected(archive).Ok? && forall m | m in archive.members :: m.name != ""
    ensures var info := Inspected(archive).value;
            && FirstSize(archive.members, info.diskName) == Some(info.diskFileBytes)
            && exists m | m in archive.members :: m.name == info.diskName && m.size == info.diskFileBytes
  {
    NoUnnamed(archive.members, "");
    FirstSizeIsAMember(archive.members, Inspected(archive).value.diskName);
  }

  /** The scratch size accepted for a named archive holds the virtual disk, the streamed disk and 2 GiB. */
  lemma ScratchHoldsStreamedDisk(archive: Archive, scratchGiB: int)
    requires Inspected(archive).Ok? && forall m | m in archive.members :: m.name != ""
    requires var info := Inspected(archive).value;
             && 0 <= info.diskGiB && info.diskFileBytes <= Scratch.MAX64
             && -Scratch.MAX64 - 1 <= scratchGiB <= Scratch.MAX64
             && Scratch.NoOverflow(info.diskGiB, info.diskFileBytes)
             && Scratch.Accepted(scratchGiB, info.diskGiB, info.diskFileBytes)
    ensures var info := Inspected(archive).value;
            var streamed := FirstSize(archive.members, info.diskName);
            streamed.Some? && scratchGiB * Scratch.GIB >= Scratch.Needed(info.diskGiB, streamed.value)
  {
    var info := Inspected(archive).value;
    NamedArchive(archive);
    Scratch.AcceptsExactlyEnough(info.diskGiB, info.diskFileBytes);
  }

  /** The descriptor of a small appliance with one disk. */
  const SMALL := EMPTY.(disks := [Disk("1", "d")], files := [File("d", "disk")])

  /** A member without a name hides a larger disk from the inspection. */
  lemma UnnamedMemberMisleads()
    ensures var archive := Archive([Member("a.ovf", 1, Some(SMALL)), Member("", 5, None), Member("disk", 9, None)], false, "");
            && Inspected(archive).Ok? && Inspected(archive).value.diskName == "disk"
            && Inspected(archive).value.diskFileBytes == 5
            && FirstSize(archive.members, "disk") == Some(9)
  {
    var a := Member("a.ovf", 1, Some(SMALL));
    var u, d := Member("", 5, None), Member("disk", 9, None);
    var members := [a, u, d];
    assert IsDescriptor("a.ovf") && !IsDescriptor("") && !IsDescriptor("disk");
    assert FirstSize(members, "disk") == Some(9) by {
      assert members[1..] == [u, d] && [u, d][1..] == [d];
      assert FirstSize([d], "disk") == Some(9);
    }
    hide IsDescriptor, FirstSize, ParseInt, LastQuantity, LastConfig;
    assert members[..2] == [a, u] && members[..2][..1] == [a] && [a][..0] == [];
    assert Decoded([a]) == SMALL;
    assert Decoded([a, u]) == SMALL;
    assert Decoded(members) == SMALL;
    assert LastDescriptor([a]) == "a.ovf" && LastDescriptor([a, u]) == "a.ovf";
    assert LastSize([a, u], "") == 5;
    assert HrefOf([File("d", "disk")], "d") == "disk";
  }
}
