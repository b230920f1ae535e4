// The resumable transfer of the OVA's disk to the helper's scratch volume.
module Upload {
  import opened Wrappers

  newtype Byte = x: int | 0 <= x < 256
  type Bytes = seq<Byte>

  /** What the status command prints: COMPLETE, a size, or something that is no number. */
  datatype Status = Complete | Size(bytes: nat) | Garbled

  function SizeOf(file: Option<Bytes>): nat {
    if file.Some? then |file.value| else 0
  }

  function Max(a: int, b: int): int { if a < b then b else a }

  /** A status the command may print: it looks at the final file first, and noise may make it unreadable. */
  predicate StatusFits(final: Option<Bytes>, partial: Option<Bytes>, expected: int, status: Status) {
    match status
    case Complete => final.Some? && |final.value| == expected
    case Size(bytes) => !(final.Some? && |final.value| == expected) && bytes == SizeOf(partial)
    case Garbled => true
  }

  /** The partial file is of no use: its size is unknown, or larger than the disk. */
  predicate StartsOver(status: Status, expected: int) {
    status.Garbled? || (status.Size? && status.bytes > expected)
  }

  /** The partial file after the first `sent` bytes of the data reached it, or -1 if it was not even opened. */
  function AfterTransfer(partial: Option<Bytes>, data: Bytes, append: bool, sent: int): Option<Bytes>
    requires -1 <= sent <= |data|
  {
    if sent == -1 then partial else Some((if append && partial.Some? then partial.value else []) + data[..sent])
  }

  /** The scratch volume of the helper, reached through commands that may fail at any point. */
  class Staging {
    var final: Option<Bytes>
    var partial: Option<Bytes>
    var exported: nat     // bytes of the exported QCOW2
    ghost var peak: nat   // most bytes ever held
    var written: nat      // bytes appended to the partial file
    var transfers: nat    // transfers started
    var faults: nat       // commands that failed, truncated a write or lost their answer
    var garbled: nat      // status answers that were no number

    constructor ()
      ensures final.None? && partial.None? && exported == 0 && peak == 0
      ensures written == 0 && transfers == 0 && faults == 0 && garbled == 0
    {
      final, partial, exported, peak := None, None, 0, 0;
      written, transfers, faults, garbled := 0, 0, 0, 0;
    }

    /** The unwritten invariant of the protocol: a prefix of the disk, or the whole disk. */
    ghost predicate Consistent(disk: Bytes)
      reads this
    {
      && (partial.Some? ==> partial.value <= disk)
      && (final.Some? ==> final.value == disk)
    }

    /** Bytes of the disk that are safely on the helper. */
    ghost function Stored(): nat
      reads this
    {
      if final.Some? then |final.value| else SizeOf(partial)
    }

    /** Staged disk and partial disk exist together. */
    predicate Doubled()
      reads this
    {
      final.Some? && partial.Some?
    }

    ghost function Held(): nat
      reads this
    {
      SizeOf(final) + SizeOf(partial) + exported
    }

    method Reach() returns (ok: bool)
      modifies this`faults
      ensures faults == old(faults) + (if ok then 0 else 1)
    {
      ok := *;
      if !ok {
        faults := faults + 1;
      }
    }

    method Inspect(expected: int) returns (ok: bool, status: Status)
      modifies this`faults, this`garbled
      ensures faults == old(faults) + (if ok then 0 else 1)
      ensures garbled == old(garbled) + (if ok && status.Garbled? then 1 else 0)
      ensures StatusFits(final, partial, expected, status)
    {
      ok := Reach();
      var noise: bool := *;
      if noise {
        status := Garbled;
        if ok {
          garbled := garbled + 1;
        }
      } else if final.Some? && |final.value| == expected {
        status := Complete;
      } else {
        status := Size(SizeOf(partial));
      }
    }

    method RemovePartial() returns (ok: bool)
      modifies this`partial, this`faults, this`peak
      ensures peak == Max(old(peak), Held())
      ensures partial.None? || (!ok && partial == old(partial))
      ensures faults == old(faults) + (if ok then 0 else 1)
    {
      ok := *;
      var applied: bool := *;
      if ok || applied {
        partial := None;
      }
      peak := Max(peak, Held());
      if !ok {
        faults := faults + 1;
      }
    }

    /**
     * `cat >` or `cat >>` fed with `data`: whatever the exit status, only some
     * first part of the data may have reached the file, or the redirection may
     * not even have happened.
     */
    method Transfer(data: Bytes, append: bool) returns (ok: bool, ghost sent: int)
      modifies this`partial, this`written, this`transfers, this`faults, this`peak
      ensures peak == Max(old(peak), Held())
      ensures transfers == old(transfers) + 1
      ensures faults >= old(faults) && (!ok ==> faults > old(faults))
      ensures -1 <= sent <= |data| && (sent < |data| ==> faults > old(faults))
      ensures partial == AfterTransfer(old(partial), data, append, sent)
      ensures written == old(written) + (if sent == -1 then 0 else sent)
    {
      ok := *;
      var redirected: bool := *;
      var k: int := *;
      transfers := transfers + 1;
      sent := -1;
      if redirected && 0 <= k <= |data| {
        partial := Some((if append && partial.Some? then partial.value else []) + data[..k]);
        written := written + k;
        sent := k;
      }
      peak := Max(peak, Held());
      if !ok || !redirected || k != |data| {
        faults := faults + 1;
      }
    }

    /** Compares the partial file's size and renames it; the answer may be lost after the rename. */
    method VerifyAndRename(size: nat) returns (ok: bool)
      modifies this`final, this`partial, this`faults, this`peak
      ensures peak == Max(old(peak), Held())
      ensures || (final == old(partial) && partial.None? && old(partial).Some? && |old(partial).value| == size)
              || (!ok && final == old(final) && partial == old(partial))
      ensures ok ==> faults == old(faults)
      ensures !ok ==> faults > old(faults) || !(old(partial).Some? && |old(partial).value| == size)
      ensures faults >= old(faults)
    {
      var broken: bool := *;
      var applied: bool := *;
      if broken {
        faults := faults + 1;
      }
      ok := !broken && partial.Some? && |partial.value| == size;
      if (ok || applied) && partial.Some? && |partial.value| == size {
        final := partial;
        partial := None;
      }
      peak := Max(peak, Held());
    }

    /** The import script: the staged disk is converted and then removed; it may break off before or after that. */
    method Import() returns (ok: bool)
      modifies this`final, this`faults, this`peak
      ensures peak == Max(old(peak), Held())
      ensures final == old(final) || final.None?
      ensures ok ==> old(final).Some? && final.None?
      ensures faults >= old(faults)
    {
      ok := *;
      var removed: bool := *;
      if final.None? || |final.value| == 0 {
        ok := false;
      } else if ok || removed {
        final := None;
      }
      if !ok {
        faults := faults + 1;
      }
      peak := Max(peak, Held());
    }

    /**
     * The export script: an earlier export is removed, the QCOW2 of at most `most` bytes
     * is written and, once it was sent, removed. It may break off anywhere.
     */
    method Export(most: nat) returns (ok: bool)
      requires exported <= most
      modifies this`exported, this`faults, this`peak
      ensures exported <= most && (ok ==> exported == 0)
      ensures old(peak) <= peak <= Max(old(peak), SizeOf(final) + SizeOf(partial) + most)
      ensures faults >= old(faults)
    {
      ok := Reach(); // mount the volume
      peak := Max(peak, Held());
      if !ok {
        return;
      }
      exported := 0;
      var size: int := *;
      if 0 <= size <= most {
        exported := size;
      }
      peak := Max(peak, Held());
      ok := Reach(); // convert, check and send
      if ok {
        exported := 0;
      }
    }
  }

  /** How an attempt ends: staged, worth another attempt, or an error that ends the upload. */
  datatype Outcome = Staged | Again | Abort

  /** Where the transfer resumes; a partial file that is of no use is removed first. */
  method ResumeOffset(h: Staging, disk: Bytes, expected: int, status: Status) returns (ok: bool, offset: nat)
    requires h.Consistent(disk) && !status.Complete? && StatusFits(h.final, h.partial, expected, status)
    modifies h`partial, h`faults, h`peak
    ensures h.partial == old(h.partial) || h.partial.None?
    ensures ok ==> SizeOf(h.partial) == offset && h.faults == old(h.faults)
    ensures !ok ==> h.faults == old(h.faults) + 1
    ensures StartsOver(status, expected) && ok ==> h.partial.None?
    ensures !StartsOver(status, expected) ==> ok && h.partial == old(h.partial)
    ensures h.peak == old(h.peak) || h.peak == Max(old(h.peak), h.Held())
  {
    ok, offset := true, 0;
    if StartsOver(status, expected) {
      ok := h.RemovePartial();
    } else {
      offset := status.bytes;
    }
  }

  /** The partial file is never longer than the disk, so it is removed only for an unreadable status or a wrong size. */
  lemma NeverTooLong(final: Option<Bytes>, partial: Option<Bytes>, disk: Bytes, status: Status)
    requires partial.Some? ==> partial.value <= disk
    requires StatusFits(final, partial, |disk|, status)
    ensures StartsOver(status, |disk|) ==> status.Garbled?
    ensures final == Some(disk) && !status.Garbled? ==> status.Complete?
  {
  }

  /** One attempt: inspect, skip what is already there, transfer the rest, verify by size and rename. */
  method Attempt(h: Staging, disk: Bytes, expected: int) returns (outcome: Outcome)
    requires h.Consistent(disk)
    modifies h
    ensures h.Consistent(disk)
    ensures outcome.Staged? ==> h.final == Some(disk)
    ensures old(h.garbled) <= h.garbled && old(h.faults) <= h.faults
    ensures old(h.transfers) <= h.transfers <= old(h.transfers) + 1
    ensures h.garbled == old(h.garbled) && expected == |disk| ==> Progress(old(h.Stored()), old(h.written), h.Stored(), h.written)
    ensures h.garbled == old(h.garbled) && expected == |disk| && old(h.final).Some? ==>
              h.transfers == old(h.transfers) && h.final.Some?
    ensures h.faults == old(h.faults) ==> outcome.Staged?
    ensures outcome.Again? ==> h.transfers == old(h.transfers) + 1
    ensures outcome.Abort? ==> h.transfers == old(h.transfers)
    ensures h.exported == old(h.exported) && h.peak <= Max(old(h.peak), 2 * |disk| + h.exported)
    ensures h.garbled == old(h.garbled) && expected == |disk| && !old(h.Doubled()) ==>
              !h.Doubled() && h.peak <= Max(old(h.peak), |disk| + h.exported)
  {
    var ok := h.Reach(); // dial and open a session
    if !ok {
      return Abort;
    }
    var status;
    ok, status := h.Inspect(expected);
    if !ok {
      return Abort;
    }
    if status.Complete? {
      return Staged;
    }
    var offset;
    ok, offset := ResumeOffset(h, disk, expected, status);
    if !ok {
      return Abort;
    }
    if expected == |disk| {
      NeverTooLong(old(h.final), old(h.partial), disk, status);
    }
    outcome := SendRest(h, disk, offset);
  }

  /** Bytes written are exactly the bytes gained, and none is lost. */
  predicate Progress(stored: nat, written: nat, stored': nat, written': nat) {
    stored' >= stored && written' - written == stored' - stored
  }

  /** The partial file, a prefix of the disk of length `offset`, grows to a longer prefix or stays. */
  method SendBytes(h: Staging, disk: Bytes, offset: nat) returns (ok: bool)
    requires h.Consistent(disk) && offset <= |disk| && SizeOf(h.partial) == offset
    modifies h`partial, h`written, h`transfers, h`faults, h`peak
    ensures h.Consistent(disk) && SizeOf(h.partial) >= offset
    ensures h.written == old(h.written) + (SizeOf(h.partial) - offset)
    ensures h.transfers == old(h.transfers) + 1 && h.faults >= old(h.faults)
    ensures ok && h.faults == old(h.faults) ==> h.partial == Some(disk)
    ensures !ok ==> h.faults > old(h.faults)
    ensures h.peak == Max(old(h.peak), SizeOf(h.final) + SizeOf(h.partial) + h.exported)
  {
    ghost var sent;
    ok, sent := h.Transfer(disk[offset..], offset > 0);
    if sent >= 0 {
      AppendedPrefix(disk, offset, sent);
      assert offset > 0 ==> old(h.partial).value == disk[..offset];
      assert h.partial == Some(disk[..offset + sent]);
      assert offset + sent == |disk| ==> disk[..offset + sent] == disk;
    }
  }

  /** The rest of the disk is streamed from the OVA behind the stored bytes, verified and renamed. */
  method SendRest(h: Staging, disk: Bytes, offset: nat) returns (outcome: Outcome)
    requires h.Consistent(disk) && SizeOf(h.partial) == offset
    modifies h
    ensures h.Consistent(disk) && h.garbled == old(h.garbled)
    ensures outcome.Staged? ==> h.final == Some(disk)
    ensures old(h.faults) <= h.faults && old(h.transfers) <= h.transfers <= old(h.transfers) + 1
    ensures old(h.final).None? ==> Progress(old(h.Stored()), old(h.written), h.Stored(), h.written)
    ensures h.faults == old(h.faults) ==> outcome.Staged?
    ensures h.transfers == old(h.transfers) + (if outcome.Abort? then 0 else 1)
    ensures h.exported == old(h.exported) && h.peak <= Max(old(h.peak), 2 * |disk| + h.exported)
    ensures old(h.final).None? ==> !h.Doubled() && h.peak <= Max(old(h.peak), |disk| + h.exported)
  {
    var ok := h.Reach(); // open the OVA and find its disk
    if !ok || offset > |disk| { // the stream ends before the resume offset
      return Abort;
    }
    ok := h.Reach(); // open a session
    if !ok {
      return Abort;
    }
    ok := SendBytes(h, disk, offset);
    if ok {
      var verified := h.VerifyAndRename(|disk|);
      if verified {
        return Staged;
      }
    }
    return Again;
  }

  /** After a broken transfer comes another attempt, until one ends otherwise or none is left. */
  ghost predicate Exhausts(outcomes: seq<Outcome>, attempts: int) {
    && |outcomes| <= Max(0, attempts)
    && (forall k | 0 <= k < |outcomes| - 1 :: outcomes[k].Again?)
    && (|outcomes| < attempts ==> outcomes != [] && !outcomes[|outcomes| - 1].Again?)
  }

  /**
   * Transfers the disk, resuming at the size of the partial file, at most
   * `attempts` times. `expected` is the size the OVA inspection reported. It gives up
   * only when all attempts broke off, or at a command outside the transfer that failed.
   */
  method UploadOVAToHelper(h: Staging, disk: Bytes, expected: int, attempts: int)
    returns (ok: bool, ghost outcomes: seq<Outcome>)
    requires h.Consistent(disk)
    modifies h
    ensures h.Consistent(disk)
    ensures Exhausts(outcomes, attempts) && (ok <==> outcomes != [] && outcomes[|outcomes| - 1].Staged?)
    ensures !ok ==> h.transfers == old(h.transfers) + |outcomes| - (if outcomes != [] && outcomes[|outcomes| - 1].Abort? then 1 else 0)
    ensures h.faults >= old(h.faults) + if ok then |outcomes| - 1 else |outcomes|
    ensures ok ==> h.final == Some(disk)
    ensures h.transfers <= old(h.transfers) + if attempts < 0 then 0 else attempts
    ensures h.garbled == old(h.garbled) && expected == |disk| ==> Progress(old(h.Stored()), old(h.written), h.Stored(), h.written)
    ensures h.garbled == old(h.garbled) && expected == |disk| && old(h.final).Some? ==> h.transfers == old(h.transfers)
    ensures h.faults == old(h.faults) && attempts >= 1 ==> ok && h.transfers <= old(h.transfers) + 1
    ensures old(h.garbled) <= h.garbled && h.exported == old(h.exported)
    ensures h.peak <= Max(old(h.peak), 2 * |disk| + h.exported)
    ensures h.garbled == old(h.garbled) && expected == |disk| && !old(h.Doubled()) ==>
              !h.Doubled() && h.peak <= Max(old(h.peak), |disk| + h.exported)
  {
    var attempt := 1;
    outcomes := [];
    while attempt <= attempts
      invariant h.Consistent(disk)
      invariant 1 <= attempt && (attempts >= 1 ==> attempt <= attempts + 1) && (attempts < 1 ==> attempt == 1)
      invariant old(h.garbled) <= h.garbled && old(h.faults) <= h.faults
      invariant h.garbled == old(h.garbled) && expected == |disk| ==>
        Progress(old(h.Stored()), old(h.written), h.Stored(), h.written)
      invariant h.garbled == old(h.garbled) && expected == |disk| && old(h.final).Some? ==>
        h.final.Some? && h.transfers == old(h.transfers)
      invariant |outcomes| == attempt - 1 && forall k | 0 <= k < |outcomes| :: outcomes[k].Again?
      invariant h.transfers == old(h.transfers) + |outcomes| && h.faults >= old(h.faults) + |outcomes|
      invariant h.exported == old(h.exported) && h.peak <= Max(old(h.peak), 2 * |disk| + h.exported)
      invariant h.garbled == old(h.garbled) && expected == |disk| && !old(h.Doubled()) ==>
        !h.Doubled() && h.peak <= Max(old(h.peak), |disk| + h.exported)
      decreases attempts - attempt
    {
      var outcome := Attempt(h, disk, expected);
      outcomes := outcomes + [outcome];
      if !outcome.Again? {
        return outcome.Staged?, outcomes;
      }
      attempt := attempt + 1;
    }
    ok := false;
  }

  /** Appending the next k bytes to the first `offset` bytes of the disk gives a longer prefix. */
  lemma AppendedPrefix(disk: Bytes, offset: nat, k: nat)
    requires offset + k <= |disk|
    ensures disk[..offset] + disk[offset..][..k] == disk[..offset + k]
    ensures [] + disk[0..][..k] == disk[..k]
  {
  }

  /** What the runs do on the scratch volume, one after the other. */
  datatype Job = Send(attempts: int) | Convert | Export

  /**
   * Uploads, imports and exports in any order, each possibly broken off. The invariant
   * needs no repair between them. Staged and partial disk exist together only after an
   * unreadable status answer, and the volume never holds more than these bounds.
   */
  method StageRepeatedly(h: Staging, disk: Bytes, expected: int, most: nat, jobs: seq<Job>)
    requires h.Consistent(disk) && h.exported <= most
    modifies h
    ensures h.Consistent(disk) && h.exported <= most
    ensures h.peak <= Max(old(h.peak), 2 * |disk| + most)
    ensures h.garbled == old(h.garbled) && expected == |disk| && !old(h.Doubled()) ==>
              !h.Doubled() && h.peak <= Max(old(h.peak), |disk| + most)
  {
    for n := 0 to |jobs|
      invariant h.Consistent(disk) && h.exported <= most && old(h.garbled) <= h.garbled
      invariant h.peak <= Max(old(h.peak), 2 * |disk| + most)
      invariant h.garbled == old(h.garbled) && expected == |disk| && !old(h.Doubled()) ==>
        !h.Doubled() && h.peak <= Max(old(h.peak), |disk| + most)
    {
      match jobs[n]
      case Send(attempts) =>
        var ok, outcomes := UploadOVAToHelper(h, disk, expected, attempts);
      case Convert => var _ := h.Import();
      case Export => var _ := h.Export(most);
    }
  }
}
