// Size of the scratch volume, and what has to fit on it.
module Scratch {
  import opened Wrappers
  import opened Upload

  const GIB: int := 1024 * 1024 * 1024
  const MAX64: int := 0x7fff_ffff_ffff_ffff
  const TWO64: int := 0x1_0000_0000_0000_0000

  /** Signed 64-bit wrap-around of the sum of two 64-bit integers. */
  function Wrap(sum: int): int {
    if sum > MAX64 then sum - TWO64 else if sum < -MAX64 - 1 then sum + TWO64 else sum
  }

  /** Go's int64 division truncates toward zero. */
  function Quotient(x: int, d: int): int
    requires d > 0
  {
    if x >= 0 then x / d else -((-x) / d)
  }

  /** The minimum scratch size in GiB, as computed in 64-bit arithmetic. */
  function MinimumScratchGiB(diskGiB: int, diskFileBytes: int): int {
    Wrap(Wrap(diskGiB + Quotient(Wrap(diskFileBytes + GIB - 1), GIB)) + 2)
  }

  predicate Accepted(scratchGiB: int, diskGiB: int, diskFileBytes: int) {
    scratchGiB >= MinimumScratchGiB(diskGiB, diskFileBytes)
  }

  /** Virtual disk, VMDK file and 2 GiB, in bytes. */
  function Needed(diskGiB: int, diskFileBytes: int): int {
    diskGiB * GIB + diskFileBytes + 2 * GIB
  }

  function CeilGiB(bytes: int): int {
    (bytes + GIB - 1) / GIB
  }

  predicate NoOverflow(diskGiB: int, diskFileBytes: int) {
    diskFileBytes + GIB - 1 <= MAX64 && diskGiB + CeilGiB(diskFileBytes) + 2 <= MAX64
  }

  lemma CeilIsLeast(bytes: int, g: int)
    ensures g >= CeilGiB(bytes) <==> g * GIB >= bytes
  {
  }

  /**
   * The size check accepts exactly the sizes that hold virtual disk, VMDK and
   * 2 GiB, if and only if none of its sums leaves the 64-bit range.
   */
  lemma AcceptsExactlyEnough(diskGiB: int, diskFileBytes: int)
    requires 0 <= diskGiB <= MAX64 && 1 <= diskFileBytes <= MAX64
    ensures NoOverflow(diskGiB, diskFileBytes) <==>
            forall s | -MAX64 - 1 <= s <= MAX64 ::
              Accepted(s, diskGiB, diskFileBytes) <==> s * GIB >= Needed(diskGiB, diskFileBytes)
  {
    var m := MinimumScratchGiB(diskGiB, diskFileBytes);
    if NoOverflow(diskGiB, diskFileBytes) {
      forall s | -MAX64 - 1 <= s <= MAX64
        ensures Accepted(s, diskGiB, diskFileBytes) <==> s * GIB >= Needed(diskGiB, diskFileBytes)
      {
        CeilIsLeast(diskFileBytes, s - diskGiB - 2);
      }
    } else {
      TooSmall(diskGiB, diskFileBytes);
      assert Accepted(m, diskGiB, diskFileBytes) && m * GIB < Needed(diskGiB, diskFileBytes);
    }
  }

  /** After an overflow the computed minimum is below the bytes that are needed. */
  lemma TooSmall(diskGiB: int, diskFileBytes: int)
    requires 0 <= diskGiB <= MAX64 && 1 <= diskFileBytes <= MAX64
    requires !NoOverflow(diskGiB, diskFileBytes)
    ensures var m := MinimumScratchGiB(diskGiB, diskFileBytes);
            -MAX64 - 1 <= m <= MAX64 && m * GIB < Needed(diskGiB, diskFileBytes)
  {
    var q := Quotient(Wrap(diskFileBytes + GIB - 1), GIB);
    if diskFileBytes + GIB - 1 > MAX64 {
      assert Wrap(diskFileBytes + GIB - 1) == diskFileBytes + GIB - 1 - TWO64;
      assert q <= 0;
    } else {
      assert q == CeilGiB(diskFileBytes) > 0;
    }
  }

  // ---------- What is on the volume ----------

  /** The most an export writes: the virtual disk and 2 GiB of overhead. */
  function LargestExport(diskGiB: nat): nat {
    diskGiB * GIB + 2 * GIB
  }

  /**
   * Any sequence of uploads, imports and exports on a fresh volume of an accepted size, each
   * broken off anywhere. What is staged and exported fits in every state if no status
   * answer was unreadable; if one may be, it fits when there is room for a second copy of
   * the disk.
   */
  method RunsFit(h: Staging, disk: Bytes, diskGiB: nat, scratchGiB: int, jobs: seq<Job>)
    requires h.final.None? && h.partial.None? && h.exported == 0 && h.peak == 0
    requires NoOverflow(diskGiB, |disk|) && 1 <= |disk| <= MAX64 && diskGiB <= MAX64
    requires -MAX64 - 1 <= scratchGiB <= MAX64 && Accepted(scratchGiB, diskGiB, |disk|)
    modifies h
    ensures h.garbled == old(h.garbled) ==> h.peak <= scratchGiB * GIB
    ensures HoldsTwice(|disk|, diskGiB, scratchGiB) ==> h.peak <= scratchGiB * GIB
  {
    AcceptsExactlyEnough(diskGiB, |disk|);
    StageRepeatedly(h, disk, |disk|, LargestExport(diskGiB), jobs);
  }

  /** There is room for the disk once staged and once partial, beside the largest export. */
  predicate HoldsTwice(bytes: nat, diskGiB: nat, scratchGiB: int) {
    2 * bytes + LargestExport(diskGiB) <= scratchGiB * GIB
  }

  /** The helper's files, as sizes count them. */
  function Sizes(final: Option<Bytes>, partial: Option<Bytes>, exported: nat): nat {
    SizeOf(final) + SizeOf(partial) + exported
  }

  /**
   * Beside a staged disk and the largest stale export, an unreadable status makes the next
   * attempt start over and send the whole disk again. That fits exactly if the volume
   * holds the disk twice.
   */
  lemma UnreadableStatusDoubles(disk: Bytes, diskGiB: nat, scratchGiB: int)
    ensures StatusFits(Some(disk), None, |disk|, Garbled) && StartsOver(Garbled, |disk|)
    ensures AfterTransfer(None, disk, false, |disk|) == Some(disk)
    ensures Sizes(Some(disk), None, LargestExport(diskGiB)) == Needed(diskGiB, |disk|)
    ensures Sizes(Some(disk), AfterTransfer(None, disk, false, |disk|), LargestExport(diskGiB)) <= scratchGiB * GIB
            <==> HoldsTwice(|disk|, diskGiB, scratchGiB)
  {
    assert [] + disk[..|disk|] == disk;
  }

  /** From 1 GiB on, the smallest accepted size does not hold the disk twice. */
  lemma SmallestHoldsOnce(bytes: nat, diskGiB: nat)
    requires NoOverflow(diskGiB, bytes) && GIB <= bytes && diskGiB <= MAX64
    ensures var least := MinimumScratchGiB(diskGiB, bytes);
            Accepted(least, diskGiB, bytes) && !HoldsTwice(bytes, diskGiB, least)
  {
  }
}
