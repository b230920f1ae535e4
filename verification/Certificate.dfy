// Installing the certificate on the appliance: back up, write, and restore on a failure.
module Certificate {
  import opened Wrappers

  type Path = string
  type Content = seq<bv8>

  function Lookup(files: map<Path, Content>, path: Path): Option<Content> {
    if path in files then Some(files[path]) else None
  }

  /** The files after `path` has the content, or is removed. */
  function Put(files: map<Path, Content>, path: Path, content: Option<Content>): map<Path, Content> {
    match content
    case Some(c) => files[path := c]
    case None => files - {path}
  }

  /** Backup `k` holds a copy of active path `k`, or the marker that it was absent. */
  ghost predicate BackedUp(files: map<Path, Content>, paths: seq<Path>, backup: map<nat, Option<Content>>) {
    forall k: nat | k < |paths| :: k in backup && backup[k] == Lookup(files, paths[k])
  }

  /** The files after the first `n` paths were restored; a path with no backup is left alone. */
  function Restored(files: map<Path, Content>, paths: seq<Path>, backup: map<nat, Option<Content>>, n: nat): map<Path, Content>
    requires n <= |paths|
  {
    if n == 0 then files
    else
      var rest := Restored(files, paths, backup, n - 1);
      if n - 1 in backup then Put(rest, paths[n - 1], backup[n - 1]) else rest
  }

  /**
   * Whatever was written in between: a path among the first `n` has its original content
   * or absence again, even if two paths are the same; other paths are not touched.
   */
  lemma {:induction false} RestoredIsOriginal(
      original: map<Path, Content>, files: map<Path, Content>,
      paths: seq<Path>, backup: map<nat, Option<Content>>, n: nat, path: Path)
    requires n <= |paths| && BackedUp(original, paths, backup)
    ensures Lookup(Restored(files, paths, backup, n), path) ==
            if path in paths[..n] then Lookup(original, path) else Lookup(files, path)
  {
    if n > 0 {
      RestoredIsOriginal(original, files, paths, backup, n - 1, path);
      assert paths[..n] == paths[..n - 1] + [paths[n - 1]];
    }
  }

  /** A rollback that runs again, as in a subshell and then its parent, changes nothing more. */
  lemma RestoringTwice(
      original: map<Path, Content>, files: map<Path, Content>, paths: seq<Path>, backup: map<nat, Option<Content>>)
    requires BackedUp(original, paths, backup)
    ensures Restored(Restored(files, paths, backup, |paths|), paths, backup, |paths|) == Restored(files, paths, backup, |paths|)
  {
    var once := Restored(files, paths, backup, |paths|);
    var twice := Restored(once, paths, backup, |paths|);
    forall path ensures Lookup(twice, path) == Lookup(once, path) {
      RestoredIsOriginal(original, files, paths, backup, |paths|, path);
      RestoredIsOriginal(original, once, paths, backup, |paths|, path);
    }
    SameFiles(twice, once);
  }

  lemma SameFiles(a: map<Path, Content>, b: map<Path, Content>)
    requires forall path :: Lookup(a, path) == Lookup(b, path)
    ensures a == b
  {
    forall path ensures path in a <==> path in b {
      assert Lookup(a, path) == Lookup(b, path);
    }
    forall path | path in a ensures a[path] == b[path] {
      assert Lookup(a, path) == Lookup(b, path);
    }
  }

  /** How the apply script ends. */
  datatype Outcome =
    | NotStarted   // a command failed before the rollback trap was set
    | RolledBack   // a command failed after it, and the restore block has ended
    | Installed    // the trap was removed again

  /**
   * The active paths of the script, in order: API CA, certificate, key, bundle, combined
   * file, local CA and custom mark, which it writes, and the two configuration files.
   */
  const ACTIVE := 9
  const WRITTEN := 7

  /** No later active path is the same. */
  predicate IsLast(paths: seq<Path>, k: nat)
    requires k < |paths|
  {
    forall j | k < j < |paths| :: paths[j] != paths[k]
  }

  /** Each written path holds the last content meant for it. */
  ghost predicate Delivered(files: map<Path, Content>, paths: seq<Path>, material: seq<Content>)
    requires |paths| == ACTIVE && |material| == WRITTEN
  {
    forall k | 0 <= k < WRITTEN && IsLast(paths, k) :: Lookup(files, paths[k]) == Some(material[k])
  }

  /** What has run since the trap was set, with the files it left. */
  datatype Command = Wrote(files: map<Path, Content>) | VendorRan(files: map<Path, Content>, succeeded: bool)

  /** The files were delivered, and then exactly these many vendor commands ran, each with success. */
  ghost predicate WasDelivered(journal: seq<Command>, paths: seq<Path>, material: seq<Content>, vendorCommands: nat)
    requires |paths| == ACTIVE && |material| == WRITTEN
  {
    && vendorCommands < |journal|
    && var k := |journal| - vendorCommands - 1;
       && journal[k].Wrote? && Delivered(journal[k].files, paths, material)
       && forall j | k < j < |journal| :: journal[j].VendorRan? && journal[j].succeeded
  }

  class Appliance {
    var files: map<Path, Content>
    ghost var journal: seq<Command>
    var backup: map<nat, Option<Content>>
    var failures: nat     // commands that failed

    constructor (files: map<Path, Content>)
      ensures this.files == files
    {
      this.files, backup, journal, failures := files, map[], [], 0;
    }

    /** A command that touches neither the files nor the backup. */
    method Check() returns (ok: bool)
      modifies this`failures
      ensures failures == old(failures) + if ok then 0 else 1
    {
      ok := *;
      failures := failures + if ok then 0 else 1;
    }

    /** Writes one file; a command that fails may leave anything there. */
    method WriteFile(path: Path, content: Content) returns (ok: bool)
      modifies this`files, this`journal, this`failures
      ensures ok ==> files == old(files)[path := content]
      ensures journal == old(journal) + [Wrote(files)]
      ensures failures == old(failures) + if ok then 0 else 1
    {
      ok := *;
      failures := failures + if ok then 0 else 1;
      var torn: Option<Content> := *;
      files := Put(files, path, if ok then Some(content) else torn);
      journal := journal + [Wrote(files)];
    }

    /** A vendor command, which may change any file. */
    method Vendor() returns (ok: bool)
      modifies this`files, this`journal, this`failures
      ensures journal == old(journal) + [VendorRan(files, ok)]
      ensures failures == old(failures) + if ok then 0 else 1
    {
      ok := *;
      failures := failures + if ok then 0 else 1;
      files := *;
      journal := journal + [VendorRan(files, ok)];
    }

    /** backup_one for each active path. */
    method BackUp(paths: seq<Path>) returns (ok: bool)
      modifies this`backup, this`failures
      ensures ok ==> BackedUp(files, paths, backup)
      ensures failures == old(failures) + if ok then 0 else 1
    {
      backup := map[];
      for k := 0 to |paths|
        invariant failures == old(failures)
        invariant forall j: nat | j < k :: j in backup && backup[j] == Lookup(files, paths[j])
      {
        ok := Check();
        if !ok {
          return;
        }
        backup := backup[k := Lookup(files, paths[k])];
      }
      ok := true;
    }

    /** restore_one for each active path. */
    method Restore(paths: seq<Path>)
      modifies this`files
      ensures files == Restored(old(files), paths, backup, |paths|)
    {
      for k := 0 to |paths|
        invariant files == Restored(old(files), paths, backup, k)
      {
        if k in backup {
          files := Put(files, paths[k], backup[k]);
        }
      }
    }

    /** The restore block of a rollback, whatever the files have become. */
    method Rollback(paths: seq<Path>, ghost original: map<Path, Content>)
      requires BackedUp(original, paths, backup)
      modifies this`files
      ensures forall path | path in paths :: Lookup(files, path) == Lookup(original, path)
      ensures forall path | path !in paths :: Lookup(files, path) == Lookup(old(files), path)
    {
      Restore(paths);
      forall path ensures Lookup(files, path) == (if path in paths then Lookup(original, path) else Lookup(old(files), path)) {
        RestoredIsOriginal(original, old(files), paths, backup, |paths|, path);
        assert paths[..|paths|] == paths;
      }
    }

    /** Writes the seven active files in order; it stops at the first that fails. */
    method InstallFiles(paths: seq<Path>, material: seq<Content>) returns (ok: bool)
      requires |paths| == ACTIVE && |material| == WRITTEN
      modifies this`files, this`journal, this`failures
      ensures ok ==> Delivered(files, paths, material) && journal != [] && journal[|journal| - 1] == Wrote(files)
      ensures failures == old(failures) + if ok then 0 else 1
    {
      for k := 0 to WRITTEN
        invariant failures == old(failures)
        invariant forall j | 0 <= j < k && IsLast(paths, j) :: Lookup(files, paths[j]) == Some(material[j])
        invariant k > 0 ==> journal != [] && journal[|journal| - 1] == Wrote(files)
      {
        ok := WriteFile(paths[k], material[k]);
        if !ok {
          return;
        }
      }
      ok := true;
    }

    /** The commands after the trap is set: the certificate files, then vendor commands. */
    method WriteAll(paths: seq<Path>, material: seq<Content>, vendorCommands: nat) returns (ok: bool)
      requires |paths| == ACTIVE && |material| == WRITTEN
      modifies this`files, this`journal, this`failures
      ensures ok ==> WasDelivered(journal, paths, material, vendorCommands)
      ensures failures == old(failures) + if ok then 0 else 1
    {
      ok := InstallFiles(paths, material);
      if !ok {
        return;
      }
      for n := 0 to vendorCommands
        invariant WasDelivered(journal, paths, material, n) && failures == old(failures)
      {
        ghost var before := journal;
        ok := Vendor();
        if !ok {
          return;
        }
        VendorKeepsDelivery(before, files, paths, material, n);
      }
      ok := true;
    }

    /**
     * The apply script. A failure before the trap leaves every file untouched. A failure
     * after it leaves every active path as it was, present or absent, by the end of the
     * last restore block, even if `shells` enclosing shells roll back again after the
     * vendor command that ends a rollback. Success means that the certificate files
     * were delivered and then exactly the vendor commands succeeded; it is exactly the
     * case without a failing command.
     */
    method Apply(paths: seq<Path>, material: seq<Content>, vendorCommands: nat, shells: nat) returns (r: Outcome)
      requires |paths| == ACTIVE && |material| == WRITTEN
      modifies this
      ensures r == Installed ==> WasDelivered(journal, paths, material, vendorCommands)
      ensures r == Installed <==> failures == old(failures)
      ensures r == NotStarted ==> files == old(files)
      ensures r == RolledBack ==> forall path | path in paths :: Lookup(files, path) == Lookup(old(files), path)
    {
      journal := [];
      var ok := Check();
      if !ok {
        return NotStarted;
      }
      ok := BackUp(paths);
      if !ok {
        return NotStarted;
      }
      ok := Check();
      if !ok {
        return NotStarted;
      }
      ghost var original := files;
      ok := WriteAll(paths, material, vendorCommands);
      if !ok {
        Rollback(paths, original);
        for n := 0 to shells
          invariant BackedUp(original, paths, backup) && failures > old(failures)
          invariant forall path | path in paths :: Lookup(files, path) == Lookup(original, path)
        {
          var _ := Vendor(); // the shell inside ends its rollback with it
          Rollback(paths, original);
        }
        return RolledBack;
      }
      r := Installed;
    }
  }

  lemma VendorKeepsDelivery(journal: seq<Command>, files: map<Path, Content>, paths: seq<Path>, material: seq<Content>, n: nat)
    requires |paths| == ACTIVE && |material| == WRITTEN && WasDelivered(journal, paths, material, n)
    ensures WasDelivered(journal + [VendorRan(files, true)], paths, material, n + 1)
  {
    hide Delivered;
    var k := |journal| - n - 1;
    assert (journal + [VendorRan(files, true)])[k] == journal[k];
  }

  // ---------- The failure summary ----------

  const MARKER := "CERTIFICATE_APPLY_FAILED"
  const LIMIT := 480

  predicate Plain(ch: char) {
    || ch == ' ' || ch == ',' || ch == '-' || ch == '=' || ch == '_'
    || 'a' <= ch <= 'z' || 'A' <= ch <= 'Z' || '0' <= ch <= '9'
  }

  predicate MarkerAt(output: string, i: nat) {
    i + |MARKER| <= |output| && output[i..i + |MARKER|] == MARKER
  }

  predicate IsFirstMarker(output: string, start: nat) {
    MarkerAt(output, start) && forall i: nat | i < start :: !MarkerAt(output, i)
  }

  /** The longest plain stretch from `start` within the limit. */
  predicate IsStretch(output: string, start: nat, end: nat) {
    && start <= end <= |output| && end - start <= LIMIT
    && (forall k | start <= k < end :: Plain(output[k]))
    && (end < |output| && end - start < LIMIT ==> !Plain(output[end]))
  }

  /** `summary` is `text` without the spaces at its end. */
  predicate IsTrimmed(text: string, summary: string) {
    && summary <= text
    && (forall k | |summary| <= k < |text| :: text[k] == ' ')
    && (summary != "" ==> summary[|summary| - 1] != ' ')
  }

  ghost predicate IsSummary(output: string, summary: string) {
    if exists i: nat :: MarkerAt(output, i) then
      exists start: nat, end: nat ::
        IsFirstMarker(output, start) && IsStretch(output, start, end) && IsTrimmed(output[start..end], summary)
    else summary == ""
  }

  /** The first marker, or the end if there is none. */
  method FindMarker(output: string) returns (start: nat)
    ensures start <= |output|
    ensures start < |output| ==> IsFirstMarker(output, start)
    ensures start == |output| ==> forall i: nat :: !MarkerAt(output, i)
  {
    start := 0;
    while start < |output| && !MarkerAt(output, start)
      invariant start <= |output| && forall i: nat | i < start :: !MarkerAt(output, i)
    {
      start := start + 1;
    }
  }

  method FailureSummary(output: string) returns (summary: string)
    ensures IsSummary(output, summary)
  {
    var start := FindMarker(output);
    hide MarkerAt;
    if start == |output| {
      return "";
    }
    var end := start;
    while end < |output| && end - start < LIMIT && Plain(output[end])
      invariant start <= end <= |output| && end - start <= LIMIT
      invariant forall k | start <= k < end :: Plain(output[k])
    {
      end := end + 1;
    }
    assert IsStretch(output, start, end) && IsFirstMarker(output, start);
    var last := end;
    while last > start && output[last - 1] == ' '
      invariant start <= last <= end
      invariant forall k | last <= k < end :: output[k] == ' '
    {
      last := last - 1;
    }
    summary := output[start..last];
    assert output[start..end][..|summary|] == summary;
    assert IsTrimmed(output[start..end], summary);
  }

  lemma StretchIsUnique(output: string, start: nat, a: nat, b: nat)
    requires IsStretch(output, start, a) && IsStretch(output, start, b)
    ensures a == b
  {
  }

  lemma TrimIsUnique(text: string, a: string, b: string)
    requires IsTrimmed(text, a) && IsTrimmed(text, b)
    ensures a == b
  {
    assert a == text[..|a|] && b == text[..|b|];
  }

  /** There is one summary of an output. */
  lemma SummaryIsUnique(output: string, a: string, b: string)
    requires IsSummary(output, a) && IsSummary(output, b)
    ensures a == b
  {
    hide IsTrimmed, MarkerAt;
    if exists i: nat :: MarkerAt(output, i) {
      var s: nat, e: nat :| IsFirstMarker(output, s) && IsStretch(output, s, e) && IsTrimmed(output[s..e], a);
      var t: nat, f: nat :| IsFirstMarker(output, t) && IsStretch(output, t, f) && IsTrimmed(output[t..f], b);
      assert s == t;
      StretchIsUnique(output, s, e, f);
      TrimIsUnique(output[s..e], a, b);
    }
  }

  /**
   * A report line of at most 480 plain characters, as both traps of the apply script write
   * it, is recovered exactly from the first occurrence of its marker in the output.
   */
  lemma ReportIsRecovered(before: string, line: string, after: string, summary: string)
    requires |line| <= LIMIT && MARKER <= line && line[|line| - 1] != ' ' && forall ch | ch in line :: Plain(ch)
    requires IsFirstMarker(before + line + ['\n'] + after, |before|)
    requires IsSummary(before + line + ['\n'] + after, summary)
    ensures summary == line
  {
    var output := before + line + ['\n'] + after;
    var end := |before| + |line|;
    hide MarkerAt, IsFirstMarker, IsSummary;
    LineStretches(before, line, after);
    assert IsTrimmed(output[|before|..end], line);
    IsItsSummary(output, |before|, end, line);
    SummaryIsUnique(output, summary, line);
  }

  lemma IsItsSummary(output: string, start: nat, end: nat, summary: string)
    requires IsFirstMarker(output, start) && IsStretch(output, start, end) && IsTrimmed(output[start..end], summary)
    ensures IsSummary(output, summary)
  {
  }

  /** A plain line is the longest plain stretch from its start. */
  lemma LineStretches(before: string, line: string, after: string)
    requires |line| <= LIMIT && forall ch | ch in line :: Plain(ch)
    ensures var output := before + line + ['\n'] + after;
            output[|before|..|before| + |line|] == line && IsStretch(output, |before|, |before| + |line|)
  {
    var output := before + line + ['\n'] + after;
    var end := |before| + |line|;
    assert output[|before|..end] == line;
    assert output[end] == '\n';
    forall k | |before| <= k < end ensures Plain(output[k]) {
      assert output[k] == line[k - |before|];
    }
  }
}
