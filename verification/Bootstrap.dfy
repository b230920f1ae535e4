// The appliance bootstrap: one password in four places, changed by a script
// that may stop at any command and is run again.
module Bootstrap {
  import opened Wrappers

  type Password = string

  /** sha256 over FQDN and password, taken as free of collisions. */
  datatype Digest = Digest(fqdn: string, password: Password)

  /**
   * What the script reads and writes. An empty password file and a missing one
   * are the same to the script. None stands for a Kolla or OpenRC file without
   * exactly one password entry.
   */
  datatype State = State(
    file: Password,
    keystone: Password,
    kolla: Option<Password>,
    openrc: Option<Password>,
    marker: Option<Digest>,
    hostname: string)

  /** All four places hold the password, and the hostname is set. */
  predicate Agreed(s: State, fqdn: string, password: Password) {
    s == State(password, password, Some(password), Some(password), s.marker, fqdn)
  }

  /** All four places hold the password and the marker says so. */
  predicate Converged(s: State, fqdn: string, password: Password) {
    Agreed(s, fqdn, password) && s.marker == Some(Digest(fqdn, password))
  }

  /** A run with this password can still log in: with OpenRC's password or with the new one. */
  predicate Recoverable(s: State, password: Password) {
    s.openrc == Some(s.keystone) || s.keystone == password
  }

  /**
   * Between runs with a fixed configuration: the password of the next run is
   * known and gives access, or no run has drawn one yet.
   */
  predicate Resumable(s: State, configured: Password) {
    if configured != "" then Recoverable(s, configured)
    else if s.file != "" then Recoverable(s, s.file)
    else s.openrc == Some(s.keystone)
  }

  /** Kolla and OpenRC keep their password entries. */
  predicate EntriesKept(a: State, b: State) {
    (a.kolla.Some? ==> b.kolla.Some?) && (a.openrc.Some? ==> b.openrc.Some?)
  }

  /** How the installer sees one command: with its output, or failed with or without reason to retry. */
  datatype Outcome = Answered | Transient | Permanent

  class Appliance {
    var s: State
    var faults: nat   // commands that failed or were cut off, services that did not answer
    var torn: nat     // cut-off writes that left the password file empty
    var lost: nat     // those of them that happened while Keystone and OpenRC differed
    var blank: nat    // cut-off writes that left the marker empty
    var missed: nat   // commands whose result did not reach the installer

    constructor (s: State)
      ensures this.s == s && faults == 0 && torn == 0 && lost == 0 && blank == 0 && missed == 0
    {
      this.s := s;
      faults, torn, lost, blank, missed := 0, 0, 0, 0, 0;
    }

    /** The script is stopped here, or the next command fails (set -e). */
    method Stops() returns (stop: bool)
      modifies this`faults
      ensures faults == old(faults) + (if stop then 1 else 0)
    {
      stop := *;
      if stop {
        faults := faults + 1;
      }
    }

    /** `openstack token issue` with this password: needs a running service and the right password. */
    method TokenIssue(password: Password) returns (ok: bool)
      modifies this`faults
      ensures ok ==> s.keystone == password && faults == old(faults)
      ensures !ok && s.keystone == password ==> faults > old(faults)
      ensures faults >= old(faults)
    {
      var up: bool := *;
      if !up {
        faults := faults + 1;
      }
      ok := up && s.keystone == password;
    }

    /** Truncate and write: cut off in between, the file stays empty. */
    method WritePasswordFile(password: Password) returns (ok: bool)
      modifies this`s, this`faults, this`torn, this`lost
      ensures ok ==> s == old(s).(file := password) && faults == old(faults) && torn == old(torn)
      ensures lost == old(lost) + (if torn > old(torn) && old(s).openrc != Some(old(s).keystone) then 1 else 0)
      ensures !ok ==> faults == old(faults) + 1
      ensures !ok ==> || (s == old(s) && torn == old(torn))
                      || (s == old(s).(file := password) && torn == old(torn))
                      || (s == old(s).(file := "") && torn == old(torn) + 1)
    {
      ok := *;
      var reached: int := *;
      if ok || reached == 1 {
        s := s.(file := password);
      } else if reached == 2 {
        s := s.(file := "");
        torn := torn + 1;
        if s.openrc != Some(s.keystone) {
          lost := lost + 1;
        }
      }
      if !ok {
        faults := faults + 1;
      }
    }

    /** The same for the marker. */
    method WriteMarker(digest: Digest) returns (ok: bool)
      modifies this`s, this`faults, this`blank
      ensures ok ==> s == old(s).(marker := Some(digest)) && faults == old(faults) && blank == old(blank)
      ensures !ok ==> faults == old(faults) + 1
      ensures !ok ==> || (s == old(s) && blank == old(blank))
                      || (s == old(s).(marker := Some(digest)) && blank == old(blank))
                      || (s == old(s).(marker := None) && blank == old(blank) + 1)
    {
      ok := *;
      var reached: int := *;
      if ok || reached == 1 {
        s := s.(marker := Some(digest));
      } else if reached == 2 {
        s := s.(marker := None);
        blank := blank + 1;
      }
      if !ok {
        faults := faults + 1;
      }
    }

    /** Waits for Keystone and logs in with either password. */
    method Login(openrcPassword: Password, password: Password) returns (ok: bool, withNew: bool)
      modifies this`faults
      ensures ok ==> s.keystone == (if withNew then password else openrcPassword)
      ensures faults >= old(faults)
      ensures faults == old(faults) ==> (ok <==> s.keystone in {openrcPassword, password})
    {
      for attempt := 1 to 121
        invariant faults >= old(faults)
        invariant attempt > 1 && faults == old(faults) ==> s.keystone !in {openrcPassword, password}
      {
        ok := TokenIssue(openrcPassword);
        if ok {
          return true, false;
        }
        ok := TokenIssue(password);
        if ok {
          return true, true;
        }
      }
      return false, false;
    }

    /** Vendor command: copies Kolla's password to Keystone and OpenRC, possibly only in part. */
    method ExposeCoriolis()
      requires s.kolla.Some?
      modifies this`s
      ensures s == old(s).(keystone := s.keystone, openrc := s.openrc)
      ensures s.keystone in {old(s.keystone), s.kolla.value}
      ensures s.openrc in {old(s.openrc), s.kolla}
    {
      var a: bool := *;
      var b: bool := *;
      if a {
        s := s.(keystone := s.kolla.value);
      }
      if b {
        s := s.(openrc := s.kolla);
      }
    }

    /** Waits until OpenRC, Keystone and the web service agree on the password. */
    method Verify(password: Password) returns (ok: bool)
      modifies this`faults
      ensures ok ==> s.openrc == Some(password) && s.keystone == password
      ensures faults >= old(faults)
      ensures faults == old(faults) && s.openrc == Some(password) && s.keystone == password ==> ok
    {
      for attempt := 1 to 121
        invariant faults >= old(faults)
        invariant attempt > 1 && s.openrc == Some(password) && s.keystone == password ==> faults > old(faults)
      {
        if s.openrc == Some(password) {
          ok := TokenIssue(password);
          if ok {
            var down := Stops(); // web service
            if !down {
              return true;
            }
          }
        }
      }
      ok := false;
    }

    /** installer/bootstrap.go:67-177: hostname, Keystone, Kolla, OpenRC, vendor command, verification, marker. */
    method Apply(fqdn: string, password: Password) returns (ok: bool)
      modifies this`s, this`faults, this`blank
      ensures blank >= old(blank) && faults >= old(faults)
      ensures s.file == old(s.file) && EntriesKept(old(s), s)
      ensures Recoverable(old(s), password) ==> Recoverable(s, password)
      ensures ok && old(s.file) == password ==> Converged(s, fqdn, password)
      ensures Agreed(old(s), fqdn, password) ==> s == old(s).(marker := s.marker)
      ensures Converged(old(s), fqdn, password) ==> (s == old(s) <==> blank == old(blank))
      ensures faults == old(faults) && old(s.kolla).Some? && old(s.openrc).Some? ==> (ok <==> Recoverable(old(s), password))
    {
      ok := false;
      var stop := Stops();
      if stop {
        return;
      }
      s := s.(hostname := fqdn);
      stop := Stops();
      if stop || s.openrc.None? {
        return;
      }
      var loggedIn, withNew := Login(s.openrc.value, password);
      if !loggedIn {
        return; // exit 31
      }
      if !withNew {
        stop := Stops();
        if stop {
          return;
        }
        s := s.(keystone := password);
        var issued := TokenIssue(password);
        if !issued {
          return;
        }
      }
      stop := Stops();
      if stop || s.kolla.None? {
        return;
      }
      s := s.(kolla := Some(password));
      stop := Stops();
      if stop {
        return;
      }
      s := s.(openrc := Some(password));
      stop := Stops();
      if stop {
        return;
      }
      ExposeCoriolis();
      stop := Stops();
      if stop {
        return;
      }
      var verified := Verify(password);
      if !verified {
        return; // exit 32
      }
      stop := Stops();
      if stop {
        return;
      }
      var marked := WriteMarker(Digest(fqdn, password));
      if !marked {
        return;
      }
      stop := Stops();
      ok := !stop;
    }

    /**
     * One run of the script. `password` is what the run chose, whether or not it
     * completed; a completed run has printed it.
     */
    method RunScript(configured: Password, fqdn: string) returns (ok: bool, password: Password)
      modifies this`s, this`faults, this`torn, this`lost, this`blank
      ensures configured != "" ==> password == configured
      ensures configured == "" && old(s.file) != "" ==> password == old(s.file)
      ensures ok ==> password != "" && Converged(s, fqdn, password)
      ensures lost == old(lost) + (if torn > old(torn) && old(s).openrc != Some(old(s).keystone) then 1 else 0)
      ensures Resumable(old(s), configured) ==> (Resumable(s, configured) <==> configured != "" || lost == old(lost))
      ensures Resumable(old(s), configured) ==>
                (Resumable(s, configured) <==> torn == old(torn) || configured != "" || old(s).openrc == Some(old(s).keystone))
      ensures torn == old(torn) && configured == "" && old(s.file) != "" ==> s.file == old(s.file)
      ensures Agreed(old(s), fqdn, password) && torn == old(torn) ==> s == old(s).(marker := s.marker)
      ensures Converged(old(s), fqdn, password) && password != "" ==>
                (s == old(s) <==> torn == old(torn) && blank == old(blank))
      ensures torn == old(torn) ==> s.file in {old(s.file), password}
      ensures faults == old(faults) && old(s.kolla).Some? && old(s.openrc).Some? ==> (ok <==> Recoverable(old(s), password))
      ensures faults >= old(faults) && torn >= old(torn) && blank >= old(blank) && EntriesKept(old(s), s)
    {
      ok := false;
      if configured != "" {
        password := configured;
      } else if s.file != "" {
        password := s.file;
      } else {
        password := *;
        if password == "" { // openssl failed
          faults := faults + 1;
          return;
        }
      }
      var stop := Stops();
      if stop {
        return;
      }
      var written := WritePasswordFile(password);
      if !written {
        return;
      }
      var current := false;
      if s.marker == Some(Digest(fqdn, password)) && s.hostname == fqdn && s.kolla == Some(password) && s.openrc == Some(password) {
        current := TokenIssue(password);
      }
      if !current {
        ok := Apply(fqdn, password);
      } else {
        stop := Stops();
        ok := !stop;
      }
    }

    /** The script as a Run Command: its result may be missed, and then it may have completed. */
    method RunCommand(configured: Password, fqdn: string) returns (outcome: Outcome, password: Password)
      modifies this
      ensures configured != "" ==> password == configured
      ensures configured == "" && old(s.file) != "" ==> password == old(s.file)
      ensures outcome.Answered? ==> password != "" && Converged(s, fqdn, password)
      ensures Resumable(old(s), configured) ==> (Resumable(s, configured) <==> configured != "" || lost == old(lost))
      ensures torn == old(torn) && configured == "" && old(s.file) != "" ==> s.file == old(s.file)
      ensures Agreed(old(s), fqdn, password) && torn == old(torn) ==> s == old(s).(marker := s.marker)
      ensures Converged(old(s), fqdn, password) && password != "" ==>
                (s == old(s) <==> torn == old(torn) && blank == old(blank))
      ensures faults == old(faults) && missed == old(missed) && old(s.kolla).Some? && old(s.openrc).Some? ==>
                (outcome.Answered? <==> Recoverable(old(s), password))
      ensures faults >= old(faults) && torn >= old(torn) && blank >= old(blank) && missed >= old(missed)
      ensures lost >= old(lost) && EntriesKept(old(s), s)
    {
      var ok;
      ok, password := RunScript(configured, fqdn);
      var arrives: bool := *;
      if ok && arrives {
        return Answered, password;
      }
      if ok {
        missed := missed + 1;
      }
      var retryable: bool := *;
      outcome := if retryable then Transient else Permanent;
    }
  }

  /** All places agree already, and the configuration asks for the same password or for none. */
  predicate AlreadyAgreed(s: State, configured: Password, fqdn: string) {
    s.file != "" && configured in {"", s.file} && Agreed(s, fqdn, s.file)
  }

  /** An earlier run has converged. */
  predicate AlreadyDone(s: State, configured: Password, fqdn: string) {
    AlreadyAgreed(s, configured, fqdn) && Converged(s, fqdn, s.file)
  }

  /** Resumable, and Kolla and OpenRC have their password entries. */
  predicate Startable(s: State, configured: Password) {
    Resumable(s, configured) && s.kolla.Some? && s.openrc.Some?
  }

  /** Every attempt but the last could be retried, and the last one ended it. */
  predicate Ended(outcomes: seq<Outcome>) {
    && 1 <= |outcomes| <= 3
    && (forall k | 0 <= k < |outcomes| - 1 :: outcomes[k].Transient?)
    && (|outcomes| < 3 ==> !outcomes[|outcomes| - 1].Transient?)
  }

  /**
   * Runs the script up to three times. It succeeds exactly with the first answer, returns the
   * password that is now in all four places, and gives up only after a failure that is not
   * transient or after three attempts. Undisturbed, it succeeds with the first one.
   */
  method BootstrapAppliance(a: Appliance, configured: Password, fqdn: string)
    returns (r: Result<Password>, ghost outcomes: seq<Outcome>)
    modifies a
    ensures Ended(outcomes) && (r.Ok? <==> outcomes[|outcomes| - 1].Answered?)
    ensures Startable(old(a.s), configured) && a.faults == old(a.faults) && a.missed == old(a.missed) ==> r.Ok? && |outcomes| == 1
    ensures a.faults >= old(a.faults) && a.missed >= old(a.missed)
    ensures a.torn >= old(a.torn) && a.lost >= old(a.lost) && EntriesKept(old(a.s), a.s)
    ensures Resumable(old(a.s), configured) && (configured != "" || a.lost == old(a.lost)) ==> Resumable(a.s, configured)
    ensures r.Ok? ==> r.value != "" && Converged(a.s, fqdn, r.value)
    ensures r.Ok? && configured != "" ==> r.value == configured
    ensures r.Ok? && configured == "" && old(a.s.file) != "" && a.torn == old(a.torn) ==> r.value == old(a.s.file)
    ensures a.torn == old(a.torn) && configured == "" && old(a.s.file) != "" ==> a.s.file == old(a.s.file)
    ensures a.blank >= old(a.blank)
    ensures AlreadyAgreed(old(a.s), configured, fqdn) && a.torn == old(a.torn) ==> a.s == old(a.s).(marker := a.s.marker)
    ensures AlreadyDone(old(a.s), configured, fqdn) && a.torn == old(a.torn) && a.blank == old(a.blank) ==> a.s == old(a.s)
  {
    outcomes := [];
    r := Err;
    for attempt := 1 to 4
      invariant |outcomes| == attempt - 1 && r == Err
      invariant forall k | 0 <= k < |outcomes| :: outcomes[k].Transient?
      invariant a.faults >= old(a.faults) && a.missed >= old(a.missed)
      invariant attempt == 1 ==> a.s == old(a.s)
      invariant attempt > 1 && Startable(old(a.s), configured) ==> a.faults > old(a.faults) || a.missed > old(a.missed)
      invariant a.torn >= old(a.torn) && a.lost >= old(a.lost) && EntriesKept(old(a.s), a.s)
      invariant Resumable(old(a.s), configured) && (configured != "" || a.lost == old(a.lost)) ==> Resumable(a.s, configured)
      invariant a.torn == old(a.torn) && configured == "" && old(a.s.file) != "" ==> a.s.file == old(a.s.file)
      invariant a.blank >= old(a.blank)
      invariant AlreadyAgreed(old(a.s), configured, fqdn) && a.torn == old(a.torn) ==>
        a.s == old(a.s).(marker := a.s.marker)
      invariant AlreadyDone(old(a.s), configured, fqdn) && a.torn == old(a.torn) && a.blank == old(a.blank) ==> a.s == old(a.s)
    {
      var outcome, password := a.RunCommand(configured, fqdn);
      outcomes := outcomes + [outcome];
      if outcome.Answered? {
        return Ok(password), outcomes;
      }
      if outcome.Permanent? {
        return Err, outcomes;
      }
    }
  }

  /**
   * Any number of installer runs with one configuration, each stopping anywhere, and then
   * one more. With a configured password the appliance always stays resumable, and an
   * undisturbed last run converges. So it does with a generated one, unless a write of the
   * password file was cut off while Keystone and OpenRC differed.
   */
  method BootstrapRepeatedly(a: Appliance, configured: Password, fqdn: string, runs: nat)
    returns (r: Result<Password>, ghost faults: nat, ghost missed: nat)
    requires a.s.openrc == Some(a.s.keystone) && a.s.kolla.Some?
    modifies a
    ensures configured != "" || a.lost == old(a.lost) ==> Resumable(a.s, configured)
    ensures old(a.faults) <= faults <= a.faults && old(a.missed) <= missed <= a.missed
    ensures (configured != "" || a.lost == old(a.lost)) && a.faults == faults && a.missed == missed ==> r.Ok?
    ensures r.Ok? ==> Converged(a.s, fqdn, r.value) && (configured != "" ==> r.value == configured)
    ensures a.lost >= old(a.lost)
  {
    ghost var outcomes;
    for n := 0 to runs
      invariant a.lost >= old(a.lost) && EntriesKept(old(a.s), a.s)
      invariant a.faults >= old(a.faults) && a.missed >= old(a.missed)
      invariant configured != "" || a.lost == old(a.lost) ==> Resumable(a.s, configured)
    {
      r, outcomes := BootstrapAppliance(a, configured, fqdn);
    }
    faults, missed := a.faults, a.missed;
    r, outcomes := BootstrapAppliance(a, configured, fqdn);
  }

  /** From a resumable state, whatever password the next run chooses gives access. */
  lemma ResumableConverges(s: State, configured: Password, password: Password)
    requires Resumable(s, configured)
    requires configured != "" ==> password == configured
    requires configured == "" && s.file != "" ==> password == s.file
    ensures Recoverable(s, password)
  {
  }

  /**
   * A cut-off write of the password file is harmless exactly if the password is
   * configured, or OpenRC's password still opens Keystone.
   */
  lemma CutOffWriteIsHarmless(s: State, configured: Password)
    requires Resumable(s, configured)
    ensures Resumable(s.(file := ""), configured) <==> configured != "" || s.openrc == Some(s.keystone)
  {
  }

  /**
   * A generated password survives only in the password file until OpenRC holds it too:
   * after a harmful cut-off write only the password that was lost gives access again.
   */
  lemma CutOffWriteLosesAccess(s: State, next: Password)
    requires Resumable(s, "") && !Resumable(s.(file := ""), "")
    ensures Recoverable(s.(file := ""), next) <==> next == s.file
  {
  }

  /** Such a state: a first run stopped after it changed Keystone, and the second while it rewrites the file. */
  lemma CutOffWriteCanHarm(vendor: State, generated: Password)
    requires vendor.openrc == Some(vendor.keystone) && generated !in {"", vendor.keystone}
    ensures var stopped := vendor.(file := generated, keystone := generated);
            Resumable(stopped, "") && !Resumable(stopped.(file := ""), "")
  {
  }
}
