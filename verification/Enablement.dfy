// Enabling the Run Command service of a project.
module Enablement {
  import opened Wrappers

  datatype ServiceState = ENABLED | ENABLING | DISABLED | DISABLING | UNKNOWN

  /** The answers of the status call. */
  datatype Answer =
    | Status(state: Option<ServiceState>)
    | NotFound
    | Failure(transient: bool)

  /** What happened between the installer and the service, in order. */
  datatype Exchange =
    | Got(answer: Answer)
    | Enabled(accepted: bool)
    | Waited(inTime: bool)

  /** How a status answer is read: the service of a project that has none is disabled. */
  function StateOf(answer: Answer): Option<ServiceState> {
    match answer
    case Status(state) => state
    case NotFound => Some(DISABLED)
    case Failure(_) => None
  }

  predicate Shows(e: Exchange, state: ServiceState) {
    e.Got? && StateOf(e.answer) == Some(state)
  }

  /** The service is being activated: an enable call was accepted, or it was seen enabling. */
  ghost predicate Activating(log: seq<Exchange>) {
    exists j | 0 <= j < |log| :: log[j] == Enabled(true) || Shows(log[j], ENABLING)
  }

  /**
   * Why the installer may go on after exchange `i`: an answer that is not yet ENABLED
   * and fits the stage, or a transient failure once the activation has begun.
   */
  ghost predicate GoesOn(log: seq<Exchange>, i: nat)
    requires i + 1 < |log|
  {
    match log[i]
    case Waited(inTime) => inTime && log[i + 1].Got?
    case Enabled(accepted) =>
      && i > 0 && Shows(log[i - 1], DISABLED) && !Activating(log[..i])
      && (if accepted then log[i + 1].Waited? else log[i + 1].Got?)
      && (!accepted && i + 2 < |log| ==> Shows(log[i + 1], ENABLING))
    case Got(answer) =>
      match StateOf(answer)
      case None => answer == Failure(true) && Activating(log[..i]) && log[i + 1].Waited?
      case Some(ENABLED) => false
      case Some(ENABLING) => log[i + 1].Waited?
      case Some(DISABLED) => if Activating(log[..i]) then log[i + 1].Waited? else log[i + 1].Enabled?
      case Some(DISABLING) => !Activating(log[..i]) && log[i + 1].Waited?
      case Some(UNKNOWN) => false
  }

  /** The installer had a reason to go on after each exchange but the last. */
  ghost predicate Justified(log: seq<Exchange>) {
    forall i: nat | i + 1 < |log| :: GoesOn(log, i)
  }

  /** A justified exchange with one more step. */
  lemma OneMore(log: seq<Exchange>, e: Exchange)
    requires Justified(log) && log != []
    requires |log| > 1 && log[|log| - 2] == Enabled(false) ==> Shows(log[|log| - 1], ENABLING)
    requires GoesOn(log + [e], |log| - 1)
    ensures Justified(log + [e])
  {
    hide Activating;
    var more := log + [e];
    forall i: nat | i + 1 < |more| ensures GoesOn(more, i) {
      if i + 1 < |log| {
        assert GoesOn(log, i);
        assert more[..i] == log[..i];
      }
    }
  }

  lemma StaysActivating(log: seq<Exchange>, e: Exchange)
    ensures Activating(log + [e]) <==> Activating(log) || e == Enabled(true) || Shows(e, ENABLING)
  {
    var more := log + [e];
    if Activating(log) {
      var j :| 0 <= j < |log| && (log[j] == Enabled(true) || Shows(log[j], ENABLING));
      assert more[j] == log[j];
    }
    assert more[|log|] == e;
  }

  /** In justified exchanges the enable call is made at most once. */
  lemma EnabledAtMostOnce(log: seq<Exchange>, i: nat, j: nat)
    requires Justified(log) && i < j && j + 1 < |log| && log[i].Enabled?
    ensures !log[j].Enabled?
  {
    assert GoesOn(log, i) && GoesOn(log, j);
    if log[i] == Enabled(true) {
      assert log[..j][i] == Enabled(true);
    } else if i + 1 < j {
      assert log[..j][i + 1] == log[i + 1];
    }
  }

  /** Nothing could be justified next. */
  ghost predicate Over(log: seq<Exchange>) {
    forall e :: !Justified(log + [e])
  }

  /** The last exchange, or the reading after a refused enable call, gives no reason to go on. */
  lemma NoReason(log: seq<Exchange>)
    requires log != []
    requires
      || (|log| > 1 && log[|log| - 2] == Enabled(false) && !Shows(log[|log| - 1], ENABLING))
      || log[|log| - 1] == Waited(false)
      || Shows(log[|log| - 1], ENABLED)
      || Shows(log[|log| - 1], UNKNOWN)
      || (Shows(log[|log| - 1], DISABLING) && Activating(log[..|log| - 1]))
      || (log[|log| - 1].Got? && StateOf(log[|log| - 1].answer).None? &&
          (log[|log| - 1].answer != Failure(true) || !Activating(log[..|log| - 1])))
    ensures Over(log)
  {
    forall e ensures !Justified(log + [e]) {
      var more := log + [e];
      assert more[..|log| - 1] == log[..|log| - 1];
      assert !GoesOn(more, |log| - 1) || (|log| > 1 && !GoesOn(more, |log| - 2));
    }
  }

  /** The service enablement API of a project. */
  class Service {
    ghost var log: seq<Exchange>

    constructor ()
      ensures log == []
    {
      log := [];
    }

    method GetStatus() returns (answer: Answer)
      modifies this
      ensures log == old(log) + [Got(answer)]
    {
      answer := *;
      log := log + [Got(answer)];
    }

    method EnableService() returns (accepted: bool)
      modifies this
      ensures log == old(log) + [Enabled(accepted)]
    {
      accepted := *;
      log := log + [Enabled(accepted)];
    }

    /** Waits for the next poll, unless the context ends first. */
    method WaitForPoll(left: nat) returns (inTime: bool)
      modifies this
      ensures log == old(log) + [Waited(inTime)]
      ensures left == 0 ==> !inTime
    {
      inTime := *;
      inTime := inTime && left > 0;
      log := log + [Waited(inTime)];
    }
  }

  /** Right before the decision whether to enable: nothing has been enabled so far. */
  ghost predicate Undecided(log: seq<Exchange>, state: ServiceState) {
    && log != [] && Justified(log) && !Activating(log[..|log| - 1])
    && (forall i | 0 <= i < |log| :: !log[i].Enabled?)
    && Shows(log[|log| - 1], state)
  }

  /** One more wait and answer while the service is being disabled. */
  lemma StillDisabling(log: seq<Exchange>, answer: Answer)
    requires Undecided(log, DISABLING)
    ensures Justified(log + [Waited(false)])
    ensures Justified(log + [Waited(true)] + [Got(answer)])
    ensures !Activating((log + [Waited(true)] + [Got(answer)])[..|log| + 1])
    ensures StateOf(answer).Some? ==> Undecided(log + [Waited(true)] + [Got(answer)], StateOf(answer).value)
  {
    hide Activating;
    var n := |log| - 1;
    var l1 := log + [Waited(true)];
    assert log == log[..n] + [log[n]];
    StaysActivating(log[..n], log[n]);
    assert l1[..n] == log[..n] && (log + [Waited(false)])[..n] == log[..n];
    OneMore(log, Waited(false));
    OneMore(log, Waited(true));
    StaysActivating(log, Waited(true));
    OneMore(l1, Got(answer));
    assert (l1 + [Got(answer)])[..|l1|] == l1;
  }

  /** Waits until a service that is being disabled has another state. `left` bounds the polls. */
  method WaitDisabling(s: Service, first: ServiceState, left: nat) returns (r: Option<ServiceState>, rest: nat)
    requires Undecided(s.log, first)
    modifies s
    ensures s.log != [] && Justified(s.log) && !s.log[|s.log| - 1].Enabled?
    ensures r.Some? ==> r != Some(DISABLING) && Undecided(s.log, r.value)
    ensures r.None? ==> Over(s.log) && !Shows(s.log[|s.log| - 1], ENABLED)
    ensures first != DISABLING ==> s.log == old(s.log) && r == Some(first)
    ensures old(s.log) <= s.log
    ensures first == DISABLING ==> |s.log| > |old(s.log)| && s.log[|old(s.log)|].Waited?
  {
    var state := first;
    rest := left;
    while state == DISABLING
      invariant Undecided(s.log, state)
      invariant first != DISABLING ==> s.log == old(s.log) && state == first
      invariant old(s.log) <= s.log
      invariant s.log != old(s.log) ==> |s.log| > |old(s.log)| && s.log[|old(s.log)|].Waited?
      invariant s.log == old(s.log) ==> state == first
      decreases rest
    {
      ghost var l0 := s.log;
      var inTime := s.WaitForPoll(rest);
      if !inTime {
        StillDisabling(l0, NotFound);
        NoReason(s.log);
        return None, rest;
      }
      rest := rest - 1;
      var answer := s.GetStatus();
      StillDisabling(l0, answer);
      var read := StateOf(answer);
      if read.None? {
        NoReason(s.log);
        return None, rest;
      }
      state := read.value;
    }
    r := Some(state);
  }

  /** The activation has begun, and the last exchange is a reason to poll again. */
  ghost predicate MayPoll(log: seq<Exchange>) {
    && log != [] && Justified(log) && Activating(log)
    && (|log| > 1 && log[|log| - 2] == Enabled(false) ==> Shows(log[|log| - 1], ENABLING))
    && GoesOn(log + [Waited(true)], |log| - 1)
  }

  lemma OnePoll(log: seq<Exchange>, answer: Answer)
    requires MayPoll(log)
    ensures Justified(log + [Waited(false)])
    ensures Justified(log + [Waited(true)] + [Got(answer)])
    ensures StateOf(answer) == Some(ENABLING) || StateOf(answer) == Some(DISABLED) || answer == Failure(true) ==>
              MayPoll(log + [Waited(true)] + [Got(answer)])
  {
    hide Activating;
    var l1 := log + [Waited(true)];
    var l2 := l1 + [Got(answer)];
    var l3 := l2 + [Waited(true)];
    assert (log + [Waited(true)])[..|log| - 1] == (log + [Waited(false)])[..|log| - 1];
    OneMore(log, Waited(false));
    OneMore(log, Waited(true));
    OneMore(l1, Got(answer));
    StaysActivating(log, Waited(true));
    StaysActivating(l1, Got(answer));
    assert l3[..|l2| - 1] == l1;
  }

  lemma ActivatingNow(log: seq<Exchange>, answer: Answer)
    requires MayPoll(log)
    ensures var l2 := log + [Waited(true)] + [Got(answer)]; Activating(l2[..|l2| - 1])
  {
    StaysActivating(log, Waited(true));
    var l2 := log + [Waited(true)] + [Got(answer)];
    assert l2[..|l2| - 1] == log + [Waited(true)];
  }

  /** Polls until the service is enabled; only here are transient failures tolerated. */
  method WaitActivation(s: Service, first: ServiceState, left: nat) returns (ok: bool)
    requires s.log != []
    requires if first == ENABLED then Justified(s.log) && Shows(s.log[|s.log| - 1], ENABLED) else MayPoll(s.log)
    modifies s
    ensures s.log != [] && Justified(s.log) && old(s.log) <= s.log
    ensures Over(s.log) && !s.log[|s.log| - 1].Enabled?
    ensures ok <==> Shows(s.log[|s.log| - 1], ENABLED)
    ensures first != ENABLED ==> |s.log| > |old(s.log)| && s.log[|old(s.log)|].Waited?
  {
    hide Over, Justified, MayPoll, Activating, GoesOn;
    var state, rest := Some(first), left;
    while state != Some(ENABLED)
      invariant s.log != [] && old(s.log) <= s.log
      invariant s.log != old(s.log) ==> |s.log| > |old(s.log)| && s.log[|old(s.log)|].Waited?
      invariant s.log == old(s.log) ==> state == Some(first)
      invariant if state == Some(ENABLED) then Justified(s.log) && Shows(s.log[|s.log| - 1], ENABLED) else MayPoll(s.log)
      decreases rest
    {
      ghost var l0 := s.log;
      var inTime := s.WaitForPoll(rest);
      if !inTime {
        OnePoll(l0, NotFound);
        NoReason(s.log);
        return false;
      }
      rest := rest - 1;
      var answer := s.GetStatus();
      OnePoll(l0, answer);
      state := StateOf(answer);
      if state.None? {
        if answer != Failure(true) {
          NoReason(s.log);
          return false;
        }
      } else if state.value == DISABLING || state.value == UNKNOWN {
        ActivatingNow(l0, answer);
        NoReason(s.log);
        return false;
      }
    }
    NoReason(s.log);
    ok := true;
  }

  lemma Resolve(log: seq<Exchange>, state: ServiceState)
    requires Undecided(log, state)
    ensures state == ENABLING ==> MayPoll(log)
    ensures state == DISABLED ==> MayPoll(log + [Enabled(true)])
  {
    hide Activating;
    var n := |log| - 1;
    assert log == log[..n] + [log[n]];
    StaysActivating(log[..n], log[n]);
    if state == DISABLED {
      var l1 := log + [Enabled(true)];
      assert l1[..n] == log[..n];
      OneMore(log, Enabled(true));
      StaysActivating(log, Enabled(true));
      assert (l1 + [Waited(true)])[..n + 1] == log;
    }
  }

  /** The enable call was refused, and the service is read again. */
  lemma Refused(log: seq<Exchange>, answer: Answer)
    requires Undecided(log, DISABLED)
    ensures Justified(log + [Enabled(false)] + [Got(answer)])
    ensures StateOf(answer) == Some(ENABLING) ==> MayPoll(log + [Enabled(false)] + [Got(answer)])
  {
    hide Activating;
    var n := |log| - 1;
    assert log == log[..n] + [log[n]];
    StaysActivating(log[..n], log[n]);
    var l1 := log + [Enabled(false)];
    assert l1[..n] == log[..n];
    var l2 := l1 + [Got(answer)];
    OneMore(log, Enabled(false));
    StaysActivating(l1, Got(answer));
    assert l2[..n + 1] == log;
    OneMore(l1, Got(answer));
  }

  lemma FirstAnswer(log: seq<Exchange>, answer: Answer)
    requires log == [Got(answer)]
    ensures Justified(log) && !Activating([]) && !Activating(log[..0])
    ensures StateOf(answer).Some? ==> Undecided(log, StateOf(answer).value)
  {
  }

  lemma StillUndecided(log: seq<Exchange>, state: ServiceState)
    requires Undecided(log, state)
    ensures log != [] && Justified(log) && Shows(log[|log| - 1], state) && !Activating(log[..|log| - 1])
  {
  }

  /** installer/service_enablement.go:60-75: a disabled service is enabled, and any other state has to be an active one. */
  method StartActivation(s: Service, current: ServiceState) returns (r: Option<ServiceState>)
    requires Undecided(s.log, current) && current != DISABLING
    modifies s
    ensures old(s.log) <= s.log && Justified(s.log)
    ensures if current == DISABLED then |s.log| > |old(s.log)| && s.log[|old(s.log)|].Enabled? else s.log == old(s.log)
    ensures r.None? ==> s.log != [] && Over(s.log) && !s.log[|s.log| - 1].Enabled? && !Shows(s.log[|s.log| - 1], ENABLED)
    ensures r.Some? ==> s.log != [] && r.value in {ENABLED, ENABLING}
    ensures r == Some(ENABLED) ==> Shows(s.log[|s.log| - 1], ENABLED)
    ensures r == Some(ENABLING) ==> MayPoll(s.log)
    ensures current == ENABLING ==> r == Some(ENABLING)
  {
    ghost var l0 := s.log;
    StillUndecided(l0, current);
    Resolve(l0, current);
    hide Over, Activating, GoesOn, Undecided;
    if current == DISABLED {
      var accepted := s.EnableService();
      if accepted {
        return Some(ENABLING);
      }
      var answer := s.GetStatus();
      Refused(l0, answer);
      r := StateOf(answer);
      if r.None? || r.value !in {ENABLED, ENABLING} {
        NoReason(s.log);
        r := None;
      }
    } else if current in {ENABLED, ENABLING} {
      r := Some(current);
    } else {
      NoReason(s.log);
      r := None;
    }
  }

  lemma ShowsEnabled(e: Exchange)
    ensures Shows(e, ENABLED) <==> e == Got(Status(Some(ENABLED)))
  {
  }

  lemma NoReasonAtFirst(log: seq<Exchange>, answer: Answer)
    requires log == [Got(answer)] && StateOf(answer) in {None, Some(ENABLED)}
    ensures Over(log)
  {
    assert !Activating(log[..0]);
    NoReason(log);
  }

  /** installer/service_enablement.go:50-94: disabling, enabling, activation. */
  method AfterFirst(s: Service, first: ServiceState, left: nat) returns (ok: bool)
    requires Undecided(s.log, first) && first != ENABLED
    modifies s
    ensures s.log != [] && Justified(s.log) && Over(s.log) && !s.log[|s.log| - 1].Enabled?
    ensures ok <==> Shows(s.log[|s.log| - 1], ENABLED)
    ensures old(s.log) <= s.log
    ensures first == DISABLED ==> |s.log| > |old(s.log)| && s.log[|old(s.log)|].Enabled?
    ensures first in {ENABLING, DISABLING} ==> |s.log| > |old(s.log)| && s.log[|old(s.log)|].Waited?
  {
    hide Over, Justified, MayPoll, Activating, GoesOn, Undecided, Shows;
    var state, polls := WaitDisabling(s, first, left);
    if state.None? {
      return false;
    }
    state := StartActivation(s, state.value);
    if state.None? {
      return false;
    }
    ok := WaitActivation(s, state.value, polls);
  }

  /**
   * Makes sure that the service is enabled: it succeeds exactly when the last answer was
   * ENABLED. Every exchange before had a reason to go on, and the last one has none. A
   * first answer that the service is disabled, or that the project has none, is followed
   * by the enable call, and one that it is being enabled or disabled by a wait.
   */
  method EnsureRunCommandService(s: Service, left: nat) returns (ok: bool)
    requires s.log == []
    modifies s
    ensures s.log != [] && Justified(s.log) && Over(s.log) && !s.log[|s.log| - 1].Enabled?
    ensures ok <==> s.log[|s.log| - 1] == Got(Status(Some(ENABLED)))
    ensures s.log[0] in {Got(NotFound), Got(Status(Some(DISABLED)))} ==> |s.log| > 1 && s.log[1].Enabled?
    ensures s.log[0] in {Got(Status(Some(ENABLING))), Got(Status(Some(DISABLING)))} ==> |s.log| > 1 && s.log[1].Waited?
    ensures s.log[0].Got? && (s.log[0].answer in {Status(Some(ENABLED)), Status(None)} || s.log[0].answer.Failure? ==> |s.log| == 1)
  {
    var answer := s.GetStatus();
    FirstAnswer(s.log, answer);
    var state := StateOf(answer);
    hide Over, Justified, MayPoll, Activating, GoesOn, Undecided, Shows;
    if state.None? || state == Some(ENABLED) {
      NoReasonAtFirst(s.log, answer);
      return state.Some?;
    }
    ok := AfterFirst(s, state.value, left);
    ShowsEnabled(s.log[|s.log| - 1]);
  }
}
