// Streaming the output of a remote command whose API answer is a window that
// first grows and then rolls.
module OutputWindow {
  newtype Byte = x: int | 0 <= x < 256
  type Bytes = seq<Byte>

  const PROBE: nat := 64

  function Min(a: nat, b: nat): nat { if a < b then a else b }

  // ---------- Occurrences ----------

  /** `p` stands in `s` at position `i`. */
  predicate At(s: Bytes, p: Bytes, i: int) {
    0 <= i && i + |p| <= |s| && s[i..i + |p|] == p
  }

  /** strings.LastIndex: the last position of `p` in `s`, or -1. */
  function LastIndex(s: Bytes, p: Bytes): (index: int)
    ensures -1 <= index <= |s| - |p| || (index == -1 && |s| < |p|)
    ensures index >= 0 ==> At(s, p, index)
    ensures forall i | index < i :: !At(s, p, i)
  {
    LastIndexUpTo(s, p, |s| - |p|)
  }

  function LastIndexUpTo(s: Bytes, p: Bytes, from: int): (index: int)
    requires from <= |s| - |p|
    ensures -1 <= index <= from || (index == -1 && from < -1)
    ensures index >= 0 ==> At(s, p, index)
    ensures forall i | index < i <= from :: !At(s, p, i)
    decreases from + 1
  {
    if from < 0 then -1
    else if At(s, p, from) then from
    else LastIndexUpTo(s, p, from - 1)
  }

  // ---------- Overlaps ----------

  /** The last n bytes of `previous` are the first n bytes of `current`. */
  predicate Overlap(previous: Bytes, current: Bytes, n: int) {
    0 < n <= |previous| && n <= |current| && previous[|previous| - n..] == current[..n]
  }

  function Probe(current: Bytes): Bytes { current[..Min(PROBE, |current|)] }

  /**
   * The probe occurrences the backward search looks at: the last one that ends
   * before `end`, then the last one that ends before that, and so on.
   */
  ghost predicate Visited(previous: Bytes, probe: Bytes, end: nat, i: int)
    requires end <= |previous|
    decreases end
  {
    var last := LastIndex(previous[..end], probe);
    end > 0 && |probe| > 0 && last >= 0 && (i == last || Visited(previous, probe, last, i))
  }

  /** The search finds overlap n: it is short, or it starts at a visited probe occurrence. */
  ghost predicate Findable(previous: Bytes, current: Bytes, n: int) {
    Overlap(previous, current, n)
    && (n < PROBE || Visited(previous, Probe(current), |previous|, |previous| - n))
  }

  ghost predicate VisitedOverlap(previous: Bytes, current: Bytes, n: int) {
    Overlap(previous, current, n) && Visited(previous, Probe(current), |previous|, |previous| - n)
  }

  /** The overlap that is used: the shortest at a visited occurrence or, if there is none, the longest short one. */
  ghost predicate Chosen(previous: Bytes, current: Bytes, n: int) {
    || (VisitedOverlap(previous, current, n) && forall m | m < n :: !VisitedOverlap(previous, current, m))
    || (&& (forall m :: !VisitedOverlap(previous, current, m))
        && Overlap(previous, current, n) && n < PROBE && forall m | n < m < PROBE :: !Overlap(previous, current, m))
  }

  lemma VisitedIsOccurrence(previous: Bytes, probe: Bytes, end: nat, i: int)
    requires end <= |previous| && Visited(previous, probe, end, i)
    ensures At(previous, probe, i) && i + |probe| <= end
    decreases end
  {
    var last := LastIndex(previous[..end], probe);
    assert previous[..end][last..last + |probe|] == previous[last..last + |probe|];
    if i != last {
      VisitedIsOccurrence(previous, probe, last, i);
    }
  }

  lemma VisitedNotAfter(previous: Bytes, probe: Bytes, end: nat, i: int)
    requires end <= |previous| && Visited(previous, probe, end, i)
    ensures i <= LastIndex(previous[..end], probe)
  {
    var last := LastIndex(previous[..end], probe);
    if i != last {
      VisitedIsOccurrence(previous, probe, last, i);
    }
  }

  /** What to print after `previous` was printed, and whether the connection was lost. */
  method CommandOutputDelta(previous: Bytes, current: Bytes) returns (delta: Bytes, reset: bool)
    ensures previous == [] ==> delta == current && !reset
    ensures previous <= current ==> current == previous + delta && !reset
    ensures !reset && previous != [] && !(previous <= current) ==>
              exists n :: Overlap(previous, current, n) && Chosen(previous, current, n) && delta == current[n..]
    ensures reset ==> delta == current
    ensures reset <==> previous != [] && !(previous <= current) && !exists n :: Findable(previous, current, n)
  {
    if previous == [] || previous <= current {
      return current[|previous|..], false;
    }
    hide Visited;
    var probeLength := Min(PROBE, |current|);
    if probeLength > 0 {
      var probe := current[..probeLength];
      var searchEnd := |previous|;
      while searchEnd > 0
        invariant 0 <= searchEnd <= |previous|
        invariant forall m | VisitedOverlap(previous, current, m) :: Visited(previous, probe, searchEnd, |previous| - m)
        invariant forall i | Visited(previous, probe, searchEnd, i) :: Visited(previous, probe, |previous|, i)
        decreases searchEnd
      {
        var index := LastIndex(previous[..searchEnd], probe);
        VisitedStep(previous, probe, searchEnd);
        if index < 0 {
          break;
        }
        var overlap := |previous| - index;
        if overlap <= |current| && previous[index..] == current[..overlap] {
          ShortestVisited(previous, current, searchEnd, overlap);
          return current[overlap..], false;
        }
        searchEnd := index;
      }
      VisitedStep(previous, probe, searchEnd);
    } else {
      VisitedStep(previous, current, |previous|);
    }
    var overlap := Min(PROBE - 1, Min(|previous|, |current|));
    while overlap > 0
      invariant 0 <= overlap <= Min(PROBE - 1, Min(|previous|, |current|))
      invariant forall n | overlap < n < PROBE :: !Overlap(previous, current, n)
    {
      if previous[|previous| - overlap..] == current[..overlap] {
        assert Overlap(previous, current, overlap) && Findable(previous, current, overlap);
        return current[overlap..], false;
      }
      overlap := overlap - 1;
    }
    delta, reset := current, true;
    forall n
      ensures !Findable(previous, current, n)
    {
      assert !VisitedOverlap(previous, current, n);
    }
  }

  /** One step of the backward search. */
  lemma VisitedStep(previous: Bytes, probe: Bytes, end: nat)
    requires end <= |previous|
    ensures end == 0 || |probe| == 0 ==> forall i :: !Visited(previous, probe, end, i)
    ensures var last := LastIndex(previous[..end], probe);
            && (last < 0 ==> forall i :: !Visited(previous, probe, end, i))
            && (end > 0 && |probe| > 0 && last >= 0 ==>
                  && last < end && Visited(previous, probe, end, last)
                  && forall i :: Visited(previous, probe, end, i) <==> i == last || Visited(previous, probe, last, i))
  {
  }

  lemma ShortestVisited(previous: Bytes, current: Bytes, end: nat, overlap: int)
    requires end <= |previous| && Overlap(previous, current, overlap)
    requires |previous| - overlap == LastIndex(previous[..end], Probe(current))
    requires Visited(previous, Probe(current), |previous|, |previous| - overlap)
    requires forall m | VisitedOverlap(previous, current, m) :: Visited(previous, Probe(current), end, |previous| - m)
    ensures Findable(previous, current, overlap) && Chosen(previous, current, overlap)
  {
    hide Visited, LastIndex, At;
    forall m | VisitedOverlap(previous, current, m)
      ensures m >= overlap
    {
      VisitedNotAfter(previous, Probe(current), end, |previous| - m);
    }
  }

  // ---------- Completeness of the search ----------

  /** Every overlap of at most 64 bytes is found. */
  lemma ShortOverlapIsFindable(previous: Bytes, current: Bytes, n: int)
    requires Overlap(previous, current, n) && n <= PROBE
    ensures Findable(previous, current, n)
  {
    if n == PROBE {
      var probe := Probe(current);
      assert previous[..|previous|] == previous;
      assert At(previous, probe, |previous| - PROBE);
      assert LastIndex(previous[..|previous|], probe) == |previous| - PROBE;
    }
  }

  /** No two occurrences of the probe overlap. */
  ghost predicate ProbeIsolated(previous: Bytes, probe: Bytes) {
    forall i, j | i < j && At(previous, probe, i) && At(previous, probe, j) :: i + |probe| <= j
  }

  /** If probe occurrences do not overlap, the backward search visits all of them. */
  lemma {:induction false} IsolatedIsVisited(previous: Bytes, probe: Bytes, end: nat, i: int)
    requires end <= |previous| && |probe| > 0 && ProbeIsolated(previous, probe)
    requires At(previous, probe, i) && i + |probe| <= end
    ensures Visited(previous, probe, end, i)
    decreases end
  {
    var s := previous[..end];
    assert s[i..i + |probe|] == previous[i..i + |probe|];
    assert At(s, probe, i);
    var last := LastIndex(s, probe);
    assert s[last..last + |probe|] == previous[last..last + |probe|];
    assert At(previous, probe, last);
    if i != last {
      IsolatedIsVisited(previous, probe, last, i);
    }
  }

  /** Visited occurrences do not overlap. */
  lemma {:induction false} VisitedApart(previous: Bytes, probe: Bytes, end: nat, i: int, j: int)
    requires end <= |previous| && Visited(previous, probe, end, i) && Visited(previous, probe, end, j) && i < j
    ensures i + |probe| <= j
    decreases end
  {
    var last := LastIndex(previous[..end], probe);
    VisitedNotAfter(previous, probe, end, j);
    if j == last {
      VisitedIsOccurrence(previous, probe, last, i);
    } else {
      VisitedApart(previous, probe, last, i, j);
    }
  }

  /** The backward search visits every occurrence of the probe exactly if no two of them overlap. */
  lemma AllVisitedIffIsolated(previous: Bytes, probe: Bytes)
    requires |probe| > 0
    ensures (forall i | At(previous, probe, i) :: Visited(previous, probe, |previous|, i)) <==> ProbeIsolated(previous, probe)
  {
    if ProbeIsolated(previous, probe) {
      forall i | At(previous, probe, i) ensures Visited(previous, probe, |previous|, i) {
        IsolatedIsVisited(previous, probe, |previous|, i);
      }
    }
    if forall i | At(previous, probe, i) :: Visited(previous, probe, |previous|, i) {
      forall i, j | i < j && At(previous, probe, i) && At(previous, probe, j) ensures i + |probe| <= j {
        VisitedApart(previous, probe, |previous|, i, j);
      }
    }
  }

  /** An overlap of 64 bytes or more starts at an occurrence of the probe. */
  lemma LongOverlapStartsAtProbe(previous: Bytes, current: Bytes, n: int)
    requires Overlap(previous, current, n) && n >= PROBE
    ensures |Probe(current)| == PROBE && At(previous, Probe(current), |previous| - n)
  {
    var i := |previous| - n;
    var probe := Probe(current);
    assert probe == current[..PROBE] && |previous[i..]| == n;
    assert previous[i..i + PROBE] == previous[i..][..PROBE];
    assert current[..n][..PROBE] == current[..PROBE];
  }

  /**
   * Overlaps of up to 64 bytes are always found, longer ones when probe
   * occurrences in the previous output are 64 bytes apart. So a reset, which
   * means that nothing is findable, then means that nothing overlaps.
   */
  lemma OverlapIsFindable(previous: Bytes, current: Bytes, n: int)
    requires Overlap(previous, current, n)
    requires n <= PROBE || ProbeIsolated(previous, Probe(current))
    ensures Findable(previous, current, n)
  {
    if n <= PROBE {
      ShortOverlapIsFindable(previous, current, n);
    } else {
      LongOverlapStartsAtProbe(previous, current, n);
      IsolatedIsVisited(previous, Probe(current), |previous|, |previous| - n);
    }
  }

  /** n copies of the byte b. */
  function Repeat(b: Byte, n: nat): (s: Bytes)
    ensures |s| == n && forall i | 0 <= i < n :: s[i] == b
  {
    seq(n, _ => b)
  }

  /**
   * Completeness fails for probes that overlap themselves: after "x", 65 times
   * "a", "b", the output 65 times "a", "bc" is taken for a reset although its
   * first 66 bytes are the last 66 of the previous output.
   */
  lemma SelfOverlappingProbeIsMissed()
    ensures var x, a, b, c := 120, 97, 98, 99;
            var previous, current := [x as Byte] + Repeat(a, 65) + [b], Repeat(a, 65) + [b, c];
            && Overlap(previous, current, 66)
            && !(previous <= current) && !exists n :: Findable(previous, current, n)
  {
    var x: Byte, a: Byte, b: Byte, c: Byte := 120, 97, 98, 99;
    var previous, current := [x] + Repeat(a, 65) + [b], Repeat(a, 65) + [b, c];
    var probe := Probe(current);
    assert previous[1..] == current[..66];
    assert probe == Repeat(a, 64);
    assert previous[0] == x && current[0] == a;
    forall n
      ensures !Findable(previous, current, n)
    {
      if Overlap(previous, current, n) {
        assert previous[|previous| - n..][n - 1] == b;
        assert n == 66;
        OnlyLastVisited(previous, probe, a, b);
      }
    }
  }

  lemma OnlyLastVisited(previous: Bytes, probe: Bytes, a: Byte, b: Byte)
    requires a != b && a != 120 && probe == Repeat(a, 64) && previous == [120 as Byte] + Repeat(a, 65) + [b]
    ensures !Visited(previous, probe, |previous|, 1)
  {
    assert previous[..67] == previous;
    assert previous[2..66] == probe;
    assert previous[3..67][63] == b && probe[63] == a;
    assert At(previous, probe, 2) && !At(previous, probe, 3);
    assert LastIndex(previous[..67], probe) == 2;
    assert |previous[..2]| < 64;
    assert LastIndex(previous[..2], probe) == -1;
  }

  // ---------- Windows onto one stream ----------

  /** A window shows stream[start..end]. */
  datatype Span = Span(start: nat, end: nat)

  predicate InStream(stream: Bytes, s: Span) { s.start <= s.end <= |stream| }

  function Shows(stream: Bytes, s: Span): Bytes
    requires InStream(stream, s)
  {
    stream[s.start..s.end]
  }

  /** The next window only grows, or keeps 64 bytes that occur once in the previous window. */
  ghost predicate Smooth(stream: Bytes, s: Span, t: Span) {
    && InStream(stream, s) && InStream(stream, t) && s.end <= t.end
    && (t.start == s.start
        || (s.start < t.start && t.start + PROBE <= s.end
            && OccursOnlyAt(Shows(stream, s), stream[t.start..t.start + PROBE], t.start - s.start)))
  }

  ghost predicate OccursOnlyAt(s: Bytes, p: Bytes, k: int) {
    forall i | At(s, p, i) :: i == k
  }

  lemma SubSlice(stream: Bytes, a: nat, b: nat, i: nat, j: nat)
    requires a <= b <= |stream| && i <= j <= b - a
    ensures stream[a..b][i..j] == stream[a + i..a + j]
  {
    forall k | 0 <= k < j - i
      ensures stream[a..b][i..j][k] == stream[a + i..a + j][k]
    {
      assert stream[a..b][i + k] == stream[a + i + k];
    }
  }

  /** A smooth step that rolls has the true overlap, which starts at the only occurrence of the probe. */
  lemma RollingOverlap(stream: Bytes, s: Span, t: Span)
    requires Smooth(stream, s, t) && t.start != s.start
    ensures var previous, current := Shows(stream, s), Shows(stream, t);
            && PROBE <= s.end - t.start && Overlap(previous, current, s.end - t.start)
            && OccursOnlyAt(previous, Probe(current), t.start - s.start)
            && At(previous, Probe(current), t.start - s.start)
            && |Probe(current)| == PROBE && |previous| == s.end - s.start
  {
    var previous, current := Shows(stream, s), Shows(stream, t);
    var k, n := t.start - s.start, s.end - t.start;
    SubSlice(stream, t.start, t.end, 0, PROBE);
    SubSlice(stream, s.start, s.end, k, k + PROBE);
    SubSlice(stream, s.start, s.end, k, |previous|);
    SubSlice(stream, t.start, t.end, 0, n);
    assert Probe(current) == current[0..PROBE];
    assert previous[k..] == previous[k..|previous|] && current[..n] == current[0..n];
  }

  /** In a smooth step that rolls, the only visited overlap is the true one, and the window did not just grow. */
  lemma TrueOverlap(stream: Bytes, s: Span, t: Span)
    requires Smooth(stream, s, t) && t.start != s.start
    ensures var previous, current := Shows(stream, s), Shows(stream, t);
            && VisitedOverlap(previous, current, s.end - t.start)
            && (forall m | VisitedOverlap(previous, current, m) :: m == s.end - t.start)
            && !(previous <= current)
  {
    var previous, current := Shows(stream, s), Shows(stream, t);
    RollingOverlap(stream, s, t);
    hide Smooth, Shows;
    var probe, k := Probe(current), t.start - s.start;
    IsolatedIsVisited(previous, probe, |previous|, k);
    forall m | VisitedOverlap(previous, current, m)
      ensures m == s.end - t.start
    {
      VisitedIsOccurrence(previous, probe, |previous|, |previous| - m);
    }
    NotAtStart(previous, current, k);
  }

  lemma NotAtStart(previous: Bytes, current: Bytes, k: int)
    requires OccursOnlyAt(previous, Probe(current), k) && k > 0 && PROBE <= |previous| && |Probe(current)| == PROBE
    ensures !(previous <= current)
  {
    assert !At(previous, Probe(current), 0);
    assert previous[0..PROBE] != current[..PROBE];
  }

  // ---------- Polling ----------

  predicate EndsWith(text: Bytes, suffix: Bytes) {
    |suffix| <= |text| && text[|text| - |suffix|..] == suffix
  }

  /** Whatever the window did, text that ended with the previous output now ends with the current one. */
  lemma StillEndsWith(text: Bytes, previous: Bytes, current: Bytes, delta: Bytes, n: nat)
    requires EndsWith(text, previous)
    requires n <= |previous| && n <= |current| && previous[|previous| - n..] == current[..n] && delta == current[n..]
    ensures EndsWith(text + delta, current)
  {
    var t := text + delta;
    assert current == current[..n] + delta;
    assert t[|t| - |current|..] == text[|text| - n..] + delta;
    assert text[|text| - n..] == text[|text| - |previous|..][|previous| - n..];
  }

  /** The result of CommandOutputDelta, as its contract states it. */
  ghost predicate IsDelta(previous: Bytes, current: Bytes, delta: Bytes, reset: bool) {
    && (previous == [] ==> delta == current && !reset)
    && (previous <= current ==> current == previous + delta && !reset)
    && (!reset && previous != [] && !(previous <= current) ==>
          exists n :: Overlap(previous, current, n) && Chosen(previous, current, n) && delta == current[n..])
    && (reset ==> delta == current)
    && (reset <==> previous != [] && !(previous <= current) && !exists n :: Findable(previous, current, n))
  }

  lemma DeltaExtends(text: Bytes, previous: Bytes, current: Bytes, delta: Bytes, reset: bool)
    requires EndsWith(text, previous) && IsDelta(previous, current, delta, reset)
    ensures EndsWith(text + delta, current)
  {
    if reset || previous == [] {
      StillEndsWith(text, previous, current, delta, 0);
    } else if previous <= current {
      StillEndsWith(text, previous, current, delta, |previous|);
    } else {
      var n :| Overlap(previous, current, n) && Chosen(previous, current, n) && delta == current[n..];
      StillEndsWith(text, previous, current, delta, n);
    }
  }

  /** The part of a poll that prints: nothing for an unchanged or empty output. */
  method Show(text: Bytes, previous: Bytes, current: Bytes, ghost stream: Bytes, ghost s: Span, ghost t: Span)
    returns (text': Bytes, reset: bool)
    requires EndsWith(text, previous)
    ensures EndsWith(text', current)
    ensures text <= text'
    ensures Streaming(text, previous, current, stream, s, t) ==> text' == stream[..t.end] && !reset
  {
    text', reset := text, false;
    if current == previous || current == [] {
      if Streaming(text, previous, current, stream, s, t) {
        UnchangedWindow(stream, s, t);
      }
      return;
    }
    var delta;
    delta, reset := CommandOutputDelta(previous, current);
    assert IsDelta(previous, current, delta, reset);
    hide IsDelta, Smooth;
    text' := text + delta;
    DeltaExtends(text, previous, current, delta, reset);
    if Streaming(text, previous, current, stream, s, t) {
      ContinuesStream(stream, s, t, delta, reset);
      Continued(stream, s.end, t.end);
    }
  }

  ghost predicate Streaming(text: Bytes, previous: Bytes, current: Bytes, stream: Bytes, s: Span, t: Span) {
    && Smooth(stream, s, t) && InStream(stream, s) && InStream(stream, t) && s.end <= t.end
    && previous == Shows(stream, s) && current == Shows(stream, t) && text == stream[..s.end]
  }

  /** If a smooth step shows the same text or none, the stream has not moved on. */
  lemma UnchangedWindow(stream: Bytes, s: Span, t: Span)
    requires Smooth(stream, s, t)
    ensures Shows(stream, t) in {Shows(stream, s), []} ==> t.end == s.end
  {
    if t.start != s.start {
      TrueOverlap(stream, s, t);
    }
  }

  lemma GrowingWindow(stream: Bytes, s: Span, t: Span)
    requires InStream(stream, s) && InStream(stream, t) && s.end <= t.end && t.start == s.start
    ensures Shows(stream, t) == Shows(stream, s) + stream[s.end..t.end]
  {
  }

  lemma RollingDelta(previous: Bytes, current: Bytes, delta: Bytes, reset: bool, n: int)
    requires IsDelta(previous, current, delta, reset) && !(previous <= current) && previous != []
    requires VisitedOverlap(previous, current, n) && forall m | VisitedOverlap(previous, current, m) :: m == n
    ensures n <= |current| && !reset && delta == current[n..]
  {
    OnlyChoice(previous, current, n);
    hide Overlap, Chosen, Findable, VisitedOverlap;
  }

  /** In a smooth step the delta is exactly the part of the stream not printed yet. */
  lemma ContinuesStream(stream: Bytes, s: Span, t: Span, delta: Bytes, reset: bool)
    requires Smooth(stream, s, t)
    requires IsDelta(Shows(stream, s), Shows(stream, t), delta, reset)
    ensures !reset && delta == stream[s.end..t.end]
  {
    var previous, current := Shows(stream, s), Shows(stream, t);
    if t.start == s.start {
      hide Overlap, Chosen, Findable, VisitedOverlap, OccursOnlyAt;
      GrowingWindow(stream, s, t);
      assert previous <= current;
      assert delta == current[|previous|..];
    } else {
      var n := s.end - t.start;
      TrueOverlap(stream, s, t);
      SubSlice(stream, t.start, t.end, n, |current|);
      hide IsDelta, VisitedOverlap, OccursOnlyAt;
      RollingDelta(previous, current, delta, reset, n);
      assert current[n..] == current[n..|current|];
    }
  }

  lemma OnlyChoice(previous: Bytes, current: Bytes, n: int)
    requires VisitedOverlap(previous, current, n) && forall m | VisitedOverlap(previous, current, m) :: m == n
    ensures Findable(previous, current, n) && n <= |current|
    ensures forall m | Chosen(previous, current, m) :: m == n
  {
  }

  lemma Continued(stream: Bytes, a: nat, b: nat)
    requires a <= b <= |stream|
    ensures stream[..a] + stream[a..b] == stream[..b]
  {
  }

  /** An answer to one status poll. */
  datatype CommandStatus = Running | Completed | Failed | Unknown(finished: bool)
  datatype Poll = TransientError | PermanentError | Answer(output: Bytes, status: CommandStatus, exitCode: int)

  /** The last output seen in a sequence of polls. */
  function LastOutput(polls: seq<Poll>): Bytes {
    if polls == [] then []
    else if polls[|polls| - 1].Answer? then polls[|polls| - 1].output
    else LastOutput(polls[..|polls| - 1])
  }

  predicate Succeeded(p: Poll) {
    p.Answer? && p.exitCode == 0 && (p.status.Completed? || p.status == Unknown(true))
  }

  predicate Undecided(p: Poll) {
    p.TransientError? || (p.Answer? && (p.status.Running? || p.status == Unknown(false)))
  }

  /** The polls show windows onto one stream from its beginning, each step smooth; an error shows nothing new. */
  ghost predicate SmoothPolls(polls: seq<Poll>, stream: Bytes, spans: seq<Span>) {
    && |spans| == |polls| + 1 && spans[0] == Span(0, 0)
    && forall i | 0 <= i < |polls| ::
         && Smooth(stream, spans[i], spans[i + 1])
         && (polls[i].Answer? ==> polls[i].output == Shows(stream, spans[i + 1]))
         && (!polls[i].Answer? ==> spans[i + 1] == spans[i])
  }

  /**
   * Polls a remote command until it ends, an API error is permanent, or the
   * deadline passes: `polls` are the answers up to then, and `used` of them were
   * read, all unless one decided. With streaming on, the text printed always ends with the latest
   * output, and smooth windows reproduce the stream without a reset.
   */
  method WaitRunCommand(polls: seq<Poll>, streamOutput: bool, ghost stream: Bytes, ghost spans: seq<Span>)
    returns (ok: bool, output: Bytes, printed: Bytes, resets: nat, used: nat)
    ensures used <= |polls| && output == LastOutput(polls[..used])
    ensures forall i | 0 <= i < used - 1 ::
              polls[i].TransientError? || (polls[i].Answer? && polls[i].status in {Running, Unknown(false)})
    ensures used < |polls| ==> used > 0 && !Undecided(polls[used - 1])
    ensures ok <==> used > 0 && polls[used - 1].Answer? && polls[used - 1].exitCode == 0
                    && polls[used - 1].status in {Completed, Unknown(true)}
    ensures !streamOutput ==> printed == []
    ensures streamOutput ==> EndsWith(printed, output)
    ensures streamOutput && SmoothPolls(polls, stream, spans) ==>
              InStream(stream, spans[used]) && printed == stream[..spans[used].end] && resets == 0
  {
    output, printed, resets, used := [], [], 0, 0;
    while used < |polls|
      invariant 0 <= used <= |polls| && output == LastOutput(polls[..used])
      invariant forall i | 0 <= i < used :: Undecided(polls[i])
      invariant !streamOutput ==> printed == []
      invariant streamOutput ==> EndsWith(printed, output)
      invariant streamOutput && SmoothPolls(polls, stream, spans) ==>
        && InStream(stream, spans[used]) && printed == stream[..spans[used].end] && resets == 0
        && output == Shows(stream, spans[used])
    {
      var p := polls[used];
      assert polls[..used + 1][..used] == polls[..used];
      used := used + 1;
      if p.PermanentError? {
        return false, output, printed, resets, used;
      }
      if p.Answer? {
        if streamOutput {
          var reset;
          ghost var smooth := SmoothPolls(polls, stream, spans);
          printed, reset := Show(printed, output, p.output, stream,
            if smooth then spans[used - 1] else Span(0, 0), if smooth then spans[used] else Span(0, 0));
          resets := resets + if reset then 1 else 0;
        }
        output := p.output;
        if Succeeded(p) {
          return true, output, printed, resets, used;
        }
        if !Undecided(p) {
          return false, output, printed, resets, used;
        }
      }
    }
    ok := false;
  }
}
