/** Safety of the DFS master over whole runs (core/rtw_dfs.c). */
module DfsSafety {
  import opened Rf
  import opened Dfs
  import opened ChannelSet
  import opened Octets

  /** What can happen to the control block: the clock moves on, the driver decides whether detection is
      needed, a poll reports (`cch` 0: nothing), the watchdog sweeps run-out non-occupancy stamps, regulation is
      applied anew and gives each channel its flags. */
  datatype Op =
    | Tick
    | Decide(roles: Roles, band: Band, ch: nat, bw: Width, offset: Offset)
    | Poll(cch: nat, hitBw: Width)
    | Sweep
    | Regulate(flags: seq<set<Flag>>)

  function Step(s: State, op: Op): (t: State)
    ensures |t.chs| == |s.chs| && s.now <= t.now
  {
    match op
    case Tick => s.(now := s.now + 1)
    case Decide(roles, band, ch, bw, offset) => EnDecision(s, roles, band, ch, bw, offset)
    case Poll(cch, hitBw) => RdPoll(s, cch, hitBw)
    case Sweep => s.(chs := Swept(s.chs, s.now))
    case Regulate(flags) => s.(chs := Regulated(s.chs, flags, s.now))
  }

  /** Every channel gets new flags, and every running non-occupancy ends at once (core/rtw_chplan.c). */
  function Regulated(chs: seq<Channel>, flags: seq<set<Flag>>, now: int): (res: seq<Channel>)
    ensures |res| == |chs|
  {
    seq(|chs|, i requires 0 <= i < |chs| =>
      chs[i].(flags := if i < |flags| then flags[i] else {}, nopEnd := if chs[i].NonOcpStopped() then STOPPED else SkipStopped(now)))
  }

  /** The driver decides on blocks of its tables, and no clearance is taken from another access point: no station
      of its own is linked on a radar block. Regulation knows radar channels in the 5 GHz band only. */
  predicate Allowed(s: State, op: Op) {
    (op.Decide? ==>
      (op.band == Band5 ==> IsBlock5(op.ch, op.bw, op.offset))
      && (op.roles.staLinking == 0 && op.roles.staLinked > 0 ==> !IsDfsBlock(s.chs, op.band, op.ch, op.bw, op.offset)))
    && (op.Regulate? ==> |op.flags| == |s.chs| && forall i | 0 <= i < |s.chs| && DfsFlag in op.flags[i] :: s.chs[i].band == Band5)
  }

  predicate ValidChannels(chs: seq<Channel>) {
    forall i | 0 <= i < |chs| :: IsChannel(chs[i].band, chs[i].num) && (DfsFlag in chs[i].flags ==> chs[i].band == Band5)
  }

  /** Detection off, nothing remembered; any non-occupancy may already be running. */
  predicate Initial(s: State) {
    s.now > 0 && ValidChannels(s.chs) && !s.enabled && !s.detected && s.rdCh == 0 && s.cacStart == s.cacEnd == STOPPED
  }

  predicate IsRun(ss: seq<State>, ops: seq<Op>) {
    |ss| == |ops| + 1 && Initial(ss[0])
    && forall k | 0 <= k < |ops| :: Allowed(ss[k], ops[k]) && ss[k + 1] == Step(ss[k], ops[k])
  }

  /** Is channel `i` a radar channel inside the detection range of an enabled detector? */
  predicate InRange(s: State, i: nat)
    requires i < |s.chs|
  {
    s.enabled && DfsInside(s.chs[i], s.RdRange())
  }

  predicate IsDfsChannel(c: Channel) {
    DfsFlag in c.flags && c.band == Band5
  }

  predicate DfsInside(c: Channel, r: Range) {
    IsDfsChannel(c) && Inside(Frequency(Band5, c.num), r)
  }

  /** Channel `i` is in range and past the non-occupancy wait, during which radar reports are ignored. The instant
      at which that wait ends counts, although a report is still ignored then: see `ReportIsNoted`. */
  predicate Listening(s: State, i: nat)
    requires i < |s.chs|
  {
    InRange(s, i) && !(s.Waiting() && s.now < s.cacStart)
  }

  /** A report is noted exactly while listening, except for that instant. */
  lemma ReportIsNoted(s: State, i: nat, cch: nat, bw: Width)
    requires i < |s.chs| && InRange(s, i) && cch > 0 && !s.detected
    ensures RdPoll(s, cch, bw).detected <==> Listening(s, i) && !(s.Waiting() && s.now == s.cacStart)
  {
  }

  /** The check time channel `c` needs by itself. */
  function CacTimeOf(s: State, c: Channel): int {
    if IsLongCacBlock(s.etsi, Band5, c.num, 0, NoExt) then CAC_TIME_CE_MS else CAC_TIME_MS
  }

  /** Last time of the run at which channel `i` was not listened to. */
  ghost function DeafAt(ss: seq<State>, i: nat): int
    requires |ss| > 0 && forall k | 0 <= k < |ss| :: i < |ss[k].chs|
  {
    var s := ss[|ss| - 1];
    if |ss| == 1 then s.now else Observe(s, i, DeafAt(ss[..|ss| - 1], i))
  }

  function Observe(s: State, i: nat, deaf: int): int
    requires i < |s.chs|
  {
    if Listening(s, i) then deaf else s.now
  }

  // ----- meaning of the interval tests

  lemma ChannelOfEdge(f: int)
    requires 5000 < f < 5950 && f % 5 == 0
    ensures 5 * ChannelOfFrequency(f) == f - 5000 && BandOfFrequency(f) == Band5
  {
  }

  /** On block edges the integer channel comparison is the frequency comparison. */
  lemma DfsBetweenMeaning(c: Channel, r: Range)
    requires 5000 < r.lo < 5950 && 5000 < r.hi < 5950 && r.hi % 5 == r.lo % 5 == 0
    requires IsChannel(c.band, c.num)
    ensures DfsBetween(c, r) <==> IsDfsChannel(c) && Inside(Frequency(Band5, c.num), r)
  {
    ChannelOfEdge(r.hi);
    ChannelOfEdge(r.lo);
  }

  lemma BlockEdges(ch: nat, bw: Width, offset: Offset)
    requires IsBlock5(ch, bw, offset)
    ensures var r := BlockRange(Band5, ch, bw, offset);
      5000 < r.lo < r.hi < 5950 && r.hi % 5 == r.lo % 5 == 0 && Frequency(Band5, Center(Band5, ch, bw, offset)) != 0 && ch != 0
    ensures forall n | IsChannel(Band5, n) :: Frequency(Band5, n) !in {BlockRange(Band5, ch, bw, offset).hi, BlockRange(Band5, ch, bw, offset).lo}
  {
    EdgesMissChannels(Center5(ch, bw, offset), bw, 36);
    forall n | IsChannel(Band5, n)
      ensures Frequency(Band5, n) !in {BlockRange(Band5, ch, bw, offset).hi, BlockRange(Band5, ch, bw, offset).lo}
    {
      EdgesMissChannels(Center5(ch, bw, offset), bw, n);
    }
  }

  /** The loop over the set finds a radar channel exactly when one lies inside. */
  lemma IsDfsRangeMeaning(chs: seq<Channel>, r: Range)
    requires ValidChannels(chs) && 5000 < r.lo < 5950 && 5000 < r.hi < 5950 && r.hi % 5 == r.lo % 5 == 0
    ensures IsDfsRange(chs, r) <==> exists i | 0 <= i < |chs| :: DfsInside(chs[i], r)
  {
    forall i | 0 <= i < |chs| ensures DfsBetween(chs[i], r) <==> DfsInside(chs[i], r) {
      DfsBetweenMeaning(chs[i], r);
    }
  }

  /** Not restarting the check is sound, and no restart is superfluous: it is skipped exactly when no radar
      event is pending, a range is remembered, the ranges meet and no radar channel enters. */
  lemma NoResetIffNoNewDfsChannel(s: State, ch: nat, bw: Width, offset: Offset)
    requires ValidChannels(s.chs) && IsBlock5(ch, bw, offset) && (s.rdCh != 0 ==> IsBlock5(s.rdCh, s.rdBw, s.rdOffset))
    ensures var req := BlockRange(Band5, ch, bw, offset);
      !CacResetNeeded(s, ch, bw, offset) <==>
      !s.detected && s.rdCh != 0 && Overlaps(req, s.RdRange())
      && forall i | 0 <= i < |s.chs| && DfsInside(s.chs[i], req) :: DfsInside(s.chs[i], s.RdRange())
  {
    if !s.detected && s.rdCh != 0 {
      BlockEdges(ch, bw, offset);
      BlockEdges(s.rdCh, s.rdBw, s.rdOffset);
      NoResetByRanges(s, ch, bw, offset);
    }
  }

  lemma NoResetByRanges(s: State, ch: nat, bw: Width, offset: Offset)
    requires ValidChannels(s.chs) && !s.detected && s.rdCh != 0
    requires forall r | r in {BlockRange(Band5, ch, bw, offset), s.RdRange()} ::
               5000 < r.lo < r.hi < 5950 && r.hi % 5 == r.lo % 5 == 0
    requires forall n | IsChannel(Band5, n) :: Frequency(Band5, n) !in {s.RdRange().hi, s.RdRange().lo}
    ensures var req := BlockRange(Band5, ch, bw, offset);
      !CacResetNeeded(s, ch, bw, offset) <==>
      Overlaps(req, s.RdRange()) && forall i | 0 <= i < |s.chs| && DfsInside(s.chs[i], req) :: DfsInside(s.chs[i], s.RdRange())
  {
    var req, cur := BlockRange(Band5, ch, bw, offset), s.RdRange();
    if Overlaps(req, cur) {
      NewChannelsLieAboveOrBelow(s.chs, req, cur);
      IsDfsRangeMeaning(s.chs, Range(req.hi, cur.hi));
      IsDfsRangeMeaning(s.chs, Range(cur.lo, req.lo));
    }
  }

  lemma NewChannelsLieAboveOrBelow(chs: seq<Channel>, req: Range, cur: Range)
    requires req.lo < req.hi && cur.lo < cur.hi && Overlaps(req, cur)
    requires forall i | 0 <= i < |chs| && IsDfsChannel(chs[i]) :: Frequency(Band5, chs[i].num) !in {cur.lo, cur.hi}
    ensures forall i | 0 <= i < |chs| :: DfsInside(chs[i], req) && !DfsInside(chs[i], cur)
              <==> DfsInside(chs[i], Range(req.hi, cur.hi)) || DfsInside(chs[i], Range(cur.lo, req.lo))
  {
  }

  // ----- the invariant, for one channel and the time it was last not listened to

  predicate Shape(s: State) {
    s.now > 0 && ValidChannels(s.chs)
    && (if s.enabled then IsBlock5(s.rdCh, s.rdBw, s.rdOffset) else s.rdCh == 0 && !s.detected && s.CacStopped())
    && (!s.CacStopped() ==> 0 < s.cacStart < s.cacEnd)
    && (s.detected ==> s.CacStopped() || s.cacStart < s.now)
  }

  /** The check time still missing is covered by the remaining wait. */
  predicate Checked(s: State, i: nat, deaf: int)
    requires i < |s.chs|
  {
    InRange(s, i) ==>
      var check := CacTimeOf(s, s.chs[i]);
      if s.CacStopped() then deaf + check <= s.now
      else if s.now < s.cacStart then s.cacStart - 1 + check <= s.cacEnd
      else deaf + check <= s.now || deaf + check <= s.cacEnd
  }

  predicate NopCovered(s: State, i: nat)
    requires i < |s.chs|
  {
    InRange(s, i) && !s.detected && s.chs[i].NonOcp(s.now) ==>
      !s.CacStopped() && s.chs[i].nopEnd <= s.cacStart && s.cacStart + CacTimeOf(s, s.chs[i]) <= s.cacEnd
  }

  predicate Inv(s: State, i: nat, deaf: int)
    requires i < |s.chs|
  {
    Shape(s) && deaf <= s.now && (!Listening(s, i) ==> deaf == s.now) && Checked(s, i, deaf) && NopCovered(s, i)
  }

  /** The waiting time of a requested block covers the non-occupancy of its channels, and its check time is
      enough for each of them; only in an unbroken detection range the remaining wait counts instead. */
  lemma WaitingIsEnough(s: State, ch: nat, bw: Width, offset: Offset, i: nat)
    requires Shape(s) && IsBlock5(ch, bw, offset) && IsDfsBlock(s.chs, Band5, ch, bw, offset)
    requires i < |s.chs| && DfsInside(s.chs[i], BlockRange(Band5, ch, bw, offset))
    ensures var (nonOcp, cac) := WaitingMs(s, Band5, ch, bw, offset);
      if s.chs[i].NonOcp(s.now) then s.chs[i].nopEnd - s.now <= nonOcp && CacTimeOf(s, s.chs[i]) <= cac
      else CacTimeOf(s, s.chs[i]) <= cac || (nonOcp == 0 && InRange(s, i) && (s.Waiting() ==> s.cacEnd - s.now == cac))
  {
    var r := BlockRange(Band5, ch, bw, offset);
    if s.chs[i].NonOcp(s.now) {
      assert TouchedBy(s.chs[i], Band5, r);
      assert HasNonOcp(s.chs, Band5, r, s.now);
    }
    if IsLongCacBlock(s.etsi, Band5, s.chs[i].num, 0, NoExt) {
      LongCacOfChannel(s.etsi, ch, bw, offset, s.chs[i].num);
    }
  }

  lemma ResetIsEnough(s: State, ch: nat, bw: Width, offset: Offset, i: nat)
    requires Shape(s) && IsBlock5(ch, bw, offset) && IsDfsBlock(s.chs, Band5, ch, bw, offset)
    requires i < |s.chs| && DfsInside(s.chs[i], BlockRange(Band5, ch, bw, offset))
    ensures var t := ResetCac(s, ch, bw, offset); var c := CacTimeOf(s, s.chs[i]);
      s.now < t.cacEnd && s.now <= t.cacStart
      && if s.chs[i].NonOcp(s.now) then s.chs[i].nopEnd <= t.cacStart && t.cacStart + c <= t.cacEnd
         else t.cacStart + c <= t.cacEnd || (t.cacStart == s.now && InRange(s, i) && (s.Waiting() ==> s.cacEnd <= t.cacEnd))
  {
    WaitingIsEnough(s, ch, bw, offset, i);
  }

  /** A channel that needs the long check makes every block around it need it. */
  lemma LongCacOfChannel(etsi: bool, ch: nat, bw: Width, offset: Offset, n: nat)
    requires IsBlock5(ch, bw, offset) && IsChannel(Band5, n) && Inside(Frequency(Band5, n), BlockRange(Band5, ch, bw, offset))
    requires IsLongCacBlock(etsi, Band5, n, 0, NoExt)
    ensures IsLongCacBlock(etsi, Band5, ch, bw, offset)
  {
    BlockEdges(ch, bw, offset);
    BlockEdges(n, 0, NoExt);
    var r, q := BlockRange(Band5, ch, bw, offset), BlockRange(Band5, n, 0, NoExt);
    assert q == Range(Frequency(Band5, n) + 10, Frequency(Band5, n) - 10);
    assert Within(q, r) by { ChannelBlockInside(ch, bw, offset, n); }
  }

  lemma ChannelBlockInside(ch: nat, bw: Width, offset: Offset, n: nat)
    requires IsBlock5(ch, bw, offset) && IsChannel(Band5, n) && Inside(Frequency(Band5, n), BlockRange(Band5, ch, bw, offset))
    ensures Within(Range(Frequency(Band5, n) + 10, Frequency(Band5, n) - 10), BlockRange(Band5, ch, bw, offset))
  {
    var cch := Center5(ch, bw, offset);
    var k := n - cch;
    assert BlockRange(Band5, ch, bw, offset) == Range(5000 + 5 * cch + HalfWidth(bw), 5000 + 5 * cch - HalfWidth(bw));
    CenterGrid(cch, bw, n);
    match bw
    case 0 => assert -2 < k < 2;
    case 1 => assert -4 < k < 4;
    case 2 => assert -8 < k < 8;
    case 3 => assert -16 < k < 16;
  }

  /** Channels sit on a grid of four numbers around every center that is near enough. */
  lemma CenterGrid(cch: nat, bw: Width, n: nat)
    requires IsCenter(Band5, cch, bw) && IsChannel(Band5, n)
    requires bw == 0 ==> -2 < n - cch < 2
    requires bw == 1 ==> -4 < n - cch < 4
    requires bw == 2 ==> -8 < n - cch < 8
    requires bw == 3 ==> -16 < n - cch < 16
    ensures bw == 0 ==> n == cch
    ensures bw == 1 ==> n - cch in {-2, 2}
    ensures bw == 2 ==> n - cch in {-6, -2, 2, 6}
    ensures bw == 3 ==> -14 <= n - cch <= 14
  {
  }

  lemma EnableKeepsInv(s: State, ch: nat, bw: Width, offset: Offset, i: nat, deaf: int)
    requires i < |s.chs| && Inv(s, i, deaf)
    requires IsBlock5(ch, bw, offset) && IsDfsBlock(s.chs, Band5, ch, bw, offset)
    ensures var t := RdEnable(s, ch, bw, offset, false); Inv(t, i, Observe(t, i, deaf))
  {
    var t := RdEnable(s, ch, bw, offset, false);
    BlockEdges(ch, bw, offset);
    NoResetIffNoNewDfsChannel(s, ch, bw, offset);
    if CacResetNeeded(s, ch, bw, offset) && InRange(t, i) {
      ResetIsEnough(s, ch, bw, offset, i);
    }
  }

  lemma DisableKeepsInv(s: State, ch: nat, bw: Width, offset: Offset, i: nat, deaf: int)
    requires i < |s.chs| && Inv(s, i, deaf)
    ensures var t := RdDisable(s, ch, bw, offset, false); Inv(t, i, Observe(t, i, deaf))
  {
  }

  lemma TickKeepsInv(s: State, i: nat, deaf: int)
    requires i < |s.chs| && Inv(s, i, deaf)
    ensures var t := Step(s, Tick); Inv(t, i, Observe(t, i, deaf))
  {
  }

  lemma SweepKeepsInv(s: State, i: nat, deaf: int)
    requires i < |s.chs| && Inv(s, i, deaf)
    ensures var t := Step(s, Sweep); Inv(t, i, Observe(t, i, deaf))
  {
  }

  lemma PollKeepsInv(s: State, cch: nat, bw: Width, i: nat, deaf: int)
    requires i < |s.chs| && Inv(s, i, deaf)
    ensures var t := RdPoll(s, cch, bw); Inv(t, i, Observe(t, i, deaf))
  {
    hide IsLongCacBlock, BlockRange, CenterRange, Frequency, TouchedBy, IsChannel, BandOfFrequency, IsCenter;
  }

  /** Regulation turns channel `i` into a radar channel inside the range of enabled detection. */
  predicate TurnsRadar(s: State, op: Op, i: nat)
    requires i < |s.chs|
  {
    op.Regulate? && s.enabled && !InRange(s, i) && InRange(Step(s, op), i)
  }

  /** It does so when less of the wait is left than the check time of the channel. */
  predicate TurnsRadarTooLate(s: State, op: Op, i: nat)
    requires i < |s.chs|
  {
    TurnsRadar(s, op, i)
    && (s.CacStopped() || s.cacEnd < (if s.now < s.cacStart then s.cacStart - 1 else s.now) + CacTimeOf(s, s.chs[i]))
  }

  lemma RegulateKeepsInvIff(s: State, op: Op, i: nat, deaf: int)
    requires i < |s.chs| && Inv(s, i, deaf) && op.Regulate? && Allowed(s, op)
    ensures var t := Step(s, op); Inv(t, i, Observe(t, i, deaf)) <==> !TurnsRadarTooLate(s, op, i)
  {
  }

  lemma StepKeepsInv(s: State, op: Op, i: nat, deaf: int)
    requires i < |s.chs| && Inv(s, i, deaf) && Allowed(s, op) && !TurnsRadarTooLate(s, op, i)
    ensures var t := Step(s, op); |t.chs| == |s.chs| && Inv(t, i, Observe(t, i, deaf))
  {
    match op
    case Tick => TickKeepsInv(s, i, deaf);
    case Sweep => SweepKeepsInv(s, i, deaf);
    case Poll(cch, hitBw) => PollKeepsInv(s, cch, hitBw, i, deaf);
    case Regulate(flags) => RegulateKeepsInvIff(s, op, i, deaf);
    case Decide(roles, band, ch, bw, offset) =>
      DecideOutcome(s, op);
      if Step(s, op) == RdDisable(s, ch, bw, offset, false) {
        DisableKeepsInv(s, ch, bw, offset, i, deaf);
      } else {
        EnableKeepsInv(s, ch, bw, offset, i, deaf);
      }
  }

  /** Allowed decisions enable detection on a radar block of the tables, or switch it off. */
  lemma DecideOutcome(s: State, op: Op)
    requires op.Decide? && Allowed(s, op) && ValidChannels(s.chs)
    ensures Step(s, op) == RdDisable(s, op.ch, op.bw, op.offset, false)
      || (Step(s, op) == RdEnable(s, op.ch, op.bw, op.offset, false) && IsBlock5(op.ch, op.bw, op.offset)
          && IsDfsBlock(s.chs, Band5, op.ch, op.bw, op.offset))
  {
    if IsDfsBlock(s.chs, op.band, op.ch, op.bw, op.offset) {
      DfsBlockIsBand5(s, op.band, op.ch, op.bw, op.offset);
    }
  }

  lemma DfsBlockIsBand5(s: State, band: Band, ch: nat, bw: Width, offset: Offset)
    requires ValidChannels(s.chs) && IsDfsBlock(s.chs, band, ch, bw, offset)
    ensures band == Band5
  {
  }

  // ----- whole runs

  lemma {:induction false} RunShape(ss: seq<State>, ops: seq<Op>)
    requires IsRun(ss, ops)
    ensures forall k | 0 <= k < |ss| :: |ss[k].chs| == |ss[0].chs| && ss[k].now <= ss[|ss| - 1].now
    ensures Shape(ss[|ss| - 1])
    decreases |ops|
  {
    hide Step, Shape, Allowed, Initial, IsRun;
    var n := |ops|;
    if n == 0 {
      StartHasShape(ss, ops);
    } else {
      StepOfRun(ss, ops);
      RunShape(ss[..n], ops[..n - 1]);
      StepKeepsShape(ss[n - 1], ops[n - 1]);
      forall k | 0 <= k < n ensures |ss[k].chs| == |ss[0].chs| && ss[k].now <= ss[n].now {
        assert ss[..n][k] == ss[k] && ss[..n][n - 1] == ss[n - 1];
      }
    }
  }

  lemma StartHasShape(ss: seq<State>, ops: seq<Op>)
    requires IsRun(ss, ops)
    ensures |ss| == |ops| + 1 && Shape(ss[0])
  {
  }

  lemma StepKeepsShape(s: State, op: Op)
    requires Shape(s) && Allowed(s, op)
    ensures Shape(Step(s, op)) && s.now <= Step(s, op).now
  {
    if op.Decide? {
      DecideOutcome(s, op);
      if Step(s, op) == RdEnable(s, op.ch, op.bw, op.offset, false) {
        EnableKeepsShape(s, op.ch, op.bw, op.offset);
      }
    }
  }

  /** After its last deaf time the channel was listened to in every state. */
  lemma {:induction false} DeafMeaning(ss: seq<State>, ops: seq<Op>, i: nat)
    requires IsRun(ss, ops) && i < |ss[0].chs|
    requires forall k | 0 <= k < |ss| :: |ss[k].chs| == |ss[0].chs| && ss[k].now <= ss[|ss| - 1].now
    ensures ss[0].now <= DeafAt(ss, i)
    ensures forall k | 0 <= k < |ss| && ss[k].now > DeafAt(ss, i) :: Listening(ss[k], i)
    decreases |ops|
  {
    var n := |ops|;
    if n > 0 {
      RunShape(ss[..n], ops[..n - 1]);
      DeafMeaning(ss[..n], ops[..n - 1], i);
      forall k | 0 <= k <= n && ss[k].now > DeafAt(ss, i) ensures Listening(ss[k], i) {
        if k < n {
          assert ss[..n][k] == ss[k];
        }
      }
    }
  }

  lemma StepOfRun(ss: seq<State>, ops: seq<Op>)
    requires IsRun(ss, ops) && ops != []
    ensures var n := |ops|;
      |ss| == n + 1 && IsRun(ss[..n], ops[..n - 1]) && ss[n] == Step(ss[n - 1], ops[n - 1]) && Allowed(ss[n - 1], ops[n - 1])
  {
    assert ss[|ops| - 1 + 1] == Step(ss[|ops| - 1], ops[|ops| - 1]);
  }

  lemma StartKeepsInv(s: State, i: nat)
    requires Initial(s) && i < |s.chs|
    ensures Inv(s, i, s.now)
  {
  }

  /** Regulation never turns channel `i` into a radar channel of the range too late. */
  predicate InTime(ss: seq<State>, ops: seq<Op>, i: nat) {
    forall k | 0 <= k < |ops| && k < |ss| && i < |ss[k].chs| :: !TurnsRadarTooLate(ss[k], ops[k], i)
  }

  lemma {:induction false} RunKeepsInv(ss: seq<State>, ops: seq<Op>, i: nat)
    requires IsRun(ss, ops) && i < |ss[0].chs| && forall k | 0 <= k < |ss| :: |ss[k].chs| == |ss[0].chs|
    requires InTime(ss, ops, i)
    ensures Inv(ss[|ss| - 1], i, DeafAt(ss, i))
    decreases |ops|
  {
    if ops == [] {
      StartKeepsInv(ss[0], i);
    } else {
      hide Inv, Step, Allowed, IsRun, Observe, TurnsRadarTooLate;
      var n := |ops|;
      StepOfRun(ss, ops);
      RunKeepsInv(ss[..n], ops[..n - 1], i);
      StepKeepsInv(ss[n - 1], ops[n - 1], i, DeafAt(ss[..n], i));
    }
  }

  lemma RunInvariant(ss: seq<State>, ops: seq<Op>, i: nat)
    requires IsRun(ss, ops) && i < |ss[0].chs| && InTime(ss, ops, i)
    ensures forall k | 0 <= k < |ss| :: |ss[k].chs| == |ss[0].chs| && ss[k].now <= ss[|ss| - 1].now
    ensures Inv(ss[|ss| - 1], i, DeafAt(ss, i)) && ss[0].now <= DeafAt(ss, i)
    ensures forall k | 0 <= k < |ss| && ss[k].now > DeafAt(ss, i) :: Listening(ss[k], i)
  {
    RunShape(ss, ops);
    DeafMeaning(ss, ops, i);
    RunKeepsInv(ss, ops, i);
  }

  /** Safety of the availability check: whenever detection is enabled and the channel is not waiting, every
      radar channel of the detection range has been listened to without a gap for its own check time: one minute,
      or ten for the channels that need the long check. The one condition, that regulation turns no channel of the
      range radar too late, is needed: see `TooLateIsUnsafe`. */
  lemma CacSafety(ss: seq<State>, ops: seq<Op>, i: nat)
    requires IsRun(ss, ops) && i < |ss[0].chs| && InTime(ss, ops, i)
    ensures forall k | 0 <= k < |ss| :: |ss[k].chs| == |ss[0].chs|
    ensures var s := ss[|ss| - 1];
      InRange(s, i) && !s.Waiting() ==>
        var check := CacTimeOf(s, s.chs[i]);
        ss[0].now + check <= s.now && forall k | 0 <= k < |ss| && ss[k].now > s.now - check :: Listening(ss[k], i)
  {
    RunInvariant(ss, ops, i);
  }

  /** A frame the transmit gate lets through touches no unchecked radar channel of the detection range. */
  lemma NoFrameOnUncheckedChannel(ss: seq<State>, ops: seq<Op>, i: nat, ch: nat, bw: Width, offset: Offset)
    requires IsRun(ss, ops) && i < |ss[0].chs| && InTime(ss, ops, i)
    ensures forall k | 0 <= k < |ss| :: |ss[k].chs| == |ss[0].chs|
    ensures var s := ss[|ss| - 1];
      InRange(s, i) && DfsInside(s.chs[i], BlockRange(Band5, ch, bw, offset)) && !TxBlocked(s, Band5, ch, bw, offset) ==>
        var check := CacTimeOf(s, s.chs[i]);
        ss[0].now + check <= s.now && forall k | 0 <= k < |ss| && ss[k].now > s.now - check :: Listening(ss[k], i)
  {
    RunInvariant(ss, ops, i);
    CacSafety(ss, ops, i);
    var s := ss[|ss| - 1];
    if InRange(s, i) && DfsInside(s.chs[i], BlockRange(Band5, ch, bw, offset)) {
      GateSeesOverlap(s, s.chs[i], ch, bw, offset);
    }
  }

  lemma GateSeesOverlap(s: State, c: Channel, ch: nat, bw: Width, offset: Offset)
    requires s.enabled && IsBlock5(s.rdCh, s.rdBw, s.rdOffset) && IsChannel(Band5, c.num)
    requires DfsInside(c, s.RdRange()) && DfsInside(c, BlockRange(Band5, ch, bw, offset))
    ensures OverlapsRd(s, Band5, ch, bw, offset)
  {
    BlockEdges(s.rdCh, s.rdBw, s.rdOffset);
  }

  /** The condition on regulation is exact: once channel `i` turns radar too late, idling until the wait is over gives
      a run whose check of `i` had a gap in its check time, at state `k`. */
  lemma TooLateIsUnsafe(ss: seq<State>, ops: seq<Op>, op: Op, i: nat) returns (run: seq<State>, idle: nat, k: nat)
    requires IsRun(ss, ops) && i < |ss[|ss| - 1].chs|
    requires Allowed(ss[|ss| - 1], op) && TurnsRadarTooLate(ss[|ss| - 1], op, i)
    ensures |run| > |ss| && run[..|ss|] == ss && IsRun(run, ops + [op] + Ticks(idle))
    ensures forall j | 0 <= j < |run| :: |run[j].chs| == |ss[0].chs|
    ensures i < |run[0].chs| && k < |run|
    ensures var t := run[|run| - 1];
      InRange(t, i) && !t.Waiting() && run[k].now > t.now - CacTimeOf(t, t.chs[i]) && !Listening(run[k], i)
  {
    hide BlockRange, IsLongCacBlock, Frequency, IsChannel, Allowed;
    var s := ss[|ss| - 1];
    RunShape(ss, ops);
    idle := if s.Waiting() then s.cacEnd - s.now else 0;
    var t := Step(s, op);
    run := ss + seq(idle + 1, j requires 0 <= j <= idle => Idle(t, j));
    IdlingIsRun(ss, ops, op, run, idle);
    k := if s.Waiting() && s.now < s.cacStart then |ss| + (s.cacStart - 1 - s.now) else |ss| - 1;
    RunShape(run, ops + [op] + Ticks(idle));
    assert run[|run| - 1] == Idle(t, idle);
    if s.Waiting() && s.now < s.cacStart {
      assert run[k] == Idle(t, s.cacStart - 1 - s.now);
    }
  }

  function Idle(t: State, ms: nat): State {
    t.(now := t.now + ms)
  }

  function Ticks(n: nat): seq<Op> {
    seq(n, _ => Tick)
  }

  lemma IdlingIsRun(ss: seq<State>, ops: seq<Op>, op: Op, run: seq<State>, idle: nat)
    requires IsRun(ss, ops) && Allowed(ss[|ss| - 1], op)
    requires run == ss + seq(idle + 1, j requires 0 <= j <= idle => Idle(Step(ss[|ss| - 1], op), j))
    ensures IsRun(run, ops + [op] + Ticks(idle))
  {
    var all, n := ops + [op] + Ticks(idle), |ops|;
    forall j | 0 <= j < |all| ensures Allowed(run[j], all[j]) && run[j + 1] == Step(run[j], all[j]) {
      if j < n {
        StepAt(ss, ops, j);
        assert run[j] == ss[j] && run[j + 1] == ss[j + 1] && all[j] == ops[j];
      } else if j == n {
        assert run[n] == ss[n] && all[n] == op && run[n + 1] == Idle(Step(ss[n], op), 0);
      } else {
        IdleTick(Step(ss[n], op), j - n - 1);
        assert run[j] == Idle(Step(ss[n], op), j - n - 1) && run[j + 1] == Idle(Step(ss[n], op), j - n) && all[j] == Tick;
      }
    }
  }

  lemma IdleTick(t: State, ms: nat)
    ensures Idle(t, ms + 1) == Step(Idle(t, ms), Tick) && Allowed(Idle(t, ms), Tick)
  {
  }

  /** The wait still owed to channel `i` whose non-occupancy ends, or ended, at `e`. */
  predicate Owed(s: State, i: nat, e: int)
    requires i < |s.chs|
  {
    Shape(s) && (s.chs[i].nopEnd == e || (s.chs[i].nopEnd == STOPPED && e <= s.now))
    && (InRange(s, i) && s.now < e + CacTimeOf(s, s.chs[i]) ==>
          !s.CacStopped() && e + CacTimeOf(s, s.chs[i]) <= s.cacEnd && (s.now < e ==> e <= s.cacStart))
  }

  lemma EnableKeepsShape(s: State, ch: nat, bw: Width, offset: Offset)
    requires Shape(s) && IsBlock5(ch, bw, offset) && IsDfsBlock(s.chs, Band5, ch, bw, offset)
    ensures Shape(RdEnable(s, ch, bw, offset, false))
  {
    BlockEdges(ch, bw, offset);
  }

  lemma EnableKeepsOwed(s: State, ch: nat, bw: Width, offset: Offset, i: nat, e: int)
    requires i < |s.chs| && Owed(s, i, e) && e != STOPPED
    requires IsBlock5(ch, bw, offset) && IsDfsBlock(s.chs, Band5, ch, bw, offset)
    ensures Owed(RdEnable(s, ch, bw, offset, false), i, e)
  {
    var t := RdEnable(s, ch, bw, offset, false);
    EnableKeepsShape(s, ch, bw, offset);
    if InRange(t, i) {
      if CacResetNeeded(s, ch, bw, offset) {
        ResetIsEnough(s, ch, bw, offset, i);
      } else {
        NoResetIffNoNewDfsChannel(s, ch, bw, offset);
        assert s.enabled && DfsInside(s.chs[i], s.RdRange());
      }
    }
  }

  lemma StepKeepsOwed(s: State, op: Op, i: nat, e: int)
    requires i < |s.chs| && Owed(s, i, e) && e != STOPPED && Allowed(s, op) && !TurnsRadarTooLate(s, op, i)
    requires Step(s, op).chs[i].nopEnd in {e, STOPPED}
    ensures |Step(s, op).chs| == |s.chs| && Owed(Step(s, op), i, e)
  {
    match op
    case Tick =>
    case Sweep =>
    case Poll(cch, hitBw) => PollKeepsOwed(s, cch, hitBw, i, e);
    case Regulate(flags) => RegulateKeepsOwed(s, op, i, e);
    case Decide(roles, band, ch, bw, offset) =>
      DecideOutcome(s, op);
      if Step(s, op) == RdDisable(s, ch, bw, offset, false) {
        DisableKeepsOwed(s, ch, bw, offset, i, e);
      } else {
        EnableKeepsOwed(s, ch, bw, offset, i, e);
      }
  }

  lemma DisableKeepsOwed(s: State, ch: nat, bw: Width, offset: Offset, i: nat, e: int)
    requires i < |s.chs| && Owed(s, i, e)
    ensures Owed(RdDisable(s, ch, bw, offset, false), i, e)
  {
  }

  lemma RegulateKeepsOwed(s: State, op: Op, i: nat, e: int)
    requires i < |s.chs| && Owed(s, i, e) && e != STOPPED && op.Regulate? && Allowed(s, op) && !TurnsRadarTooLate(s, op, i)
    requires Step(s, op).chs[i].nopEnd in {e, STOPPED}
    ensures Owed(Step(s, op), i, e)
  {
  }

  lemma PollKeepsOwed(s: State, cch: nat, bw: Width, i: nat, e: int)
    requires i < |s.chs| && Owed(s, i, e) && e != STOPPED && RdPoll(s, cch, bw).chs[i].nopEnd in {e, STOPPED}
    ensures Owed(RdPoll(s, cch, bw), i, e)
  {
  }

  lemma {:induction false} OwedAlongRun(ss: seq<State>, ops: seq<Op>, k: nat, m: nat, i: nat)
    requires IsRun(ss, ops) && k <= m < |ss| && i < |ss[0].chs| && InTime(ss, ops, i)
    requires forall j | 0 <= j < |ss| :: |ss[j].chs| == |ss[0].chs|
    requires ss[k].chs[i].nopEnd != STOPPED && Owed(ss[k], i, ss[k].chs[i].nopEnd)
    requires forall j | k < j <= m :: ss[j].chs[i].nopEnd in {ss[k].chs[i].nopEnd, STOPPED}
    ensures Owed(ss[m], i, ss[k].chs[i].nopEnd)
    decreases m
  {
    hide Step, Allowed, Owed, IsRun, TurnsRadarTooLate;
    if k < m {
      OwedAlongRun(ss, ops, k, m - 1, i);
      StepAt(ss, ops, m - 1);
      assert ss[m] == Step(ss[m - 1], ops[m - 1]);
      StepKeepsOwed(ss[m - 1], ops[m - 1], i, ss[k].chs[i].nopEnd);
    }
  }

  lemma StepAt(ss: seq<State>, ops: seq<Op>, j: nat)
    requires IsRun(ss, ops) && j + 1 < |ss|
    ensures |ss| == |ops| + 1 && ss[j + 1] == Step(ss[j], ops[j]) && Allowed(ss[j], ops[j])
  {
  }

  lemma PrefixIsRun(ss: seq<State>, ops: seq<Op>, k: nat)
    requires IsRun(ss, ops) && k < |ss|
    ensures IsRun(ss[..k + 1], ops[..k])
    ensures forall i | InTime(ss, ops, i) :: InTime(ss[..k + 1], ops[..k], i)
  {
  }

  /** Non-occupancy safety: a radar channel whose non-occupancy runs at state `k`, in range or not, keeps
      every later detection range that holds it waiting until its own check time after the non-occupancy has
      passed, however the range was narrowed, moved away and widened again in between. At `k` no radar event
      may be pending on a range holding the channel, and until `m` neither may a new radar stamp it nor regulation
      end its non-occupancy. */
  lemma NonOccupancySafety(ss: seq<State>, ops: seq<Op>, k: nat, m: nat, i: nat)
    requires IsRun(ss, ops) && k <= m < |ss| && i < |ss[0].chs| && InTime(ss, ops, i)
    ensures forall j | 0 <= j < |ss| :: |ss[j].chs| == |ss[0].chs|
    ensures var e := ss[k].chs[i].nopEnd; var s := ss[m];
      ss[k].chs[i].NonOcp(ss[k].now) && (InRange(ss[k], i) ==> !ss[k].detected)
      && (forall j | k < j <= m :: ss[j].chs[i].nopEnd in {e, STOPPED})
      && InRange(s, i) && s.now < e + CacTimeOf(s, s.chs[i])
      ==> s.Waiting() && e + CacTimeOf(s, s.chs[i]) <= s.cacEnd
          && forall ch, bw: Width, offset | DfsInside(s.chs[i], BlockRange(Band5, ch, bw, offset)) :: TxBlocked(s, Band5, ch, bw, offset)
  {
    RunInvariant(ss, ops, i);
    PrefixIsRun(ss, ops, k);
    RunInvariant(ss[..k + 1], ops[..k], i);
    var e := ss[k].chs[i].nopEnd;
    if ss[k].chs[i].NonOcp(ss[k].now) && (InRange(ss[k], i) ==> !ss[k].detected)
      && (forall j | k < j <= m :: ss[j].chs[i].nopEnd in {e, STOPPED}) {
      OwedAlongRun(ss, ops, k, m, i);
      forall ch, bw: Width, offset | InRange(ss[m], i) && DfsInside(ss[m].chs[i], BlockRange(Band5, ch, bw, offset))
        ensures OverlapsRd(ss[m], Band5, ch, bw, offset)
      {
        GateSeesOverlap(ss[m], ss[m].chs[i], ch, bw, offset);
      }
    }
  }

  // ----- channels of any kind

  /** The wait lasts at least until the non-occupancy of channel `i` is over. */
  predicate Covered(s: State, i: nat)
    requires i < |s.chs|
  {
    !s.CacStopped() && s.chs[i].nopEnd <= s.cacStart
  }

  /** A channel of the requested block, radar channel or not, is covered after the request if and only if the check
      is restarted or the wait there was covers it already. */
  lemma EnableCoversIff(s: State, ch: nat, bw: Width, offset: Offset, i: nat)
    requires Shape(s) && IsBlock5(ch, bw, offset) && i < |s.chs|
    requires TouchedBy(s.chs[i], Band5, BlockRange(Band5, ch, bw, offset)) && s.chs[i].NonOcp(s.now)
    ensures Covered(RdEnable(s, ch, bw, offset, false), i) <==> CacResetNeeded(s, ch, bw, offset) || Covered(s, i)
  {
    RestartCoversIff(s, ch, bw, offset, s.chs[i].nopEnd);
  }

  /** A restarted wait starts when the last non-occupancy in the block ends. */
  lemma RestartCoversIff(s: State, ch: nat, bw: Width, offset: Offset, e: int)
    requires s.now > 0 && e > s.now
    ensures var t := ResetCac(s, ch, bw, offset);
      !t.CacStopped() && (e <= t.cacStart <==> OutlastedBy(s, ch, bw, offset, e))
  {
  }

  /** A channel of the block has a non-occupancy that ends no earlier than `e`. */
  predicate OutlastedBy(s: State, ch: nat, bw: Width, offset: Offset, e: int) {
    exists c | 0 <= c < |s.chs| ::
      s.chs[c].NonOcp(s.now) && TouchedBy(s.chs[c], Band5, BlockRange(Band5, ch, bw, offset)) && e <= s.chs[c].nopEnd
  }

  predicate Restarts(s: State, op: Op) {
    op.Decide? && op.roles.staLinking == 0 && op.roles.staLinked == 0 && op.roles.ap > 0
    && IsDfsBlock(s.chs, op.band, op.ch, op.bw, op.offset) && CacResetNeeded(s, op.ch, op.bw, op.offset)
  }

  /** Over every run: while detection is enabled, a running non-occupancy of any channel, stamped before the last
      restart of the check and not since, is covered if and only if that restart was for a block with a channel, it
      or another, whose non-occupancy ended no earlier. */
  lemma {:induction false} CoveredIffOutlasted(ss: seq<State>, ops: seq<Op>, i: nat) returns (k: nat)
    requires IsRun(ss, ops) && i < |ss[0].chs| && ss[|ss| - 1].enabled
    ensures forall j | 0 <= j < |ss| :: |ss[j].chs| == |ss[0].chs|
    ensures k < |ops| && Restarts(ss[k], ops[k]) && forall j | k < j < |ops| :: !Restarts(ss[j], ops[j])
    ensures var s, e := ss[|ss| - 1], ss[|ss| - 1].chs[i].nopEnd;
      s.chs[i].NonOcp(s.now) && (forall j | k <= j < |ss| :: ss[j].chs[i].nopEnd == e) ==>
        (Covered(s, i) <==> OutlastedBy(ss[k], ops[k].ch, ops[k].bw, ops[k].offset, e))
    decreases |ops|
  {
    hide Step, Covered, OutlastedBy, Restarts, Allowed, Shape, IsRun;
    RunShape(ss, ops);
    LastStep(ss, ops, i);
    var n := |ops|;
    var s, t, op := ss[n - 1], ss[n], ops[n - 1];
    if Restarts(s, op) {
      k := n - 1;
      RestartCovers(s, op, i);
    } else {
      StaysEnabled(s, op);
      k := CoveredIffOutlasted(ss[..n], ops[..n - 1], i);
      if t.chs[i].NonOcp(t.now) && s.chs[i].nopEnd == t.chs[i].nopEnd {
        CoverStays(s, op, i);
      }
    }
  }

  lemma LastStep(ss: seq<State>, ops: seq<Op>, i: nat)
    requires IsRun(ss, ops) && i < |ss[0].chs| && ss[|ss| - 1].enabled
    ensures var n := |ops|;
      n > 0 && |ss| == n + 1 && IsRun(ss[..n], ops[..n - 1]) && ss[n] == Step(ss[n - 1], ops[n - 1])
      && Allowed(ss[n - 1], ops[n - 1]) && Shape(ss[n - 1]) && |ss[n - 1].chs| == |ss[0].chs|
      && ss[n - 1].now <= ss[n].now
  {
    assert ops != [];
    StepOfRun(ss, ops);
    hide IsRun, Allowed, Step;
    RunShape(ss, ops);
    var n := |ops|;
    RunShape(ss[..n], ops[..n - 1]);
    assert ss[..n][n - 1] == ss[n - 1];
  }

  lemma RestartCovers(s: State, op: Op, i: nat)
    requires i < |s.chs| && Shape(s) && Restarts(s, op)
    ensures var t := Step(s, op);
      t.chs == s.chs && t.now == s.now
      && (t.chs[i].NonOcp(t.now) ==> (Covered(t, i) <==> OutlastedBy(s, op.ch, op.bw, op.offset, t.chs[i].nopEnd)))
  {
    DfsBlockIsBand5(s, op.band, op.ch, op.bw, op.offset);
    if s.chs[i].NonOcp(s.now) {
      RestartCoversIff(s, op.ch, op.bw, op.offset, s.chs[i].nopEnd);
    }
    hide ResetCac, CacResetNeeded, OutlastedBy, IsDfsBlock;
  }

  /** Without a restart, detection is enabled only if it was before. */
  lemma StaysEnabled(s: State, op: Op)
    requires Shape(s) && Allowed(s, op) && Step(s, op).enabled && !Restarts(s, op)
    ensures s.enabled
  {
    if op.Decide? {
      DecideOutcome(s, op);
    }
  }

  /** Without a restart, the cover of a running non-occupancy neither comes nor goes. */
  lemma CoverStays(s: State, op: Op, i: nat)
    requires i < |s.chs| && Shape(s) && Allowed(s, op) && Step(s, op).enabled && !Restarts(s, op)
    requires Step(s, op).chs[i].nopEnd == s.chs[i].nopEnd && Step(s, op).chs[i].NonOcp(Step(s, op).now)
    ensures Covered(Step(s, op), i) <==> Covered(s, i)
  {
    if op.Decide? {
      DecideOutcome(s, op);
    }
  }

  // ----- runs in which a channel without the radar flag is not covered, or becomes a radar channel too late

  /** Channel 52 and none below is a radar channel, no non-occupancy runs on 52 to 64, and one runs on 36 for more
      than the minute of the check. */
  predicate Uneven(chs: seq<Channel>, a: nat, b: nat) {
    ValidChannels(chs) && a < |chs| && b < |chs|
    && chs[a].band == Band5 && chs[a].num == 36 && chs[a].nopEnd > 62001
    && chs[b].band == Band5 && chs[b].num == 52 && DfsFlag in chs[b].flags
    && (forall c | 0 <= c < |chs| && DfsFlag in chs[c].flags :: chs[c].num >= 52)
    && (forall c | 0 <= c < |chs| && chs[c].band == Band5 && 52 <= chs[c].num <= 64 :: chs[c].NonOcpStopped())
  }

  /** On every uneven set: an access point on channels 52 to 64 is checked for a minute and then widens to 36 to 64,
      where channel 36, no radar channel, is still under non-occupancy: nothing waits, and the gate is open to
      channel 36. Were regulation now to make 36 a radar channel, it would come too late. */
  lemma WideningDoesNotCover(chs: seq<Channel>, a: nat, b: nat, etsi: bool) returns (ss: seq<State>, ops: seq<Op>)
    requires Uneven(chs, a, b)
    ensures IsRun(ss, ops) && ss[0] == Start(chs, etsi)
    ensures var s := ss[|ss| - 1];
      s.enabled && !s.detected && !s.Waiting() && s.chs == chs && chs[a].NonOcp(s.now) && !Covered(s, a)
      && TouchedBy(chs[a], Band5, s.RdRange()) && !TxBlocked(s, Band5, 36, 0, NoExt)
    ensures forall flags: seq<set<Flag>> | |flags| == |chs| && DfsFlag in flags[a] :: TurnsRadarTooLate(ss[|ss| - 1], Regulate(flags), a)
  {
    hide Step, Allowed, Initial, StateAt, OpAt, Uneven, TurnsRadarTooLate;
    ss := seq(62003, k requires 0 <= k < 62003 => StateAt(chs, etsi, k));
    ops := seq(62002, k requires 0 <= k < 62002 => OpAt(k));
    forall k | 0 <= k < |ops| ensures Allowed(ss[k], ops[k]) && ss[k + 1] == Step(ss[k], ops[k]) {
      WatchedStep(chs, a, b, etsi, k);
    }
    AtTheEnd(chs, a, b, etsi);
  }

  function Start(chs: seq<Channel>, etsi: bool): State {
    State(1, etsi, chs, false, false, 0, 0, NoExt, STOPPED, STOPPED)
  }

  function Watched(chs: seq<Channel>, etsi: bool, now: int, bw: Width): State {
    State(now, etsi, chs, true, false, 52, bw, Upper, 1, 62001)
  }

  function StateAt(chs: seq<Channel>, etsi: bool, k: nat): State {
    if k == 0 then Start(chs, etsi) else if k <= 62001 then Watched(chs, etsi, k, 2) else Watched(chs, etsi, 62001, 3)
  }

  function OpAt(k: nat): Op {
    if 0 < k <= 62000 then Tick else DecideOn52(if k == 0 then 2 else 3)
  }

  function DecideOn52(bw: Width): Op {
    Decide(Roles(0, 0, 1, false), Band5, 52, bw, Upper)
  }

  lemma WatchedStep(chs: seq<Channel>, a: nat, b: nat, etsi: bool, k: nat)
    requires k <= 62001 && Uneven(chs, a, b)
    ensures var s := StateAt(chs, etsi, k); Allowed(s, OpAt(k)) && StateAt(chs, etsi, k + 1) == Step(s, OpAt(k))
  {
    hide Step, Allowed, Uneven;
    if k == 0 {
      NarrowStarts(chs, a, b, etsi);
    } else if k <= 62000 {
      TickWatches(chs, etsi, k);
    } else {
      WideGoesOn(chs, a, b, etsi);
    }
  }

  lemma TickWatches(chs: seq<Channel>, etsi: bool, now: int)
    ensures Step(Watched(chs, etsi, now, 2), Tick) == Watched(chs, etsi, now + 1, 2) && Allowed(Watched(chs, etsi, now, 2), Tick)
  {
  }

  lemma AtTheEnd(chs: seq<Channel>, a: nat, b: nat, etsi: bool)
    requires Uneven(chs, a, b)
    ensures StateAt(chs, etsi, 0) == Start(chs, etsi) && Initial(StateAt(chs, etsi, 0))
    ensures var s := StateAt(chs, etsi, 62002);
      s.enabled && !s.detected && !s.Waiting() && s.chs == chs && a < |chs| && chs[a].NonOcp(s.now) && !Covered(s, a)
      && TouchedBy(chs[a], Band5, s.RdRange()) && !TxBlocked(s, Band5, 36, 0, NoExt)
      && forall flags: seq<set<Flag>> | |flags| == |chs| && DfsFlag in flags[a] :: TurnsRadarTooLate(s, Regulate(flags), a)
  {
  }

  lemma NarrowStarts(chs: seq<Channel>, a: nat, b: nat, etsi: bool)
    requires Uneven(chs, a, b)
    ensures var s := Start(chs, etsi);
      Initial(s) && Allowed(s, DecideOn52(2)) && Step(s, DecideOn52(2)) == Watched(chs, etsi, 1, 2)
  {
    var r := BlockRange(Band5, 52, 2, Upper);
    assert r == Range(5330, 5250);
    assert DfsBetween(chs[b], r);
    assert !HasNonOcp(chs, Band5, r, 1);
  }

  lemma WideGoesOn(chs: seq<Channel>, a: nat, b: nat, etsi: bool)
    requires Uneven(chs, a, b)
    ensures var s := Watched(chs, etsi, 62001, 2); Allowed(s, DecideOn52(3)) && Step(s, DecideOn52(3)) == Watched(chs, etsi, 62001, 3)
  {
    var s := Watched(chs, etsi, 62001, 2);
    assert s.RdRange() == Range(5330, 5250);
    assert BlockRange(Band5, 52, 3, Upper) == Range(5330, 5170);
    assert DfsBetween(chs[b], BlockRange(Band5, 52, 3, Upper));
    assert !IsDfsRange(chs, Range(5250, 5170));
  }

  /** Radar channels as in most regulatory domains: 52 to 144. */
  function WithRadar(chs: seq<Channel>): (res: seq<Channel>)
    ensures |res| == |chs|
  {
    seq(|chs|, i requires 0 <= i < |chs| => chs[i].(flags := if chs[i].band == Band5 && 52 <= chs[i].num <= 144 then {DfsFlag} else {}))
  }

  /** The sets the driver starts with, under such a regulation and after a report for channel 36, are uneven. */
  lemma DriverSetsAreUneven(chs: seq<Channel>, bands: set<Band>) returns (a: nat, b: nat)
    requires IsSetOf(chs, bands) && Band5 in bands && BandMax !in bands
    ensures Uneven(Stamped(WithRadar(chs), CenterRange(Band5, 36, 0), 1), a, b)
  {
    HoldsChannels(chs, bands);
    hide IsSetOf, Has, IsChannel, Frequency, Stamped, WithRadar, CenterRange;
    a :| 0 <= a < |chs| && chs[a].band == Band5 && chs[a].num == 36;
    b :| 0 <= b < |chs| && chs[b].band == Band5 && chs[b].num == 52;
    var res := Stamped(WithRadar(chs), CenterRange(Band5, 36, 0), 1);
    forall i | 0 <= i < |chs| ensures res[i] == Reported36(chs[i]) {
      OnlyChannel36(chs, i);
    }
  }

  function Reported36(c: Channel): Channel {
    Channel(c.band, c.num, if c.band == Band5 && 52 <= c.num <= 144 then {DfsFlag} else {},
            if c.band == Band5 && c.num == 36 then 1 + NON_OCP_TIME_MS else STOPPED)
  }

  lemma OnlyChannel36(chs: seq<Channel>, i: nat)
    requires i < |chs| && IsChannel(chs[i].band, chs[i].num) && chs[i].NonOcpStopped()
    ensures Stamped(WithRadar(chs), CenterRange(Band5, 36, 0), 1)[i] == Reported36(chs[i])
  {
    assert CenterRange(Band5, 36, 0) == Range(5190, 5170);
  }

  lemma HoldsChannels(chs: seq<Channel>, bands: set<Band>)
    requires IsSetOf(chs, bands) && Band5 in bands && BandMax !in bands
    ensures exists a :: 0 <= a < |chs| && chs[a].band == Band5 && chs[a].num == 36
    ensures exists b :: 0 <= b < |chs| && chs[b].band == Band5 && chs[b].num == 52
    ensures forall i | 0 <= i < |chs| :: IsChannel(chs[i].band, chs[i].num) && chs[i].NonOcpStopped()
  {
    assert Has(chs, Band5, 36) && Has(chs, Band5, 52);
    forall i | 0 <= i < |chs| ensures IsChannel(chs[i].band, chs[i].num) {
      var n: Byte := chs[i].num;
      assert Has(chs, chs[i].band, n);
    }
  }
}
