/** What reports, decisions, waiting times and the transmit gate of the DFS master mean, in channel numbers and
    milliseconds (core/rtw_dfs.c). */
module DfsMeaning {
  import opened Rf
  import opened Dfs
  import opened DfsSafety

  // ----- radar reports

  /** Is the channel within half the width of a block around `cch`? */
  predicate Hit(c: Channel, cch: nat, bw: Width) {
    var half := match bw case 0 => 10 case 1 => 20 case 2 => 40 case 3 => 80;
    c.band == Band5 && -half <= 5 * (c.num - cch) <= half
  }

  /** The driver takes note of a report: detection is on, and non-occupancy is not being waited for. */
  predicate Noted(s: State, cch: nat) {
    s.enabled && cch > 0 && !(s.cacEnd != 0 && s.cacEnd > s.now && s.now <= s.cacStart)
  }

  /** The reported center has a frequency and the upper edge of its block is in the band. */
  predicate InBand(cch: nat, bw: Width) {
    36 <= cch <= if bw == 3 then 173 else 177
  }

  /** A noted report puts every channel it hits, wherever the range is, under non-occupancy for thirty minutes from
      now, and no other; a report that is not noted, or none, changes no channel. */
  lemma ReportStartsNonOccupancy(s: State, cch: nat, bw: Width)
    requires ValidChannels(s.chs)
    ensures var t := RdPoll(s, cch, bw);
      |t.chs| == |s.chs| && (Noted(s, cch) ==> t == s.(detected := true, chs := t.chs))
      && (!Noted(s, cch) ==> t.chs == s.chs && t.detected == s.detected)
      && forall i | 0 <= i < |s.chs| ::
           t.chs[i] == if Noted(s, cch) && InBand(cch, bw) && Hit(s.chs[i], cch, bw)
                       then s.chs[i].(nopEnd := if s.now + 30 * 60 * 1000 == 0 then 1 else s.now + 30 * 60 * 1000) else s.chs[i]
  {
    forall i | 0 <= i < |s.chs| && Frequency(Band5, cch) != 0
      ensures TouchedBy(s.chs[i], BandOfFrequency(CenterRange(Band5, cch, bw).hi), CenterRange(Band5, cch, bw)) <==>
              InBand(cch, bw) && Hit(s.chs[i], cch, bw)
    {
      TouchedIsHit(s.chs[i], cch, bw);
    }
    hide TouchedBy, CenterRange, Hit;
  }

  lemma TouchedIsHit(c: Channel, cch: nat, bw: Width)
    requires IsChannel(c.band, c.num) && 36 <= cch <= 177
    ensures TouchedBy(c, BandOfFrequency(CenterRange(Band5, cch, bw).hi), CenterRange(Band5, cch, bw)) <==> InBand(cch, bw) && Hit(c, cch, bw)
  {
    assert CenterRange(Band5, cch, bw) == Range(5000 + 5 * cch + HalfWidth(bw), 5000 + 5 * cch - HalfWidth(bw));
  }

  /** The minutes of its own check, in ms: ten for the weather radar channels under European rules, otherwise one. */
  function CheckMs(etsi: bool, num: nat): int {
    if etsi && num in {120, 124, 128} then 10 * 60 * 1000 else 60 * 1000
  }

  lemma CheckOfChannel(s: State, c: Channel)
    requires IsChannel(Band5, c.num)
    ensures CacTimeOf(s, c) == CheckMs(s.etsi, c.num)
  {
    assert BlockRange(Band5, c.num, 0, NoExt) == Range(5000 + 5 * c.num + 10, 5000 + 5 * c.num - 10);
  }

  /** Neither a new report nor regulation touches the non-occupancy of channel `i` in this step. */
  predicate LeavesStamp(s: State, op: Op, i: nat)
    requires i < |s.chs|
  {
    !op.Regulate? && !(op.Poll? && Noted(s, op.cch) && InBand(op.cch, op.hitBw) && Hit(s.chs[i], op.cch, op.hitBw))
  }

  predicate StampIs(s: State, i: nat, e: int)
    requires i < |s.chs|
  {
    s.chs[i].nopEnd == e || (s.chs[i].nopEnd == STOPPED && e <= s.now)
  }

  lemma StampStays(s: State, op: Op, i: nat, e: int)
    requires ValidChannels(s.chs) && i < |s.chs| && StampIs(s, i, e) && LeavesStamp(s, op, i)
    ensures |Step(s, op).chs| == |s.chs| && StampIs(Step(s, op), i, e)
  {
    if op.Poll? {
      ReportStartsNonOccupancy(s, op.cch, op.hitBw);
      hide RdPoll;
    }
  }

  lemma ShapeAt(ss: seq<State>, ops: seq<Op>, l: nat)
    requires IsRun(ss, ops) && l < |ss|
    ensures Shape(ss[l]) && ValidChannels(ss[l].chs) && |ss| == |ops| + 1
  {
    PrefixIsRun(ss, ops, l);
    RunShape(ss[..l + 1], ops[..l]);
  }

  lemma {:induction false} StampAlongRun(ss: seq<State>, ops: seq<Op>, k: nat, m: nat, i: nat, e: int)
    requires IsRun(ss, ops) && k <= m < |ss| && i < |ss[0].chs| && forall j | 0 <= j < |ss| :: |ss[j].chs| == |ss[0].chs|
    requires StampIs(ss[k], i, e) && forall l | k <= l < m :: l < |ops| && LeavesStamp(ss[l], ops[l], i)
    ensures forall l | k <= l <= m :: StampIs(ss[l], i, e)
    decreases m
  {
    hide Step, Allowed, IsRun, StampIs, LeavesStamp;
    if k < m {
      StampAlongRun(ss, ops, k, m - 1, i, e);
      ShapeAt(ss, ops, m - 1);
      StepAt(ss, ops, m - 1);
      assert ss[m] == Step(ss[m - 1], ops[m - 1]);
      StampStays(ss[m - 1], ops[m - 1], i, e);
    }
  }

  /** From report to wait, over every run: once a report that hit radar channel `i` has been answered by a decision, in
      state `j`, every later range holding the channel waits and the gate is closed to it until thirty minutes after the
      report plus the check time of the channel, wherever the range has been meanwhile. */
  lemma ReportedChannelIsLeft(ss: seq<State>, ops: seq<Op>, k: nat, j: nat, m: nat, i: nat)
    requires IsRun(ss, ops) && k < j <= m < |ss| && i < |ss[0].chs| && InTime(ss, ops, i)
    ensures |ss| == |ops| + 1 && forall l | 0 <= l < |ss| :: |ss[l].chs| == |ss[0].chs|
    ensures var s, e := ss[m], ss[k].now + 30 * 60 * 1000;
      var free := e + CheckMs(s.etsi, s.chs[i].num);
      ops[k].Poll? && Noted(ss[k], ops[k].cch) && InBand(ops[k].cch, ops[k].hitBw) && Hit(ss[k].chs[i], ops[k].cch, ops[k].hitBw)
      && !ss[j].detected && ss[j].now < e && (forall l | k < l < m :: LeavesStamp(ss[l], ops[l], i))
      && InRange(s, i) && s.now < free
      ==> s.Waiting() && free <= s.cacEnd
          && forall ch, bw: Width, offset | DfsInside(s.chs[i], BlockRange(Band5, ch, bw, offset)) :: TxBlocked(s, Band5, ch, bw, offset)
  {
    RunShape(ss, ops);
    ShapeAt(ss, ops, m);
    ShapeAt(ss, ops, k);
    var s, e := ss[m], ss[k].now + 30 * 60 * 1000;
    if ops[k].Poll? && Noted(ss[k], ops[k].cch) && InBand(ops[k].cch, ops[k].hitBw) && Hit(ss[k].chs[i], ops[k].cch, ops[k].hitBw)
      && !ss[j].detected && ss[j].now < e && (forall l | k < l < m :: LeavesStamp(ss[l], ops[l], i))
    {
      StepAt(ss, ops, k);
      ReportStartsNonOccupancy(ss[k], ops[k].cch, ops[k].hitBw);
      hide IsRun, InRange, DfsInside, LeavesStamp, TxBlocked, Hit, RdPoll, InTime;
      StampAlongRun(ss, ops, k + 1, m, i, e);
      assert ss[j].chs[i].nopEnd == e by { assert StampIs(ss[j], i, e); }
      forall l | j < l <= m ensures ss[l].chs[i].nopEnd in {e, STOPPED} {
        assert StampIs(ss[l], i, e);
      }
      NonOccupancySafety(ss, ops, j, m, i);
      if InRange(s, i) {
        InRangeIsChannel(s, i);
        CheckOfChannel(s, s.chs[i]);
      }
    }
  }

  lemma InRangeIsChannel(s: State, i: nat)
    requires Shape(s) && i < |s.chs| && InRange(s, i)
    ensures IsChannel(Band5, s.chs[i].num)
  {
  }

  // ----- decisions

  /** Radar channel `i` of the set lies in the block. */
  predicate RadarIn(chs: seq<Channel>, i: nat, ch: nat, bw: Width, offset: Offset)
    requires i < |chs|
  {
    chs[i].band == Band5 && DfsFlag in chs[i].flags && Inside(Frequency(Band5, chs[i].num), BlockRange(Band5, ch, bw, offset))
  }

  ghost predicate IsRadarBlock(chs: seq<Channel>, band: Band, ch: nat, bw: Width, offset: Offset) {
    band == Band5 && exists i: nat :: i < |chs| && RadarIn(chs, i, ch, bw, offset)
  }

  lemma RadarBlock(chs: seq<Channel>, band: Band, ch: nat, bw: Width, offset: Offset)
    requires ValidChannels(chs) && (band == Band5 ==> IsBlock5(ch, bw, offset))
    ensures IsDfsBlock(chs, band, ch, bw, offset) <==> IsRadarBlock(chs, band, ch, bw, offset)
  {
    if band == Band5 {
      BlockEdges(ch, bw, offset);
      IsDfsRangeMeaning(chs, BlockRange(Band5, ch, bw, offset));
      assert forall i: nat | i < |chs| :: DfsInside(chs[i], BlockRange(Band5, ch, bw, offset)) <==> RadarIn(chs, i, ch, bw, offset);
    } else if IsDfsBlock(chs, band, ch, bw, offset) {
      DfsBlockIsBand5(State(0, false, chs, false, false, 0, 0, NoExt, 0, 0), band, ch, bw, offset);
    }
  }

  /** After a decision detection is on exactly when no station is linking, the block has a radar channel, and there is
      an access point and no linked station, or a linked station that has to detect by itself. It is then on for that
      block with no event pending, and without a wait in the case of the linked station. When it is off, a range is
      remembered only for a linked station on a radar block whose access point detects for it. */
  lemma DetectionIsOnIff(s: State, roles: Roles, band: Band, ch: nat, bw: Width, offset: Offset)
    requires ValidChannels(s.chs) && (band == Band5 ==> IsBlock5(ch, bw, offset))
    ensures var t := EnDecision(s, roles, band, ch, bw, offset);
      (t.enabled <==> roles.staLinking == 0 && IsRadarBlock(s.chs, band, ch, bw, offset)
                      && if roles.staLinked > 0 then roles.slaveWithRd else roles.ap > 0)
      && (t.enabled ==> t.rdCh == ch && t.rdBw == bw && t.rdOffset == offset && !t.detected && (roles.staLinked > 0 ==> !t.Waiting()))
      && (!t.enabled && s.enabled ==> !t.detected && !t.Waiting())
      && (!t.enabled ==> if roles.staLinking == 0 && roles.staLinked > 0 && IsRadarBlock(s.chs, band, ch, bw, offset)
                         then t.rdCh == ch && t.rdBw == bw && t.rdOffset == offset else t.rdCh == 0)
  {
    RadarBlock(s.chs, band, ch, bw, offset);
    hide IsDfsBlock, IsRadarBlock, ResetCac, CacResetNeeded;
  }

  // ----- waiting times

  /** The block contains the channel with that number. */
  predicate BlockHas(ch: nat, bw: Width, offset: Offset, num: nat) {
    Inside(Frequency(Band5, num), BlockRange(Band5, ch, bw, offset))
  }

  /** A block needs the long check exactly when European rules are in force and 120, 124 or 128 is in it. */
  lemma LongCheckIff(etsi: bool, ch: nat, bw: Width, offset: Offset)
    requires IsBlock5(ch, bw, offset)
    ensures IsLongCacBlock(etsi, Band5, ch, bw, offset) <==>
      etsi && (BlockHas(ch, bw, offset, 120) || BlockHas(ch, bw, offset, 124) || BlockHas(ch, bw, offset, 128))
  {
    BlockEdges(ch, bw, offset);
    LongCheckOfCenter(Center5(ch, bw, offset), bw);
  }

  lemma LongCheckOfCenter(cch: nat, bw: Width)
    requires IsCenter(Band5, cch, bw)
    ensures var r := CenterRange(Band5, cch, bw);
      Overlaps(r, Range(5650, 5600)) <==> Inside(5600, r) || Inside(5620, r) || Inside(5640, r)
  {
  }

  /** A channel of the block under non-occupancy. */
  predicate Occupied(s: State, i: nat, ch: nat, bw: Width, offset: Offset)
    requires i < |s.chs|
  {
    s.chs[i].band == Band5 && BlockHas(ch, bw, offset, s.chs[i].num) && s.chs[i].nopEnd != 0 && s.chs[i].nopEnd > s.now
  }

  /** The wait for a block is exact: the longest non-occupancy left on its channels, and no check without a radar
      channel, the rest of a running check inside its range, and otherwise ten minutes or one. */
  lemma WaitIsExact(s: State, ch: nat, bw: Width, offset: Offset)
    requires ValidChannels(s.chs) && IsBlock5(ch, bw, offset)
    ensures var (nonOcp, check) := WaitingMs(s, Band5, ch, bw, offset);
      (forall i | 0 <= i < |s.chs| && Occupied(s, i, ch, bw, offset) :: s.chs[i].nopEnd - s.now <= nonOcp)
      && (nonOcp > 0 ==> exists i :: 0 <= i < |s.chs| && Occupied(s, i, ch, bw, offset) && s.chs[i].nopEnd - s.now == nonOcp)
      && check == if !IsRadarBlock(s.chs, Band5, ch, bw, offset) then 0
                  else if s.enabled && Within(BlockRange(Band5, ch, bw, offset), s.RdRange()) && nonOcp == 0
                  then (if s.Waiting() then s.cacEnd - s.now else 0)
                  else if s.etsi && (BlockHas(ch, bw, offset, 120) || BlockHas(ch, bw, offset, 124) || BlockHas(ch, bw, offset, 128))
                  then 10 * 60 * 1000 else 60 * 1000
  {
    RadarBlock(s.chs, Band5, ch, bw, offset);
    LongCheckIff(s.etsi, ch, bw, offset);
    BlockEdges(ch, bw, offset);
    forall i | 0 <= i < |s.chs|
      ensures s.chs[i].NonOcp(s.now) && TouchedBy(s.chs[i], Band5, BlockRange(Band5, ch, bw, offset)) <==> Occupied(s, i, ch, bw, offset)
    {
    }
    hide IsLongCacBlock, IsDfsBlock, IsRadarBlock, BlockRange, Within, TouchedBy, BlockHas, IsCenter, IsChannel, Frequency;
  }

  /** A restarted wait starts when that non-occupancy ends and lasts exactly the check time longer, with at least two
      seconds before the check counts. */
  lemma RestartIsExact(s: State, ch: nat, bw: Width, offset: Offset)
    requires s.now > 0 && CacResetNeeded(s, ch, bw, offset)
    ensures var (nonOcp, check) := WaitingMs(s, Band5, ch, bw, offset); var t := RdEnable(s, ch, bw, offset, false);
      t.cacStart == s.now + nonOcp && t.cacEnd == s.now + check + if nonOcp < 2000 then 2000 else nonOcp
  {
    hide NonOcpMs, HasNonOcp, IsDfsBlock, IsLongCacBlock, Within, CacResetNeeded;
  }

  // ----- the transmit gate

  /** Two blocks of the tables overlap exactly when they share a channel. */
  lemma OverlapIsSharing(a: nat, aw: Width, b: nat, bw: Width)
    requires IsCenter(Band5, a, aw) && IsCenter(Band5, b, bw)
    ensures Overlaps(CenterRange(Band5, a, aw), CenterRange(Band5, b, bw)) <==>
      exists n :: IsChannel(Band5, n) && Inside(Frequency(Band5, n), CenterRange(Band5, a, aw)) && Inside(Frequency(Band5, n), CenterRange(Band5, b, bw))
  {
    if Overlaps(CenterRange(Band5, a, aw), CenterRange(Band5, b, bw)) {
      var n := if aw <= bw then Lowest(a, aw) else Lowest(b, bw);
      if aw <= bw {
        LowestIsShared(a, aw, b, bw);
      } else {
        LowestIsShared(b, bw, a, aw);
      }
      assert IsChannel(Band5, n);
    }
  }

  function Lowest(cch: nat, bw: Width): nat
    requires IsCenter(Band5, cch, bw)
  {
    match bw case 0 => cch case 1 => cch - 2 case 2 => cch - 6 case 3 => cch - 14
  }

  lemma LowestIsShared(a: nat, aw: Width, b: nat, bw: Width)
    requires IsCenter(Band5, a, aw) && IsCenter(Band5, b, bw) && aw <= bw && Overlaps(CenterRange(Band5, a, aw), CenterRange(Band5, b, bw))
    ensures var n := Lowest(a, aw);
      IsChannel(Band5, n) && Inside(Frequency(Band5, n), CenterRange(Band5, a, aw)) && Inside(Frequency(Band5, n), CenterRange(Band5, b, bw))
  {
    EdgesOf(a, aw);
    EdgesOf(b, bw);
    LowestIsChannel(a, aw);
    hide CenterRange, Frequency, HalfWidth;
    match bw
    case 0 => NearTwenty(a, b);
    case 1 => NearForty(a, aw, b);
    case 2 => NearEighty(a, aw, b);
    case 3 => NearMost(a, aw, b);
  }

  lemma EdgesOf(cch: nat, bw: Width)
    requires IsCenter(Band5, cch, bw)
    ensures var half := match bw case 0 => 10 case 1 => 20 case 2 => 40 case 3 => 80;
      CenterRange(Band5, cch, bw) == Range(5000 + 5 * cch + half, 5000 + 5 * cch - half) && 36 <= cch <= 177
  {
  }

  lemma LowestIsChannel(cch: nat, bw: Width)
    requires IsCenter(Band5, cch, bw)
    ensures IsChannel(Band5, Lowest(cch, bw)) && Frequency(Band5, Lowest(cch, bw)) == 5000 + 5 * Lowest(cch, bw)
  {
  }

  lemma NearTwenty(a: nat, b: nat)
    requires IsCenter(Band5, a, 0) && IsCenter(Band5, b, 0) && -4 < a - b < 4
    ensures a == b
  {
  }

  lemma NearForty(a: nat, aw: Width, b: nat)
    requires aw <= 1 && IsCenter(Band5, a, aw) && IsCenter(Band5, b, 1) && (if aw == 0 then -6 < a - b < 6 else -8 < a - b < 8)
    ensures Lowest(a, aw) - b in {-2, 2}
  {
  }

  lemma NearEighty(a: nat, aw: Width, b: nat)
    requires aw <= 2 && IsCenter(Band5, a, aw) && IsCenter(Band5, b, 2)
    requires if aw == 0 then -10 < a - b < 10 else if aw == 1 then -12 < a - b < 12 else -16 < a - b < 16
    ensures -6 <= Lowest(a, aw) - b <= 6
  {
  }

  lemma NearMost(a: nat, aw: Width, b: nat)
    requires IsCenter(Band5, a, aw) && IsCenter(Band5, b, 3)
    requires if aw == 0 then -18 < a - b < 18 else if aw == 1 then -20 < a - b < 20 else if aw == 2 then -24 < a - b < 24 else -32 < a - b < 32
    ensures -14 <= Lowest(a, aw) - b <= 14
  {
  }

  /** The gate is closed to a block exactly while the channel waits, detection is on, and the block shares a 20 MHz
      channel with the range. */
  lemma GateIsClosedIff(s: State, ch: nat, bw: Width, offset: Offset)
    requires Shape(s) && IsBlock5(ch, bw, offset)
    ensures TxBlocked(s, Band5, ch, bw, offset) <==>
      s.cacEnd != 0 && s.cacEnd > s.now && s.enabled
      && exists n :: IsChannel(Band5, n) && BlockHas(ch, bw, offset, n) && BlockHas(s.rdCh, s.rdBw, s.rdOffset, n)
  {
    if s.enabled {
      BlockEdges(ch, bw, offset);
      BlockEdges(s.rdCh, s.rdBw, s.rdOffset);
      OverlapIsSharing(Center5(ch, bw, offset), bw, Center5(s.rdCh, s.rdBw, s.rdOffset), s.rdBw);
    }
  }
}
