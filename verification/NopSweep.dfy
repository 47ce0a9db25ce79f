/** The watchdog sweep that ends non-occupancy periods (core/rtw_dfs.c). */
module NopSweep {
  import opened Rf
  import opened Dfs

  /** A reported block: every channel of it has just left non-occupancy. */
  datatype Report = Report(band: Band, cch: nat, bw: Width)

  predicate Covers(r: Report, c: Channel) {
    c.band == r.band && IsCenter(r.band, r.cch, r.bw) && c.num in OpChannels(r.band, r.cch, r.bw)
  }

  /** The stamp is set and lies in the past. */
  predicate RunOut(c: Channel, now: int) {
    !c.NonOcpStopped() && !c.NonOcp(now)
  }

  predicate Unique(chs: seq<Channel>) {
    forall i, j | 0 <= i < j < |chs| :: chs[i].band != chs[j].band || chs[i].num != chs[j].num
  }

  predicate ValidSet(chs: seq<Channel>) {
    Unique(chs) && forall i | 0 <= i < |chs| :: IsChannel(chs[i].band, chs[i].num)
  }

  predicate ChannelRunOut(chs: seq<Channel>, band: Band, num: nat, now: int) {
    exists i | 0 <= i < |chs| :: chs[i].band == band && chs[i].num == num && RunOut(chs[i], now)
  }

  /** Is the whole block in the set and run out? */
  predicate BlockRunOut(chs: seq<Channel>, band: Band, nums: seq<nat>, now: int) {
    forall n | n in nums :: ChannelRunOut(chs, band, n, now)
  }

  function StopAll(chs: seq<Channel>, band: Band, nums: seq<nat>): (res: seq<Channel>)
    ensures |res| == |chs|
  {
    seq(|chs|, i requires 0 <= i < |chs| => if chs[i].band == band && chs[i].num in nums then chs[i].(nopEnd := STOPPED) else chs[i])
  }

  /** The 5 GHz block of width `bw` around a channel. */
  function BlockAround(num: nat, bw: Width): nat {
    var o := OffsetOf(Band5, num, bw, NoExt);
    Center5(num, bw, if o.AnOffset? then o.offset else NoExt)
  }

  /** Index of the channel, or |chs| when it is missing: the search of core/rtw_chset.c including disabled channels. */
  method SearchChannel(chs: seq<Channel>, band: Band, num: nat) returns (idx: nat)
    ensures idx <= |chs|
    ensures idx < |chs| ==> chs[idx].band == band && chs[idx].num == num && num != 0
    ensures idx == |chs| && num != 0 ==> !Has(chs, band, num)
  {
    idx := 0;
    if num == 0 {
      idx := |chs|;
      return;
    }
    while idx < |chs|
      invariant 0 <= idx <= |chs|
      invariant forall j | 0 <= j < idx :: chs[j].band != band || chs[j].num != num
    {
      if chs[idx].band == band && chs[idx].num == num {
        return;
      }
      idx := idx + 1;
    }
  }

  lemma CenterChannelsNonZero(band: Band, cch: nat, bw: Width)
    requires IsCenter(band, cch, bw)
    ensures forall k | 0 <= k < |OpChannels(band, cch, bw)| :: OpChannels(band, cch, bw)[k] != 0
    ensures forall k, l | 0 <= k < l < |OpChannels(band, cch, bw)| :: OpChannels(band, cch, bw)[k] != OpChannels(band, cch, bw)[l]
  {
  }

  /** A member of the block that is missing or has not run out decides. */
  lemma MemberDecides(chs: seq<Channel>, band: Band, nums: seq<nat>, k: nat, idx: nat, now: int)
    requires Unique(chs) && k < |nums| && idx <= |chs|
    requires if idx == |chs| then !Has(chs, band, nums[k])
             else chs[idx].band == band && chs[idx].num == nums[k] && !RunOut(chs[idx], now)
    ensures !BlockRunOut(chs, band, nums, now)
  {
    assert nums[k] in nums && !ChannelRunOut(chs, band, nums[k], now);
  }

  method IsBlockRunOut(chs: seq<Channel>, band: Band, nums: seq<nat>, now: int) returns (all: bool)
    requires Unique(chs) && 0 !in nums
    ensures all == BlockRunOut(chs, band, nums, now)
  {
    var i := 0;
    while i < |nums|
      invariant 0 <= i <= |nums|
      invariant BlockRunOut(chs, band, nums[..i], now)
    {
      var idx := SearchChannel(chs, band, nums[i]);
      assert nums[i] in nums;
      if idx == |chs| || chs[idx].NonOcpStopped() || chs[idx].NonOcp(now) {
        MemberDecides(chs, band, nums, i, idx, now);
        return false;
      }
      assert nums[..i + 1] == nums[..i] + [nums[i]];
      i := i + 1;
    }
    assert nums[..i] == nums;
    return true;
  }

  method StopBlock(ctl: RfCtl, band: Band, nums: seq<nat>)
    requires Unique(ctl.chs) && 0 !in nums && forall k | 0 <= k < |nums| :: Has(ctl.chs, band, nums[k])
    modifies ctl`chs
    ensures ctl.chs == StopAll(old(ctl.chs), band, nums)
  {
    ghost var was := ctl.chs;
    var i := 0;
    while i < |nums|
      invariant 0 <= i <= |nums|
      invariant ctl.chs == StopAll(was, band, nums[..i])
    {
      assert Has(was, band, nums[i]) && nums[i] in nums;
      ghost var j :| 0 <= j < |was| && was[j].band == band && was[j].num == nums[i];
      assert ctl.chs[j].band == band && ctl.chs[j].num == nums[i];
      var idx := SearchChannel(ctl.chs, band, nums[i]);
      assert was[idx].band == band && was[idx].num == nums[i];
      ctl.chs := ctl.chs[idx := ctl.chs[idx].(nopEnd := STOPPED)];
      StopOneMore(was, band, nums, i, idx);
      i := i + 1;
    }
    assert nums[..i] == nums;
  }

  lemma StopOneMore(chs: seq<Channel>, band: Band, nums: seq<nat>, k: nat, idx: nat)
    requires Unique(chs) && k < |nums| && idx < |chs| && chs[idx].band == band && chs[idx].num == nums[k]
    ensures var before := StopAll(chs, band, nums[..k]);
      before[idx := before[idx].(nopEnd := STOPPED)] == StopAll(chs, band, nums[..k + 1])
  {
    assert nums[..k + 1] == nums[..k] + [nums[k]];
  }

  /** Stops one block if all of it has run out. */
  method CheckBlock(ctl: RfCtl, band: Band, ch: nat, bw: Width, offset: Offset) returns (finished: bool)
    requires Unique(ctl.chs)
    modifies ctl`chs
    ensures var cch := Center(band, ch, bw, offset);
      finished == (IsCenter(band, cch, bw) && BlockRunOut(old(ctl.chs), band, OpChannels(band, cch, bw), ctl.now))
      && ctl.chs == if finished then StopAll(old(ctl.chs), band, OpChannels(band, cch, bw)) else old(ctl.chs)
  {
    var cch := Center(band, ch, bw, offset);
    if !IsCenter(band, cch, bw) {
      return false;
    }
    var nums := OpChannels(band, cch, bw);
    CenterChannelsNonZero(band, cch, bw);
    finished := IsBlockRunOut(ctl.chs, band, nums, ctl.now);
    if finished {
      forall k | 0 <= k < |nums| ensures Has(ctl.chs, band, nums[k]) {
        assert ChannelRunOut(ctl.chs, band, nums[k], ctl.now);
      }
      StopBlock(ctl, band, nums);
    }
  }

  // ----- the sweep over all widths

  /** The sweep only stops channels that had run out. */
  ghost predicate OnlyStops(was: seq<Channel>, chs: seq<Channel>, now: int) {
    |chs| == |was|
    && forall i | 0 <= i < |chs| :: chs[i] == was[i] || (RunOut(was[i], now) && chs[i] == was[i].(nopEnd := STOPPED))
  }

  /** The stopped channels are those of the reports. */
  ghost predicate Accounted(was: seq<Channel>, chs: seq<Channel>, now: int, reports: seq<Report>)
    requires |was| == |chs|
  {
    forall i | 0 <= i < |chs| :: RunOut(was[i], now) && chs[i].NonOcpStopped() <==> exists r | r in reports :: Covers(r, was[i])
  }

  /** No channel is reported twice. */
  ghost predicate Disjoint(was: seq<Channel>, reports: seq<Report>) {
    forall a, b, i | 0 <= a < b < |reports| && 0 <= i < |was| :: !Covers(reports[a], was[i]) || !Covers(reports[b], was[i])
  }

  /** Every channel of a reported block is in the set and had run out. */
  ghost predicate Whole(was: seq<Channel>, now: int, reports: seq<Report>) {
    forall r | r in reports :: IsCenter(r.band, r.cch, r.bw) && BlockRunOut(was, r.band, OpChannels(r.band, r.cch, r.bw), now)
  }

  ghost predicate Progress(was: seq<Channel>, chs: seq<Channel>, now: int, reports: seq<Report>) {
    OnlyStops(was, chs, now) && Accounted(was, chs, now, reports) && Disjoint(was, reports) && Whole(was, now, reports)
  }

  /** Does a 5 GHz block of this width exist around channel `i`, and has all of it run out? */
  predicate BlockAroundRunOut(chs: seq<Channel>, i: nat, bw: Width, now: int)
    requires i < |chs|
  {
    chs[i].band == Band5 && IsCenter(Band5, BlockAround(chs[i].num, bw), bw)
    && BlockRunOut(chs, Band5, OpChannels(Band5, BlockAround(chs[i].num, bw), bw), now)
  }

  /** A block that had run out completely is finished once its width has been swept. */
  ghost predicate WidthSwept(was: seq<Channel>, chs: seq<Channel>, now: int, bw: Width, upTo: nat)
    requires |was| == |chs|
  {
    forall i | 0 <= i < |was| && i < upTo && BlockAroundRunOut(was, i, bw, now) :: chs[i].NonOcpStopped()
  }

  /** No channel is reported in a block narrower than one that had run out around it. */
  ghost predicate Widest(was: seq<Channel>, now: int, reports: seq<Report>) {
    forall r, i, bw: Width | r in reports && 0 <= i < |was| && Covers(r, was[i]) && r.bw < bw :: !BlockAroundRunOut(was, i, bw, now)
  }

  /** 5 GHz blocks nest: a wider block that shares a channel with a narrower one contains it. */
  lemma BlocksNest(cch: nat, bw: Width, wide: nat, wideBw: Width, shared: nat, num: nat)
    requires IsCenter(Band5, cch, bw) && IsCenter(Band5, wide, wideBw) && bw <= wideBw
    requires shared in OpChannels(Band5, cch, bw) && shared in OpChannels(Band5, wide, wideBw)
    requires num in OpChannels(Band5, cch, bw)
    ensures num in OpChannels(Band5, wide, wideBw)
  {
    match bw
    case 0 =>
    case 1 => PairsNest(cch, wide, wideBw, shared);
    case 2 => QuadsNest(cch, wide, wideBw, shared);
    case 3 => OctsNest(cch, wide, shared);
  }

  lemma OctsNest(cch: nat, wide: nat, shared: nat)
    requires IsCenter(Band5, cch, 3) && IsCenter(Band5, wide, 3)
    requires shared in OpChannels(Band5, cch, 3) && shared in OpChannels(Band5, wide, 3)
    ensures cch == wide
  {
    assert cch - 14 <= shared <= cch + 14 && wide - 14 <= shared <= wide + 14;
  }

  lemma QuadsNest(cch: nat, wide: nat, wideBw: Width, shared: nat)
    requires IsCenter(Band5, cch, 2) && IsCenter(Band5, wide, wideBw) && 2 <= wideBw
    requires shared in OpChannels(Band5, cch, 2) && shared in OpChannels(Band5, wide, wideBw)
    ensures (wideBw == 2 && cch == wide) || (wideBw == 3 && cch in {wide - 8, wide + 8})
  {
    assert cch - 6 <= shared <= cch + 6 by { SpanOf(cch, 2, shared); }
    assert wide - 14 <= shared <= wide + 14 && (wideBw == 2 ==> wide - 6 <= shared <= wide + 6) by { SpanOf(wide, wideBw, shared); }
    hide OpChannels;
  }

  lemma SpanOf(cch: nat, bw: Width, ch: nat)
    requires IsCenter(Band5, cch, bw) && bw >= 2 && ch in OpChannels(Band5, cch, bw)
    ensures cch - 14 <= ch <= cch + 14 && (bw == 2 ==> cch - 6 <= ch <= cch + 6)
  {
  }

  lemma PairsNest(cch: nat, wide: nat, wideBw: Width, shared: nat)
    requires IsCenter(Band5, cch, 1) && IsCenter(Band5, wide, wideBw) && 1 <= wideBw
    requires shared in [cch - 2, cch + 2] && shared in OpChannels(Band5, wide, wideBw)
    ensures cch - 2 in OpChannels(Band5, wide, wideBw) && cch + 2 in OpChannels(Band5, wide, wideBw)
  {
    match wideBw
    case 1 =>
    case 2 =>
    case 3 =>
  }

  lemma BlockAroundHolds(num: nat, bw: Width)
    requires IsChannel(Band5, num) && IsCenter(Band5, BlockAround(num, bw), bw)
    ensures num in OpChannels(Band5, BlockAround(num, bw), bw)
  {
    BlockHoldsItsChannel(Band5, num, bw, NoExt);
  }

  lemma CoveredByFinished(chs: seq<Channel>, now: int, r: Report)
    requires Unique(chs) && IsCenter(r.band, r.cch, r.bw) && BlockRunOut(chs, r.band, OpChannels(r.band, r.cch, r.bw), now)
    ensures forall i | 0 <= i < |chs| && Covers(r, chs[i]) :: RunOut(chs[i], now)
  {
    forall i | 0 <= i < |chs| && Covers(r, chs[i]) ensures RunOut(chs[i], now) {
      assert ChannelRunOut(chs, r.band, chs[i].num, now);
    }
  }

  lemma FinishedBlockKeepsProgress(was: seq<Channel>, chs: seq<Channel>, now: int, reports: seq<Report>, r: Report)
    requires Progress(was, chs, now, reports) && IsCenter(r.band, r.cch, r.bw)
    requires BlockRunOut(chs, r.band, OpChannels(r.band, r.cch, r.bw), now) && Unique(chs)
    ensures Progress(was, StopAll(chs, r.band, OpChannels(r.band, r.cch, r.bw)), now, reports + [r])
  {
    var nums := OpChannels(r.band, r.cch, r.bw);
    var res := StopAll(chs, r.band, nums);
    CoveredByFinished(chs, now, r);
    forall i | 0 <= i < |was|
      ensures RunOut(was[i], now) && res[i].NonOcpStopped() <==> exists q | q in reports + [r] :: Covers(q, was[i])
    {
      if Covers(r, was[i]) {
        assert Covers(r, chs[i]) && r in reports + [r];
      } else if exists q | q in reports :: Covers(q, was[i]) {
        var q :| q in reports && Covers(q, was[i]);
        assert q in reports + [r];
      }
    }
    NewReportIsDisjoint(was, chs, now, reports, r);
    NewReportIsWhole(was, chs, now, reports, r);
  }

  lemma NewReportIsDisjoint(was: seq<Channel>, chs: seq<Channel>, now: int, reports: seq<Report>, r: Report)
    requires Progress(was, chs, now, reports) && forall i | 0 <= i < |chs| && Covers(r, chs[i]) :: RunOut(chs[i], now)
    ensures Disjoint(was, reports + [r])
  {
    forall a, i | 0 <= a < |reports| && 0 <= i < |was| && Covers(r, was[i]) ensures !Covers(reports[a], was[i]) {
      assert Covers(r, chs[i]);
      assert reports[a] in reports;
    }
  }

  lemma NewReportIsWhole(was: seq<Channel>, chs: seq<Channel>, now: int, reports: seq<Report>, r: Report)
    requires Progress(was, chs, now, reports) && IsCenter(r.band, r.cch, r.bw)
    requires BlockRunOut(chs, r.band, OpChannels(r.band, r.cch, r.bw), now)
    ensures Whole(was, now, reports + [r])
  {
    forall n | n in OpChannels(r.band, r.cch, r.bw) ensures ChannelRunOut(was, r.band, n, now) {
      assert ChannelRunOut(chs, r.band, n, now);
      var i :| 0 <= i < |chs| && chs[i].band == r.band && chs[i].num == n && RunOut(chs[i], now);
      assert RunOut(was[i], now);
    }
  }

  /** With all wider blocks swept, a report that finishes now is as wide as possible. */
  lemma NewReportIsWidest(was: seq<Channel>, chs: seq<Channel>, now: int, reports: seq<Report>, r: Report)
    requires OnlyStops(was, chs, now) && Widest(was, now, reports)
    requires forall i | 0 <= i < |chs| && Covers(r, chs[i]) :: RunOut(chs[i], now)
    requires forall w: Width | w > r.bw :: WidthSwept(was, chs, now, w, |was|)
    ensures Widest(was, now, reports + [r])
  {
    forall i, w: Width | 0 <= i < |was| && Covers(r, was[i]) && r.bw < w ensures !BlockAroundRunOut(was, i, w, now) {
      assert WidthSwept(was, chs, now, w, |was|);
      assert Covers(r, chs[i]);
    }
  }

  lemma StoppingKeepsSwept(was: seq<Channel>, chs: seq<Channel>, now: int, bw: Width, upTo: nat, band: Band, nums: seq<nat>)
    requires |was| == |chs| && WidthSwept(was, chs, now, bw, upTo)
    ensures WidthSwept(was, StopAll(chs, band, nums), now, bw, upTo)
  {
  }

  /** A block that had run out but cannot be finished any more has a channel in an earlier report, which then
      covers all of it. */
  lemma BlockedMeansReported(was: seq<Channel>, chs: seq<Channel>, now: int, reports: seq<Report>, bw: Width, i: nat)
    requires Progress(was, chs, now, reports) && ValidSet(was) && i < |was|
    requires forall r | r in reports :: r.bw >= bw
    requires BlockAroundRunOut(was, i, bw, now) && !BlockAroundRunOut(chs, i, bw, now)
    ensures chs[i].NonOcpStopped()
  {
    var b := BlockAround(was[i].num, bw);
    BlockAroundHolds(was[i].num, bw);
    var n :| n in OpChannels(Band5, b, bw) && !ChannelRunOut(chs, Band5, n, now);
    assert ChannelRunOut(was, Band5, n, now);
    var j :| 0 <= j < |was| && was[j].band == Band5 && was[j].num == n && RunOut(was[j], now);
    assert !RunOut(chs[j], now);
    var f :| f in reports && Covers(f, was[j]);
    BlocksNest(b, bw, f.cch, f.bw, n, was[i].num);
    assert Covers(f, was[i]);
  }

  /** The state of the sweep before channel `i` of width `bw`. */
  ghost predicate Sweeping(was: seq<Channel>, chs: seq<Channel>, now: int, reports: seq<Report>, bw: Width, i: nat) {
    Progress(was, chs, now, reports) && Widest(was, now, reports)
    && (forall r | r in reports :: r.bw >= bw)
    && (forall w: Width | w > bw :: WidthSwept(was, chs, now, w, |was|))
    && WidthSwept(was, chs, now, bw, i)
    && (bw == 0 ==> forall k | 0 <= k < i && k < |chs| :: !RunOut(chs[k], now))
  }

  lemma ReportKeepsSwept(was: seq<Channel>, chs: seq<Channel>, now: int, bw: Width, i: nat, band: Band, nums: seq<nat>)
    requires |was| == |chs| && i < |chs| && chs[i].band == band && chs[i].num in nums
    requires (forall w: Width | w > bw :: WidthSwept(was, chs, now, w, |was|)) && WidthSwept(was, chs, now, bw, i)
    ensures var res := StopAll(chs, band, nums);
      (forall w: Width | w > bw :: WidthSwept(was, res, now, w, |was|)) && WidthSwept(was, res, now, bw, i + 1)
  {
    StoppingKeepsSwept(was, chs, now, bw, i, band, nums);
    forall w: Width | w > bw ensures WidthSwept(was, StopAll(chs, band, nums), now, w, |was|) {
      assert WidthSwept(was, chs, now, w, |was|);
      StoppingKeepsSwept(was, chs, now, w, |was|, band, nums);
    }
  }

  lemma ReportAdvances(was: seq<Channel>, chs: seq<Channel>, now: int, reports: seq<Report>, bw: Width, i: nat, r: Report)
    requires ValidSet(was) && Sweeping(was, chs, now, reports, bw, i) && i < |chs|
    requires r.bw == bw && IsCenter(r.band, r.cch, bw) && BlockRunOut(chs, r.band, OpChannels(r.band, r.cch, bw), now)
    requires Covers(r, chs[i])
    ensures Sweeping(was, StopAll(chs, r.band, OpChannels(r.band, r.cch, bw)), now, reports + [r], bw, i + 1)
  {
    CoveredByFinished(chs, now, r);
    FinishedBlockKeepsProgress(was, chs, now, reports, r);
    NewReportIsWidest(was, chs, now, reports, r);
    ReportKeepsSwept(was, chs, now, bw, i, r.band, OpChannels(r.band, r.cch, bw));
  }

  /** Nothing to report: the channel is stopped already, its block does not exist, or part of it is not run out. */
  lemma SkipAdvances(was: seq<Channel>, chs: seq<Channel>, now: int, reports: seq<Report>, bw: Width, i: nat)
    requires ValidSet(was) && Sweeping(was, chs, now, reports, bw, i) && i < |chs|
    requires chs[i].NonOcpStopped() || (!BlockAroundRunOut(chs, i, bw, now) && (bw == 0 ==> chs[i].NonOcp(now)))
    ensures Sweeping(was, chs, now, reports, bw, i + 1)
  {
    if BlockAroundRunOut(was, i, bw, now) && !chs[i].NonOcpStopped() {
      BlockedMeansReported(was, chs, now, reports, bw, i);
    }
  }

  lemma SingleRunOut(chs: seq<Channel>, i: nat, now: int)
    requires ValidSet(chs) && i < |chs|
    ensures BlockRunOut(chs, chs[i].band, [chs[i].num], now) <==> RunOut(chs[i], now)
  {
    assert ChannelRunOut(chs, chs[i].band, chs[i].num, now) <==> RunOut(chs[i], now);
    assert chs[i].num in [chs[i].num];
  }

  /** The body of the inner loop. */
  method SweepChannel(ctl: RfCtl, bw: Width, i: nat, offset0: Offset, reports0: seq<Report>, ghost was: seq<Channel>)
    returns (offset: Offset, reports: seq<Report>)
    requires ValidSet(was) && Sweeping(was, ctl.chs, ctl.now, reports0, bw, i) && i < |ctl.chs|
    modifies ctl`chs
    ensures Sweeping(was, ctl.chs, ctl.now, reports, bw, i + 1)
  {
    offset, reports := offset0, reports0;
    ghost var chs := ctl.chs;
    var c := ctl.chs[i];
    if c.NonOcpStopped() {
      SkipAdvances(was, chs, ctl.now, reports, bw, i);
      return;
    }
    var o := OffsetOf(c.band, c.num, bw, offset);
    if o.NoOffset? {
      SkipAdvances(was, chs, ctl.now, reports, bw, i);
      return;
    }
    offset := o.offset;
    BlockHoldsItsChannel(c.band, c.num, bw, offset0);
    SingleRunOut(chs, i, ctl.now);
    var finished := CheckBlock(ctl, c.band, c.num, bw, offset);
    if finished {
      var r := Report(c.band, Center(c.band, c.num, bw, offset), bw);
      ReportAdvances(was, chs, ctl.now, reports, bw, i, r);
      reports := reports + [r];
    } else {
      SkipAdvances(was, chs, ctl.now, reports, bw, i);
    }
  }

  /** One sweep from 160 MHz down to 20 MHz. The offset of a 2.4 GHz channel depends on what the variable held
      before, which starts undetermined. */
  method CheckFinish(ctl: RfCtl, offset0: Offset) returns (reports: seq<Report>)
    requires ValidSet(ctl.chs)
    modifies ctl`chs
    ensures ctl.chs == Swept(old(ctl.chs), ctl.now)
    ensures Progress(old(ctl.chs), ctl.chs, ctl.now, reports) && Widest(old(ctl.chs), ctl.now, reports)
  {
    ghost var was := ctl.chs;
    reports := [];
    var offset := offset0;
    var bw: Width := 3;
    while true
      invariant Sweeping(was, ctl.chs, ctl.now, reports, bw, 0)
      decreases bw
    {
      var i := 0;
      while i < |ctl.chs|
        invariant 0 <= i <= |ctl.chs| == |was|
        invariant Sweeping(was, ctl.chs, ctl.now, reports, bw, i)
      {
        offset, reports := SweepChannel(ctl, bw, i, offset, reports, was);
        i := i + 1;
      }
      if bw == 0 {
        break;
      }
      bw := bw - 1;
    }
  }
}
