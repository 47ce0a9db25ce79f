/** The DFS master (core/rtw_dfs.c, core/rtw_dfs.h): when may an access point transmit on a radar channel?
    One hardware band; time is counted in ms and does not wrap. */
module Dfs {
  import opened Rf

  const CAC_TIME_MS := 60 * 1000
  const CAC_TIME_CE_MS := 10 * 60 * 1000
  const NON_OCP_TIME_MS := 30 * 60 * 1000
  const RD_CONFIG_INT_MS := 2000
  const STOPPED := 0 // special value of every time stamp

  datatype Flag = Dis | NoIr | DfsFlag | NoHt40U | NoHt40L | No80 | No160

  datatype Channel = Channel(band: Band, num: nat, flags: set<Flag>, nopEnd: int) {
    predicate NonOcpStopped() {
      nopEnd == STOPPED
    }

    predicate NonOcp(now: int) {
      !NonOcpStopped() && nopEnd > now
    }
  }

  /** The set has the channel, enabled or not. */
  predicate Has(chs: seq<Channel>, band: Band, num: nat) {
    exists i | 0 <= i < |chs| :: chs[i].band == band && chs[i].num == num
  }

  /** `rdCh` is 0 when no detection range is remembered. */
  datatype State = State(now: int, etsi: bool, chs: seq<Channel>, enabled: bool, detected: bool,
                         rdCh: nat, rdBw: Width, rdOffset: Offset, cacStart: int, cacEnd: int)
  {
    predicate CacStopped() {
      cacEnd == STOPPED
    }

    predicate Waiting() {
      !CacStopped() && cacEnd > now
    }

    predicate UnderCac() {
      Waiting() && now > cacStart
    }

    function RdRange(): Range {
      BlockRange(Band5, rdCh, rdBw, rdOffset)
    }
  }

  // ----- what the loops over the channel set compute

  predicate DfsBetween(c: Channel, r: Range) {
    DfsFlag in c.flags && c.band == BandOfFrequency(r.hi) && ChannelOfFrequency(r.hi) > c.num && ChannelOfFrequency(r.lo) < c.num
  }

  predicate IsDfsRange(chs: seq<Channel>, r: Range) {
    exists i | 0 <= i < |chs| :: DfsBetween(chs[i], r)
  }

  predicate IsDfsBlock(chs: seq<Channel>, band: Band, ch: nat, bw: Width, offset: Offset) {
    Frequency(band, Center(band, ch, bw, offset)) != 0 && IsDfsRange(chs, BlockRange(band, ch, bw, offset))
  }

  predicate TouchedBy(c: Channel, band: Band, r: Range) {
    c.band == band && Frequency(band, c.num) != 0 && r.lo <= Frequency(band, c.num) <= r.hi
  }

  predicate HasNonOcp(chs: seq<Channel>, band: Band, r: Range, now: int) {
    exists i | 0 <= i < |chs| :: chs[i].NonOcp(now) && TouchedBy(chs[i], band, r)
  }

  /** Longest remaining non-occupancy of the touched channels. */
  function NonOcpMs(chs: seq<Channel>, band: Band, r: Range, now: int): (ms: nat)
    ensures forall i | 0 <= i < |chs| && chs[i].NonOcp(now) && TouchedBy(chs[i], band, r) :: chs[i].nopEnd - now <= ms
    ensures ms > 0 ==> exists i | 0 <= i < |chs| :: chs[i].NonOcp(now) && TouchedBy(chs[i], band, r) && chs[i].nopEnd - now == ms
  {
    if |chs| == 0 then 0
    else
      var c := chs[|chs| - 1];
      var rest := NonOcpMs(chs[..|chs| - 1], band, r, now);
      if c.NonOcp(now) && TouchedBy(c, band, r) && c.nopEnd - now > rest then c.nopEnd - now else rest
  }

  function SkipStopped(t: int): int {
    if t == STOPPED then t + 1 else t
  }

  /** A radar report stamps every touched channel. */
  function Stamped(chs: seq<Channel>, r: Range, now: int): (res: seq<Channel>)
    ensures |res| == |chs|
  {
    var band := BandOfFrequency(r.hi);
    seq(|chs|, i requires 0 <= i < |chs| =>
      if TouchedBy(chs[i], band, r) then chs[i].(nopEnd := SkipStopped(now + NON_OCP_TIME_MS)) else chs[i])
  }

  /** What the watchdog sweep leaves: run-out stamps are stopped, the others stay. */
  function Swept(chs: seq<Channel>, now: int): (res: seq<Channel>)
    ensures |res| == |chs|
  {
    seq(|chs|, i requires 0 <= i < |chs| => if chs[i].NonOcp(now) then chs[i] else chs[i].(nopEnd := STOPPED))
  }

  // ----- the operations as functions of the state

  predicate IsLongCacBlock(etsi: bool, band: Band, ch: nat, bw: Width, offset: Offset) {
    Frequency(band, Center(band, ch, bw, offset)) != 0 && etsi && Overlaps(BlockRange(band, ch, bw, offset), Range(5650, 5600))
  }

  /** Remaining non-occupancy and check time before the block may be used. */
  function WaitingMs(s: State, band: Band, ch: nat, bw: Width, offset: Offset): (nat, nat) {
    var r := BlockRange(band, ch, bw, offset);
    var nonOcp := if HasNonOcp(s.chs, band, r, s.now) then NonOcpMs(s.chs, band, r, s.now) else 0;
    var inRdRange := s.enabled && Within(r, s.RdRange());
    var cac :=
      if !IsDfsBlock(s.chs, band, ch, bw, offset) then 0
      else if inRdRange && nonOcp == 0 then (if s.Waiting() then s.cacEnd - s.now else 0)
      else if IsLongCacBlock(s.etsi, band, ch, bw, offset) then CAC_TIME_CE_MS
      else CAC_TIME_MS;
    (nonOcp, cac)
  }

  predicate CacResetNeeded(s: State, ch: nat, bw: Width, offset: Offset) {
    s.detected || s.rdCh == 0 ||
    var req, cur := BlockRange(Band5, ch, bw, offset), s.RdRange();
    if Within(req, cur) then false
    else if !Overlaps(req, cur) then true
    else if Within(cur, req) then
      (req.hi != cur.hi && IsDfsRange(s.chs, Range(req.hi, cur.hi))) || (req.lo != cur.lo && IsDfsRange(s.chs, Range(cur.lo, req.lo)))
    else
      (req.lo < cur.lo && IsDfsRange(s.chs, Range(cur.lo, req.lo))) || (req.hi > cur.hi && IsDfsRange(s.chs, Range(req.hi, cur.hi)))
  }

  function ResetCac(s: State, ch: nat, bw: Width, offset: Offset): (t: State)
    ensures t == s.(cacStart := t.cacStart, cacEnd := t.cacEnd) && s.now <= t.cacStart <= t.cacEnd
  {
    var (nonOcp, cac) := WaitingMs(s, Band5, ch, bw, offset);
    var ready := if nonOcp < RD_CONFIG_INT_MS then RD_CONFIG_INT_MS - nonOcp else 0;
    var start, end := s.now + nonOcp, s.now + nonOcp + ready + cac;
    if start == STOPPED then s.(cacStart := start + 1, cacEnd := SkipStopped(end + 1))
    else s.(cacStart := start, cacEnd := SkipStopped(end))
  }

  function RdEnable(s: State, ch: nat, bw: Width, offset: Offset, bypassCac: bool): (t: State)
    ensures t.now == s.now && t.chs == s.chs
  {
    var t := if bypassCac then s.(cacStart := STOPPED, cacEnd := STOPPED)
             else if CacResetNeeded(s, ch, bw, offset) then ResetCac(s, ch, bw, offset)
             else s;
    t.(rdCh := ch, rdBw := bw, rdOffset := offset, detected := false, enabled := true)
  }

  function RdDisable(s: State, ch: nat, bw: Width, offset: Offset, byOthers: bool): (t: State)
    ensures t.now == s.now && t.chs == s.chs
  {
    var t := if s.enabled then s.(enabled := false, detected := false, cacStart := STOPPED, cacEnd := STOPPED) else s;
    if byOthers then t.(rdCh := ch, rdBw := bw, rdOffset := offset) else t.(rdCh := 0, rdBw := 0, rdOffset := NoExt)
  }

  /** How many interfaces of each kind are active, and how a linked station is treated. */
  datatype Roles = Roles(staLinking: nat, staLinked: nat, ap: nat, slaveWithRd: bool)

  function EnDecision(s: State, roles: Roles, band: Band, ch: nat, bw: Width, offset: Offset): (t: State)
    ensures t.now == s.now && t.chs == s.chs
  {
    var isDfs := IsDfsBlock(s.chs, band, ch, bw, offset);
    if roles.staLinking > 0 then RdDisable(s, ch, bw, offset, false)
    else if roles.staLinked > 0 then
      if isDfs && roles.slaveWithRd then RdEnable(s, ch, bw, offset, true) else RdDisable(s, ch, bw, offset, isDfs)
    else if roles.ap > 0 && isDfs then RdEnable(s, ch, bw, offset, false)
    else RdDisable(s, ch, bw, offset, false)
  }

  /** One detection poll; `cch` is 0 when the hardware reports no radar. */
  function RdPoll(s: State, cch: nat, bw: Width): (t: State)
    ensures t.now == s.now && |t.chs| == |s.chs|
  {
    if !s.enabled then s
    else if !(s.Waiting() && !s.UnderCac()) && cch > 0 then
      s.(detected := true,
         chs := if Frequency(Band5, cch) == 0 then s.chs else Stamped(s.chs, CenterRange(Band5, cch, bw), s.now))
    else if !s.CacStopped() && !s.Waiting() then s.(cacStart := STOPPED, cacEnd := STOPPED)
    else s
  }

  predicate OverlapsRd(s: State, band: Band, ch: nat, bw: Width, offset: Offset) {
    band == Band5 && s.enabled
    && Frequency(band, Center(band, ch, bw, offset)) != 0 && Frequency(band, Center(band, s.rdCh, s.rdBw, s.rdOffset)) != 0
    && Overlaps(BlockRange(band, ch, bw, offset), s.RdRange())
  }

  predicate TxBlocked(s: State, band: Band, ch: nat, bw: Width, offset: Offset) {
    s.Waiting() && OverlapsRd(s, band, ch, bw, offset)
  }

  // ----- the control block and its handlers

  class RfCtl {
    var now: int
    var etsi: bool
    var chs: seq<Channel>
    var radarDetectEnabled: bool
    var radarDetected: bool
    var radarDetectCh: nat
    var radarDetectBw: Width
    var radarDetectOffset: Offset
    var cacStartTime: int
    var cacEndTime: int

    ghost function Abs(): State
      reads this
    {
      State(now, etsi, chs, radarDetectEnabled, radarDetected, radarDetectCh, radarDetectBw, radarDetectOffset, cacStartTime, cacEndTime)
    }

    constructor (now: int, etsi: bool, chs: seq<Channel>)
      ensures Abs() == State(now, etsi, chs, false, false, 0, 0, NoExt, STOPPED, STOPPED)
    {
      this.now, this.etsi, this.chs := now, etsi, chs;
      radarDetectEnabled, radarDetected := false, false;
      radarDetectCh, radarDetectBw, radarDetectOffset := 0, 0, NoExt;
      cacStartTime, cacEndTime := STOPPED, STOPPED;
    }

    method ChsetIsDfsRange(r: Range) returns (found: bool)
      ensures found == IsDfsRange(chs, r)
    {
      var band, hiCh, loCh := BandOfFrequency(r.hi), ChannelOfFrequency(r.hi), ChannelOfFrequency(r.lo);
      var i := 0;
      while i < |chs|
        invariant 0 <= i <= |chs|
        invariant forall k | 0 <= k < i :: !DfsBetween(chs[k], r)
      {
        if DfsFlag in chs[i].flags && band == chs[i].band && hiCh > chs[i].num && loCh < chs[i].num {
          assert DfsBetween(chs[i], r);
          return true;
        }
        i := i + 1;
      }
      return false;
    }

    method ChsetIsDfsBlock(band: Band, ch: nat, bw: Width, offset: Offset) returns (found: bool)
      ensures found == IsDfsBlock(chs, band, ch, bw, offset)
    {
      if Frequency(band, Center(band, ch, bw, offset)) == 0 {
        return false;
      }
      found := ChsetIsDfsRange(BlockRange(band, ch, bw, offset));
    }

    method ChsetIsNonOcp(band: Band, r: Range) returns (found: bool)
      ensures found == HasNonOcp(chs, band, r, now)
    {
      var i := 0;
      while i < |chs|
        invariant 0 <= i <= |chs|
        invariant forall k | 0 <= k < i :: !(chs[k].NonOcp(now) && TouchedBy(chs[k], band, r))
      {
        if chs[i].NonOcp(now) && TouchedBy(chs[i], band, r) {
          return true;
        }
        i := i + 1;
      }
      return false;
    }

    method ChsetGetNonOcpMs(band: Band, r: Range) returns (ms: nat)
      ensures ms == NonOcpMs(chs, band, r, now)
    {
      ms := 0;
      var i := 0;
      while i < |chs|
        invariant 0 <= i <= |chs|
        invariant ms == NonOcpMs(chs[..i], band, r, now)
      {
        assert chs[..i + 1][..i] == chs[..i];
        if chs[i].NonOcp(now) && TouchedBy(chs[i], band, r) && chs[i].nopEnd - now > ms {
          ms := chs[i].nopEnd - now;
        }
        i := i + 1;
      }
      assert chs[..|chs|] == chs;
    }

    method ChsetUpdateNonOcp(r: Range)
      modifies this`chs
      ensures chs == Stamped(old(chs), r, now)
    {
      var band := BandOfFrequency(r.hi);
      var i := 0;
      while i < |chs|
        invariant 0 <= i <= |chs| == |old(chs)|
        invariant forall k | 0 <= k < i :: chs[k] == Stamped(old(chs), r, now)[k]
        invariant forall k | i <= k < |chs| :: chs[k] == old(chs)[k]
      {
        if TouchedBy(chs[i], band, r) {
          var end := now + NON_OCP_TIME_MS;
          if end == STOPPED {
            end := end + 1;
          }
          chs := chs[i := chs[i].(nopEnd := end)];
        }
        i := i + 1;
      }
    }

    method GetChWaitingMs(band: Band, ch: nat, bw: Width, offset: Offset) returns (nonOcp: nat, cac: nat)
      ensures (nonOcp, cac) == WaitingMs(Abs(), band, ch, bw, offset)
    {
      var r := BlockRange(band, ch, bw, offset);
      var has := ChsetIsNonOcp(band, r);
      nonOcp := 0;
      if has {
        nonOcp := ChsetGetNonOcpMs(band, r);
      }
      var inRdRange := radarDetectEnabled && Within(r, BlockRange(Band5, radarDetectCh, radarDetectBw, radarDetectOffset));
      var isDfs := ChsetIsDfsBlock(band, ch, bw, offset);
      if !isDfs {
        cac := 0;
      } else if inRdRange && nonOcp == 0 {
        cac := if cacEndTime != STOPPED && cacEndTime > now then cacEndTime - now else 0;
      } else if IsLongCacBlock(etsi, band, ch, bw, offset) {
        cac := CAC_TIME_CE_MS;
      } else {
        cac := CAC_TIME_MS;
      }
    }

    method IsCacResetNeeded(ch: nat, bw: Width, offset: Offset) returns (needed: bool)
      ensures needed == CacResetNeeded(Abs(), ch, bw, offset)
    {
      if radarDetected || radarDetectCh == 0 {
        return true;
      }
      var req, cur := BlockRange(Band5, ch, bw, offset), BlockRange(Band5, radarDetectCh, radarDetectBw, radarDetectOffset);
      if Within(req, cur) {
        return false;
      }
      if !Overlaps(req, cur) {
        return true;
      }
      var above := ChsetIsDfsRange(Range(req.hi, cur.hi));
      var below := ChsetIsDfsRange(Range(cur.lo, req.lo));
      if Within(cur, req) {
        needed := (req.hi != cur.hi && above) || (req.lo != cur.lo && below);
      } else {
        needed := (req.lo < cur.lo && below) || (req.hi > cur.hi && above);
      }
    }

    method ResetCacTimes(ch: nat, bw: Width, offset: Offset)
      modifies this`cacStartTime, this`cacEndTime
      ensures Abs() == ResetCac(old(Abs()), ch, bw, offset)
    {
      var nonOcp, cac := GetChWaitingMs(Band5, ch, bw, offset);
      var ready := 0;
      if nonOcp < RD_CONFIG_INT_MS {
        ready := RD_CONFIG_INT_MS - nonOcp;
      }
      cacStartTime := now + nonOcp;
      cacEndTime := cacStartTime + ready + cac;
      if cacStartTime == STOPPED {
        cacStartTime := cacStartTime + 1;
        cacEndTime := cacEndTime + 1;
      }
      if cacEndTime == STOPPED {
        cacEndTime := cacEndTime + 1;
      }
    }

    method Enable(ch: nat, bw: Width, offset: Offset, bypassCac: bool)
      modifies this
      ensures Abs() == RdEnable(old(Abs()), ch, bw, offset, bypassCac)
    {
      if bypassCac {
        cacStartTime, cacEndTime := STOPPED, STOPPED;
      } else {
        var needed := IsCacResetNeeded(ch, bw, offset);
        if needed {
          ResetCacTimes(ch, bw, offset);
        }
      }
      radarDetectCh, radarDetectBw, radarDetectOffset := ch, bw, offset;
      radarDetected := false;
      if !radarDetectEnabled {
        radarDetectEnabled := true;
      }
    }

    method Disable(ch: nat, bw: Width, offset: Offset, byOthers: bool)
      modifies this
      ensures Abs() == RdDisable(old(Abs()), ch, bw, offset, byOthers)
    {
      if radarDetectEnabled {
        radarDetectEnabled, radarDetected := false, false;
        cacStartTime, cacEndTime := STOPPED, STOPPED;
      }
      if byOthers {
        radarDetectCh, radarDetectBw, radarDetectOffset := ch, bw, offset;
      } else {
        radarDetectCh, radarDetectBw, radarDetectOffset := 0, 0, NoExt;
      }
    }

    method Decide(roles: Roles, band: Band, ch: nat, bw: Width, offset: Offset)
      modifies this
      ensures Abs() == EnDecision(old(Abs()), roles, band, ch, bw, offset)
    {
      var isDfs := ChsetIsDfsBlock(band, ch, bw, offset);
      var needed, linkedInDfs := false, false;
      if roles.staLinking > 0 {
      } else if roles.staLinked > 0 {
        if isDfs {
          needed := roles.slaveWithRd;
          linkedInDfs := true;
        }
      } else if roles.ap > 0 {
        needed := isDfs;
      }
      if needed {
        Enable(ch, bw, offset, linkedInDfs);
      } else {
        Disable(ch, bw, offset, linkedInDfs);
      }
    }

    method Poll(cch: nat, bw: Width)
      modifies this
      ensures Abs() == RdPoll(old(Abs()), cch, bw)
    {
      if !radarDetectEnabled {
        return;
      }
      var waiting := cacEndTime != STOPPED && cacEndTime > now;
      if !(waiting && !(now > cacStartTime)) && cch > 0 {
        radarDetected := true;
        if Frequency(Band5, cch) != 0 {
          ChsetUpdateNonOcp(CenterRange(Band5, cch, bw));
        }
        return;
      }
      if cacEndTime != STOPPED && !waiting {
        cacStartTime, cacEndTime := STOPPED, STOPPED;
      }
    }

    method IsTxBlocked(band: Band, ch: nat, bw: Width, offset: Offset) returns (blocked: bool)
      ensures blocked == TxBlocked(Abs(), band, ch, bw, offset)
    {
      blocked := false;
      if cacEndTime != STOPPED && cacEndTime > now {
        if band != Band5 || !radarDetectEnabled {
          return false;
        }
        if Frequency(band, Center(band, ch, bw, offset)) == 0
          || Frequency(band, Center(band, radarDetectCh, radarDetectBw, radarDetectOffset)) == 0 {
          return false;
        }
        blocked := Overlaps(BlockRange(band, ch, bw, offset), BlockRange(band, radarDetectCh, radarDetectBw, radarDetectOffset));
      }
    }
  }
}
