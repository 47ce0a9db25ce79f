/** Which channels and widths may be chosen, told from the flags of the channels (core/rtw_dfs.c, core/rtw_chset.c). */
module ChooserMeaning {
  import opened Rf
  import opened Dfs
  import opened Chooser
  import opened DfsSafety
  import opened DfsMeaning

  /** The 5 GHz channel next to it with which it forms a 40 MHz block lies above. */
  predicate PairsUp(num: nat) {
    if num <= 144 then num % 8 == 4 else num % 8 == 5
  }

  /** Channel `c` may be part of a block of width `bw` (0 to 3 for 20 to 160 MHz): it is enabled, it is not passive unless
      that is allowed, and it forbids neither the width nor the side its 40 MHz partner is on. */
  predicate MayJoin(c: Channel, primary: bool, up: bool, bw: Width, allowPrimaryPassive: bool, allowPassive: bool) {
    Flag.Dis !in c.flags
    && (NoIr in c.flags ==> allowPassive && (primary ==> allowPrimaryPassive))
    && (bw >= 1 && up ==> NoHt40U !in c.flags) && (bw >= 1 && !up ==> NoHt40L !in c.flags)
    && (bw >= 2 ==> No80 !in c.flags) && (bw == 3 ==> No160 !in c.flags)
  }

  predicate HasJoiner(chs: seq<Channel>, band: Band, num: nat, primary: bool, up: bool, bw: Width, app: bool, ap: bool) {
    exists i :: 0 <= i < |chs| && chs[i].band == band && chs[i].num == num && MayJoin(chs[i], primary, up, bw, app, ap)
  }

  /** A 5 GHz block is valid exactly when it is a block of the tables and every 20 MHz channel inside it is in the set
      and may be part of it. */
  lemma ValidBlock5(chs: seq<Channel>, ch: nat, bw: Width, offset: Offset, app: bool, ap: bool)
    ensures BlockValid(chs, Band5, ch, bw, offset, app, ap) <==>
      IsBlock5(ch, bw, offset)
      && forall n | IsChannel(Band5, n) && BlockHas(ch, bw, offset, n) :: HasJoiner(chs, Band5, n, n == ch, PairsUp(n), bw, app, ap)
  {
    var cch := Center5(ch, bw, offset);
    if IsBlock5(ch, bw, offset) {
      var nums := OpChannels(Band5, cch, bw);
      forall k | 0 <= k < |nums|
        ensures IsChannel(Band5, nums[k]) && BlockHas(ch, bw, offset, nums[k])
        ensures MemberUsable(chs, Band5, nums[k], k, bw, ch, app, ap) <==> HasJoiner(chs, Band5, nums[k], nums[k] == ch, PairsUp(nums[k]), bw, app, ap)
      {
        PlaceInBlock(cch, bw, k);
        SameJoiner(chs, Band5, nums[k], k, PairsUp(nums[k]), bw, ch, app, ap);
      }
      forall n | IsChannel(Band5, n) && BlockHas(ch, bw, offset, n) ensures exists k :: 0 <= k < |nums| && nums[k] == n {
        var k := ListedInBlock(cch, bw, n);
      }
      hide MemberUsable, HasJoiner, OpChannels, IsCenter, BlockHas, IsChannel, PairsUp, Center5;
    }
  }

  lemma SameJoiner(chs: seq<Channel>, band: Band, num: nat, k: nat, up: bool, bw: Width, ch: nat, app: bool, ap: bool)
    requires bw >= 1 ==> (up <==> k % 2 == 0)
    ensures MemberUsable(chs, band, num, k, bw, ch, app, ap) <==> HasJoiner(chs, band, num, num == ch, up, bw, app, ap)
  {
    forall i | 0 <= i < |chs| && chs[i].num == num ensures Usable(chs[i], k, bw, ch, app, ap) <==> MayJoin(chs[i], num == ch, up, bw, app, ap) {
    }
    hide Usable, MayJoin;
  }

  lemma PlaceInBlock(cch: nat, bw: Width, k: nat)
    requires IsCenter(Band5, cch, bw) && k < |OpChannels(Band5, cch, bw)|
    ensures var n := OpChannels(Band5, cch, bw)[k];
      IsChannel(Band5, n) && Inside(Frequency(Band5, n), CenterRange(Band5, cch, bw)) && (bw >= 1 ==> (PairsUp(n) <==> k % 2 == 0))
  {
    EdgesOf(cch, bw);
    hide CenterRange;
    match bw
    case 0 =>
    case 1 =>
    case 2 => PlaceInQuad(cch, k);
    case 3 => PlaceInOct(cch, k);
  }

  lemma PlaceInQuad(cch: nat, k: nat)
    requires IsCenter(Band5, cch, 2) && k < 4
    ensures var n := OpChannels(Band5, cch, 2)[k];
      n == cch - 6 + 4 * k && IsChannel(Band5, n) && (PairsUp(n) <==> k % 2 == 0)
  {
  }

  lemma PlaceInOct(cch: nat, k: nat)
    requires IsCenter(Band5, cch, 3) && k < 8
    ensures var n := OpChannels(Band5, cch, 3)[k];
      n == cch - 14 + 4 * k && IsChannel(Band5, n) && (PairsUp(n) <==> k % 2 == 0)
  {
  }

  lemma ListedInBlock(cch: nat, bw: Width, n: nat) returns (k: nat)
    requires IsCenter(Band5, cch, bw) && IsChannel(Band5, n) && Inside(Frequency(Band5, n), CenterRange(Band5, cch, bw))
    ensures k < |OpChannels(Band5, cch, bw)| && OpChannels(Band5, cch, bw)[k] == n
  {
    EdgesOf(cch, bw);
    hide CenterRange;
    match bw
    case 0 => assert -2 < n - cch < 2; k := 0;
    case 1 => assert -4 < n - cch < 4; CenterGrid(cch, 1, n); k := (n - cch + 2) / 4;
    case 2 => assert -8 < n - cch < 8; CenterGrid(cch, 2, n); k := (n - cch + 6) / 4; PlaceInQuad(cch, k);
    case 3 => assert -16 < n - cch < 16; OctGrid(cch, n); k := (n - cch + 14) / 4; PlaceInOct(cch, k);
  }

  lemma OctGrid(cch: nat, n: nat)
    requires IsCenter(Band5, cch, 3) && IsChannel(Band5, n) && -16 < n - cch < 16
    ensures (n - cch + 14) % 4 == 0 && 0 <= n - cch + 14 <= 28
  {
  }

  /** A 2.4 GHz block is valid exactly when it has 20 MHz on an existing channel, or 40 MHz around two channels four
      apart, and its channels are in the set and may be part of it. */
  lemma ValidBlock24(chs: seq<Channel>, ch: nat, bw: Width, offset: Offset, app: bool, ap: bool)
    requires bw <= 1
    ensures BlockValid(chs, Band24, ch, bw, offset, app, ap) <==>
      if bw == 0 then 1 <= ch <= 14 && HasJoiner(chs, Band24, ch, true, true, 0, app, ap)
      else
        var lower: int := if offset == Upper then ch else if offset == Lower then ch - 4 else ch - 2;
        1 <= lower <= 9 && HasJoiner(chs, Band24, lower, lower == ch, true, 1, app, ap)
        && HasJoiner(chs, Band24, lower + 4, lower + 4 == ch, false, 1, app, ap)
  {
    hide HasJoiner, MemberUsable;
    var cch := Center24(ch, bw, offset);
    if bw == 0 {
      SameJoiner(chs, Band24, ch, 0, true, 0, ch, app, ap);
      if IsCenter(Band24, cch, bw) {
        assert OpChannels(Band24, cch, bw)[0] == cch;
      }
    } else if IsCenter(Band24, cch, bw) {
      Pair24(chs, ch, cch, app, ap);
    }
  }

  lemma Pair24(chs: seq<Channel>, ch: nat, cch: nat, app: bool, ap: bool)
    requires IsCenter(Band24, cch, 1)
    ensures (forall k | 0 <= k < 2 :: MemberUsable(chs, Band24, OpChannels(Band24, cch, 1)[k], k, 1, ch, app, ap)) <==>
      HasJoiner(chs, Band24, cch - 2, cch - 2 == ch, true, 1, app, ap) && HasJoiner(chs, Band24, cch + 2, cch + 2 == ch, false, 1, app, ap)
  {
    SameJoiner(chs, Band24, cch - 2, 0, true, 1, ch, app, ap);
    SameJoiner(chs, Band24, cch + 2, 1, false, 1, ch, app, ap);
    var nums := OpChannels(Band24, cch, 1);
    assert nums[0] == cch - 2 && nums[1] == cch + 2;
    hide HasJoiner, MemberUsable;
  }

  /** The hardware has the width, the channel is enabled, in the band and with the number asked for, and the width is
      within the limit of its band. */
  predicate FitsRequest(q: Request, c: Channel, bw: Width) {
    bw in q.halWidths && Flag.Dis !in c.flags
    && (if q.selBand == BandMax then q.withinSameBand ==> c.band == q.curBand else c.band == q.selBand)
    && (q.selCh != 0 ==> c.num == q.selCh) && (c.band == Band24 ==> bw <= q.maxBw24) && (c.band == Band5 ==> bw <= q.maxBw5)
  }

  /** The block is valid without passive channels, and has a radar channel or none as demanded. */
  ghost predicate FitsBlock(s: State, q: Request, band: Band, ch: nat, bw: Width, offset: Offset) {
    BlockValid(s.chs, band, ch, bw, offset, false, false)
    && (q.eDfs ==> IsRadarBlock(s.chs, band, ch, bw, offset)) && (q.dDfs ==> !IsRadarBlock(s.chs, band, ch, bw, offset))
  }

  /** What is offered for a channel and a width, when its offset is its own: nothing unless both fit the request, and otherwise that
      block with its whole wait. */
  lemma OfferMeaning(s: State, q: Request, bw: Width, i: nat, offset0: Offset)
    requires i < |s.chs| == |q.interference| && ValidChannels(s.chs) && !(s.chs[i].band == Band24 && bw == 1 && 5 <= s.chs[i].num <= 9)
    ensures var c := s.chs[i];
      var o := OffsetOf(c.band, c.num, bw, NoExt);
      Offered(s, q, bw, i, offset0) ==
        if FitsRequest(q, c, bw) && o.AnOffset? && FitsBlock(s, q, c.band, c.num, bw, o.offset)
        then Some(Cand(c.band, c.num, bw, o.offset,
                       WaitingMs(s, c.band, c.num, bw, o.offset).0 + WaitingMs(s, c.band, c.num, bw, o.offset).1,
                       if q.byInterference then q.interference[i] else 0))
        else None
  {
    var c := s.chs[i];
    var o := OffsetOf(c.band, c.num, bw, NoExt);
    OwnOffsetIsEligible(s, q, bw, i, offset0, NoExt);
    AdmittedFits(s, q, bw, i);
    if o.AnOffset? {
      WantedFits(s, q, c.band, c.num, bw, o.offset);
    }
    hide BlockValid, FitsRequest, FitsBlock, Admitted, DfsWanted, WaitingMs, OffsetOf, Offered, ValidChannels, Eligible;
  }

  lemma AdmittedFits(s: State, q: Request, bw: Width, i: nat)
    requires i < |s.chs|
    ensures Admitted(s, q, bw, i) <==> FitsRequest(q, s.chs[i], bw)
  {
  }

  lemma WantedFits(s: State, q: Request, band: Band, ch: nat, bw: Width, offset: Offset)
    requires ValidChannels(s.chs)
    ensures BlockValid(s.chs, band, ch, bw, offset, false, false) && DfsWanted(s, q, band, ch, bw, offset) <==> FitsBlock(s, q, band, ch, bw, offset)
  {
    if BlockValid(s.chs, band, ch, bw, offset, false, false) {
      ValidIsBlock(s.chs, band, ch, bw, offset);
      RadarBlock(s.chs, band, ch, bw, offset);
    }
    hide BlockValid, IsRadarBlock, IsDfsBlock, ValidChannels;
  }

  lemma ValidIsBlock(chs: seq<Channel>, band: Band, ch: nat, bw: Width, offset: Offset)
    requires BlockValid(chs, band, ch, bw, offset, false, false)
    ensures band == Band5 ==> IsBlock5(ch, bw, offset)
  {
  }
}
