/** Channels, blocks and frequency ranges (core/rtw_rf.c, include/osdep_service.h).
    Frequencies are in MHz, bandwidths are the enumeration 0 = 20, 1 = 40, 2 = 80, 3 = 160 MHz. */
module Rf {

  datatype Band = Band24 | Band5 | BandMax

  datatype Offset = NoExt | Upper | Lower

  type Width = w: nat | w <= 3

  /** A frequency range; both ends are edges of a block, `hi` above `lo`. */
  datatype Range = Range(hi: int, lo: int)

  predicate Within(a: Range, b: Range) {
    a.hi <= b.hi && a.lo >= b.lo
  }

  predicate Overlaps(a: Range, b: Range) {
    a.hi > b.lo && a.lo < b.hi
  }

  /** Is the center frequency `f` strictly inside the range? */
  predicate Inside(f: int, r: Range) {
    r.lo < f < r.hi
  }

  function HalfWidth(bw: Width): int {
    match bw
    case 0 => 10
    case 1 => 20
    case 2 => 40
    case 3 => 80
  }

  /** 0 for a number the band does not have. */
  function Frequency(band: Band, ch: nat): int {
    match band
    case Band24 => if 1 <= ch <= 13 then 2407 + 5 * ch else if ch == 14 then 2484 else 0
    case Band5 => if 36 <= ch <= 177 then 5000 + 5 * ch else 0
    case BandMax => 0
  }

  function BandOfFrequency(f: int): Band {
    if f <= 2484 then Band24 else if 5000 <= f < 5950 then Band5 else BandMax
  }

  /** Division of C: truncates toward zero. */
  function TruncatedDiv(a: int, b: int): int
    requires b > 0
  {
    if a >= 0 then a / b else -(-a / b)
  }

  /** Channel number of a frequency, stored in one octet. */
  function ChannelOfFrequency(f: int): int {
    (if f == 2484 then 14
     else if f < 2484 then TruncatedDiv(f - 2407, 5)
     else if 4910 <= f <= 4980 then (f - 4000) / 5
     else if 5000 <= f < 5950 then (f - 5000) / 5
     else if 5950 <= f <= 7215 then (f - 5950) / 5
     else if 58320 <= f <= 64800 then (f - 56160) / 2160
     else 0) % 256
  }

  /** The numbers of the 20 MHz channels of each band. */
  predicate IsChannel(band: Band, ch: nat) {
    match band
    case Band24 => 1 <= ch <= 14
    case Band5 => (36 <= ch <= 64 && ch % 4 == 0) || (100 <= ch <= 144 && ch % 4 == 0) || (149 <= ch <= 177 && ch % 4 == 1)
    case BandMax => false
  }

  function Center24(ch: nat, bw: Width, offset: Offset): nat {
    if bw == 2 then 7
    else if bw == 1 && offset == Upper then ch + 2
    else if bw == 1 && offset == Lower && ch >= 2 then ch - 2
    else ch
  }

  function Center5(ch: nat, bw: Width, offset: Offset): nat {
    if bw == 3 then
      if ch % 4 == 0 && 36 <= ch <= 64 then 50
      else if ch % 4 == 0 && 100 <= ch <= 128 then 114
      else if ch % 4 == 1 && 149 <= ch <= 177 then 163
      else ch
    else if bw == 2 then
      if ch % 4 == 0 && 36 <= ch <= 48 then 42
      else if ch % 4 == 0 && 52 <= ch <= 64 then 58
      else if ch % 4 == 0 && 100 <= ch <= 112 then 106
      else if ch % 4 == 0 && 116 <= ch <= 128 then 122
      else if ch % 4 == 0 && 132 <= ch <= 144 then 138
      else if ch % 4 == 1 && 149 <= ch <= 161 then 155
      else if ch % 4 == 1 && 165 <= ch <= 177 then 171
      else ch
    else if bw == 1 && offset == Upper then ch + 2
    else if bw == 1 && offset == Lower && ch >= 2 then ch - 2
    else ch
  }

  function Center(band: Band, ch: nat, bw: Width, offset: Offset): nat {
    match band
    case Band24 => Center24(ch, bw, offset)
    case Band5 => Center5(ch, bw, offset)
    case BandMax => 0
  }

  /** The table of center channels: does a block of width `bw` centered on `cch` exist? */
  predicate IsCenter(band: Band, cch: nat, bw: Width) {
    match band
    case Band24 => (bw == 0 && 1 <= cch <= 14) || (bw == 1 && 3 <= cch <= 11)
    case Band5 =>
      (match bw
       case 0 => IsChannel(Band5, cch)
       case 1 => (38 <= cch <= 62 && cch % 8 == 6) || (102 <= cch <= 142 && cch % 8 == 6) || (151 <= cch <= 175 && cch % 8 == 7)
       case 2 => cch in {42, 58, 106, 122, 138, 155, 171}
       case 3 => cch in {50, 114, 163})
    case BandMax => false
  }

  /** The table of operating channels of a block, lowest first. */
  function OpChannels(band: Band, cch: nat, bw: Width): (chs: seq<nat>)
    requires IsCenter(band, cch, bw)
    ensures |chs| > 0
  {
    match bw
    case 0 => [cch]
    case 1 => [cch - 2, cch + 2]
    case 2 => [cch - 6, cch - 2, cch + 2, cch + 6]
    case 3 => [cch - 14, cch - 10, cch - 6, cch - 2, cch + 2, cch + 6, cch + 10, cch + 14]
  }

  /** The offset a channel has in a block of the given width, if it can have one.
      On 2.4 GHz channels 5 to 9 the previous content of the result decides. */
  datatype OffsetResult = NoOffset | AnOffset(offset: Offset)

  function OffsetOf(band: Band, ch: nat, bw: Width, prev: Offset): OffsetResult {
    match band
    case Band24 =>
      if bw >= 2 || ch < 1 || ch > 14 then NoOffset
      else if bw == 0 then AnOffset(NoExt)
      else if ch <= 4 then AnOffset(Upper)
      else if ch <= 9 then AnOffset(if prev != NoExt then prev else Lower)
      else if ch <= 13 then AnOffset(Lower)
      else NoOffset
    case Band5 =>
      if !IsChannel(Band5, ch) then NoOffset
      else if bw == 0 then AnOffset(NoExt)
      else if (ch <= 144 && ch % 8 == 4) || (ch > 144 && ch % 8 == 5) then AnOffset(Upper)
      else AnOffset(Lower)
    case BandMax => NoOffset
  }

  /** Channel numbers and center frequencies stand for each other, in the bands modelled and beyond. */
  lemma FrequencyRoundTrip(band: Band, ch: nat)
    ensures IsChannel(band, ch) ==>
      Frequency(band, ch) > 0 && BandOfFrequency(Frequency(band, ch)) == band && ChannelOfFrequency(Frequency(band, ch)) == ch
    ensures band == BandMax || (band == Band24 && !(1 <= ch <= 14)) || (band == Band5 && !(36 <= ch <= 177)) ==> Frequency(band, ch) == 0
    ensures 182 <= ch <= 196 ==> ChannelOfFrequency(4000 + 5 * ch) == ch
    ensures ch <= 253 ==> ChannelOfFrequency(5950 + 5 * ch) == ch
    ensures 1 <= ch <= 4 ==> ChannelOfFrequency(56160 + 2160 * ch) == ch
  {
  }

  /** Every channel of a 5 GHz block names that block: at 40 MHz with its own offset, at 80 and 160 MHz with any. */
  lemma ChannelsNameTheirBlock(cch: nat, bw: Width, ch: nat, offset: Offset)
    requires IsCenter(Band5, cch, bw) && IsChannel(Band5, ch) && -HalfWidth(bw) < 5 * (ch - cch) < HalfWidth(bw)
    requires bw == 1 ==> offset == if ch < cch then Upper else Lower
    requires bw == 0 ==> offset == NoExt
    ensures Center5(ch, bw, offset) == cch
  {
    match bw
    case 0 =>
    case 1 =>
    case 2 => QuadNames(cch, ch, offset);
    case 3 => OctNames(cch, ch, offset);
  }

  lemma QuadNames(cch: nat, ch: nat, offset: Offset)
    requires IsCenter(Band5, cch, 2) && IsChannel(Band5, ch) && -8 < ch - cch < 8
    ensures Center5(ch, 2, offset) == cch
  {
  }

  lemma OctNames(cch: nat, ch: nat, offset: Offset)
    requires IsCenter(Band5, cch, 3) && IsChannel(Band5, ch) && -16 < ch - cch < 16
    ensures Center5(ch, 3, offset) == cch
  {
  }

  /** The side of the 40 MHz partner at 2.4 GHz: above for 1 to 4, below for 10 to 13, and for 5 to 9 whatever the result
      held before, below if nothing. */
  lemma OffsetAt24(ch: nat, prev: Offset)
    ensures 1 <= ch <= 14 ==> OffsetOf(Band24, ch, 0, prev) == AnOffset(NoExt)
    ensures 1 <= ch <= 4 ==> OffsetOf(Band24, ch, 1, prev) == AnOffset(Upper)
    ensures 5 <= ch <= 9 ==> OffsetOf(Band24, ch, 1, prev) == AnOffset(if prev == NoExt then Lower else prev)
    ensures 10 <= ch <= 13 ==> OffsetOf(Band24, ch, 1, prev) == AnOffset(Lower)
    ensures ch == 14 ==> OffsetOf(Band24, ch, 1, prev) == NoOffset
    ensures forall bw: Width | bw >= 2 || ch == 0 || ch > 14 :: OffsetOf(Band24, ch, bw, prev) == NoOffset
  {
  }

  /** Every 5 GHz channel has an own offset at every width, and with it a block of the tables at 20, 40 and 80 MHz, and
      at 160 MHz too except 132 to 144; at 2.4 GHz every channel has a block at 20 MHz, and 1 to 13 at 40 MHz. */
  lemma EveryChannelHasBlocks(ch: nat, bw: Width, prev: Offset)
    ensures IsChannel(Band5, ch) ==>
      var o := OffsetOf(Band5, ch, bw, prev);
      o.AnOffset? && (IsCenter(Band5, Center5(ch, bw, o.offset), bw) <==> bw <= 2 || !(132 <= ch <= 144))
    ensures IsChannel(Band24, ch) && bw <= 1 && (ch <= 13 || bw == 0) ==>
      var o := OffsetOf(Band24, ch, bw, prev);
      o.AnOffset? && IsCenter(Band24, Center24(ch, bw, o.offset), bw)
  {
    if IsChannel(Band5, ch) {
      NarrowBlocksAt5(ch, bw, prev);
      forall o: Offset ensures bw >= 2 ==> (IsCenter(Band5, Center5(ch, bw, o), bw) <==> bw == 2 || !(132 <= ch <= 144)) {
        WideBlocksAt5(ch, bw, o);
      }
    }
    hide Center5, IsChannel;
  }

  lemma NarrowBlocksAt5(ch: nat, bw: Width, prev: Offset)
    requires IsChannel(Band5, ch)
    ensures var o := OffsetOf(Band5, ch, bw, prev); o.AnOffset? && (bw <= 1 ==> IsCenter(Band5, Center5(ch, bw, o.offset), bw))
  {
    PairGrid(ch);
  }

  lemma PairGrid(ch: nat)
    requires IsChannel(Band5, ch)
    ensures ch <= 144 ==> (ch % 8 == 4 && (ch + 2) % 8 == 6) || (ch % 8 == 0 && (ch - 2) % 8 == 6)
    ensures ch > 144 ==> (ch % 8 == 5 && (ch + 2) % 8 == 7) || (ch % 8 == 1 && (ch - 2) % 8 == 7)
  {
  }

  lemma WideBlocksAt5(ch: nat, bw: Width, o: Offset)
    requires IsChannel(Band5, ch)
    ensures bw >= 2 ==> (IsCenter(Band5, Center5(ch, bw, o), bw) <==> bw == 2 || !(132 <= ch <= 144))
  {
  }

  /** Range of the block around a center channel; the driver warns on a center without frequency. */
  function CenterRange(band: Band, cch: nat, bw: Width): Range {
    var f := Frequency(band, cch);
    if f == 0 then Range(0, 0) else Range(f + HalfWidth(bw), f - HalfWidth(bw))
  }

  function BlockRange(band: Band, ch: nat, bw: Width, offset: Offset): Range {
    CenterRange(band, Center(band, ch, bw, offset), bw)
  }

  /** A 5 GHz block of the tables. */
  predicate IsBlock5(ch: nat, bw: Width, offset: Offset) {
    IsCenter(Band5, Center5(ch, bw, offset), bw)
  }

  /** No channel is half a block away from a center. */
  lemma NoChannelHalfABlockAway(cch: nat, bw: Width, ch: nat)
    requires IsCenter(Band5, cch, bw) && IsChannel(Band5, ch)
    ensures 5 * (ch - cch) != HalfWidth(bw) && 5 * (cch - ch) != HalfWidth(bw)
  {
    match bw
    case 0 => assert ch - cch !in {2, -2};
    case 1 => assert ch - cch !in {4, -4};
    case 2 => assert ch - cch !in {8, -8};
    case 3 => assert ch - cch !in {16, -16};
  }

  /** Block edges fall between channel centers: never on one. */
  lemma EdgesMissChannels(cch: nat, bw: Width, ch: nat)
    requires IsCenter(Band5, cch, bw) && IsChannel(Band5, ch)
    ensures var r := CenterRange(Band5, cch, bw);
      5000 < r.lo < r.hi < 5950 && r.hi % 5 == r.lo % 5 == 0 && Frequency(Band5, ch) !in {r.hi, r.lo}
  {
    assert CenterRange(Band5, cch, bw) == Range(5000 + 5 * cch + HalfWidth(bw), 5000 + 5 * cch - HalfWidth(bw));
    NoChannelHalfABlockAway(cch, bw, ch);
  }

  /** Every channel the offset function accepts lies in the block it names, when that block exists. */
  lemma BlockHoldsItsChannel(band: Band, ch: nat, bw: Width, prev: Offset)
    requires OffsetOf(band, ch, bw, prev).AnOffset?
    ensures var cch := Center(band, ch, bw, OffsetOf(band, ch, bw, prev).offset);
      IsCenter(band, cch, bw) ==> ch in OpChannels(band, cch, bw) && Inside(Frequency(band, ch), CenterRange(band, cch, bw))
    ensures bw == 0 ==> IsCenter(band, ch, 0) && Center(band, ch, 0, OffsetOf(band, ch, 0, prev).offset) == ch
  {
    match band
    case Band24 => Lists24(ch, bw, prev);
    case Band5 => Lists5(ch, bw, prev);
    hide CenterRange, Frequency, Center, OpChannels, OffsetOf, IsCenter, IsChannel;
    var cch := Center(band, ch, bw, OffsetOf(band, ch, bw, prev).offset);
    if IsCenter(band, cch, bw) {
      ListedIsInside(band, cch, bw, ch);
    }
  }

  lemma Lists24(ch: nat, bw: Width, prev: Offset)
    requires OffsetOf(Band24, ch, bw, prev).AnOffset?
    ensures var cch := Center(Band24, ch, bw, OffsetOf(Band24, ch, bw, prev).offset);
      (IsCenter(Band24, cch, bw) ==> ch in OpChannels(Band24, cch, bw)) && (bw == 0 ==> cch == ch && IsCenter(Band24, ch, 0))
  {
  }

  lemma Lists5(ch: nat, bw: Width, prev: Offset)
    requires OffsetOf(Band5, ch, bw, prev).AnOffset?
    ensures var cch := Center(Band5, ch, bw, OffsetOf(Band5, ch, bw, prev).offset);
      (IsCenter(Band5, cch, bw) ==> ch in OpChannels(Band5, cch, bw)) && (bw == 0 ==> cch == ch && IsCenter(Band5, ch, 0))
  {
  }

  lemma ListedIsInside(band: Band, cch: nat, bw: Width, ch: nat)
    requires IsCenter(band, cch, bw) && ch in OpChannels(band, cch, bw)
    ensures Inside(Frequency(band, ch), CenterRange(band, cch, bw))
  {
    match bw
    case 0 =>
    case 1 => assert cch - 2 <= ch <= cch + 2;
    case 2 => assert cch - 6 <= ch <= cch + 6;
    case 3 => assert cch - 14 <= ch <= cch + 14;
  }
}
