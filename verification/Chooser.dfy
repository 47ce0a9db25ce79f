/** Choice of the channel with the shortest waiting time (core/rtw_dfs.c, with the block check of core/rtw_chset.c). */
module Chooser {
  import opened Rf
  import opened Dfs
  import opened NopSweep

  datatype Option<T> = None | Some(value: T)

  datatype Cand = Cand(band: Band, ch: nat, bw: Width, offset: Offset, waiting: nat, interference: nat)

  /** The request: `selBand` BandMax and `selCh` 0 mean any; `interference` is indexed like the channel set. */
  datatype Request = Request(selBand: Band, selCh: nat, maxBw: Width, eDfs: bool, dDfs: bool, curBand: Band, curCh: nat,
                             withinSameBand: bool, maxBw24: Width, maxBw5: Width, halWidths: set<Width>, byInterference: bool,
                             interference: seq<nat>)

  // ----- which blocks are valid

  predicate Usable(c: Channel, k: nat, bw: Width, ch: nat, allowPrimaryPassive: bool, allowPassive: bool) {
    Dis !in c.flags
    && (NoIr in c.flags ==> allowPassive && (allowPrimaryPassive || c.num != ch))
    && (bw >= 1 ==> (k % 2 == 0 ==> NoHt40U !in c.flags) && (k % 2 == 1 ==> NoHt40L !in c.flags))
    && (bw >= 2 ==> No80 !in c.flags) && (bw >= 3 ==> No160 !in c.flags)
  }

  predicate MemberUsable(chs: seq<Channel>, band: Band, num: nat, k: nat, bw: Width, ch: nat, app: bool, ap: bool) {
    exists i | 0 <= i < |chs| :: chs[i].band == band && chs[i].num == num && Usable(chs[i], k, bw, ch, app, ap)
  }

  predicate BlockValid(chs: seq<Channel>, band: Band, ch: nat, bw: Width, offset: Offset, app: bool, ap: bool) {
    var cch := Center(band, ch, bw, offset);
    IsCenter(band, cch, bw)
    && forall k | 0 <= k < |OpChannels(band, cch, bw)| :: MemberUsable(chs, band, OpChannels(band, cch, bw)[k], k, bw, ch, app, ap)
  }

  method IsBlockValid(chs: seq<Channel>, band: Band, ch: nat, bw: Width, offset: Offset, app: bool, ap: bool) returns (valid: bool)
    requires Unique(chs)
    ensures valid == BlockValid(chs, band, ch, bw, offset, app, ap)
  {
    var cch := Center(band, ch, bw, offset);
    if !IsCenter(band, cch, bw) {
      return false;
    }
    var nums := OpChannels(band, cch, bw);
    CenterChannelsNonZero(band, cch, bw);
    var k := 0;
    while k < |nums|
      invariant 0 <= k <= |nums|
      invariant forall l | 0 <= l < k :: MemberUsable(chs, band, nums[l], l, bw, ch, app, ap)
    {
      var idx := SearchChannel(chs, band, nums[k]);
      if idx == |chs| || !Usable(chs[idx], k, bw, ch, app, ap) {
        assert !MemberUsable(chs, band, nums[k], k, bw, ch, app, ap);
        return false;
      }
      k := k + 1;
    }
    return true;
  }

  // ----- the candidates in loop order

  predicate Admitted(s: State, q: Request, bw: Width, i: nat)
    requires i < |s.chs|
  {
    var c := s.chs[i];
    bw in q.halWidths && Dis !in c.flags
    && (if q.selBand != BandMax then c.band == q.selBand else !q.withinSameBand || q.curBand == c.band)
    && (q.selCh != 0 ==> c.num == q.selCh)
    && (c.band == Band24 ==> bw <= q.maxBw24) && (c.band == Band5 ==> bw <= q.maxBw5)
  }

  predicate DfsWanted(s: State, q: Request, band: Band, ch: nat, bw: Width, offset: Offset) {
    (q.eDfs ==> IsDfsBlock(s.chs, band, ch, bw, offset)) && (q.dDfs ==> !IsDfsBlock(s.chs, band, ch, bw, offset))
  }

  function CandOf(s: State, q: Request, bw: Width, i: nat, offset: Offset): Cand
    requires i < |s.chs| && |q.interference| == |s.chs|
  {
    var c := s.chs[i];
    var w := WaitingMs(s, c.band, c.num, bw, offset);
    Cand(c.band, c.num, bw, offset, w.0 + w.1, if q.byInterference then q.interference[i] else 0)
  }

  /** One visit of the inner loop; the offset variable is carried from visit to visit. */
  function Visit(s: State, q: Request, bw: Width, i: nat, prev: Offset): (Option<Cand>, Offset)
    requires i < |s.chs| && |q.interference| == |s.chs|
  {
    var c := s.chs[i];
    if !Admitted(s, q, bw, i) then (None, prev)
    else
      var o := OffsetOf(c.band, c.num, bw, prev);
      if o.NoOffset? then (None, prev)
      else if !BlockValid(s.chs, c.band, c.num, bw, o.offset, false, false) || !DfsWanted(s, q, c.band, c.num, bw, o.offset) then (None, o.offset)
      else (Some(CandOf(s, q, bw, i, o.offset)), o.offset)
  }

  /** The offset variable before the visit of channel `i` at width `bw`. */
  function Carried(s: State, q: Request, bw: Width, i: nat, offset0: Offset): Offset
    requires i <= |s.chs| == |q.interference|
    decreases bw, i
  {
    if i > 0 then Visit(s, q, bw, i - 1, Carried(s, q, bw, i - 1, offset0)).1
    else if bw > 0 then Carried(s, q, bw - 1, |s.chs|, offset0)
    else offset0
  }

  /** What the visit of channel `i` at width `bw` offers. */
  function Offered(s: State, q: Request, bw: Width, i: nat, offset0: Offset): Option<Cand>
    requires i < |s.chs| == |q.interference|
  {
    Visit(s, q, bw, i, Carried(s, q, bw, i, offset0)).0
  }

  /** Narrow widths come first, and channels in the order of the set. */
  predicate Before(b: nat, j: nat, bw: nat, i: nat) {
    b < bw || (b == bw && j < i)
  }

  // ----- the preference

  /** 0: the current channel, 1: its band, 2: another band. */
  function Closeness(q: Request, c: Cand): nat {
    if c.band != q.curBand then 2 else if c.ch != q.curCh then 1 else 0
  }

  /** Strictly preferred: less waiting, then less interference, then wider, then closer to the current channel. */
  predicate Preferred(q: Request, a: Cand, b: Cand) {
    if a.waiting != b.waiting then a.waiting < b.waiting
    else if a.interference != b.interference then a.interference < b.interference
    else if a.bw != b.bw then a.bw > b.bw
    else Closeness(q, a) < Closeness(q, b)
  }

  /** Nothing is offered before the visit of channel `i` at width `bw`. */
  ghost predicate NoneBefore(s: State, q: Request, offset0: Offset, bw: nat, i: nat)
    requires |s.chs| == |q.interference|
  {
    forall b: Width, j: nat | j < |s.chs| && Before(b, j, bw, i) :: Offered(s, q, b, j, offset0).None?
  }

  /** What width `b` and channel `j` offer is the first best before the visit of channel `i` at width `bw`: strictly
      preferred to every earlier offer, and no later one is preferred to it. */
  ghost predicate FirstBest(s: State, q: Request, offset0: Offset, bw: nat, i: nat, b: Width, j: nat, best: Cand)
    requires |s.chs| == |q.interference|
  {
    j < |s.chs| && Before(b, j, bw, i) && Offered(s, q, b, j, offset0) == Some(best)
    && forall b': Width, j': nat | j' < |s.chs| && Before(b', j', bw, i) && Offered(s, q, b', j', offset0).Some? ::
         var c := Offered(s, q, b', j', offset0).value;
         if Before(b', j', b, j) then Preferred(q, best, c) else !Preferred(q, c, best)
  }

  /** Some visit of the first `rows` widths offers `best`, the first best of them all. */
  ghost predicate IsChosen(s: State, q: Request, offset0: Offset, rows: nat, best: Cand)
    requires |s.chs| == |q.interference|
  {
    exists b: Width, j: nat :: FirstBest(s, q, offset0, rows, 0, b, j, best)
  }

  lemma PreferredOneWay(q: Request, a: Cand, b: Cand)
    ensures Preferred(q, a, b) ==> !Preferred(q, b, a)
  {
  }

  lemma PreferenceChains(q: Request, a: Cand, b: Cand, c: Cand)
    requires Preferred(q, a, b) && !Preferred(q, c, b)
    ensures Preferred(q, a, c)
  {
  }

  /** One more visit. */
  lemma FirstBestExtends(s: State, q: Request, offset0: Offset, bw: Width, i: nat, b: Width, j: nat, best: Cand)
    requires i < |s.chs| == |q.interference| && FirstBest(s, q, offset0, bw, i, b, j, best)
    ensures var o := Offered(s, q, bw, i, offset0);
      if o.Some? && Preferred(q, o.value, best) then FirstBest(s, q, offset0, bw, i + 1, bw, i, o.value)
      else FirstBest(s, q, offset0, bw, i + 1, b, j, best)
  {
    hide Offered, Preferred;
    var o := Offered(s, q, bw, i, offset0);
    if o.Some? && Preferred(q, o.value, best) {
      forall b': Width, j': nat | j' < |s.chs| && Before(b', j', bw, i) && Offered(s, q, b', j', offset0).Some?
        ensures Preferred(q, o.value, Offered(s, q, b', j', offset0).value)
      {
        var c := Offered(s, q, b', j', offset0).value;
        assert if Before(b', j', b, j) then Preferred(q, best, c) else !Preferred(q, c, best);
        PreferredOneWay(q, best, c);
        PreferenceChains(q, o.value, best, c);
      }
      PreferredOneWay(q, o.value, o.value);
    }
  }

  /** The driver's comparison of a candidate with the best so far. */
  predicate Replaces(q: Request, c: Cand, best: Cand) {
    best.waiting > c.waiting
    || (best.waiting == c.waiting && best.interference > c.interference)
    || (best.waiting == c.waiting && best.interference == c.interference && c.bw > best.bw)
    || (best.waiting == c.waiting && best.interference == c.interference && c.bw == best.bw
        && (((q.curBand != best.band || q.curCh != best.ch) && q.curBand == c.band && q.curCh == c.ch)
            || (q.curBand != best.band && q.curBand == c.band)))
  }

  lemma ReplacesIsPreferred(q: Request, c: Cand, best: Cand)
    ensures Replaces(q, c, best) <==> Preferred(q, c, best)
  {
  }

  /** Fails exactly when nothing is offered, and otherwise takes the first best of all offers. */
  method ChooseShortestWaiting(ctl: RfCtl, q: Request, offset0: Offset) returns (found: bool, best: Cand)
    requires Unique(ctl.chs) && |ctl.chs| == |q.interference|
    ensures !found ==> NoneBefore(ctl.Abs(), q, offset0, q.maxBw + 1, 0)
    ensures found ==> IsChosen(ctl.Abs(), q, offset0, q.maxBw + 1, best)
  {
    hide FirstBest, NoneBefore, Visit, Carried, Preferred, Replaces;
    ghost var s := ctl.Abs();
    ghost var b: Width, j: nat := 0, 0;
    var offset := offset0;
    best := Cand(BandMax, 0, 0, NoExt, 0, 0);
    var bw := 0;
    NothingYet(s, q, offset0);
    while bw <= q.maxBw
      invariant 0 <= bw <= q.maxBw + 1 && offset == CarriedTo(s, q, bw, offset0)
      invariant if best.ch == 0 then NoneBefore(s, q, offset0, bw, 0) else FirstBest(s, q, offset0, bw, 0, b, j, best)
    {
      var i := 0;
      CarriedIs(s, q, bw, 0, offset0);
      while i < |ctl.chs|
        invariant 0 <= i <= |ctl.chs| && offset == Carried(s, q, bw, i, offset0)
        invariant if best.ch == 0 then NoneBefore(s, q, offset0, bw, i) else FirstBest(s, q, offset0, bw, i, b, j, best)
      {
        var cand;
        cand, offset := VisitChannel(ctl, q, bw, i, offset);
        CarriedIs(s, q, bw, i + 1, offset0);
        if best.ch == 0 {
          NoneExtends(s, q, offset0, bw, i);
        } else {
          FirstBestExtends(s, q, offset0, bw, i, b, j, best);
        }
        if cand.Some? {
          ReplacesIsPreferred(q, cand.value, best);
          if best.ch == 0 || Replaces(q, cand.value, best) {
            best := cand.value;
            b, j := bw, i;
          }
        }
        i := i + 1;
      }
      RowEnds(s, q, offset0, bw, b, j, best);
      bw := bw + 1;
    }
    found := best.ch != 0;
  }

  /** The offset variable before a row, and after the last one. */
  function CarriedTo(s: State, q: Request, bw: nat, offset0: Offset): Offset
    requires bw <= 4 && |s.chs| == |q.interference|
  {
    if bw == 0 then offset0 else Carried(s, q, bw - 1, |s.chs|, offset0)
  }

  lemma CarriedIs(s: State, q: Request, bw: Width, i: nat, offset0: Offset)
    requires i <= |s.chs| == |q.interference|
    ensures Carried(s, q, bw, i, offset0)
      == if i == 0 then CarriedTo(s, q, bw, offset0) else Visit(s, q, bw, i - 1, Carried(s, q, bw, i - 1, offset0)).1
  {
  }

  lemma NothingYet(s: State, q: Request, offset0: Offset)
    requires |s.chs| == |q.interference|
    ensures NoneBefore(s, q, offset0, 0, 0)
  {
  }

  lemma NoneExtends(s: State, q: Request, offset0: Offset, bw: Width, i: nat)
    requires i < |s.chs| == |q.interference| && NoneBefore(s, q, offset0, bw, i)
    ensures var o := Offered(s, q, bw, i, offset0);
      if o.Some? then FirstBest(s, q, offset0, bw, i + 1, bw, i, o.value) else NoneBefore(s, q, offset0, bw, i + 1)
  {
    hide Offered;
  }

  /** The end of a row is the start of the next. */
  lemma RowEnds(s: State, q: Request, offset0: Offset, bw: Width, b: Width, j: nat, best: Cand)
    requires |s.chs| == |q.interference|
    ensures NoneBefore(s, q, offset0, bw, |s.chs|) ==> NoneBefore(s, q, offset0, bw + 1, 0)
    ensures FirstBest(s, q, offset0, bw, |s.chs|, b, j, best) ==> FirstBest(s, q, offset0, bw + 1, 0, b, j, best)
  {
  }

  method IsAdmitted(ctl: RfCtl, q: Request, bw: Width, i: nat) returns (admitted: bool)
    requires i < |ctl.chs|
    ensures admitted == Admitted(ctl.Abs(), q, bw, i)
  {
    var c := ctl.chs[i];
    if bw !in q.halWidths || Dis in c.flags {
      return false;
    }
    if q.selBand != BandMax {
      if c.band != q.selBand { return false; }
    } else if q.withinSameBand && q.curBand != c.band {
      return false;
    }
    if q.selCh != 0 && c.num != q.selCh {
      return false;
    }
    if (c.band == Band24 && bw > q.maxBw24) || (c.band == Band5 && bw > q.maxBw5) {
      return false;
    }
    return true;
  }

  method IsWanted(ctl: RfCtl, q: Request, band: Band, ch: nat, bw: Width, offset: Offset) returns (wanted: bool)
    requires Unique(ctl.chs)
    ensures wanted == (BlockValid(ctl.chs, band, ch, bw, offset, false, false) && DfsWanted(ctl.Abs(), q, band, ch, bw, offset))
  {
    wanted := IsBlockValid(ctl.chs, band, ch, bw, offset, false, false);
    if wanted && (q.eDfs || q.dDfs) {
      var isDfs := ctl.ChsetIsDfsBlock(band, ch, bw, offset);
      wanted := !((q.eDfs && !isDfs) || (q.dDfs && isDfs));
    }
  }

  /** The inner loop body up to the comparison. */
  method VisitChannel(ctl: RfCtl, q: Request, bw: Width, i: nat, prev: Offset) returns (cand: Option<Cand>, next: Offset)
    requires Unique(ctl.chs) && i < |ctl.chs| && |q.interference| == |ctl.chs|
    ensures (cand, next) == Visit(ctl.Abs(), q, bw, i, prev)
    ensures cand.Some? ==> cand.value.ch != 0
  {
    hide BlockValid, DfsWanted, Admitted, WaitingMs;
    cand, next := None, prev;
    var c := ctl.chs[i];
    var admitted := IsAdmitted(ctl, q, bw, i);
    if !admitted {
      return;
    }
    var o := OffsetOf(c.band, c.num, bw, prev);
    if o.NoOffset? {
      return;
    }
    next := o.offset;
    var wanted := IsWanted(ctl, q, c.band, c.num, bw, next);
    if !wanted {
      return;
    }
    var nonOcp, cac := ctl.GetChWaitingMs(c.band, c.num, bw, next);
    var interference := if q.byInterference then q.interference[i] else 0;
    cand := Some(Cand(c.band, c.num, bw, next, nonOcp + cac, interference));
  }

  // ----- what is offered are the eligible pairs

  /** The pair would be offered whatever the offset variable held before. */
  ghost predicate Eligible(s: State, q: Request, bw: Width, i: nat)
    requires i < |s.chs| == |q.interference|
  {
    forall prev :: Visit(s, q, bw, i, prev).0.Some?
  }

  /** The offset of the pair is its own, not the one carried from the visit before. */
  predicate OwnOffset(c: Channel, bw: Width) {
    !(c.band == Band24 && bw == 1 && 5 <= c.num <= 9)
  }

  /** Only 2.4 GHz channels 5 to 9 at 40 MHz depend on the offset carried along. */
  lemma OwnOffsetIsEligible(s: State, q: Request, bw: Width, i: nat, offset0: Offset, prev: Offset)
    requires i < |s.chs| == |q.interference| && OwnOffset(s.chs[i], bw)
    ensures Offered(s, q, bw, i, offset0) == Visit(s, q, bw, i, prev).0
    ensures Eligible(s, q, bw, i) <==> Offered(s, q, bw, i, offset0).Some?
  {
    hide BlockValid, DfsWanted, Admitted, CandOf;
    forall p ensures Visit(s, q, bw, i, p).0 == Visit(s, q, bw, i, prev).0 {
    }
  }

  /** A 2.4 GHz channel offered at 40 MHz is eligible at 20 MHz. */
  lemma NarrowIsEligible(s: State, q: Request, i: nat, prev: Offset)
    requires i < |s.chs| == |q.interference| && s.chs[i].band == Band24 && 0 in q.halWidths
    requires forall k | 0 <= k < |s.chs| && DfsFlag in s.chs[k].flags :: s.chs[k].band == Band5
    requires Visit(s, q, 1, i, prev).0.Some?
    ensures Eligible(s, q, 0, i)
  {
    var c := s.chs[i];
    var o := OffsetOf(Band24, c.num, 1, prev).offset;
    var cch := Center24(c.num, 1, o);
    NoRadarOn24(s, c.num, 1, o);
    NoRadarOn24(s, c.num, 0, NoExt);
    assert BlockValid(s.chs, Band24, c.num, 1, o, false, false);
    var k := if OpChannels(Band24, cch, 1)[0] == c.num then 0 else 1;
    assert MemberUsable(s.chs, Band24, OpChannels(Band24, cch, 1)[k], k, 1, c.num, false, false);
    assert BlockValid(s.chs, Band24, c.num, 0, NoExt, false, false);
  }

  lemma NoRadarOn24(s: State, ch: nat, bw: Width, offset: Offset)
    requires forall k | 0 <= k < |s.chs| && DfsFlag in s.chs[k].flags :: s.chs[k].band == Band5
    requires 1 <= ch <= 14 && bw <= 1
    ensures !IsDfsBlock(s.chs, Band24, ch, bw, offset)
  {
  }

  /** With 20 MHz supported and radar flags on 5 GHz only, the choice fails if and only if no pair is eligible, and no
      eligible pair is preferred to the one chosen. */
  lemma ChoiceIsOptimal(s: State, q: Request, offset0: Offset, found: bool, best: Cand)
    requires |s.chs| == |q.interference| && 0 in q.halWidths
    requires forall k | 0 <= k < |s.chs| && DfsFlag in s.chs[k].flags :: s.chs[k].band == Band5
    requires !found ==> NoneBefore(s, q, offset0, q.maxBw + 1, 0)
    requires found ==> IsChosen(s, q, offset0, q.maxBw + 1, best)
    ensures found <==> exists bw: Width, i: nat :: bw <= q.maxBw && i < |s.chs| && Eligible(s, q, bw, i)
    ensures found ==> forall bw: Width, i: nat | bw <= q.maxBw && i < |s.chs| && Eligible(s, q, bw, i) ::
      Offered(s, q, bw, i, offset0).Some? && !Preferred(q, Offered(s, q, bw, i, offset0).value, best)
  {
    hide Visit, Preferred, Eligible;
    if found {
      var b: Width, j: nat :| FirstBest(s, q, offset0, q.maxBw + 1, 0, b, j, best);
      if OwnOffset(s.chs[j], b) {
        OwnOffsetIsEligible(s, q, b, j, offset0, NoExt);
      } else {
        NarrowIsEligible(s, q, j, Carried(s, q, b, j, offset0));
        assert Eligible(s, q, 0, j);
      }
    }
    forall bw: Width, i: nat | bw <= q.maxBw && i < |s.chs| && Eligible(s, q, bw, i)
      ensures found && Offered(s, q, bw, i, offset0).Some? && !Preferred(q, Offered(s, q, bw, i, offset0).value, best)
    {
      EligibleIsOffered(s, q, bw, i, offset0);
      var c := Offered(s, q, bw, i, offset0).value;
      assert Before(bw, i, q.maxBw + 1, 0);
      PreferredOneWay(q, best, c);
    }
  }

  lemma EligibleIsOffered(s: State, q: Request, bw: Width, i: nat, offset0: Offset)
    requires i < |s.chs| == |q.interference| && Eligible(s, q, bw, i)
    ensures Offered(s, q, bw, i, offset0).Some?
  {
  }
}
