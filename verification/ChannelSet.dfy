/** The channel set, and its encoding in the Supported Channels element (core/rtw_chset.c, core/rtw_rf.c). */
module ChannelSet {
  import opened Octets
  import opened Rf
  import opened Dfs

  const EID_SUPPORTED_CHANNELS := 36
  const MAX_CHANNEL_NUM := 42

  // ----- the set as it starts

  /** How many 20 MHz channels a band has, and the number of each. */
  function ChannelCount(band: Band): nat {
    match band
    case Band24 => 14
    case Band5 => 28
    case BandMax => 0
  }

  function ChannelNumber(band: Band, i: nat): (n: Byte)
    requires i < ChannelCount(band)
    ensures IsChannel(band, n)
  {
    if band == Band24 then i + 1
    else if i < 8 then 36 + 4 * i
    else if i < 20 then 100 + 4 * (i - 8)
    else 149 + 4 * (i - 20)
  }

  function IndexOfChannel(band: Band, n: Byte): (i: nat)
    requires IsChannel(band, n)
    ensures i < ChannelCount(band) && ChannelNumber(band, i) == n
  {
    if band == Band24 then n - 1
    else if n <= 64 then (n - 36) / 4
    else if n <= 144 then 8 + (n - 100) / 4
    else 20 + (n - 149) / 4
  }

  function Fresh(band: Band, n: nat): (r: seq<Channel>)
    requires n <= ChannelCount(band)
    ensures |r| == n && forall i | 0 <= i < n :: r[i] == Channel(band, ChannelNumber(band, i), {}, STOPPED)
  {
    seq(n, i requires 0 <= i < n => Channel(band, ChannelNumber(band, i), {}, STOPPED))
  }

  /** Every channel of the bands asked for is there, once, and no other. */
  ghost predicate IsSetOf(chs: seq<Channel>, bands: set<Band>) {
    (forall i, j | 0 <= i < j < |chs| :: (chs[i].band, chs[i].num) != (chs[j].band, chs[j].num))
    && (forall b, n: Byte :: Has(chs, b, n) <==> b in bands && IsChannel(b, n))
    && (forall i | 0 <= i < |chs| :: 0 < chs[i].num < 256 && chs[i].flags == {} && chs[i].NonOcpStopped())
  }

  method ChsetInit(bands: set<Band>) returns (chs: seq<Channel>)
    requires BandMax !in bands
    ensures IsSetOf(chs, bands) && |chs| <= MAX_CHANNEL_NUM
  {
    chs := [];
    if Band24 in bands {
      chs := AppendBand(chs, Band24);
    }
    if Band5 in bands {
      chs := AppendBand(chs, Band5);
    }
    InitIsSet(chs, bands);
  }

  method AppendBand(low: seq<Channel>, band: Band) returns (chs: seq<Channel>)
    ensures chs == low + Fresh(band, ChannelCount(band))
  {
    chs := low;
    var i := 0;
    while i < ChannelCount(band)
      invariant i <= ChannelCount(band) && chs == low + Fresh(band, i)
    {
      chs := chs + [Channel(band, ChannelNumber(band, i), {}, STOPPED)];
      i := i + 1;
    }
  }

  lemma InitIsSet(chs: seq<Channel>, bands: set<Band>)
    requires BandMax !in bands
    requires chs == (if Band24 in bands then Fresh(Band24, 14) else []) + (if Band5 in bands then Fresh(Band5, 28) else [])
    ensures IsSetOf(chs, bands) && |chs| <= MAX_CHANNEL_NUM
  {
    var low := if Band24 in bands then 14 else 0;
    forall b, n: Byte ensures Has(chs, b, n) <==> b in bands && IsChannel(b, n) {
      if b in bands && IsChannel(b, n) {
        var k := IndexOfChannel(b, n);
        assert chs[if b == Band5 then low + k else k] == Channel(b, n, {}, STOPPED);
      }
    }
  }

  // ----- reading the element, as section 9.4.2.18 of IEEE 802.11-2016 has it

  /** The numbers from `first` on. */
  function Numbers(first: nat, count: nat): (r: seq<nat>)
    ensures |r| == count && forall i | 0 <= i < count :: r[i] == first + i
  {
    seq(count, i => first + i)
  }

  datatype Run = Run(first: nat, count: nat)

  /** The (first, count) pairs of a sequence of octets; what is left over is not a pair. */
  function RunsOf(c: seq<Byte>): seq<Run>
    decreases |c|
  {
    if |c| < 2 then [] else RunsOf(c[..|c| - 2]) + [Run(c[|c| - 2], c[|c| - 1])]
  }

  /** The channels the pairs stand for. */
  function Expand(runs: seq<Run>): seq<nat>
    decreases |runs|
  {
    if runs == [] then [] else
      var last := runs[|runs| - 1];
      Expand(runs[..|runs| - 1]) + Numbers(last.first, last.count)
  }

  function Decode(c: seq<Byte>): seq<nat> {
    Expand(RunsOf(c))
  }

  /** The number behind the last run. */
  function Behind(runs: seq<Run>): nat
    requires runs != []
  {
    runs[|runs| - 1].first + runs[|runs| - 1].count
  }

  /** No run is empty, and none can be joined with the one before. */
  predicate Maximal(runs: seq<Run>)
    decreases |runs|
  {
    runs == [] ||
      var rest, last := runs[..|runs| - 1], runs[|runs| - 1];
      Maximal(rest) && last.count > 0 && (rest != [] ==> last.first != Behind(rest))
  }

  predicate WellCoded(c: seq<Byte>) {
    |c| % 2 == 0 && Maximal(RunsOf(c))
  }

  lemma OneMoreRun(runs: seq<Run>, r: Run)
    ensures Expand(runs + [r]) == Expand(runs) + Numbers(r.first, r.count)
    ensures Maximal(runs + [r]) <==> Maximal(runs) && r.count > 0 && (runs != [] ==> r.first != Behind(runs))
    ensures Behind(runs + [r]) == r.first + r.count
  {
    assert (runs + [r])[..|runs|] == runs;
  }

  lemma OneMorePair(c: seq<Byte>, f: Byte, n: Byte)
    ensures RunsOf(c + [f, n]) == RunsOf(c) + [Run(f, n)]
  {
    assert (c + [f, n])[..|c|] == c;
  }

  /** The enabled channels, in the order of the set. */
  function Enabled(chs: seq<Channel>): (r: seq<nat>)
    ensures |r| <= |chs|
    decreases |chs|
  {
    if chs == [] then [] else
      var last := chs[|chs| - 1];
      var rest := Enabled(chs[..|chs| - 1]);
      if Flag.Dis in last.flags then rest else rest + [last.num]
  }

  lemma {:induction false} EnabledAre(chs: seq<Channel>, n: nat)
    ensures n in Enabled(chs) <==> exists i :: 0 <= i < |chs| && chs[i].num == n && Flag.Dis !in chs[i].flags
  {
    if chs != [] {
      var rest, last := chs[..|chs| - 1], chs[|chs| - 1];
      EnabledAre(rest, n);
      assert forall i | 0 <= i < |rest| :: chs[i] == rest[i];
    }
  }

  // ----- writing it

  predicate Numbered(chs: seq<Channel>) {
    forall i | 0 <= i < |chs| :: 0 < chs[i].num < 256
  }

  /** The pairs written and the run from `f` to `l` are what was seen, and the run can not be joined with the last pair. */
  ghost predicate Pending(c: seq<Byte>, f: nat, l: nat, seen: seq<nat>) {
    0 < f <= l < 256 && |c| % 2 == 0 && Maximal(RunsOf(c)) && (RunsOf(c) != [] ==> f != Behind(RunsOf(c)))
    && Expand(RunsOf(c)) + Numbers(f, l - f + 1) == seen
  }

  lemma RunStarts(f: nat)
    requires 0 < f < 256
    ensures Pending([], f, f, [f])
  {
    assert Numbers(f, 1) == [f];
  }

  lemma RunGoesOn(c: seq<Byte>, f: nat, l: nat, seen: seq<nat>)
    requires Pending(c, f, l, seen) && l < 255
    ensures Pending(c, f, l + 1, seen + [l + 1])
  {
    assert Numbers(f, l + 1 - f + 1) == Numbers(f, l - f + 1) + [l + 1];
    Regrouped(Expand(RunsOf(c)), Numbers(f, l - f + 1), [l + 1]);
  }

  lemma Regrouped(a: seq<nat>, b: seq<nat>, c: seq<nat>)
    ensures (a + b) + c == a + (b + c)
  {
  }

  lemma RunEnds(c: seq<Byte>, f: nat, l: nat, seen: seq<nat>)
    requires Pending(c, f, l, seen)
    ensures var d := c + [f, l - f + 1];
      RunsOf(d) == RunsOf(c) + [Run(f, l - f + 1)] && Decode(d) == seen && WellCoded(d)
  {
    hide RunsOf, Expand, Maximal;
    OneMorePair(c, f, l - f + 1);
    OneMoreRun(RunsOf(c), Run(f, l - f + 1));
  }

  lemma NextRunStarts(c: seq<Byte>, f: nat, l: nat, seen: seq<nat>, ch: nat)
    requires Pending(c, f, l, seen) && 0 < ch < 256 && l + 1 != ch
    ensures Pending(c + [f, l - f + 1], ch, ch, seen + [ch])
  {
    RunEnds(c, f, l, seen);
    OneMoreRun(RunsOf(c), Run(f, l - f + 1));
    hide RunsOf, Expand, Maximal;
    assert Numbers(ch, 1) == [ch];
  }

  /** Writes the element at `pos` when a channel is enabled; the result is the place behind it. */
  method SetSptChsIe(chs: seq<Channel>, buf: array<Byte>, pos: nat, bufLen: nat) returns (end: nat, bufLen': nat)
    requires Numbered(chs) && |chs| <= MAX_CHANNEL_NUM && pos + 2 + 2 * |chs| <= buf.Length
    modifies buf
    ensures Enabled(chs) == [] ==> end == pos && bufLen' == bufLen && buf[..] == old(buf[..])
    ensures Enabled(chs) != [] ==>
      pos + 2 < end <= buf.Length && bufLen' == bufLen + (end - pos)
      && buf[pos] == 36 && buf[pos + 1] == end - pos - 2
      && Decode(buf[pos + 2..end]) == Enabled(chs) && WellCoded(buf[pos + 2..end])
      && buf[..pos] == old(buf[..pos]) && buf[end..] == old(buf[end..])
  {
    hide Decode, WellCoded, Enabled;
    var cont := WritePairs(chs, buf, pos + 2);
    if cont > pos + 2 {
      WriteHeader(buf, pos, cont);
      return cont, bufLen + (cont - pos);
    }
    assert buf[..] == buf[..pos + 2] + buf[cont..];
    end, bufLen' := pos, bufLen;
  }

  /** Writes the pairs from `start` on; the result is the place behind them. */
  method WritePairs(chs: seq<Channel>, buf: array<Byte>, start: nat) returns (cont: nat)
    requires Numbered(chs) && start + 2 * |chs| <= buf.Length
    modifies buf
    ensures start <= cont <= start + 2 * |chs| && (cont == start <==> Enabled(chs) == [])
    ensures cont > start ==> Decode(buf[start..cont]) == Enabled(chs) && WellCoded(buf[start..cont])
    ensures buf[..start] == old(buf[..start]) && buf[cont..] == old(buf[cont..])
  {
    hide Pending, Decode, WellCoded;
    var i, fch, lch := 0, 0, 0;
    cont := start;
    while i < |chs|
      invariant i <= |chs| && start <= cont <= start + 2 * i && (fch != 0 ==> cont + 2 <= start + 2 * i)
      invariant buf[..start] == old(buf[..start]) && buf[cont..] == old(buf[cont..])
      invariant fch == 0 ==> Enabled(chs[..i]) == [] && cont == start
      invariant fch != 0 ==> 0 < fch <= lch < 256
      invariant fch != 0 ==> Pending(buf[start..cont], fch, lch, Enabled(chs[..i])) && Enabled(chs[..i]) != []
    {
      assert chs[..i + 1][..i] == chs[..i];
      var chinfo := chs[i];
      i := i + 1;
      if Flag.Dis in chinfo.flags {
        continue;
      }
      var ch := chinfo.num;
      if fch == 0 {
        fch, lch := ch, ch;
        RunStarts(ch);
        assert Enabled(chs[..i]) == [ch] && buf[start..cont] == [];
        continue;
      }
      if lch + 1 != ch {
        NextRunStarts(buf[start..cont], fch, lch, Enabled(chs[..i - 1]), ch);
        cont := WritePair(buf, cont, fch, lch, start);
        fch := ch;
      } else {
        RunGoesOn(buf[start..cont], fch, lch, Enabled(chs[..i - 1]));
      }
      lch := ch;
    }
    assert chs[..i] == chs;
    if fch != 0 {
      RunEnds(buf[start..cont], fch, lch, Enabled(chs));
      cont := WritePair(buf, cont, fch, lch, start);
    }
  }

  method WriteHeader(buf: array<Byte>, pos: nat, cont: nat)
    requires pos + 2 <= cont <= buf.Length && cont - pos - 2 < 256
    modifies buf
    ensures buf[pos] == EID_SUPPORTED_CHANNELS && buf[pos + 1] == cont - pos - 2
    ensures buf[..pos] == old(buf[..pos]) && buf[pos + 2..cont] == old(buf[pos + 2..cont]) && buf[cont..] == old(buf[cont..])
  {
    buf[pos] := EID_SUPPORTED_CHANNELS;
    buf[pos + 1] := cont - pos - 2;
  }

  /** One pair goes behind those written since `start`. */
  method WritePair(buf: array<Byte>, cont: nat, fch: nat, lch: nat, start: nat) returns (cont': nat)
    requires start <= cont && cont + 2 <= buf.Length && fch <= lch < 255 + fch && fch < 256
    modifies buf
    ensures cont' == cont + 2 && buf[start..cont'] == old(buf[start..cont]) + [fch, lch - fch + 1]
    ensures buf[..start] == old(buf[..start]) && buf[cont'..] == old(buf[cont'..])
  {
    buf[cont] := fch;
    buf[cont + 1] := lch - fch + 1;
    cont' := cont + 2;
  }

  // ----- the element is determined

  lemma LastNumber(runs: seq<Run>)
    requires Maximal(runs)
    ensures runs == [] <==> Expand(runs) == []
    ensures runs != [] ==> var e := Expand(runs); e[|e| - 1] == Behind(runs) - 1
  {
  }

  lemma NumberAt(p: seq<Run>, a: Run, all: seq<nat>, k: nat)
    requires all == Expand(p) + Numbers(a.first, a.count) && |Expand(p)| <= k < |all|
    ensures all[k] == a.first + (k - |Expand(p)|)
  {
  }

  /** A last run is not longer than another one that ends the same channels. */
  lemma NotLonger(p: seq<Run>, a: Run, q: seq<Run>, b: Run, all: seq<nat>)
    requires Maximal(q) && (q != [] ==> b.first != Behind(q)) && a.count > 0 && b.count > 0
    requires all == Expand(p) + Numbers(a.first, a.count) && all == Expand(q) + Numbers(b.first, b.count)
    ensures a.first + a.count == b.first + b.count && a.count <= b.count
  {
    NumberAt(p, a, all, |all| - 1);
    NumberAt(q, b, all, |all| - 1);
    LastNumber(q);
    hide Expand, Maximal;
    if q != [] && |Expand(q)| > |Expand(p)| {
      RunReachesBack(p, a, q, b, all);
    }
  }

  /** A longer last run would hold the last number of the runs before the other one. */
  lemma RunReachesBack(p: seq<Run>, a: Run, q: seq<Run>, b: Run, all: seq<nat>)
    requires Maximal(q) && q != [] && a.first + a.count == b.first + b.count
    requires all == Expand(p) + Numbers(a.first, a.count) && all == Expand(q) + Numbers(b.first, b.count)
    requires |Expand(q)| > |Expand(p)|
    ensures b.first == Behind(q)
  {
    LastNumber(q);
    NumberAt(p, a, all, |Expand(q)| - 1);
    assert all[|Expand(q)| - 1] == Expand(q)[|Expand(q)| - 1];
  }

  /** Maximal runs that stand for the same channels are the same. */
  lemma {:induction false} RunsAreDetermined(a: seq<Run>, b: seq<Run>)
    requires Maximal(a) && Maximal(b) && Expand(a) == Expand(b)
    ensures a == b
    decreases |a|
  {
    LastNumber(a);
    LastNumber(b);
    if a != [] {
      var p, q := a[..|a| - 1], b[..|b| - 1];
      var r, t := a[|a| - 1], b[|b| - 1];
      NotLonger(p, r, q, t, Expand(a));
      NotLonger(q, t, p, r, Expand(a));
      SamePrefix(Expand(p), Numbers(r.first, r.count), Expand(q), Numbers(t.first, t.count));
      RunsAreDetermined(p, q);
      assert a == p + [r] && b == q + [t];
    }
  }

  lemma SamePrefix(p: seq<nat>, r: seq<nat>, q: seq<nat>, t: seq<nat>)
    requires p + r == q + t && |r| == |t|
    ensures p == q
  {
    assert p == (p + r)[..|p|] && q == (q + t)[..|q|];
  }

  lemma {:induction false} OctetsOfRuns(c: seq<Byte>, d: seq<Byte>)
    requires |c| % 2 == 0 && |d| % 2 == 0 && RunsOf(c) == RunsOf(d)
    ensures c == d
    decreases |c|
  {
    if |c| >= 2 && |d| >= 2 {
      var p, q := c[..|c| - 2], d[..|d| - 2];
      var r, t := Run(c[|c| - 2], c[|c| - 1]), Run(d[|d| - 2], d[|d| - 1]);
      SameRuns(RunsOf(p), r, RunsOf(q), t);
      OctetsOfRuns(p, q);
      assert c == p + [c[|c| - 2], c[|c| - 1]] && d == q + [d[|d| - 2], d[|d| - 1]];
    }
  }

  lemma SameRuns(p: seq<Run>, r: Run, q: seq<Run>, t: Run)
    requires p + [r] == q + [t]
    ensures p == q && r == t
  {
    assert |p| == |q|;
    assert p == (p + [r])[..|p|] && q == (q + [t])[..|q|];
    assert r == (p + [r])[|p|] && t == (q + [t])[|q|];
  }

  /** The content is the only one with maximal runs that stands for the channels. */
  lemma ContentIsDetermined(c: seq<Byte>, d: seq<Byte>)
    requires WellCoded(c) && WellCoded(d) && Decode(c) == Decode(d)
    ensures c == d
  {
    RunsAreDetermined(RunsOf(c), RunsOf(d));
    OctetsOfRuns(c, d);
  }
}
