/** Station counters of an access point, and the protection bits its beacon derives from them (core/rtw_ap.c). */
module ApStations {
  import opened Octets

  /** What a station can be counted for. */
  datatype Flag = NoShortPreamble | NonErp | NoShortSlot | NoHt | NoHtGf | Ht20 | Intolerant40

  datatype Counts = Counts(noShortPreamble: int, nonErp: int, noShortSlot: int, noHt: int, noHtGf: int, ht20: int, intolerant40: int) {
    function Of(f: Flag): int {
      match f
      case NoShortPreamble => noShortPreamble
      case NonErp => nonErp
      case NoShortSlot => noShortSlot
      case NoHt => noHt
      case NoHtGf => noHtGf
      case Ht20 => ht20
      case Intolerant40 => intolerant40
    }

    function Plus(f: Flag, d: int): Counts {
      match f
      case NoShortPreamble => this.(noShortPreamble := noShortPreamble + d)
      case NonErp => this.(nonErp := nonErp + d)
      case NoShortSlot => this.(noShortSlot := noShortSlot + d)
      case NoHt => this.(noHt := noHt + d)
      case NoHtGf => this.(noHtGf := noHtGf + d)
      case Ht20 => this.(ht20 := ht20 + d)
      case Intolerant40 => this.(intolerant40 := intolerant40 + d)
    }
  }

  const ZERO := Counts(0, 0, 0, 0, 0, 0, 0)

  /** The capabilities a station joins with. */
  datatype Caps = Caps(shortPreamble: bool, nonErp: bool, shortSlot: bool, ht: bool, greenfield: bool, width40: bool, intolerant40: bool)

  /** What does not change while the access point runs; `erpIe` and `htIe` say that the elements are there and in use. */
  datatype Config = Config(erpIe: bool, htIe: bool, htEnabled: bool, htOption: bool, width40: bool, band24: bool, bw40: bool, offsetLower: bool)

  const MODE_PURE := 0
  const MODE_MAY_BE_LEGACY := 1
  const MODE_20MHZ := 2
  const MODE_MIXED := 3

  /** The operation mode word: the mode in bits 0 and 1, non-greenfield stations in bit 2, non-HT stations in bit 4. */
  datatype OpMode = OpMode(mode: nat, nonGf: bool, nonHt: bool)

  /** The HT Operation element, as far as it is edited. */
  datatype HtInfo = HtInfo(secondary: nat, width40: bool, mode: OpMode)

  datatype Bss = Bss(num: Counts, erp: Byte, opMode: OpMode, sw20: bool, widthReq: bool, chReported: bool, olbc: bool, olbcHt: bool, info: HtInfo)

  /** A station's flags together with the rest. */
  datatype Pair = Pair(sta: set<Flag>, bss: Bss)

  function Raised(x: Pair, f: Flag): Pair {
    if f in x.sta then x else Pair(x.sta + {f}, x.bss.(num := x.bss.num.Plus(f, 1)))
  }

  function Dropped(x: Pair, f: Flag): Pair {
    if f in x.sta then Pair(x.sta - {f}, x.bss.(num := x.bss.num.Plus(f, -1))) else x
  }

  function Set(x: Pair, f: Flag, on: bool): Pair {
    if on then Raised(x, f) else Dropped(x, f)
  }

  /** The ERP element after it is written. */
  function ErpWritten(b: Bss, cfg: Config): Bss {
    if !cfg.erpIe then b else
      var bits: Byte := (if b.num.Of(NonErp) == 1 then 3 else 0) + (if b.num.Of(NoShortPreamble) > 0 then 4 else 0);
      b.(erp := b.erp / 8 * 8 + bits)
  }

  /** The element is written when the count of non-ERP stations leaves or reaches zero. */
  function NonErpSet(x: Pair, on: bool, cfg: Config): Pair {
    var y := Set(x, NonErp, on);
    if (NonErp in x.sta) != on && y.bss.num.Of(NonErp) == (if on then 1 else 0) then Pair(y.sta, ErpWritten(y.bss, cfg)) else y
  }

  predicate Narrowing(b: Bss) {
    b.num.Of(Intolerant40) > 0 || b.widthReq || b.chReported || b.olbc
  }

  /** The HT Operation element after it is written. */
  function HtInfoWritten(b: Bss, cfg: Config): Bss {
    if !cfg.htOption || !cfg.htIe then b else
      var c := if !b.sw20 && cfg.band24 then
                 if Narrowing(b) then b.(info := b.info.(secondary := 0, width40 := false), sw20 := true) else b
               else if b.num.Of(Intolerant40) == 0 && !b.widthReq && !b.chReported && !b.olbc && cfg.bw40 then
                 b.(info := b.info.(width40 := true, secondary := if cfg.offsetLower then 1 else 3), sw20 := false)
               else b;
      c.(info := c.info.(mode := c.opMode))
  }

  function NewMode(b: Bss, cfg: Config): nat {
    if b.num.Of(NoHt) != 0 then MODE_MIXED
    else if cfg.width40 && b.num.Of(Ht20) != 0 then MODE_20MHZ
    else if b.olbcHt then MODE_MAY_BE_LEGACY
    else MODE_PURE
  }

  /** The operation mode after it is recomputed. */
  function OpModeUpdated(b: Bss, cfg: Config): OpMode {
    if !cfg.htOption then b.opMode
    else OpMode(NewMode(b, cfg), b.num.Of(NoHtGf) != 0, b.num.Of(NoHt) != 0 || b.olbcHt)
  }

  /** Recomputing the mode, and writing the element when it changed. */
  function HtUpdated(b: Bss, cfg: Config): Bss {
    var m := OpModeUpdated(b, cfg);
    if m == b.opMode then b else HtInfoWritten(b.(opMode := m), cfg)
  }

  function HtJoined(x: Pair, caps: Caps): Pair {
    if caps.ht then
      var y := Dropped(x, NoHt);
      var z := if caps.greenfield then y else Raised(y, NoHtGf);
      var w := if caps.width40 then z else Raised(z, Ht20);
      if caps.intolerant40 then Raised(w, Intolerant40) else w
    else Raised(x, NoHt)
  }

  function Joined(x: Pair, caps: Caps, cfg: Config): Pair {
    var a := Set(x, NoShortPreamble, !caps.shortPreamble);
    var b := NonErpSet(a, caps.nonErp, cfg);
    var c := Set(b, NoShortSlot, !caps.shortSlot);
    if cfg.htEnabled then var d := HtJoined(c, caps); Pair(d.sta, HtUpdated(d.bss, cfg)) else c
  }

  function HtLeft(x: Pair): Pair {
    var a := Dropped(Dropped(Dropped(x, NoHtGf), NoHt), Ht20);
    if Intolerant40 in a.sta && a.bss.num.Of(Intolerant40) <= 0 then Pair(a.sta - {Intolerant40}, a.bss) else Dropped(a, Intolerant40)
  }

  function Left(x: Pair, cfg: Config): Pair {
    var a := Dropped(x, NoShortPreamble);
    var b := NonErpSet(a, false, cfg);
    var c := HtLeft(Dropped(b, NoShortSlot));
    Pair(c.sta, HtUpdated(c.bss, cfg))
  }

  /** A 20/40 coexistence report: the element with its two bits, and an intolerant channel report behind it. */
  datatype Report = Report(coex: bool, intolerant: bool, widthReq: bool, channels: bool)

  function Reported(x: Pair, r: Report, cfg: Config): Pair {
    var a := if r.coex && r.intolerant then Raised(x, Intolerant40) else x;
    var b := if r.coex && !r.intolerant && r.widthReq then Pair(a.sta, a.bss.(widthReq := true)) else a;
    var c := if r.channels then Pair(b.sta, b.bss.(chReported := true)) else b;
    if c == x then x else Pair(c.sta, HtInfoWritten(c.bss, cfg))
  }

  // ----- runs

  type Stations = map<nat, set<Flag>>

  datatype World = World(stas: Stations, bss: Bss)

  datatype Step = Join(id: nat, caps: Caps) | Leave(id: nat) | Coex(id: nat, report: Report) | Overlap(olbc: bool, olbcHt: bool)

  function Apply(w: World, s: Step, cfg: Config): World {
    match s
    case Join(id, caps) =>
      var x := Joined(Pair(if id in w.stas then w.stas[id] else {}, w.bss), caps, cfg);
      World(w.stas[id := x.sta], x.bss)
    case Leave(id) =>
      if id !in w.stas then w else World(w.stas - {id}, Left(Pair(w.stas[id], w.bss), cfg).bss)
    case Coex(id, report) =>
      if id !in w.stas then w else
        var x := Reported(Pair(w.stas[id], w.bss), report, cfg);
        World(w.stas[id := x.sta], x.bss)
    case Overlap(olbc, olbcHt) => World(w.stas, w.bss.(olbc := olbc, olbcHt := olbcHt))
  }

  function Run(w: World, steps: seq<Step>, cfg: Config): World
    decreases |steps|
  {
    if steps == [] then w else Apply(Run(w, steps[..|steps| - 1], cfg), steps[|steps| - 1], cfg)
  }

  /** The access point as it starts: no stations, all counts zero, the protection bits of the beacon clear. */
  predicate Started(w: World) {
    w.stas == map[] && w.bss.num == ZERO && w.bss.erp % 8 == 0 && w.bss.opMode == OpMode(0, false, false) && w.bss.info.mode == w.bss.opMode && !w.bss.sw20
  }

  // ----- the counts

  ghost function Having(stas: Stations, f: Flag): set<nat> {
    set id | id in stas && f in stas[id]
  }

  ghost predicate Tallied(w: World) {
    forall f: Flag :: w.bss.num.Of(f) == |Having(w.stas, f)|
  }

  function Bit(sta: set<Flag>, f: Flag): int {
    if f in sta then 1 else 0
  }

  /** One station moved each count by exactly what its own flag moved. */
  ghost predicate Balanced(x: Pair, y: Pair) {
    forall f: Flag :: y.bss.num.Of(f) - x.bss.num.Of(f) == Bit(y.sta, f) - Bit(x.sta, f)
  }

  lemma Replaced(stas: Stations, id: nat, sta: set<Flag>, f: Flag)
    ensures |Having(stas[id := sta], f)| == |Having(stas, f)| + Bit(sta, f) - Bit(if id in stas then stas[id] else {}, f)
  {
    var before, after := Having(stas, f), Having(stas[id := sta], f);
    assert after - {id} == before - {id};
    assert id in after <==> f in sta;
    assert id in before <==> id in stas && f in stas[id];
    assert |before - {id}| == |before| - if id in before then 1 else 0;
    assert |after - {id}| == |after| - if id in after then 1 else 0;
  }

  lemma Gone(stas: Stations, id: nat, f: Flag)
    requires id in stas
    ensures |Having(stas - {id}, f)| == |Having(stas, f)| - Bit(stas[id], f)
  {
    assert Having(stas - {id}, f) == Having(stas, f) - {id};
    assert id in Having(stas, f) <==> f in stas[id];
  }

  lemma PlusMoves(c: Counts, f: Flag, d: int)
    ensures forall g: Flag :: c.Plus(f, d).Of(g) == c.Of(g) + if f == g then d else 0
  {
  }

  lemma OneMoves(x: Pair, f: Flag)
    ensures Balanced(x, Raised(x, f)) && Balanced(x, Dropped(x, f)) && Balanced(x, x)
    ensures Raised(x, f).sta == x.sta + {f} && Dropped(x, f).sta == x.sta - {f}
  {
    hide Counts.Plus, Counts.Of;
    PlusMoves(x.bss.num, f, 1);
    PlusMoves(x.bss.num, f, -1);
  }

  lemma Chained(x: Pair, y: Pair, z: Pair)
    requires Balanced(x, y) && Balanced(y, z)
    ensures Balanced(x, z)
  {
  }

  lemma NonErpBalances(x: Pair, on: bool, cfg: Config)
    ensures Balanced(x, NonErpSet(x, on, cfg))
    ensures NonErpSet(x, on, cfg).sta == if on then x.sta + {NonErp} else x.sta - {NonErp}
  {
    hide Raised, Dropped;
    OneMoves(x, NonErp);
  }

  lemma HtBalances(b: Bss, cfg: Config)
    ensures HtUpdated(b, cfg).num == b.num
  {
  }

  lemma HtJoinBalances(x: Pair, caps: Caps)
    ensures Balanced(x, HtJoined(x, caps))
  {
    hide Raised, Dropped, Balanced;
    var y := Dropped(x, NoHt);
    var z := if caps.greenfield then y else Raised(y, NoHtGf);
    var w := if caps.width40 then z else Raised(z, Ht20);
    OneMoves(x, NoHt);
    OneMoves(y, NoHtGf);
    OneMoves(z, Ht20);
    OneMoves(w, Intolerant40);
    Chained(x, y, z);
    Chained(x, z, w);
    Chained(x, w, if caps.intolerant40 then Raised(w, Intolerant40) else w);
  }

  lemma JoinBalances(x: Pair, caps: Caps, cfg: Config)
    ensures Balanced(x, Joined(x, caps, cfg))
  {
    hide Raised, Dropped, NonErpSet, HtUpdated, HtJoined;
    var a := Set(x, NoShortPreamble, !caps.shortPreamble);
    var b := NonErpSet(a, caps.nonErp, cfg);
    var c := Set(b, NoShortSlot, !caps.shortSlot);
    OneMoves(x, NoShortPreamble);
    NonErpBalances(a, caps.nonErp, cfg);
    OneMoves(b, NoShortSlot);
    HtJoinBalances(c, caps);
    HtBalances(HtJoined(c, caps).bss, cfg);
  }

  lemma HtLeftBalances(x: Pair)
    requires Intolerant40 in x.sta ==> x.bss.num.Of(Intolerant40) > 0
    ensures Balanced(x, HtLeft(x)) && HtLeft(x).sta == x.sta - {NoHtGf} - {NoHt} - {Ht20} - {Intolerant40}
  {
    hide Raised, Dropped;
    var a := Dropped(x, NoHtGf);
    var b := Dropped(a, NoHt);
    var c := Dropped(b, Ht20);
    OneMoves(x, NoHtGf);
    OneMoves(a, NoHt);
    OneMoves(b, Ht20);
    OneMoves(c, Intolerant40);
    OthersKeep(x, NoHtGf);
    OthersKeep(a, NoHt);
    OthersKeep(b, Ht20);
    assert c.bss.num.Of(Intolerant40) == x.bss.num.Of(Intolerant40);
  }

  lemma LeaveBalances(x: Pair, cfg: Config)
    requires Intolerant40 in x.sta ==> x.bss.num.Of(Intolerant40) > 0
    ensures Balanced(x, Left(x, cfg)) && Left(x, cfg).sta == {}
  {
    hide Raised, Dropped, NonErpSet, HtUpdated, HtLeft;
    var a := Dropped(x, NoShortPreamble);
    var b := NonErpSet(a, false, cfg);
    var c := Dropped(b, NoShortSlot);
    OneMoves(x, NoShortPreamble);
    NonErpBalances(a, false, cfg);
    OneMoves(b, NoShortSlot);
    HtLeftBalances(c);
    HtBalances(HtLeft(c).bss, cfg);
    forall f: Flag ensures f !in HtLeft(c).sta {
      match f
      case NoShortPreamble => case NonErp => case NoShortSlot => case NoHt => case NoHtGf => case Ht20 => case Intolerant40 =>
    }
  }

  lemma ReportBalances(x: Pair, r: Report, cfg: Config)
    ensures Balanced(x, Reported(x, r, cfg))
  {
  }

  /** After any run each count is the number of stations with the matching flag. */
  lemma {:induction false} CountsAreStations(w: World, s: Step, cfg: Config)
    requires Tallied(w)
    ensures Tallied(Apply(w, s, cfg))
  {
    hide Joined, Left, Reported;
    if s.Join? {
      JoinBalances(Pair(if s.id in w.stas then w.stas[s.id] else {}, w.bss), s.caps, cfg);
    } else if !s.Overlap? && s.id in w.stas {
      assert Intolerant40 in w.stas[s.id] ==> s.id in Having(w.stas, Intolerant40);
      if s.Leave? {
        LeaveBalances(Pair(w.stas[s.id], w.bss), cfg);
      } else {
        ReportBalances(Pair(w.stas[s.id], w.bss), s.report, cfg);
      }
    }
    var done := Apply(w, s, cfg);
    forall f: Flag ensures done.bss.num.Of(f) == |Having(done.stas, f)| {
      if s.Leave? && s.id in w.stas {
        Gone(w.stas, s.id, f);
      } else if !s.Overlap? && s.id in done.stas {
        Replaced(w.stas, s.id, done.stas[s.id], f);
      }
    }
  }

  // ----- the beacon

  /** Non-ERP present and use protection, exactly while a non-ERP station is counted. */
  predicate Protected(b: Bss, cfg: Config) {
    cfg.erpIe ==> b.erp % 4 == if b.num.Of(NonErp) > 0 then 3 else 0
  }

  /** The mode as a function of the counts, of overlapping legacy networks, and of the width of the access point. */
  function ModeOf(b: Bss, cfg: Config): OpMode {
    OpMode(if b.num.Of(NoHt) > 0 then 3 else if cfg.width40 && b.num.Of(Ht20) > 0 then 2 else if b.olbcHt then 1 else 0,
           b.num.Of(NoHtGf) > 0, b.num.Of(NoHt) > 0 || b.olbcHt)
  }

  /** The element carries the mode, and is narrow while the access point has switched to 20 MHz. */
  predicate Carried(b: Bss, cfg: Config) {
    (cfg.htOption && cfg.htIe ==> b.info.mode == b.opMode)
    && (b.sw20 ==> !b.info.width40 && b.info.secondary == 0)
  }

  ghost predicate Inv(w: World, cfg: Config) {
    Tallied(w) && Protected(w.bss, cfg) && Carried(w.bss, cfg)
  }

  /** Nothing but one flag and its count differs. */
  ghost predicate Only(x: Pair, f: Flag, y: Pair) {
    (forall g: Flag | g != f :: y.bss.num.Of(g) == x.bss.num.Of(g) && (g in y.sta <==> g in x.sta)) && y.bss.(num := x.bss.num) == x.bss
  }

  lemma OthersKeep(x: Pair, f: Flag)
    ensures Only(x, f, Raised(x, f)) && Only(x, f, Dropped(x, f)) && Only(x, f, x)
  {
    hide Counts.Plus, Counts.Of;
    PlusMoves(x.bss.num, f, 1);
    PlusMoves(x.bss.num, f, -1);
  }

  lemma WriteKeeps(b: Bss, cfg: Config)
    ensures var c := HtInfoWritten(b, cfg);
      c.(sw20 := b.sw20, info := b.info) == b
      && (cfg.htOption && cfg.htIe ==> c.info.mode == c.opMode)
      && ((b.sw20 ==> !b.info.width40 && b.info.secondary == 0) ==> (c.sw20 ==> !c.info.width40 && c.info.secondary == 0))
  {
    hide Narrowing;
  }

  lemma HtKeeps(b: Bss, cfg: Config)
    ensures var c := HtUpdated(b, cfg);
      c.(sw20 := b.sw20, info := b.info, opMode := b.opMode) == b && c.opMode == OpModeUpdated(b, cfg)
      && (Carried(b, cfg) ==> Carried(c, cfg))
  {
    hide OpModeUpdated, HtInfoWritten;
    WriteKeeps(b.(opMode := OpModeUpdated(b, cfg)), cfg);
  }

  lemma ModeIsComputed(b: Bss, cfg: Config)
    requires cfg.htOption && forall f: Flag :: b.num.Of(f) >= 0
    ensures OpModeUpdated(b, cfg) == ModeOf(b, cfg)
  {
    assert b.num.Of(NoHt) >= 0 && b.num.Of(NoHtGf) >= 0 && b.num.Of(Ht20) >= 0;
  }

  /** The count is at least what this station accounts for, so one means the first or last. */
  lemma ErpFollows(x: Pair, on: bool, cfg: Config)
    requires x.bss.num.Of(NonErp) >= Bit(x.sta, NonErp)
    ensures var y := NonErpSet(x, on, cfg);
      y.bss.(num := x.bss.num, erp := x.bss.erp) == x.bss && (forall g: Flag | g != NonErp :: y.bss.num.Of(g) == x.bss.num.Of(g))
      && (Protected(x.bss, cfg) ==> Protected(y.bss, cfg))
      && (cfg.erpIe ==> if (x.bss.num.Of(NonErp) > 0) != (y.bss.num.Of(NonErp) > 0) then BarkerRight(y.bss) else y.bss.erp == x.bss.erp)
  {
    hide Raised, Dropped, BarkerRight, ErpWritten, Counts.Of;
    OthersKeep(x, NonErp);
    OneMoves(x, NonErp);
    NothingMoves(x, NonErp);
    ErpBits(Set(x, NonErp, on).bss, cfg);
  }

  lemma NothingMoves(x: Pair, f: Flag)
    ensures (f in x.sta ==> Raised(x, f) == x) && (f !in x.sta ==> Dropped(x, f) == x)
  {
  }

  lemma ErpBits(b: Bss, cfg: Config)
    ensures cfg.erpIe ==> ErpWritten(b, cfg).erp % 4 == (if b.num.Of(NonErp) == 1 then 3 else 0) && BarkerRight(ErpWritten(b, cfg))
    ensures ErpWritten(b, cfg).(erp := b.erp) == b && (!cfg.erpIe ==> ErpWritten(b, cfg) == b)
  {
  }

  lemma HtJoinKeeps(x: Pair, caps: Caps)
    ensures var y := HtJoined(x, caps);
      y.bss.(num := x.bss.num) == x.bss && forall g | g == NonErp || g == NoShortPreamble :: y.bss.num.Of(g) == x.bss.num.Of(g)
  {
    hide Raised, Dropped;
    var y := Dropped(x, NoHt);
    var z := if caps.greenfield then y else Raised(y, NoHtGf);
    var w := if caps.width40 then z else Raised(z, Ht20);
    OthersKeep(x, NoHt);
    OthersKeep(y, NoHtGf);
    OthersKeep(z, Ht20);
    OthersKeep(w, Intolerant40);
  }

  lemma HtLeftKeeps(x: Pair)
    ensures var y := HtLeft(x);
      y.bss.(num := x.bss.num) == x.bss && forall g | g == NonErp || g == NoShortPreamble :: y.bss.num.Of(g) == x.bss.num.Of(g)
  {
    hide Raised, Dropped;
    var y := Dropped(x, NoHtGf);
    var z := Dropped(y, NoHt);
    var w := Dropped(z, Ht20);
    OthersKeep(x, NoHtGf);
    OthersKeep(y, NoHt);
    OthersKeep(z, Ht20);
    OthersKeep(w, Intolerant40);
  }

  lemma JoinKeeps(x: Pair, caps: Caps, cfg: Config)
    requires Protected(x.bss, cfg) && Carried(x.bss, cfg) && x.bss.num.Of(NonErp) >= Bit(x.sta, NonErp)
    ensures var y := Joined(x, caps, cfg).bss;
      Protected(y, cfg) && Carried(y, cfg)
      && (cfg.htEnabled && cfg.htOption && (forall f: Flag :: y.num.Of(f) >= 0) ==> y.opMode == ModeOf(y, cfg))
  {
    hide Raised, Dropped, NonErpSet, HtUpdated, HtJoined, OpModeUpdated, ModeOf;
    var a := Set(x, NoShortPreamble, !caps.shortPreamble);
    var b := NonErpSet(a, caps.nonErp, cfg);
    var c := Set(b, NoShortSlot, !caps.shortSlot);
    OthersKeep(x, NoShortPreamble);
    ErpFollows(a, caps.nonErp, cfg);
    OthersKeep(b, NoShortSlot);
    var d := HtJoined(c, caps);
    HtJoinKeeps(c, caps);
    HtKeeps(d.bss, cfg);
    if cfg.htEnabled && cfg.htOption && forall f: Flag :: d.bss.num.Of(f) >= 0 {
      ModeIsComputed(d.bss, cfg);
      SameMode(d.bss, HtUpdated(d.bss, cfg), cfg);
    }
  }

  lemma SameMode(b: Bss, c: Bss, cfg: Config)
    requires b.num == c.num && b.olbcHt == c.olbcHt
    ensures ModeOf(b, cfg) == ModeOf(c, cfg)
  {
  }

  lemma LeaveKeeps(x: Pair, cfg: Config)
    requires Protected(x.bss, cfg) && Carried(x.bss, cfg) && x.bss.num.Of(NonErp) >= Bit(x.sta, NonErp)
    ensures var y := Left(x, cfg).bss;
      Protected(y, cfg) && Carried(y, cfg)
      && (cfg.htOption && (forall f: Flag :: y.num.Of(f) >= 0) ==> y.opMode == ModeOf(y, cfg))
  {
    hide Raised, Dropped, NonErpSet, HtUpdated, HtLeft, OpModeUpdated, ModeOf;
    var a := Dropped(x, NoShortPreamble);
    var b := NonErpSet(a, false, cfg);
    var c := Dropped(b, NoShortSlot);
    OthersKeep(x, NoShortPreamble);
    ErpFollows(a, false, cfg);
    OthersKeep(b, NoShortSlot);
    var d := HtLeft(c);
    HtLeftKeeps(c);
    HtKeeps(d.bss, cfg);
    if cfg.htOption && forall f: Flag :: d.bss.num.Of(f) >= 0 {
      ModeIsComputed(d.bss, cfg);
      SameMode(d.bss, HtUpdated(d.bss, cfg), cfg);
    }
  }

  lemma ReportKeeps(x: Pair, r: Report, cfg: Config)
    requires Protected(x.bss, cfg) && Carried(x.bss, cfg)
    ensures Protected(Reported(x, r, cfg).bss, cfg) && Carried(Reported(x, r, cfg).bss, cfg)
  {
    hide Raised, HtInfoWritten;
    var a := Raised(x, Intolerant40);
    OthersKeep(x, Intolerant40);
    var b := if r.coex && r.intolerant then a.bss else x.bss;
    var c := if r.coex && !r.intolerant && r.widthReq then b.(widthReq := true) else b;
    WriteKeeps(if r.channels then c.(chReported := true) else c, cfg);
  }

  lemma StepKeepsInv(w: World, s: Step, cfg: Config)
    requires Inv(w, cfg)
    ensures Inv(Apply(w, s, cfg), cfg)
  {
    hide Joined, Left, Reported;
    CountsAreStations(w, s, cfg);
    match s
    case Join(id, caps) =>
      var sta := if id in w.stas then w.stas[id] else {};
      assert NonErp in sta ==> id in Having(w.stas, NonErp);
      JoinKeeps(Pair(sta, w.bss), caps, cfg);
    case Leave(id) =>
      if id in w.stas {
        assert NonErp in w.stas[id] ==> id in Having(w.stas, NonErp);
        LeaveKeeps(Pair(w.stas[id], w.bss), cfg);
      }
    case Coex(id, report) =>
      if id in w.stas {
        ReportKeeps(Pair(w.stas[id], w.bss), report, cfg);
      }
    case Overlap(_, _) =>
  }

  /** After every run each count is the number of stations with the flag, the protection bits are right, and the
      beacon carries the operation mode. */
  lemma {:induction false} RunKeepsInv(w: World, steps: seq<Step>, cfg: Config)
    requires Started(w)
    ensures Inv(Run(w, steps, cfg), cfg)
  {
    if steps == [] {
      forall f: Flag ensures w.bss.num.Of(f) == |Having(w.stas, f)| {
        assert Having(w.stas, f) == {};
      }
    } else {
      RunKeepsInv(w, steps[..|steps| - 1], cfg);
      StepKeepsInv(Run(w, steps[..|steps| - 1], cfg), steps[|steps| - 1], cfg);
    }
  }

  /** Right after a join or a leave with HT on, the mode is the fixed function of what is counted. */
  lemma ModeAfterJoinOrLeave(w: World, steps: seq<Step>, cfg: Config)
    requires Started(w) && steps != [] && cfg.htOption
    requires var s := steps[|steps| - 1];
      (s.Join? && cfg.htEnabled) || (s.Leave? && s.id in Run(w, steps[..|steps| - 1], cfg).stas)
    ensures var b := Run(w, steps, cfg).bss;
      b.opMode == ModeOf(b, cfg) && (cfg.htIe ==> b.info.mode == ModeOf(b, cfg))
  {
    hide Joined, Left, ModeOf;
    RunKeepsInv(w, steps, cfg);
    RunKeepsInv(w, steps[..|steps| - 1], cfg);
    var v, s := Run(w, steps[..|steps| - 1], cfg), steps[|steps| - 1];
    var sta := if s.id in v.stas then v.stas[s.id] else {};
    assert NonErp in sta ==> s.id in Having(v.stas, NonErp);
    assert v.bss.num.Of(NonErp) == |Having(v.stas, NonErp)|;
    if s.Join? {
      JoinKeeps(Pair(sta, v.bss), s.caps, cfg);
    } else {
      LeaveKeeps(Pair(sta, v.bss), cfg);
    }
  }

  // ----- what a station is counted for, and what else the beacon says

  /** The flags of a station after it joins: the first three follow what it can do; with HT on, so does being without
      HT, and the other three are only ever added, by an HT station that is not greenfield, not 40 MHz wide, or does
      not tolerate it. */
  lemma FlagsAfterJoin(x: Pair, caps: Caps, cfg: Config)
    ensures var s := Joined(x, caps, cfg).sta;
      (NoShortPreamble in s <==> !caps.shortPreamble) && (NonErp in s <==> caps.nonErp) && (NoShortSlot in s <==> !caps.shortSlot)
      && (NoHt in s <==> if cfg.htEnabled then !caps.ht else NoHt in x.sta)
      && (NoHtGf in s <==> NoHtGf in x.sta || (cfg.htEnabled && caps.ht && !caps.greenfield))
      && (Ht20 in s <==> Ht20 in x.sta || (cfg.htEnabled && caps.ht && !caps.width40))
      && (Intolerant40 in s <==> Intolerant40 in x.sta || (cfg.htEnabled && caps.ht && caps.intolerant40))
  {
    var a := Set(x, NoShortPreamble, !caps.shortPreamble);
    var b := NonErpSet(a, caps.nonErp, cfg);
    var c := Set(b, NoShortSlot, !caps.shortSlot);
    SetMeaning(x, NoShortPreamble, !caps.shortPreamble);
    SetMeaning(a, NonErp, caps.nonErp);
    SetMeaning(b, NoShortSlot, !caps.shortSlot);
    assert b.sta == Set(a, NonErp, caps.nonErp).sta;
    HtFlags(c, caps);
    hide Set, Raised, Dropped, NonErpSet, HtJoined, HtUpdated, Counts.Of;
  }

  lemma SetMeaning(x: Pair, f: Flag, on: bool)
    ensures (f in Set(x, f, on).sta <==> on) && forall g | g != f :: g in Set(x, f, on).sta <==> g in x.sta
  {
  }

  lemma HtFlags(x: Pair, caps: Caps)
    ensures var s := HtJoined(x, caps).sta;
      (NoHt in s <==> !caps.ht)
      && (NoHtGf in s <==> NoHtGf in x.sta || (caps.ht && !caps.greenfield))
      && (Ht20 in s <==> Ht20 in x.sta || (caps.ht && !caps.width40))
      && (Intolerant40 in s <==> Intolerant40 in x.sta || (caps.ht && caps.intolerant40))
      && forall f | f == NoShortPreamble || f == NonErp || f == NoShortSlot :: f in s <==> f in x.sta
  {
    hide Counts.Plus;
  }

  /** What a coexistence report leaves: an intolerant station is flagged, a request for 20 MHz or a report of intolerant
      channels is remembered, and an intolerant station's request for 20 MHz is not looked at. */
  lemma ReportIsKept(x: Pair, r: Report, cfg: Config)
    ensures var y := Reported(x, r, cfg);
      y.sta == (if r.coex && r.intolerant then x.sta + {Intolerant40} else x.sta)
      && y.bss.widthReq == (x.bss.widthReq || (r.coex && !r.intolerant && r.widthReq))
      && y.bss.chReported == (x.bss.chReported || r.channels)
      && y.bss.num.Of(Intolerant40) == x.bss.num.Of(Intolerant40) + if r.coex && r.intolerant && Intolerant40 !in x.sta then 1 else 0
  {
    hide Narrowing;
  }

  /** The ERP octet keeps its other five bits. */
  lemma OtherErpBitsStay(x: Pair, caps: Caps, cfg: Config)
    ensures Joined(x, caps, cfg).bss.erp / 8 == x.bss.erp / 8 && Left(x, cfg).bss.erp / 8 == x.bss.erp / 8
  {
    NonErpKeepsRest(Set(x, NoShortPreamble, !caps.shortPreamble), caps.nonErp, cfg);
    NonErpKeepsRest(Dropped(x, NoShortPreamble), false, cfg);
    var b := JoinIs(x, caps, cfg);
    var c := LeaveIs(x, cfg);
    OthersKeep(x, NoShortPreamble);
    hide Joined, Left, NonErpSet, Raised, Dropped, HtUpdated, Counts.Of;
  }

  lemma NonErpKeepsRest(x: Pair, on: bool, cfg: Config)
    ensures var b := NonErpSet(x, on, cfg).bss; b.(num := x.bss.num, erp := x.bss.erp) == x.bss && b.erp / 8 == x.bss.erp / 8
  {
    var y := Set(x, NonErp, on);
    OthersKeep(x, NonErp);
    hide Raised, Dropped, Counts.Of;
    var bits := (if y.bss.num.Of(NonErp) == 1 then 3 else 0) + (if y.bss.num.Of(NoShortPreamble) > 0 then 4 else 0);
    assert (x.bss.erp / 8 * 8 + bits) / 8 == x.bss.erp / 8;
  }

  /** A join is the three flags, and then the HT part on a BSS that differs in counts and the ERP octet only. */
  lemma JoinIs(x: Pair, caps: Caps, cfg: Config) returns (b: Bss)
    ensures b == x.bss.(num := b.num, erp := b.erp) && Joined(x, caps, cfg).bss == if cfg.htEnabled then HtUpdated(b, cfg) else b
    ensures Joined(x, caps, cfg).bss.erp == NonErpSet(Set(x, NoShortPreamble, !caps.shortPreamble), caps.nonErp, cfg).bss.erp
  {
    hide Raised, Dropped, NonErpSet, HtJoined, HtInfoWritten, OpModeUpdated, Counts.Of;
    var a := Set(x, NoShortPreamble, !caps.shortPreamble);
    var n := NonErpSet(a, caps.nonErp, cfg);
    var c := Set(n, NoShortSlot, !caps.shortSlot);
    OthersKeep(x, NoShortPreamble);
    NonErpKeepsRest(a, caps.nonErp, cfg);
    OthersKeep(n, NoShortSlot);
    HtJoinKeeps(c, caps);
    var d := if cfg.htEnabled then HtJoined(c, caps).bss else c.bss;
    assert d == x.bss.(num := d.num, erp := n.bss.erp);
    HtKeeps(d, cfg);
    b := d;
  }

  lemma LeaveIs(x: Pair, cfg: Config) returns (b: Bss)
    ensures b == x.bss.(num := b.num, erp := b.erp) && Left(x, cfg).bss == HtUpdated(b, cfg)
    ensures Left(x, cfg).bss.erp == NonErpSet(Dropped(x, NoShortPreamble), false, cfg).bss.erp
  {
    hide Raised, Dropped, NonErpSet, HtLeft, HtInfoWritten, OpModeUpdated, Counts.Of;
    var a := Dropped(x, NoShortPreamble);
    var n := NonErpSet(a, false, cfg);
    var c := Dropped(n, NoShortSlot);
    OthersKeep(x, NoShortPreamble);
    NonErpKeepsRest(a, false, cfg);
    OthersKeep(n, NoShortSlot);
    HtLeftKeeps(c);
    b := HtLeft(c).bss;
    assert b == x.bss.(num := b.num, erp := n.bss.erp);
    HtKeeps(b, cfg);
  }

  /** What the element says when the width changes: 20 MHz and no secondary channel, or 40 MHz and the secondary channel
      above (1) a primary channel that is the lower one, otherwise below (3). */
  predicate WidthSaid(was: Bss, b: Bss, cfg: Config) {
    (!was.sw20 && b.sw20 ==> !b.info.width40 && b.info.secondary == 0)
    && (was.sw20 && !b.sw20 ==> b.info.width40 && b.info.secondary == if cfg.offsetLower then 1 else 3)
  }

  lemma WidthIsSaid(x: Pair, caps: Caps, cfg: Config)
    ensures WidthSaid(x.bss, Joined(x, caps, cfg).bss, cfg) && WidthSaid(x.bss, Left(x, cfg).bss, cfg)
  {
    hide Joined, Left, HtUpdated, NonErpSet, Set;
    var b := JoinIs(x, caps, cfg);
    var c := LeaveIs(x, cfg);
    UpdateSaysWidth(b, cfg);
    UpdateSaysWidth(c, cfg);
  }

  lemma UpdateSaysWidth(b: Bss, cfg: Config)
    ensures WidthSaid(b, HtUpdated(b, cfg), cfg)
  {
    hide OpModeUpdated, Narrowing, Counts.Of;
  }

  // ----- what the beacon does not follow

  predicate BarkerRight(b: Bss) {
    b.erp / 4 % 2 == if b.num.Of(NoShortPreamble) > 0 then 1 else 0
  }

  /** Setting or clearing the flag moves the count from zero or to zero. */
  predicate Crosses(x: Pair, f: Flag, on: bool) {
    if on then f !in x.sta && x.bss.num.Of(f) == 0 else f in x.sta && x.bss.num.Of(f) == 1
  }

  lemma CrossesMeaning(x: Pair, f: Flag, on: bool)
    requires x.bss.num.Of(f) >= Bit(x.sta, f)
    ensures Crosses(x, f, on) <==> (x.bss.num.Of(f) > 0) != (Set(x, f, on).bss.num.Of(f) > 0)
  {
    hide Counts.Of, Raised, Dropped;
    OneMoves(x, f);
    NothingMoves(x, f);
  }

  /** The Barker preamble bit is right after a join exactly when the join moves the count of non-ERP stations from or
      to zero, or does not move the count of stations without short preamble so. */
  lemma BarkerAfterJoin(x: Pair, caps: Caps, cfg: Config)
    requires cfg.erpIe && BarkerRight(x.bss)
    requires x.bss.num.Of(NonErp) >= Bit(x.sta, NonErp) && x.bss.num.Of(NoShortPreamble) >= Bit(x.sta, NoShortPreamble)
    ensures BarkerRight(Joined(x, caps, cfg).bss) <==> Crosses(x, NonErp, caps.nonErp) || !Crosses(x, NoShortPreamble, !caps.shortPreamble)
  {
    hide Raised, Dropped, NonErpSet, HtUpdated, HtJoined, Carried, OpModeUpdated, Crosses, Counts.Of;
    var a := Set(x, NoShortPreamble, !caps.shortPreamble);
    var n := NonErpSet(a, caps.nonErp, cfg);
    var c := Set(n, NoShortSlot, !caps.shortSlot);
    OthersKeep(x, NoShortPreamble);
    CrossesMeaning(x, NoShortPreamble, !caps.shortPreamble);
    CrossesMeaning(a, NonErp, caps.nonErp);
    SameCrossing(x, a, NonErp, caps.nonErp);
    NonErpCounts(a, caps.nonErp, cfg);
    ErpFollows(a, caps.nonErp, cfg);
    OthersKeep(n, NoShortSlot);
    HtJoinKeeps(c, caps);
    HtKeeps(HtJoined(c, caps).bss, cfg);
  }

  /** The same for a leave, which clears both flags. */
  lemma BarkerAfterLeave(x: Pair, cfg: Config)
    requires cfg.erpIe && BarkerRight(x.bss)
    requires x.bss.num.Of(NonErp) >= Bit(x.sta, NonErp) && x.bss.num.Of(NoShortPreamble) >= Bit(x.sta, NoShortPreamble)
    ensures BarkerRight(Left(x, cfg).bss) <==> Crosses(x, NonErp, false) || !Crosses(x, NoShortPreamble, false)
  {
    hide Raised, Dropped, NonErpSet, HtUpdated, HtLeft, Carried, OpModeUpdated, Crosses, Counts.Of;
    var a := Dropped(x, NoShortPreamble);
    var n := NonErpSet(a, false, cfg);
    var c := Dropped(n, NoShortSlot);
    OthersKeep(x, NoShortPreamble);
    CrossesMeaning(x, NoShortPreamble, false);
    CrossesMeaning(a, NonErp, false);
    SameCrossing(x, a, NonErp, false);
    NonErpCounts(a, false, cfg);
    ErpFollows(a, false, cfg);
    OthersKeep(n, NoShortSlot);
    HtLeftKeeps(c);
    HtKeeps(HtLeft(c).bss, cfg);
  }

  lemma SameCrossing(x: Pair, y: Pair, f: Flag, on: bool)
    requires x.bss.num.Of(f) == y.bss.num.Of(f) && (f in x.sta <==> f in y.sta)
    ensures Crosses(x, f, on) <==> Crosses(y, f, on)
  {
  }

  lemma NonErpCounts(x: Pair, on: bool, cfg: Config)
    ensures NonErpSet(x, on, cfg).bss.num == Set(x, NonErp, on).bss.num
  {
  }

  /** A station without short preamble joins a new network: the bit stays clear. */
  lemma BarkerLagsBehind() returns (w: World, steps: seq<Step>, cfg: Config)
    ensures Started(w) && cfg.erpIe && !BarkerRight(Run(w, steps, cfg).bss)
  {
    cfg := Config(true, true, true, true, true, true, true, true);
    w := World(map[], Bss(ZERO, 0, OpMode(0, false, false), false, false, false, false, false, HtInfo(1, true, OpMode(0, false, false))));
    steps := [Join(1, Caps(false, false, true, true, true, true, false))];
    assert steps[..0] == [];
    assert Run(w, steps, cfg) == Apply(w, steps[0], cfg);
  }

  /** A coexistence report that brings anything new narrows a 2.4 GHz beacon to 20 MHz. */
  lemma ReportNarrows(x: Pair, r: Report, cfg: Config)
    requires cfg.htOption && cfg.htIe && cfg.band24 && Carried(x.bss, cfg) && x.bss.num.Of(Intolerant40) >= 0
    requires Reported(x, r, cfg) != x
    ensures var b := Reported(x, r, cfg).bss; b.sw20 && !b.info.width40 && b.info.secondary == 0
  {
    hide Raised, Counts.Of, HtInfoWritten, Narrowing;
    var a := Raised(x, Intolerant40);
    OthersKeep(x, Intolerant40);
    OneMoves(x, Intolerant40);
    NothingMoves(x, Intolerant40);
    assert Intolerant40 !in x.sta ==> a.bss.num.Of(Intolerant40) > 0;
    var b := if r.coex && r.intolerant then a else x;
    var c := if r.coex && !r.intolerant && r.widthReq then Pair(b.sta, b.bss.(widthReq := true)) else b;
    var d := if r.channels then Pair(c.sta, c.bss.(chReported := true)) else c;
    if d != x {
      Asks(d.bss);
      NarrowedWhenAsked(d.bss, cfg);
    }
  }

  lemma Asks(b: Bss)
    ensures b.num.Of(Intolerant40) > 0 || b.widthReq || b.chReported ==> Narrowing(b)
  {
  }

  lemma NarrowedWhenAsked(b: Bss, cfg: Config)
    requires cfg.htOption && cfg.htIe && cfg.band24 && Narrowing(b) && (b.sw20 ==> !b.info.width40 && b.info.secondary == 0)
    requires b.num.Of(Intolerant40) >= 0
    ensures var c := HtInfoWritten(b, cfg); c.sw20 && !c.info.width40 && c.info.secondary == 0
  {
  }

  /** The count of stations with the flag after this one sets or clears it. */
  function CountAfter(x: Pair, f: Flag, on: bool): int {
    x.bss.num.Of(f) + (if on then 1 else 0) - Bit(x.sta, f)
  }

  /** The mode a join leads to, from the state before it. */
  function ModeToBe(x: Pair, caps: Caps, cfg: Config): OpMode {
    ModeOf(x.bss.(num := x.bss.num.(
             noHt := CountAfter(x, NoHt, !caps.ht),
             noHtGf := if caps.ht && !caps.greenfield then CountAfter(x, NoHtGf, true) else x.bss.num.Of(NoHtGf),
             ht20 := if caps.ht && !caps.width40 then CountAfter(x, Ht20, true) else x.bss.num.Of(Ht20))), cfg)
  }

  /** The mode a leave leads to, from the state before it. */
  function ModeLeft(x: Pair, cfg: Config): OpMode {
    ModeOf(x.bss.(num := x.bss.num.(noHt := CountAfter(x, NoHt, false), noHtGf := CountAfter(x, NoHtGf, false), ht20 := CountAfter(x, Ht20, false))), cfg)
  }

  /** Is the network at 20 MHz after a write of the element? A narrowed one goes back only if it started at 40 MHz. */
  predicate NarrowWritten(sw20: bool, unwelcome: bool, cfg: Config) {
    if sw20 then unwelcome || !cfg.bw40 else unwelcome && cfg.band24
  }

  /** The width follows a join exactly when the operation mode changes with it: then it goes by whether 40 MHz was or
      becomes unwelcome, otherwise it stays. */
  lemma WidthAfterJoin(x: Pair, caps: Caps, cfg: Config)
    requires cfg.htOption && cfg.htIe && cfg.htEnabled
    requires forall f: Flag :: x.bss.num.Of(f) >= Bit(x.sta, f)
    ensures Joined(x, caps, cfg).bss.sw20 <==>
      if ModeToBe(x, caps, cfg) == x.bss.opMode then x.bss.sw20
      else NarrowWritten(x.bss.sw20, Narrowing(x.bss) || (caps.ht && caps.intolerant40), cfg)
  {
    hide Joined, OpModeUpdated, HtJoined, HtUpdated, HtAlike, Counts.Of, ModeToBe, Narrowing, NarrowWritten, CountAfter;
    var c := HtPartOfJoin(x, caps, cfg);
    SameHt(x, c, cfg);
    SameModeToBe(x, c, caps, cfg);
    HtJoinedCounts(c, caps, cfg);
    HtJoinKeeps(c, caps);
    HtUpdateNarrows(HtJoined(c, caps).bss, cfg);
  }

  lemma HtPartOfJoin(x: Pair, caps: Caps, cfg: Config) returns (c: Pair)
    requires cfg.htEnabled && x.bss.num.Of(NonErp) >= Bit(x.sta, NonErp)
    ensures HtAlike(x, c) && Joined(x, caps, cfg).bss == HtUpdated(HtJoined(c, caps).bss, cfg)
  {
    hide Raised, Dropped, NonErpSet, HtUpdated, HtJoined, Protected, Counts.Of;
    var a := Set(x, NoShortPreamble, !caps.shortPreamble);
    var n := NonErpSet(a, caps.nonErp, cfg);
    c := Set(n, NoShortSlot, !caps.shortSlot);
    OthersKeep(x, NoShortPreamble);
    ErpFollows(a, caps.nonErp, cfg);
    NonErpBalances(a, caps.nonErp, cfg);
    OthersKeep(n, NoShortSlot);
  }

  /** The same for a leave, which also withdraws the station's own intolerance. */
  lemma WidthAfterLeave(x: Pair, cfg: Config)
    requires cfg.htOption && cfg.htIe
    requires forall f: Flag :: x.bss.num.Of(f) >= Bit(x.sta, f)
    ensures Left(x, cfg).bss.sw20 <==>
      if ModeLeft(x, cfg) == x.bss.opMode then x.bss.sw20
      else NarrowWritten(x.bss.sw20, CountAfter(x, Intolerant40, false) > 0 || x.bss.widthReq || x.bss.chReported || x.bss.olbc, cfg)
  {
    hide Raised, Dropped, NonErpSet, OpModeUpdated, HtLeft, Protected, Counts.Of, ModeLeft, Narrowing, NarrowWritten;
    var a := Dropped(x, NoShortPreamble);
    var n := NonErpSet(a, false, cfg);
    var c := Dropped(n, NoShortSlot);
    OthersKeep(x, NoShortPreamble);
    ErpFollows(a, false, cfg);
    NonErpBalances(a, false, cfg);
    OthersKeep(n, NoShortSlot);
    HtLeftKeeps(c);
    var d := HtLeft(c).bss;
    assert d.(num := x.bss.num, erp := x.bss.erp) == x.bss;
    SameHt(x, c, cfg);
    HtLeftCounts(c, cfg);
    HtUpdateNarrows(d, cfg);
  }

  /** The earlier parts of a join or leave leave what the HT part looks at. */
  lemma SameHt(x: Pair, y: Pair, cfg: Config)
    requires HtAlike(x, y)
    ensures Narrowing(x.bss) == Narrowing(y.bss) && ModeLeft(x, cfg) == ModeLeft(y, cfg)
    ensures forall f | f == NoHt || f == NoHtGf || f == Ht20 || f == Intolerant40 :: y.bss.num.Of(f) == x.bss.num.Of(f) && (f in y.sta <==> f in x.sta)
    ensures y.bss.opMode == x.bss.opMode && y.bss.sw20 == x.bss.sw20
    ensures CountAfter(x, Intolerant40, false) == CountAfter(y, Intolerant40, false)
  {
  }

  lemma SameModeToBe(x: Pair, y: Pair, caps: Caps, cfg: Config)
    requires HtAlike(x, y)
    ensures ModeToBe(x, caps, cfg) == ModeToBe(y, caps, cfg)
  {
  }

  predicate HtAlike(x: Pair, y: Pair) {
    y.bss.(num := x.bss.num, erp := x.bss.erp) == x.bss
    && forall f | f == NoHt || f == NoHtGf || f == Ht20 || f == Intolerant40 :: y.bss.num.Of(f) == x.bss.num.Of(f) && (f in y.sta <==> f in x.sta)
  }

  lemma HtJoinedCounts(x: Pair, caps: Caps, cfg: Config)
    requires cfg.htOption && forall f: Flag | f != NonErp && f != NoShortPreamble && f != NoShortSlot :: x.bss.num.Of(f) >= Bit(x.sta, f)
    ensures var b := HtJoined(x, caps).bss;
      OpModeUpdated(b, cfg) == ModeToBe(x, caps, cfg) && b.num.Of(Intolerant40) >= 0
      && (Narrowing(b) <==> Narrowing(x.bss) || (caps.ht && caps.intolerant40))
  {
    hide HtJoined;
    HtJoinKeeps(x, caps);
    HtJoinMoves(x, caps);
  }

  lemma HtJoinMoves(x: Pair, caps: Caps)
    ensures var num := HtJoined(x, caps).bss.num;
      num.Of(NoHt) == CountAfter(x, NoHt, !caps.ht)
      && num.Of(NoHtGf) == (if caps.ht && !caps.greenfield then CountAfter(x, NoHtGf, true) else x.bss.num.Of(NoHtGf))
      && num.Of(Ht20) == (if caps.ht && !caps.width40 then CountAfter(x, Ht20, true) else x.bss.num.Of(Ht20))
      && num.Of(Intolerant40) == (if caps.ht && caps.intolerant40 then CountAfter(x, Intolerant40, true) else x.bss.num.Of(Intolerant40))
  {
    hide Raised, Dropped, Counts.Of;
    var y := if caps.ht then Dropped(x, NoHt) else Raised(x, NoHt);
    var z := if caps.greenfield then y else Raised(y, NoHtGf);
    var w := if caps.width40 then z else Raised(z, Ht20);
    OthersKeep(x, NoHt);
    OthersKeep(y, NoHtGf);
    OthersKeep(z, Ht20);
    OthersKeep(w, Intolerant40);
    Moved(x, NoHt);
    Moved(y, NoHtGf);
    Moved(z, Ht20);
    Moved(w, Intolerant40);
  }

  lemma HtLeftCounts(x: Pair, cfg: Config)
    requires cfg.htOption && forall f: Flag | f != NonErp && f != NoShortPreamble && f != NoShortSlot :: x.bss.num.Of(f) >= Bit(x.sta, f)
    ensures var b := HtLeft(x).bss;
      OpModeUpdated(b, cfg) == ModeLeft(x, cfg) && b.num.Of(Intolerant40) >= 0
      && (Narrowing(b) <==> CountAfter(x, Intolerant40, false) > 0 || b.widthReq || b.chReported || b.olbc)
  {
    hide HtLeft;
    HtLeftKeeps(x);
    HtLeftMoves(x);
  }

  lemma HtLeftMoves(x: Pair)
    requires x.bss.num.Of(Intolerant40) >= Bit(x.sta, Intolerant40)
    ensures forall f | f == NoHt || f == NoHtGf || f == Ht20 || f == Intolerant40 :: HtLeft(x).bss.num.Of(f) == CountAfter(x, f, false)
  {
    hide Raised, Dropped, Counts.Of;
    var y := Dropped(x, NoHtGf);
    var z := Dropped(y, NoHt);
    var w := Dropped(z, Ht20);
    OthersKeep(x, NoHtGf);
    OthersKeep(y, NoHt);
    OthersKeep(z, Ht20);
    OthersKeep(w, Intolerant40);
    Moved(x, NoHtGf);
    Moved(y, NoHt);
    Moved(z, Ht20);
    Moved(w, Intolerant40);
  }

  lemma Moved(x: Pair, f: Flag)
    ensures Raised(x, f).bss.num.Of(f) == CountAfter(x, f, true) && Dropped(x, f).bss.num.Of(f) == CountAfter(x, f, false)
  {
    hide Counts.Of, Raised, Dropped;
    OneMoves(x, f);
  }

  /** A station that does not tolerate 40 MHz joins a new network: it goes on announcing 40 MHz. */
  lemma WidthLagsBehind() returns (w: World, steps: seq<Step>, cfg: Config)
    ensures Started(w) && cfg.htOption && cfg.htIe && cfg.band24 && cfg.htEnabled
    ensures var b := Run(w, steps, cfg).bss; Narrowing(b) && !b.sw20 && b.info.width40
  {
    cfg := Config(true, true, true, true, true, true, true, true);
    w := World(map[], Bss(ZERO, 0, OpMode(0, false, false), false, false, false, false, false, HtInfo(1, true, OpMode(0, false, false))));
    steps := [Join(1, Caps(true, false, true, true, true, true, true))];
    assert steps[..0] == [];
    assert Run(w, steps, cfg) == Apply(w, steps[0], cfg);
  }

  lemma HtUpdateNarrows(b: Bss, cfg: Config)
    requires cfg.htOption && cfg.htIe && b.num.Of(Intolerant40) >= 0
    ensures HtUpdated(b, cfg).sw20 <==> if OpModeUpdated(b, cfg) == b.opMode then b.sw20 else NarrowWritten(b.sw20, Narrowing(b), cfg)
  {
    hide OpModeUpdated;
  }

  // ----- the code

  class StaInfo {
    var flags: set<Flag>

    constructor ()
      ensures flags == {}
    {
      flags := {};
    }
  }

  class MlmePriv {
    const cfg: Config
    var num: Counts
    var erp: Byte
    var htOpMode: OpMode
    var swTo20mhz: bool
    var ht20mhzWidthReq: bool
    var htIntolerantChReported: bool
    var olbc: bool
    var olbcHt: bool
    var info: HtInfo

    /** start_ap_mode; the beacon comes with `erp` and `info`. */
    constructor (cfg: Config, erp: Byte, info: HtInfo)
      ensures Abs() == Bss(ZERO, erp, OpMode(0, false, false), false, false, false, false, false, info) && this.cfg == cfg
      ensures erp % 8 == 0 && info.mode == OpMode(0, false, false) ==> Started(World(map[], Abs()))
    {
      this.cfg, num, this.erp, htOpMode, this.info := cfg, ZERO, erp, OpMode(0, false, false), info;
      swTo20mhz, ht20mhzWidthReq, htIntolerantChReported, olbc, olbcHt := false, false, false, false, false;
    }

    function Abs(): Bss
      reads this
    {
      Bss(num, erp, htOpMode, swTo20mhz, ht20mhzWidthReq, htIntolerantChReported, olbc, olbcHt, info)
    }

    method Raise(psta: StaInfo, f: Flag) returns (moved: bool)
      modifies this`num, psta
      ensures Pair(psta.flags, Abs()) == old(Raised(Pair(psta.flags, Abs()), f)) && moved == (f !in old(psta.flags))
    {
      moved := f !in psta.flags;
      if moved {
        psta.flags := psta.flags + {f};
        num := num.Plus(f, 1);
      }
    }

    method Drop(psta: StaInfo, f: Flag) returns (moved: bool)
      modifies this`num, psta
      ensures Pair(psta.flags, Abs()) == old(Dropped(Pair(psta.flags, Abs()), f)) && moved == (f in old(psta.flags))
    {
      moved := f in psta.flags;
      if moved {
        psta.flags := psta.flags - {f};
        num := num.Plus(f, -1);
      }
    }

    method UpdateBcnErpinfoIe()
      modifies this`erp
      ensures Abs() == old(ErpWritten(Abs(), cfg))
    {
      if !cfg.erpIe {
        return;
      }
      var rest := erp / 8;
      var protection := if num.Of(NonErp) == 1 then 3 else 0;
      var barker := if num.Of(NoShortPreamble) > 0 then 1 else 0;
      erp := 8 * rest + 4 * barker + protection;
    }

    method UpdateBcnHtinfoIe()
      modifies this`info, this`swTo20mhz
      ensures Abs() == old(HtInfoWritten(Abs(), cfg))
    {
      if !cfg.htOption || !cfg.htIe {
        return;
      }
      if !swTo20mhz && cfg.band24 {
        if num.Of(Intolerant40) > 0 || ht20mhzWidthReq || htIntolerantChReported || olbc {
          info := info.(secondary := 0);
          info := info.(width40 := false);
          swTo20mhz := true;
        }
      } else {
        if num.Of(Intolerant40) == 0 && !ht20mhzWidthReq && !htIntolerantChReported && !olbc {
          if cfg.bw40 {
            info := info.(width40 := true);
            info := info.(secondary := if cfg.offsetLower then 1 else 3);
            swTo20mhz := false;
          }
        }
      }
      info := info.(mode := htOpMode);
    }

    method HtOperationUpdate() returns (changes: nat)
      modifies this`htOpMode
      ensures Abs() == old(Abs().(opMode := OpModeUpdated(Abs(), cfg))) && (changes > 0 <==> htOpMode != old(htOpMode))
    {
      changes := 0;
      if !cfg.htOption {
        return;
      }
      var mode := htOpMode;
      if !mode.nonGf && num.Of(NoHtGf) != 0 {
        mode := mode.(nonGf := true);
        changes := changes + 1;
      } else if mode.nonGf && num.Of(NoHtGf) == 0 {
        mode := mode.(nonGf := false);
        changes := changes + 1;
      }
      assert mode == htOpMode.(nonGf := num.Of(NoHtGf) != 0) && (changes > 0 <==> mode != htOpMode);
      if !mode.nonHt && (num.Of(NoHt) != 0 || olbcHt) {
        mode := mode.(nonHt := true);
        changes := changes + 1;
      } else if mode.nonHt && num.Of(NoHt) == 0 && !olbcHt {
        mode := mode.(nonHt := false);
        changes := changes + 1;
      }
      assert mode == htOpMode.(nonGf := num.Of(NoHtGf) != 0, nonHt := num.Of(NoHt) != 0 || olbcHt) && (changes > 0 <==> mode != htOpMode);
      var newOpMode := MODE_PURE;
      if num.Of(NoHt) != 0 {
        newOpMode := MODE_MIXED;
      } else if cfg.width40 && num.Of(Ht20) != 0 {
        newOpMode := MODE_20MHZ;
      } else if olbcHt {
        newOpMode := MODE_MAY_BE_LEGACY;
      }
      assert newOpMode == NewMode(Abs(), cfg);
      if mode.mode != newOpMode {
        mode := mode.(mode := newOpMode);
        changes := changes + 1;
      }
      htOpMode := mode;
    }

    /** The last part of a join or a leave. */
    method HtUpdate()
      modifies this`htOpMode, this`info, this`swTo20mhz
      ensures Abs() == old(HtUpdated(Abs(), cfg))
    {
      hide HtInfoWritten, OpModeUpdated;
      var changes := HtOperationUpdate();
      if changes > 0 {
        UpdateBcnHtinfoIe();
      }
    }

    method SetNonErp(psta: StaInfo, on: bool)
      modifies this`num, this`erp, psta
      ensures Pair(psta.flags, Abs()) == old(NonErpSet(Pair(psta.flags, Abs()), on, cfg))
    {
      hide ErpWritten;
      var moved;
      if on {
        moved := Raise(psta, NonErp);
        if moved && num.Of(NonErp) == 1 {
          UpdateBcnErpinfoIe();
        }
      } else {
        moved := Drop(psta, NonErp);
        if moved && num.Of(NonErp) == 0 {
          UpdateBcnErpinfoIe();
        }
      }
    }

    method HtJoin(psta: StaInfo, caps: Caps)
      modifies this`num, psta
      ensures Pair(psta.flags, Abs()) == old(HtJoined(Pair(psta.flags, Abs()), caps))
    {
      hide Raised, Dropped;
      var moved;
      if caps.ht {
        moved := Drop(psta, NoHt);
        if !caps.greenfield {
          moved := Raise(psta, NoHtGf);
        }
        if !caps.width40 {
          moved := Raise(psta, Ht20);
        }
        if caps.intolerant40 {
          moved := Raise(psta, Intolerant40);
        }
      } else {
        moved := Raise(psta, NoHt);
      }
    }

    method BssCapUpdateOnStaJoin(psta: StaInfo, caps: Caps)
      modifies this, psta
      ensures Pair(psta.flags, Abs()) == old(Joined(Pair(psta.flags, Abs()), caps, cfg))
    {
      hide Raised, Dropped, NonErpSet, HtJoined, HtUpdated;
      var moved;
      if !caps.shortPreamble {
        moved := Raise(psta, NoShortPreamble);
      } else {
        moved := Drop(psta, NoShortPreamble);
      }
      SetNonErp(psta, caps.nonErp);
      if !caps.shortSlot {
        moved := Raise(psta, NoShortSlot);
      } else {
        moved := Drop(psta, NoShortSlot);
      }
      if cfg.htEnabled {
        HtJoin(psta, caps);
        HtUpdate();
      }
    }

    method HtLeave(psta: StaInfo)
      modifies this`num, psta
      ensures Pair(psta.flags, Abs()) == old(HtLeft(Pair(psta.flags, Abs())))
    {
      hide Raised, Dropped;
      var moved := Drop(psta, NoHtGf);
      moved := Drop(psta, NoHt);
      moved := Drop(psta, Ht20);
      if Intolerant40 in psta.flags && num.Of(Intolerant40) <= 0 {
        psta.flags := psta.flags - {Intolerant40};
      } else {
        moved := Drop(psta, Intolerant40);
      }
    }

    method BssCapUpdateOnStaLeave(psta: StaInfo)
      modifies this, psta
      ensures Pair(psta.flags, Abs()) == old(Left(Pair(psta.flags, Abs()), cfg))
    {
      hide Raised, Dropped, NonErpSet, HtLeft, HtUpdated;
      var moved := Drop(psta, NoShortPreamble);
      SetNonErp(psta, false);
      moved := Drop(psta, NoShortSlot);
      HtLeave(psta);
      HtUpdate();
    }

    method ProcessBssCoex(psta: StaInfo, r: Report)
      modifies this, psta
      ensures Pair(psta.flags, Abs()) == old(Reported(Pair(psta.flags, Abs()), r, cfg))
    {
      hide HtInfoWritten;
      var updated := false;
      if r.coex {
        if r.intolerant {
          updated := Raise(psta, Intolerant40);
          if updated {
            assert psta.flags != old(psta.flags);
          }
        } else if r.widthReq {
          updated := !ht20mhzWidthReq;
          ht20mhzWidthReq := true;
        }
      }
      if r.channels && !htIntolerantChReported {
        htIntolerantChReported := true;
        updated := true;
      }
      if updated {
        UpdateBcnHtinfoIe();
      }
    }
  }
}
