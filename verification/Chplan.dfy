/** Selecting and merging regulatory requests, applying them to the channel set, and beacon hints (core/rtw_chplan.c). */
module Chplan {
  import opened Octets
  import opened Rf
  import opened Dfs
  import opened Regd
  import DfsSafety

  const UNSPECIFIED := 0xff
  const WORLDWIDE := "00"
  const UNSPEC := "99"
  const INTERSECTED := "98"
  const HINT_STOPPED := 0

  /** The tables and settings: what each domain lists, what the operating system says of the channels it knows, the
      flags that disable a channel, excluded channels up to the first zero, and requests that are always applied. */
  datatype Rules = Rules(plans: map<Byte, map<nat, set<Flag>>>, os: map<nat, set<Flag>>, disFlags: set<Flag>, excluded: seq<nat>, initAlways: bool, userAlways: bool)

  /** No plan lists a channel as disabled. */
  ghost predicate Clean(rules: Rules) {
    forall d, n | d in rules.plans && n in rules.plans[d] :: Flag.Dis !in rules.plans[d][n]
  }

  /** A channel of the set: `regNoIr` keeps what regulation says while a hint makes it active until `hintEnd`. */
  datatype RegCh = RegCh(ch: Channel, regNoIr: bool, hintEnd: int) {
    predicate Hinted(now: int) {
      hintEnd != HINT_STOPPED && hintEnd > now
    }
  }

  // ----- which requests are applied

  function SrcRank(s: Src): nat {
    match s
    case RtkPriv => 0
    case Os => 1
  }

  function InrRank(i: Inr): nat {
    match i
    case Init => 0
    case User => 1
    case CountryIe => 2
    case Driver => 3
    case Core => 4
  }

  predicate Always(r: Req, rules: Rules) {
    (r.inr == Init && rules.initAlways) || (r.inr == User && rules.userAlways)
  }

  /** A request of the highest source is applied when its initiator is the highest there, or is always applied. */
  predicate Chosen(q: seq<Req>, r: Req, rules: Rules) {
    (forall i | 0 <= i < |q| :: SrcRank(q[i].src) <= SrcRank(r.src))
    && (Always(r, rules) || forall i | 0 <= i < |q| && q[i].src == r.src :: InrRank(q[i].inr) <= InrRank(r.inr))
  }

  function Selected(q: seq<Req>, rules: Rules): (s: seq<Req>)
    ensures |s| == |q| && forall i | 0 <= i < |q| :: s[i] == q[i].(applied := Chosen(q, q[i], rules))
  {
    seq(|q|, i requires 0 <= i < |q| => q[i].(applied := Chosen(q, q[i], rules)))
  }

  /** Initiators from the least to the most important. */
  predicate Outranks(a: Inr, b: Inr) {
    match b
    case Init => a != Init
    case User => a == CountryIe || a == Driver || a == Core
    case CountryIe => a == Driver || a == Core
    case Driver => a == Core
    case Core => false
  }

  /** Which requests are applied: those of the operating system if it has any, otherwise those of the driver; and of
      these the ones no other outranks, and the initial and the user's request where they always are. */
  lemma SelectedMeaning(q: seq<Req>, rules: Rules, i: nat)
    requires i < |q|
    ensures Selected(q, rules)[i] == q[i].(applied := Selected(q, rules)[i].applied)
    ensures Selected(q, rules)[i].applied <==>
      (q[i].src == Os || forall j | 0 <= j < |q| :: q[j].src != Os)
      && ((q[i].inr == Init && rules.initAlways) || (q[i].inr == User && rules.userAlways)
          || forall j | 0 <= j < |q| && q[j].src == q[i].src :: !Outranks(q[j].inr, q[i].inr))
  {
    forall a: Inr, b: Inr ensures InrRank(a) <= InrRank(b) <==> !Outranks(a, b) {
    }
    forall a: Src ensures SrcRank(a) <= SrcRank(q[i].src) <==> q[i].src == Os || a != Os {
    }
    hide InrRank, SrcRank, Outranks;
  }

  /** What an applied request brings: its plan, and whether that or the operating system speaks for the channels. */
  datatype Grant = Grant(src: Src, plan: Plan)

  function GrantOf(r: Req): Grant {
    Grant(r.src, r.plan)
  }

  ghost function Applied(q: seq<Req>): set<Grant> {
    set i | 0 <= i < |q| && q[i].applied :: GrantOf(q[i])
  }

  lemma AppliedAppend(q: seq<Req>, r: Req)
    ensures Applied(q + [r]) == Applied(q) + if r.applied then {GrantOf(r)} else {}
  {
    var s := q + [r];
    assert s[|q|] == r && forall i | 0 <= i < |q| :: s[i] == q[i];
    forall p | p in Applied(q) ensures p in Applied(s) {
      var i :| 0 <= i < |q| && q[i].applied && GrantOf(q[i]) == p;
      assert s[i].applied && GrantOf(s[i]) == p;
    }
  }

  // ----- the merged status

  datatype RegStatus = RegStatus(alpha2: Alpha2, domain: Byte, protoEn: set<Proto>)

  ghost predicate Agree(plans: set<Grant>) {
    forall p, r | p in plans && r in plans :: p.plan.alpha2 == r.plan.alpha2 && p.plan.domain == r.plan.domain
  }

  ghost predicate SameDomain(plans: set<Grant>) {
    forall p, r | p in plans && r in plans :: p.plan.domain == r.plan.domain
  }

  /** The country survives only on full agreement, the domain only when all have it, the protocols as far as all
      allow them. */
  ghost predicate Merges(plans: set<Grant>, st: RegStatus) {
    (if Agree(plans) then forall p | p in plans :: p.plan.alpha2 == st.alpha2 else st.alpha2 == INTERSECTED)
    && (if SameDomain(plans) then forall p | p in plans :: p.plan.domain == st.domain else st.domain == UNSPECIFIED)
    && (forall x: Proto :: x in st.protoEn <==> forall p | p in plans :: x in p.plan.protoEn)
  }

  function First(p: Plan): RegStatus {
    RegStatus(p.alpha2, p.domain, p.protoEn)
  }

  function Merged(st: RegStatus, p: Plan): RegStatus {
    RegStatus(if st.alpha2 != p.alpha2 || st.domain != p.domain then INTERSECTED else st.alpha2,
              if st.domain != p.domain then UNSPECIFIED else st.domain, st.protoEn * p.protoEn)
  }

  lemma MergedMerges(plans: set<Grant>, st: RegStatus, p: Grant)
    requires plans != {} && Merges(plans, st)
    ensures Merges(plans + {p}, Merged(st, p.plan))
  {
    var all := plans + {p};
    var r :| r in plans;
    assert p in all && r in all;
    assert forall o | o in plans :: o in all;
    if SameDomain(plans) {
      assert r.plan.domain == st.domain;
    } else {
      assert !SameDomain(all);
    }
    if Agree(plans) {
      assert SameDomain(plans);
      assert r.plan.alpha2 == st.alpha2;
    } else {
      assert !Agree(all);
    }
  }

  /** The merged status is determined by the set of plans. */
  lemma MergeIsUnique(plans: set<Grant>, a: RegStatus, b: RegStatus)
    requires plans != {} && Merges(plans, a) && Merges(plans, b)
    ensures a == b
  {
    var p :| p in plans;
    assert forall x: Proto :: x in a.protoEn <==> x in b.protoEn;
  }

  // ----- the flags of a channel

  predicate IsExcluded(excluded: seq<nat>, num: nat) {
    excluded != [] && excluded[0] != 0 && (excluded[0] == num || IsExcluded(excluded[1..], num))
  }

  /** The band is allowed and the channel is not excluded. */
  predicate Admitted(rules: Rules, protoEn: set<Proto>, c: Channel) {
    (c.band == Band5 ==> ProtoA in protoEn) && !IsExcluded(rules.excluded, c.num)
  }

  /** What one request says of a channel: nothing when its plan is not valid. */
  datatype Verdict = Silent | Refuses | Lists(flags: set<Flag>)

  function VerdictOf(rules: Rules, g: Grant, num: nat): Verdict {
    match g.src
    case RtkPriv =>
      if g.plan.domain !in rules.plans then Silent
      else
        var plan := rules.plans[g.plan.domain];
        if num in plan && plan[num] !! rules.disFlags then Lists(plan[num]) else Refuses
    case Os =>
      var flags := if num in rules.os then rules.os[num] else {Flag.Dis};
      if Flag.Dis in flags || !(flags !! rules.disFlags) then Refuses else Lists(flags)
  }

  /** A request in the set forbids the channel. */
  ghost predicate Forbidden(rules: Rules, plans: set<Grant>, num: nat) {
    exists g :: g in plans && VerdictOf(rules, g, num).Refuses?
  }

  /** A request in the set puts the flag on the channel. */
  ghost predicate Flagged(rules: Rules, plans: set<Grant>, num: nat, f: Flag) {
    exists g :: g in plans && VerdictOf(rules, g, num).Lists? && f in VerdictOf(rules, g, num).flags
  }

  /** What the applied requests make of a channel: disabled, or enabled with the union of their flags. */
  ghost predicate Regulated(rules: Rules, plans: set<Grant>, admitted: bool, num: nat, flags: set<Flag>) {
    if !admitted || Forbidden(rules, plans, num) then flags == {Flag.Dis}
    else Flag.Dis !in flags && forall f: Flag :: f in flags <==> Flagged(rules, plans, num, f)
  }

  function AppliedFlags(rules: Rules, g: Grant, num: nat, flags: set<Flag>): set<Flag> {
    if Flag.Dis in flags then flags
    else
      match VerdictOf(rules, g, num)
      case Silent => flags
      case Refuses => {Flag.Dis}
      case Lists(more) => flags + more
  }

  lemma OneMorePlan(rules: Rules, plans: set<Grant>, p: Grant, admitted: bool, num: nat, flags: set<Flag>)
    requires Clean(rules) && Regulated(rules, plans, admitted, num, flags)
    ensures Regulated(rules, plans + {p}, admitted, num, AppliedFlags(rules, p, num, flags))
  {
    var all := plans + {p};
    var v := VerdictOf(rules, p, num);
    assert v.Lists? ==> Flag.Dis !in v.flags;
    hide VerdictOf;
    if Forbidden(rules, plans, num) {
      var r :| r in plans && VerdictOf(rules, r, num).Refuses?;
      assert r in all;
    }
    assert p in all;
    forall f: Flag ensures Flagged(rules, all, num, f) <==> Flagged(rules, plans, num, f) || (v.Lists? && f in v.flags) {
      if Flagged(rules, plans, num, f) {
        var r :| r in plans && VerdictOf(rules, r, num).Lists? && f in VerdictOf(rules, r, num).flags;
        assert r in all;
      }
    }
  }

  lemma RegulationIsUnique(rules: Rules, plans: set<Grant>, admitted: bool, num: nat, a: set<Flag>, b: set<Flag>)
    requires Regulated(rules, plans, admitted, num, a) && Regulated(rules, plans, admitted, num, b)
    ensures a == b
  {
  }

  /** What is left of the excluded channels: those before the first zero. */
  ghost predicate Barred(excluded: seq<nat>, num: nat) {
    exists k :: 0 <= k < |excluded| && excluded[k] == num && forall j | 0 <= j <= k :: excluded[j] != 0
  }

  lemma {:induction false} ExcludedIsBarred(excluded: seq<nat>, num: nat)
    ensures IsExcluded(excluded, num) <==> Barred(excluded, num)
  {
    if excluded != [] && excluded[0] != 0 && excluded[0] != num {
      ExcludedIsBarred(excluded[1..], num);
      if k :| 0 <= k < |excluded| && excluded[k] == num && forall j | 0 <= j <= k :: excluded[j] != 0 {
        assert excluded[1..][k - 1] == num;
      }
      if k :| 0 <= k < |excluded[1..]| && excluded[1..][k] == num && forall j | 0 <= j <= k :: excluded[1..][j] != 0 {
        assert excluded[k + 1] == num;
        assert forall j | 0 <= j <= k + 1 :: excluded[j] != 0 by {
          forall j | 1 <= j <= k + 1 ensures excluded[j] != 0 {
            assert excluded[1..][j - 1] == excluded[j];
          }
        }
      }
    }
  }

  /** Request `r` lets the channel pass: a driver request whose domain has a plan, when the plan lists it without a flag
      that disables; a driver request without a plan always; and one of the operating system when its table does. */
  predicate Passes(rules: Rules, r: Req, num: nat) {
    match r.src
    case RtkPriv => r.plan.domain in rules.plans ==> num in rules.plans[r.plan.domain] && rules.plans[r.plan.domain][num] !! rules.disFlags
    case Os => num in rules.os && Flag.Dis !in rules.os[num] && rules.os[num] !! rules.disFlags
  }

  /** The table that request `r` takes flags from has the flag on the channel. */
  predicate Brings(rules: Rules, r: Req, num: nat, f: Flag) {
    match r.src
    case RtkPriv => r.plan.domain in rules.plans && num in rules.plans[r.plan.domain] && f in rules.plans[r.plan.domain][num]
    case Os => num in rules.os && f in rules.os[num]
  }

  /** The regulation of a channel told from the tables: it is enabled when its band is allowed, it is not barred and all
      applied requests let it pass, and its flags are then all those their tables have for it. */
  ghost predicate FollowsTables(rules: Rules, q: seq<Req>, protoEn: set<Proto>, c: Channel, flags: set<Flag>) {
    (Flag.Dis !in flags <==>
      (c.band == Band5 ==> ProtoA in protoEn) && !Barred(rules.excluded, c.num)
      && forall i | 0 <= i < |q| && q[i].applied :: Passes(rules, q[i], c.num))
    && (Flag.Dis in flags ==> flags == {Flag.Dis})
    && (Flag.Dis !in flags ==> forall f: Flag :: f in flags <==> exists i :: 0 <= i < |q| && q[i].applied && Brings(rules, q[i], c.num, f))
  }

  lemma RegulationFollowsTables(rules: Rules, q: seq<Req>, protoEn: set<Proto>, c: Channel, flags: set<Flag>)
    requires Regulated(rules, Applied(q), Admitted(rules, protoEn, c), c.num, flags)
    ensures FollowsTables(rules, q, protoEn, c, flags)
  {
    ExcludedIsBarred(rules.excluded, c.num);
    hide IsExcluded, Barred;
    var n := c.num;
    forall i | 0 <= i < |q| && q[i].applied ensures GrantOf(q[i]) in Applied(q) {
    }
    forall g | g in Applied(q) ensures exists i :: 0 <= i < |q| && q[i].applied && GrantOf(q[i]) == g {
    }
    assert Forbidden(rules, Applied(q), n) <==> exists i :: 0 <= i < |q| && q[i].applied && !Passes(rules, q[i], n) by {
      ForbiddenIff(rules, q, n);
    }
    if Flag.Dis !in flags {
      forall f: Flag ensures f in flags <==> exists i :: 0 <= i < |q| && q[i].applied && Brings(rules, q[i], n, f) {
        FlaggedIff(rules, q, n, f);
      }
    }
  }

  lemma ForbiddenIff(rules: Rules, q: seq<Req>, n: nat)
    ensures Forbidden(rules, Applied(q), n) <==> exists i :: 0 <= i < |q| && q[i].applied && !Passes(rules, q[i], n)
  {
    if i :| 0 <= i < |q| && q[i].applied && !Passes(rules, q[i], n) {
      assert GrantOf(q[i]) in Applied(q) && VerdictOf(rules, GrantOf(q[i]), n).Refuses?;
    }
    if g :| g in Applied(q) && VerdictOf(rules, g, n).Refuses? {
      var i :| 0 <= i < |q| && q[i].applied && GrantOf(q[i]) == g;
      assert !Passes(rules, q[i], n);
    }
  }

  lemma FlaggedIff(rules: Rules, q: seq<Req>, n: nat, f: Flag)
    requires forall i | 0 <= i < |q| && q[i].applied :: Passes(rules, q[i], n)
    ensures Flagged(rules, Applied(q), n, f) <==> exists i :: 0 <= i < |q| && q[i].applied && Brings(rules, q[i], n, f)
  {
    if i :| 0 <= i < |q| && q[i].applied && Brings(rules, q[i], n, f) {
      var g := GrantOf(q[i]);
      assert g in Applied(q) && VerdictOf(rules, g, n).Lists? && f in VerdictOf(rules, g, n).flags;
    }
    if g :| g in Applied(q) && VerdictOf(rules, g, n).Lists? && f in VerdictOf(rules, g, n).flags {
      var i :| 0 <= i < |q| && q[i].applied && GrantOf(q[i]) == g;
      assert Brings(rules, q[i], n, f);
    }
  }

  /** The requests of a list, whatever their order and how often they are there, without their bookkeeping. */
  ghost function Keys(q: seq<Req>): set<(Src, Inr, Plan)> {
    set i | 0 <= i < |q| :: (q[i].src, q[i].inr, q[i].plan)
  }

  /** Lists with the same requests, in any order and however often, apply the same plans. */
  lemma OrderDoesNotMatter(q: seq<Req>, s: seq<Req>, rules: Rules)
    requires Keys(q) == Keys(s)
    ensures Applied(Selected(q, rules)) == Applied(Selected(s, rules))
  {
    hide Applied, Keys;
    SameApplied(q, s, rules);
    SameApplied(s, q, rules);
  }

  /** The plans applied determine the status and the flags of every channel. */
  lemma PlansDecide(rules: Rules, plans: set<Grant>, a: RegStatus, b: RegStatus, c: Channel, fa: set<Flag>, fb: set<Flag>)
    requires plans != {} && Merges(plans, a) && Merges(plans, b)
    requires Regulated(rules, plans, Admitted(rules, a.protoEn, c), c.num, fa)
    requires Regulated(rules, plans, Admitted(rules, b.protoEn, c), c.num, fb)
    ensures a == b && fa == fb
  {
    hide Merges, Regulated, Admitted;
    MergeIsUnique(plans, a, b);
    RegulationIsUnique(rules, plans, Admitted(rules, a.protoEn, c), c.num, fa, fb);
  }

  lemma SameApplied(q: seq<Req>, s: seq<Req>, rules: Rules)
    requires Keys(q) == Keys(s)
    ensures Applied(Selected(q, rules)) <= Applied(Selected(s, rules))
  {
    forall i | 0 <= i < |q| && Chosen(q, q[i], rules) ensures GrantOf(q[i]) in Applied(Selected(s, rules)) {
      assert (q[i].src, q[i].inr, q[i].plan) in Keys(s);
      var k :| 0 <= k < |s| && (s[k].src, s[k].inr, s[k].plan) == (q[i].src, q[i].inr, q[i].plan);
      forall m | 0 <= m < |s| ensures exists n :: 0 <= n < |q| && q[n].src == s[m].src && q[n].inr == s[m].inr {
        assert (s[m].src, s[m].inr, s[m].plan) in Keys(q);
      }
      assert Chosen(s, s[k], rules);
      assert Selected(s, rules)[k].applied;
    }
  }

  // ----- hints

  predicate CountryAllowsHint(alpha2: Alpha2) {
    alpha2 == WORLDWIDE || alpha2 == UNSPEC || alpha2 == INTERSECTED
  }

  predicate ChannelAllowsHint(c: Channel) {
    !(c.band == Band24 && c.num <= 11) && DfsFlag !in c.flags
  }

  function WithoutNoIr(c: RegCh): RegCh {
    c.(ch := c.ch.(flags := c.ch.flags - {NoIr}))
  }

  predicate MayActivate(c: RegCh, alpha2: Alpha2) {
    NoIr in c.ch.flags && CountryAllowsHint(alpha2) && ChannelAllowsHint(c.ch)
  }

  /** A channel after regulation gave it its flags. */
  function Settled(c: RegCh, alpha2: Alpha2, now: int): RegCh {
    var d := c.(regNoIr := NoIr in c.ch.flags,
                ch := c.ch.(nopEnd := if c.ch.NonOcpStopped() then STOPPED else SkipStopped(now)));
    if Flag.Dis !in d.ch.flags && d.Hinted(now) && MayActivate(d, alpha2) then WithoutNoIr(d) else d
  }

  /** A beacon was heard on the channel. */
  function HintHeard(c: RegCh, alpha2: Alpha2, timed: bool, end: int): RegCh {
    var d := if timed then c.(hintEnd := if end == HINT_STOPPED then end + 1 else end) else c;
    if MayActivate(d, alpha2) then WithoutNoIr(d) else d
  }

  /** A hint that has run out is stopped, and what it made active is passive again. */
  function HintExpired(c: RegCh, now: int): RegCh {
    if c.Hinted(now) || c.hintEnd == HINT_STOPPED then c
    else
      var d := c.(hintEnd := HINT_STOPPED);
      if d.regNoIr && NoIr !in d.ch.flags then d.(ch := d.ch.(flags := d.ch.flags + {NoIr})) else d
  }

  /** The enabled channel with a number, or the length. */
  function Search(chs: seq<RegCh>, band: Band, num: nat): (k: nat)
    ensures k <= |chs| && (k < |chs| ==> chs[k].ch.band == band && chs[k].ch.num == num && Flag.Dis !in chs[k].ch.flags && num != 0)
    ensures num != 0 ==> forall i | 0 <= i < k :: !(chs[i].ch.band == band && chs[i].ch.num == num && Flag.Dis !in chs[i].ch.flags)
    ensures num == 0 ==> k == |chs|
  {
    if chs == [] then 0
    else if num != 0 && chs[0].ch.band == band && chs[0].ch.num == num && Flag.Dis !in chs[0].ch.flags then 0
    else 1 + Search(chs[1..], band, num)
  }

  datatype Event =
    | Hint(band: Band, num: nat, end: int, alpha2: Alpha2)
    | Regulate(flags: seq<set<Flag>>, alpha2: Alpha2, now: int)
    | Tick(active: bool, now: int)

  predicate Fits(chs: seq<RegCh>, e: Event) {
    e.Regulate? ==> |e.flags| == |chs|
  }

  function Next(chs: seq<RegCh>, e: Event): (r: seq<RegCh>)
    requires Fits(chs, e)
    ensures |r| == |chs|
  {
    match e
    case Hint(band, num, end, alpha2) =>
      var k := Search(chs, band, num);
      if k < |chs| then chs[k := HintHeard(chs[k], alpha2, true, end)] else chs
    case Regulate(flags, alpha2, now) =>
      seq(|chs|, i requires 0 <= i < |chs| => Settled(chs[i].(ch := chs[i].ch.(flags := flags[i])), alpha2, now))
    case Tick(active, now) =>
      if active then chs else seq(|chs|, i requires 0 <= i < |chs| => HintExpired(chs[i], now))
  }

  function Channels(chs: seq<RegCh>): (r: seq<Channel>)
    ensures |r| == |chs| && forall i | 0 <= i < |chs| :: r[i] == chs[i].ch
  {
    seq(|chs|, i requires 0 <= i < |chs| => chs[i].ch)
  }

  /** To the DFS master, applying regulation is one step: it gives every channel the flags left after hints, which
      do not touch the radar flag, and ends every non-occupancy. */
  lemma RegulationIsOneDfsStep(chs: seq<RegCh>, flags: seq<set<Flag>>, alpha2: Alpha2, now: int) returns (given: seq<set<Flag>>)
    requires |flags| == |chs|
    ensures |given| == |chs| && forall i | 0 <= i < |chs| :: given[i] - {NoIr} == flags[i] - {NoIr}
    ensures Channels(Next(chs, Regulate(flags, alpha2, now))) == DfsSafety.Regulated(Channels(chs), given, now)
  {
    var after := Next(chs, Regulate(flags, alpha2, now));
    given := seq(|after|, i requires 0 <= i < |after| => after[i].ch.flags);
    forall i | 0 <= i < |chs|
      ensures given[i] - {NoIr} == flags[i] - {NoIr} && after[i].ch == chs[i].ch.(flags := given[i], nopEnd := after[i].ch.nopEnd)
    {
    }
  }

  function RunEvents(chs: seq<RegCh>, es: seq<Event>): (r: seq<RegCh>)
    requires forall i | 0 <= i < |es| :: Fits(chs, es[i])
    ensures |r| == |chs|
    decreases |es|
  {
    if es == [] then chs else
      var was := RunEvents(chs, es[..|es| - 1]);
      assert Fits(chs, es[|es| - 1]);
      Next(was, es[|es| - 1])
  }

  /** A channel regulated passive is active only on a hint that has not been stopped; a radar channel, or one of the
      first eleven at 2.4 GHz, is passive whenever it is regulated so. */
  predicate Sound(c: RegCh) {
    (c.regNoIr && NoIr !in c.ch.flags ==> c.hintEnd != 0)
    && (c.regNoIr && (DfsFlag in c.ch.flags || (c.ch.band == Band24 && c.ch.num <= 11)) ==> NoIr in c.ch.flags)
    && (NoIr in c.ch.flags ==> c.regNoIr)
  }

  predicate AllSound(chs: seq<RegCh>) {
    forall i | 0 <= i < |chs| :: Sound(chs[i])
  }

  lemma StepsKeepSound(c: RegCh, alpha2: Alpha2, now: int)
    ensures Sound(Settled(c, alpha2, now))
    ensures Sound(c) ==> Sound(HintHeard(c, alpha2, true, now)) && Sound(HintExpired(c, now))
  {
  }

  lemma {:induction false} HintsStaySound(chs: seq<RegCh>, es: seq<Event>)
    requires AllSound(chs) && forall i | 0 <= i < |es| :: Fits(chs, es[i])
    ensures AllSound(RunEvents(chs, es))
  {
    if es != [] {
      var was, e := RunEvents(chs, es[..|es| - 1]), es[|es| - 1];
      HintsStaySound(chs, es[..|es| - 1]);
      forall i | 0 <= i < |was| ensures Sound(Next(was, e)[i]) {
        match e
        case Hint(_, _, end, alpha2) => StepsKeepSound(was[i], alpha2, end);
        case Regulate(flags, alpha2, now) => StepsKeepSound(was[i].(ch := was[i].ch.(flags := flags[i])), alpha2, now);
        case Tick(_, now) => StepsKeepSound(was[i], WORLDWIDE, now);
      }
    }
  }

  /** A hint makes a passive channel active exactly under the world wide, the unspecified and the intersected country,
      and not on radar channels or channels 1 to 11 at 2.4 GHz; under this driver's regulation it lasts until `end`. */
  lemma HintActivatesIff(c: RegCh, alpha2: Alpha2, timed: bool, end: int)
    ensures var d := HintHeard(c, alpha2, timed, end);
      d.ch == c.ch.(flags := d.ch.flags) && d.regNoIr == c.regNoIr
      && d.hintEnd == (if !timed then c.hintEnd else if end == 0 then 1 else end)
      && d.ch.flags == if alpha2 in {"00", "99", "98"} && DfsFlag !in c.ch.flags && !(c.ch.band == Band24 && c.ch.num <= 11)
                       then c.ch.flags - {NoIr} else c.ch.flags
  {
  }

  /** Regulation applied anew takes NO_IR only from an enabled channel that a hint could activate and whose last hint
      still runs. */
  lemma RegulationActivatesIff(c: RegCh, alpha2: Alpha2, now: int)
    ensures var d := Settled(c, alpha2, now);
      (d.regNoIr <==> NoIr in c.ch.flags) && d.hintEnd == c.hintEnd
      && d.ch.flags == if Flag.Dis !in c.ch.flags && c.hintEnd != 0 && c.hintEnd > now && alpha2 in {"00", "99", "98"}
                          && DfsFlag !in c.ch.flags && !(c.ch.band == Band24 && c.ch.num <= 11)
                       then c.ch.flags - {NoIr} else c.ch.flags
  {
  }

  /** A hint that has run out ends at the next tick and gives the channel its passive flag back; nothing else happens. */
  lemma HintEndsIff(c: RegCh, now: int)
    ensures var d, over := HintExpired(c, now), c.hintEnd != 0 && c.hintEnd <= now;
      d.ch == c.ch.(flags := d.ch.flags) && d.regNoIr == c.regNoIr && d.hintEnd == (if over then 0 else c.hintEnd)
      && d.ch.flags == if over && c.regNoIr then c.ch.flags + {NoIr} else c.ch.flags
  {
  }

  /** After any run that ends with a tick without an active link, a channel regulated passive is passive unless its
      hint still runs. */
  lemma TickMakesPassive(chs: seq<RegCh>, es: seq<Event>, now: int, i: nat)
    requires AllSound(chs) && (forall i | 0 <= i < |es| :: Fits(chs, es[i])) && es != [] && es[|es| - 1] == Tick(false, now) && i < |chs|
    ensures var c := RunEvents(chs, es)[i]; c.regNoIr ==> NoIr in c.ch.flags || (c.hintEnd != 0 && c.hintEnd > now)
  {
    HintsStaySound(chs, es[..|es| - 1]);
    var was := RunEvents(chs, es[..|es| - 1]);
    assert Sound(was[i]);
  }

  // ----- the code

  function CountEnabled(chs: seq<RegCh>): nat
    decreases |chs|
  {
    if chs == [] then 0 else CountEnabled(chs[..|chs| - 1]) + if Flag.Dis in chs[|chs| - 1].ch.flags then 0 else 1
  }

  lemma {:induction false} CountEnabledIs(chs: seq<RegCh>)
    ensures CountEnabled(chs) == |set i | 0 <= i < |chs| && Flag.Dis !in chs[i].ch.flags|
  {
    var on := set i | 0 <= i < |chs| && Flag.Dis !in chs[i].ch.flags;
    if chs == [] {
      assert on == {};
    } else {
      var n := |chs| - 1;
      CountEnabledIs(chs[..n]);
      var was := set i | 0 <= i < n && Flag.Dis !in chs[..n][i].ch.flags;
      assert on == was + if Flag.Dis !in chs[n].ch.flags then {n} else {};
    }
  }

  /** What regulation said, before a hint took NO_IR away. */
  function Before(c: RegCh): set<Flag> {
    c.ch.flags + if c.regNoIr then {NoIr} else {}
  }

  class Chplan {
    const rules: Rules
    var reqs: seq<Req>
    var chs: seq<RegCh>
    var enableChNum: nat
    var regdSrc: Src
    var inrs: set<Inr>
    var status: RegStatus

    constructor (rules: Rules, reqs: seq<Req>, chs: seq<RegCh>, src: Src, status: RegStatus)
      ensures this.rules == rules && this.reqs == reqs && this.chs == chs && this.status == status
    {
      this.rules, this.reqs, this.chs, this.status := rules, reqs, chs, status;
      enableChNum, regdSrc, inrs := 0, src, {};
    }

    /** The highest source of any request, and the highest initiator of that source. */
    method HighestRanks() returns (src: Src, inr: Inr)
      requires reqs != []
      ensures exists i :: 0 <= i < |reqs| && reqs[i].src == src && reqs[i].inr == inr
      ensures forall i | 0 <= i < |reqs| :: SrcRank(reqs[i].src) <= SrcRank(src)
      ensures forall i | 0 <= i < |reqs| && reqs[i].src == src :: InrRank(reqs[i].inr) <= InrRank(inr)
    {
      src, inr := reqs[0].src, reqs[0].inr;
      ghost var at := 0;
      for i := 0 to |reqs|
        invariant 0 <= at < |reqs| && reqs[at].src == src
        invariant forall k | 0 <= k < i :: SrcRank(reqs[k].src) <= SrcRank(src)
      {
        if SrcRank(reqs[i].src) > SrcRank(src) {
          src, at := reqs[i].src, i;
        }
      }
      var some := false;
      for i := 0 to |reqs|
        invariant 0 <= at < |reqs| && reqs[at].src == src && (some ==> reqs[at].inr == inr) && (!some ==> i <= at)
        invariant forall k | 0 <= k < i && reqs[k].src == src :: some && InrRank(reqs[k].inr) <= InrRank(inr)
      {
        if reqs[i].src == src && (!some || InrRank(reqs[i].inr) > InrRank(inr)) {
          inr, some, at := reqs[i].inr, true, i;
        }
      }
    }

    /** Marks the requests that are applied and merges their plans into the status. */
    method SelAndStatusUpdate()
      requires reqs != []
      modifies this`reqs, this`regdSrc, this`inrs, this`status
      ensures reqs == Selected(old(reqs), rules)
      ensures Applied(reqs) != {} && Merges(Applied(reqs), status)
    {
      hide Merges, Applied, Chosen;
      ghost var was := reqs;
      ghost var sel := Selected(was, rules);
      var src, inr := HighestRanks();
      var some := false;
      var i := 0;
      ChosenByRanks(was, src, inr, rules);
      AppliedNone(sel);
      while i < |reqs|
        invariant i <= |reqs| == |was| && (forall k | 0 <= k < i :: reqs[k] == sel[k]) && forall k | i <= k < |was| :: reqs[k] == was[k]
        invariant some == (Applied(sel[..i]) != {}) && (some ==> Merges(Applied(sel[..i]), status))
      {
        var r := reqs[i];
        AppliedOneMore(sel, i);
        assert !sel[i].applied ==> Applied(sel[..i + 1]) == Applied(sel[..i]);
        reqs := reqs[i := r.(applied := r.src == src && (r.inr == inr || Always(r, rules)))];
        if reqs[i].applied {
          if !some {
            regdSrc, inrs, status := r.src, {r.inr}, First(r.plan);
            FirstMerges(GrantOf(r));
            assert Applied(sel[..i + 1]) == {GrantOf(r)};
            some := true;
          } else {
            MergedMerges(Applied(sel[..i]), status, GrantOf(r));
            inrs := inrs + {r.inr};
            ghost var merged := Merged(status, r.plan);
            if status.alpha2 != r.plan.alpha2 || status.domain != r.plan.domain {
              status := status.(alpha2 := INTERSECTED);
            }
            if status.domain != r.plan.domain {
              status := status.(domain := UNSPECIFIED);
            }
            status := status.(protoEn := status.protoEn * r.plan.protoEn);
            assert status == merged;
          }
        }
        i := i + 1;
      }
      assert sel[..i] == sel == reqs;
      SomeApplied(was, rules);
    }

    /** One plan applied to every channel. */
    method ChsetApplyFromRtkPriv(p: Plan)
      modifies this`chs
      ensures |chs| == |old(chs)|
      ensures forall i | 0 <= i < |chs| ::
        chs[i] == WithFlags(old(chs)[i], AppliedFlags(rules, Grant(RtkPriv, p), old(chs)[i].ch.num, old(chs)[i].ch.flags))
    {
      var valid := p.domain in rules.plans;
      var i := 0;
      while i < |chs|
        invariant i <= |chs| == |old(chs)|
        invariant forall k | 0 <= k < i ::
          chs[k] == WithFlags(old(chs)[k], AppliedFlags(rules, Grant(RtkPriv, p), old(chs)[k].ch.num, old(chs)[k].ch.flags))
        invariant forall k | i <= k < |chs| :: chs[k] == old(chs)[k]
      {
        var c := chs[i];
        if Flag.Dis !in c.ch.flags && valid {
          var plan := rules.plans[p.domain];
          if c.ch.num in plan && plan[c.ch.num] !! rules.disFlags {
            chs := chs[i := WithFlags(c, c.ch.flags + plan[c.ch.num])];
          } else {
            chs := chs[i := WithFlags(c, {Flag.Dis})];
          }
        }
        i := i + 1;
      }
    }

    /** What the operating system says, applied to every channel. */
    method ChsetApplyFromOs(ghost p: Plan)
      modifies this`chs
      ensures |chs| == |old(chs)|
      ensures forall i | 0 <= i < |chs| ::
        chs[i] == WithFlags(old(chs)[i], AppliedFlags(rules, Grant(Os, p), old(chs)[i].ch.num, old(chs)[i].ch.flags))
    {
      var i := 0;
      while i < |chs|
        invariant i <= |chs| == |old(chs)|
        invariant forall k | 0 <= k < i ::
          chs[k] == WithFlags(old(chs)[k], AppliedFlags(rules, Grant(Os, p), old(chs)[k].ch.num, old(chs)[k].ch.flags))
        invariant forall k | i <= k < |chs| :: chs[k] == old(chs)[k]
      {
        var c := chs[i];
        if Flag.Dis !in c.ch.flags {
          var flags := if c.ch.num in rules.os then rules.os[c.ch.num] else {Flag.Dis};
          if Flag.Dis in flags || !(flags !! rules.disFlags) {
            chs := chs[i := WithFlags(c, {Flag.Dis})];
          } else {
            chs := chs[i := WithFlags(c, c.ch.flags + flags)];
          }
        }
        i := i + 1;
      }
    }

    method ResetFlags()
      modifies this`chs
      ensures |chs| == |old(chs)|
      ensures forall i | 0 <= i < |chs| :: chs[i] == WithFlags(old(chs)[i], if Admitted(rules, status.protoEn, old(chs)[i].ch) then {} else {Flag.Dis})
    {
      var i := 0;
      while i < |chs|
        invariant i <= |chs| == |old(chs)|
        invariant forall k | 0 <= k < i :: chs[k] == WithFlags(old(chs)[k], if Admitted(rules, status.protoEn, old(chs)[k].ch) then {} else {Flag.Dis})
        invariant forall k | i <= k < |chs| :: chs[k] == old(chs)[k]
      {
        chs := chs[i := WithFlags(chs[i], if Admitted(rules, status.protoEn, chs[i].ch) then {} else {Flag.Dis})];
        i := i + 1;
      }
    }

    /** All channels get the flags of the plans applied. */
    method ApplyRegdReqs()
      requires Clean(rules)
      modifies this`chs
      ensures |chs| == |old(chs)| && forall i | 0 <= i < |chs| :: RegulatedBy(rules, status.protoEn, chs[i], old(chs)[i], Applied(reqs))
      ensures forall i | 0 <= i < |chs| :: FollowsTables(rules, reqs, status.protoEn, old(chs)[i].ch, chs[i].ch.flags)
    {
      hide Regulated, Applied, AppliedFlags, Clean, FollowsTables;
      ResetFlags();
      AppliedNone(reqs);
      forall i | 0 <= i < |chs| ensures RegulatedBy(rules, status.protoEn, chs[i], old(chs)[i], Applied(reqs[..0])) {
        NothingApplied(rules, Admitted(rules, status.protoEn, old(chs)[i].ch), chs[i].ch.num);
      }
      var n := 0;
      while n < |reqs|
        invariant n <= |reqs| && |chs| == |old(chs)| && forall i | 0 <= i < |chs| :: RegulatedBy(rules, status.protoEn, chs[i], old(chs)[i], Applied(reqs[..n]))
      {
        AppliedOneMore(reqs, n);
        if reqs[n].applied {
          ghost var was := chs;
          match reqs[n].src {
            case RtkPriv => ChsetApplyFromRtkPriv(reqs[n].plan);
            case Os => ChsetApplyFromOs(reqs[n].plan);
          }
          forall i | 0 <= i < |chs| ensures RegulatedBy(rules, status.protoEn, chs[i], old(chs)[i], Applied(reqs[..n + 1])) {
            assert RegulatedBy(rules, status.protoEn, was[i], old(chs)[i], Applied(reqs[..n]));
            OneMorePlan(rules, Applied(reqs[..n]), GrantOf(reqs[n]), Admitted(rules, status.protoEn, old(chs)[i].ch), was[i].ch.num, was[i].ch.flags);
          }
        }
        assert !reqs[n].applied ==> Applied(reqs[..n + 1]) == Applied(reqs[..n]);
        n := n + 1;
      }
      assert reqs[..n] == reqs;
      forall i | 0 <= i < |chs| ensures FollowsTables(rules, reqs, status.protoEn, old(chs)[i].ch, chs[i].ch.flags) {
        assert RegulatedBy(rules, status.protoEn, chs[i], old(chs)[i], Applied(reqs));
        RegulationFollowsTables(rules, reqs, status.protoEn, old(chs)[i].ch, chs[i].ch.flags);
      }
    }

    /** The whole channel set regulated anew, with hints that still run taking effect. */
    method ApplyRegulatory(now: int) returns (ghost flags: seq<set<Flag>>)
      requires Clean(rules)
      modifies this`chs, this`enableChNum
      ensures |chs| == |flags| == |old(chs)| && enableChNum == CountEnabled(chs)
      ensures forall i | 0 <= i < |chs| :: Regulated(rules, Applied(reqs), Admitted(rules, status.protoEn, old(chs)[i].ch), old(chs)[i].ch.num, flags[i])
      ensures forall i | 0 <= i < |chs| :: FollowsTables(rules, reqs, status.protoEn, old(chs)[i].ch, flags[i])
      ensures chs == Next(old(chs), Regulate(flags, status.alpha2, now))
      ensures forall i | 0 <= i < |chs| :: Before(chs[i]) == flags[i]
    {
      hide Regulated, Applied, Admitted, Settled, FollowsTables;
      ApplyRegdReqs();
      ghost var was := chs;
      flags := seq(|was|, i requires 0 <= i < |was| => was[i].ch.flags);
      assert forall k | 0 <= k < |was| :: RegulatedBy(rules, status.protoEn, was[k], old(chs)[k], Applied(reqs));
      enableChNum := 0;
      var i := 0;
      while i < |chs|
        invariant i <= |chs| == |was| && enableChNum == CountEnabled(chs[..i])
        invariant forall k | 0 <= k < i :: chs[k] == Settled(was[k], status.alpha2, now)
        invariant forall k | i <= k < |chs| :: chs[k] == was[k]
      {
        var c := Settle(chs[i], now);
        if Flag.Dis !in c.ch.flags {
          enableChNum := enableChNum + 1;
        }
        ghost var before := chs;
        chs := chs[i := c];
        assert chs[..i + 1][..i] == before[..i];
        i := i + 1;
      }
      assert chs[..i] == chs;
      forall k | 0 <= k < |chs| ensures chs[k] == Next(old(chs), Regulate(flags, status.alpha2, now))[k] && Before(chs[k]) == flags[k] {
        assert old(chs)[k].(ch := old(chs)[k].ch.(flags := flags[k])) == was[k];
        BeforeSettled(was[k], status.alpha2, now);
      }
    }

    method Settle(ch: RegCh, now: int) returns (c: RegCh)
      ensures c == Settled(ch, status.alpha2, now) && (Flag.Dis in c.ch.flags <==> Flag.Dis in ch.ch.flags)
    {
      c := ch.(regNoIr := NoIr in ch.ch.flags);
      if !c.ch.NonOcpStopped() {
        c := c.(ch := c.ch.(nopEnd := now));
        if c.ch.nopEnd == STOPPED {
          c := c.(ch := c.ch.(nopEnd := c.ch.nopEnd + 1));
        }
      }
      if Flag.Dis !in c.ch.flags {
        if NoIr in c.ch.flags && c.Hinted(now) && CountryAllowsHint(status.alpha2) && ChannelAllowsHint(c.ch) {
          c := WithoutNoIr(c);
        }
      }
    }

    method ProcessBeaconHint(band: Band, num: nat, now: int, validMs: nat) returns (actCnt: nat)
      modifies this`chs
      ensures var k := Search(old(chs), band, num);
        chs == (if k < |old(chs)| then old(chs)[k := HintHeard(old(chs)[k], status.alpha2, regdSrc == RtkPriv, now + validMs)] else old(chs))
        && actCnt == (if k < |old(chs)| && MayActivate(old(chs)[k], status.alpha2) then 1 else 0)
      ensures forall i | 0 <= i < |chs| && chs[i].ch.flags != old(chs)[i].ch.flags ::
        status.alpha2 in {"00", "99", "98"} && old(chs)[i].ch.band == band && old(chs)[i].ch.num == num
        && !(band == Band24 && num <= 11) && DfsFlag !in old(chs)[i].ch.flags && chs[i].ch.flags == old(chs)[i].ch.flags - {NoIr}
    {
      actCnt := 0;
      var k := SearchBch(band, num);
      if k == -1 {
        return;
      }
      var c := chs[k];
      if regdSrc == RtkPriv {
        c := c.(hintEnd := now + validMs);
        if c.hintEnd == HINT_STOPPED {
          c := c.(hintEnd := c.hintEnd + 1);
        }
      }
      if NoIr in c.ch.flags && CountryAllowsHint(status.alpha2) && ChannelAllowsHint(c.ch) {
        c := WithoutNoIr(c);
        actCnt := actCnt + 1;
      }
      chs := chs[k := c];
    }

    method SearchBch(band: Band, num: nat) returns (k: int)
      ensures k == if Search(chs, band, num) < |chs| then Search(chs, band, num) else -1
    {
      if num == 0 {
        return -1;
      }
      for i := 0 to |chs|
        invariant forall m | 0 <= m < i :: !(chs[m].ch.band == band && chs[m].ch.num == num && Flag.Dis !in chs[m].ch.flags)
      {
        if band == chs[i].ch.band && num == chs[i].ch.num && Flag.Dis !in chs[i].ch.flags {
          return i;
        }
      }
      return -1;
    }

    /** Under this driver's own regulation, and while no link is up or being set up. */
    method BeaconHintExpire(active: bool, now: int) returns (deactivated: bool)
      modifies this`chs
      ensures chs == if regdSrc == RtkPriv then Next(old(chs), Tick(active, now)) else old(chs)
      ensures deactivated <==> exists i :: 0 <= i < |chs| && chs[i].ch.flags != old(chs)[i].ch.flags
    {
      deactivated := false;
      if regdSrc != RtkPriv || active {
        return;
      }
      ghost var was := chs;
      var i := 0;
      while i < |chs|
        invariant i <= |chs| == |was|
        invariant forall k | 0 <= k < i :: chs[k] == HintExpired(was[k], now)
        invariant forall k | i <= k < |chs| :: chs[k] == was[k]
        invariant deactivated <==> exists k :: 0 <= k < i && chs[k].ch.flags != was[k].ch.flags
      {
        ghost var before := chs;
        var c := chs[i];
        if !c.Hinted(now) && c.hintEnd != HINT_STOPPED {
          c := c.(hintEnd := HINT_STOPPED);
          if c.regNoIr && NoIr !in c.ch.flags {
            c := c.(ch := c.ch.(flags := c.ch.flags + {NoIr}));
            deactivated := true;
          }
        }
        chs := chs[i := c];
        assert forall k | 0 <= k < i :: chs[k] == before[k];
        i := i + 1;
      }
    }
  }

  /** Only the flags of the channel changed, to what the plans make of them. */
  ghost predicate RegulatedBy(rules: Rules, protoEn: set<Proto>, c: RegCh, was: RegCh, plans: set<Grant>) {
    c == WithFlags(was, c.ch.flags) && Regulated(rules, plans, Admitted(rules, protoEn, was.ch), was.ch.num, c.ch.flags)
  }

  function WithFlags(c: RegCh, flags: set<Flag>): RegCh {
    c.(ch := c.ch.(flags := flags))
  }

  lemma BeforeSettled(c: RegCh, alpha2: Alpha2, now: int)
    ensures Before(Settled(c, alpha2, now)) == c.ch.flags
  {
  }

  lemma FirstMerges(p: Grant)
    ensures Merges({p}, First(p.plan))
  {
  }

  lemma AppliedNone(q: seq<Req>)
    ensures Applied(q[..0]) == {}
  {
  }

  lemma AppliedOneMore(q: seq<Req>, i: nat)
    requires i < |q|
    ensures Applied(q[..i + 1]) == Applied(q[..i]) + if q[i].applied then {GrantOf(q[i])} else {}
  {
    assert q[..i + 1] == q[..i] + [q[i]];
    AppliedAppend(q[..i], q[i]);
  }

  lemma ChosenByRanks(q: seq<Req>, src: Src, inr: Inr, rules: Rules)
    requires exists i :: 0 <= i < |q| && q[i].src == src && q[i].inr == inr
    requires forall i | 0 <= i < |q| :: SrcRank(q[i].src) <= SrcRank(src)
    requires forall i | 0 <= i < |q| && q[i].src == src :: InrRank(q[i].inr) <= InrRank(inr)
    ensures forall i | 0 <= i < |q| :: Chosen(q, q[i], rules) <==> q[i].src == src && (q[i].inr == inr || Always(q[i], rules))
  {
    var top :| 0 <= top < |q| && q[top].src == src && q[top].inr == inr;
    forall i | 0 <= i < |q| ensures Chosen(q, q[i], rules) <==> q[i].src == src && (q[i].inr == inr || Always(q[i], rules)) {
      if Chosen(q, q[i], rules) {
        assert SrcRank(q[top].src) <= SrcRank(q[i].src);
        assert Always(q[i], rules) || InrRank(q[top].inr) <= InrRank(q[i].inr);
      }
    }
  }

  lemma SomeApplied(q: seq<Req>, rules: Rules)
    requires exists i :: 0 <= i < |q| && Chosen(q, q[i], rules)
    ensures Applied(Selected(q, rules)) != {}
  {
    var i :| 0 <= i < |q| && Chosen(q, q[i], rules);
    assert GrantOf(Selected(q, rules)[i]) in Applied(Selected(q, rules));
  }

  lemma NothingApplied(rules: Rules, admitted: bool, num: nat)
    ensures Regulated(rules, {}, admitted, num, if admitted then {} else {Flag.Dis})
  {
  }
}
