/** Regulatory requests: the list, and following country elements by intersection (core/rtw_chplan.c, core/rtw_chplan.h). */
module Regd {
  import opened Octets

  type Alpha2 = a: string | |a| == 2 witness "00"

  datatype Proto = ProtoA | ProtoAC | ProtoAX

  /** A country's plan; the overrides are the remaining fields, taken as one. */
  datatype Plan = Plan(alpha2: Alpha2, domain: Byte, protoEn: set<Proto>, overrides: nat)

  const NO_PLAN := Plan("\0\0", 0, {}, 0)

  datatype Src = RtkPriv | Os

  datatype Inr = Init | User | CountryIe | Driver | Core

  datatype Req = Req(src: Src, inr: Inr, refCnt: int, plan: Plan, applied: bool)

  datatype Status = NoCountry | Unknown | OpchNoexist | Applicable

  /** What was heard of a country on one link. */
  datatype Record = Record(alpha2: Alpha2, band: nat, opch: Byte, status: Status, plan: Plan)

  const IFACE_NUMBER := 2
  const RLINK_MAX := 2

  /** A plan is recorded exactly when there is a country. */
  predicate Wf(r: Record) {
    r.status == NoCountry <==> r.plan == NO_PLAN
  }

  predicate AllWf(recs: seq<Record>) {
    forall i | 0 <= i < |recs| :: Wf(recs[i])
  }

  predicate IsCie(r: Req) {
    r.inr == CountryIe
  }

  // ----- what the handler does to the list

  function Cleared(q: seq<Req>): (r: seq<Req>)
    ensures |r| == |q| && forall i | 0 <= i < |q| :: r[i] == if IsCie(q[i]) then q[i].(refCnt := 0) else q[i]
  {
    seq(|q|, i requires 0 <= i < |q| => if IsCie(q[i]) then q[i].(refCnt := 0) else q[i])
  }

  /** The first request for a plan, or the length. */
  function FindPlan(q: seq<Req>, p: Plan): (k: nat)
    ensures k <= |q| && (k < |q| ==> IsCie(q[k]) && q[k].plan == p) && forall i | 0 <= i < k :: !(IsCie(q[i]) && q[i].plan == p)
  {
    if q == [] || (IsCie(q[0]) && q[0].plan == p) then 0 else 1 + FindPlan(q[1..], p)
  }

  function Added(q: seq<Req>, p: Plan): seq<Req> {
    var k := FindPlan(q, p);
    if k < |q| then q[k := q[k].(refCnt := q[k].refCnt + 1)] else q + [Req(RtkPriv, CountryIe, 1, p, false)]
  }

  function AddedAll(q: seq<Req>, recs: seq<Record>): seq<Req>
    decreases |recs|
  {
    if recs == [] then q
    else
      var rest, last := AddedAll(q, recs[..|recs| - 1]), recs[|recs| - 1];
      if last.status != NoCountry then Added(rest, last.plan) else rest
  }

  predicate IsDead(r: Req) {
    IsCie(r) && r.refCnt == 0
  }

  function Swept(q: seq<Req>): seq<Req>
    decreases |q|
  {
    if q == [] then [] else
      var rest, last := Swept(q[..|q| - 1]), q[|q| - 1];
      if IsDead(last) then rest else rest + [last]
  }

  function Followed(q: seq<Req>, recs: seq<Record>): seq<Req> {
    Swept(AddedAll(Cleared(q), recs))
  }

  // ----- what the list should be

  function CountOf(recs: seq<Record>, p: Plan): nat
    decreases |recs|
  {
    if recs == [] then 0 else
      var last := recs[|recs| - 1];
      CountOf(recs[..|recs| - 1], p) + if last.status != NoCountry && last.plan == p then 1 else 0
  }

  predicate Unique(q: seq<Req>) {
    forall i, j | 0 <= i < j < |q| :: !(IsCie(q[i]) && IsCie(q[j]) && q[i].plan == q[j].plan)
  }

  ghost function PlansOf(q: seq<Req>): set<Plan> {
    set i | 0 <= i < |q| && IsCie(q[i]) :: q[i].plan
  }

  ghost function PlansIn(recs: seq<Record>): set<Plan> {
    set i | 0 <= i < |recs| && recs[i].status != NoCountry :: recs[i].plan
  }

  /** The other requests, in order. */
  function Others(q: seq<Req>): seq<Req>
    decreases |q|
  {
    if q == [] then [] else
      var rest, last := Others(q[..|q| - 1]), q[|q| - 1];
      if IsCie(last) then rest else rest + [last]
  }

  /** One request per plan heard, counting the records with it. */
  ghost predicate Follows(q: seq<Req>, recs: seq<Record>) {
    Unique(q) && PlansOf(q) == PlansIn(recs)
    && forall i | 0 <= i < |q| && IsCie(q[i]) :: q[i].refCnt == CountOf(recs, q[i].plan)
  }

  lemma {:induction false} CountedIffHeard(recs: seq<Record>, p: Plan)
    ensures CountOf(recs, p) > 0 <==> p in PlansIn(recs)
  {
    if recs != [] {
      var init := recs[..|recs| - 1];
      CountedIffHeard(init, p);
      assert forall i | 0 <= i < |init| :: recs[i] == init[i];
      if p in PlansIn(recs) {
        var i :| 0 <= i < |recs| && recs[i].status != NoCountry && recs[i].plan == p;
        assert i < |init| ==> init[i].plan in PlansIn(init);
      }
    }
  }

  /** The list while records are being added: the requests there before keep their places, the new ones come behind. */
  ghost predicate Adding(q0: seq<Req>, q: seq<Req>, recs: seq<Record>) {
    |q0| <= |q| && Unique(q)
    && (forall i | 0 <= i < |q0| :: q[i] == q0[i].(refCnt := q[i].refCnt) && (!IsCie(q0[i]) ==> q[i] == q0[i]))
    && (forall i | |q0| <= i < |q| :: IsCie(q[i]) && q[i].plan !in PlansOf(q0) && q[i].refCnt > 0)
    && (forall i | 0 <= i < |q| && IsCie(q[i]) :: q[i].refCnt == CountOf(recs, q[i].plan))
    && (forall i | 0 <= i < |recs| && recs[i].status != NoCountry :: FindPlan(q, recs[i].plan) < |q|)
  }

  lemma AddKeepsPlans(q: seq<Req>, p: Plan, r: Plan)
    ensures FindPlan(q, r) < |q| ==> FindPlan(Added(q, p), r) < |Added(q, p)|
    ensures FindPlan(Added(q, p), p) < |Added(q, p)|
  {
    var a, k := Added(q, p), FindPlan(q, r);
    if k < |q| {
      assert IsCie(a[k]) && a[k].plan == r;
    }
    var m := FindPlan(q, p);
    assert IsCie(a[m]) && a[m].plan == p;
  }

  lemma {:induction false} AddingAll(q0: seq<Req>, recs: seq<Record>)
    requires Unique(q0) && forall i | 0 <= i < |q0| && IsCie(q0[i]) :: q0[i].refCnt == 0
    ensures Adding(q0, AddedAll(q0, recs), recs)
  {
    hide Adding, Added, FindPlan, Unique, CountOf, PlansOf;
    if recs == [] {
      AddingNone(q0);
    } else {
      var init, last := recs[..|recs| - 1], recs[|recs| - 1];
      AddingAll(q0, init);
      AddingOne(q0, AddedAll(q0, init), init, last);
      assert recs == init + [last];
    }
  }

  lemma AddingNone(q0: seq<Req>)
    requires Unique(q0) && forall i | 0 <= i < |q0| && IsCie(q0[i]) :: q0[i].refCnt == 0
    ensures Adding(q0, q0, [])
  {
  }

  lemma AddingOne(q0: seq<Req>, q: seq<Req>, init: seq<Record>, last: Record)
    requires Adding(q0, q, init)
    ensures Adding(q0, if last.status != NoCountry then Added(q, last.plan) else q, init + [last])
  {
    hide FindPlan;
    var recs := init + [last];
    assert recs[..|recs| - 1] == init;
    forall p ensures CountOf(recs, p) == CountOf(init, p) + if last.status != NoCountry && last.plan == p then 1 else 0 {
    }
    if last.status != NoCountry {
      PlanAdded(q0, q, init, last.plan);
      forall i | 0 <= i < |recs| && recs[i].status != NoCountry ensures FindPlan(Added(q, last.plan), recs[i].plan) < |Added(q, last.plan)| {
        AddKeepsPlans(q, last.plan, recs[i].plan);
        assert i < |init| ==> recs[i] == init[i];
      }
    } else {
      forall i | 0 <= i < |recs| && recs[i].status != NoCountry ensures FindPlan(q, recs[i].plan) < |q| {
        assert recs[i] == init[i];
      }
    }
  }

  /** The list with one more plan added, before the record is counted. */
  lemma PlanAdded(q0: seq<Req>, q: seq<Req>, recs: seq<Record>, p: Plan)
    requires Adding(q0, q, recs)
    ensures var a := Added(q, p);
      |q| <= |a| && Unique(a)
      && (forall i | 0 <= i < |q0| :: a[i] == q0[i].(refCnt := a[i].refCnt) && (!IsCie(q0[i]) ==> a[i] == q0[i]))
      && (forall i | |q0| <= i < |a| :: IsCie(a[i]) && a[i].plan !in PlansOf(q0) && a[i].refCnt > 0)
      && (forall i | 0 <= i < |a| && IsCie(a[i]) :: a[i].refCnt == CountOf(recs, a[i].plan) + if a[i].plan == p then 1 else 0)
  {
    CountedIffHeard(recs, p);
    OneCounted(q, p);
    if FindPlan(q, p) == |q| {
      forall i | 0 <= i < |q0| && IsCie(q0[i]) ensures q0[i].plan != p {
        assert q[i].plan == q0[i].plan;
      }
    }
  }

  lemma OneCounted(q: seq<Req>, p: Plan)
    requires Unique(q)
    ensures Unique(Added(q, p))
    ensures forall i | 0 <= i < |q| :: Added(q, p)[i] == q[i].(refCnt := Added(q, p)[i].refCnt)
    ensures forall i | 0 <= i < |q| && IsCie(q[i]) :: Added(q, p)[i].refCnt == q[i].refCnt + if q[i].plan == p then 1 else 0
    ensures forall i | 0 <= i < |q| && !IsCie(q[i]) :: Added(q, p)[i] == q[i]
  {
  }

  ghost function LivePlans(q: seq<Req>): set<Plan> {
    set i | 0 <= i < |q| && IsCie(q[i]) && !IsDead(q[i]) :: q[i].plan
  }

  lemma LiveAppend(q: seq<Req>, r: Req)
    ensures LivePlans(q + [r]) == LivePlans(q) + if IsCie(r) && !IsDead(r) then {r.plan} else {}
  {
    var s := q + [r];
    assert forall i | 0 <= i < |q| :: s[i] == q[i];
    assert s[|q|] == r;
    forall p | p in LivePlans(q) ensures p in LivePlans(s) {
      var i :| 0 <= i < |q| && IsCie(q[i]) && !IsDead(q[i]) && q[i].plan == p;
      assert IsCie(s[i]) && s[i].plan == p;
    }
  }

  lemma {:induction false} SweepKeepsPlans(q: seq<Req>)
    ensures PlansOf(Swept(q)) == LivePlans(q)
  {
    if q != [] {
      hide IsDead, LivePlans, PlansOf;
      var init, last := q[..|q| - 1], q[|q| - 1];
      SweepKeepsPlans(init);
      assert q == init + [last];
      LiveAppend(init, last);
      PlansAppend(Swept(init), last);
      assert !IsCie(last) ==> !IsDead(last) by { NotDead(last); }
    } else {
      assert LivePlans(q) == {} && PlansOf([]) == {};
    }
  }

  lemma NotDead(r: Req)
    ensures !IsCie(r) ==> !IsDead(r)
  {
  }

  lemma {:induction false} SweepKeepsUnique(q: seq<Req>)
    ensures forall r | r in Swept(q) :: r in q && !IsDead(r)
    ensures Unique(q) ==> Unique(Swept(q))
  {
    if q != [] {
      hide Unique;
      var init, last := q[..|q| - 1], q[|q| - 1];
      SweepKeepsUnique(init);
      assert q == init + [last];
      UniqueAppend(init, Swept(init), last);
    }
  }

  lemma {:induction false} SweepKeepsLive(q: seq<Req>)
    ensures Others(Swept(q)) == Others(q)
    ensures |Swept(q)| <= |q| && (|Swept(q)| == |q| <==> forall i | 0 <= i < |q| :: !IsDead(q[i]))
  {
    if q != [] {
      var init, last := q[..|q| - 1], q[|q| - 1];
      var rest := Swept(init);
      SweepKeepsLive(init);
      assert (rest + [last])[..|rest|] == rest;
      assert q == init + [last];
      assert (forall i | 0 <= i < |q| :: !IsDead(q[i])) <==> (forall i | 0 <= i < |init| :: !IsDead(init[i])) && !IsDead(last);
    }
  }

  lemma PlansAppend(q: seq<Req>, r: Req)
    ensures PlansOf(q + [r]) == PlansOf(q) + if IsCie(r) then {r.plan} else {}
  {
    var s := q + [r];
    assert forall i | 0 <= i < |q| :: s[i] == q[i];
    assert s[|q|] == r;
    forall p | p in PlansOf(q) ensures p in PlansOf(s) {
      var i :| 0 <= i < |q| && IsCie(q[i]) && q[i].plan == p;
      assert IsCie(s[i]) && s[i].plan == p;
    }
  }

  lemma UniqueAppend(init: seq<Req>, rest: seq<Req>, last: Req)
    requires (Unique(init) ==> Unique(rest)) && forall r | r in rest :: r in init
    ensures Unique(init + [last]) ==> Unique(init) && Unique(rest + [last])
  {
    if Unique(init + [last]) {
      var s, t := init + [last], rest + [last];
      forall i, j | 0 <= i < j < |init| ensures !(IsCie(init[i]) && IsCie(init[j]) && init[i].plan == init[j].plan) {
        assert s[i] == init[i] && s[j] == init[j];
      }
      forall i, j | 0 <= i < j < |t| ensures !(IsCie(t[i]) && IsCie(t[j]) && t[i].plan == t[j].plan) {
        if j == |rest| {
          assert rest[i] in init;
          var k :| 0 <= k < |init| && init[k] == rest[i];
          assert s[k] == t[i] && s[|init|] == last;
        } else {
          assert t[i] == rest[i] && t[j] == rest[j];
        }
      }
    }
  }

  lemma {:induction false} OthersUntouched(q0: seq<Req>, q: seq<Req>)
    requires |q0| <= |q| && forall i | 0 <= i < |q0| :: IsCie(q[i]) == IsCie(q0[i]) && (!IsCie(q0[i]) ==> q[i] == q0[i])
    requires forall i | |q0| <= i < |q| :: IsCie(q[i])
    ensures Others(q) == Others(q0)
    decreases |q|
  {
    if q != [] {
      if |q| == |q0| {
        OthersUntouched(q0[..|q0| - 1], q[..|q| - 1]);
      } else {
        OthersUntouched(q0, q[..|q| - 1]);
      }
    }
  }

  /** Handling the records leaves exactly one request per plan heard, with the number of records as its count, the
      other requests as they were; something was inserted or deleted exactly when the set of plans changed. */
  lemma FollowedIsRight(q: seq<Req>, recs: seq<Record>)
    requires Unique(q)
    ensures var a, f := AddedAll(Cleared(q), recs), Followed(q, recs);
      Follows(f, recs) && Others(f) == Others(q)
      && |q| <= |a| && (|a| != |q| || |f| != |a| <==> PlansOf(f) != PlansOf(q))
  {
    var c := Cleared(q);
    var a, f := AddedAll(c, recs), Followed(q, recs);
    assert Unique(c);
    hide Swept, AddedAll, Others, Unique, FindPlan, LivePlans, PlansOf, PlansIn, CountOf;
    AddingAll(c, recs);
    SweepKeepsLive(a);
    SweepKeepsPlans(a);
    LiveIsHeard(a, recs);
    SweepKeepsUnique(a);
    OthersUntouched(q, c);
    OthersUntouched(c, a);
    SamePlans(q, c);
    SweptCounts(a, recs);
    ChangedIff(c, a, f);
  }

  ghost predicate AllOurs(q: seq<Req>) {
    forall r | r in q && IsCie(r) :: r.src == RtkPriv
  }

  /** The requests for countries are the driver's own, and no more than one reference each is added at first. */
  lemma {:induction false} CountryRequestsAreOurs(q: seq<Req>, recs: seq<Record>)
    requires AllOurs(q)
    ensures AllOurs(AddedAll(Cleared(q), recs)) && AllOurs(Followed(q, recs))
    decreases |recs|
  {
    SweepKeepsUnique(AddedAll(Cleared(q), recs));
    if recs != [] {
      CountryRequestsAreOurs(q, recs[..|recs| - 1]);
      AddKeepsOurs(AddedAll(Cleared(q), recs[..|recs| - 1]), recs[|recs| - 1].plan);
    } else {
      forall r | r in Cleared(q) && IsCie(r) ensures r.src == RtkPriv {
        var i :| 0 <= i < |q| && Cleared(q)[i] == r;
        assert q[i] in q;
      }
    }
  }

  lemma AddKeepsOurs(q: seq<Req>, p: Plan)
    requires AllOurs(q)
    ensures AllOurs(Added(q, p))
  {
    forall r | r in Added(q, p) && IsCie(r) ensures r.src == RtkPriv {
      var i :| 0 <= i < |Added(q, p)| && Added(q, p)[i] == r;
      assert i < |q| ==> q[i] in q;
    }
  }

  lemma LiveIsHeard(a: seq<Req>, recs: seq<Record>)
    requires forall i | 0 <= i < |a| && IsCie(a[i]) :: a[i].refCnt == CountOf(recs, a[i].plan)
    requires forall i | 0 <= i < |recs| && recs[i].status != NoCountry :: FindPlan(a, recs[i].plan) < |a|
    ensures LivePlans(a) == PlansIn(recs)
  {
    hide FindPlan, CountOf;
    forall p ensures p in LivePlans(a) <==> p in PlansIn(recs) {
      CountedIffHeard(recs, p);
      if p in PlansIn(recs) {
        var i :| 0 <= i < |recs| && recs[i].status != NoCountry && recs[i].plan == p;
        var k := FindPlan(a, recs[i].plan);
        assert !IsDead(a[k]);
      }
    }
  }

  lemma SamePlans(q: seq<Req>, c: seq<Req>)
    requires |q| == |c| && forall i | 0 <= i < |q| :: IsCie(q[i]) == IsCie(c[i]) && q[i].plan == c[i].plan
    ensures PlansOf(q) == PlansOf(c)
  {
  }

  lemma SweptCounts(a: seq<Req>, recs: seq<Record>)
    requires forall i | 0 <= i < |a| && IsCie(a[i]) :: a[i].refCnt == CountOf(recs, a[i].plan)
    ensures forall i | 0 <= i < |Swept(a)| && IsCie(Swept(a)[i]) :: Swept(a)[i].refCnt == CountOf(recs, Swept(a)[i].plan)
  {
    SweepKeepsUnique(a);
    forall i | 0 <= i < |Swept(a)| && IsCie(Swept(a)[i]) ensures Swept(a)[i].refCnt == CountOf(recs, Swept(a)[i].plan) {
      assert Swept(a)[i] in Swept(a);
    }
  }

  lemma DeadIsGone(a: seq<Req>, i: nat)
    requires Unique(a) && i < |a| && IsDead(a[i])
    ensures a[i].plan !in LivePlans(a)
  {
    forall k | 0 <= k < |a| && IsCie(a[k]) && !IsDead(a[k]) ensures a[k].plan != a[i].plan {
      assert k != i;
    }
  }

  lemma ChangedIff(c: seq<Req>, a: seq<Req>, f: seq<Req>)
    requires f == Swept(a) && |c| <= |a| && Unique(a)
    requires forall i | 0 <= i < |c| :: a[i] == c[i].(refCnt := a[i].refCnt)
    requires forall i | |c| <= i < |a| :: IsCie(a[i]) && a[i].plan !in PlansOf(c) && a[i].refCnt > 0
    ensures |a| != |c| || |f| != |a| <==> PlansOf(f) != PlansOf(c)
  {
    hide Swept, Others;
    SweepKeepsLive(a);
    SweepKeepsPlans(a);
    if |a| != |c| {
      assert !IsDead(a[|c|]);
      assert a[|c|].plan in PlansOf(f);
    } else if |f| != |a| {
      var i :| 0 <= i < |a| && IsDead(a[i]);
      assert c[i].plan in PlansOf(c) && c[i].plan == a[i].plan;
      DeadIsGone(a, i);
    } else {
      SamePlans(c, a);
    }
  }

  lemma SweptNone(q: seq<Req>)
    ensures q == Swept(q[..0]) + q[0..] && Swept(q[..0]) == []
  {
  }

  /** The list with `n` requests handled; the next one stays or goes. */
  lemma SweptOneMore(was: seq<Req>, n: nat, q: seq<Req>, cur: nat)
    requires n <= |was| && q == Swept(was[..n]) + was[n..] && cur == |Swept(was[..n])| < |q|
    ensures n < |was| && q[cur] == was[n]
    ensures Swept(was[..n + 1]) == Swept(was[..n]) + if IsDead(was[n]) then [] else [was[n]]
    ensures if IsDead(was[n]) then q[..cur] + q[cur + 1..] == Swept(was[..n + 1]) + was[n + 1..] else q == Swept(was[..n + 1]) + was[n + 1..]
  {
    hide IsDead;
    assert was[..n + 1][..n] == was[..n];
    Middle(Swept(was[..n]), was[n..], q, cur);
    assert was[n..][1..] == was[n + 1..];
  }

  lemma Middle(w: seq<Req>, z: seq<Req>, q: seq<Req>, cur: nat)
    requires q == w + z && cur == |w| < |q|
    ensures z != [] && q[cur] == z[0] && q[..cur] + q[cur + 1..] == w + z[1..] && q == (w + [z[0]]) + z[1..]
  {
  }

  // ----- updating the records of a link

  /** The records after those from `s` to `e` are replaced. */
  function Overwritten(recs: seq<Record>, s: nat, e: nat, r: Record): (done: seq<Record>)
    requires s <= e <= |recs|
    ensures |done| == |recs| && forall k | 0 <= k < |recs| :: done[k] == if s <= k < e then r else recs[k]
  {
    seq(|recs|, k requires 0 <= k < |recs| => if s <= k < e then r else recs[k])
  }

  predicate SamePlan(a: Record, b: Record) {
    a.plan == b.plan
  }

  /** Records that only move between plans that are the same are counted the same. */
  lemma {:induction false} SameCounts(a: seq<Record>, b: seq<Record>, p: Plan)
    requires |a| == |b| && AllWf(a) && AllWf(b) && forall k | 0 <= k < |a| :: SamePlan(a[k], b[k])
    ensures CountOf(a, p) == CountOf(b, p)
    decreases |a|
  {
    if a != [] {
      assert SamePlan(a[|a| - 1], b[|b| - 1]);
      SameCounts(a[..|a| - 1], b[..|b| - 1], p);
    }
  }

  lemma StillFollows(q: seq<Req>, a: seq<Record>, b: seq<Record>)
    requires |a| == |b| && AllWf(a) && AllWf(b) && (forall k | 0 <= k < |a| :: SamePlan(a[k], b[k])) && Follows(q, a)
    ensures Follows(q, b)
  {
    forall p ensures CountOf(a, p) == CountOf(b, p) && (p in PlansIn(a) <==> p in PlansIn(b)) {
      SameCounts(a, b, p);
      CountedIffHeard(a, p);
      CountedIffHeard(b, p);
    }
  }

  // ----- choosing one record

  /** How much a record is preferred; the less is known of a country the more. */
  function Score(st: Status): nat {
    match st
    case NoCountry => 0
    case Unknown => 3
    case OpchNoexist => 2
    case Applicable => 1
  }

  /** The more cautious status: unknown before an operating channel that does not exist before an applicable plan. */
  predicate MoreCautious(a: Status, b: Status) {
    (a == Unknown && (b == OpchNoexist || b == Applicable)) || (a == OpchNoexist && b == Applicable)
  }

  predicate HasCountry(recs: seq<Record>, i: nat) {
    i < |recs| && recs[i].status != NoCountry
  }

  /** Record `k` has a country and none is more cautious; among equals the country in effect with that status is kept,
      and otherwise the first is taken. */
  ghost predicate IsPick(recs: seq<Record>, effected: bool, cont: Record, k: nat) {
    HasCountry(recs, k)
    && (forall i: nat | HasCountry(recs, i) :: !MoreCautious(recs[i].status, recs[k].status))
    && (effected && cont.status == recs[k].status && cont.alpha2 != recs[k].alpha2 ==>
          forall i: nat | HasCountry(recs, i) && recs[i].status == recs[k].status :: recs[i].alpha2 != cont.alpha2)
    && (!(effected && cont.status == recs[k].status && cont.alpha2 == recs[k].alpha2) ==>
          forall i: nat | i < k && HasCountry(recs, i) :: MoreCautious(recs[k].status, recs[i].status))
  }

  /** The record in effect is picked from the records, and there is one exactly when one has a country. */
  ghost predicate Picked(recs: seq<Record>, effected: bool, cont: Record) {
    if effected then exists k: nat :: HasCountry(recs, k) && recs[k] == cont && forall i: nat | HasCountry(recs, i) :: !MoreCautious(recs[i].status, cont.status)
    else NoneHeard(recs)
  }

  ghost predicate NoneHeard(recs: seq<Record>) {
    forall i: nat :: !HasCountry(recs, i)
  }

  function Single(effected: bool, cont: Record): seq<Record> {
    if effected then [cont] else []
  }

  /** A record in effect whose plan stays the same needs no other request. */
  lemma SamePlanFollows(q: seq<Req>, a: Record, b: Record)
    requires Follows(q, [a]) && a.status != NoCountry && b.status != NoCountry && SamePlan(a, b)
    ensures Follows(q, [b])
  {
    assert [a][..0] == [] && [b][..0] == [];
    assert [a][0] == a && [b][0] == b;
    assert PlansIn([a]) == {a.plan} && PlansIn([b]) == {b.plan};
    forall p ensures CountOf([a], p) == CountOf([b], p) {
    }
  }

  // ----- the code

  class RfCtl {
    var reqs: seq<Req>
    var regdReqNum: nat
    var cisr: seq<Record>
    var effectedCisr: bool
    var effectedCisrCont: Record // valid when there is a record in effect
    var cisEnabled: bool
    var intersect: bool
    var envBss: bool

    ghost predicate Valid()
      reads this
    {
      regdReqNum == |reqs| && |cisr| == IFACE_NUMBER * RLINK_MAX && Unique(reqs) && AllWf(cisr)
      && (effectedCisr ==> effectedCisrCont.status != NoCountry)
    }

    /** The requests for countries are those the records call for: none when following is disabled, one for each plan
        by intersection, and otherwise the one of the record picked. */
    ghost predicate Heeds(recs: seq<Record>)
      reads this
    {
      if !cisEnabled then Follows(reqs, [])
      else if intersect then Follows(reqs, recs)
      else Follows(reqs, if effectedCisr then [effectedCisrCont] else []) && Picked(recs, effectedCisr, effectedCisrCont)
    }

    /** Without intersection the list fits the record in effect, unless following was just disabled. */
    ghost predicate Settled()
      reads this
    {
      !intersect && (cisEnabled || !effectedCisr) ==> Follows(reqs, if effectedCisr then [effectedCisrCont] else [])
    }

    /** The list starts with the request of the driver itself. */
    constructor (init: Req, cisEnabled: bool, intersect: bool, envBss: bool)
      requires init.inr == Init
      ensures Valid() && reqs == [init] && Heeds(cisr) && Settled()
    {
      var none := Record("\0\0", 0, 0, NoCountry, NO_PLAN);
      reqs, regdReqNum, cisr := [init], 1, seq(IFACE_NUMBER * RLINK_MAX, _ => none);
      effectedCisr, effectedCisrCont, this.cisEnabled, this.intersect, this.envBss := false, none, cisEnabled, intersect, envBss;
      new;
      assert PlansOf(reqs) == {} && PlansIn(cisr) == {} && PlansIn([]) == {};
    }

    method ListInsert(r: Req)
      requires regdReqNum == |reqs|
      modifies this`reqs, this`regdReqNum
      ensures reqs == old(reqs) + [r] && regdReqNum == |reqs|
    {
      reqs := reqs + [r];
      regdReqNum := regdReqNum + 1;
    }

    method ListDelete(i: nat)
      requires regdReqNum == |reqs| && i < |reqs|
      modifies this`reqs, this`regdReqNum
      ensures reqs == old(reqs)[..i] + old(reqs)[i + 1..] && regdReqNum == |reqs|
    {
      reqs := reqs[..i] + reqs[i + 1..];
      regdReqNum := regdReqNum - 1;
    }

    method ClearRefCnt()
      modifies this`reqs
      ensures reqs == Cleared(old(reqs))
    {
      ghost var was := reqs;
      var i := 0;
      while i < |reqs|
        invariant i <= |reqs| == |was|
        invariant forall k | 0 <= k < i :: reqs[k] == Cleared(was)[k]
        invariant forall k | i <= k < |was| :: reqs[k] == was[k]
      {
        if IsCie(reqs[i]) {
          reqs := reqs[i := reqs[i].(refCnt := 0)];
        }
        i := i + 1;
      }
    }

    /** Deletes while walking: the next request is taken before the current one may go. */
    method ClearZeroRef() returns (del: bool)
      requires regdReqNum == |reqs|
      modifies this`reqs, this`regdReqNum
      ensures reqs == Swept(old(reqs)) && regdReqNum == |reqs| && del == (|reqs| != |old(reqs)|)
    {
      hide Swept;
      del := false;
      ghost var was := reqs;
      ghost var n := 0;
      var cur := 0;
      SweptNone(was);
      while cur < |reqs|
        invariant n <= |was| && cur == |Swept(was[..n])| && reqs == Swept(was[..n]) + was[n..] && regdReqNum == |reqs|
        invariant cur <= n && del == (cur != n)
        decreases |was| - n
      {
        SweptOneMore(was, n, reqs, cur);
        if IsCie(reqs[cur]) && reqs[cur].refCnt == 0 {
          ListDelete(cur);
          del := true;
        } else {
          cur := cur + 1;
        }
        n := n + 1;
      }
      assert was[..n] == was;
    }

    method AddCountryIeReq(plan: Plan) returns (insert: bool)
      requires regdReqNum == |reqs|
      modifies this`reqs, this`regdReqNum
      ensures reqs == Added(old(reqs), plan) && regdReqNum == |reqs| && insert == (|reqs| != |old(reqs)|)
    {
      var cur := 0;
      while cur < |reqs| && !(IsCie(reqs[cur]) && reqs[cur].plan == plan)
        invariant cur <= |reqs| && forall i | 0 <= i < cur :: !(IsCie(reqs[i]) && reqs[i].plan == plan)
      {
        cur := cur + 1;
      }
      assert cur == FindPlan(reqs, plan);
      insert := cur == |reqs|;
      if insert {
        ListInsert(Req(RtkPriv, CountryIe, 1, plan, false));
      } else {
        reqs := reqs[cur := reqs[cur].(refCnt := reqs[cur].refCnt + 1)];
      }
    }

    /** Adds the plan of every record with a country. */
    method AddFrom(recs: seq<Record>) returns (effected: bool)
      requires regdReqNum == |reqs|
      modifies this`reqs, this`regdReqNum
      ensures reqs == AddedAll(old(reqs), recs) && regdReqNum == |reqs| && |reqs| >= |old(reqs)| && effected == (|reqs| != |old(reqs)|)
    {
      effected := false;
      var i := 0;
      while i < |recs|
        invariant i <= |recs| && reqs == AddedAll(old(reqs), recs[..i]) && regdReqNum == |reqs|
        invariant |reqs| >= |old(reqs)| && effected == (|reqs| != |old(reqs)|)
      {
        assert recs[..i + 1][..i] == recs[..i];
        if recs[i].status != NoCountry {
          var insert := AddCountryIeReq(recs[i].plan);
          effected := effected || insert;
        }
        i := i + 1;
      }
      assert recs[..i] == recs;
    }

    /** Whether anything that matters changed in the records from `s` to `e`; they are updated in any case. */
    method UpdatePerLinkCisr(s: nat, e: nat, r: Record) returns (effected: bool)
      requires s <= e <= |cisr|
      modifies this`cisr
      ensures cisr == Overwritten(old(cisr), s, e, r)
      ensures effected == if intersect then exists k | s <= k < e :: !SamePlan(old(cisr)[k], r) else exists k | s <= k < e :: old(cisr)[k] != r
    {
      ghost var was := cisr;
      var k := s;
      while k < e && cisr[k] == r
        invariant s <= k <= e && forall m | s <= m < k :: cisr[m] == r
      {
        k := k + 1;
      }
      if k == e {
        assert forall m | s <= m < e :: SamePlan(was[m], r);
        return false;
      }
      var ori := cisr;
      var m := s;
      while m < e
        invariant s <= m <= e && cisr == Overwritten(was, s, m, r)
      {
        cisr := cisr[m := r];
        m := m + 1;
      }
      if intersect {
        m := s;
        while m < e && (ori[m] == r || ori[m].plan == r.plan)
          invariant s <= m <= e && forall n | s <= n < m :: SamePlan(ori[n], r)
        {
          m := m + 1;
        }
        assert m < e ==> !SamePlan(ori[m], r);
        return m < e;
      }
      effected := true;
    }

    /** Picks the record in effect: highest score first, then the country already in effect. */
    method SelectEffectedCisr(recs: seq<Record>) returns (changed: bool)
      modifies this`effectedCisr, this`effectedCisrCont
      ensures Picked(recs, effectedCisr, effectedCisrCont)
      ensures effectedCisr ==> exists k: nat :: IsPick(recs, old(effectedCisr), old(effectedCisrCont), k) && recs[k] == effectedCisrCont
      ensures changed == if effectedCisr then !old(effectedCisr) || !SamePlan(old(effectedCisrCont), effectedCisrCont) else old(effectedCisr)
    {
      var found, best := false, 0;
      var i := 0;
      while i < |recs|
        invariant effectedCisr == old(effectedCisr) && effectedCisrCont == old(effectedCisrCont)
        invariant i <= |recs| && (!found ==> NoneHeard(recs[..i])) && (found ==> IsPick(recs[..i], effectedCisr, effectedCisrCont, best))
      {
        var r := recs[i];
        assert recs[..i + 1] == recs[..i] + [r];
        if found {
          PickOneMore(recs[..i], r, effectedCisr, effectedCisrCont, best);
        } else {
          FirstPick(recs[..i], r, effectedCisr, effectedCisrCont);
        }
        if r.status != NoCountry
          && (!found || Score(r.status) > Score(recs[best].status)
              || (Score(r.status) == Score(recs[best].status) && effectedCisr && effectedCisrCont.status == recs[best].status
                  && effectedCisrCont.alpha2 != recs[best].alpha2 && effectedCisrCont.alpha2 == r.alpha2))
        {
          found, best := true, i;
        }
        i := i + 1;
      }
      assert recs[..i] == recs;
      changed := effectedCisr != found;
      if found {
        if effectedCisr {
          changed := effectedCisrCont.plan != recs[best].plan;
        }
        effectedCisrCont := recs[best];
      }
      effectedCisr := found;
    }

    /** The record in effect is chosen anew, or given up when there should be none; says whether a plan changed. */
    method UpdateEffectedCisr(recs: seq<Record>) returns (changed: bool)
      modifies this`effectedCisr, this`effectedCisrCont
      ensures cisEnabled && !intersect ==> Picked(recs, effectedCisr, effectedCisrCont)
      ensures !(cisEnabled && !intersect) ==> !effectedCisr
      ensures changed == if effectedCisr then !old(effectedCisr) || !SamePlan(old(effectedCisrCont), effectedCisrCont) else old(effectedCisr)
      ensures effectedCisr ==> effectedCisrCont.status != NoCountry
    {
      if cisEnabled && !intersect {
        changed := SelectEffectedCisr(recs);
      } else {
        changed := effectedCisr;
        effectedCisr := false;
      }
    }

    /** The requests for countries are counted anew. */
    method Recount(recs: seq<Record>) returns (effected: bool)
      requires regdReqNum == |reqs| && Unique(reqs)
      modifies this`reqs, this`regdReqNum
      ensures regdReqNum == |reqs| && Follows(reqs, recs) && Others(reqs) == Others(old(reqs))
      ensures effected <==> PlansOf(reqs) != PlansOf(old(reqs))
    {
      FollowedIsRight(reqs, recs);
      ClearRefCnt();
      var inserted := AddFrom(recs);
      var deleted := ClearZeroRef();
      effected := inserted || deleted;
    }

    /** The records of one link, or of all links of the interface, are replaced. */
    method UpdateRecords(iface: nat, alink: nat, r: Record) returns (update: bool)
      requires Valid() && iface < IFACE_NUMBER && Wf(r)
      modifies this`cisr
      ensures Valid() && cisr == Replaced(old(cisr), iface, alink, r)
      ensures !update && old(Heeds(cisr)) ==> Heeds(cisr)
    {
      var s, e := iface * RLINK_MAX, iface * RLINK_MAX + RLINK_MAX;
      if alink < RLINK_MAX {
        s, e := s + alink, s + alink + 1;
      }
      update := UpdatePerLinkCisr(s, e, r);
      if !update {
        if intersect {
          forall k | 0 <= k < |cisr| ensures SamePlan(old(cisr)[k], cisr[k]) {
          }
          if Follows(reqs, old(cisr)) {
            StillFollows(reqs, old(cisr), cisr);
          }
        } else {
          assert cisr == old(cisr);
        }
      }
    }

    /** Handling what was heard of a country. The records come from the links, or from the scanned networks; the latter
        are handed in. */
    method PrehdlCountryIe(iface: nat, hasCisr: bool, alink: nat, r: Record, confsChange: bool, scanned: seq<Record>) returns (effected: bool)
      requires Valid() && iface < IFACE_NUMBER && Wf(r)
      modifies this`reqs, this`regdReqNum, this`cisr, this`effectedCisr, this`effectedCisrCont
      ensures Valid() && Others(reqs) == Others(old(reqs))
      ensures effected <==> PlansOf(reqs) != PlansOf(old(reqs))
      ensures cisr == if hasCisr then Replaced(old(cisr), iface, alink, r) else old(cisr)
      ensures |cisr| == 4 && forall k | 0 <= k < 4 :: cisr[k] == if hasCisr && k / 2 == iface && (alink >= 2 || k % 2 == alink) then r else old(cisr[k])
      ensures !envBss && old(Heeds(cisr)) && old(Settled()) ==> Heeds(cisr)
      ensures envBss && (confsChange || (!hasCisr && old(Settled()))) ==> Heeds(scanned)
      ensures old(Settled()) ==> Settled()
    {
      hide Follows, Others, PlansOf, Picked, Unique;
      effected := false;
      if hasCisr {
        var update := UpdateRecords(iface, alink, r);
        if !update && !confsChange {
          return;
        }
      }
      var recs := if envBss then scanned else cisr;
      var changed := UpdateEffectedCisr(recs);
      if !changed && !intersect && !confsChange {
        if effectedCisr && Follows(reqs, [old(effectedCisrCont)]) {
          SamePlanFollows(reqs, old(effectedCisrCont), effectedCisrCont);
        }
        return;
      }
      effected := Recount(if !cisEnabled then [] else if intersect then recs else Single(effectedCisr, effectedCisrCont));
    }
  }

  function Replaced(recs: seq<Record>, iface: nat, alink: nat, r: Record): seq<Record>
    requires |recs| == IFACE_NUMBER * RLINK_MAX && iface < IFACE_NUMBER
  {
    if alink < RLINK_MAX then Overwritten(recs, iface * RLINK_MAX + alink, iface * RLINK_MAX + alink + 1, r)
    else Overwritten(recs, iface * RLINK_MAX, iface * RLINK_MAX + RLINK_MAX, r)
  }

  /** The comparison that replaces the pick. */
  predicate Beats(r: Record, b: Record, effected: bool, cont: Record) {
    Score(r.status) > Score(b.status)
    || (Score(r.status) == Score(b.status) && effected && cont.status == b.status && cont.alpha2 != b.alpha2 && cont.alpha2 == r.alpha2)
  }

  lemma PickOneMore(recs: seq<Record>, r: Record, effected: bool, cont: Record, k: nat)
    requires IsPick(recs, effected, cont, k)
    ensures IsPick(recs + [r], effected, cont, if r.status != NoCountry && Beats(r, recs[k], effected, cont) then |recs| else k)
  {
    var all := recs + [r];
    assert forall i: nat | i < |recs| :: all[i] == recs[i] && (HasCountry(all, i) <==> HasCountry(recs, i));
  }

  lemma FirstPick(recs: seq<Record>, r: Record, effected: bool, cont: Record)
    requires NoneHeard(recs)
    ensures if r.status != NoCountry then IsPick(recs + [r], effected, cont, |recs|) else NoneHeard(recs + [r])
  {
    var all := recs + [r];
    assert forall i: nat | i < |recs| :: all[i] == recs[i] && (HasCountry(all, i) <==> HasCountry(recs, i));
  }
}
