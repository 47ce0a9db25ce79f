/** What the NAT2.5 database promises over whole runs (core/rtw_br_ext.c). */
module Nat25Runs {
  import opened Nat25Db

  datatype DbOp =
    | Insert(addr: NetAddr, mac: Mac, now: int)
    | Lookup(addr: NetAddr, now: int)
    | Expire(now: int)

  function StepView(v: View, op: DbOp, hz: nat): View {
    match op
    case Insert(addr, mac, now) => InsertView(v, addr, mac, now)
    case Lookup(addr, now) => LookupView(v, addr, now, hz)
    case Expire(now) => ExpireView(v, v.Keys, now, hz)
  }

  function RunView(v: View, ops: seq<DbOp>, hz: nat): View {
    if ops == [] then v else StepView(RunView(v, ops[..|ops| - 1], hz), ops[|ops| - 1], hz)
  }

  /** Time never goes back, and starts at `from`. */
  predicate Timed(ops: seq<DbOp>, from: int) {
    forall i | 0 <= i < |ops| :: from <= ops[i].now && (i > 0 ==> ops[i - 1].now <= ops[i].now)
  }

  predicate Refreshes(op: DbOp, addr: NetAddr) {
    op.Insert? && op.addr == addr
  }

  function Passes(ops: seq<DbOp>): nat {
    if ops == [] then 0 else Passes(ops[..|ops| - 1]) + if ops[|ops| - 1].Expire? then 1 else 0
  }

  /** An aged entry that is not inserted again is freed on exactly its use_count-th expire pass, whatever is
      looked up or inserted meanwhile. */
  lemma {:induction false} FreedOnUseCountthPass(v: View, ops: seq<DbOp>, a: NetAddr, from: int, hz: nat)
    requires a in v && v[a].use >= 1 && v[a].seen + 300 * hz <= from && Timed(ops, from)
    requires forall i | 0 <= i < |ops| :: !Refreshes(ops[i], a)
    ensures var w := RunView(v, ops, hz);
      if Passes(ops) < v[a].use then a in w && w[a] == v[a].(use := v[a].use - Passes(ops)) else a !in w
  {
    if ops != [] {
      var init, op := ops[..|ops| - 1], ops[|ops| - 1];
      FreedOnUseCountthPass(v, init, a, from, hz);
      assert from <= op.now && !Refreshes(op, a);
    }
  }

  function Lookups(ops: seq<DbOp>, a: NetAddr): nat {
    if ops == [] then 0 else Lookups(ops[..|ops| - 1], a) + if ops[|ops| - 1].Lookup? && ops[|ops| - 1].addr == a then 1 else 0
  }

  /** For 300 seconds a lookup finds the MAC of the client last seen with the address, after any other traffic, and each
      lookup adds one use. */
  lemma {:induction false} LatestClientIsFound(v: View, a: NetAddr, mac: Mac, t: int, ops: seq<DbOp>, hz: nat)
    requires forall i | 0 <= i < |ops| :: !Refreshes(ops[i], a) && ops[i].now < t + 300 * hz
    ensures var w := RunView(InsertView(v, a, mac, t), ops, hz);
      a in w && w[a] == Rec(mac, t, (if a in v then v[a].use else 1) + Lookups(ops, a))
  {
    if ops != [] {
      var init, op := ops[..|ops| - 1], ops[|ops| - 1];
      LatestClientIsFound(v, a, mac, t, init, hz);
      assert !Refreshes(op, a) && op.now < t + 300 * hz;
    }
  }

  lemma {:induction false} RunsAddUp(v: View, a: seq<DbOp>, b: seq<DbOp>, hz: nat)
    ensures RunView(v, a + b, hz) == RunView(RunView(v, a, hz), b, hz)
  {
    if b == [] {
      assert a + b == a;
    } else {
      RunsAddUp(v, a, b[..|b| - 1], hz);
      assert (a + b)[..|a + b| - 1] == a + b[..|b| - 1];
    }
  }

  /** The life of a client entered at `t` and not seen again: it stays for 300 seconds, and from then on until there
      have been one more expire passes than there were lookups of it in that time. */
  lemma LifeOfAnEntry(v: View, a: NetAddr, mac: Mac, t: int, young: seq<DbOp>, late: seq<DbOp>, from: int, hz: nat)
    requires a !in v && t + 300 * hz <= from && Timed(late, from)
    requires forall i | 0 <= i < |young| :: !Refreshes(young[i], a) && young[i].now < t + 300 * hz
    requires forall i | 0 <= i < |late| :: !Refreshes(late[i], a)
    ensures a in RunView(InsertView(v, a, mac, t), young, hz)
    ensures a in RunView(InsertView(v, a, mac, t), young + late, hz) <==> Passes(late) <= Lookups(young, a)
  {
    hide InsertView;
    LatestClientIsFound(v, a, mac, t, young, hz);
    RunsAddUp(InsertView(v, a, mac, t), young, late, hz);
    FreedOnUseCountthPass(RunView(InsertView(v, a, mac, t), young, hz), late, a, from, hz);
  }

  /** Every entry counts at least one use. */
  lemma {:induction false} UsesStayPositive(v: View, ops: seq<DbOp>, hz: nat)
    requires forall a | a in v :: v[a].use >= 1
    ensures forall a | a in RunView(v, ops, hz) :: RunView(v, ops, hz)[a].use >= 1
  {
    if ops != [] {
      UsesStayPositive(v, ops[..|ops| - 1], hz);
    }
  }
}
