/** One beamforming sounding period (core/rtw_beamforming.c, include/rtw_beamforming.h). */
module Sounding {
  const MAX_SU := 2
  const MAX_MU := 6
  const ENTRIES := 8
  const EMPTY := 0xff

  /** A beamformee; `added` says that the hardware has it, and `mu`, `su` and `ht` are its capabilities. */
  datatype Bfee = Bfee(used: bool, added: bool, mu: bool, su: bool, ht: bool, period: nat, soundCnt: nat, failCnt: nat,
    candidate: bool, sounding: bool, timedOut: bool, deleting: bool, apply: bool, suspended: bool)

  datatype Phase = Idle | Init | SuStart | SuSoundDown | MuStart | MuSoundDown | TimedOut

  /** What goes out: a sounding of one beamformee, the end of one that is being deleted, or the group's sounding. */
  datatype Sent = Ndpa(idx: nat) | Erased(idx: nat) | MuNdpa(group: seq<nat>)

  datatype State = State(bfee: seq<Bfee>, suList: seq<nat>, muList: seq<nat>, phase: Phase, cur: nat, muCnt: nat,
    minPeriod: nat, running: int, waitCnt: nat, reports: nat, leaving: seq<nat>, log: seq<Sent>)
  {
    predicate Shaped() {
      |bfee| == ENTRIES && |suList| == MAX_SU && |muList| == MAX_MU && muCnt <= MAX_MU && (forall i | 0 <= i < muCnt :: muList[i] < ENTRIES)
      && (phase == SuStart ==> cur < ENTRIES)
    }
  }

  // ----- the list of a period

  /** An entry whose turn has come. */
  predicate Due(b: Bfee) {
    b.used && b.added && b.soundCnt <= 1
  }

  predicate IsSu(b: Bfee) {
    Due(b) && !b.mu && (b.su || b.ht) && (b.deleting || (b.apply && !b.suspended))
  }

  predicate IsMu(b: Bfee) {
    Due(b) && b.mu && b.apply
  }

  datatype Lists = Lists(bfee: seq<Bfee>, su: seq<nat>, mu: seq<nat>, notReady: nat)

  function CountDown(b: Bfee): (r: Bfee)
    ensures r.sounding == b.sounding && r.deleting == b.deleting
  {
    if b.used && b.added && b.soundCnt > 0 then b.(soundCnt := b.soundCnt - 1) else b
  }

  /** A listed entry waits its full count again, unless it is only listed to be deleted. */
  function Relisted(b: Bfee, minPeriod: nat): (r: Bfee)
    requires minPeriod > 0
    ensures r.sounding == b.sounding && r.deleting == b.deleting
  {
    if !b.mu && b.deleting then CountDown(b) else b.(candidate := true, soundCnt := b.period / minPeriod)
  }

  /** The lists after one more entry. */
  function Scanned(p: Lists, b: Bfee, i: nat, minPeriod: nat): (r: Lists)
    requires i < |p.bfee| && |p.su| <= MAX_SU && |p.mu| <= MAX_MU && minPeriod > 0
    ensures |r.bfee| == |p.bfee| && |r.su| <= MAX_SU && |r.mu| <= MAX_MU
  {
    if b.used && !b.added then p.(notReady := p.notReady + 1)
    else if IsMu(b) && |p.mu| < MAX_MU then p.(mu := p.mu + [i], bfee := p.bfee[i := Relisted(b, minPeriod)])
    else if IsSu(b) && |p.su| < MAX_SU then p.(su := p.su + [i], bfee := p.bfee[i := Relisted(b, minPeriod)])
    else p.(bfee := p.bfee[i := CountDown(b)])
  }

  /** The lists after the first `n` entries. */
  function Scan(bs: seq<Bfee>, n: nat, minPeriod: nat): (r: Lists)
    requires n <= |bs| && minPeriod > 0
    ensures |r.bfee| == |bs| && |r.su| <= MAX_SU && |r.mu| <= MAX_MU
  {
    if n == 0 then Lists(bs, [], [], 0) else Scanned(Scan(bs, n - 1, minPeriod), bs[n - 1], n - 1, minPeriod)
  }

  /** The places of the first `cap` trues among the first `n`, in order. */
  ghost predicate Takes(s: seq<nat>, due: seq<bool>, n: nat, cap: nat)
    requires n <= |due|
  {
    |s| <= cap
    && (forall i | 0 <= i < |s| :: s[i] < n && due[s[i]])
    && (forall i, j | 0 <= i < j < |s| :: s[i] < s[j])
    && (forall j | 0 <= j < n && due[j] :: j in s || (|s| == cap && forall i | 0 <= i < |s| :: s[i] < j))
  }

  lemma TakesOneMore(s: seq<nat>, due: seq<bool>, n: nat, cap: nat)
    requires n < |due| && Takes(s, due, n, cap)
    ensures if due[n] && |s| < cap then Takes(s + [n], due, n + 1, cap) else Takes(s, due, n + 1, cap)
  {
    if due[n] && |s| < cap {
      var t := s + [n];
      assert t[|s|] == n;
      forall j | 0 <= j < n + 1 && due[j] ensures j in t {
        assert j < n ==> j in s;
      }
    }
  }

  lemma TakesNone(due: seq<bool>, cap: nat)
    ensures Takes([], due, 0, cap)
  {
  }

  lemma NotBoth(b: Bfee)
    ensures !(IsMu(b) && IsSu(b)) && (b.used && !b.added ==> !IsMu(b) && !IsSu(b))
  {
  }

  function Flags(bs: seq<Bfee>, mu: bool): (r: seq<bool>)
    ensures |r| == |bs| && forall i | 0 <= i < |bs| :: r[i] == HasTurn(bs[i], mu)
  {
    seq(|bs|, i requires 0 <= i < |bs| => HasTurn(bs[i], mu))
  }

  /** The turn of an entry has come, in the group or by itself: it is in use and in the hardware, at most one period is
      left to count, and it wants to be sounded, by itself also when it is to be deleted and not while suspended. */
  predicate HasTurn(b: Bfee, mu: bool) {
    b.used && b.added && b.soundCnt <= 1 && b.mu == mu
    && if mu then b.apply else (b.su || b.ht) && (b.deleting || (b.apply && !b.suspended))
  }

  lemma TurnIs(b: Bfee)
    ensures HasTurn(b, true) == IsMu(b) && HasTurn(b, false) == IsSu(b)
  {
  }

  /** The lists hold the entries whose turn has come, in order, as many as there is room for. */
  lemma {:induction false} ScanLists(bs: seq<Bfee>, n: nat, minPeriod: nat)
    requires n <= |bs| && minPeriod > 0
    ensures var r := Scan(bs, n, minPeriod);
      Takes(r.su, Flags(bs, false), n, 2) && Takes(r.mu, Flags(bs, true), n, 6)
      && (forall j | 0 <= j < |bs| :: r.bfee[j].sounding == bs[j].sounding)
  {
    hide Takes, Scanned;
    if n > 0 {
      ScanLists(bs, n - 1, minPeriod);
      OneMoreScanned(Scan(bs, n - 1, minPeriod), bs, n - 1, minPeriod);
    } else {
      TakesNone(Flags(bs, false), MAX_SU);
      TakesNone(Flags(bs, true), MAX_MU);
    }
  }

  /** The same entry in two periods: nothing that decides its turn has changed in between. */
  predicate SameTurn(a: Bfee, b: Bfee) {
    a.used == b.used && a.added == b.added && a.soundCnt == b.soundCnt
  }

  /** An entry is due in its turn: with `c` periods left to count, it is listed in none of the next `c` - 1 periods,
      whatever the other entries do, and its turn has come in the one after them. */
  lemma {:induction false} DueInItsTurn(periods: seq<seq<Bfee>>, i: nat, c: nat, minPeriod: nat)
    requires minPeriod > 0 && 0 < |periods| <= c && forall n | 0 <= n < |periods| :: i < |periods[n]|
    requires var b := periods[0][i]; b.used && b.added && b.soundCnt == c
    requires forall n | 0 <= n < |periods| - 1 ::
      SameTurn(periods[n + 1][i], Scan(periods[n], |periods[n]|, minPeriod).bfee[i])
    ensures var n := |periods| - 1; var l := Scan(periods[n], |periods[n]|, minPeriod);
      var b := periods[n][i];
      b.used && b.added && b.soundCnt == c - n && (n < c - 1 ==> i !in l.su && i !in l.mu) && (n == c - 1 ==> Due(b))
    decreases |periods|
  {
    var n := |periods| - 1;
    if n > 0 {
      DueInItsTurn(periods[..n], i, c, minPeriod);
      assert SameTurn(periods[n - 1 + 1][i], Scan(periods[n - 1], |periods[n - 1]|, minPeriod).bfee[i]);
      CountsDown(periods[n - 1], |periods[n - 1]|, i, minPeriod);
    }
    if n < c - 1 {
      CountsDown(periods[n], |periods[n]|, i, minPeriod);
    }
  }

  /** A listed entry starts to count anew, as many periods as its own period has; one listed only to be deleted does not. */
  lemma {:induction false} ListedCountsAnew(bs: seq<Bfee>, n: nat, i: nat, minPeriod: nat)
    requires n <= |bs| && i < |bs| && minPeriod > 0
    ensures var l := Scan(bs, n, minPeriod);
      i in l.su + l.mu ==> i < n && l.bfee[i].soundCnt == if !bs[i].mu && bs[i].deleting then 0 else bs[i].period / minPeriod
    ensures i >= n ==> Scan(bs, n, minPeriod).bfee[i] == bs[i]
  {
    if n > 0 {
      ListedCountsAnew(bs, n - 1, i, minPeriod);
      ListedCountsAnew(bs, n - 1, n - 1, minPeriod);
      ScannedCounts(Scan(bs, n - 1, minPeriod), bs[n - 1], n - 1, minPeriod);
      hide Scanned;
    }
  }

  lemma ScannedCounts(p: Lists, b: Bfee, i: nat, minPeriod: nat)
    requires i < |p.bfee| && |p.su| <= MAX_SU && |p.mu| <= MAX_MU && minPeriod > 0 && i !in p.su + p.mu
    ensures var r := Scanned(p, b, i, minPeriod);
      (i in r.su + r.mu ==> r.bfee[i].soundCnt == if !b.mu && b.deleting then 0 else b.period / minPeriod)
      && forall j | 0 <= j < |p.bfee| && j != i :: r.bfee[j] == p.bfee[j] && (j in r.su + r.mu <==> j in p.su + p.mu)
  {
    hide IsSu;
    assert IsSu(b) ==> Due(b) && !b.mu by { NotBoth(b); SuIsDue(b); }
  }

  lemma SuIsDue(b: Bfee)
    ensures IsSu(b) ==> Due(b) && !b.mu
  {
  }

  /** One scan counts an entry whose turn has not come one period down, and does not list it. */
  lemma {:induction false} CountsDown(bs: seq<Bfee>, n: nat, i: nat, minPeriod: nat)
    requires n <= |bs| && i < |bs| && minPeriod > 0 && bs[i].used && bs[i].added && bs[i].soundCnt >= 2
    ensures var l := Scan(bs, n, minPeriod);
      i !in l.su && i !in l.mu && l.bfee[i] == if i < n then bs[i].(soundCnt := bs[i].soundCnt - 1) else bs[i]
  {
    if n > 0 {
      CountsDown(bs, n - 1, i, minPeriod);
      hide Relisted;
    }
  }

  lemma OneMoreScanned(p: Lists, bs: seq<Bfee>, n: nat, minPeriod: nat)
    requires n < |bs| == |p.bfee| && minPeriod > 0 && p.bfee[n].sounding == bs[n].sounding
    requires Takes(p.su, Flags(bs, false), n, MAX_SU) && Takes(p.mu, Flags(bs, true), n, MAX_MU) && |p.su| <= MAX_SU && |p.mu| <= MAX_MU
    ensures var r := Scanned(p, bs[n], n, minPeriod);
      Takes(r.su, Flags(bs, false), n + 1, MAX_SU) && Takes(r.mu, Flags(bs, true), n + 1, MAX_MU)
      && forall j | 0 <= j < |bs| :: r.bfee[j].sounding == p.bfee[j].sounding
  {
    hide Takes, Relisted, CountDown, IsMu, IsSu, HasTurn;
    TakesOneMore(p.su, Flags(bs, false), n, MAX_SU);
    TakesOneMore(p.mu, Flags(bs, true), n, MAX_MU);
    NotBoth(bs[n]);
    TurnIs(bs[n]);
  }

  /** The flags of the period before are cleared. */
  function Cleared(b: Bfee): Bfee {
    if b.used && b.sounding then b.(sounding := false, candidate := false) else b
  }

  function AllCleared(bs: seq<Bfee>): (r: seq<Bfee>)
    ensures |r| == |bs| && forall i | 0 <= i < |bs| :: r[i] == Cleared(bs[i])
  {
    seq(|bs|, i requires 0 <= i < |bs| => Cleared(bs[i]))
  }

  function Padded(s: seq<nat>, n: nat): (r: seq<nat>)
    requires |s| <= n
    ensures |r| == n && r[..|s|] == s && forall i | |s| <= i < n :: r[i] == EMPTY
  {
    s + seq(n - |s|, _ => EMPTY)
  }

  function ListsOf(s: State): Lists
    requires s.Shaped() && s.minPeriod > 0
  {
    Scan(AllCleared(s.bfee), ENTRIES, s.minPeriod)
  }

  /** Variables reset and lists made. */
  function Prepared(s: State): (r: State)
    requires s.Shaped() && s.minPeriod > 0
    ensures s.phase == Init ==> r.Shaped()
  {
    var l := ListsOf(s);
    ScanLists(AllCleared(s.bfee), ENTRIES, s.minPeriod);
    assert Padded(l.mu, MAX_MU)[..|l.mu|] == l.mu;
    s.(bfee := l.bfee, suList := Padded(l.su, MAX_SU), muList := Padded(l.mu, MAX_MU), cur := EMPTY, muCnt := |l.mu|)
  }

  // ----- the handler and the sound-down, which call each other

  /** The first place in the list with an entry not sounded, or the length. */
  function FirstUnsounded(s: State, i: nat): (k: nat)
    requires s.Shaped() && i <= MAX_SU
    ensures i <= k <= MAX_SU && (k < MAX_SU ==> s.suList[k] < ENTRIES && !s.bfee[s.suList[k]].sounding)
    ensures forall j | i <= j < k :: s.suList[j] < ENTRIES ==> s.bfee[s.suList[j]].sounding
    decreases MAX_SU - i
  {
    if i == MAX_SU || (s.suList[i] < ENTRIES && !s.bfee[s.suList[i]].sounding) then i else FirstUnsounded(s, i + 1)
  }

  /** Entries in the list not sounded yet. */
  function Unsounded(s: State, i: nat): nat
    requires s.Shaped() && i <= MAX_SU
    decreases MAX_SU - i
  {
    if i == MAX_SU then 0
    else (if s.suList[i] < ENTRIES && !s.bfee[s.suList[i]].sounding then 1 else 0) + Unsounded(s, i + 1)
  }

  function Starting(s: State, idx: nat): (r: State)
    requires s.Shaped() && idx < ENTRIES
    ensures r.Shaped() && r.suList == s.suList
  {
    s.(cur := idx, phase := SuStart, bfee := s.bfee[idx := s.bfee[idx].(sounding := true, timedOut := false)])
  }

  lemma StartingCounts(s: State, idx: nat, i: nat)
    requires s.Shaped() && idx < ENTRIES && i <= MAX_SU
    ensures Unsounded(Starting(s, idx), i) <= Unsounded(s, i)
    ensures (exists j :: i <= j < MAX_SU && s.suList[j] == idx) && !s.bfee[idx].sounding ==> Unsounded(Starting(s, idx), i) < Unsounded(s, i)
    decreases MAX_SU - i
  {
    if i < MAX_SU {
      StartingCounts(s, idx, i + 1);
    }
  }

  function MarkAll(bs: seq<Bfee>, idxs: seq<nat>): (r: seq<Bfee>)
    ensures |r| == |bs| && forall j | 0 <= j < |bs| :: r[j] == if j in idxs then bs[j].(sounding := true) else bs[j]
  {
    seq(|bs|, j requires 0 <= j < |bs| => if j in idxs then bs[j].(sounding := true) else bs[j])
  }

  /** Sounding goes on with the next entry not sounded, then with the group, and then ends. */
  function Continued(s: State): (r: State)
    requires s.Shaped()
    ensures r.Shaped()
    decreases Unsounded(s, 0), 0
  {
    var k := FirstUnsounded(s, 0);
    if k < MAX_SU then
      var idx := s.suList[k];
      var t := Starting(s, idx);
      StartingCounts(s, idx, 0);
      if s.bfee[idx].deleting then SoundedDown(t.(log := t.log + [Erased(idx)]), false)
      else t.(log := t.log + [Ndpa(idx)])
    else if s.muCnt > 0 then
      var group := s.muList[..s.muCnt];
      s.(phase := MuStart, bfee := MarkAll(s.bfee, group), log := s.log + [MuNdpa(group)], muCnt := 0)
    else s.(running := s.running - 1, phase := Init)
  }

  /** The end of one sounding. The handler is called directly. */
  function SoundedDown(s: State, status: bool): (r: State)
    requires s.Shaped()
    ensures r.Shaped()
    decreases Unsounded(s, 0), 1
  {
    if s.phase == MuStart then Continued(s.(phase := MuSoundDown, reports := s.reports + 1))
    else if s.phase == SuStart then
      var b := s.bfee[s.cur];
      if b.timedOut then s.(phase := SuSoundDown, bfee := s.bfee[s.cur := b.(timedOut := false)])
      else
        SameUnsounded(s, SuEnded(s, status), 0);
        Continued(SuEnded(s, status))
    else s
  }

  /** What the end of a sounding leaves behind: counters, and a deleted entry let go. */
  function SuEnded(s: State, status: bool): (t: State)
    requires s.Shaped() && s.phase == SuStart
    ensures t.Shaped() && t.phase == SuSoundDown && t.(phase := s.phase, bfee := s.bfee, reports := s.reports, leaving := s.leaving) == s
    ensures forall j | 0 <= j < ENTRIES :: t.bfee[j].sounding == s.bfee[j].sounding
  {
    var b := s.bfee[s.cur];
    s.(phase := SuSoundDown, bfee := s.bfee[s.cur := BfeeEnded(b, status)],
       reports := if status then s.reports + 1 else s.reports,
       leaving := if !status && !b.deleting && BfeeEnded(b, status).failCnt > 30 then s.leaving + [s.cur] else s.leaving)
  }

  /** The count of failures is five bits wide. */
  function BfeeEnded(b: Bfee, status: bool): (c: Bfee)
    ensures c.sounding == b.sounding
  {
    if status then b.(failCnt := 0) else if b.deleting then b.(deleting := false) else b.(failCnt := (b.failCnt + 1) % 32)
  }

  lemma SameUnsounded(s: State, t: State, i: nat)
    requires s.Shaped() && t.Shaped() && i <= MAX_SU && s.suList == t.suList
    requires forall j | 0 <= j < ENTRIES :: s.bfee[j].sounding == t.bfee[j].sounding
    ensures Unsounded(s, i) == Unsounded(t, i)
    decreases MAX_SU - i
  {
    if i < MAX_SU {
      SameUnsounded(s, t, i + 1);
    }
  }

  // ----- a period

  predicate IsFor(e: Sent, idx: nat) {
    e == Ndpa(idx) || e == Erased(idx)
  }

  /** `k` of the listed entries have been sounded, in the order of the list and once each, and the group after them
      if `done`; nothing else was sent. */
  ghost predicate Sofar(s: State, su: seq<nat>, mu: seq<nat>, base: seq<Sent>, k: nat, done: bool) {
    s.Shaped() && |su| <= MAX_SU && |mu| <= MAX_MU && k <= |su|
    && s.suList == Padded(su, MAX_SU) && s.muList[..|mu|] == mu
    && (forall i | 0 <= i < |su| :: su[i] < ENTRIES) && (forall i, j | 0 <= i < j < |su| :: su[i] != su[j])
    && (forall i | 0 <= i < |su| :: s.bfee[su[i]].sounding <==> i < k)
    && |s.log| == |base| + k + (if done then 1 else 0) && s.log[..|base|] == base
    && (forall i | 0 <= i < k :: IsFor(s.log[|base| + i], su[i]))
    && s.muCnt == (if done then 0 else |mu|)
    && (done ==> k == |su| && mu != [] && s.log[|base| + k] == MuNdpa(mu))
    && (s.phase == SuStart ==> k > 0 && !done && s.cur == su[k - 1] && !s.bfee[s.cur].timedOut)
    && (s.phase == MuStart ==> done)
  }

  /** The period is under way, or over with everything in the lists sounded. */
  ghost predicate Going(s: State, su: seq<nat>, mu: seq<nat>, base: seq<Sent>, k: nat, done: bool) {
    Sofar(s, su, mu, base, k, done) && s.phase != Idle && (s.phase == Init ==> k == |su| && (mu != [] ==> done))
  }

  /** Entries of the list from `k` on that are sounded over the air; those being deleted are only taken off. */
  function Awaited(bs: seq<Bfee>, su: seq<nat>, k: nat): nat
    requires k <= |su| && forall i | 0 <= i < |su| :: su[i] < |bs|
    decreases |su| - k
  {
    if k == |su| then 0 else (if bs[su[k]].deleting then 0 else 1) + Awaited(bs, su, k + 1)
  }

  lemma {:induction false} AwaitedKeeps(bs: seq<Bfee>, cs: seq<Bfee>, su: seq<nat>, k: nat)
    requires k <= |su| && |bs| == |cs| && forall i | 0 <= i < |su| :: su[i] < |bs|
    requires forall i | k <= i < |su| :: bs[su[i]].deleting == cs[su[i]].deleting
    ensures Awaited(bs, su, k) == Awaited(cs, su, k)
    decreases |su| - k
  {
    if k < |su| {
      AwaitedKeeps(bs, cs, su, k + 1);
    }
  }

  /** Soundings still to be started whose end has to be waited for. */
  function Open(s: State, su: seq<nat>, mu: seq<nat>, k: nat, done: bool): nat
    requires s.Shaped() && k <= |su| && forall i | 0 <= i < |su| :: su[i] < ENTRIES
  {
    Awaited(s.bfee, su, k) + if mu != [] && !done then 1 else 0
  }

  lemma FirstIsNext(s: State, su: seq<nat>, mu: seq<nat>, base: seq<Sent>, k: nat, done: bool)
    requires Sofar(s, su, mu, base, k, done)
    ensures FirstUnsounded(s, 0) == if k < |su| then k else MAX_SU
  {
    var f := FirstUnsounded(s, 0);
    assert forall i | 0 <= i < |su| :: s.suList[i] == su[i];
    assert forall i | |su| <= i < MAX_SU :: s.suList[i] == EMPTY;
  }

  /** A new period forgets what was sounded in the one before: no entry in use is marked as sounded, and one that is not
      listed is a candidate only if it was and had not been sounded. */
  lemma PeriodForgets(s: State, i: nat)
    requires s.Shaped() && s.minPeriod > 0 && i < ENTRIES
    ensures var b, c := s.bfee[i], Prepared(s).bfee[i];
      (c.sounding <==> b.sounding && !b.used)
      && (i !in ListsOf(s).su + ListsOf(s).mu ==> (c.candidate <==> b.candidate && !(b.used && b.sounding)))
  {
    ScanLists(AllCleared(s.bfee), ENTRIES, s.minPeriod);
    ScanKeepsCandidate(AllCleared(s.bfee), ENTRIES, i, s.minPeriod);
  }

  lemma {:induction false} ScanKeepsCandidate(bs: seq<Bfee>, n: nat, i: nat, minPeriod: nat)
    requires n <= |bs| && i < |bs| && minPeriod > 0
    ensures var l := Scan(bs, n, minPeriod);
      (i !in l.su + l.mu ==> l.bfee[i].candidate == bs[i].candidate) && (i >= n ==> l.bfee[i] == bs[i])
  {
    if n > 0 {
      ScanKeepsCandidate(bs, n - 1, i, minPeriod);
      ScanKeepsCandidate(bs, n - 1, n - 1, minPeriod);
      ScannedCandidate(Scan(bs, n - 1, minPeriod), bs[n - 1], n - 1, minPeriod);
      hide Scanned;
    }
  }

  lemma ScannedCandidate(p: Lists, b: Bfee, i: nat, minPeriod: nat)
    requires i < |p.bfee| && |p.su| <= MAX_SU && |p.mu| <= MAX_MU && minPeriod > 0 && (i !in p.su + p.mu ==> p.bfee[i].candidate == b.candidate)
    ensures var r := Scanned(p, b, i, minPeriod);
      (i !in r.su + r.mu ==> r.bfee[i].candidate == b.candidate)
      && forall j | 0 <= j < |p.bfee| && j != i :: r.bfee[j] == p.bfee[j] && (j in r.su + r.mu <==> j in p.su + p.mu)
  {
    CountDownKeeps(b);
    hide Relisted, CountDown, IsMu, IsSu;
  }

  lemma CountDownKeeps(b: Bfee)
    ensures CountDown(b).candidate == b.candidate
  {
  }

  /** The next entry is started. */
  lemma StartsNext(s: State, su: seq<nat>, mu: seq<nat>, base: seq<Sent>, k: nat, e: Sent)
    requires Sofar(s, su, mu, base, k, false) && k < |su| && IsFor(e, su[k])
    ensures var t := Starting(s, su[k]); Sofar(t.(log := t.log + [e]), su, mu, base, k + 1, false)
  {
  }

  /** An entry started is not open any more, and one being deleted never was. */
  lemma StartIsNotOpen(s: State, su: seq<nat>, mu: seq<nat>, base: seq<Sent>, k: nat, e: Sent)
    requires Sofar(s, su, mu, base, k, false) && k < |su|
    ensures var t := Starting(s, su[k]);
      Open(s, su, mu, k, false) == (if s.bfee[su[k]].deleting then 0 else 1) + Open(t.(log := t.log + [e]), su, mu, k + 1, false)
      && Open(Deleted(s, su[k]), su, mu, k + 1, false) == Open(t.(log := t.log + [e]), su, mu, k + 1, false)
  {
    AwaitedKeeps(s.bfee, Starting(s, su[k]).bfee, su, k + 1);
    AwaitedKeeps(s.bfee, Deleted(s, su[k]).bfee, su, k + 1);
  }

  lemma GroupIsSent(s: State, su: seq<nat>, mu: seq<nat>, base: seq<Sent>)
    requires Sofar(s, su, mu, base, |su|, false) && mu != []
    ensures var t := s.(phase := MuStart, bfee := MarkAll(s.bfee, mu), log := s.log + [MuNdpa(mu)], muCnt := 0);
      Sofar(t, su, mu, base, |su|, true)
  {
  }

  /** The state after an entry that is being deleted was taken and let go again. */
  function Deleted(s: State, idx: nat): State
    requires s.Shaped() && idx < ENTRIES
  {
    var t := Starting(s, idx);
    t.(log := t.log + [Erased(idx)], phase := SuSoundDown, bfee := t.bfee[idx := t.bfee[idx].(deleting := false)])
  }

  /** The cases of the handler; a deleted entry takes it round once more. */
  lemma ContinuedIs(s: State)
    requires s.Shaped()
    ensures var f := FirstUnsounded(s, 0);
      if f < MAX_SU then
        var idx := s.suList[f];
        Continued(s) == if s.bfee[idx].deleting then Continued(Deleted(s, idx)) else var t := Starting(s, idx); t.(log := t.log + [Ndpa(idx)])
      else if s.muCnt > 0 then
        var group := s.muList[..s.muCnt];
        Continued(s) == s.(phase := MuStart, bfee := MarkAll(s.bfee, group), log := s.log + [MuNdpa(group)], muCnt := 0)
      else Continued(s) == s.(running := s.running - 1, phase := Init)
  {
  }

  /** The handler goes on: either the period is over, or one more sounding than before is under way. */
  lemma {:induction false} ContinuedAdvances(s: State, su: seq<nat>, mu: seq<nat>, base: seq<Sent>, k: nat, done: bool)
    returns (k': nat, done': bool)
    requires Sofar(s, su, mu, base, k, done) && s.phase != SuStart && s.phase != MuStart
    ensures Going(Continued(s), su, mu, base, k', done') && k <= k' && (done ==> done')
    ensures if Open(s, su, mu, k, done) == 0 then Continued(s).phase == Init
            else Continued(s).phase in {SuStart, MuStart} && Open(Continued(s), su, mu, k', done') + 1 == Open(s, su, mu, k, done)
    decreases |su| - k
  {
    hide Sofar, Continued, SoundedDown, FirstUnsounded, MarkAll, Padded, Awaited, Deleted;
    Exposed(s, su, mu, base, k, done);
    FirstIsNext(s, su, mu, base, k, done);
    ContinuedIs(s);
    k', done' := k, done;
    if k < |su| {
      var idx := su[k];
      assert s.suList[..|su|][k] == idx;
      k' := k + 1;
      if s.bfee[idx].deleting {
        var t := Starting(s, idx);
        StartIsNotOpen(s, su, mu, base, k, Erased(idx));
        StartsNext(s, su, mu, base, k, Erased(idx));
        DeletedEnds(s, idx);
        EndsOne(t.(log := t.log + [Erased(idx)]), Deleted(s, idx), su, mu, base, k + 1);
        k', done' := ContinuedAdvances(Deleted(s, idx), su, mu, base, k + 1, false);
      } else {
        StartIsNotOpen(s, su, mu, base, k, Ndpa(idx));
        StartsNext(s, su, mu, base, k, Ndpa(idx));
      }
    } else if s.muCnt > 0 {
      GroupIsSent(s, su, mu, base);
      NoneOpen(s, Continued(s), su);
      done' := true;
    } else {
      Finishes(s, su, mu, base, k, done);
      NoneOpen(s, Continued(s), su);
    }
  }

  lemma NoneOpen(s: State, t: State, su: seq<nat>)
    requires s.Shaped() && t.Shaped() && forall i | 0 <= i < |su| :: su[i] < ENTRIES
    ensures Awaited(s.bfee, su, |su|) == 0 && Awaited(t.bfee, su, |su|) == 0
  {
  }

  lemma DeletedEnds(s: State, idx: nat)
    requires s.Shaped() && idx < ENTRIES
    ensures var t, d := Starting(s, idx).(log := Starting(s, idx).log + [Erased(idx)]), Deleted(s, idx);
      d.Shaped() && d.phase == SuSoundDown && d.(phase := t.phase, bfee := t.bfee) == t
      && forall j | 0 <= j < ENTRIES :: d.bfee[j].sounding == t.bfee[j].sounding
  {
  }

  lemma Exposed(s: State, su: seq<nat>, mu: seq<nat>, base: seq<Sent>, k: nat, done: bool)
    requires Sofar(s, su, mu, base, k, done)
    ensures k <= |su| && s.Shaped() && |su| <= MAX_SU && s.suList == Padded(su, MAX_SU) && (done ==> k == |su|)
    ensures s.muCnt == (if done then 0 else |mu|) && |mu| <= MAX_MU && s.muList[..|mu|] == mu && forall i | 0 <= i < |su| :: su[i] < ENTRIES
  {
  }

  lemma Finishes(s: State, su: seq<nat>, mu: seq<nat>, base: seq<Sent>, k: nat, done: bool)
    requires Sofar(s, su, mu, base, k, done) && k == |su| && s.muCnt == 0
    ensures Sofar(s.(running := s.running - 1, phase := Init), su, mu, base, k, done)
  {
  }

  /** Only flags of the entry under way and counters change when a sounding ends. */
  lemma EndsOne(s: State, t: State, su: seq<nat>, mu: seq<nat>, base: seq<Sent>, k: nat)
    requires Sofar(s, su, mu, base, k, false) && t.Shaped()
    requires t.phase == SuSoundDown || t.phase == TimedOut
    requires t.(phase := s.phase, bfee := s.bfee, reports := s.reports, leaving := s.leaving) == s
    requires forall j | 0 <= j < ENTRIES :: t.bfee[j].sounding == s.bfee[j].sounding
    ensures Sofar(t, su, mu, base, k, false)
  {
  }

  /** The end of a sounding under way always brings the period on: the flag that would stall it is never set. */
  lemma SoundedDownAdvances(s: State, status: bool, su: seq<nat>, mu: seq<nat>, base: seq<Sent>, k: nat, done: bool)
    returns (k': nat, done': bool)
    requires Sofar(s, su, mu, base, k, done) && (s.phase == SuStart || s.phase == MuStart)
    ensures Going(SoundedDown(s, status), su, mu, base, k', done') && k <= k' && (done ==> done')
    ensures if Open(s, su, mu, k, done) == 0 then SoundedDown(s, status).phase == Init
            else SoundedDown(s, status).phase in {SuStart, MuStart} && Open(SoundedDown(s, status), su, mu, k', done') + 1 == Open(s, su, mu, k, done)
  {
    hide Sofar, Continued, SuEnded, Awaited;
    Underway(s, su, mu, base, k, done);
    if s.phase == MuStart {
      k', done' := ContinuedAdvances(s.(phase := MuSoundDown, reports := s.reports + 1), su, mu, base, k, done);
    } else {
      var u := SuEnded(s, status);
      EndsOne(s, u, su, mu, base, k);
      EndLeavesOpen(s, status, su, mu, base, k, done);
      k', done' := ContinuedAdvances(u, su, mu, base, k, done);
    }
  }

  /** The entry whose sounding ends is not open. */
  lemma EndLeavesOpen(s: State, status: bool, su: seq<nat>, mu: seq<nat>, base: seq<Sent>, k: nat, done: bool)
    requires Sofar(s, su, mu, base, k, done) && s.phase == SuStart
    ensures Open(SuEnded(s, status), su, mu, k, done) == Open(s, su, mu, k, done)
  {
    AwaitedKeeps(s.bfee, SuEnded(s, status).bfee, su, k);
  }

  lemma Underway(s: State, su: seq<nat>, mu: seq<nat>, base: seq<Sent>, k: nat, done: bool)
    requires Sofar(s, su, mu, base, k, done)
    ensures s.Shaped() && k <= |su| <= MAX_SU && (done ==> k == |su|)
    ensures s.phase == SuStart ==> k > 0 && !done && s.cur < ENTRIES && !s.bfee[s.cur].timedOut
    ensures done ==> mu != []
    ensures s.phase == MuStart ==> done && Sofar(s.(phase := MuSoundDown, reports := s.reports + 1), su, mu, base, k, done)
    ensures s.phase == MuStart ==> Sofar(s.(phase := TimedOut), su, mu, base, k, done)
  {
  }

  function TimeoutHandled(s: State): (r: State)
    requires s.Shaped()
    ensures r.Shaped()
  {
    if s.phase == SuStart then s.(phase := TimedOut, bfee := s.bfee[s.cur := s.bfee[s.cur].(timedOut := true)])
    else if s.phase == MuStart then s.(phase := TimedOut)
    else s
  }

  function Resumed(s: State): (r: State)
    requires s.Shaped()
    ensures r.Shaped()
  {
    if s.phase == SuSoundDown || s.phase == MuSoundDown || s.phase == TimedOut then Continued(s) else s
  }

  /** The handler, on a timer or a command. */
  function Handled(s: State, survey: bool): State
    requires s.Shaped() && s.minPeriod > 0
  {
    if s.phase != Init then Resumed(s)
    else
      var l, p := ListsOf(s), Prepared(s);
      if l.su == [] && l.mu == [] then
        if l.notReady > 0 && s.waitCnt < 5 then p.(waitCnt := s.waitCnt + 1, running := s.running - 1)
        else p.(waitCnt := 0, phase := Idle, running := s.running - 1)
      else if survey then p.(waitCnt := 0, running := s.running - 1)
      else Continued(p.(waitCnt := 0))
  }

  /** A start with nothing to list, or during a scan: while a beamformee is still not in the hardware the next starts are
      waited for, five times at most, and then the soundings are idle; a scan only puts off. Nothing is sent. */
  lemma StartsPutOff(s: State, survey: bool)
    requires s.Shaped() && s.minPeriod > 0 && s.phase == Init
    ensures var t, l := Handled(s, survey), ListsOf(s);
      (l.su == [] && l.mu == []) || survey ==>
        t.log == s.log && t.running == s.running - 1
        && (if l.su == [] && l.mu == [] then
              var again := s.waitCnt < 5 && exists i :: 0 <= i < 8 && s.bfee[i].used && !s.bfee[i].added;
              t.phase == (if again then Init else Idle) && t.waitCnt == if again then s.waitCnt + 1 else 0
            else t.phase == Init && t.waitCnt == 0)
  {
    NotReadyMeans(AllCleared(s.bfee), ENTRIES, s.minPeriod);
    assert forall i | 0 <= i < ENTRIES :: AllCleared(s.bfee)[i].used == s.bfee[i].used && AllCleared(s.bfee)[i].added == s.bfee[i].added;
    hide Scan, Continued;
  }

  lemma {:induction false} NotReadyMeans(bs: seq<Bfee>, n: nat, minPeriod: nat)
    requires n <= |bs| && minPeriod > 0
    ensures Scan(bs, n, minPeriod).notReady > 0 <==> exists i :: 0 <= i < n && bs[i].used && !bs[i].added
  {
    if n > 0 {
      NotReadyMeans(bs, n - 1, minPeriod);
      ScannedNotReady(Scan(bs, n - 1, minPeriod), bs[n - 1], n - 1, minPeriod);
      hide Scanned;
    }
  }

  lemma ScannedNotReady(p: Lists, b: Bfee, i: nat, minPeriod: nat)
    requires i < |p.bfee| && |p.su| <= MAX_SU && |p.mu| <= MAX_MU && minPeriod > 0
    ensures Scanned(p, b, i, minPeriod).notReady == p.notReady + if b.used && !b.added then 1 else 0
  {
    NotBoth(b);
    hide Relisted, CountDown, IsMu, IsSu;
  }

  /** A beamformee's soundings failing one after the other: the count of failures is `n` after `n` of them, and it is
      reported as leaving at the thirty-first; after that the count starts at zero again. */
  lemma {:induction false} FailuresCount(bs: seq<Bfee>)
    requires |bs| > 0 && bs[0].failCnt == 0 && !bs[0].deleting && forall i | 0 <= i < |bs| - 1 :: bs[i + 1] == BfeeEnded(bs[i], false)
    ensures bs[|bs| - 1].failCnt == (|bs| - 1) % 32 && !bs[|bs| - 1].deleting
    decreases |bs|
  {
    var n := |bs| - 1;
    if n > 0 {
      FailuresCount(bs[..n]);
      assert bs[n - 1 + 1] == BfeeEnded(bs[n - 1], false);
    }
  }

  /** The end of a sounding: success clears the count of failures and counts a report; failure lets an entry being
      deleted go, and else reports it as leaving exactly when the count comes to thirty-one. */
  lemma SoundingEnds(s: State, status: bool)
    requires s.Shaped() && s.phase == SuStart && s.bfee[s.cur].failCnt < 32
    ensures var t, b := SuEnded(s, status), s.bfee[s.cur];
      t.reports == (if status then s.reports + 1 else s.reports)
      && t.leaving == (if !status && !b.deleting && b.failCnt == 30 then s.leaving + [s.cur] else s.leaving)
      && t.bfee == s.bfee[s.cur := if status then b.(failCnt := 0) else if b.deleting then b.(deleting := false)
                                  else b.(failCnt := if b.failCnt == 31 then 0 else b.failCnt + 1)]
  {
  }

  /** During a period: a sounding ends, its timer runs out, or the handler runs, in any order and however late. */
  datatype Event = Down(status: bool) | Timeout | Resume

  function After(s: State, e: Event): (r: State)
    requires s.Shaped()
    ensures r.Shaped()
  {
    match e
    case Down(status) => SoundedDown(s, status)
    case Timeout => TimeoutHandled(s)
    case Resume => Resumed(s)
  }

  /** A run of events, up to the end of the period. */
  function Period(s: State, es: seq<Event>): (r: State)
    requires s.Shaped()
    ensures r.Shaped()
    decreases |es|
  {
    if es == [] || s.phase == Init then s else Period(After(s, es[0]), es[1..])
  }

  lemma PreparedIsFresh(s: State)
    requires s.Shaped() && s.minPeriod > 0 && s.phase == Init && forall i | 0 <= i < ENTRIES && !s.bfee[i].used :: !s.bfee[i].sounding
    ensures var l := ListsOf(s); Sofar(Prepared(s).(waitCnt := 0), l.su, l.mu, s.log, 0, false)
  {
    ScanLists(AllCleared(s.bfee), ENTRIES, s.minPeriod);
    var l := ListsOf(s);
    assert Padded(l.mu, MAX_MU)[..|l.mu|] == l.mu;
    assert forall i | 0 <= i < ENTRIES :: !AllCleared(s.bfee)[i].sounding;
  }

  lemma {:induction false} EventKeepsGoing(s: State, e: Event, su: seq<nat>, mu: seq<nat>, base: seq<Sent>, k: nat, done: bool)
    returns (k': nat, done': bool)
    requires Going(s, su, mu, base, k, done) && s.phase != Init
    ensures Going(After(s, e), su, mu, base, k', done') && k <= k' && (done ==> done')
  {
    hide Sofar, Continued, SoundedDown;
    Underway(s, su, mu, base, k, done);
    k', done' := k, done;
    match e
    case Down(status) =>
      if s.phase == SuStart || s.phase == MuStart {
        k', done' := SoundedDownAdvances(s, status, su, mu, base, k, done);
      } else {
        assert SoundedDown(s, status) == s by { NotUnderway(s, status); }
      }
    case Timeout =>
      if s.phase == SuStart {
        EndsOne(s, TimeoutHandled(s), su, mu, base, k);
      }
    case Resume =>
      if s.phase != SuStart && s.phase != MuStart {
        k', done' := ContinuedAdvances(s, su, mu, base, k, done);
      }
  }

  lemma NotUnderway(s: State, status: bool)
    requires s.Shaped() && s.phase != SuStart && s.phase != MuStart
    ensures SoundedDown(s, status) == s
  {
  }

  lemma {:induction false} PeriodKeepsGoing(s: State, es: seq<Event>, su: seq<nat>, mu: seq<nat>, base: seq<Sent>, k: nat, done: bool)
    returns (k': nat, done': bool)
    requires Going(s, su, mu, base, k, done)
    ensures Going(Period(s, es), su, mu, base, k', done')
    decreases |es|
  {
    k', done' := k, done;
    if es != [] && s.phase != Init {
      k', done' := EventKeepsGoing(s, es[0], su, mu, base, k, done);
      k', done' := PeriodKeepsGoing(After(s, es[0]), es[1..], su, mu, base, k', done');
    }
  }

  /** Whatever happens in a period, the listed entries are sounded in order and at most once each, the group at most
      once and after all of them; at its end each has been sounded, and the group if there is one. A sounding under way
      is never flagged as timed out. */
  lemma PeriodSoundsEachOnce(s: State, es: seq<Event>)
    returns (k: nat, done: bool)
    requires s.Shaped() && s.minPeriod > 0 && s.phase == Init && forall i | 0 <= i < ENTRIES && !s.bfee[i].used :: !s.bfee[i].sounding
    requires ListsOf(s).su != [] || ListsOf(s).mu != []
    ensures var l, end := ListsOf(s), Period(Handled(s, false), es);
      k <= |l.su| && |end.log| == |s.log| + k + (if done then 1 else 0) && end.log[..|s.log|] == s.log
      && (forall i | 0 <= i < k :: IsFor(end.log[|s.log| + i], l.su[i]))
      && (done ==> k == |l.su| && l.mu != [] && end.log[|s.log| + k] == MuNdpa(l.mu))
      && (end.phase == Init ==> k == |l.su| && (l.mu != [] ==> done))
      && (end.phase == SuStart ==> end.cur < ENTRIES && !end.bfee[end.cur].timedOut)
  {
    hide Sofar, Prepared, Continued, ListsOf;
    var l := ListsOf(s);
    PreparedIsFresh(s);
    k, done := ContinuedAdvances(Prepared(s).(waitCnt := 0), l.su, l.mu, s.log, 0, false);
    k, done := PeriodKeepsGoing(Handled(s, false), es, l.su, l.mu, s.log, k, done);
    Told(Period(Handled(s, false), es), l.su, l.mu, s.log, k, done);
  }

  lemma Told(s: State, su: seq<nat>, mu: seq<nat>, base: seq<Sent>, k: nat, done: bool)
    requires Sofar(s, su, mu, base, k, done)
    ensures k <= |su| && |s.log| == |base| + k + (if done then 1 else 0) && s.log[..|base|] == base
    ensures forall i | 0 <= i < k :: IsFor(s.log[|base| + i], su[i])
    ensures done ==> k == |su| && mu != [] && s.log[|base| + k] == MuNdpa(mu)
    ensures s.phase == SuStart ==> s.cur < ENTRIES && !s.bfee[s.cur].timedOut
  {
  }

  /** How many soundings the events bring to an end: a report does while a sounding is under way, the handler does
      after a timeout (`lost`), and everything else is ignored. */
  function Ends(es: seq<Event>, lost: bool): nat
    decreases |es|
  {
    if es == [] then 0
    else if es[0].Timeout? then Ends(es[1..], true)
    else if es[0].Resume? == lost then 1 + Ends(es[1..], false)
    else Ends(es[1..], lost)
  }

  /** A period under way ends exactly when the events end the sounding under way and all that are open. */
  lemma {:induction false} EndsIff(s: State, es: seq<Event>, su: seq<nat>, mu: seq<nat>, base: seq<Sent>, k: nat, done: bool)
    requires Going(s, su, mu, base, k, done) && s.phase in {SuStart, MuStart, TimedOut}
    ensures Period(s, es).phase == Init <==> Ends(es, s.phase == TimedOut) > Open(s, su, mu, k, done)
    decreases |es|
  {
    if es != [] {
      hide Sofar, SoundedDown, Continued, Awaited;
      Underway(s, su, mu, base, k, done);
      var lost, t := s.phase == TimedOut, After(s, es[0]);
      if es[0].Timeout? {
        TimeoutKeepsOpen(s, su, mu, base, k, done);
        EndsIff(t, es[1..], su, mu, base, k, done);
      } else if es[0].Resume? == lost {
        var k', done' := EndAdvances(s, es[0], su, mu, base, k, done);
        if t.phase == Init {
          assert Period(t, es[1..]) == t;
        } else {
          EndsIff(t, es[1..], su, mu, base, k', done');
        }
      } else {
        IgnoredWhen(s, es[0]);
        EndsIff(s, es[1..], su, mu, base, k, done);
      }
    }
  }

  lemma EndAdvances(s: State, e: Event, su: seq<nat>, mu: seq<nat>, base: seq<Sent>, k: nat, done: bool) returns (k': nat, done': bool)
    requires Going(s, su, mu, base, k, done) && s.phase in {SuStart, MuStart, TimedOut}
    requires !e.Timeout? && e.Resume? == (s.phase == TimedOut)
    ensures var t := After(s, e);
      Going(t, su, mu, base, k', done')
      && if Open(s, su, mu, k, done) == 0 then t.phase == Init
         else t.phase in {SuStart, MuStart} && Open(t, su, mu, k', done') + 1 == Open(s, su, mu, k, done)
  {
    hide Sofar, SoundedDown, Continued, Awaited;
    Underway(s, su, mu, base, k, done);
    if e.Down? {
      k', done' := SoundedDownAdvances(s, e.status, su, mu, base, k, done);
    } else {
      k', done' := ContinuedAdvances(s, su, mu, base, k, done);
    }
  }

  lemma TimeoutKeepsOpen(s: State, su: seq<nat>, mu: seq<nat>, base: seq<Sent>, k: nat, done: bool)
    requires Going(s, su, mu, base, k, done) && s.phase in {SuStart, MuStart, TimedOut}
    ensures var t := TimeoutHandled(s);
      Going(t, su, mu, base, k, done) && t.phase == TimedOut && Open(t, su, mu, k, done) == Open(s, su, mu, k, done)
  {
    AwaitedKeeps(s.bfee, TimeoutHandled(s).bfee, su, k);
    hide Sofar;
    Underway(s, su, mu, base, k, done);
    if s.phase == SuStart {
      EndsOne(s, TimeoutHandled(s), su, mu, base, k);
    }
  }

  lemma IgnoredWhen(s: State, e: Event)
    requires s.Shaped() && s.phase in {SuStart, MuStart, TimedOut} && !e.Timeout? && e.Resume? != (s.phase == TimedOut)
    ensures After(s, e) == s
  {
  }

  /** Over all events, reports and timeouts in any order: a period ends exactly when they end as many soundings as it
      has to wait for, one for each listed entry that is not being deleted and one for the group. */
  lemma PeriodEndsIff(s: State, es: seq<Event>)
    requires s.Shaped() && s.minPeriod > 0 && s.phase == Init && forall i | 0 <= i < ENTRIES && !s.bfee[i].used :: !s.bfee[i].sounding
    requires ListsOf(s).su != [] || ListsOf(s).mu != []
    ensures var l := ListsOf(s);
      (forall i | 0 <= i < |l.su| :: l.su[i] < ENTRIES)
      && (Period(Handled(s, false), es).phase == Init <==> Ends(es, false) >= Awaited(s.bfee, l.su, 0) + if l.mu == [] then 0 else 1)
  {
    hide Sofar, Prepared, Continued, ListsOf, Awaited, Period, SoundedDown;
    var l, p := ListsOf(s), Prepared(s).(waitCnt := 0);
    PreparedIsFresh(s);
    Exposed(p, l.su, l.mu, s.log, 0, false);
    PreparedAwaits(s);
    var k, done := ContinuedAdvances(p, l.su, l.mu, s.log, 0, false);
    if Handled(s, false).phase != Init {
      EndsIff(Handled(s, false), es, l.su, l.mu, s.log, k, done);
    } else {
      PeriodIsOver(Handled(s, false), es);
    }
  }

  lemma PeriodIsOver(s: State, es: seq<Event>)
    requires s.Shaped() && s.phase == Init
    ensures Period(s, es) == s
  {
  }

  /** Making the lists deletes nothing. */
  lemma PreparedAwaits(s: State)
    requires s.Shaped() && s.minPeriod > 0 && forall i | 0 <= i < |ListsOf(s).su| :: ListsOf(s).su[i] < ENTRIES
    ensures Awaited(s.bfee, ListsOf(s).su, 0) == Awaited(Prepared(s).bfee, ListsOf(s).su, 0)
  {
    ScanKeepsDeleting(AllCleared(s.bfee), ENTRIES, s.minPeriod);
    AwaitedKeeps(s.bfee, Prepared(s).bfee, ListsOf(s).su, 0);
  }

  lemma {:induction false} ScanKeepsDeleting(bs: seq<Bfee>, n: nat, minPeriod: nat)
    requires n <= |bs| && minPeriod > 0
    ensures forall j | 0 <= j < |bs| :: Scan(bs, n, minPeriod).bfee[j].deleting == bs[j].deleting && (j >= n ==> Scan(bs, n, minPeriod).bfee[j] == bs[j])
  {
    if n > 0 {
      ScanKeepsDeleting(bs, n - 1, minPeriod);
      ScannedKeepsDeleting(Scan(bs, n - 1, minPeriod), bs[n - 1], n - 1, minPeriod);
      hide Scanned;
    }
  }

  lemma ScannedKeepsDeleting(p: Lists, b: Bfee, i: nat, minPeriod: nat)
    requires i < |p.bfee| && |p.su| <= MAX_SU && |p.mu| <= MAX_MU && minPeriod > 0 && p.bfee[i] == b
    ensures var r := Scanned(p, b, i, minPeriod);
      r.bfee[i].deleting == b.deleting && forall j | 0 <= j < |p.bfee| && j != i :: r.bfee[j] == p.bfee[j]
  {
    hide Relisted, CountDown, IsMu, IsSu;
  }

  // ----- the code

  class BeamformingInfo {
    var bfee: seq<Bfee>
    var suList: seq<nat>
    var muList: seq<nat>
    var phase: Phase
    var suCur: nat
    var muCnt: nat
    var minPeriod: nat
    var running: int
    var waitCnt: nat
    var reports: nat
    var leaving: seq<nat>
    var log: seq<Sent>

    function Abs(): State
      reads this
    {
      State(bfee, suList, muList, phase, suCur, muCnt, minPeriod, running, waitCnt, reports, leaving, log)
    }

    constructor ()
      ensures Abs().Shaped() && phase == Idle && log == []
    {
      bfee := seq(ENTRIES, _ => Bfee(false, false, false, false, false, 0, 0, 0, false, false, false, false, false, false));
      suList, muList := seq(MAX_SU, _ => EMPTY), seq(MAX_MU, _ => EMPTY);
      phase, suCur, muCnt, minPeriod, running, waitCnt, reports, leaving, log := Idle, EMPTY, 0, 0, 0, 0, 0, [], [];
    }

    method SetEntry(i: nat, b: Bfee)
      requires i < |bfee|
      modifies this`bfee
      ensures bfee == old(bfee)[i := b]
    {
      bfee := bfee[i := b];
    }

    method ResetVars()
      requires Abs().Shaped()
      modifies this
      ensures Abs() == old(Abs().(bfee := AllCleared(bfee), suList := Padded([], MAX_SU), muList := Padded([], MAX_MU), cur := EMPTY, muCnt := 0))
    {
      suList, muList := seq(MAX_SU, _ => EMPTY), seq(MAX_MU, _ => EMPTY);
      suCur, muCnt := EMPTY, 0;
      ghost var was := bfee;
      var i := 0;
      while i < ENTRIES
        invariant i <= ENTRIES == |bfee| && Abs() == old(Abs()).(bfee := bfee, suList := Padded([], MAX_SU), muList := Padded([], MAX_MU), cur := EMPTY, muCnt := 0)
        invariant forall k | 0 <= k < i :: bfee[k] == Cleared(was[k])
        invariant forall k | i <= k < ENTRIES :: bfee[k] == was[k]
      {
        if bfee[i].used && bfee[i].sounding {
          SetEntry(i, bfee[i].(sounding := false, candidate := false));
        }
        i := i + 1;
      }
    }

    /** 0 when there is something to sound, -1 when there is nothing, -2 when there may be something soon. */
    method GetList() returns (ret: int)
      requires Abs().Shaped() && minPeriod > 0 && suList == Padded([], MAX_SU) && muList == Padded([], MAX_MU)
      modifies this`bfee, this`suList, this`muList, this`muCnt
      ensures var l := old(Scan(bfee, ENTRIES, minPeriod));
        Abs() == old(Abs()).(bfee := l.bfee, suList := Padded(l.su, MAX_SU), muList := Padded(l.mu, MAX_MU), muCnt := |l.mu|)
        && ret == (if l.su != [] || l.mu != [] then 0 else if l.notReady > 0 then -2 else -1)
    {
      hide Scanned, Padded;
      ghost var was := bfee;
      var i, su, mu, notReady := 0, 0, 0, 0;
      ghost var l := Scan(was, 0, minPeriod);
      while i < ENTRIES
        invariant i <= ENTRIES && l == Scan(was, i, minPeriod) && (su, mu, notReady) == (|l.su|, |l.mu|, l.notReady)
        invariant Abs() == old(Abs()).(bfee := l.bfee, suList := Padded(l.su, MAX_SU), muList := Padded(l.mu, MAX_MU))
        invariant forall k | i <= k < ENTRIES :: bfee[k] == was[k]
      {
        su, mu, notReady := ListEntry(i, su, mu, notReady, l);
        l := Scanned(l, was[i], i, minPeriod);
        i := i + 1;
      }
      muCnt := mu;
      ret := if su + mu == 0 then (if notReady > 0 then -2 else -1) else 0;
    }

    method ListEntry(i: nat, su: nat, mu: nat, notReady: nat, ghost p: Lists) returns (su': nat, mu': nat, notReady': nat)
      requires |p.su| <= MAX_SU && |p.mu| <= MAX_MU && i < |bfee| && minPeriod > 0 && p.bfee == bfee
      requires (su, mu, notReady) == (|p.su|, |p.mu|, p.notReady) && suList == Padded(p.su, MAX_SU) && muList == Padded(p.mu, MAX_MU)
      modifies this`bfee, this`suList, this`muList
      ensures var l := Scanned(p, old(bfee)[i], i, minPeriod);
        bfee == l.bfee && suList == Padded(l.su, MAX_SU) && muList == Padded(l.mu, MAX_MU) && (su', mu', notReady') == (|l.su|, |l.mu|, l.notReady)
      ensures forall k | 0 <= k < |bfee| && k != i :: bfee[k] == old(bfee)[k]
    {
      hide Padded;
      su', mu', notReady' := su, mu, notReady;
      var b := bfee[i];
      if b.used && !b.added {
        notReady' := notReady + 1;
        return;
      }
      var c := b;
      if b.used && b.soundCnt > 0 {
        c := b.(soundCnt := b.soundCnt - 1);
      }
      assert c == CountDown(b);
      hide IsSu, IsMu, CountDown;
      NotBoth(b);
      if IsMu(b) && mu < MAX_MU {
        c := c.(candidate := true, soundCnt := b.period / minPeriod);
        PaddedOneMore(p.mu, i, MAX_MU);
        muList := muList[mu := i];
        mu' := mu + 1;
      } else if IsSu(b) && su < MAX_SU {
        if !b.deleting {
          c := c.(candidate := true, soundCnt := b.period / minPeriod);
        }
        PaddedOneMore(p.su, i, MAX_SU);
        suList := suList[su := i];
        su' := su + 1;
      }
      RelistedIs(b, minPeriod);
      SetEntry(i, c);
    }

    /** The handler, called by the timer's command and at the end of each sounding. */
    method SoundingHandler(survey: bool)
      requires Abs().Shaped() && minPeriod > 0
      modifies this
      ensures Abs() == old(Handled(Abs(), survey))
    {
      if phase == Init {
        ResetVars();
        var ret := GetList();
        assert Abs() == old(Prepared(Abs()));
        if ret == -1 {
          waitCnt := 0;
          phase := Idle;
          running := running - 1;
          return;
        }
        if ret == -2 {
          if waitCnt < 5 {
            waitCnt := waitCnt + 1;
          } else {
            waitCnt := 0;
            phase := Idle;
          }
          running := running - 1;
          return;
        }
        waitCnt := 0;
        if survey {
          running := running - 1;
          return;
        }
        GoOn();
      } else if phase == SuSoundDown || phase == MuSoundDown || phase == TimedOut {
        GoOn();
      }
    }

    /** The second part of the handler. */
    method GoOn()
      requires Abs().Shaped()
      modifies this
      ensures Abs() == old(Continued(Abs()))
      decreases Unsounded(Abs(), 0), 0
    {
      hide Starting, MarkAll, SoundedDown, FirstUnsounded, Unsounded;
      var i := NextUnsounded();
      if i < MAX_SU {
        StartingCounts(Abs(), suList[i], 0);
        StartSu(suList[i]);
        if bfee[suCur].deleting {
          log := log + [Erased(suCur)];
          SameUnsounded(Abs(), Abs().(log := old(log)), 0);
          SoundDown(false);
          return;
        }
        log := log + [Ndpa(suCur)];
        return;
      }
      if muCnt > 0 {
        SoundGroup();
        return;
      }
      running := running - 1;
      phase := Init;
    }

    method NextUnsounded() returns (i: nat)
      requires Abs().Shaped()
      ensures i == FirstUnsounded(Abs(), 0)
    {
      i := 0;
      while i < MAX_SU && (suList[i] >= ENTRIES || bfee[suList[i]].sounding)
        invariant i <= MAX_SU && FirstUnsounded(Abs(), 0) == FirstUnsounded(Abs(), i)
      {
        i := i + 1;
      }
    }

    method StartSu(idx: nat)
      requires Abs().Shaped() && idx < ENTRIES
      modifies this`suCur, this`phase, this`bfee
      ensures Abs() == old(Starting(Abs(), idx)) && suCur == idx && bfee[idx].deleting == old(bfee[idx].deleting)
    {
      suCur := idx;
      phase := SuStart;
      SetEntry(suCur, bfee[suCur].(sounding := true, timedOut := false));
    }

    method SoundGroup()
      requires Abs().Shaped()
      modifies this`phase, this`bfee, this`log, this`muCnt
      ensures Abs() == old(Abs().(phase := MuStart, bfee := MarkAll(bfee, muList[..muCnt]), log := log + [MuNdpa(muList[..muCnt])], muCnt := 0))
    {
      hide MarkAll;
      phase := MuStart;
      ghost var was, group := bfee, muList[..muCnt];
      var j := 0;
      MarkNone(was);
      assert group[..0] == [];
      while j < muCnt
        invariant j <= muCnt == old(muCnt) && bfee == MarkAll(was, group[..j]) && phase == MuStart && log == old(log)
      {
        MarkOneMore(was, group, j);
        SetEntry(muList[j], bfee[muList[j]].(sounding := true));
        j := j + 1;
      }
      assert group[..j] == group;
      log := log + [MuNdpa(muList[..muCnt])];
      muCnt := 0;
    }

    method EndSu(status: bool)
      requires Abs().Shaped() && phase == SuStart
      modifies this`phase, this`bfee, this`reports, this`leaving
      ensures Abs() == old(SuEnded(Abs(), status))
    {
      var b := bfee[suCur];
      phase := SuSoundDown;
      if status {
        SetEntry(suCur, b.(failCnt := 0));
        reports := reports + 1;
      } else if b.deleting {
        SetEntry(suCur, b.(deleting := false));
      } else {
        SetEntry(suCur, b.(failCnt := (b.failCnt + 1) % 32));
        if bfee[suCur].failCnt > 30 {
          leaving := leaving + [suCur];
        }
      }
    }

    /** The end of a sounding: counters, then the handler, called directly. */
    method SoundDown(status: bool)
      requires Abs().Shaped()
      modifies this
      ensures Abs() == old(SoundedDown(Abs(), status))
      decreases Unsounded(Abs(), 0), 1
    {
      hide Continued, SuEnded, Unsounded;
      if phase == MuStart {
        SameUnsounded(Abs(), Abs().(phase := MuSoundDown, reports := reports + 1), 0);
        phase := MuSoundDown;
        reports := reports + 1;
        GoOn();
      } else if phase == SuStart {
        if bfee[suCur].timedOut {
          phase := SuSoundDown;
          SetEntry(suCur, bfee[suCur].(timedOut := false));
          return;
        }
        SameUnsounded(Abs(), SuEnded(Abs(), status), 0);
        EndSu(status);
        GoOn();
      }
    }

    method TimeoutTimer()
      requires Abs().Shaped()
      modifies this`phase, this`bfee
      ensures Abs() == old(TimeoutHandled(Abs()))
    {
      if phase == SuStart {
        phase := TimedOut;
        SetEntry(suCur, bfee[suCur].(timedOut := true));
      } else if phase == MuStart {
        phase := TimedOut;
      }
    }
  }

  lemma RelistedIs(b: Bfee, minPeriod: nat)
    requires minPeriod > 0
    ensures IsMu(b) ==> Relisted(b, minPeriod) == CountDown(b).(candidate := true, soundCnt := b.period / minPeriod)
    ensures IsSu(b) ==> Relisted(b, minPeriod) == if b.deleting then CountDown(b) else CountDown(b).(candidate := true, soundCnt := b.period / minPeriod)
  {
  }

  lemma MarkNone(bs: seq<Bfee>)
    ensures MarkAll(bs, []) == bs
  {
  }

  lemma MarkOneMore(bs: seq<Bfee>, idxs: seq<nat>, j: nat)
    requires j < |idxs| && idxs[j] < |bs|
    ensures var m := MarkAll(bs, idxs[..j]);
      MarkAll(bs, idxs[..j + 1]) == m[idxs[j] := m[idxs[j]].(sounding := true)]
  {
    assert idxs[..j + 1] == idxs[..j] + [idxs[j]];
  }

  lemma PaddedOneMore(s: seq<nat>, i: nat, n: nat)
    requires |s| < n
    ensures Padded(s, n)[|s| := i] == Padded(s + [i], n)
  {
  }
}
