/** The NAT2.5 address database: hash chains with back pointers (core/rtw_br_ext.c, include/rtw_br_ext.h). */
module Nat25Db {
  import opened Octets

  const NAT25_HASH_SIZE := 16
  const NAT25_AGEING_TIME := 300 // seconds
  const MAX_NETWORK_ADDR_LEN := 11
  const ETH_ALEN := 6

  const NAT25_IPV4 := 1
  const NAT25_PPPOE := 5

  type Mac = m: seq<Byte> | |m| == ETH_ALEN witness [0, 0, 0, 0, 0, 0]

  type NetAddr = a: seq<Byte> | |a| == MAX_NETWORK_ADDR_LEN witness [0, 0, 0, 0, 0, 0, 0, 0, 0, 0, 0]

  function Xor(a: Byte, b: Byte): Byte {
    ((a as bv8) ^ (b as bv8)) as Byte
  }

  /** Octets lo, ..., hi - 1 combined. */
  function XorOf(s: seq<Byte>, lo: nat, hi: nat): Byte
    requires lo <= hi <= |s|
  {
    if lo == hi then 0 else Xor(XorOf(s, lo, hi - 1), s[hi - 1])
  }

  function HashOctet(addr: NetAddr): Byte {
    if addr[0] == NAT25_IPV4 then XorOf(addr, 7, 11) else if addr[0] == NAT25_PPPOE then XorOf(addr, 0, 9) else XorOf(addr, 0, 11)
  }

  function Hash(addr: NetAddr): (h: nat)
    ensures h < NAT25_HASH_SIZE
  {
    HashOctet(addr) % NAT25_HASH_SIZE
  }

  lemma XorZero(a: Byte)
    ensures Xor(0, a) == a
  {
  }

  /** The bucket of an IPv4 client is told from the four octets of its address. */
  lemma HashOfIpv4(addr: NetAddr)
    requires addr[0] == 1
    ensures Hash(addr) == Xor(Xor(Xor(addr[7], addr[8]), addr[9]), addr[10]) % 16
  {
    XorZero(addr[7]);
    hide Xor;
    assert XorOf(addr, 7, 8) == addr[7];
    assert XorOf(addr, 7, 9) == Xor(addr[7], addr[8]);
    assert XorOf(addr, 7, 10) == Xor(Xor(addr[7], addr[8]), addr[9]);
  }

  // ----- what the database means: a finite map

  datatype Rec = Rec(mac: Mac, seen: int, use: nat)

  type View = map<NetAddr, Rec>

  predicate Aged(seen: int, now: int, hz: nat) {
    seen <= now - NAT25_AGEING_TIME * hz
  }

  function InsertView(v: View, addr: NetAddr, mac: Mac, now: int): View {
    v[addr := Rec(mac, now, if addr in v then v[addr].use else 1)]
  }

  /** A lookup of a live entry counts as a use. */
  function LookupView(v: View, addr: NetAddr, now: int, hz: nat): View {
    if addr in v && !Aged(v[addr].seen, now, hz) then v[addr := v[addr].(use := v[addr].use + 1)] else v
  }

  predicate Dies(r: Rec, now: int, hz: nat) {
    Aged(r.seen, now, hz) && r.use <= 1
  }

  function AfterPass(r: Rec, now: int, hz: nat): Rec {
    if Aged(r.seen, now, hz) && r.use > 0 then r.(use := r.use - 1) else r
  }

  /** One expire pass over the addresses in `done`. */
  function ExpireView(v: View, done: set<NetAddr>, now: int, hz: nat): View {
    map a | a in v && !(a in done && Dies(v[a], now, hz)) :: if a in done then AfterPass(v[a], now, hz) else v[a]
  }

  // ----- the chains

  /** What a back pointer points at: nothing, a bucket of the table, or the next field of an entry. */
  datatype Cell = NoCell | Bucket(h: nat) | NextOf(e: Entry)

  class Entry {
    var nextHash: Entry?
    var pprevHash: Cell
    const networkAddr: NetAddr
    ghost const bucket: nat // where the address hashes to
    var macAddr: Mac
    var ageingTimer: int
    var useCount: nat

    constructor (addr: NetAddr, mac: Mac, now: int)
      ensures nextHash == null && pprevHash == NoCell && networkAddr == addr && bucket == Hash(addr) && macAddr == mac && ageingTimer == now && useCount == 1
    {
      nextHash, pprevHash := null, NoCell;
      networkAddr, bucket := addr, Hash(addr);
      macAddr, ageingTimer, useCount := mac, now, 1;
    }
  }

  ghost function At(c: seq<Entry>, k: nat): Entry? {
    if k < |c| then c[k] else null
  }

  /** Entry `k` of a chain points at its successor, and is pointed at from the cell it names. */
  ghost predicate LinkedAt(c: seq<Entry>, h: nat, k: nat)
    requires k < |c|
    reads c`nextHash, c`pprevHash
  {
    c[k].nextHash == At(c, k + 1) && c[k].pprevHash == if k == 0 then Bucket(h) else NextOf(c[k - 1])
  }

  /** The chain of bucket `h` starts at `head` and is linked both ways. */
  ghost predicate Linked(c: seq<Entry>, h: nat, head: Entry?)
    reads c`nextHash, c`pprevHash
  {
    head == At(c, 0) && forall k: nat | k < |c| :: LinkedAt(c, h, k)
  }

  lemma HeadIsLinked(c: seq<Entry>, h: nat, ent: Entry)
    requires ent.nextHash == At(c, 0) && ent.pprevHash == Bucket(h)
    requires c != [] ==> c[0].nextHash == At(c, 1) && c[0].pprevHash == NextOf(ent)
    requires forall k: nat | 1 <= k < |c| :: LinkedAt(c, h, k)
    ensures Linked([ent] + c, h, ent)
  {
    forall k: nat | 1 <= k <= |c| ensures LinkedAt([ent] + c, h, k) {
      if k > 1 {
        assert LinkedAt(c, h, k - 1);
      }
    }
  }

  /** Joining the neighbours of entry `k` leaves a linked chain without it. */
  lemma GapIsClosed(c: seq<Entry>, h: nat, k: nat, head: Entry?)
    requires k < |c| && head == if k == 0 then At(c, 1) else c[0]
    requires k > 0 ==> c[k - 1].nextHash == At(c, k + 1) && c[k - 1].pprevHash == if k == 1 then Bucket(h) else NextOf(c[k - 2])
    requires k + 1 < |c| ==> c[k + 1].nextHash == At(c, k + 2) && c[k + 1].pprevHash == if k == 0 then Bucket(h) else NextOf(c[k - 1])
    requires forall j: nat | j < |c| && (j + 1 < k || j > k + 1) :: LinkedAt(c, h, j)
    ensures Linked(c[..k] + c[k + 1..], h, head)
  {
    var res := c[..k] + c[k + 1..];
    forall j: nat | j < |res| ensures LinkedAt(res, h, j) {
      var i := if j < k then j else j + 1;
      assert res[j] == c[i];
      if i + 1 < k || i > k + 1 {
        assert LinkedAt(c, h, i);
      }
    }
  }

  /** The chains are disjoint, each entry in its own bucket, and hold all entries. */
  ghost predicate Sorted(chains: seq<seq<Entry>>, repr: set<Entry>) {
    |chains| == NAT25_HASH_SIZE
    && (forall h, k | 0 <= h < NAT25_HASH_SIZE && 0 <= k < |chains[h]| :: chains[h][k] in repr && chains[h][k].bucket == h)
    && (forall h | 0 <= h < NAT25_HASH_SIZE :: Distinct(chains[h]))
    && (forall e {:trigger InChain(chains, e)} | e in repr :: InChain(chains, e))
  }

  ghost predicate Distinct(c: seq<Entry>) {
    forall k, l | 0 <= k < l < |c| :: c[k] != c[l]
  }

  ghost predicate InChain(chains: seq<seq<Entry>>, e: Entry) {
    e.bucket < |chains| && e in chains[e.bucket]
  }

  /** The map finds every entry under its address, and the address hashes to the bucket. */
  ghost predicate Indexed(repr: set<Entry>, entries: map<NetAddr, Entry>) {
    (forall e {:trigger IndexedAt(entries, e)} | e in repr :: IndexedAt(entries, e))
    && (forall a | a in entries :: entries[a] in repr && entries[a].networkAddr == a)
  }

  ghost predicate IndexedAt(entries: map<NetAddr, Entry>, e: Entry) {
    e.networkAddr in entries && entries[e.networkAddr] == e && e.bucket == Hash(e.networkAddr)
  }

  ghost function InsertAt0(chains: seq<seq<Entry>>, ent: Entry): seq<seq<Entry>>
    requires |chains| == NAT25_HASH_SIZE && ent.bucket < NAT25_HASH_SIZE
  {
    chains[ent.bucket := [ent] + chains[ent.bucket]]
  }

  ghost function Without(chains: seq<seq<Entry>>, h: nat, k: nat): seq<seq<Entry>>
    requires h < |chains| && k < |chains[h]|
  {
    chains[h := chains[h][..k] + chains[h][k + 1..]]
  }

  lemma WithoutIs(chains: seq<seq<Entry>>, h: nat, k: nat)
    requires h < |chains| && k < |chains[h]|
    ensures Without(chains, h, k) == chains[h := chains[h][..k] + chains[h][k + 1..]]
  {
  }

  lemma LinkKeepsSorted(chains: seq<seq<Entry>>, repr: set<Entry>, ent: Entry)
    requires Sorted(chains, repr) && ent !in repr && ent.bucket < NAT25_HASH_SIZE
    ensures Sorted(InsertAt0(chains, ent), repr + {ent})
  {
    var res := InsertAt0(chains, ent);
    forall e | e in repr + {ent} ensures InChain(res, e) {
      if e in repr {
        assert InChain(chains, e);
      }
    }
    assert Distinct(chains[ent.bucket]);
  }

  lemma UnlinkKeepsSorted(chains: seq<seq<Entry>>, repr: set<Entry>, h: nat, k: nat)
    requires Sorted(chains, repr) && h < NAT25_HASH_SIZE && k < |chains[h]|
    ensures Sorted(Without(chains, h, k), repr - {chains[h][k]})
  {
    var ent, res := chains[h][k], Without(chains, h, k);
    assert Distinct(chains[h]);
    forall e | e in repr - {ent} ensures InChain(res, e) {
      assert InChain(chains, e);
      var l :| 0 <= l < |chains[e.bucket]| && chains[e.bucket][l] == e;
      if e.bucket == h {
        assert res[h][if l < k then l else l - 1] == e;
      }
    }
    forall g, l | 0 <= g < NAT25_HASH_SIZE && 0 <= l < |res[g]| ensures res[g][l] in repr - {ent} && res[g][l].bucket == g {
      if g == h {
        var m := if l < k then l else l + 1;
        assert res[g][l] == chains[g][m];
      }
    }
    forall l, m | 0 <= l < m < |res[h]| ensures res[h][l] != res[h][m] {
      var l', m' := if l < k then l else l + 1, if m < k then m else m + 1;
      assert res[h][l] == chains[h][l'] && res[h][m] == chains[h][m'];
    }
  }

  lemma IndexAdds(repr: set<Entry>, entries: map<NetAddr, Entry>, ent: Entry)
    requires Indexed(repr, entries) && ent !in repr && ent.networkAddr !in entries && ent.bucket == Hash(ent.networkAddr)
    ensures Indexed(repr + {ent}, entries[ent.networkAddr := ent])
  {
    forall e | e in repr + {ent} ensures IndexedAt(entries[ent.networkAddr := ent], e) {
      if e in repr {
        assert IndexedAt(entries, e);
      }
    }
  }

  lemma IndexHas(repr: set<Entry>, entries: map<NetAddr, Entry>, ent: Entry)
    requires Indexed(repr, entries) && ent in repr
    ensures IndexedAt(entries, ent)
  {
  }

  lemma IndexDrops(repr: set<Entry>, entries: map<NetAddr, Entry>, ent: Entry)
    requires Indexed(repr, entries) && ent in repr
    ensures Indexed(repr - {ent}, entries - {ent.networkAddr}) && ent.networkAddr in entries
    ensures forall e | e in repr && e != ent :: e.networkAddr != ent.networkAddr
  {
    assert IndexedAt(entries, ent);
    forall e | e in repr && e != ent ensures IndexedAt(entries - {ent.networkAddr}, e) && e.networkAddr != ent.networkAddr {
      assert IndexedAt(entries, e);
    }
  }

  lemma EntriesAreInChains(chains: seq<seq<Entry>>, repr: set<Entry>)
    requires Sorted(chains, repr)
    ensures forall e | e in repr :: InChain(chains, e)
  {
  }

  /** Passes over disjoint sets of addresses add up. */
  lemma ExpireOneMore(v: View, done: set<NetAddr>, a: NetAddr, now: int, hz: nat)
    requires a !in done
    ensures ExpireView(ExpireView(v, done, now, hz), {a}, now, hz) == ExpireView(v, done + {a}, now, hz)
  {
  }

  class Db {
    const hz: nat
    var nethash: array<Entry?>
    var scdbEntry: Entry?
    var scdbMac: Mac
    var scdbIp: seq<Byte>
    ghost var chains: seq<seq<Entry>>
    ghost var entries: map<NetAddr, Entry>
    ghost var repr: set<Entry>
    ghost var view: View // what the database means

    ghost predicate ChainsValid()
      reads this`nethash, this`chains, this`repr, nethash, repr`nextHash, repr`pprevHash
    {
      nethash.Length == NAT25_HASH_SIZE && Sorted(chains, repr)
      && forall h | 0 <= h < NAT25_HASH_SIZE :: Linked(chains[h], h, nethash[h])
    }

    ghost predicate HeldBy(e: Entry)
      reads this`view, e`macAddr, e`ageingTimer, e`useCount
    {
      e.networkAddr in view && view[e.networkAddr] == Rec(e.macAddr, e.ageingTimer, e.useCount) && e.useCount >= 1
    }

    /** The entries hold what the map says. */
    ghost predicate Holds()
      reads this`repr, this`entries, this`view, repr`macAddr, repr`ageingTimer, repr`useCount
    {
      view.Keys == entries.Keys && forall e {:trigger HeldBy(e)} | e in repr :: HeldBy(e)
    }

    ghost predicate Valid()
      reads this, nethash, repr
    {
      ChainsValid() && Indexed(repr, entries) && Holds() && (scdbEntry != null ==> scdbEntry in repr)
    }

    constructor (hz: nat)
      ensures Valid() && view == map[] && fresh(nethash) && this.hz == hz
    {
      this.hz := hz;
      nethash := new Entry?[NAT25_HASH_SIZE](_ => null);
      scdbEntry, scdbMac, scdbIp := null, [0, 0, 0, 0, 0, 0], [0, 0, 0, 0];
      chains := seq(NAT25_HASH_SIZE, _ => []);
      entries := map[];
      repr, view := {}, map[];
    }

    /** Walks one chain; the result is the entry with that address, if the database has it. */
    method Find(addr: NetAddr) returns (db: Entry?)
      requires ChainsValid() && Indexed(repr, entries)
      ensures db == if addr in entries then entries[addr] else null
    {
      var h := Hash(addr);
      ghost var c := chains[h];
      assert Linked(c, h, nethash[h]);
      db := nethash[h];
      ghost var k: nat := 0;
      assert addr in entries ==> IndexedAt(entries, entries[addr]) && InChain(chains, entries[addr]);
      while db != null
        invariant 0 <= k <= |c| && db == At(c, k)
        invariant forall j | 0 <= j < k :: c[j].networkAddr != addr
        decreases |c| - k
      {
        assert LinkedAt(c, h, k) && IndexedAt(entries, c[k]);
        if db.networkAddr == addr {
          return;
        }
        db := db.nextHash;
        k := k + 1;
      }
    }

    method CountUse(db: Entry)
      requires Indexed(repr, entries) && Holds() && db in repr && HeldBy(db)
      modifies this`view, db`useCount
      ensures Holds() && view == old(view)[db.networkAddr := old(view)[db.networkAddr].(use := old(view)[db.networkAddr].use + 1)]
    {
      assert IndexedAt(entries, db);
      db.useCount := db.useCount + 1;
      view := view[db.networkAddr := view[db.networkAddr].(use := db.useCount)];
      forall e | e in repr ensures HeldBy(e) {
        assert old(HeldBy(e)) && IndexedAt(entries, e);
      }
    }

    method LookupAndReplace(addr: NetAddr, now: int) returns (found: bool, live: bool, mac: Mac)
      requires Valid()
      modifies this`view, repr`useCount
      ensures Valid() && view == LookupView(old(view), addr, now, hz)
      ensures found == (addr in old(view)) && live == (found && !Aged(old(view)[addr].seen, now, hz))
      ensures live ==> mac == old(view)[addr].mac
    {
      mac := [0, 0, 0, 0, 0, 0];
      var db := Find(addr);
      found := db != null;
      live := false;
      assert db != null ==> HeldBy(db);
      if db != null && !Aged(db.ageingTimer, now, hz) {
        live := true;
        mac := db.macAddr;
        CountUse(db);
      }
    }

    /** Puts a new entry at the head of its chain. */
    method Link(ent: Entry)
      requires ChainsValid() && ent !in repr && ent.bucket == Hash(ent.networkAddr)
      modifies nethash, this`chains, this`repr, repr`pprevHash, ent`nextHash, ent`pprevHash
      ensures ChainsValid() && repr == old(repr) + {ent} && chains == InsertAt0(old(chains), ent)
    {
      hide Hash, InChain;
      var h := Hash(ent.networkAddr);
      ghost var c := chains[h];
      assert Linked(c, h, nethash[h]);
      assert c != [] ==> LinkedAt(c, h, 0);
      ent.nextHash := nethash[h];
      if ent.nextHash != null {
        ent.nextHash.pprevHash := NextOf(ent);
      }
      nethash[h] := ent;
      ent.pprevHash := Bucket(h);
      LinkKeepsSorted(chains, repr, ent);
      assert Distinct(c);
      forall k: nat | 1 <= k < |c| ensures LinkedAt(c, h, k) {
        assert old(LinkedAt(c, h, k));
      }
      HeadIsLinked(c, h, ent);
      forall g | 0 <= g < NAT25_HASH_SIZE && g != h ensures Linked(chains[g], g, nethash[g]) {
        assert old(Linked(chains[g], g, nethash[g]));
        forall k: nat | k < |chains[g]| ensures LinkedAt(chains[g], g, k) {
          assert old(LinkedAt(chains[g], g, k));
        }
      }
      repr := repr + {ent};
      chains := InsertAt0(chains, ent);
    }

    /** Takes an entry out of its chain through its back pointer. */
    method Unlink(ent: Entry, ghost k: nat)
      requires ChainsValid() && ent in repr && ent.bucket < NAT25_HASH_SIZE && k < |chains[ent.bucket]| && chains[ent.bucket][k] == ent
      modifies nethash, this`chains, this`repr, repr`nextHash, repr`pprevHash
      ensures ChainsValid() && repr == old(repr) - {ent} && ent.nextHash == null && ent.pprevHash == NoCell
      ensures chains == Without(old(chains), ent.bucket, k)
    {
      hide Hash, InChain, Without;
      ghost var h := ent.bucket;
      ghost var c, res := chains[h], Without(chains, h, k);
      assert Distinct(c);
      Detach(ent, c, h, k);
      UnlinkKeepsSorted(chains, repr, h, k);
      forall g | 0 <= g < NAT25_HASH_SIZE && g != h ensures Linked(chains[g], g, nethash[g]) {
        assert old(Linked(chains[g], g, nethash[g]));
        forall j: nat | j < |chains[g]| ensures LinkedAt(chains[g], g, j) {
          assert old(LinkedAt(chains[g], g, j));
        }
      }
      assert Without(chains, h, k) == chains[h := c[..k] + c[k + 1..]] by { WithoutIs(chains, h, k); }
      chains := res;
      repr := repr - {ent};
    }

    /** The pointers around entry `k` of a chain are joined; those of other chains stay. */
    method Detach(ent: Entry, ghost c: seq<Entry>, ghost h: nat, ghost k: nat)
      requires nethash.Length == NAT25_HASH_SIZE && h < NAT25_HASH_SIZE && k < |c| && c[k] == ent && Distinct(c)
      requires Linked(c, h, nethash[h]) && forall l | 0 <= l < |c| :: c[l] in repr
      modifies nethash, repr`nextHash, repr`pprevHash
      ensures Linked(c[..k] + c[k + 1..], h, nethash[h]) && ent.nextHash == null && ent.pprevHash == NoCell
      ensures forall g | 0 <= g < NAT25_HASH_SIZE && g != h :: nethash[g] == old(nethash[g])
      ensures forall e | e in repr && e !in c :: e.nextHash == old(e.nextHash) && e.pprevHash == old(e.pprevHash)
    {
      assert LinkedAt(c, h, k);
      assert k > 0 ==> LinkedAt(c, h, k - 1);
      assert k + 1 < |c| ==> LinkedAt(c, h, k + 1);
      match ent.pprevHash {
        case Bucket(b) => nethash[b] := ent.nextHash;
        case NextOf(e) => e.nextHash := ent.nextHash;
        case NoCell => assert false;
      }
      if ent.nextHash != null {
        ent.nextHash.pprevHash := ent.pprevHash;
      }
      ent.nextHash := null;
      ent.pprevHash := NoCell;
      forall j: nat | j < |c| && (j + 1 < k || j > k + 1) ensures LinkedAt(c, h, j) {
        assert old(LinkedAt(c, h, j));
      }
      GapIsClosed(c, h, k, nethash[h]);
    }

    method Refresh(db: Entry, mac: Mac, now: int)
      requires Indexed(repr, entries) && Holds() && db in repr && HeldBy(db)
      modifies this`view, db`macAddr, db`ageingTimer
      ensures Holds() && view == old(view)[db.networkAddr := Rec(mac, now, old(view)[db.networkAddr].use)]
    {
      assert IndexedAt(entries, db);
      db.macAddr := mac;
      db.ageingTimer := now;
      view := view[db.networkAddr := Rec(mac, now, view[db.networkAddr].use)];
      forall e | e in repr ensures HeldBy(e) {
        assert old(HeldBy(e)) && IndexedAt(entries, e);
      }
    }

    method InsertNew(mac: Mac, addr: NetAddr, now: int)
      requires Valid() && addr !in entries
      modifies this`view, this`chains, this`repr, this`entries, nethash, repr`pprevHash
      ensures Valid() && view == old(view)[addr := Rec(mac, now, 1)] && fresh(repr - old(repr))
    {
      var db := new Entry(addr, mac, now);
      IndexAdds(repr, entries, db);
      Link(db);
      forall e | e in old(repr) ensures HeldBy(e) {
        assert old(HeldBy(e));
      }
      Register(db);
    }

    /** Records a linked entry in the map. */
    ghost method Register(db: Entry)
      requires ChainsValid() && db in repr && db.networkAddr !in view && db.useCount == 1 && view.Keys == entries.Keys
      requires Indexed(repr, entries[db.networkAddr := db]) && (scdbEntry != null ==> scdbEntry in repr)
      requires forall e {:trigger HeldBy(e)} | e in repr && e != db :: HeldBy(e)
      modifies this`view, this`entries
      ensures Valid() && view == old(view)[db.networkAddr := Rec(db.macAddr, db.ageingTimer, 1)]
    {
      view := view[db.networkAddr := Rec(db.macAddr, db.ageingTimer, 1)];
      entries := entries[db.networkAddr := db];
      forall e | e in repr ensures HeldBy(e) {
        assert IndexedAt(entries, e) && IndexedAt(entries, db);
        assert e != db ==> old(HeldBy(e));
      }
    }

    /** Removes the record of an unlinked entry from the map. */
    ghost method Unregister(f: Entry)
      requires ChainsValid() && f !in repr && f.networkAddr in entries && view.Keys == entries.Keys
      requires Indexed(repr, entries - {f.networkAddr}) && (scdbEntry != null ==> scdbEntry in repr)
      requires forall e {:trigger HeldBy(e)} | e in repr :: HeldBy(e)
      modifies this`view, this`entries
      ensures Valid() && view == old(view) - {f.networkAddr}
    {
      entries := entries - {f.networkAddr};
      view := view - {f.networkAddr};
      forall e | e in repr ensures HeldBy(e) {
        assert IndexedAt(entries, e) && old(HeldBy(e));
      }
    }

    method Insert(mac: Mac, addr: NetAddr, now: int)
      requires Valid()
      modifies this`view, this`chains, this`repr, this`entries, nethash, repr`macAddr, repr`ageingTimer, repr`pprevHash
      ensures Valid() && view == InsertView(old(view), addr, mac, now) && fresh(repr - old(repr))
    {
      var db := Find(addr);
      if db != null {
        assert HeldBy(db);
        Refresh(db, mac, now);
      } else {
        InsertNew(mac, addr, now);
      }
    }

    /** The shortcut is cleared, with its addresses, exactly when its entry is freed. */
    twostate predicate ShortcutKept()
      reads this
    {
      if old(scdbEntry) != null && old(scdbEntry) !in repr
      then scdbEntry == null && scdbMac == [0, 0, 0, 0, 0, 0] && scdbIp == [0, 0, 0, 0]
      else scdbEntry == old(scdbEntry) && scdbMac == old(scdbMac) && scdbIp == old(scdbIp)
    }

    /** Unlinks an entry and lets go of the shortcut to it; the entry is freed. */
    method Drop(f: Entry, ghost k: nat)
      requires ChainsValid() && Indexed(repr, entries) && view.Keys == entries.Keys && (scdbEntry != null ==> scdbEntry in repr)
      requires f in repr && f.bucket < NAT25_HASH_SIZE && k < |chains[f.bucket]| && chains[f.bucket][k] == f
      requires forall e {:trigger HeldBy(e)} | e in repr && e != f :: HeldBy(e)
      modifies this, nethash, repr`nextHash, repr`pprevHash
      ensures Valid() && f !in repr && repr <= old(repr) && nethash == old(nethash)
      ensures view == old(view) - {f.networkAddr} && chains == Without(old(chains), f.bucket, k)
      ensures ShortcutKept()
    {
      if scdbEntry == f {
        scdbMac := [0, 0, 0, 0, 0, 0];
        scdbIp := [0, 0, 0, 0];
        scdbEntry := null;
      }
      IndexDrops(repr, entries, f);
      Unlink(f, k);
      forall e | e in repr ensures HeldBy(e) {
        assert old(HeldBy(e));
      }
      Unregister(f);
    }

    /** The expire pass at one entry. */
    method ExpireOne(f: Entry, now: int, ghost k: nat)
      requires Valid() && f in repr && f.bucket < NAT25_HASH_SIZE && k < |chains[f.bucket]| && chains[f.bucket][k] == f
      modifies this, nethash, repr`nextHash, repr`pprevHash, f`useCount
      ensures Valid() && repr <= old(repr) && nethash == old(nethash)
      ensures view == ExpireView(old(view), {f.networkAddr}, now, hz)
      ensures chains == if f in repr then old(chains) else Without(old(chains), f.bucket, k)
      ensures ShortcutKept()
    {
      hide ChainsValid, Hash, Without, Indexed;
      assert HeldBy(f) && f.networkAddr in view by { IndexHas(repr, entries, f); }
      ghost var r := view[f.networkAddr];
      if Aged(f.ageingTimer, now, hz) {
        f.useCount := f.useCount - 1;
        forall e | e in repr && e != f ensures HeldBy(e) {
          assert old(HeldBy(e));
        }
        if f.useCount == 0 {
          Drop(f, k);
        } else {
          KeepAged(f);
        }
      }
    }

    ghost method KeepAged(f: Entry)
      requires ChainsValid() && Indexed(repr, entries) && view.Keys == entries.Keys && (scdbEntry != null ==> scdbEntry in repr)
      requires f in repr && f.networkAddr in view && f.useCount >= 1
      requires view[f.networkAddr].mac == f.macAddr && view[f.networkAddr].seen == f.ageingTimer
      requires forall e {:trigger HeldBy(e)} | e in repr && e != f :: HeldBy(e)
      modifies this`view
      ensures Valid() && view == old(view)[f.networkAddr := old(view)[f.networkAddr].(use := f.useCount)]
    {
      view := view[f.networkAddr := view[f.networkAddr].(use := f.useCount)];
      forall e | e in repr ensures HeldBy(e) {
        assert IndexedAt(entries, e) && IndexedAt(entries, f);
        assert e != f ==> old(HeldBy(e));
      }
    }

    /** Entries of a chain have different addresses. */
    lemma AddressesDiffer(h: nat, k: nat, l: nat)
      requires ChainsValid() && Indexed(repr, entries) && h < NAT25_HASH_SIZE && k < |chains[h]| && l < |chains[h]| && k != l
      ensures chains[h][k].networkAddr != chains[h][l].networkAddr
    {
      assert Distinct(chains[h]);
      assert IndexedAt(entries, chains[h][k]) && IndexedAt(entries, chains[h][l]);
    }

    /** Bucket `i` has been handled up to its entry `k`. */
    ghost predicate HandledUpTo(i: nat, k: nat, done: set<NetAddr>)
      requires i < |chains|
      reads this`chains
    {
      k <= |chains[i]| && forall l | 0 <= l < |chains[i]| :: (chains[i][l].networkAddr in done <==> l < k)
    }

    method ExpireAt(i: nat, f: Entry, now: int, ghost k: nat, ghost v0: View, ghost done: set<NetAddr>) returns (g: Entry?, ghost next: nat)
      requires Valid() && i < NAT25_HASH_SIZE && k < |chains[i]| && f == chains[i][k] && HandledUpTo(i, k, done)
      requires view == ExpireView(v0, done, now, hz)
      modifies this, nethash, repr`nextHash, repr`pprevHash, repr`useCount
      ensures Valid() && view == ExpireView(v0, done + {f.networkAddr}, now, hz) && repr <= old(repr) && nethash == old(nethash)
      ensures HandledUpTo(i, next, done + {f.networkAddr}) && g == At(chains[i], next) && |chains[i]| - next < old(|chains[i]|) - k
      ensures Hash(f.networkAddr) == i && ShortcutKept()
    {
      assert Linked(chains[i], i, nethash[i]);
      assert LinkedAt(chains[i], i, k) && IndexedAt(entries, f);
      g := f.nextHash;
      forall l: nat | l < |chains[i]| && l != k ensures chains[i][l].networkAddr != f.networkAddr {
        AddressesDiffer(i, k, l);
      }
      ExpireOneMore(v0, done, f.networkAddr, now, hz);
      ExpireOne(f, now, k);
      next := if f in repr then k + 1 else k;
    }

    method ExpireBucket(i: nat, now: int, ghost v0: View, ghost done0: set<NetAddr>) returns (ghost done: set<NetAddr>)
      requires Valid() && i < NAT25_HASH_SIZE && view == ExpireView(v0, done0, now, hz)
      requires forall a | a in done0 :: Below(a, i)
      requires forall a | a in v0 && Below(a, i) :: a in done0
      modifies this, nethash, repr`nextHash, repr`pprevHash, repr`useCount
      ensures Valid() && view == ExpireView(v0, done, now, hz) && repr <= old(repr) && nethash == old(nethash)
      ensures forall a | a in done :: Below(a, i + 1)
      ensures forall a | a in v0 && Below(a, i + 1) :: a in done
      ensures ShortcutKept()
    {
      done := done0;
      var f := nethash[i];
      ghost var k: nat := 0;
      assert Linked(chains[i], i, nethash[i]);
      forall l | 0 <= l < |chains[i]| ensures chains[i][l].networkAddr !in done {
        assert IndexedAt(entries, chains[i][l]);
      }
      while f != null
        invariant Valid() && repr <= old(repr) && nethash == old(nethash) && view == ExpireView(v0, done, now, hz)
        invariant HandledUpTo(i, k, done) && f == At(chains[i], k)
        invariant done0 <= done && forall a | a in done :: Below(a, i + 1)
        invariant ShortcutKept()
        decreases |chains[i]| - k
      {
        ghost var a := f.networkAddr;
        f, k := ExpireAt(i, f, now, k, v0, done);
        done := done + {a};
      }
      forall a | a in v0 && Below(a, i + 1) ensures a in done {
        if a in view {
          assert IndexedAt(entries, entries[a]) && InChain(chains, entries[a]);
        }
      }
    }

    method Expire(now: int)
      requires Valid()
      modifies this, nethash, repr`nextHash, repr`pprevHash, repr`useCount
      ensures Valid() && view == ExpireView(old(view), old(view).Keys, now, hz) && repr <= old(repr)
      ensures ShortcutKept()
    {
      ghost var v0, done := view, {};
      assert view == ExpireView(v0, done, now, hz);
      var i := 0;
      while i < NAT25_HASH_SIZE
        invariant 0 <= i <= NAT25_HASH_SIZE
        invariant Valid() && repr <= old(repr) && nethash == old(nethash) && view == ExpireView(v0, done, now, hz)
        invariant forall a | a in done :: Below(a, i)
        invariant forall a | a in v0 && Below(a, i) :: a in done
        invariant ShortcutKept()
      {
        done := ExpireBucket(i, now, v0, done);
        i := i + 1;
      }
      forall a | a in v0 ensures a in done {
        assert Below(a, NAT25_HASH_SIZE);
      }
    }

    method CleanupBucket(i: nat)
      requires Valid() && i < NAT25_HASH_SIZE
      modifies this, nethash, repr`nextHash, repr`pprevHash
      ensures Valid() && repr <= old(repr) && nethash == old(nethash) && chains == old(chains)[i := []]
      ensures scdbEntry == null || scdbEntry == old(scdbEntry)
    {
      var f := nethash[i];
      assert Linked(chains[i], i, nethash[i]);
      while f != null
        invariant Valid() && repr <= old(repr) && nethash == old(nethash) && f == At(chains[i], 0)
        invariant |chains| == |old(chains)| && chains == old(chains)[i := chains[i]]
        invariant scdbEntry == null || scdbEntry == old(scdbEntry)
        decreases |chains[i]|
      {
        assert LinkedAt(chains[i], i, 0) by { assert Linked(chains[i], i, nethash[i]); }
        var g := f.nextHash;
        Drop(f, 0);
        f := g;
      }
    }

    method Cleanup()
      requires Valid()
      modifies this, nethash, repr`nextHash, repr`pprevHash
      ensures Valid() && view == map[] && repr == {} && scdbEntry == null
    {
      var i := 0;
      while i < NAT25_HASH_SIZE
        invariant 0 <= i <= NAT25_HASH_SIZE && Valid() && repr <= old(repr) && nethash == old(nethash)
        invariant forall h | 0 <= h < i :: chains[h] == []
      {
        CleanupBucket(i);
        i := i + 1;
      }
      EntriesAreInChains(chains, repr);
    }

    /** The entry the shortcut for one address may be set to. */
    method FindScdbEntry(addr: NetAddr) returns (db: Entry?)
      requires Valid()
      ensures (db != null) == (addr in view) && (db != null ==> db in repr && db.networkAddr == addr)
    {
      db := Find(addr);
      assert db != null ==> IndexedAt(entries, db);
    }
  }

  predicate Below(a: NetAddr, i: nat) {
    Hash(a) < i
  }
}
