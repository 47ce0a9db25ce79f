/** NAT2.5 frame handling, with VLAN tags (core/rtw_br_ext.c). */
module Nat25Frames {
  import opened Octets
  import opened Nat25Db
  import opened Pppoe

  const ETH_P_IP: seq<Byte> := [0x08, 0x00]
  const ETH_P_ARP: seq<Byte> := [0x08, 0x06]
  const ETH_P_PPP_DISC: seq<Byte> := [0x88, 0x63]
  const ETH_P_PPP_SES: seq<Byte> := [0x88, 0x64]
  const ETH_P_EAP: seq<Byte> := [0x88, 0x8e]
  const ETH_P_8021Q: seq<Byte> := [0x81, 0x00]
  const PADI_CODE := 0x09
  const PADO_CODE := 0x07
  const PADR_CODE := 0x19
  const PADS_CODE := 0x65
  const BROADCAST: Mac := [0xff, 0xff, 0xff, 0xff, 0xff, 0xff]
  const ARP := 22 // offset of the addresses of an ARP packet

  function Put(d: seq<Byte>, pos: nat, octets: seq<Byte>): (r: seq<Byte>)
    requires pos + |octets| <= |d|
    ensures |r| == |d|
  {
    d[..pos] + octets + d[pos + |octets|..]
  }

  function Ipv4Addr(ip: seq<Byte>): NetAddr
    requires |ip| == 4
  {
    [NAT25_IPV4, 0, 0, 0, 0, 0, 0] + ip
  }

  function PppoeAddr(acMac: Mac, sid: seq<Byte>): NetAddr
    requires |sid| == 2
  {
    [NAT25_PPPOE] + sid + acMac + [0, 0]
  }

  function Protocol(d: seq<Byte>): seq<Byte>
    requires |d| >= 14
  {
    d[12..14]
  }

  predicate IsPppoe(d: seq<Byte>)
    requires |d| >= 14
  {
    Protocol(d) == ETH_P_PPP_DISC || Protocol(d) == ETH_P_PPP_SES
  }

  /** The headers of the protocol are there; for ARP also both address pairs. */
  predicate LongEnough(d: seq<Byte>) {
    |d| >= 14
    && (Protocol(d) == ETH_P_IP ==> |d| >= 34)
    && (Protocol(d) == ETH_P_ARP ==> |d| >= 42 && |d| >= ARP + 2 * d[18] as int + d[19] as int + 4 && |d| >= ARP + d[18] as int + d[19] as int + 6)
    && (IsPppoe(d) ==> |d| >= PAYLOAD)
  }

  predicate MalformedIp(d: seq<Byte>)
    requires |d| >= 34
  {
    4 * (d[14] % 16) >= |d|
  }

  predicate ArpForIp(d: seq<Byte>)
    requires |d| >= 28
  {
    d[16..18] == ETH_P_IP
  }

  predicate IsReply(d: seq<Byte>)
    requires |d| >= PAYLOAD
  {
    d[15] == PADO_CODE || d[15] == PADS_CODE
  }

  predicate IsRequest(d: seq<Byte>)
    requires |d| >= PAYLOAD
  {
    d[15] == PADI_CODE || d[15] == PADR_CODE
  }

  /** A frame of the discovery stage has no session yet. */
  predicate IsDiscovery(d: seq<Byte>)
    requires LongEnough(d)
  {
    IsPppoe(d) && d[16..18] == [0, 0]
  }

  /** The database key a reply is looked up with, if it is. */
  datatype Key = NoKey | Key(addr: NetAddr)

  function LookupKey(d: seq<Byte>): Key
    requires LongEnough(d)
  {
    if Protocol(d) == ETH_P_IP then if MalformedIp(d) then NoKey else Key(Ipv4Addr(d[30..34]))
    else if Protocol(d) == ETH_P_ARP then
      var p := ARP + 2 * d[18] as int + d[19] as int;
      if ArpForIp(d) then Key(Ipv4Addr(d[p..p + 4])) else NoKey
    else if IsPppoe(d) && !IsReply(d) && d[16..18] != [0, 0] then Key(PppoeAddr(d[6..12], d[16..18]))
    else NoKey
  }

  /** The frame a client's frame becomes on its way out; ARP senders take the station's address. */
  function Outgoing(d: seq<Byte>, myMac: Mac): seq<Byte>
    requires LongEnough(d)
  {
    if Protocol(d) == ETH_P_ARP && ArpForIp(d) then Put(d, ARP, myMac) else d
  }

  /** The database key a client's frame is recorded under, if it is. */
  function InsertKey(d: seq<Byte>, myMac: Mac): Key
    requires LongEnough(d)
  {
    if Protocol(d) == ETH_P_IP then if MalformedIp(d) || d[26..30] == [0, 0, 0, 0] then NoKey else Key(Ipv4Addr(d[26..30]))
    else if Protocol(d) == ETH_P_ARP then
      var p := ARP + d[18] as int;
      if ArpForIp(d) then Key(Ipv4Addr(Outgoing(d, myMac)[p..p + 4])) else NoKey
    else if IsPppoe(d) && d[16..18] != [0, 0] then Key(PppoeAddr(d[..6], d[16..18]))
    else NoKey
  }

  datatype Effect = Effect(view: View, data: seq<Byte>, ret: int)

  /** A PPPoE discovery reply is taken apart into its header, tags and padding. */
  datatype Discovery = Discovery(header: seq<Byte>, tags: seq<Tag>, pad: seq<Byte>) {
    ghost predicate Fits(d: seq<Byte>) {
      |header| == LENGTH && ValidTags(tags) && |Encode(tags)| < 0x10000 && d == Frame(header, tags, pad)
    }
  }

  /** Only a live entry redirects. */
  ghost function Destination(v: View, a: NetAddr, da: Mac, now: int, hz: nat): Mac {
    if a in v && !Aged(v[a].seen, now, hz) then v[a].mac else da
  }

  /** What looking up a reply does. */
  ghost function Look(v: View, d: seq<Byte>, brMac: Mac, now: int, hz: nat, x: Discovery): Effect
    requires LongEnough(d) && (IsPppoe(d) && IsReply(d) ==> x.Fits(d))
  {
    var k := LookupKey(d);
    if k.Key? then
      var a := k.addr;
      var da := if a in v || Protocol(d) != ETH_P_IP then Destination(v, a, d[..6], now, hz)
                else if d[33] == 0xff then BROADCAST else brMac;
      var d' := Put(d, 0, da);
      Effect(LookupView(v, a, now, hz),
             if Protocol(d) == ETH_P_ARP then Put(d', ARP + d[18] as int + d[19] as int, da) else d', 0)
    else if IsPppoe(d) && IsReply(d) then
      var r := AfterLookup(x.tags);
      if r.Refused? then Effect(v, d, -1)
      else Effect(v, LookedUpFrame(x, r), 0)
    else Effect(v, d, if Protocol(d) in {ETH_P_EAP, [0xe2, 0xae], [0xe2, 0xaf]} then 0 else -1)
  }

  ghost function LookedUpFrame(x: Discovery, r: LookupResult): seq<Byte>
    requires r.Found? && |x.header| == LENGTH
  {
    if ValidTags(r.tags) && |Encode(r.tags)| < 0x10000 then Frame(r.mac + x.header[6..], r.tags, x.pad) else r.mac + x.header[6..]
  }

  // ----- VLAN tags

  predicate IsTagged(d: seq<Byte>) {
    |d| >= 16 && d[12..14] == ETH_P_8021Q
  }

  function Untagged(d: seq<Byte>): seq<Byte>
    requires IsTagged(d)
  {
    d[..12] + d[16..]
  }

  function Tagged(d: seq<Byte>, tci: seq<Byte>): seq<Byte>
    requires |d| >= 12
  {
    d[..12] + ETH_P_8021Q + tci + d[12..]
  }

  lemma TagRoundTrip(d: seq<Byte>, tci: seq<Byte>)
    ensures IsTagged(d) ==> Tagged(Untagged(d), d[14..16]) == d
    ensures |d| >= 12 && |tci| == 2 ==> IsTagged(Tagged(d, tci)) && Untagged(Tagged(d, tci)) == d && Tagged(d, tci)[14..16] == tci
  {
    if |d| >= 12 && |tci| == 2 {
      var t := Tagged(d, tci);
      assert t[12..14] == ETH_P_8021Q;
    }
  }

  /** Moves the addresses up over the tag, two octets at a time from the back, and pulls four octets. */
  method Untag(skb: Skb)
    requires skb.Valid() && IsTagged(skb.Data())
    modifies skb
    ensures skb.Valid() && skb.Data() == Untagged(old(skb.Data())) && skb.head == old(skb.head) + 4
    ensures |skb.buf| == |old(skb.buf)| && skb.tail == old(skb.tail)
  {
    var h := skb.head;
    ghost var was := skb.buf;
    var i := 0;
    while i < 6
      invariant 0 <= i <= 6 && |skb.buf| == |was| && skb.head == h && skb.tail == old(skb.tail)
      invariant forall j {:trigger skb.buf[j]} | h + 16 - 2 * i <= j < h + 16 :: skb.buf[j] == was[j - 4]
      invariant forall j {:trigger skb.buf[j]} | 0 <= j < h + 16 - 2 * i || h + 16 <= j < |was| :: skb.buf[j] == was[j]
    {
      var to := h + 14 - 2 * i;
      assert skb.buf[to - 4] == was[to - 4] && skb.buf[to - 3] == was[to - 3];
      skb.buf := skb.buf[to := skb.buf[to - 4]][to + 1 := skb.buf[to - 3]];
      i := i + 1;
    }
    skb.head := skb.head + 4;
    assert was[h..skb.tail][..12] == was[h..h + 12] && was[h..skb.tail][16..] == was[h + 16..skb.tail];
    assert skb.buf[h + 4..h + 16] == was[h..h + 12] && skb.buf[h + 16..skb.tail] == was[h + 16..skb.tail];
    assert skb.Data() == skb.buf[h + 4..h + 16] + skb.buf[h + 16..skb.tail];
  }

  /** Pushes four octets, moves the addresses down, and writes the tag. */
  method Retag(skb: Skb, tci: seq<Byte>)
    requires skb.Valid() && |skb.Data()| >= 12 && |tci| == 2 && skb.head >= 4
    modifies skb
    ensures skb.Valid() && skb.Data() == Tagged(old(skb.Data()), tci) && skb.head + 4 == old(skb.head)
  {
    ghost var was := skb.buf;
    skb.head := skb.head - 4;
    var h := skb.head;
    var i := 0;
    while i < 6
      invariant 0 <= i <= 6 && |skb.buf| == |was| && skb.head == h && skb.tail == old(skb.tail)
      invariant forall j {:trigger skb.buf[j]} | h <= j < h + 2 * i :: skb.buf[j] == was[j + 4]
      invariant forall j {:trigger skb.buf[j]} | 0 <= j < h || h + 2 * i <= j < |was| :: skb.buf[j] == was[j]
    {
      skb.buf := skb.buf[h + 2 * i := skb.buf[h + 4 + 2 * i]][h + 1 + 2 * i := skb.buf[h + 5 + 2 * i]];
      i := i + 1;
    }
    ghost var moved := skb.buf;
    skb.buf := skb.buf[h + 12 := 0x81][h + 13 := 0x00][h + 14 := tci[0]][h + 15 := tci[1]];
    TagParts(was, moved, h, skb.tail, tci);
  }

  lemma TagParts(was: seq<Byte>, moved: seq<Byte>, h: nat, tail: nat, tci: seq<Byte>)
    requires |moved| == |was| && h + 16 <= tail <= |was| && |tci| == 2
    requires forall j {:trigger moved[j]} | h <= j < h + 12 :: moved[j] == was[j + 4]
    requires forall j {:trigger moved[j]} | h + 16 <= j < tail :: moved[j] == was[j]
    ensures moved[h + 12 := 0x81][h + 13 := 0x00][h + 14 := tci[0]][h + 15 := tci[1]][h..tail] == Tagged(was[h + 4..tail], tci)
  {
    var b := moved[h + 12 := 0x81][h + 13 := 0x00][h + 14 := tci[0]][h + 15 := tci[1]];
    var d := was[h + 4..tail];
    assert b[h..h + 12] == d[..12];
    assert b[h + 12..h + 14] == ETH_P_8021Q && b[h + 14..h + 16] == tci;
    assert b[h + 16..tail] == d[12..];
    FourParts(b, h, h + 12, h + 14, h + 16, tail);
  }

  lemma FourParts(b: seq<Byte>, i: nat, j: nat, k: nat, l: nat, m: nat)
    requires i <= j <= k <= l <= m <= |b|
    ensures b[i..m] == b[i..j] + b[j..k] + b[k..l] + b[l..m]
  {
    assert b[i..k] == b[i..j] + b[j..k];
    assert b[i..l] == b[i..k] + b[k..l];
  }

  // ----- the handlers

  /** A discovery request that is handed in is taken apart. */
  ghost predicate Insertable(x: Discovery, d: seq<Byte>) {
    LongEnough(d) && (IsDiscovery(d) && IsRequest(d) ==> x.Fits(d) && |Encode(x.tags)| + TAG_BUF_SIZE < 0x10000)
  }

  /** What recording a discovery frame `d` leaves, with `room` octets behind the data. */
  ghost predicate RelayInserted(bigEndian: bool, x: Discovery, d: seq<Byte>, room: nat, ret: int, e: seq<Byte>, pad: seq<Byte>)
    requires Insertable(x, d) && IsDiscovery(d)
  {
    if !IsRequest(d) then ret == -1 && e == d
    else
      var outcome := RelayOutcome(bigEndian, x.tags, room);
      ret == (if outcome == Rejected then -1 else 0)
      && (outcome == Forwarded ==>
            IsFrameOf(e, x.header, [RelayTag(d[6..12], RelayData(x.tags))] + WithoutRelay(x.tags), pad) && |pad| == |x.pad|)
  }

  ghost predicate IsFrameOf(e: seq<Byte>, header: seq<Byte>, tags: seq<Tag>, pad: seq<Byte>) {
    |header| == LENGTH && ValidTags(tags) && |Encode(tags)| < 0x10000 && e == Frame(header, tags, pad)
  }

  /** A broadcast PADI without tags, from the client 02:00:00:00:00:01. */
  function Padi(): seq<Byte> {
    BROADCAST + [2, 0, 0, 0, 0, 1] + ETH_P_PPP_DISC + [0x11, PADI_CODE, 0, 0]
  }

  /** The same PADI is forwarded with its relay tag on one host and refused on the other, which with more room reads
      past the tag buffer instead. */
  lemma PadiDependsOnHost(room: nat)
    requires TAG_HDR_LEN + RELAY_LEN <= room
    ensures var x := Discovery(Padi(), [], []); var d := Frame(Padi(), [], []);
      Insertable(x, d) && IsDiscovery(d) && IsRequest(d) && d[6..12] == [2, 0, 0, 0, 0, 1]
      && RelayOutcome(true, x.tags, room) == Forwarded
      && RelayOutcome(false, x.tags, room) == if room < TAG_HDR_LEN + 256 * RELAY_LEN then Rejected else OverRead
  {
    var d := Frame(Padi(), [], []);
    assert d == Padi() + [0, 0];
    assert Protocol(d) == ETH_P_PPP_DISC && d[16..18] == [0, 0] && d[15] == PADI_CODE;
    assert d[6..12] == [2, 0, 0, 0, 0, 1];
  }

  /** What recording any other frame returns. */
  function InsertRet(d: seq<Byte>, myMac: Mac): int
    requires LongEnough(d)
  {
    if InsertKey(d, myMac).Key? || (Protocol(d) == ETH_P_IP && !MalformedIp(d)) || Protocol(d) in {ETH_P_EAP, [0xe2, 0xae], [0xe2, 0xaf]} then 0 else -1
  }

  ghost function Recorded(v: View, d: seq<Byte>, myMac: Mac, now: int): View
    requires LongEnough(d)
  {
    var k := InsertKey(d, myMac);
    if k.Key? then InsertView(v, k.addr, d[6..12], now) else v
  }

  class Bridge {
    const db: Db
    const myMac: Mac
    const brMac: Mac
    const brIp: seq<Byte>
    const bigEndian: bool // the octet order of the host
    var nat25Disable: bool
    var shortcutDisable: bool

    constructor (db: Db, myMac: Mac, brMac: Mac, brIp: seq<Byte>, bigEndian: bool)
    {
      this.db, this.myMac, this.brMac, this.brIp, this.bigEndian := db, myMac, brMac, brIp, bigEndian;
      nat25Disable, shortcutDisable := false, false;
    }

    /** Overwrites octets anywhere in the data. */
    method PutOctets(skb: Skb, pos: nat, octets: seq<Byte>)
      requires skb.Valid() && pos + |octets| <= |skb.Data()|
      modifies skb`buf
      ensures skb.Valid() && |skb.buf| == |old(skb.buf)| && skb.Data() == Put(old(skb.Data()), pos, octets)
    {
      ghost var d := skb.Data();
      assert d == d[..pos] + d[pos..pos + |octets|] + d[pos + |octets|..];
      skb.Write(pos, octets, d[..pos], d[pos..pos + |octets|], d[pos + |octets|..]);
    }

    /** An ARP packet goes out with the station's address as its sender. */
    method InsertArp(skb: Skb, now: int)
      requires db.Valid() && skb.Valid() && LongEnough(skb.Data()) && Protocol(skb.Data()) == ETH_P_ARP && ArpForIp(skb.Data())
      modifies skb`buf, db`view, db`chains, db`repr, db`entries, db.nethash, db.repr`macAddr, db.repr`ageingTimer, db.repr`pprevHash
      ensures db.Valid() && skb.Valid() && skb.Data() == Outgoing(old(skb.Data()), myMac)
      ensures db.view == InsertView(old(db.view), InsertKey(old(skb.Data()), myMac).addr, old(skb.Data())[6..12], now)
    {
      hide InsertView, Ipv4Addr, Put;
      var d := skb.Data();
      PutOctets(skb, ARP, myMac);
      PutBehind(d, ARP, myMac);
      var p := ARP + d[18] as int;
      db.Insert(skb.Data()[6..12], Ipv4Addr(skb.Data()[p..p + 4]), now);
    }

    /** A PADI or PADR gets the relay tag of its sender; other discovery frames are refused. */
    method InsertDiscovery(skb: Skb, ghost x: Discovery) returns (ret: int, ghost pad: seq<Byte>)
      requires skb.Valid() && Insertable(x, skb.Data()) && IsDiscovery(skb.Data())
      modifies skb
      ensures skb.Valid() && RelayInserted(bigEndian, x, old(skb.Data()), |old(skb.buf)| - old(skb.tail), ret, skb.Data(), pad)
    {
      hide Encode, RelayOutcome, RelayData, WithoutRelay;
      pad := [];
      var d := skb.Data();
      if !IsRequest(d) {
        return -1, pad;
      }
      assert d[6..12] == x.header[6..12];
      var outcome;
      outcome, pad := InsertRelay(skb, bigEndian, x.header, x.tags, x.pad);
      ret := if outcome == Rejected then -1 else 0;
    }

    /** Recording the sender of a client's frame. */
    method HandleInsert(skb: Skb, now: int, ghost x: Discovery) returns (ret: int, ghost pad: seq<Byte>)
      requires db.Valid() && skb.Valid() && Insertable(x, skb.Data())
      modifies skb, db`view, db`chains, db`repr, db`entries, db.nethash, db.repr`macAddr, db.repr`ageingTimer, db.repr`pprevHash
      ensures db.Valid() && skb.Valid() && db.view == Recorded(old(db.view), old(skb.Data()), myMac, now)
      ensures var d := old(skb.Data());
        if IsDiscovery(d) then RelayInserted(bigEndian, x, d, |old(skb.buf)| - old(skb.tail), ret, skb.Data(), pad)
        else skb.Data() == Outgoing(d, myMac) && ret == InsertRet(d, myMac)
    {
      hide InsertView, Ipv4Addr, PppoeAddr, RelayInserted;
      pad := [];
      var d := skb.Data();
      var protocol := Protocol(d);
      if protocol == ETH_P_IP {
        if MalformedIp(d) {
          return -1, pad;
        }
        if d[26..30] != [0, 0, 0, 0] {
          db.Insert(d[6..12], Ipv4Addr(d[26..30]), now);
        }
        return 0, pad;
      } else if protocol == ETH_P_ARP {
        if !ArpForIp(d) {
          return -1, pad;
        }
        InsertArp(skb, now);
        return 0, pad;
      } else if IsPppoe(d) {
        if d[16..18] == [0, 0] {
          ret, pad := InsertDiscovery(skb, x);
          return;
        }
        db.Insert(d[6..12], PppoeAddr(d[..6], d[16..18]), now);
        return 0, pad;
      } else if protocol == ETH_P_EAP || protocol == [0xe2, 0xae] || protocol == [0xe2, 0xaf] {
        return 0, pad;
      }
      return -1, pad;
    }

    /** The database lookup; a live entry replaces the destination. */
    method Redirect(skb: Skb, addr: NetAddr, now: int) returns (found: bool)
      requires db.Valid() && skb.Valid() && |skb.Data()| >= 14
      modifies skb`buf, db`view, db.repr`useCount
      ensures db.Valid() && skb.Valid() && |skb.buf| == |old(skb.buf)| && db.view == LookupView(old(db.view), addr, now, db.hz)
      ensures found == (addr in old(db.view))
      ensures skb.Data() == Put(old(skb.Data()), 0, Destination(old(db.view), addr, old(skb.Data())[..6], now, db.hz))
    {
      var live, mac;
      found, live, mac := db.LookupAndReplace(addr, now);
      if live {
        PutOctets(skb, 0, mac);
      } else {
        assert Put(skb.Data(), 0, skb.Data()[..6]) == skb.Data();
      }
    }

    method LookupIp(skb: Skb, now: int, ghost x: Discovery) returns (ret: int)
      requires db.Valid() && skb.Valid() && LongEnough(skb.Data()) && Protocol(skb.Data()) == ETH_P_IP
      modifies skb, db`view, db.repr`useCount
      ensures db.Valid() && skb.Valid() && skb.head == old(skb.head)
      ensures Effect(db.view, skb.Data(), ret) == Look(old(db.view), old(skb.Data()), brMac, now, db.hz, x)
    {
      hide LookupView, Aged;
      var d := skb.Data();
      if MalformedIp(d) {
        return -1;
      }
      var found := Redirect(skb, Ipv4Addr(d[30..34]), now);
      if !found {
        ghost var e := skb.Data();
        PutOctets(skb, 0, if d[33] == 0xff then BROADCAST else brMac);
        PutTwice(d, e[..6], skb.Data()[..6]);
      }
      ret := 0;
    }

    method LookupArp(skb: Skb, now: int, ghost x: Discovery) returns (ret: int)
      requires db.Valid() && skb.Valid() && LongEnough(skb.Data()) && Protocol(skb.Data()) == ETH_P_ARP
      modifies skb, db`view, db.repr`useCount
      ensures db.Valid() && skb.Valid() && skb.head == old(skb.head)
      ensures Effect(db.view, skb.Data(), ret) == Look(old(db.view), old(skb.Data()), brMac, now, db.hz, x)
    {
      hide LookupView, Destination, Put;
      var d := skb.Data();
      if !ArpForIp(d) {
        return -1;
      }
      var hln, pln := d[18] as int, d[19] as int;
      var p := ARP + 2 * hln + pln;
      var found := Redirect(skb, Ipv4Addr(d[p..p + 4]), now);
      PutFront(d, Destination(old(db.view), Ipv4Addr(d[p..p + 4]), d[..6], now, db.hz));
      PutOctets(skb, ARP + hln + pln, skb.Data()[..6]);
      ret := 0;
    }

    method LookupPppoe(skb: Skb, now: int, ghost x: Discovery) returns (ret: int)
      requires db.Valid() && skb.Valid() && LongEnough(skb.Data()) && IsPppoe(skb.Data()) && (IsReply(skb.Data()) ==> x.Fits(skb.Data()))
      modifies skb, db`view, db.repr`useCount
      ensures db.Valid() && skb.Valid() && skb.head == old(skb.head)
      ensures Effect(db.view, skb.Data(), ret) == Look(old(db.view), old(skb.Data()), brMac, now, db.hz, x)
    {
      hide LookupView, Aged, AfterLookup, Encode;
      var d := skb.Data();
      if IsReply(d) {
        var outcome, header' := LookupRelay(skb, x.header, x.tags, x.pad);
        return if outcome == Forwarded then 0 else -1;
      }
      if d[16..18] == [0, 0] {
        return -1;
      }
      var found := Redirect(skb, PppoeAddr(d[6..12], d[16..18]), now);
      ret := 0;
    }

    method HandleLookup(skb: Skb, now: int, ghost x: Discovery) returns (ret: int)
      requires db.Valid() && skb.Valid() && LongEnough(skb.Data())
      requires IsPppoe(skb.Data()) && IsReply(skb.Data()) ==> x.Fits(skb.Data())
      modifies skb, db`view, db.repr`useCount
      ensures db.Valid() && skb.Valid() && skb.head == old(skb.head)
      ensures Effect(db.view, skb.Data(), ret) == Look(old(db.view), old(skb.Data()), brMac, now, db.hz, x)
    {
      hide LookupView, Aged, AfterLookup, Encode;
      var d := skb.Data();
      var protocol := Protocol(d);
      if protocol == ETH_P_IP {
        ret := LookupIp(skb, now, x);
      } else if protocol == ETH_P_ARP {
        ret := LookupArp(skb, now, x);
      } else if IsPppoe(d) {
        ret := LookupPppoe(skb, now, x);
      } else {
        ret := if protocol == ETH_P_EAP || protocol == [0xe2, 0xae] || protocol == [0xe2, 0xaf] then 0 else -1;
      }
    }

    ghost predicate Ready(x: Discovery, d: seq<Byte>) {
      LongEnough(d) && (IsPppoe(d) && IsReply(d) ==> x.Fits(d))
    }

    /** What handling an untagged unicast frame from the air does. */
    ghost function Untouched(v: View, d: seq<Byte>, now: int, x: Discovery): (e: Effect)
      requires Ready(x, d)
      reads this, db
      ensures |e.data| >= 12
    {
      if !nat25Disable && !shortcutDisable && Protocol(d) == ETH_P_IP && d[30..34] == db.scdbIp
      then Effect(v, Put(d, 0, db.scdbMac), 0)
      else if !nat25Disable || (Protocol(d) == ETH_P_IP && d[30..34] == brIp) || (Protocol(d) == ETH_P_ARP && d[38..42] == brIp)
      then Look(v, d, brMac, now, db.hz, x)
      else Effect(v, d, 0)
    }

    method HandleUntagged(skb: Skb, now: int, ghost x: Discovery) returns (ret: int)
      requires db.Valid() && skb.Valid() && Ready(x, skb.Data())
      modifies skb, db`view, db.repr`useCount
      ensures db.Valid() && skb.Valid() && skb.head == old(skb.head)
      ensures Effect(db.view, skb.Data(), ret) == old(Untouched(db.view, skb.Data(), now, x))
    {
      hide Look;
      var d := skb.Data();
      ret := 0;
      if !nat25Disable {
        if !shortcutDisable && Protocol(d) == ETH_P_IP && d[30..34] == db.scdbIp {
          PutOctets(skb, 0, db.scdbMac);
        } else {
          ret := HandleLookup(skb, now, x);
        }
      } else if (Protocol(d) == ETH_P_IP && d[30..34] == brIp) || (Protocol(d) == ETH_P_ARP && d[38..42] == brIp) {
        ret := HandleLookup(skb, now, x);
      }
    }

    /** Handling a tagged frame is handling it without the tag and putting the tag back. */
    method HandleFrame(skb: Skb, now: int, ghost x: Discovery) returns (ret: int)
      requires db.Valid() && skb.Valid() && |skb.Data()| >= 14
      requires skb.Data()[0] % 2 == 0 ==> (if IsTagged(skb.Data()) then Ready(x, Untagged(skb.Data())) else Ready(x, skb.Data()))
      modifies skb, db`view, db.repr`useCount
      ensures db.Valid() && skb.Valid() && skb.head == old(skb.head)
      ensures var d := old(skb.Data());
        if d[0] % 2 == 1 then Effect(db.view, skb.Data(), ret) == Effect(old(db.view), d, 0)
        else if IsTagged(d) then
          var e := old(Untouched(db.view, Untagged(skb.Data()), now, x));
          Effect(db.view, skb.Data(), ret) == Effect(e.view, Tagged(e.data, d[14..16]), e.ret)
        else Effect(db.view, skb.Data(), ret) == old(Untouched(db.view, skb.Data(), now, x))
    {
      hide Look, Untouched;
      ret := 0;
      var d := skb.Data();
      if d[0] % 2 == 0 {
        var tagged := d[12..14] == ETH_P_8021Q && |d| >= 16;
        if tagged {
          Untag(skb);
        }
        ret := HandleUntagged(skb, now, x);
        if tagged {
          Retag(skb, d[14..16]);
        }
      }
    }
  }

  lemma PutFront(d: seq<Byte>, a: seq<Byte>)
    requires |a| <= |d|
    ensures Put(d, 0, a)[..|a|] == a
  {
  }

  lemma PutBehind(d: seq<Byte>, pos: nat, a: seq<Byte>)
    requires 20 <= pos && pos + |a| <= |d|
    ensures var e := Put(d, pos, a); e[..12] == d[..12] && e[6..12] == d[6..12] && e[18] == d[18]
  {
  }

  lemma PutTwice(d: seq<Byte>, a: seq<Byte>, b: seq<Byte>)
    requires |a| == |b| <= |d|
    ensures Put(Put(d, 0, a), 0, b) == Put(d, 0, b)
  {
  }
}
