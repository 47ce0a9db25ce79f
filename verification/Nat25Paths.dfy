/** Who is recorded and who is found, told from the octets of the frames, over whole runs of traffic (core/rtw_br_ext.c). */
module Nat25Paths {
  import opened Octets
  import opened Nat25Db
  import opened Pppoe
  import opened Nat25Frames

  /** Who the bridge keeps apart: the owner of an IPv4 address, or of a session with an access concentrator. */
  datatype Client = IpClient(ip: seq<Byte>) | PppClient(ac: seq<Byte>, sid: seq<Byte>)

  /** The sender's IPv4 address in an ARP packet, read behind the hardware address that was just written. */
  function ArpSender(f: seq<Byte>, myMac: Mac): seq<Byte>
    requires LongEnough(f) && f[12..14] == [0x08, 0x06]
  {
    var out, p := f[..22] + myMac + f[28..], 22 + f[18] as int;
    out[p..p + 4]
  }

  /** A frame from a client that is recorded: its source is not 0.0.0.0, or it is an ARP packet for IPv4, or it belongs
      to a session. */
  predicate SentBy(f: seq<Byte>, myMac: Mac, c: Client)
    requires LongEnough(f)
  {
    match c
    case IpClient(ip) =>
      (f[12..14] == [0x08, 0x00] && 4 * (f[14] % 16) < |f| && f[26..30] == ip && ip != [0, 0, 0, 0])
      || (f[12..14] == [0x08, 0x06] && f[16..18] == [0x08, 0x00] && ArpSender(f, myMac) == ip)
    case PppClient(ac, sid) =>
      (f[12..14] == [0x88, 0x63] || f[12..14] == [0x88, 0x64]) && f[..6] == ac && f[16..18] == sid && sid != [0, 0]
  }

  /** A frame from the air for that client; codes 0x07 and 0x65 are offers and confirmations of the discovery stage. */
  predicate RepliesTo(g: seq<Byte>, c: Client)
    requires LongEnough(g)
  {
    match c
    case IpClient(ip) =>
      (g[12..14] == [0x08, 0x00] && 4 * (g[14] % 16) < |g| && g[30..34] == ip)
      || (g[12..14] == [0x08, 0x06] && g[16..18] == [0x08, 0x00] && var p := 22 + 2 * g[18] as int + g[19] as int; g[p..p + 4] == ip)
    case PppClient(ac, sid) =>
      (g[12..14] == [0x88, 0x63] || g[12..14] == [0x88, 0x64]) && g[15] != 0x07 && g[15] != 0x65
      && g[6..12] == ac && g[16..18] == sid && sid != [0, 0]
  }

  /** The address a client has in the database. */
  function AddressOf(c: Client): (a: seq<Byte>) {
    match c
    case IpClient(ip) => [1, 0, 0, 0, 0, 0, 0] + ip
    case PppClient(ac, sid) => [5] + sid + ac + [0, 0]
  }

  // ----- one frame

  /** A recorded frame enters its client, with its MAC and the time, and keeps the uses of one known; every other frame
      leaves the database alone. */
  lemma RecordMeaning(v: View, f: seq<Byte>, myMac: Mac, now: int)
    requires LongEnough(f)
    ensures forall c | SentBy(f, myMac, c) :: var a := AddressOf(c);
      |a| == 11 && Recorded(v, f, myMac, now) == v[a := Rec(f[6..12], now, if a in v then v[a].use else 1)]
    ensures (forall c :: !SentBy(f, myMac, c)) ==> Recorded(v, f, myMac, now) == v
  {
    if InsertKey(f, myMac).Key? {
      if f[12..14] == [0x08, 0x00] {
        assert SentBy(f, myMac, IpClient(f[26..30]));
      } else if f[12..14] == [0x08, 0x06] {
        assert SentBy(f, myMac, IpClient(ArpSender(f, myMac)));
      } else {
        assert SentBy(f, myMac, PppClient(f[..6], f[16..18]));
      }
    }
  }

  /** What a client's frame becomes on its way out, and which are refused: the six octets behind the ARP header become
      the station's address, nothing else changes, and frames of other protocols, with a header length beyond the frame
      or with ARP for another protocol are refused. */
  lemma OutgoingMeaning(f: seq<Byte>, myMac: Mac)
    requires LongEnough(f)
    ensures var e, arp := Outgoing(f, myMac), f[12..14] == [0x08, 0x06] && f[16..18] == [0x08, 0x00];
      |e| == |f| && (arp ==> e[22..28] == myMac) && forall j | 0 <= j < |f| && !(arp && 22 <= j < 28) :: e[j] == f[j]
    ensures !IsDiscovery(f) ==>
      InsertRet(f, myMac) ==
        if (f[12..14] == [0x08, 0x00] && 4 * (f[14] % 16) < |f|) || (f[12..14] == [0x08, 0x06] && f[16..18] == [0x08, 0x00])
           || f[12..14] == [0x88, 0x63] || f[12..14] == [0x88, 0x64]
           || f[12..14] == [0x88, 0x8e] || f[12..14] == [0xe2, 0xae] || f[12..14] == [0xe2, 0xaf]
        then 0 else -1
  {
  }

  /** Where a frame for client `c` goes: to its MAC while its entry is younger than 300 seconds, which counts as a use;
      unchanged when the entry is older; and of unknown clients IPv4 frames to everyone if the last octet of the address
      is 255 and to the bridge otherwise, others unchanged. */
  function GoesTo(v: View, g: seq<Byte>, c: Client, brMac: Mac, now: int, hz: nat): Mac
    requires |g| >= 34 || (|g| >= 14 && g[12..14] != [0x08, 0x00])
  {
    var a := AddressOf(c);
    if |a| == 11 && a in v then if now - v[a].seen < 300 * hz then v[a].mac else g[..6]
    else if g[12..14] == [0x08, 0x00] then if g[33] == 255 then [255, 255, 255, 255, 255, 255] else brMac
    else g[..6]
  }

  /** The frame with another destination, and for ARP with that as the target's hardware address too. */
  function SentTo(g: seq<Byte>, da: Mac): seq<Byte>
    requires LongEnough(g)
  {
    var e := da + g[6..];
    if g[12..14] == [0x08, 0x06] then
      var p := 22 + g[18] as int + g[19] as int;
      e[..p] + da + e[p + 6..]
    else e
  }

  lemma LookMeaning(v: View, g: seq<Byte>, c: Client, brMac: Mac, now: int, hz: nat, x: Discovery)
    requires LongEnough(g) && RepliesTo(g, c)
    ensures var e, a := Look(v, g, brMac, now, hz, x), AddressOf(c);
      |a| == 11 && e.ret == 0 && e.data == SentTo(g, GoesTo(v, g, c, brMac, now, hz))
      && e.view == if a in v && now - v[a].seen < 300 * hz then v[a := v[a].(use := v[a].use + 1)] else v
  {
    KeyOfReply(g, c);
    PutIsSent(g, GoesTo(v, g, c, brMac, now, hz));
    hide LookupKey, AddressOf, RepliesTo, Put, SentTo, MalformedIp, LongEnough;
  }

  lemma KeyOfReply(g: seq<Byte>, c: Client)
    requires LongEnough(g) && RepliesTo(g, c)
    ensures |AddressOf(c)| == 11 && LookupKey(g) == Key(AddressOf(c))
  {
  }

  lemma PutIsSent(g: seq<Byte>, da: Mac)
    requires LongEnough(g)
    ensures Put(g, 0, da) == da + g[6..]
    ensures SentTo(g, da) == if g[12..14] == [0x08, 0x06] then Put(Put(g, 0, da), 22 + g[18] as int + g[19] as int, da) else Put(g, 0, da)
  {
  }

  /** A frame that replies to no client leaves the database alone; outside the discovery stage it is passed on unchanged
      if it is of one of three protocols, and refused otherwise. */
  lemma LookElsewhere(v: View, g: seq<Byte>, brMac: Mac, now: int, hz: nat, x: Discovery)
    requires LongEnough(g) && (IsPppoe(g) && IsReply(g) ==> x.Fits(g)) && forall c :: !RepliesTo(g, c)
    ensures Look(v, g, brMac, now, hz, x).view == v
    ensures !(IsPppoe(g) && IsReply(g)) ==>
      Look(v, g, brMac, now, hz, x) ==
        Effect(v, g, if g[12..14] == [0x88, 0x8e] || g[12..14] == [0xe2, 0xae] || g[12..14] == [0xe2, 0xaf] then 0 else -1)
  {
    if LookupKey(g).Key? {
      var c := ClientOfReply(g);
      assert false;
    }
  }

  lemma ClientOfReply(g: seq<Byte>) returns (c: Client)
    requires LongEnough(g) && LookupKey(g).Key?
    ensures RepliesTo(g, c)
  {
    if g[12..14] == [0x08, 0x00] {
      c := IpClient(g[30..34]);
    } else if g[12..14] == [0x08, 0x06] {
      var p := 22 + 2 * g[18] as int + g[19] as int;
      c := IpClient(g[p..p + 4]);
    } else {
      c := PppClient(g[6..12], g[16..18]);
    }
  }

  // ----- runs of traffic

  datatype Traffic = FromClient(f: seq<Byte>, now: int) | FromAir(g: seq<Byte>, now: int, x: Discovery) | ExpirePass(now: int)

  ghost predicate Readable(e: Traffic) {
    match e
    case FromClient(f, _) => LongEnough(f)
    case FromAir(g, _, x) => LongEnough(g) && (IsPppoe(g) && IsReply(g) ==> x.Fits(g))
    case ExpirePass(_) => true
  }

  /** The bridge: its own address, the address of the bridge device, and ticks per second. */
  datatype Config = Config(myMac: Mac, brMac: Mac, hz: nat)

  ghost function After(v: View, e: Traffic, cfg: Config): View
    requires Readable(e)
  {
    match e
    case FromClient(f, now) => Recorded(v, f, cfg.myMac, now)
    case FromAir(g, now, x) => Look(v, g, cfg.brMac, now, cfg.hz, x).view
    case ExpirePass(now) => ExpireView(v, v.Keys, now, cfg.hz)
  }

  ghost function Run(v: View, es: seq<Traffic>, cfg: Config): View
    requires forall i | 0 <= i < |es| :: Readable(es[i])
    decreases |es|
  {
    if es == [] then v else After(Run(v, es[..|es| - 1], cfg), es[|es| - 1], cfg)
  }

  /** A client has the length of its parts. */
  predicate Whole(c: Client) {
    match c
    case IpClient(ip) => |ip| == 4
    case PppClient(ac, sid) => |ac| == 6 && |sid| == 2
  }

  lemma AddressIsOwn(c: Client, d: Client)
    requires Whole(c) && Whole(d) && AddressOf(c) == AddressOf(d)
    ensures c == d
  {
    var a := AddressOf(c);
    match c
    case IpClient(ip) => assert a[0] == 1 && a[7..] == ip; assert d.IpClient? && a[7..] == d.ip;
    case PppClient(ac, sid) => assert a[0] == 5 && a[1..3] == sid && a[3..9] == ac; assert d.PppClient? && a[1..3] == d.sid && a[3..9] == d.ac;
  }

  lemma SendersAreWhole(f: seq<Byte>, myMac: Mac, c: Client)
    requires LongEnough(f) && SentBy(f, myMac, c)
    ensures Whole(c)
  {
  }

  /** Another client's frame does not touch the entry of client `c`. */
  lemma OthersDoNotRecord(v: View, f: seq<Byte>, myMac: Mac, now: int, c: Client)
    requires LongEnough(f) && Whole(c) && !SentBy(f, myMac, c)
    ensures var a, w := AddressOf(c), Recorded(v, f, myMac, now); |a| == 11 && (a in w <==> a in v) && (a in v ==> w[a] == v[a])
  {
    RecordMeaning(v, f, myMac, now);
    hide Recorded, SentBy;
    if d :| SentBy(f, myMac, d) {
      SendersAreWhole(f, myMac, d);
      if AddressOf(d) == AddressOf(c) {
        AddressIsOwn(c, d);
        assert false;
      }
    }
  }

  /** Frames from the air change only the uses of an entry, never its MAC, its time or who is known, and never to less. */
  lemma LookupsOnlyCount(v: View, g: seq<Byte>, brMac: Mac, now: int, hz: nat, x: Discovery)
    requires LongEnough(g) && (IsPppoe(g) && IsReply(g) ==> x.Fits(g))
    ensures var w := Look(v, g, brMac, now, hz, x).view;
      w.Keys == v.Keys && forall a | a in v :: w[a] == v[a].(use := w[a].use) && w[a].use >= v[a].use
  {
    if c :| RepliesTo(g, c) {
      LookMeaning(v, g, c, brMac, now, hz, x);
    } else {
      LookElsewhere(v, g, brMac, now, hz, x);
    }
    hide Look;
  }

  /** Nothing in the traffic is from client `c`. */
  ghost predicate Quiet(es: seq<Traffic>, c: Client, cfg: Config) {
    forall i | 0 <= i < |es| :: Readable(es[i]) && (es[i].FromClient? ==> !SentBy(es[i].f, cfg.myMac, c))
  }

  ghost predicate IsYoung(es: seq<Traffic>, t: int, hz: nat) {
    forall i | 0 <= i < |es| :: es[i].now < t + 300 * hz
  }

  lemma {:induction false} ClientStays(v: View, es: seq<Traffic>, c: Client, t: int, cfg: Config)
    requires Quiet(es, c, cfg) && Whole(c) && IsYoung(es, t, cfg.hz)
    requires |AddressOf(c)| == 11 && AddressOf(c) in v && v[AddressOf(c)].seen == t && v[AddressOf(c)].use >= 1
    ensures var w, a := Run(v, es, cfg), AddressOf(c); a in w && w[a].mac == v[a].mac && w[a].seen == t && w[a].use >= 1
    decreases |es|
  {
    if es != [] {
      var init, e := es[..|es| - 1], es[|es| - 1];
      assert Readable(e) && e.now < t + 300 * cfg.hz;
      ClientStays(v, init, c, t, cfg);
      var w := Run(v, init, cfg);
      match e
      case FromClient(f, now) => OthersDoNotRecord(w, f, cfg.myMac, now, c);
      case FromAir(g, now, x) => LookupsOnlyCount(w, g, cfg.brMac, now, cfg.hz, x);
      case ExpirePass(now) =>
      hide Recorded, Look, SentBy, AddressOf;
    }
  }

  /** Who never sent anything since the bridge started is unknown. */
  lemma {:induction false} StrangerStays(es: seq<Traffic>, c: Client, cfg: Config)
    requires Quiet(es, c, cfg) && Whole(c)
    ensures |AddressOf(c)| == 11 && AddressOf(c) !in Run(map[], es, cfg)
    decreases |es|
  {
    if es != [] {
      var init, e := es[..|es| - 1], es[|es| - 1];
      assert Readable(e);
      StrangerStays(init, c, cfg);
      var w := Run(map[], init, cfg);
      match e
      case FromClient(f, now) => OthersDoNotRecord(w, f, cfg.myMac, now, c);
      case FromAir(g, now, x) => LookupsOnlyCount(w, g, cfg.brMac, now, cfg.hz, x);
      case ExpirePass(now) =>
      hide Recorded, Look, SentBy, AddressOf;
    }
  }

  /** The return path, for IPv4, ARP and PPPoE sessions: within 300 seconds of a client's frame, a frame from the air
      for that client goes to the MAC the client's frame came from, and an ARP reply tells that MAC as its target.
      Nothing else in it changes. Any traffic may pass in between except another frame of the same client. */
  lemma ReturnPath(v: View, f: seq<Byte>, t: int, es: seq<Traffic>, g: seq<Byte>, now: int, c: Client, cfg: Config, x: Discovery)
    requires LongEnough(f) && SentBy(f, cfg.myMac, c) && LongEnough(g) && RepliesTo(g, c)
    requires forall a | a in v :: v[a].use >= 1
    requires Quiet(es, c, cfg) && IsYoung(es, t, cfg.hz) && now < t + 300 * cfg.hz
    ensures var client: Mac := f[6..12];
      var e := Look(Run(Recorded(v, f, cfg.myMac, t), es, cfg), g, cfg.brMac, now, cfg.hz, x);
      e.ret == 0 && e.data == SentTo(g, client)
  {
    hide Look, Recorded, Run, SentBy, RepliesTo, SentTo, IsYoung;
    RecordMeaning(v, f, cfg.myMac, t);
    SendersAreWhole(f, cfg.myMac, c);
    var w := Recorded(v, f, cfg.myMac, t);
    ClientStays(w, es, c, t, cfg);
    LookMeaning(Run(w, es, cfg), g, c, cfg.brMac, now, cfg.hz, x);
  }

  /** A frame for somebody who never sent one: an IPv4 frame goes to everyone if the last octet of its address is 255
      and to the bridge otherwise, any other keeps its destination. */
  lemma StrangersGoToBridge(es: seq<Traffic>, g: seq<Byte>, now: int, c: Client, cfg: Config, x: Discovery)
    requires LongEnough(g) && RepliesTo(g, c) && Quiet(es, c, cfg)
    ensures var e := Look(Run(map[], es, cfg), g, cfg.brMac, now, cfg.hz, x);
      e.ret == 0 && e.view == Run(map[], es, cfg)
      && e.data == SentTo(g, if g[12..14] != [0x08, 0x00] then g[..6] else if g[33] == 255 then [255, 255, 255, 255, 255, 255] else cfg.brMac)
  {
    assert Whole(c);
    StrangerStays(es, c, cfg);
    LookMeaning(Run(map[], es, cfg), g, c, cfg.brMac, now, cfg.hz, x);
    hide Run, Look, RepliesTo, SentTo;
  }

  /** The same without the words `SentTo`: the first six octets, for ARP also the target's hardware address, and nothing
      else. */
  lemma SentToChanges(g: seq<Byte>, da: Mac)
    requires LongEnough(g)
    ensures var e, arp := SentTo(g, da), g[12..14] == [0x08, 0x06];
      |e| == |g| && e[..6] == da && (arp ==> var p := 22 + g[18] as int + g[19] as int; e[p..p + 6] == da)
      && forall j | 6 <= j < |g| && !(arp && 22 + g[18] as int + g[19] as int <= j < 28 + g[18] as int + g[19] as int) :: e[j] == g[j]
  {
  }

  // ----- the discovery stage

  /** The relay tag this driver adds: two octets of mark, the client's MAC and the client's own relay data. */
  function MarkedTag(mac: Mac, own: seq<Byte>): Tag {
    Tag(0x0110, [0x81, 0x86] + mac + own)
  }

  function OwnTag(own: seq<Byte>): seq<Tag> {
    if own == [] then [] else [Tag(0x0110, own)]
  }

  /** Requests to start (0x09) and for a session (0x19) are forwarded, on a host with network order, exactly when the
      client's relay data has at most 28 octets and there is room behind the frame once its tag is gone: with the marked
      tag in front of the client's other tags and its own first relay tag moved into it. Longer relay data and every
      other code are refused on any host. */
  lemma DiscoveryRequest(bigEndian: bool, x: Discovery, d: seq<Byte>, room: nat, ret: int, e: seq<Byte>, pad: seq<Byte>, pre: seq<Tag>, own: seq<Byte>, post: seq<Tag>)
    requires Insertable(x, d) && IsDiscovery(d) && RelayInserted(bigEndian, x, d, room, ret, e, pad)
    requires d[15] == 0x09 || d[15] == 0x19 ==> x.tags == pre + OwnTag(own) + post && (own == [] ==> post == []) && forall t | t in pre :: t.ty != 0x0110
    ensures d[15] != 0x09 && d[15] != 0x19 ==> ret == -1 && e == d
    ensures (d[15] == 0x09 || d[15] == 0x19) && |own| > 28 ==> ret == -1
    ensures (d[15] == 0x09 || d[15] == 0x19) && bigEndian ==>
      if |own| <= 28 && (if own == [] then 12 <= room else 8 <= room)
      then ret == 0 && IsFrameOf(e, x.header, [MarkedTag(d[6..12], own)] + (pre + post), pad) && |pad| == |x.pad|
      else ret == -1
  {
    if d[15] == 0x09 || d[15] == 0x19 {
      IndexOfIsFirst(x.tags, PTT_RELAY_SID, |pre|);
      assert own != [] ==> x.tags[|pre|] == Tag(0x0110, own) && x.tags[..|pre|] == pre && x.tags[|pre| + 1..] == post;
      assert own == [] ==> x.tags == pre;
      assert RelayData(x.tags) == own && WithoutRelay(x.tags) == pre + post;
      WithoutRelaySmaller(pre, own, post);
      hide Encode;
    }
  }

  lemma WithoutRelaySmaller(pre: seq<Tag>, own: seq<Byte>, post: seq<Tag>)
    requires ValidTags(pre + OwnTag(own) + post)
    ensures ValidTags(pre + post)
    ensures |Encode(pre + OwnTag(own) + post)| == |Encode(pre + post)| + if own == [] then 0 else 4 + |own|
  {
    hide Encode;
    assert ValidTags(pre) && ValidTags(post) by {
      assert forall i | 0 <= i < |pre| :: pre[i] == (pre + OwnTag(own) + post)[i];
      assert forall i | 0 <= i < |post| :: post[i] == (pre + OwnTag(own) + post)[|pre + OwnTag(own)| + i];
    }
    EncodeConcat(pre, post);
    if own != [] {
      assert (pre + OwnTag(own) + post)[|pre|] == Tag(0x0110, own);
      EncodeAround(pre, Tag(0x0110, own), post);
      TagSize(Tag(0x0110, own));
    } else {
      assert pre + OwnTag(own) + post == pre + post;
    }
  }

  /** Offers (0x07) and confirmations (0x65) that echo a marked tag go to the client it names, with the client's own
      relay data left in its place and the other tags as they were. */
  lemma DiscoveryReply(v: View, x: Discovery, g: seq<Byte>, brMac: Mac, now: int, hz: nat, pre: seq<Tag>, mac: Mac, own: seq<Byte>, post: seq<Tag>)
    requires LongEnough(g) && x.Fits(g) && (g[12..14] == [0x88, 0x63] || g[12..14] == [0x88, 0x64]) && (g[15] == 0x07 || g[15] == 0x65)
    requires x.tags == pre + [MarkedTag(mac, own)] + post && forall t | t in pre :: t.ty != 0x0110
    requires ValidTags(pre + OwnTag(own) + post) && |Encode(pre + OwnTag(own) + post)| < 0x10000
    ensures Look(v, g, brMac, now, hz, x) == Effect(v, Frame(mac + x.header[6..], pre + OwnTag(own) + post, x.pad), 0)
  {
    hide Encode;
    var tags, m := x.tags, MarkedTag(mac, own);
    IndexOfIsFirst(tags, PTT_RELAY_SID, |pre|);
    assert tags[|pre|] == m && tags[..|pre|] == pre && tags[|pre| + 1..] == post;
    assert m.value[..2] == [0x81, 0x86] && m.value[2..8] == mac && m.value[8..] == own;
    assert AfterLookup(tags) == Found(mac, pre + OwnTag(own) + post);
  }

  // ----- the bridge

  /** What the bridge does with an untagged unicast frame: an IPv4 frame to the address of the shortcut goes to its MAC
      without a lookup; every other one is looked up; with NAT2.5 disabled only IPv4 frames and ARP packets to the
      bridge's own address are, and the rest passes. */
  lemma BridgeCases(b: Bridge, v: View, d: seq<Byte>, now: int, x: Discovery)
    requires b.Ready(x, d)
    ensures var e := b.Untouched(v, d, now, x);
      if b.nat25Disable then
        if (d[12..14] == [0x08, 0x00] && d[30..34] == b.brIp) || (d[12..14] == [0x08, 0x06] && d[38..42] == b.brIp)
        then e == Look(v, d, b.brMac, now, b.db.hz, x) else e == Effect(v, d, 0)
      else if !b.shortcutDisable && d[12..14] == [0x08, 0x00] && d[30..34] == b.db.scdbIp
      then e == Effect(v, b.db.scdbMac + d[6..], 0)
      else e == Look(v, d, b.brMac, now, b.db.hz, x)
  {
    hide Look;
  }
}
