/** PPPoE relay tags (core/rtw_br_ext.c; RFC 2516, section 5 and Appendix A). */
module Pppoe {
  import opened Octets
  import opened Nat25Db

  const PTT_RELAY_SID := 0x0110
  const TAG_HDR_LEN := 4
  const MAGIC: seq<Byte> := [0x81, 0x86]
  const RELAY_LEN := 8 // magic code and MAC address
  const TAG_BUF_SIZE := 40
  const PAYLOAD := 20 // offset of the tags in the frame
  const LENGTH := 18 // offset of the length field

  lemma WindowShrinks(b: seq<Byte>, h: nat, t: nat, n: nat)
    requires h + n <= t <= |b|
    ensures b[h..t - n] == b[h..t][..t - h - n]
  {
  }

  lemma WindowGrows(b: seq<Byte>, h: nat, t: nat, n: nat)
    requires h <= t && t + n <= |b|
    ensures b[h..t + n] == b[h..t] + b[t..t + n]
  {
  }

  datatype Tag = Tag(ty: U16, value: seq<Byte>)

  predicate ValidTags(tags: seq<Tag>) {
    forall i | 0 <= i < |tags| :: |tags[i].value| < 0x10000
  }

  function EncodeTag(t: Tag): seq<Byte>
    requires |t.value| < 0x10000
  {
    U16Octets(t.ty) + U16Octets(|t.value|) + t.value
  }

  function Encode(tags: seq<Tag>): seq<Byte>
    requires ValidTags(tags)
  {
    if tags == [] then [] else EncodeTag(tags[0]) + Encode(tags[1..])
  }

  /** Ethernet and PPPoE headers up to the length field, the length field, the tags, and padding. */
  function Frame(header: seq<Byte>, tags: seq<Tag>, pad: seq<Byte>): seq<Byte>
    requires |header| == LENGTH && ValidTags(tags) && |Encode(tags)| < 0x10000
  {
    header + U16Octets(|Encode(tags)|) + Encode(tags) + pad
  }

  function IndexFrom(tags: seq<Tag>, ty: U16, i: nat): (r: nat)
    requires i <= |tags|
    ensures i <= r <= |tags| && (forall j | i <= j < r :: tags[j].ty != ty) && (r < |tags| ==> tags[r].ty == ty)
    decreases |tags| - i
  {
    if i == |tags| || tags[i].ty == ty then i else IndexFrom(tags, ty, i + 1)
  }

  /** Position of the first tag of a type, or the number of tags. */
  function IndexOf(tags: seq<Tag>, ty: U16): nat {
    IndexFrom(tags, ty, 0)
  }

  lemma {:induction false} EncodeConcat(a: seq<Tag>, b: seq<Tag>)
    requires ValidTags(a) && ValidTags(b)
    ensures ValidTags(a + b) && Encode(a + b) == Encode(a) + Encode(b)
  {
    hide EncodeTag;
    if a == [] {
      assert a + b == b;
    } else {
      EncodeConcat(a[1..], b);
      assert (a + b)[1..] == a[1..] + b;
      assert EncodeTag(a[0]) + (Encode(a[1..]) + Encode(b)) == (EncodeTag(a[0]) + Encode(a[1..])) + Encode(b);
    }
  }

  lemma EncodeCons(t: Tag, rest: seq<Tag>)
    requires |t.value| < 0x10000 && ValidTags(rest)
    ensures ValidTags([t] + rest) && Encode([t] + rest) == EncodeTag(t) + Encode(rest)
  {
    assert ([t] + rest)[1..] == rest;
  }

  /** A tag list around one of its tags. */
  lemma EncodeAround(a: seq<Tag>, t: Tag, b: seq<Tag>)
    requires ValidTags(a) && |t.value| < 0x10000 && ValidTags(b)
    ensures ValidTags(a + [t] + b) && Encode(a + [t] + b) == Encode(a) + EncodeTag(t) + Encode(b)
  {
    EncodeCons(t, b);
    EncodeConcat(a, [t] + b);
    assert a + ([t] + b) == a + [t] + b;
  }

  lemma IndexOfIsFirst(tags: seq<Tag>, ty: U16, i: nat)
    requires i <= |tags| && (forall j | 0 <= j < i :: tags[j].ty != ty) && (i < |tags| ==> tags[i].ty == ty)
    ensures IndexOf(tags, ty) == i
  {
  }

  // ----- the packet buffer

  /** Overwriting part of a buffer, seen through a window that contains the part. */
  lemma SpliceInWindow(b: seq<Byte>, h: nat, t: nat, p: nat, o: seq<Byte>)
    requires h <= p && p + |o| <= t <= |b|
    ensures (b[..p] + o + b[p + |o|..])[h..t] == b[h..t][..p - h] + o + b[h..t][p - h + |o|..]
  {
    var x, y, z, w := b[..h], b[h..p], b[p + |o|..t], b[t..];
    assert b[..p] + o + b[p + |o|..] == x + (y + o + z) + w;
    assert b[h..t][..p - h] == y && b[h..t][p - h + |o|..] == z;
  }

  lemma WriteInWindow(b: seq<Byte>, h: nat, t: nat, p: nat, o: seq<Byte>, x: seq<Byte>, y: seq<Byte>, z: seq<Byte>)
    requires h <= t <= |b| && b[h..t] == x + y + z && p == h + |x| && |o| == |y|
    ensures (b[..p] + o + b[p + |o|..])[h..t] == x + o + z
  {
    SpliceInWindow(b, h, t, p, o);
    assert (x + y + z)[..|x|] == x && (x + y + z)[|x| + |y|..] == z;
  }

  /** The data of the buffer is buf[head..tail]; the rest is head and tail room. */
  class Skb {
    var buf: seq<Byte>
    var head: nat
    var tail: nat

    ghost predicate Valid()
      reads this
    {
      head <= tail <= |buf|
    }

    function Data(): seq<Byte>
      requires head <= tail <= |buf|
      reads this
    {
      buf[head..tail]
    }

    constructor (headroom: seq<Byte>, data: seq<Byte>, tailroom: seq<Byte>)
      ensures Valid() && Data() == data && |buf| - tail == |tailroom| && head == |headroom|
    {
      buf, head, tail := headroom + data + tailroom, |headroom|, |headroom| + |data|;
    }

    /** Overwrites octets of the data, as memcpy and memmove do. */
    method Write(pos: nat, octets: seq<Byte>, ghost x: seq<Byte>, ghost y: seq<Byte>, ghost z: seq<Byte>)
      requires Valid() && Data() == x + y + z && pos == |x| && |octets| == |y|
      modifies this`buf
      ensures Valid() && |buf| == |old(buf)| && Data() == x + octets + z
    {
      WriteInWindow(buf, head, tail, head + pos, octets, x, y, z);
      buf := buf[..head + pos] + octets + buf[head + pos + |octets|..];
    }

    /** Removes octets from the data and closes the gap, unless they reach past its end. */
    method PullAndMerge(pos: nat, len: nat, ghost x: seq<Byte>, ghost y: seq<Byte>, ghost z: seq<Byte>) returns (ok: bool)
      requires Valid() && (pos + len <= |Data()| ==> Data() == x + y + z && pos == |x| && len == |y|)
      modifies this
      ensures Valid() && ok == (pos + len <= |old(Data())|) && head == old(head) && |buf| == |old(buf)|
      ensures ok ==> Data() == x + z && tail + len == old(tail)
      ensures !ok ==> buf == old(buf) && tail == old(tail)
    {
      if head + pos + len > tail || tail - head < len {
        return false;
      }
      var d := Data();
      var rest := d[pos + len..];
      assert rest == z;
      SpliceInWindow(buf, head, tail, head + pos, rest);
      buf := buf[..head + pos] + rest + buf[head + pos + |rest|..];
      WindowShrinks(buf, head, tail, len);
      tail := tail - len;
      ok := true;
      assert Data() == x + z;
    }
  }

  // ----- what insertion and lookup do to the tags

  /** The client's own relay data, empty when it sent no relay tag. */
  function RelayData(tags: seq<Tag>): seq<Byte> {
    var i := IndexOf(tags, PTT_RELAY_SID);
    if i < |tags| then tags[i].value else []
  }

  function WithoutRelay(tags: seq<Tag>): seq<Tag> {
    var i := IndexOf(tags, PTT_RELAY_SID);
    if i < |tags| then tags[..i] + tags[i + 1..] else tags
  }

  function RelayTag(mac: Mac, data: seq<Byte>): Tag {
    Tag(PTT_RELAY_SID, MAGIC + mac + data)
  }

  datatype LookupResult = Refused | Found(mac: Mac, tags: seq<Tag>)

  function AfterLookup(tags: seq<Tag>): LookupResult {
    var i := IndexOf(tags, PTT_RELAY_SID);
    if i == |tags| || |tags[i].value| < RELAY_LEN || tags[i].value[..2] != MAGIC then Refused
    else
      var own := tags[i].value[RELAY_LEN..];
      Found(tags[i].value[2..8], tags[..i] + (if own == [] then [] else [Tag(PTT_RELAY_SID, own)]) + tags[i + 1..])
  }

  /** A reply that echoes the relay tag inserted for a client goes to that client, with the relay data the
      client sent, and no relay tag if it sent none or an empty one; every other tag stays. */
  lemma RelayRoundTrip(client: seq<Tag>, mac: Mac, pre: seq<Tag>, post: seq<Tag>)
    requires forall j | 0 <= j < |pre| :: pre[j].ty != PTT_RELAY_SID
    ensures var own := RelayData(client);
      AfterLookup(pre + [RelayTag(mac, own)] + post)
      == Found(mac, pre + (if own == [] then [] else [Tag(PTT_RELAY_SID, own)]) + post)
  {
    var own := RelayData(client);
    var tags := pre + [RelayTag(mac, own)] + post;
    IndexOfIsFirst(tags, PTT_RELAY_SID, |pre|);
    var v := tags[|pre|].value;
    assert v == MAGIC + mac + own;
    assert v[..2] == MAGIC && v[2..8] == mac && v[RELAY_LEN..] == own;
    assert tags[..|pre|] == pre && tags[|pre| + 1..] == post;
  }

  // ----- octets

  lemma TagSize(t: Tag)
    requires |t.value| < 0x10000
    ensures |EncodeTag(t)| == TAG_HDR_LEN + |t.value|
  {
  }

  lemma U16Inside(d: seq<Byte>, x: seq<Byte>, n: U16, z: seq<Byte>)
    requires d == x + U16Octets(n) + z
    ensures U16At(d, |x|) == n
  {
    assert d[|x|] == U16Octets(n)[0] && d[|x| + 1] == U16Octets(n)[1];
  }

  lemma TagInside(d: seq<Byte>, x: seq<Byte>, t: Tag, z: seq<Byte>)
    requires |t.value| < 0x10000 && d == x + EncodeTag(t) + z
    ensures var p := |x|;
      U16At(d, p) == t.ty && U16At(d, p + 2) == |t.value| && d[p + 4..p + 4 + |t.value|] == t.value
  {
    var ty, len := U16Octets(t.ty), U16Octets(|t.value|);
    assert d == x + ty + (len + t.value + z);
    U16Inside(d, x, t.ty, len + t.value + z);
    assert d == (x + ty) + len + (t.value + z);
    U16Inside(d, x + ty, |t.value|, t.value + z);
    assert d == (x + ty + len) + t.value + z;
  }

  /** The octets of the frame around its tag `t`. */
  lemma FrameAround(header: seq<Byte>, a: seq<Tag>, t: Tag, b: seq<Tag>, pad: seq<Byte>)
    requires |header| == LENGTH && ValidTags(a) && ValidTags(b) && |t.value| < 0x10000 && ValidTags(a + [t] + b) && |Encode(a + [t] + b)| < 0x10000
    ensures var pos := PAYLOAD + |Encode(a)|; var d := Frame(header, a + [t] + b, pad);
      pos + TAG_HDR_LEN + |t.value| <= |d| && |Encode(a)| + TAG_HDR_LEN + |t.value| <= |Encode(a + [t] + b)|
      && U16At(d, pos) == t.ty && U16At(d, pos + 2) == |t.value| && d[pos + 4..pos + 4 + |t.value|] == t.value
      && d == (header + U16Octets(|Encode(a + [t] + b)|) + Encode(a)) + EncodeTag(t) + (Encode(b) + pad)
  {
    EncodeAround(a, t, b);
    var len := U16Octets(|Encode(a + [t] + b)|);
    var ea, et, eb := Encode(a), EncodeTag(t), Encode(b);
    assert header + len + (ea + et + eb) + pad == (header + len + ea) + et + (eb + pad);
    TagInside(Frame(header, a + [t] + b, pad), header + len + ea, t, eb + pad);
  }

  lemma FrameLength(header: seq<Byte>, tags: seq<Tag>, pad: seq<Byte>)
    requires |header| == LENGTH && ValidTags(tags) && |Encode(tags)| < 0x10000
    ensures var d := Frame(header, tags, pad); |d| == PAYLOAD + |Encode(tags)| + |pad| && U16At(d, LENGTH) == |Encode(tags)|
  {
    U16Inside(Frame(header, tags, pad), header, |Encode(tags)|, Encode(tags) + pad);
  }

  /** Tag `j` of the list, seen from the octets. */
  lemma TagAt(header: seq<Byte>, tags: seq<Tag>, pad: seq<Byte>, j: nat)
    requires |header| == LENGTH && ValidTags(tags) && |Encode(tags)| < 0x10000 && j < |tags|
    ensures var pos := PAYLOAD + |Encode(tags[..j])|; var d := Frame(header, tags, pad); var len := |tags[j].value|;
      pos + TAG_HDR_LEN + len <= |d| && U16At(d, pos) == tags[j].ty && U16At(d, pos + 2) == len
      && d[pos + 4..pos + 4 + len] == tags[j].value
      && |Encode(tags[..j + 1])| == |Encode(tags[..j])| + TAG_HDR_LEN + len <= |Encode(tags)|
  {
    var a, t, b := tags[..j], tags[j], tags[j + 1..];
    assert tags == a + [t] + b;
    FrameAround(header, a, t, b, pad);
    EncodeAround(a, t, []);
    assert a + [t] + [] == tags[..j + 1];
  }

  method FindTag(skb: Skb, ty: U16, ghost header: seq<Byte>, ghost tags: seq<Tag>, ghost pad: seq<Byte>) returns (found: bool, pos: nat)
    requires |header| == LENGTH && ValidTags(tags) && |Encode(tags)| < 0x10000
    requires skb.Valid() && skb.Data() == Frame(header, tags, pad)
    ensures found == (IndexOf(tags, ty) < |tags|)
    ensures found ==> pos == PAYLOAD + |Encode(tags[..IndexOf(tags, ty)])|
  {
    var d := skb.Data();
    FrameLength(header, tags, pad);
    pos := PAYLOAD;
    ghost var j := 0;
    assert tags[..|tags|] == tags;
    while pos - PAYLOAD < U16At(d, LENGTH)
      invariant 0 <= j <= |tags| && pos == PAYLOAD + |Encode(tags[..j])|
      invariant forall k | 0 <= k < j :: tags[k].ty != ty
      decreases |tags| - j
    {
      TagAt(header, tags, pad, j);
      if U16At(d, pos) == ty {
        IndexOfIsFirst(tags, ty, j);
        return true, pos;
      }
      pos := pos + TAG_HDR_LEN + U16At(d, pos + 2);
      j := j + 1;
    }
    if j < |tags| {
      TagAt(header, tags, pad, j);
    }
    IndexOfIsFirst(tags, ty, j);
    found := false;
  }

  // Moving the brackets of a concatenation.

  lemma Join(h: seq<Byte>, n: seq<Byte>, ea: seq<Byte>, eb: seq<Byte>, pad: seq<Byte>)
    ensures (h + n + ea) + (eb + pad) == h + n + ((ea + eb) + pad)
    ensures h + n + (ea + eb) + pad == h + n + ((ea + eb) + pad)
  {
  }

  /** Writing the length field of a frame. */
  method SetLength(skb: Skb, n: U16, ghost header: seq<Byte>, ghost was: seq<Byte>, ghost rest: seq<Byte>)
    requires skb.Valid() && skb.Data() == header + was + rest && |header| == LENGTH && |was| == 2
    modifies skb`buf
    ensures skb.Valid() && |skb.buf| == |old(skb.buf)| && skb.Data() == header + U16Octets(n) + rest
  {
    skb.Write(LENGTH, U16Octets(n), header, was, rest);
  }

  /** Removes one tag and corrects the length field. */
  method RemoveTag(skb: Skb, pos: nat, len: nat, ghost header: seq<Byte>, ghost a: seq<Tag>, ghost t: Tag, ghost b: seq<Tag>, ghost pad: seq<Byte>)
    returns (ok: bool)
    requires |header| == LENGTH && ValidTags(a) && ValidTags(b) && |t.value| < 0x10000 && ValidTags(a + [t] + b) && |Encode(a + [t] + b)| < 0x10000
    requires skb.Valid() && skb.Data() == Frame(header, a + [t] + b, pad)
    requires pos == PAYLOAD + |Encode(a)| && len == TAG_HDR_LEN + |t.value|
    modifies skb
    ensures ok && skb.Valid() && |skb.buf| == |old(skb.buf)| && skb.head == old(skb.head) && skb.tail + len == old(skb.tail)
    ensures ValidTags(a + b) && |Encode(a + b)| + len == |Encode(a + [t] + b)| && skb.Data() == Frame(header, a + b, pad)
  {
    hide Encode, EncodeTag, U16Octets;
    ghost var n := U16Octets(|Encode(a + [t] + b)|);
    ghost var ea, et, eb := Encode(a), EncodeTag(t), Encode(b);
    FrameAround(header, a, t, b, pad);
    FrameLength(header, a + [t] + b, pad);
    EncodeAround(a, t, b);
    EncodeConcat(a, b);
    TagSize(t);
    var total := U16At(skb.Data(), LENGTH);
    ok := skb.PullAndMerge(pos, len, header + n + ea, et, eb + pad);
    Join(header, n, ea, eb, pad);
    SetLength(skb, total - len, header, n, (ea + eb) + pad);
    Join(header, U16Octets(total - len), ea, eb, pad);
  }

  /** The relay tag and what is around it, seen from the octets of the frame. */
  lemma RelayTagAt(header: seq<Byte>, tags: seq<Tag>, pad: seq<Byte>, a: seq<Tag>, t: Tag, b: seq<Tag>)
    requires |header| == LENGTH && ValidTags(tags) && |Encode(tags)| < 0x10000 && IndexOf(tags, PTT_RELAY_SID) < |tags|
    requires a == tags[..IndexOf(tags, PTT_RELAY_SID)] && t == tags[|a|] && b == tags[|a| + 1..]
    ensures tags == a + [t] + b && ValidTags(a) && ValidTags(b) && |t.value| < 0x10000
    ensures WithoutRelay(tags) == a + b && RelayData(tags) == t.value
    ensures var pos := PAYLOAD + |Encode(a)|; var d := Frame(header, tags, pad); var len := |t.value|;
      pos + TAG_HDR_LEN + len <= |d| && U16At(d, pos + 2) == len && d[pos + 4..pos + 4 + len] == t.value
  {
    hide Encode, EncodeTag, U16Octets;
    TagAt(header, tags, pad, |a|);
  }

  datatype Outcome = Forwarded | Rejected | OverRead

  /** The first half of the insertion: the client's relay tag is copied and removed. */
  method TakeOldTag(skb: Skb, ghost header: seq<Byte>, ghost tags: seq<Tag>, ghost pad: seq<Byte>) returns (ok: bool, data: seq<Byte>)
    requires |header| == LENGTH && ValidTags(tags) && |Encode(tags)| < 0x10000
    requires skb.Valid() && skb.Data() == Frame(header, tags, pad)
    modifies skb
    ensures skb.Valid() && |skb.buf| == |old(skb.buf)| && ok == (|RelayData(tags)| <= TAG_BUF_SIZE - TAG_HDR_LEN - RELAY_LEN)
    ensures ok ==> data == RelayData(tags) && ValidTags(WithoutRelay(tags)) && |Encode(WithoutRelay(tags))| <= |Encode(tags)|
    ensures ok ==> skb.Data() == Frame(header, WithoutRelay(tags), pad)
    ensures ok ==> skb.head == old(skb.head) && skb.tail + |Encode(tags)| == old(skb.tail) + |Encode(WithoutRelay(tags))|
  {
    hide Encode, EncodeTag, U16Octets, U16At;
    var found, pos := FindTag(skb, PTT_RELAY_SID, header, tags, pad);
    if !found {
      return true, [];
    }
    ghost var i := IndexOf(tags, PTT_RELAY_SID);
    ghost var a, t, b := tags[..i], tags[i], tags[i + 1..];
    RelayTagAt(header, tags, pad, a, t, b);
    var d := skb.Data();
    var len := U16At(d, pos + 2);
    if len + TAG_HDR_LEN + RELAY_LEN > TAG_BUF_SIZE {
      return false, [];
    }
    data := d[pos + 4..pos + 4 + len];
    ok := RemoveTag(skb, pos, TAG_HDR_LEN + len, header, a, t, b, pad);
  }

  /** The second half: the relay tag goes in front of the others. `dataLen` octets are taken from the tag buffer. */
  method AddTag(skb: Skb, dataLen: nat, tagOctets: seq<Byte>, ghost header: seq<Byte>, ghost tags: seq<Tag>, ghost pad: seq<Byte>, ghost t: Tag)
    returns (ok: bool, ghost pad': seq<Byte>)
    requires |header| == LENGTH && ValidTags(tags) && |t.value| < 0x10000 && |Encode(tags)| + TAG_HDR_LEN + |t.value| < 0x10000
    requires skb.Valid() && skb.Data() == Frame(header, tags, pad) && tagOctets == EncodeTag(t) && dataLen == |tagOctets|
    modifies skb
    ensures skb.Valid() && ok == (dataLen <= |old(skb.buf)| - old(skb.tail)) && ValidTags([t] + tags) && |pad'| == |pad|
    ensures |Encode([t] + tags)| == |Encode(tags)| + TAG_HDR_LEN + |t.value|
    ensures ok ==> skb.Data() == Frame(header, [t] + tags, pad')
  {
    hide Encode, EncodeTag, U16Octets;
    pad' := pad;
    EncodeCons(t, tags);
    TagSize(t);
    if |skb.buf| - skb.tail < dataLen {
      return false, pad;
    }
    FrameLength(header, tags, pad);
    pad' := InsertInFront(skb, tagOctets, header, Encode(tags), pad);
    ok := true;
  }

  /** skb_put, memmove of the tags, length field, memcpy of the new tag. */
  method InsertInFront(skb: Skb, tagOctets: seq<Byte>, ghost header: seq<Byte>, ghost body: seq<Byte>, ghost pad: seq<Byte>)
    returns (ghost pad': seq<Byte>)
    requires |header| == LENGTH && |body| + |tagOctets| < 0x10000 && skb.Valid() && |tagOctets| <= |skb.buf| - skb.tail
    requires skb.Data() == header + U16Octets(|body|) + body + pad && U16At(skb.Data(), LENGTH) == |body|
    modifies skb
    ensures skb.Valid() && |pad'| == |pad|
    ensures skb.Data() == header + U16Octets(|body| + |tagOctets|) + (tagOctets + body) + pad'
  {
    hide U16Octets, U16At;
    var d := skb.Data();
    var dataLen, len := |tagOctets|, U16At(d, LENGTH);
    var now := U16Octets(len + dataLen);
    ghost var was := U16Octets(len);
    ghost var rest := body + pad + skb.buf[skb.tail..skb.tail + dataLen];
    ghost var r1, r2, r3 := rest[..dataLen], rest[dataLen..dataLen + len], rest[dataLen + len..];
    BodyOf(header, was, body, pad);
    WindowGrows(skb.buf, skb.head, skb.tail, dataLen);
    GrownFrame(header, was, body, pad, skb.buf[skb.tail..skb.tail + dataLen], r1, r2, r3);
    skb.tail := skb.tail + dataLen;
    skb.Write(PAYLOAD + dataLen, d[PAYLOAD..PAYLOAD + len], header + was + r1, r2, r3);
    Split(header, was, r1, body, r3);
    skb.Write(LENGTH, now, header, was, r1 + body + r3);
    Split(header, now, r1, body, r3);
    skb.Write(PAYLOAD, tagOctets, header + now, r1, body + r3);
    Split(header, now, tagOctets, body, r3);
    pad' := r3;
  }

  lemma GrownFrame(h: seq<Byte>, was: seq<Byte>, body: seq<Byte>, pad: seq<Byte>, extra: seq<Byte>, r1: seq<Byte>, r2: seq<Byte>, r3: seq<Byte>)
    requires body + pad + extra == r1 + r2 + r3
    ensures (h + was + body + pad) + extra == (h + was + r1) + r2 + r3
  {
    assert (h + was + body + pad) + extra == (h + was) + (body + pad + extra);
    assert (h + was + r1) + r2 + r3 == (h + was) + (r1 + r2 + r3);
  }

  lemma Split(h: seq<Byte>, n: seq<Byte>, r1: seq<Byte>, body: seq<Byte>, r3: seq<Byte>)
    ensures (h + n + r1) + body + r3 == h + n + (r1 + body + r3)
    ensures h + n + (r1 + body + r3) == (h + n) + r1 + (body + r3)
    ensures (h + n) + r1 + (body + r3) == h + n + (r1 + body) + r3
  {
  }

  lemma BodyOf(h: seq<Byte>, was: seq<Byte>, body: seq<Byte>, pad: seq<Byte>)
    requires |h| == LENGTH && |was| == 2
    ensures (h + was + body + pad)[PAYLOAD..PAYLOAD + |body|] == body
  {
    assert h + was + body + pad == (h + was) + body + pad;
  }

  /** What becomes of a request with `room` octets behind its data. The client's relay data has to fit into the tag
      buffer, and the tag behind the data once the old one is gone; a host that does not store integers in network
      order asks for the length with its octets exchanged, more than the tag buffer holds. */
  ghost function RelayOutcome(bigEndian: bool, tags: seq<Tag>, room: nat): Outcome
    requires ValidTags(tags)
  {
    WithoutRelayValid(tags);
    var own := |RelayData(tags)|;
    var space := room + |Encode(tags)| - |Encode(WithoutRelay(tags))|;
    if own > TAG_BUF_SIZE - TAG_HDR_LEN - RELAY_LEN then Rejected
    else if bigEndian then if TAG_HDR_LEN + RELAY_LEN + own <= space then Forwarded else Rejected
    else if TAG_HDR_LEN + 256 * (RELAY_LEN + own) <= space then OverRead else Rejected
  }

  /** Handling a PADI or PADR with relay tags on. The length of the new tag is read back without conversion, so it
      comes out right only on hosts that store integers in network order; otherwise more is asked for than the tag
      buffer holds. */
  method InsertRelay(skb: Skb, bigEndian: bool, ghost header: seq<Byte>, ghost tags: seq<Tag>, ghost pad: seq<Byte>)
    returns (outcome: Outcome, ghost pad': seq<Byte>)
    requires |header| == LENGTH && ValidTags(tags) && |Encode(tags)| + TAG_BUF_SIZE < 0x10000
    requires skb.Valid() && skb.Data() == Frame(header, tags, pad)
    modifies skb
    ensures skb.Valid() && ValidTags(WithoutRelay(tags)) && |pad'| == |pad|
    ensures outcome == RelayOutcome(bigEndian, tags, |old(skb.buf)| - old(skb.tail))
    ensures outcome == Forwarded ==>
      var res := [RelayTag(header[6..12], RelayData(tags))] + WithoutRelay(tags);
      ValidTags(res) && |Encode(res)| < 0x10000 && skb.Data() == Frame(header, res, pad')
  {
    hide Encode, EncodeTag, U16Octets, RelayData, WithoutRelay;
    pad' := pad;
    WithoutRelayValid(tags);
    var ok, own := TakeOldTag(skb, header, tags, pad);
    if !ok {
      return Rejected, pad;
    }
    var d := skb.Data();
    assert d[6..12] == header[6..12];
    var tagLen := RELAY_LEN + |own|;
    ghost var t := RelayTag(header[6..12], own);
    var octets := U16Octets(PTT_RELAY_SID) + U16Octets(tagLen) + (MAGIC + d[6..12] + own);
    assert octets == EncodeTag(t) by { RelayOctets(t, d[6..12], own); }
    assert |octets| == TAG_HDR_LEN + tagLen by { TagSize(t); }
    var dataLen := (if bigEndian then tagLen else Swap(tagLen)) + TAG_HDR_LEN;
    if |skb.buf| - skb.tail < dataLen {
      return Rejected, pad;
    }
    if dataLen > TAG_BUF_SIZE {
      return OverRead, pad;
    }
    ok, pad' := AddTag(skb, dataLen, octets, header, WithoutRelay(tags), pad, t);
    outcome := Forwarded;
  }

  lemma WithoutRelayValid(tags: seq<Tag>)
    requires ValidTags(tags)
    ensures ValidTags(WithoutRelay(tags))
  {
  }

  lemma RelayOctets(t: Tag, mac: Mac, own: seq<Byte>)
    requires t == RelayTag(mac, own) && |own| < 0x1000
    ensures EncodeTag(t) == U16Octets(PTT_RELAY_SID) + U16Octets(RELAY_LEN + |own|) + (MAGIC + mac + own)
  {
  }

  /** Handling a PADO or PADS with relay tags on. */
  method LookupRelay(skb: Skb, ghost header: seq<Byte>, ghost tags: seq<Tag>, ghost pad: seq<Byte>)
    returns (outcome: Outcome, ghost header': seq<Byte>)
    requires |header| == LENGTH && ValidTags(tags) && |Encode(tags)| < 0x10000
    requires skb.Valid() && skb.Data() == Frame(header, tags, pad)
    modifies skb
    ensures skb.Valid() && skb.head == old(skb.head) && outcome == (if AfterLookup(tags).Refused? then Rejected else Forwarded)
    ensures outcome == Rejected ==> skb.Data() == Frame(header, tags, pad)
    ensures outcome == Forwarded ==>
      var r := AfterLookup(tags);
      header' == r.mac + header[6..] && ValidTags(r.tags) && |Encode(r.tags)| < 0x10000 && skb.Data() == Frame(header', r.tags, pad)
  {
    hide Encode, EncodeTag, U16Octets, U16At;
    header' := header;
    var found, pos := FindTag(skb, PTT_RELAY_SID, header, tags, pad);
    if !found {
      return Rejected, header;
    }
    ghost var i := IndexOf(tags, PTT_RELAY_SID);
    ghost var a, t, b := tags[..i], tags[i], tags[i + 1..];
    RelayTagAt(header, tags, pad, a, t, b);
    var d := skb.Data();
    var len := U16At(d, pos + 2);
    if len < RELAY_LEN || d[pos + 4..pos + 6] != MAGIC {
      assert len >= RELAY_LEN ==> d[pos + 4..pos + 6] == t.value[..2];
      return Rejected, header;
    }
    assert d[pos + 4..pos + 6] == t.value[..2] && d[pos + 6..pos + 12] == t.value[2..8];
    header' := d[pos + 6..pos + 12] + header[6..];
    SetDestination(skb, d[pos + 6..pos + 12], header, tags, pad);
    StripRelay(skb, pos, len, header', a, t, b, pad);
    outcome := Forwarded;
  }

  /** The client's own relay data stays, and a tag without any goes. */
  method StripRelay(skb: Skb, pos: nat, len: nat, ghost header: seq<Byte>, ghost a: seq<Tag>, ghost t: Tag, ghost b: seq<Tag>, ghost pad: seq<Byte>)
    requires |header| == LENGTH && ValidTags(a) && ValidTags(b) && RELAY_LEN <= |t.value| < 0x10000 && ValidTags(a + [t] + b) && |Encode(a + [t] + b)| < 0x10000
    requires skb.Valid() && skb.Data() == Frame(header, a + [t] + b, pad)
    requires pos == PAYLOAD + |Encode(a)| && len == |t.value|
    modifies skb
    ensures var own := t.value[RELAY_LEN..];
      var rest := a + (if own == [] then [] else [Tag(t.ty, own)]) + b;
      skb.Valid() && skb.head == old(skb.head) && ValidTags(rest) && |Encode(rest)| < 0x10000 && skb.Data() == Frame(header, rest, pad)
  {
    hide Encode, EncodeTag, U16Octets;
    if len > RELAY_LEN {
      TrimRelay(skb, pos, len, header, a, t, b, pad);
    } else {
      var ok := RemoveTag(skb, pos, TAG_HDR_LEN + len, header, a, t, b, pad);
      assert a + [] + b == a + b;
    }
  }

  method SetDestination(skb: Skb, mac: Mac, ghost header: seq<Byte>, ghost tags: seq<Tag>, ghost pad: seq<Byte>)
    requires |header| == LENGTH && ValidTags(tags) && |Encode(tags)| < 0x10000
    requires skb.Valid() && skb.Data() == Frame(header, tags, pad)
    modifies skb`buf
    ensures skb.Valid() && skb.Data() == Frame(mac + header[6..], tags, pad)
  {
    hide Encode, U16Octets;
    ghost var n, e := U16Octets(|Encode(tags)|), Encode(tags);
    HeaderParts(header, mac, n, e, pad);
    skb.Write(0, mac, [], header[..6], header[6..] + n + e + pad);
  }

  lemma HeaderParts(h: seq<Byte>, mac: seq<Byte>, n: seq<Byte>, e: seq<Byte>, pad: seq<Byte>)
    requires |h| >= 6
    ensures h + n + e + pad == [] + h[..6] + (h[6..] + n + e + pad)
    ensures [] + mac + (h[6..] + n + e + pad) == (mac + h[6..]) + n + e + pad
  {
  }

  /** Cuts the relay data of this driver out of a longer relay tag. */
  method TrimRelay(skb: Skb, pos: nat, len: nat, ghost header: seq<Byte>, ghost a: seq<Tag>, ghost t: Tag, ghost b: seq<Tag>, ghost pad: seq<Byte>)
    requires |header| == LENGTH && ValidTags(a) && ValidTags(b) && RELAY_LEN < |t.value| < 0x10000 && ValidTags(a + [t] + b) && |Encode(a + [t] + b)| < 0x10000
    requires skb.Valid() && skb.Data() == Frame(header, a + [t] + b, pad)
    requires pos == PAYLOAD + |Encode(a)| && len == |t.value|
    modifies skb
    ensures var own := Tag(t.ty, t.value[RELAY_LEN..]);
      skb.Valid() && skb.head == old(skb.head) && ValidTags(a + [own] + b) && |Encode(a + [own] + b)| + RELAY_LEN == |Encode(a + [t] + b)|
      && skb.Data() == Frame(header, a + [own] + b, pad)
  {
    hide Encode, U16Octets, U16At;
    ghost var own := Tag(t.ty, t.value[RELAY_LEN..]);
    ghost var n, ty, was, now := U16Octets(|Encode(a + [t] + b)|), U16Octets(t.ty), U16Octets(len), U16Octets(len - RELAY_LEN);
    ghost var ea, eb, cut := Encode(a), Encode(b), t.value[..RELAY_LEN];
    FrameAround(header, a, t, b, pad);
    FrameLength(header, a + [t] + b, pad);
    EncodeAround(a, own, b);
    EncodeAround(a, t, b);
    TagSize(t);
    TagSize(own);
    var total := U16At(skb.Data(), LENGTH);
    assert t.value == cut + own.value;
    RelayParts(header, n, ea, ty, was, cut, own.value, eb, pad);
    var ok := skb.PullAndMerge(pos + TAG_HDR_LEN, RELAY_LEN, header + n + ea + ty + was, cut, own.value + eb + pad);
    SetLength(skb, total - RELAY_LEN, header, n, ea + ty + was + own.value + eb + pad);
    RelayParts(header, U16Octets(total - RELAY_LEN), ea, ty, was, cut, own.value, eb, pad);
    skb.Write(pos + 2, U16Octets(len - RELAY_LEN), header + U16Octets(total - RELAY_LEN) + ea + ty, was, own.value + eb + pad);
    RelayParts(header, U16Octets(total - RELAY_LEN), ea, ty, now, cut, own.value, eb, pad);
  }

  lemma RelayParts(h: seq<Byte>, n: seq<Byte>, ea: seq<Byte>, ty: seq<Byte>, tl: seq<Byte>, cut: seq<Byte>, own: seq<Byte>, eb: seq<Byte>, pad: seq<Byte>)
    ensures (h + n + ea) + (ty + tl + (cut + own)) + (eb + pad) == (h + n + ea + ty + tl) + cut + (own + eb + pad)
    ensures (h + n + ea + ty + tl) + (own + eb + pad) == h + n + (ea + ty + tl + own + eb + pad)
    ensures h + n + (ea + ty + tl + own + eb + pad) == (h + n + ea + ty) + tl + (own + eb + pad)
    ensures (h + n + ea + ty) + tl + (own + eb + pad) == h + n + (ea + (ty + tl + own) + eb) + pad
  {
  }
}
