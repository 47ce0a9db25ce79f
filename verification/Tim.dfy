/** The traffic indication map in the beacon (core/rtw_ap.c). */
module Tim {
  import opened Octets
  import opened Ies

  const EID_SSID := 0
  const EID_RATES := 1
  const EID_TIM := 5
  const MAX_BITMAP := 251

  /** One bit per association identifier, eight to an octet. */
  type Bitmap = b: seq<Byte> | 1 <= |b| <= MAX_BITMAP witness [0]

  predicate NonZero(b: seq<Byte>, i: nat) {
    i < |b| && b[i] != 0
  }

  predicate Empty(b: seq<Byte>) {
    forall i | 0 <= i < |b| :: !NonZero(b, i)
  }

  /** The first octet that is not zero. */
  function First(b: Bitmap): (r: nat)
    ensures r < |b| && forall i | 0 <= i < r :: b[i] == 0
    ensures !Empty(b) ==> NonZero(b, r)
  {
    FirstFrom(b, 0)
  }

  function FirstFrom(b: Bitmap, i: nat): (r: nat)
    requires i < |b| && forall j | 0 <= j < i :: b[j] == 0
    ensures r < |b| && forall j | 0 <= j < r :: b[j] == 0
    ensures !Empty(b) ==> NonZero(b, r)
    decreases |b| - i
  {
    if b[i] != 0 || i + 1 == |b| then
      assert b[i] == 0 ==> forall j | 0 <= j < |b| :: !NonZero(b, j);
      assert b[i] != 0 ==> NonZero(b, i);
      i
    else FirstFrom(b, i + 1)
  }

  /** The last octet that is not zero, octet 0 if there is no other. */
  function Last(b: Bitmap): (r: nat)
    ensures r < |b| && (r > 0 ==> b[r] != 0) && forall i | r < i < |b| :: b[i] == 0
  {
    LastDown(b, |b| - 1)
  }

  function LastDown(b: Bitmap, i: nat): (r: nat)
    requires i < |b| && forall j | i < j < |b| :: b[j] == 0
    ensures r < |b| && (r > 0 ==> b[r] != 0) && forall j | r < j < |b| :: b[j] == 0
  {
    if i == 0 || b[i] != 0 then i else LastDown(b, i - 1)
  }

  function Low(b: Bitmap): nat {
    if Empty(b) then 0 else First(b) / 2 * 2
  }

  function High(b: Bitmap): (r: nat)
    ensures Low(b) <= r < |b|
  {
    assert !Empty(b) ==> NonZero(b, First(b)) && First(b) <= Last(b);
    if Empty(b) then 0 else Last(b)
  }

  function Tim(b: Bitmap): (e: Element)
    ensures |e.value| < 256
  {
    Element(EID_TIM, [0, 1, b[0] % 2 + Low(b)] + b[Low(b)..High(b) + 1])
  }

  // ----- reading it back, as section 9.4.2.6 of IEEE 802.11-2016 has it

  predicate IsTim(e: Element) {
    e.id == EID_TIM && |e.value| >= 4
  }

  /** The octet the partial bitmap starts at. */
  function Start(e: Element): nat
    requires IsTim(e)
  {
    e.value[2] / 2 * 2
  }

  /** Octet `i` of the bitmap; what is not sent is zero. */
  function ReadOctet(e: Element, i: nat): Byte
    requires IsTim(e)
  {
    if Start(e) <= i < Start(e) + |e.value| - 3 then e.value[3 + i - Start(e)] else 0
  }

  function GroupTraffic(e: Element): bool
    requires IsTim(e)
  {
    e.value[2] % 2 == 1
  }

  lemma ControlOctet(b: Bitmap)
    ensures Start(Tim(b)) == Low(b) && GroupTraffic(Tim(b)) == (b[0] % 2 == 1)
  {
    assert Low(b) % 2 == 0 && (b[0] % 2 + Low(b)) / 2 * 2 == Low(b) && (b[0] % 2 + Low(b)) % 2 == b[0] % 2;
  }

  /** Every octet, and the bit of identifier 0, is read back; the start is the largest even octet with only zeros
      before it, and the last octet sent is the last that is not zero. */
  lemma TimRoundTrip(b: Bitmap)
    ensures var e := Tim(b);
      IsTim(e) && (forall i: nat :: ReadOctet(e, i) == if i < |b| then b[i] else 0) && GroupTraffic(e) == (b[0] % 2 == 1)
      && (forall i | 0 <= i < Start(e) :: b[i] == 0) && (Empty(b) ==> Start(e) == 0)
      && (!Empty(b) ==> NonZero(b, Start(e)) || NonZero(b, Start(e) + 1))
      && (!Empty(b) ==> e.value[|e.value| - 1] != 0)
  {
    var e := Tim(b);
    ControlOctet(b);
    if !Empty(b) {
      assert NonZero(b, First(b)) && First(b) <= Last(b);
    }
    forall i: nat ensures ReadOctet(e, i) == if i < |b| then b[i] else 0 {
      OctetIsRead(b, i);
    }
    LastOctetSent(b);
  }

  lemma LastOctetSent(b: Bitmap)
    ensures var e := Tim(b); |e.value| >= 4 && (!Empty(b) ==> e.value[|e.value| - 1] != 0)
  {
    SliceBehind([0, 1, b[0] % 2 + Low(b)], b, Low(b), High(b) + 1, High(b) - Low(b));
    if !Empty(b) {
      assert NonZero(b, First(b)) && First(b) <= Last(b);
    }
  }

  lemma SliceBehind(h: seq<Byte>, b: seq<Byte>, lo: nat, hi: nat, k: nat)
    requires lo <= hi <= |b| && k < hi - lo
    ensures (h + b[lo..hi])[|h| + k] == b[lo + k]
  {
  }

  lemma OctetIsRead(b: Bitmap, i: nat)
    ensures ReadOctet(Tim(b), i) == if i < |b| then b[i] else 0
  {
    ControlOctet(b);
    var lo, hi := Low(b), High(b);
    if lo <= i <= hi {
      SliceBehind([0, 1, b[0] % 2 + lo], b, lo, hi + 1, i - lo);
    } else if i < |b| && Empty(b) {
      assert !NonZero(b, i);
    }
  }

  // ----- its place in the beacon

  function SizeOf(els: seq<Element>, id: Byte): nat {
    var k := IndexOf(els, id);
    if k < |els| then 2 + |els[k].value| else 0
  }

  /** Where a beacon without one gets its map: behind the SSID, the rates and three more octets. */
  function InsertAt(els: seq<Element>): nat {
    FIXED + SizeOf(els, EID_SSID) + SizeOf(els, EID_RATES) + 3
  }

  predicate HasTim(els: seq<Element>) {
    var k := IndexOf(els, EID_TIM);
    k < |els| && els[k].value != []
  }

  /** The elements after an update that falls between two elements. */
  function TimUpdated(els: seq<Element>, b: Bitmap, m: nat): seq<Element>
    requires m <= |els|
  {
    var k := IndexOf(els, EID_TIM);
    if HasTim(els) then els[..k] + [Tim(b)] + els[k + 1..] else els[..m] + [Tim(b)] + els[m..]
  }

  lemma {:induction false} InsertBetween(fixed: seq<Byte>, els: seq<Element>, b: Bitmap, m: nat, d: seq<Byte>)
    requires |fixed| == FIXED && IsList(els) && m <= |els| && At(els, m) == InsertAt(els) && !HasTim(els)
    requires d == fixed + Encode(els)
    ensures InsertAt(els) <= |d| && IsList(TimUpdated(els, b, m))
    ensures d[..InsertAt(els)] + EncodeElement(Tim(b)) + d[InsertAt(els)..] == fixed + Encode(TimUpdated(els, b, m))
  {
    hide Encode;
    var x, z, t := els[..m], els[m..], EncodeElement(Tim(b));
    assert els == x + z;
    EncodeAppend(x, z);
    Regroup(fixed, Encode(x), Encode(z));
    assert d[..InsertAt(els)] == fixed + Encode(x) && d[InsertAt(els)..] == Encode(z);
    EncodeAround(x, Tim(b), z);
    Regroup(fixed, Encode(x), t);
    Regroup(fixed, Encode(x) + t, Encode(z));
  }

  /** The octets after a map is written at the computed offset. */
  function Written(d: seq<Byte>, at: nat, b: Bitmap): seq<Byte>
    requires at <= |d|
  {
    d[..at] + EncodeElement(Tim(b)) + d[at..]
  }

  /** The written octets are those of the list with the map in front of element `m`. */
  ghost predicate Placed(fixed: seq<Byte>, els: seq<Element>, b: Bitmap, m: nat)
    requires |fixed| == FIXED && IsList(els) && InsertAt(els) <= FIXED + |Encode(els)|
  {
    m <= |els| && IsList(TimUpdated(els, b, m))
    && Written(fixed + Encode(els), InsertAt(els), b) == fixed + Encode(TimUpdated(els, b, m))
  }

  ghost predicate PlacedSomewhere(fixed: seq<Byte>, els: seq<Element>, b: Bitmap)
    requires |fixed| == FIXED && IsList(els) && InsertAt(els) <= FIXED + |Encode(els)|
  {
    exists m :: Placed(fixed, els, b, m)
  }

  ghost predicate IsBoundary(els: seq<Element>, m: nat)
    requires IsList(els)
  {
    m <= |els| && At(els, m) == InsertAt(els)
  }

  /** A beacon without a map keeps its elements, whatever is buffered, if and only if the computed offset falls
      between two of them. */
  lemma PlacedIffBoundary(fixed: seq<Byte>, els: seq<Element>)
    requires |fixed| == FIXED && IsList(els) && IndexOf(els, EID_TIM) == |els| && InsertAt(els) <= FIXED + |Encode(els)|
    ensures (forall b: Bitmap :: PlacedSomewhere(fixed, els, b)) <==> exists m :: IsBoundary(els, m)
  {
    hide Tim, Encode, InsertAt;
    if m :| IsBoundary(els, m) {
      forall b: Bitmap ensures PlacedSomewhere(fixed, els, b) {
        InsertBetween(fixed, els, b, m, fixed + Encode(els));
        assert Placed(fixed, els, b, m);
      }
    }
    if PlacedSomewhere(fixed, els, [0]) && PlacedSomewhere(fixed, els, [1, 1]) {
      OnlyAtBoundary(fixed, els);
    }
  }

  /** No two maps of different length can be read at an offset that is not between two elements. */
  lemma OnlyAtBoundary(fixed: seq<Byte>, els: seq<Element>)
    requires |fixed| == FIXED && IsList(els) && IndexOf(els, EID_TIM) == |els| && InsertAt(els) <= FIXED + |Encode(els)|
    requires PlacedSomewhere(fixed, els, [0]) && PlacedSomewhere(fixed, els, [1, 1])
    ensures exists m :: IsBoundary(els, m)
  {
    TwoMaps();
    hide Tim, Encode, EncodeElement, InsertAt, At, IndexOf, Placed, IsBoundary;
    var m :| Placed(fixed, els, [0], m);
    var n :| Placed(fixed, els, [1, 1], n);
    PlacedBehind(fixed, els, [0], m);
    PlacedBehind(fixed, els, [1, 1], n);
    assert IsBoundary(els, m) || IsBoundary(els, n);
  }

  /** Off a boundary, the octet behind the offset would have to be the length of the map. */
  lemma PlacedBehind(fixed: seq<Byte>, els: seq<Element>, b: Bitmap, m: nat)
    requires |fixed| == FIXED && IsList(els) && IndexOf(els, EID_TIM) == |els| && InsertAt(els) <= FIXED + |Encode(els)|
    requires Placed(fixed, els, b, m) && var t := EncodeElement(Tim(b)); |t| >= 3 && t[0] == 5 && t[2] == 0
    ensures var d, off := fixed + Encode(els), InsertAt(els);
      IsBoundary(els, m) || (off + 2 <= |d| && d[off + 1] == EncodeElement(Tim(b))[1])
  {
    hide Tim, Encode, EncodeElement, InsertAt, At, Placed;
    PlacedWhere(fixed, els, b, m);
    PlaceInList(fixed, els, b, m);
  }

  lemma PlaceInList(fixed: seq<Byte>, els: seq<Element>, b: Bitmap, m: nat)
    requires |fixed| == FIXED && IsList(els) && InsertAt(els) <= FIXED + |Encode(els)| && Placed(fixed, els, b, m)
    ensures m <= |els|
  {
  }

  lemma TwoMaps()
    ensures EncodeElement(Tim([0])) == [5, 4, 0, 1, 0, 0] && EncodeElement(Tim([1, 1])) == [5, 5, 0, 1, 1, 1, 1]
  {
    assert Empty([0]);
    assert NonZero([1, 1], 0) && First([1, 1]) == 0 && Last([1, 1]) == 1;
  }

  /** Where the octets of the map can be read otherwise than as written. */
  lemma PlacedWhere(fixed: seq<Byte>, els: seq<Element>, b: Bitmap, m: nat)
    requires |fixed| == FIXED && IsList(els) && !HasTim(els) && InsertAt(els) <= FIXED + |Encode(els)|
    requires Placed(fixed, els, b, m) && |EncodeElement(Tim(b))| >= 3
    ensures var d, t, off := fixed + Encode(els), EncodeElement(Tim(b)), InsertAt(els);
      (At(els, m) < off ==> m < |els| && els[m].id == t[0])
      && (At(els, m) == off + 1 ==> t[0] == t[1] == t[2])
      && (At(els, m) >= off + 2 ==> off + 2 <= |d| && d[off + 1] == t[1])
  {
    hide Encode, EncodeElement, Tim, InsertAt;
    var d, t := fixed + Encode(els), EncodeElement(Tim(b));
    var x, z := els[..m], els[m..];
    var p, off := At(els, m), InsertAt(els);
    assert els == x + z;
    EncodeAppend(x, z);
    EncodeAround(x, Tim(b), z);
    Regroup(fixed, Encode(x), Encode(z));
    Regroup(fixed, Encode(x), t);
    Regroup(fixed, Encode(x) + t, Encode(z));
    EndsAtLen(els, m);
    if p < off {
      ElementAt(d, fixed, els, m);
      ReadInFront(d, fixed + Encode(x), Encode(z), t, off);
    } else if p == off + 1 {
      ReadOneBehind(d, fixed + Encode(x), Encode(z), t, off);
    } else if p >= off + 2 {
      ReadBehind(d, fixed + Encode(x), Encode(z), t, off);
    }
  }

  lemma ReadInFront(d: seq<Byte>, x: seq<Byte>, z: seq<Byte>, t: seq<Byte>, off: nat)
    requires |x| < off <= |d| && d[..off] + t + d[off..] == x + t + z && t != []
    ensures d[|x|] == t[0]
  {
    assert (d[..off] + t + d[off..])[|x|] == d[|x|] && (x + t + z)[|x|] == t[0];
  }

  lemma ReadOneBehind(d: seq<Byte>, x: seq<Byte>, z: seq<Byte>, t: seq<Byte>, off: nat)
    requires off <= |d| && |x| == off + 1 && d[..off] + t + d[off..] == x + t + z && |t| >= 3
    ensures t[0] == t[1] == t[2]
  {
    var g, w := d[..off] + t + d[off..], x + t + z;
    assert g[off + 1] == t[1] && g[off + 2] == t[2];
    assert w[off + 1] == t[0] && w[off + 2] == t[1];
  }

  lemma ReadBehind(d: seq<Byte>, x: seq<Byte>, z: seq<Byte>, t: seq<Byte>, off: nat)
    requires d == x + z && |x| >= off + 2 && d[..off] + t + d[off..] == x + t + z && |t| >= 3
    ensures off + 2 <= |d| && d[off + 1] == t[1]
  {
    var g, w := d[..off] + t + d[off..], x + t + z;
    assert g[off + 1] == t[1] && w[off + 1] == x[off + 1];
  }

  /** SSID, rates and DS parameter set at the front make room for the map behind them. */
  lemma FrontIsThree(els: seq<Element>)
    requires IsList(els) && |els| >= 3 && els[0].id == 0 && els[1].id == 1 && els[2].id == 3 && |els[2].value| == 1
    ensures At(els, 3) == InsertAt(els)
  {
    IndexIs(els, EID_SSID, 0);
    IndexIs(els, EID_RATES, 1);
    assert els[..3] == [els[0]] + [els[1]] + [els[2]];
    EncodeAround([els[0]], els[1], [els[2]]);
    EncodeOne(els[0]);
    EncodeOne(els[1]);
    EncodeOne(els[2]);
  }

  /** Without a DS parameter set the map can land inside an element: the octets are then no longer those of the
      elements with the map between any two of them. */
  lemma WithoutDsItLandsInside(fixed: seq<Byte>, m: nat)
    requires |fixed| == FIXED && m <= 3
    ensures var els := [Element(EID_SSID, []), Element(EID_RATES, [2]), Element(48, [1, 0, 0])];
      var d := fixed + Encode(els);
      IsList(els) && InsertAt(els) <= |d| && IsList(TimUpdated(els, [0], m))
      && d[..InsertAt(els)] + EncodeElement(Tim([0])) + d[InsertAt(els)..] != fixed + Encode(TimUpdated(els, [0], m))
  {
    var els := [Element(EID_SSID, []), Element(EID_RATES, [2]), Element(48, [1, 0, 0])];
    var d := fixed + Encode(els);
    IndexIs(els, EID_SSID, 0);
    IndexIs(els, EID_RATES, 1);
    IndexIs(els, EID_TIM, 3);
    ThreeEncoded(els);
    TwoMaps();
    hide Encode, Tim, EncodeElement, IndexOf;
    var t := EncodeElement(Tim([0]));
    assert InsertAt(els) == 20;
    var got := d[..20] + t + d[20..];
    assert got[12] == 0 && got[14] == 1 && got[17] == 48 && got[22] == 0;
    var x, z := els[..m], els[m..];
    var p := FIXED + |Encode(x)|;
    EncodeAround(x, Tim([0]), z);
    var want := (fixed + Encode(x)) + t + Encode(z);
    assert want[p] == 5;
    Regroup(fixed, Encode(x), t);
    Regroup(fixed, Encode(x) + t, Encode(z));
  }

  lemma ThreeEncoded(els: seq<Element>)
    requires els == [Element(EID_SSID, []), Element(EID_RATES, [2]), Element(48, [1, 0, 0])]
    ensures IsList(els) && Encode(els) == [0, 0, 1, 1, 2, 48, 3, 1, 0, 0]
    ensures |Encode(els[..0])| == 0 && |Encode(els[..1])| == 2 && |Encode(els[..2])| == 5 && |Encode(els[..3])| == 10
  {
    EncodeOne(els[0]);
    EncodeOne(els[1]);
    EncodeOne(els[2]);
    EncodeAppend([els[0]], [els[1]]);
    EncodeAppend([els[0]] + [els[1]], [els[2]]);
    assert els[..1] == [els[0]] && els[..2] == [els[0]] + [els[1]] && els[..3] == els == [els[0]] + [els[1]] + [els[2]];
  }

  /** The map found in the updated beacon is the new one, and the other elements are unchanged, in order. */
  lemma UpdatedTimIsFound(els: seq<Element>, b: Bitmap, m: nat)
    requires m <= |els| && (var k := IndexOf(els, 5); k < |els| ==> els[k].value != [])
    ensures var k := IndexOf(els, 5);
      var done, was, at := TimUpdated(els, b, m), if k < |els| then 1 else 0, if k < |els| then k else m;
      IndexOf(done, EID_TIM) == at && at < |done| && done[at] == Tim(b)
      && done[..at] == els[..at] && done[at + 1..] == els[at + was..]
  {
    var k := IndexOf(els, EID_TIM);
    var at := if k < |els| then k else m;
    Surroundings(els, at, if k < |els| then 1 else 0, Tim(b));
    TimHasId(b);
    hide Tim, IndexOf;
    assert TimUpdated(els, b, m) == els[..at] + [Tim(b)] + els[at + (if k < |els| then 1 else 0)..];
    hide TimUpdated;
    IndexIs(TimUpdated(els, b, m), EID_TIM, at);
  }

  lemma Surroundings(els: seq<Element>, at: nat, skip: nat, e: Element)
    requires at + skip <= |els|
    ensures var d := els[..at] + [e] + els[at + skip..];
      at < |d| && d[at] == e && d[..at] == els[..at] && d[at + 1..] == els[at + skip..] && forall j | 0 <= j < at :: d[j] == els[j]
  {
  }

  lemma TimHasId(b: Bitmap)
    ensures Tim(b).id == EID_TIM
  {
  }

  /** Whoever looks for the map in the updated beacon reads back the whole bitmap. */
  lemma MapIsReadBack(els: seq<Element>, b: Bitmap, m: nat)
    requires m <= |els| && (var k := IndexOf(els, 5); k < |els| ==> els[k].value != [])
    ensures var done := TimUpdated(els, b, m);
      IndexOf(done, EID_TIM) < |done|
      && var e := done[IndexOf(done, EID_TIM)];
      IsTim(e) && (forall i: nat :: ReadOctet(e, i) == if i < |b| then b[i] else 0) && GroupTraffic(e) == (b[0] % 2 == 1)
  {
    UpdatedTimIsFound(els, b, m);
    TimRoundTrip(b);
  }

  // ----- the code

  method BmpNotEmpty(b: Bitmap) returns (r: bool)
    ensures r == !Empty(b)
  {
    for i := 0 to |b|
      invariant forall j | 0 <= j < i :: b[j] == 0
    {
      if b[i] != 0 {
        assert NonZero(b, i);
        return true;
      }
    }
    return false;
  }

  method FirstNonZero(b: Bitmap) returns (i: nat)
    requires !Empty(b)
    ensures i == First(b)
  {
    i := 0;
    while i < |b| && b[i] == 0
      invariant i <= |b| && forall j | 0 <= j < i :: b[j] == 0
    {
      i := i + 1;
    }
    assert NonZero(b, First(b));
  }

  method LastNonZero(b: Bitmap) returns (i: nat)
    ensures i == Last(b)
  {
    i := |b| - 1;
    while i > 0 && b[i] == 0
      invariant 0 <= i < |b| && forall j | i < j < |b| :: b[j] == 0
    {
      i := i - 1;
    }
  }

  /** Writes the element; the result is its octets. */
  method SetTimIe(dtimCnt: Byte, dtimPeriod: Byte, b: Bitmap) returns (octets: seq<Byte>)
    ensures octets == EncodeElement(Tim(b).(value := Tim(b).value[0 := dtimCnt][1 := dtimPeriod]))
  {
    var n1, n2 := 0, 0;
    var some := BmpNotEmpty(b);
    if some {
      var i := FirstNonZero(b);
      n1 := i / 2 * 2;
      n2 := LastNonZero(b);
    }
    assert n1 == Low(b) && n2 == High(b);
    hide First, Last, Empty, Low, High;
    var bmpLen := n2 - n1 + 1;
    octets := [EID_TIM, 3 + bmpLen, dtimCnt, dtimPeriod, b[0] % 2 + n1] + b[n1..n1 + bmpLen];
  }

  method UpdateBcnTim(bcn: Beacon, b: Bitmap, ghost fixed: seq<Byte>, ghost els: seq<Element>)
    requires bcn.Holds(fixed, els) && (!HasTim(els) ==> InsertAt(els) <= bcn.len)
    requires bcn.len + |EncodeElement(Tim(b))| <= MAX_IE_SZ + if HasTim(els) then SizeOf(els, EID_TIM) else 0
    modifies bcn`len, bcn.ies
    ensures HasTim(els) ==> bcn.Holds(fixed, TimUpdated(els, b, 0))
    ensures var d := old(bcn.Data());
      !HasTim(els) ==> bcn.Valid() && bcn.Data() == d[..InsertAt(els)] + EncodeElement(Tim(b)) + d[InsertAt(els)..]
  {
    hide Encode;
    var octets := SetTimIe(0, 1, b);
    assert Tim(b).value[0 := 0][1 := 1] == Tim(b).value;
    var found, pos, ieLen := bcn.GetIe(EID_TIM, fixed, els);
    if found && ieLen > 0 {
      bcn.Replace(pos, 2 + ieLen, Element(EID_TIM, octets[2..]), fixed, els, IndexOf(els, EID_TIM));
    } else {
      var offset := FIXED;
      found, pos, ieLen := bcn.GetIe(EID_SSID, fixed, els);
      if found {
        offset := offset + ieLen + 2;
      }
      found, pos, ieLen := bcn.GetIe(EID_RATES, fixed, els);
      if found {
        offset := offset + ieLen + 2;
      }
      offset := offset + 3;
      ghost var d := bcn.Data();
      assert d == d[..offset] + [] + d[offset..];
      bcn.Splice(offset, octets, d[..offset], [], d[offset..], 0);
    }
  }
}
