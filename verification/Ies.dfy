/** Element lists and the beacon buffer they are edited in (core/rtw_ap.c, core/rtw_ieee80211.c, include/wlan_bssdef.h). */
module Ies {
  import opened Octets

  const MAX_IE_SZ := 768
  const FIXED := 12 // timestamp, beacon interval and capability

  datatype Element = Element(id: Byte, value: seq<Byte>)

  predicate IsList(els: seq<Element>) {
    forall i | 0 <= i < |els| :: |els[i].value| < 256
  }

  function EncodeElement(e: Element): seq<Byte>
    requires |e.value| < 256
  {
    [e.id, |e.value|] + e.value
  }

  function Encode(els: seq<Element>): seq<Byte>
    requires IsList(els)
  {
    if els == [] then [] else EncodeElement(els[0]) + Encode(els[1..])
  }

  predicate Sorted(els: seq<Element>) {
    forall i, j | 0 <= i < j < |els| :: els[i].id <= els[j].id
  }

  lemma {:induction false} EncodeAppend(a: seq<Element>, b: seq<Element>)
    requires IsList(a) && IsList(b)
    ensures IsList(a + b) && Encode(a + b) == Encode(a) + Encode(b)
  {
    if a == [] {
      assert a + b == b;
    } else {
      EncodeAppend(a[1..], b);
      assert (a + b)[1..] == a[1..] + b;
      Regroup(EncodeElement(a[0]), Encode(a[1..]), Encode(b));
    }
  }

  lemma Regroup(x: seq<Byte>, y: seq<Byte>, z: seq<Byte>)
    ensures (x + y) + z == x + (y + z)
  {
  }

  lemma EncodeOne(e: Element)
    requires |e.value| < 256
    ensures Encode([e]) == EncodeElement(e) && |EncodeElement(e)| == 2 + |e.value|
  {
    assert [e][1..] == [];
  }

  /** The octets before, of, and after one element. */
  lemma EncodeAround(a: seq<Element>, e: Element, b: seq<Element>)
    requires IsList(a) && IsList(b) && |e.value| < 256
    ensures IsList(a + [e] + b) && Encode(a + [e] + b) == Encode(a) + EncodeElement(e) + Encode(b)
  {
    EncodeOne(e);
    EncodeAppend(a, [e]);
    EncodeAppend(a + [e], b);
  }

  /** The place of element `k` in the octets. */
  ghost function At(els: seq<Element>, k: nat): nat
    requires IsList(els) && k <= |els|
  {
    FIXED + |Encode(els[..k])|
  }

  lemma ElementAt(d: seq<Byte>, fixed: seq<Byte>, els: seq<Element>, k: nat)
    requires |fixed| == FIXED && IsList(els) && k < |els| && d == fixed + Encode(els)
    ensures var p, e := At(els, k), els[k];
      At(els, k + 1) == p + 2 + |e.value| <= |d|
      && d[p] == e.id && d[p + 1] == |e.value| && d[p + 2..p + 2 + |e.value|] == e.value
      && d == (fixed + Encode(els[..k])) + EncodeElement(e) + Encode(els[k + 1..])
  {
    var a, e, b := els[..k], els[k], els[k + 1..];
    assert els == a + [e] + b;
    EncodeAround(a, e, b);
    Regroup(fixed, Encode(a), EncodeElement(e));
    Regroup(fixed, Encode(a) + EncodeElement(e), Encode(b));
    assert els[..k + 1] == a + [e] + [];
    EncodeAround(a, e, []);
    Inside(d, fixed + Encode(a), EncodeElement(e), Encode(b));
  }

  lemma Inside(d: seq<Byte>, x: seq<Byte>, y: seq<Byte>, z: seq<Byte>)
    requires d == x + y + z && |y| >= 2
    ensures d[|x|] == y[0] && d[|x| + 1] == y[1] && d[|x| + 2..|x| + |y|] == y[2..]
  {
  }

  lemma WholeAt(els: seq<Element>)
    requires IsList(els)
    ensures At(els, 0) == FIXED && At(els, |els|) == FIXED + |Encode(els)|
  {
    assert els[..|els|] == els;
  }

  /** The octets determine the elements. */
  lemma {:induction false} ElementsAreDetermined(a: seq<Element>, b: seq<Element>)
    requires IsList(a) && IsList(b) && Encode(a) == Encode(b)
    ensures a == b
  {
    SizeOfMany(a);
    SizeOfMany(b);
    if a != [] {
      var x, y := EncodeElement(a[0]), EncodeElement(b[0]);
      Inside(Encode(a), [], x, Encode(a[1..]));
      Inside(Encode(b), [], y, Encode(b[1..]));
      assert Encode(a)[|x|..] == Encode(a[1..]) && Encode(b)[|y|..] == Encode(b[1..]);
      ElementsAreDetermined(a[1..], b[1..]);
      assert a == [a[0]] + a[1..] && b == [b[0]] + b[1..];
    }
  }

  // ----- searching

  /** The first element with an identifier, or the length. */
  function IndexOf(els: seq<Element>, id: Byte): (r: nat)
    ensures r <= |els| && (r < |els| ==> els[r].id == id) && forall j | 0 <= j < r :: els[j].id != id
  {
    if els == [] || els[0].id == id then 0 else 1 + IndexOf(els[1..], id)
  }

  /** The first element whose identifier is not below, or the length. */
  function LowerBound(els: seq<Element>, id: Byte): (r: nat)
    ensures r <= |els| && (r < |els| ==> els[r].id >= id) && forall j | 0 <= j < r :: els[j].id < id
  {
    if els == [] || els[0].id >= id then 0 else 1 + LowerBound(els[1..], id)
  }

  lemma IndexIs(els: seq<Element>, id: Byte, k: nat)
    requires k <= |els| && (forall j | 0 <= j < k :: els[j].id != id) && (k < |els| ==> els[k].id == id)
    ensures IndexOf(els, id) == k
  {
  }

  lemma LowerBoundIs(els: seq<Element>, id: Byte, k: nat)
    requires k <= |els| && (forall j | 0 <= j < k :: els[j].id < id) && (k < |els| ==> els[k].id >= id)
    ensures LowerBound(els, id) == k
  {
  }

  // ----- editing

  /** The list after an element is added: behind the last smaller identifier, or over the one with the same
      identifier. Nothing is added when the element in that role is missing or empty. */
  function Added(els: seq<Element>, e: Element): seq<Element> {
    var k := LowerBound(els, e.id);
    if k < |els| && els[k].id == e.id then if els[k].value == [] then els else els[..k] + [e] + els[k + 1..]
    else if k == 0 || els[k - 1].value == [] then els
    else els[..k] + [e] + els[k..]
  }

  /** The list after an element is removed; empty elements stay. */
  function Removed(els: seq<Element>, id: Byte): seq<Element> {
    var k := IndexOf(els, id);
    if k == |els| || els[k].value == [] then els else els[..k] + els[k + 1..]
  }

  /** The list with the element added fits into the buffer. */
  ghost predicate FitsAdded(els: seq<Element>, e: Element) {
    |e.value| < 256 && IsList(Added(els, e)) && FIXED + |Encode(Added(els, e))| <= MAX_IE_SZ
  }

  lemma SizeOfAdded(els: seq<Element>, e: Element)
    requires IsList(els) && FitsAdded(els, e)
    ensures var k, n := LowerBound(els, e.id), FIXED + |Encode(els)|;
      |e.value| < 256
      && if k < |els| && els[k].id == e.id then els[k].value != [] ==> n + |e.value| <= MAX_IE_SZ + |els[k].value|
         else k > 0 && els[k - 1].value != [] ==> n + 2 + |e.value| <= MAX_IE_SZ
  {
    var k := LowerBound(els, e.id);
    hide Encode, IsList, LowerBound;
    if k < |els| && els[k].id == e.id {
      if els[k].value != [] {
        SizeOfOne(els, k);
        SizeOfSpliced(els, k, k + 1, e);
      }
    } else if k > 0 && els[k - 1].value != [] {
      SizeOfMany(els[k..k]);
      SizeOfSpliced(els, k, k, e);
    }
  }

  lemma SizeOfOne(els: seq<Element>, k: nat)
    requires IsList(els) && k < |els|
    ensures |Encode(els[k..k + 1])| == 2 + |els[k].value|
  {
    EncodeOne(els[k]);
    assert els[k..k + 1] == [els[k]];
  }

  lemma SizeOfSpliced(els: seq<Element>, i: nat, j: nat, e: Element)
    requires IsList(els) && i <= j <= |els| && |e.value| < 256
    ensures IsList(els[..i] + [e] + els[j..])
    ensures |Encode(els[..i] + [e] + els[j..])| + |Encode(els[i..j])| == |Encode(els)| + 2 + |e.value|
  {
    hide Encode;
    EncodeOne(e);
    EncodeAround(els[..i], e, els[j..]);
    assert els[..j] == els[..i] + els[i..j] && els == els[..j] + els[j..];
    EncodeAppend(els[..i], els[i..j]);
    EncodeAppend(els[..j], els[j..]);
  }

  lemma EditsKeepSorted(els: seq<Element>, e: Element)
    requires Sorted(els)
    ensures Sorted(Added(els, e)) && Sorted(Removed(els, e.id))
  {
    var k, m := LowerBound(els, e.id), IndexOf(els, e.id);
    SortedAround(els, k, k, e);
    if k < |els| && els[k].id == e.id {
      SortedAround(els, k, k + 1, e);
    }
    if m < |els| {
      SortedWithout(els, m);
    }
  }

  /** The elements with other identifiers, in order. */
  function Rest(els: seq<Element>, id: Byte): seq<Element> {
    if els == [] then [] else if els[0].id == id then Rest(els[1..], id) else [els[0]] + Rest(els[1..], id)
  }

  lemma {:induction false} RestOfParts(a: seq<Element>, b: seq<Element>, id: Byte)
    ensures Rest(a + b, id) == Rest(a, id) + Rest(b, id)
  {
    if a == [] {
      assert a + b == b;
    } else {
      RestOfParts(a[1..], b, id);
      assert (a + b)[1..] == a[1..] + b;
      assert [a[0]] + (Rest(a[1..], id) + Rest(b, id)) == ([a[0]] + Rest(a[1..], id)) + Rest(b, id);
    }
  }

  /** Element `m` is the last with a smaller identifier. */
  predicate LastBelow(els: seq<Element>, id: Byte, m: nat) {
    m < |els| && els[m].id < id && forall j | m < j < |els| :: els[j].id >= id
  }

  /** Adding to a sorted list: whoever looks for the identifier afterwards finds the element, and the elements with
      other identifiers are as they were; this happens exactly when the first element with the identifier, or if there
      is none the last with a smaller one, is there and not empty, and otherwise nothing does. */
  lemma AddedIsFound(els: seq<Element>, e: Element)
    requires Sorted(els)
    ensures var d, k := Added(els, e), IndexOf(els, e.id);
      Rest(d, e.id) == Rest(els, e.id)
      && if (if k < |els| then els[k].value != [] else exists m: nat :: LastBelow(els, e.id, m) && els[m].value != [])
         then IndexOf(d, e.id) < |d| && d[IndexOf(d, e.id)] == e && |d| == |els| + (if k < |els| then 0 else 1)
         else d == els
  {
    hide Rest, LastBelow, LowerBound, IndexOf, Sorted;
    var i, k := LowerBound(els, e.id), IndexOf(els, e.id);
    BoundIsIndex(els, e.id);
    if k < |els| {
      Edited(els, i, i + 1, e);
    } else {
      LastBelowIs(els, e.id);
      Edited(els, i, i, e);
      if i > 0 {
        assert LastBelow(els, e.id, i - 1);
      }
    }
  }

  lemma LastBelowIs(els: seq<Element>, id: Byte)
    requires Sorted(els)
    ensures forall m: nat :: LastBelow(els, id, m) <==> m + 1 == LowerBound(els, id)
  {
    var i := LowerBound(els, id);
    forall m: nat ensures LastBelow(els, id, m) <==> m + 1 == i {
      if m + 1 == i {
        assert forall j | i <= j < |els| :: els[j].id >= id;
      } else if m < i {
        assert els[m + 1].id < id;
      }
    }
    hide LowerBound;
  }

  /** An element written over those from `i` to `j`, which have its identifier. */
  lemma Edited(els: seq<Element>, i: nat, j: nat, e: Element)
    requires i <= j <= i + 1 && j <= |els| && (forall k | i <= k < j :: els[k].id == e.id) && forall k | 0 <= k < i :: els[k].id != e.id
    ensures var d := els[..i] + [e] + els[j..];
      Rest(d, e.id) == Rest(els, e.id) && IndexOf(d, e.id) == i < |d| && d[i] == e
  {
    hide Rest;
    assert els == els[..i] + els[i..j] + els[j..];
    RestOfParts(els[..i], els[i..j], e.id);
    RestOfParts(els[..i] + els[i..j], els[j..], e.id);
    RestOfParts(els[..i], [e], e.id);
    RestOfParts(els[..i] + [e], els[j..], e.id);
    RestOfOne(els[i..j], e.id);
    RestOfOne([e], e.id);
    IndexIs(els[..i] + [e] + els[j..], e.id, i);
  }

  lemma RestOfOne(s: seq<Element>, id: Byte)
    requires |s| <= 1 && forall j | 0 <= j < |s| :: s[j].id == id
    ensures Rest(s, id) == []
  {
  }

  lemma BoundIsIndex(els: seq<Element>, id: Byte)
    requires Sorted(els)
    ensures var i, k := LowerBound(els, id), IndexOf(els, id);
      if i < |els| && els[i].id == id then k == i else k == |els|
  {
    var i := LowerBound(els, id);
    if i < |els| && els[i].id == id {
      IndexIs(els, id, i);
    } else {
      assert forall j | i <= j < |els| :: els[j].id > id;
      IndexIs(els, id, |els|);
    }
  }

  /** Removing takes out the first element with the identifier unless it is empty, and no other. */
  lemma RemovedIsGone(els: seq<Element>, id: Byte)
    ensures var d, k := Removed(els, id), IndexOf(els, id);
      Rest(d, id) == Rest(els, id) && |d| == |els| - (if k < |els| && els[k].value != [] then 1 else 0)
  {
    var k := IndexOf(els, id);
    if k < |els| {
      assert els == els[..k] + [els[k]] + els[k + 1..];
      RestOfParts(els[..k], [els[k]], id);
      RestOfParts(els[..k] + [els[k]], els[k + 1..], id);
      RestOfParts(els[..k], els[k + 1..], id);
      RestOfOne([els[k]], id);
    }
  }

  lemma SortedAround(els: seq<Element>, i: nat, j: nat, e: Element)
    requires Sorted(els) && i <= j <= |els|
    requires (forall k | 0 <= k < i :: els[k].id <= e.id) && (j < |els| ==> els[j].id >= e.id)
    ensures Sorted(els[..i] + [e] + els[j..])
  {
  }

  lemma SortedWithout(els: seq<Element>, i: nat)
    requires Sorted(els) && i < |els|
    ensures Sorted(els[..i] + els[i + 1..])
  {
  }

  // ----- the buffer

  class Beacon {
    const ies: array<Byte>
    var len: nat

    ghost predicate Valid()
      reads this
    {
      ies.Length == MAX_IE_SZ && len <= MAX_IE_SZ
    }

    function Data(): seq<Byte>
      requires len <= ies.Length
      reads this, ies
    {
      ies[..len]
    }

    ghost predicate Holds(fixed: seq<Byte>, els: seq<Element>)
      reads this, ies
    {
      Valid() && |fixed| == FIXED && IsList(els) && Data() == fixed + Encode(els)
    }

    constructor (fixed: seq<Byte>)
      requires |fixed| == FIXED
      ensures Holds(fixed, []) && fresh(ies)
    {
      ies := new Byte[MAX_IE_SZ](i => if 0 <= i < FIXED then fixed[i] else 0);
      len := FIXED;
    }

    /** Copies octets into the buffer. */
    method Copy(pos: nat, octets: seq<Byte>)
      requires pos + |octets| <= ies.Length
      modifies ies
      ensures ies[..] == old(ies[..pos]) + octets + old(ies[pos + |octets|..])
    {
      forall k | 0 <= k < |octets| {
        ies[pos + k] := octets[k];
      }
    }

    /** The remainder is set aside, octets are written over a part, and the remainder is put behind them. */
    method Splice(pos: nat, octets: seq<Byte>, ghost x: seq<Byte>, ghost y: seq<Byte>, ghost z: seq<Byte>, oldLen: nat)
      requires Valid() && Data() == x + y + z && pos == |x| && oldLen == |y| && |x| + |octets| + |z| <= MAX_IE_SZ
      modifies this`len, ies
      ensures Valid() && Data() == x + octets + z
    {
      var remainder := ies[pos + oldLen..len];
      assert remainder == z by { Tail(ies[..], len, x + y, z); }
      assert ies[..pos] == x by { Tail(ies[..], len, x, y + z); assert x + y + z == x + (y + z); }
      Copy(pos, octets);
      assert ies[..pos + |octets|] == x + octets;
      Copy(pos + |octets|, remainder);
      len := pos + |octets| + |remainder|;
      assert ies[..len] == (x + octets) + z;
    }

    /** The first element with an identifier. */
    method GetIe(id: Byte, ghost fixed: seq<Byte>, ghost els: seq<Element>) returns (found: bool, pos: nat, ieLen: nat)
      requires Holds(fixed, els)
      ensures var k := IndexOf(els, id);
        found == (k < |els|) && (found ==> pos == At(els, k) && ieLen == |els[k].value|) && (!found ==> ieLen == 0)
    {
      hide Encode;
      found, pos, ieLen := false, FIXED, 0;
      WholeAt(els);
      if len < FIXED + 1 {
        SizeOfMany(els);
        return;
      }
      ghost var k := 0;
      SizeOfMany(els);
      while true
        invariant k < |els| && pos == At(els, k) && forall j | 0 <= j < k :: els[j].id != id
        decreases |els| - k
      {
        ElementAt(Data(), fixed, els, k);
        if ies[pos] == id {
          IndexIs(els, id, k);
          return true, pos, ies[pos + 1];
        }
        pos := pos + 2 + ies[pos + 1];
        k := k + 1;
        EndsAtLen(els, k);
        if pos >= len {
          IndexIs(els, id, k);
          return;
        }
      }
    }

    /** The scan for the place of an element: `p` is the element with the ID if `matched`, else the last one before it. */
    method FindPlace(id: Byte, ghost fixed: seq<Byte>, ghost els: seq<Element>)
      returns (any: bool, matched: bool, p: nat, ieLen: nat, ghost k: nat)
      requires Holds(fixed, els)
      ensures k <= |els| && (forall j | 0 <= j < k :: els[j].id < id) && (k < |els| ==> id <= els[k].id)
      ensures matched <==> k < |els| && els[k].id == id
      ensures matched ==> any && p == At(els, k) && ieLen == |els[k].value|
      ensures !matched ==> any == (k > 0) && (any ==> p == At(els, k - 1) && ieLen == |els[k - 1].value|)
    {
      hide Encode;
      var i := FIXED;
      any, matched, p, ieLen, k := false, false, 0, 0, 0;
      WholeAt(els);
      SizeOfMany(els);
      while i < len
        invariant k <= |els| && i == At(els, k) && (forall j | 0 <= j < k :: els[j].id < id) && !matched
        invariant any == (k > 0) && (any ==> p == At(els, k - 1) && ieLen == |els[k - 1].value|)
        decreases |els| - k
      {
        EndsAtLen(els, k);
        ElementAt(Data(), fixed, els, k);
        if ies[i] > id {
          return;
        } else if ies[i] == id {
          any, matched, p, ieLen := true, true, i, ies[i + 1];
          return;
        }
        any, p, ieLen := true, i, ies[i + 1];
        i := i + 2 + ies[i + 1];
        k := k + 1;
      }
      EndsAtLen(els, k);
    }

    method AddBcnIe(e: Element, ghost fixed: seq<Byte>, ghost els: seq<Element>)
      requires Holds(fixed, els) && FitsAdded(els, e)
      modifies this`len, ies
      ensures Holds(fixed, Added(els, e))
    {
      hide Encode, FitsAdded;
      var any, matched, p, ieLen;
      ghost var k;
      any, matched, p, ieLen, k := FindPlace(e.id, fixed, els);
      EndsAtLen(els, k);
      LowerBoundIs(els, e.id, k);
      WholeAt(els);
      SizeOfAdded(els, e);
      if any && ieLen > 0 {
        if matched {
          Replace(p, 2 + ieLen, e, fixed, els, k);
        } else {
          ElementAt(Data(), fixed, els, k - 1);
          Put(p + 2 + ieLen, e, fixed, els, k);
        }
      }
    }

    /** Writes an element over element `k`. */
    method Replace(pos: nat, oldLen: nat, e: Element, ghost fixed: seq<Byte>, ghost els: seq<Element>, ghost k: nat)
      requires Holds(fixed, els) && k < |els| && pos == At(els, k) && oldLen == 2 + |els[k].value|
      requires |e.value| < 256 && len + 2 + |e.value| <= MAX_IE_SZ + oldLen
      modifies this`len, ies
      ensures Holds(fixed, els[..k] + [e] + els[k + 1..])
    {
      hide Encode;
      ghost var a, b := els[..k], els[k + 1..];
      ElementAt(Data(), fixed, els, k);
      EncodeOne(els[k]);
      EncodeOne(e);
      Splice(pos, [e.id, |e.value|] + e.value, fixed + Encode(a), EncodeElement(els[k]), Encode(b), oldLen);
      EncodeAround(a, e, b);
      Regroup(fixed, Encode(a), EncodeElement(e));
      Regroup(fixed, Encode(a) + EncodeElement(e), Encode(b));
    }

    /** Writes an element in front of element `k`. */
    method Put(pos: nat, e: Element, ghost fixed: seq<Byte>, ghost els: seq<Element>, ghost k: nat)
      requires Holds(fixed, els) && k <= |els| && pos == At(els, k)
      requires |e.value| < 256 && len + 2 + |e.value| <= MAX_IE_SZ
      modifies this`len, ies
      ensures Holds(fixed, els[..k] + [e] + els[k..])
    {
      hide Encode;
      ghost var a, b := els[..k], els[k..];
      assert els == a + b;
      EncodeAppend(a, b);
      Regroup(fixed, Encode(a), Encode(b));
      EncodeOne(e);
      Splice(pos, [e.id, |e.value|] + e.value, fixed + Encode(a), [], Encode(b), 0);
      EncodeAround(a, e, b);
      Regroup(fixed, Encode(a), EncodeElement(e));
      Regroup(fixed, Encode(a) + EncodeElement(e), Encode(b));
    }

    method RemoveBcnIe(id: Byte, ghost fixed: seq<Byte>, ghost els: seq<Element>)
      requires Holds(fixed, els)
      modifies this`len, ies
      ensures Holds(fixed, Removed(els, id))
    {
      hide Encode;
      var found, p, ieLen := GetIe(id, fixed, els);
      if !found || ieLen == 0 {
        return;
      }
      ghost var k := IndexOf(els, id);
      ghost var a, b := els[..k], els[k + 1..];
      ElementAt(Data(), fixed, els, k);
      EncodeOne(els[k]);
      Splice(p, [], fixed + Encode(a), EncodeElement(els[k]), Encode(b), 2 + ieLen);
      EncodeAppend(a, b);
      Regroup(fixed, Encode(a), Encode(b));
      assert fixed + Encode(a) + [] == fixed + Encode(a);
    }
  }

  lemma Tail(all: seq<Byte>, len: nat, x: seq<Byte>, z: seq<Byte>)
    requires len <= |all| && all[..len] == x + z
    ensures all[|x|..len] == z && all[..|x|] == x
  {
    assert all[..|x|] == all[..len][..|x|];
  }

  lemma SizeOfMany(els: seq<Element>)
    requires IsList(els)
    ensures els != [] ==> |Encode(els)| >= 2
    ensures els == [] ==> Encode(els) == []
  {
  }

  /** Only the end of the list is at the end of the octets. */
  lemma EndsAtLen(els: seq<Element>, k: nat)
    requires IsList(els) && k <= |els|
    ensures k == |els| ==> At(els, k) == FIXED + |Encode(els)|
    ensures k < |els| ==> At(els, k) < FIXED + |Encode(els)|
  {
    assert els == els[..k] + els[k..];
    EncodeAppend(els[..k], els[k..]);
    SizeOfMany(els[k..]);
  }
}
