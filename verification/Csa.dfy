/** The channel switch countdown in the beacon (core/rtw_ap.c, include/rtw_ap.h). */
module Csa {
  import opened Octets
  import opened Ies

  const EID_CHANNEL_SWITCH := 37
  const CSA_IE_LEN := 3
  const AP_CSA_DISABLE := 0
  const AP_SWITCH_CH_CSA := 1
  const CSA_STA_JOINBSS := 3
  const CSA_IE_REMOVE := 255

  /** The switch under way, the channels switched to so far, and the joins started so far. */
  datatype State = State(en: Byte, ch: Byte, cnt: Byte, switched: seq<Byte>, joined: nat)

  datatype Beaconing = Beaconing(els: seq<Element>, csa: State)

  function Announcement(ch: Byte, cnt: Byte): Element {
    Element(EID_CHANNEL_SWITCH, [0, ch, cnt])
  }

  /** Acting on the end of a countdown. */
  function Processed(s: State, linking: bool): State {
    if s.cnt != 0 then s
    else if s.en == AP_SWITCH_CH_CSA then s.(switched := s.switched + [s.ch], en := CSA_IE_REMOVE)
    else if s.en == CSA_STA_JOINBSS && linking then s.(joined := s.joined + 1, en := CSA_IE_REMOVE)
    else s
  }

  /** One update of the element in the beacon. */
  function Updated(b: Beaconing, linking: bool): Beaconing {
    var els, s := b.els, b.csa;
    var k := IndexOf(els, EID_CHANNEL_SWITCH);
    if s.en == AP_CSA_DISABLE || s.en == CSA_IE_REMOVE then b
    else if k < |els| && |els[k].value| == CSA_IE_LEN && s.cnt > 0 then
      Beaconing(els[..k] + [els[k].(value := els[k].value[2 := s.cnt])] + els[k + 1..], s.(cnt := s.cnt - 1))
    else if k == |els| && s.cnt > 0 then Beaconing(Added(els, Announcement(s.ch, s.cnt)), s.(cnt := s.cnt - 1))
    else if k < |els| && |els[k].value| > 0 && s.cnt == 0 then Beaconing(Removed(els, EID_CHANNEL_SWITCH), Processed(s, linking))
    else b
  }

  /** One update after the other, each with the state of the joining station at that time. */
  function Run(b: Beaconing, links: seq<bool>): Beaconing
    decreases |links|
  {
    if links == [] then b else Updated(Run(b, links[..|links| - 1]), links[|links| - 1])
  }

  // ----- the countdown

  /** The element the announcement goes behind is there and not empty. */
  predicate Anchored(els: seq<Element>) {
    var k := LowerBound(els, EID_CHANNEL_SWITCH);
    k > 0 && els[k - 1].value != []
  }

  predicate Starting(b: Beaconing) {
    b.csa.en != AP_CSA_DISABLE && b.csa.en != CSA_IE_REMOVE && b.csa.cnt > 0 && IndexOf(b.els, EID_CHANNEL_SWITCH) == |b.els|
  }

  function Announcing(els: seq<Element>, ch: Byte, cnt: Byte): seq<Element> {
    var k := LowerBound(els, EID_CHANNEL_SWITCH);
    els[..k] + [Announcement(ch, cnt)] + els[k..]
  }

  /** The beacon and the state after the updates of a countdown that is announced. */
  function Expected(b: Beaconing, links: seq<bool>): Beaconing
    requires Starting(b)
  {
    var n := |links|;
    if n == 0 then b
    else if n <= b.csa.cnt then Beaconing(Announcing(b.els, b.csa.ch, b.csa.cnt - n + 1), b.csa.(cnt := b.csa.cnt - n))
    else Beaconing(b.els, Processed(b.csa.(cnt := 0), links[b.csa.cnt]))
  }

  lemma Places(els: seq<Element>, ch: Byte, cnt: Byte)
    requires IndexOf(els, EID_CHANNEL_SWITCH) == |els|
    ensures Added(els, Announcement(ch, cnt)) == if Anchored(els) then Announcing(els, ch, cnt) else els
  {
  }

  lemma Finds(els: seq<Element>, ch: Byte, cnt: Byte)
    requires IndexOf(els, EID_CHANNEL_SWITCH) == |els|
    ensures var k, a := LowerBound(els, EID_CHANNEL_SWITCH), Announcing(els, ch, cnt);
      IndexOf(a, EID_CHANNEL_SWITCH) == k < |a| && a[k] == Announcement(ch, cnt) && a[..k] == els[..k] && a[k + 1..] == els[k..]
  {
    hide LowerBound, IndexOf;
    IndexIs(Announcing(els, ch, cnt), EID_CHANNEL_SWITCH, LowerBound(els, EID_CHANNEL_SWITCH));
  }

  lemma Recounts(els: seq<Element>, ch: Byte, cnt: Byte, next: Byte)
    requires IndexOf(els, EID_CHANNEL_SWITCH) == |els|
    ensures var k, a := LowerBound(els, EID_CHANNEL_SWITCH), Announcing(els, ch, cnt);
      IndexOf(a, EID_CHANNEL_SWITCH) == k < |a| && |a[k].value| == CSA_IE_LEN
      && a[..k] + [a[k].(value := a[k].value[2 := next])] + a[k + 1..] == Announcing(els, ch, next)
  {
    Finds(els, ch, cnt);
    hide LowerBound, IndexOf;
    assert Announcement(ch, cnt).value[2 := next] == Announcement(ch, next).value;
  }

  lemma TakesBack(els: seq<Element>, ch: Byte, cnt: Byte)
    requires IndexOf(els, EID_CHANNEL_SWITCH) == |els|
    ensures Removed(Announcing(els, ch, cnt), EID_CHANNEL_SWITCH) == els
  {
    hide LowerBound, IndexOf, Announcing;
    Finds(els, ch, cnt);
    Halves(els, LowerBound(els, EID_CHANNEL_SWITCH));
  }

  lemma Halves(els: seq<Element>, k: nat)
    requires k <= |els|
    ensures els[..k] + els[k..] == els
  {
  }

  lemma CountdownSteps(b: Beaconing, links: seq<bool>, next: bool)
    requires Starting(b) && Anchored(b.els)
    ensures Updated(Expected(b, links), next) == Expected(b, links + [next])
  {
    hide Added, Removed, Announcing, LowerBound, IndexOf, Anchored;
    var n := |links|;
    if n == 0 {
      Places(b.els, b.csa.ch, b.csa.cnt);
    } else if n <= b.csa.cnt {
      var c := b.csa.cnt - n + 1;
      Recounts(b.els, b.csa.ch, c, if n < b.csa.cnt then c - 1 else 0);
      TakesBack(b.els, b.csa.ch, c);
    }
  }

  /** A countdown from N announces N, N-1, ..., 1, then takes the announcement back, acts on its end once with what
      holds at that update, and leaves the beacon as it was. */
  lemma {:induction false} CountdownRuns(b: Beaconing, links: seq<bool>)
    requires Starting(b) && Anchored(b.els)
    ensures Run(b, links) == Expected(b, links)
    decreases |links|
  {
    if links == [] {
      assert Run(b, links) == b;
    } else {
      hide Updated, Expected, Anchored, Starting;
      var n := |links| - 1;
      CountdownRuns(b, links[..n]);
      CountdownSteps(b, links[..n], links[n]);
      assert links[..n] + [links[n]] == links;
    }
  }

  /** What every station reads during a countdown from N, after its n-th update and as section 9.4.2.19 of IEEE
      802.11-2016 has it: the first element with ID 37 has three octets, the mode 0, the new channel, and the count
      N - n + 1; after the countdown for a switch, it is that channel the switch goes to. */
  lemma ChannelIsAnnounced(b: Beaconing, links: seq<bool>)
    requires Starting(b) && Anchored(b.els)
    ensures var r, n := Run(b, links), |links|;
      (0 < n <= b.csa.cnt ==>
        exists k :: 0 <= k < |r.els| && r.els[k] == Element(37, [0, b.csa.ch, b.csa.cnt - n + 1]) && forall j | 0 <= j < k :: r.els[j].id != 37)
      && (n > b.csa.cnt && b.csa.en == 1 ==> r.csa.switched == b.csa.switched + [b.csa.ch])
      && (n <= b.csa.cnt ==> r.csa.switched == b.csa.switched)
  {
    hide Run, Announcing, Anchored, LowerBound, IndexOf, Announcement;
    CountdownRuns(b, links);
    if 0 < |links| <= b.csa.cnt {
      Finds(b.els, b.csa.ch, b.csa.cnt - |links| + 1);
      ReadsBack(b.csa.ch, b.csa.cnt - |links| + 1);
      FoundIsFirst(Announcing(b.els, b.csa.ch, b.csa.cnt - |links| + 1));
    }
  }

  lemma ReadsBack(ch: Byte, cnt: Byte)
    ensures Announcement(ch, cnt) == Element(37, [0, ch, cnt])
  {
  }

  lemma FoundIsFirst(els: seq<Element>)
    ensures forall j | 0 <= j < IndexOf(els, EID_CHANNEL_SWITCH) :: els[j].id != 37
  {
  }

  /** The five octets of the announcement as they stand in the beacon. */
  lemma AnnouncementOctets(bcn: Beacon, fixed: seq<Byte>, els: seq<Element>, k: nat, ch: Byte, cnt: Byte)
    requires bcn.Holds(fixed, els) && k < |els| && els[k] == Element(37, [0, ch, cnt])
    ensures var d, p := bcn.Data(), At(els, k); p + 5 <= |d| && d[p] == 37 && d[p + 1] == 3 && d[p + 2] == 0 && d[p + 3] == ch && d[p + 4] == cnt
  {
    hide Encode;
    var d, p := bcn.Data(), At(els, k);
    ElementAt(d, fixed, els, k);
    assert d[p + 2..p + 5] == [0, ch, cnt];
  }

  /** Without an anchor nothing is announced, and what the countdown was for never happens. */
  lemma {:induction false} CountdownIsSilent(b: Beaconing, links: seq<bool>)
    requires Starting(b) && !Anchored(b.els)
    ensures Run(b, links) == Beaconing(b.els, b.csa.(cnt := if |links| <= b.csa.cnt then b.csa.cnt - |links| else 0))
    decreases |links|
  {
    if links != [] {
      CountdownIsSilent(b, links[..|links| - 1]);
    }
  }

  /** Over every run, the switch is made exactly when the countdown is for one, the announcement has a place and
      the updates go on past zero; a join moreover needs a station that is linking at the update after zero. */
  lemma SwitchedIffAnchored(b: Beaconing, links: seq<bool>)
    requires Starting(b)
    ensures var r, over := Run(b, links).csa, Anchored(b.els) && |links| > b.csa.cnt;
      (r.switched != b.csa.switched <==> over && b.csa.en == 1)
      && (r.joined != b.csa.joined <==> over && b.csa.en == 3 && links[b.csa.cnt])
  {
    hide Run, Announcing, Anchored;
    if Anchored(b.els) {
      CountdownRuns(b, links);
    } else {
      CountdownIsSilent(b, links);
    }
  }

  /** With a hidden network name and nothing else in front of the announcement, a countdown from 3 is never seen, and
      no switch is ever made. */
  lemma HiddenNetworkNeverSwitches(links: seq<bool>)
    ensures var b := Beaconing([Element(0, []), Element(48, [1, 0])], State(AP_SWITCH_CH_CSA, 36, 3, [], 0));
      Starting(b) && Sorted(b.els) && IsList(b.els) && Run(b, links).els == b.els && Run(b, links).csa.switched == []
  {
    var b := Beaconing([Element(0, []), Element(48, [1, 0])], State(AP_SWITCH_CH_CSA, 36, 3, [], 0));
    IndexIs(b.els, EID_CHANNEL_SWITCH, 2);
    LowerBoundIs(b.els, EID_CHANNEL_SWITCH, 1);
    CountdownIsSilent(b, links);
  }

  /** The beacon stays sorted and well formed at every step. */
  lemma CountdownKeepsOrder(b: Beaconing, links: seq<bool>)
    requires Starting(b) && Sorted(b.els) && IsList(b.els)
    ensures Sorted(Run(b, links).els) && IsList(Run(b, links).els)
  {
    hide Run;
    if Anchored(b.els) {
      CountdownRuns(b, links);
      if 0 < |links| <= b.csa.cnt {
        var k := LowerBound(b.els, EID_CHANNEL_SWITCH);
        SortedAround(b.els, k, k, Announcement(b.csa.ch, b.csa.cnt - |links| + 1));
      }
    } else {
      CountdownIsSilent(b, links);
    }
  }

  // ----- the code

  class RfCtl {
    var apCsaEn: Byte
    var apCsaCh: Byte
    var apCsaSwitchCnt: Byte
    var switched: seq<Byte>
    var joined: nat

    constructor ()
    {
      apCsaEn, apCsaCh, apCsaSwitchCnt, switched, joined := AP_CSA_DISABLE, 0, 0, [], 0;
    }

    function Abs(): State
      reads this
    {
      State(apCsaEn, apCsaCh, apCsaSwitchCnt, switched, joined)
    }

    /** An announcement that is about to be added fits into the beacon. */
    ghost predicate HasRoom(els: seq<Element>)
      reads this
    {
      apCsaEn != AP_CSA_DISABLE && apCsaEn != CSA_IE_REMOVE && apCsaSwitchCnt > 0 && IndexOf(els, EID_CHANNEL_SWITCH) == |els| ==>
        FitsAdded(els, Announcement(apCsaCh, apCsaSwitchCnt))
    }

    method ApProcessCsa(linking: bool)
      modifies this
      ensures Abs() == Processed(old(Abs()), linking)
    {
      if apCsaSwitchCnt != 0 {
        return;
      }
      if apCsaEn == AP_SWITCH_CH_CSA {
        switched := switched + [apCsaCh];
        apCsaEn := CSA_IE_REMOVE;
      } else if apCsaEn == CSA_STA_JOINBSS {
        if linking {
          apCsaEn := CSA_IE_REMOVE;
          joined := joined + 1;
        }
      }
    }

    method UpdateCsaIe(bcn: Beacon, ghost fixed: seq<Byte>, ghost els: seq<Element>) returns (update: bool, process: bool)
      requires bcn.Holds(fixed, els) && HasRoom(els)
      modifies bcn`len, bcn.ies
      ensures var b, done := Beaconing(els, old(Abs())), Updated(Beaconing(els, old(Abs())), false);
        bcn.Holds(fixed, done.els) && Abs() == old(Abs())
        && (update && Abs().cnt > 0 <==> done.csa.cnt < b.csa.cnt)
        && (process ==> update && Abs().cnt == 0)
        && (!process ==> done.csa == b.csa.(cnt := if update && b.csa.cnt > 0 then b.csa.cnt - 1 else b.csa.cnt))
        && (process ==> forall linking :: Updated(b, linking) == Beaconing(done.els, Processed(b.csa, linking)))
        && (!process ==> forall linking :: Updated(b, linking) == done)
    {
      hide Encode, FitsAdded;
      update, process := false, false;
      if apCsaEn == AP_CSA_DISABLE || apCsaEn == CSA_IE_REMOVE {
        return;
      }
      var found, pos, ieLen := bcn.GetIe(EID_CHANNEL_SWITCH, fixed, els);
      if found && ieLen == CSA_IE_LEN && apCsaSwitchCnt > 0 {
        WriteCount(bcn, pos, apCsaSwitchCnt, fixed, els, IndexOf(els, EID_CHANNEL_SWITCH));
        update := true;
      } else if !found && apCsaSwitchCnt > 0 {
        bcn.AddBcnIe(Announcement(apCsaCh, apCsaSwitchCnt), fixed, els);
        update := true;
      } else if found && ieLen > 0 && apCsaSwitchCnt == 0 {
        bcn.RemoveBcnIe(EID_CHANNEL_SWITCH, fixed, els);
        update, process := true, true;
      }
    }

    method WriteCount(bcn: Beacon, pos: nat, cnt: Byte, ghost fixed: seq<Byte>, ghost els: seq<Element>, ghost k: nat)
      requires bcn.Holds(fixed, els) && k < |els| && pos == At(els, k) && |els[k].value| == CSA_IE_LEN
      modifies bcn.ies
      ensures bcn.Holds(fixed, els[..k] + [els[k].(value := els[k].value[2 := cnt])] + els[k + 1..])
    {
      hide Encode;
      ghost var a, e, b := els[..k], els[k], els[k + 1..];
      ghost var e' := e.(value := e.value[2 := cnt]);
      ghost var d := bcn.Data();
      ElementAt(d, fixed, els, k);
      bcn.ies[pos + 4] := cnt;
      assert bcn.Data() == d[pos + 4 := cnt];
      Overwritten(fixed + Encode(a), e, Encode(b), cnt);
      EncodeAround(a, e', b);
      Regroup(fixed, Encode(a), EncodeElement(e'));
      Regroup(fixed, Encode(a) + EncodeElement(e'), Encode(b));
    }

    /** The channel switch case of a beacon update. */
    method UpdateBeacon(bcn: Beacon, linking: bool, ghost fixed: seq<Byte>, ghost els: seq<Element>)
      requires bcn.Holds(fixed, els) && HasRoom(els)
      modifies this, bcn`len, bcn.ies
      ensures var done := Updated(Beaconing(els, old(Abs())), linking);
        bcn.Holds(fixed, done.els) && Abs() == done.csa
    {
      var update, process := UpdateCsaIe(bcn, fixed, els);
      if process {
        ApProcessCsa(linking);
      }
      if update && apCsaSwitchCnt > 0 {
        apCsaSwitchCnt := apCsaSwitchCnt - 1;
      }
    }
  }

  lemma Overwritten(x: seq<Byte>, e: Element, z: seq<Byte>, cnt: Byte)
    requires |e.value| == CSA_IE_LEN
    ensures (x + EncodeElement(e) + z)[|x| + 4 := cnt] == x + EncodeElement(e.(value := e.value[2 := cnt])) + z
  {
  }
}
