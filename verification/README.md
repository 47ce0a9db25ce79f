# A verified model of parts of the RTL 802.11 driver

This project models six parts of the driver in Dafny and proves what they are for. `dafny verify dfyconfig.toml`
checks all of it.

| part | modules |
|---|---|
| frequencies, channels and blocks | `Rf`, `Octets` |
| DFS master: availability check, non-occupancy, finish sweep, channel choice | `Dfs`, `DfsSafety`, `DfsMeaning`, `NopSweep`, `Chooser`, `ChooserMeaning` |
| NAT2.5 bridge: address database, frames, PPPoE relay tags, DHCP flag | `Nat25Db`, `Nat25Runs`, `Nat25Frames`, `Nat25Paths`, `Pppoe`, `Dhcp` |
| beacon of an access point: element lists, TIM, channel switch countdown, protection | `Ies`, `Tim`, `Csa`, `ApStations` |
| regulation: request list, merging, applying, beacon hints | `Regd`, `Chplan` |
| sounding periods, and the channel set with its element | `Sounding`, `ChannelSet` |

The code is modelled as classes whose methods change fields, arrays and buffers the way the driver does; each method
is proved against a function or a property of values, and the main results are lemmas about those functions: over
every run, every list or every buffer. Handlers are atomic steps. Time is an unbounded integer that does not go
back, with the sentinel values of the driver kept. Allocation succeeds. Clocks, packets sent and calls into other
parts are parameters, results or recorded lists.

Where the driver does less than one would expect, the exact condition is proved:

- The relay tag of a PPPoE discovery packet is inserted if and only if the sizes fit and the host stores integers in
  network order, because the length stored with a conversion is read back without one (`Pppoe.InsertRelay`); a PADI
  without tags shows it (`Nat25Frames.PadiDependsOnHost`).
- A DHCP request keeps a right UDP checksum if and only if its reserved flag bits were zero
  (`Dhcp.ChecksumKeptIffFlagsWereZero`, with a request that loses it in `Dhcp.ReservedFlagBreaksChecksum`).
- A channel switch countdown is announced, and the switch made, if and only if a non-empty element with a smaller ID
  is there to put the announcement behind (`Csa.SwitchedIffAnchored`).
- A TIM inserted into a beacon leaves the other elements whole, for every bitmap, if and only if the offset computed
  from SSID and rates falls between two elements (`Tim.PlacedIffBoundary`); without a DS parameter set it can land
  inside one (`Tim.WithoutDsItLandsInside`).
- The Barker preamble bit, and the width announced by the beacon, do not always follow a join or a leave; when they
  do can be told from the state before it (`ApStations.BarkerAfterJoin`, `ApStations.BarkerAfterLeave`,
  `ApStations.WidthAfterJoin`, `ApStations.WidthAfterLeave`), and two runs show that they need not
  (`ApStations.BarkerLagsBehind`, `ApStations.WidthLagsBehind`).
- Non-occupancy of a channel without the radar flag is covered by the wait if and only if the request for its block
  restarts the check, or the wait covered it before (`DfsSafety.EnableCoversIff`, `DfsSafety.CoveredIffOutlasted`);
  a run shows that widening the range need not (`DfsSafety.WideningDoesNotCover`).
- Applying regulation anew ends every running non-occupancy, and restarts no check: a channel that becomes a radar
  channel inside the running range is checked long enough if and only if its check time is left of the wait
  (`DfsSafety.CacSafety`, `DfsSafety.TooLateIsUnsafe`).

## Model

| member | source | states |
|---|---|---|
| `Rf.NoChannelHalfABlockAway` | core/rtw_rf.c:83-175 | No 20 MHz channel of the 5 GHz tables lies exactly half a block away from a block center, for any width |
| `Rf.EdgesMissChannels` | core/rtw_rf.c:1115-1164 | No channel center falls on an edge of a block of the tables, which is what makes comparing whole channel numbers exact |
| `Rf.BlockHoldsItsChannel` | core/rtw_rf.c:555-615 | Every block of the tables lists its own primary channel among its operating channels, and that channel lies inside its frequency range |
| `Rf.FrequencyRoundTrip` | core/rtw_rf.c:1002-1085 | Channel numbers and center frequencies are inverse to each other on every channel of the bands, and the numbers of the other bands come back from their frequencies |
| `Rf.ChannelsNameTheirBlock` | core/rtw_rf.c:757-881 | Every channel of a 5 GHz block, with its own offset at 40 MHz, has the center of that block as its center |
| `Rf.OffsetAt24` | core/rtw_rf.c:617-651 | At 2.4 GHz the 40 MHz partner is above for 1 to 4, below for 10 to 13, and for 5 to 9 as the result said before |
| `Rf.EveryChannelHasBlocks` | core/rtw_rf.c:617-750 | Every channel has an own offset, and a block of the tables at each width of its band, at 160 MHz except 132 to 144 |
| `Dfs.RfCtl.ChsetIsDfsRange` | core/rtw_dfs.c:19-34 | The scan of the set answers whether a radar channel of the set lies strictly between the ends of a range |
| `Dfs.RfCtl.ChsetIsNonOcp` | core/rtw_dfs.c:171-201 | A block is under non-occupancy exactly when one of its operating channels in the set is |
| `Dfs.RfCtl.ChsetGetNonOcpMs` | core/rtw_dfs.c:220-253 | The longest remaining non-occupancy of any channel of a block, 0 when there is none |
| `Dfs.RfCtl.ChsetUpdateNonOcp` | core/rtw_dfs.c:262-312 | A radar hit stamps exactly the channels touched by the reported block, and never with the sentinel value |
| `Dfs.RfCtl.GetChWaitingMs` | core/rtw_dfs.c:379-426 | The wait for a block: its remaining non-occupancy, and a check time that is none, one minute, or ten minutes under ETSI rules |
| `Dfs.RfCtl.IsCacResetNeeded` | core/rtw_dfs.c:433-486 | The decision whether a new range restarts the availability check; NoResetIffNoNewDfsChannel says what it means |
| `Dfs.RfCtl.ResetCacTimes` | core/rtw_dfs.c:488-515 | Both ends of the waiting period for a new range, neither equal to the sentinel |
| `Dfs.RfCtl.Enable` | core/rtw_dfs.c:677-717 | Switching detection on or moving it: new range, restarted or kept check |
| `Dfs.RfCtl.Disable` | core/rtw_dfs.c:719-753 | Switching detection off: what is remembered of the range and of the check |
| `Dfs.RfCtl.Decide` | core/rtw_dfs.c:755-910 | The outcome of the enable decision for the roles in use and the block asked for |
| `Dfs.RfCtl.Poll` | core/rtw_dfs.c:547-636 | What a poll does with a reported block: it sets the pending event and stamps the channels touched, wherever they are, unless detection is off or non-occupancy is still being waited for; without a report, a wait that is over is stopped. ReportStartsNonOccupancy says it in channel numbers |
| `Dfs.RfCtl.IsTxBlocked` | core/rtw_dfs.c:104-150 | The transmit gate: closed exactly for blocks that overlap the range while the channel waits |
| `DfsSafety.IsDfsRangeMeaning` | core/rtw_dfs.c:19-34 | The integer channel comparison finds a radar channel exactly when its center frequency lies inside the range |
| `DfsSafety.NoResetIffNoNewDfsChannel` | core/rtw_dfs.c:433-486 | The check is not restarted if and only if no radar is pending, there is an old range, and no radar channel of the new range was outside the old one |
| `DfsSafety.WaitingIsEnough` | core/rtw_dfs.c:379-426 | The waiting time of a block covers the non-occupancy and the own check time of every radar channel in it |
| `DfsSafety.StepKeepsInv` | core/rtw_dfs.c:547-753 | Every step (clock, decision, poll, sweep, regulation applied in time) keeps the invariant that missing listening time and running non-occupancy are covered by the remaining wait, for the check time of each channel |
| `DfsSafety.RegulateKeepsInvIff` | core/rtw_chplan.c:283-348 | Applying regulation anew keeps that invariant for a channel if and only if it does not turn it into a radar channel of the running range with less of the wait left than its check time |
| `DfsSafety.TooLateIsUnsafe` | core/rtw_chplan.c:283-348 | Any run after which regulation turns a channel of the range radar too late goes on, by time alone, to a state that waits no longer with a gap in the last check time of that channel |
| `DfsSafety.ReportIsNoted` | core/rtw_dfs.c:547-636 | In range, a radar report is noted exactly while the channel is listened to, except at the instant a check restarts |
| `DfsSafety.CacSafety` | core/rtw_dfs.c:433-753 | Over every run in which regulation turns no channel of the range radar too late: while detection is enabled and the channel is not waiting, each radar channel of the range has been listened to without a gap for its own check time, one minute or ten; the instant of a restart, at which a report is still ignored, counts as listening |
| `DfsSafety.NoFrameOnUncheckedChannel` | core/rtw_dfs.c:104-150 | Over the same runs: a frame let through by the gate touches no radar channel of the range that was not checked, in the same sense, for its own check time |
| `DfsSafety.NonOccupancySafety` | core/rtw_dfs.c:171-515 | Over the same runs: a running non-occupancy, until a new report or regulation replaces it, keeps every later range holding the channel waiting until its end plus the check time, and the gate closed to it, however the range moved in between |
| `DfsSafety.EnableCoversIff` | core/rtw_dfs.c:677-717 | For every channel of the requested block, radar channel or not: the wait afterwards lasts until its non-occupancy is over if and only if the check is restarted or the wait did so before |
| `DfsSafety.CoveredIffOutlasted` | core/rtw_dfs.c:379-515 | Over every run: a running non-occupancy of any channel, not stamped anew, is covered if and only if the last restart was for a block with a channel whose non-occupancy ended no earlier |
| `DfsSafety.WideningDoesNotCover` | core/rtw_dfs.c:433-486 | On every set with a radar channel 52, none below it, and non-occupancy on 36 but not on 52 to 64: a run from the start that brings 36 into the range with nothing waiting and the gate open to it, and after which making 36 a radar channel comes too late |
| `DfsSafety.DriverSetsAreUneven` | core/rtw_chset.c:50-81 | The sets the driver starts with, with radar flags on 52 to 144 and after a report for channel 36, are such sets |
| `DfsMeaning.ReportStartsNonOccupancy` | core/rtw_dfs.c:547-636 | A noted report puts exactly the channels within half the width of the reported center under non-occupancy, for thirty minutes from now, wherever the range is; a report that is not noted, or none, changes no channel |
| `DfsMeaning.ReportedChannelIsLeft` | core/rtw_dfs.c:262-312 | Over every run: once a report that hit a radar channel has been answered by a decision, every later range holding the channel waits, and the gate is closed to it, until thirty minutes after the report plus its check time of one or ten minutes, unless a new report or regulation intervenes |
| `DfsMeaning.CheckOfChannel` | core/rtw_rf.c:2403-2428 | Exactly 120, 124 and 128 need the check of ten minutes, and only under European rules |
| `DfsMeaning.DetectionIsOnIff` | core/rtw_dfs.c:755-910 | After a decision detection is on if and only if no station is linking, the block has a radar channel, and there is an access point without a linked station or a linked station that has to detect by itself; it is then on for that block |
| `DfsMeaning.LongCheckIff` | core/rtw_rf.c:2403-2428 | A block needs the check of ten minutes if and only if European rules are in force and 120, 124 or 128 is in it |
| `DfsMeaning.WaitIsExact` | core/rtw_dfs.c:379-426 | The wait for a block is the longest non-occupancy of its channels and a check of none, the rest of the one running, one minute or ten, in terms of the channels in it |
| `DfsMeaning.RestartIsExact` | core/rtw_dfs.c:488-515 | A restarted wait begins with the end of that non-occupancy and ends with the check time counted from there, or from two seconds from now if that is later |
| `DfsMeaning.OverlapIsSharing` | core/rtw_rf.c:83-175 | Two blocks of the tables overlap in frequency if and only if they share a 20 MHz channel |
| `DfsMeaning.GateIsClosedIff` | core/rtw_dfs.c:104-150 | The gate is closed to a block if and only if the channel waits, detection is on, and the block shares a 20 MHz channel with the range |
| `NopSweep.SearchChannel` | core/rtw_chset.c:121-135 | The search finds the channel with that band and number, enabled or not, if the set has one |
| `NopSweep.IsBlockRunOut` | core/rtw_dfs.c:314-352 | Whether all operating channels of a block are in the set and have run out |
| `NopSweep.CheckBlock` | core/rtw_dfs.c:314-352 | One block: when all its channels have run out they are stopped, and nothing else is |
| `NopSweep.BlocksNest` | core/rtw_rf.c:83-175 | Two blocks of the tables are disjoint or one contains the other |
| `NopSweep.CheckFinish` | core/rtw_dfs.c:355-377 | One sweep stops exactly the channels that have run out; the reported blocks are disjoint, cover exactly the channels newly stopped, and each is the widest block around its channels that has run out |
| `Chooser.IsBlockValid` | core/rtw_chset.c:158-214 | Whether the set allows every operating channel of a block under the width limits |
| `Chooser.ReplacesIsPreferred` | core/rtw_dfs.c:1068-1090 | The chain of comparisons that replaces the best candidate is a strict lexicographic order: waiting time, interference, width, own channel, own band |
| `Chooser.OwnOffsetIsEligible` | core/rtw_dfs.c:1040-1044 | Only 2.4 GHz channels 5 to 9 at 40 MHz depend on the offset carried from visit to visit; any other pair is offered if and only if it is eligible |
| `Chooser.ChoiceIsOptimal` | core/rtw_dfs.c:963-1107 | With 20 MHz supported and radar flags on 5 GHz only: the choice fails if and only if no pair of channel and width is eligible, and no eligible pair is preferred to the one chosen |
| `Chooser.ChooseShortestWaiting` | core/rtw_dfs.c:963-1107 | Fails exactly when no visit offers a pair; otherwise its choice is strictly preferred to every earlier offer in loop order, and no later one is preferred to it |
| `ChooserMeaning.ValidBlock5` | core/rtw_chset.c:158-203 | A 5 GHz block is valid if and only if it is one of the tables and each 20 MHz channel in it is in the set, enabled, not passive unless allowed, and forbids neither the width nor the side of its 40 MHz partner |
| `ChooserMeaning.ValidBlock24` | core/rtw_chset.c:158-203 | The same for 20 and 40 MHz at 2.4 GHz, where a 40 MHz block is two channels four apart |
| `ChooserMeaning.OfferMeaning` | core/rtw_dfs.c:989-1066 | A channel and a width are offered, with their whole wait, if and only if both fit the request: supported and permitted width, enabled channel, band and number asked for, a valid block without passive channels, a radar block or none as demanded |
| `Nat25Db.UnlinkKeepsSorted` | core/rtw_br_ext.c:401-414 | Taking an entry out of its chain leaves disjoint chains of distinct entries in their own buckets that hold all other entries |
| `Nat25Db.GapIsClosed` | core/rtw_br_ext.c:401-414 | Joining the neighbours of an entry leaves a chain linked both ways |
| `Nat25Db.HeadIsLinked` | core/rtw_br_ext.c:384-398 | A new head leaves a chain linked both ways |
| `Nat25Db.HashOfIpv4` | core/rtw_br_ext.c:330-337 | The bucket of an IPv4 client is the exclusive or of the octets of its address modulo 16 |
| `Nat25Db.Db.Find` | core/rtw_br_ext.c:491-507 | Walking one chain finds the entry with the address whenever the database has it |
| `Nat25Db.Db.Link` | core/rtw_br_ext.c:384-398 | A new entry at the head of its chain, every back pointer right |
| `Nat25Db.Db.Unlink` | core/rtw_br_ext.c:401-414 | An entry taken out through its back pointer, every remaining back pointer right |
| `Nat25Db.Db.LookupAndReplace` | core/rtw_br_ext.c:417-488 | Refines the map: an unaged entry answers with its MAC and counts a use; an aged one is found but neither answers nor counts |
| `Nat25Db.Db.Insert` | core/rtw_br_ext.c:491-526 | Refines the map: an address known is refreshed with the new MAC, an unknown one is entered with use count 1; chains, buckets and keys stay valid |
| `Nat25Db.Db.Drop` | core/rtw_br_ext.c:714-724 | Freeing an entry, and clearing the shortcut with its addresses exactly when it pointed to that entry |
| `Nat25Db.Db.Expire` | core/rtw_br_ext.c:645-730 | Refines the map: every aged entry loses one use and goes at zero, others stay; the shortcut never points to a freed entry |
| `Nat25Db.Db.Cleanup` | core/rtw_br_ext.c:616-642 | Empties the database and the shortcut |
| `Nat25Db.Db.FindScdbEntry` | core/rtw_br_ext.c:1565-1588 | The entry of one IPv4 address, if there is one |
| `Nat25Db.ExpireOneMore` | core/rtw_br_ext.c:645-730 | Passing over the entries one at a time is passing over all of them |
| `Nat25Runs.FreedOnUseCountthPass` | core/rtw_br_ext.c:645-730 | Over every run: an entry older than 300 seconds that is not inserted again is freed on exactly its use_count-th expire pass |
| `Nat25Runs.LatestClientIsFound` | core/rtw_br_ext.c:417-526 | Over every run of 300 seconds without another insert of the address, the latest client inserted is found, with exactly as many uses more as there were lookups |
| `Nat25Runs.LifeOfAnEntry` | core/rtw_br_ext.c:417-730 | A client entered and not seen again stays for 300 seconds, and from then on until there has been one expire pass more than lookups of it in that time |
| `Nat25Runs.UsesStayPositive` | core/rtw_br_ext.c:645-730 | Over every run, every entry in the database has a use left |
| `Nat25Paths.RecordMeaning` | core/rtw_br_ext.c:777-897 | From the octets: an IPv4 frame not from 0.0.0.0, an ARP packet for IPv4 and a session frame enter their sender with its MAC and the time, keeping the uses; every other frame leaves the database alone |
| `Nat25Paths.OutgoingMeaning` | core/rtw_br_ext.c:777-897 | From the octets: ARP packets go out with the station address as hardware sender and nothing else changed; which frames are refused |
| `Nat25Paths.LookMeaning` | core/rtw_br_ext.c:810-897 | From the octets: a frame for an IPv4 destination, an ARP target or a session goes to the MAC of its live client, which counts one use; with an aged entry it keeps its destination; for unknown clients IPv4 goes to everyone or to the bridge |
| `Nat25Paths.ReturnPath` | core/rtw_br_ext.c:777-897 | Over all traffic without another frame of the client, within 300 seconds: a frame whose IPv4 destination, ARP target or session is that of a recorded client goes to the MAC the frame of the client came from, ARP with it as the target, and is otherwise unchanged |
| `Nat25Paths.StrangersGoToBridge` | core/rtw_br_ext.c:819-838 | Over all traffic since the start without a frame of the client: an IPv4 frame for it goes to everyone if the last octet of the address is 255 and to the bridge otherwise; other frames keep their destination |
| `Nat25Paths.SentToChanges` | core/rtw_br_ext.c:440-447 | Sending a frame on changes its first six octets, in ARP also the hardware address of the target, and nothing else |
| `Nat25Paths.DiscoveryRequest` | core/rtw_br_ext.c:1136-1176 | Codes 0x09 and 0x19 are forwarded, on hosts with network order, if and only if the relay data of the client has at most 28 octets and there is room, with the marked tag in front and that data moved into it; other codes are refused |
| `Nat25Paths.DiscoveryReply` | core/rtw_br_ext.c:1207-1251 | Codes 0x07 and 0x65 that echo a marked tag go to the client it names with the relay data of the client left in place |
| `Nat25Paths.BridgeCases` | core/rtw_br_ext.c:1425-1450 | Which untagged unicast frames take the shortcut, are looked up, or pass while NAT2.5 is disabled, from the octets |
| `Nat25Frames.TagRoundTrip` | core/rtw_br_ext.c:1413-1460 | Taking the VLAN tag off and putting it on are inverse both ways |
| `Nat25Frames.Untag` | core/rtw_br_ext.c:1417-1423 | The in-place move of the addresses over the tag leaves exactly the untagged frame |
| `Nat25Frames.Retag` | core/rtw_br_ext.c:1454-1460 | The in-place move back leaves exactly the frame with its tag |
| `Nat25Frames.Bridge.HandleInsert` | core/rtw_br_ext.c:777-1204 | What recording a client does to frame and database: IPv4 with a source, ARP with the sender replaced, PPPoE sessions, and discovery requests with the relay tag added; malformed, unknown and other discovery frames are refused |
| `Nat25Frames.Bridge.HandleLookup` | core/rtw_br_ext.c:761-1270 | What looking up a reply does to frame and database, for each protocol and each refusal |
| `Nat25Frames.Bridge.HandleFrame` | core/rtw_br_ext.c:1393-1469 | Handling a tagged frame is handling the untagged one and putting the tag back; multicast passes; the shortcut and the disabled bridge |
| `Pppoe.FindTag` | core/rtw_br_ext.c:87-102 | The position of the first tag of a type, for every well-formed tag list |
| `Pppoe.Skb.PullAndMerge` | core/rtw_br_ext.c:124-143 | Removing octets from the middle of the data closes the gap in place; a range that reaches past the end is refused with the data untouched |
| `Pppoe.RelayRoundTrip` | core/rtw_br_ext.c:1136-1251 | A reply that echoes the inserted relay tag goes to the original client with exactly its own relay data, no tag if it had none or an empty one, every other tag kept |
| `Pppoe.InsertRelay` | core/rtw_br_ext.c:1136-1176 | The relay tag is inserted, with all other tags and the length field right, if and only if the host stores integers in network order and the sizes fit; on the other hosts the length read back unconverted is too big, and the packet is refused or octets are read past its end depending on the room behind it |
| `Nat25Frames.PadiDependsOnHost` | core/rtw_br_ext.c:105-122 | The same PADI without tags is forwarded on one host, and on the other refused or read past its end depending on the room behind it |
| `Pppoe.LookupRelay` | core/rtw_br_ext.c:1207-1251 | Destination, remaining relay data and length field after a reply, or refusal with the frame untouched |
| `Pppoe.EncodeConcat` | core/rtw_br_ext.c:87-102 | The octets of two tag lists in a row are the octets of the joined list |
| `Dhcp.Fold` | core/rtw_br_ext.c:1550-1555 | Folding the carries keeps the sum modulo 0xFFFF, ends in 16 bits, and gives zero only for zero |
| `Dhcp.FoldCarries` | core/rtw_br_ext.c:1553-1554 | The carry loop terminates with the folded sum |
| `Dhcp.NewCheckIsDifference` | core/rtw_br_ext.c:1548-1555 | The new checksum field is the old one minus the new flags word, modulo 0xFFFF, on hosts of either octet order |
| `Dhcp.ChecksumKeptIffFlagsWereZero` | core/rtw_br_ext.c:1543-1556 | A request with a right UDP checksum has a right one after the rewrite if and only if its old flags word was zero, for datagrams of any length |
| `Dhcp.ReservedFlagBreaksChecksum` | core/rtw_br_ext.c:1543-1556 | A request with a right checksum and one reserved flag bit set that has a wrong one after the rewrite, on hosts of either octet order |
| `Dhcp.MissingChecksumAppears` | core/rtw_br_ext.c:1543-1556 | A datagram without a checksum gets one, the complement of the flags word |
| `Dhcp.DhcpFlagBcast` | core/rtw_br_ext.c:1524-1562 | Exactly the DHCP requests from port 68 to 67 with the magic cookie and a clear flag are rewritten, in two words only |
| `Dhcp.RewrittenIff` | core/rtw_br_ext.c:1528-1545 | From the octets: a frame is rewritten if and only if it is IPv4 with UDP from port 68 to 67, carries the cookie and has the broadcast bit clear |
| `Dhcp.OnlyBitAndChecksum` | core/rtw_br_ext.c:1543-1556 | A rewritten frame differs in the broadcast bit, now set, and the two octets of the checksum only |
| `Ies.ElementsAreDetermined` | core/rtw_ieee80211.c:352-376 | A buffer holds at most one list of elements |
| `Ies.EditsKeepSorted` | core/rtw_ap.c:168-271 | Adding and removing an element keep the list sorted by element ID |
| `Ies.AddedIsFound` | core/rtw_ap.c:168-234 | Whoever looks for the ID after an addition to a sorted list finds the element, and the others are as they were; nothing happens if and only if the first element with the ID, or without one the last with a smaller ID, is missing or empty |
| `Ies.RemovedIsGone` | core/rtw_ap.c:236-271 | Removal takes out one element, unless the first with the ID is empty, and leaves all elements with other IDs |
| `Ies.Beacon.GetIe` | core/rtw_ieee80211.c:352-376 | The search over octets finds the first element with the ID, its place and its length, or nothing |
| `Ies.Beacon.AddBcnIe` | core/rtw_ap.c:168-234 | The buffer afterwards holds the list with the element added behind the last smaller ID, or over an element with its ID; nothing changes when that neighbour is missing or empty |
| `Ies.Beacon.RemoveBcnIe` | core/rtw_ap.c:236-271 | The buffer afterwards holds the list without the first element of that ID, unless it is empty |
| `Tim.TimRoundTrip` | core/rtw_ap.c:49-86 | Decoding gives back every octet and the bit of AID 0; the map starts at the largest even octet with only zeros before and ends at the last non-zero octet |
| `Tim.SetTimIe` | core/rtw_ap.c:49-86 | The two search loops and the copy produce the octets of that element, with any DTIM count and period |
| `Tim.UpdateBcnTim` | core/rtw_ap.c:88-166 | The map is replaced where it was, or its octets are inserted at the computed offset |
| `Tim.InsertBetween` | core/rtw_ap.c:109-165 | When the computed offset falls between two elements, the buffer holds the list with the map there and nothing else changed |
| `Tim.FrontIsThree` | core/rtw_ap.c:120-137 | SSID, rates and DS parameter set at the front make the offset fall behind them |
| `Tim.PlacedIffBoundary` | core/rtw_ap.c:118-165 | A beacon without a map keeps its elements, for every bitmap, if and only if the computed offset falls between two of them |
| `Tim.WithoutDsItLandsInside` | core/rtw_ap.c:118-165 | An instance: without a DS parameter set the map is written into the middle of an element |
| `Tim.UpdatedTimIsFound` | core/rtw_ap.c:103-165 | The first map found afterwards is the new one; the elements before and after are unchanged |
| `Tim.MapIsReadBack` | core/rtw_ap.c:88-166 | Whoever looks for the map in the updated beacon, replaced or inserted, reads back the whole bitmap |
| `Csa.CountdownRuns` | core/rtw_ap.c:3365-3413 | For every N and every kind of countdown, for a switch, a join or an announcement received: a countdown from N announces N, ..., 1, then removes the element, switches or joins at most once, with what holds at that update, and leaves the list as it was |
| `Csa.ChannelIsAnnounced` | core/rtw_ap.c:3365-3413 | During a countdown from N the first element with ID 37 reads mode 0, the new channel and the count N, ..., 1; a switch goes to the channel announced |
| `Csa.AnnouncementOctets` | core/rtw_ap.c:3376-3382 | The octets of that element in the beacon are 37, 3, 0, the channel, the count |
| `Csa.CountdownIsSilent` | core/rtw_ap.c:3365-3413 | Without a non-empty element in front of the announcement nothing is announced, and the count still runs down |
| `Csa.SwitchedIffAnchored` | core/rtw_ap.c:3327-3413 | Over every run the switch is made if and only if the countdown is for one, that element is there and the updates go on past zero; the join if and only if moreover the station is linking at the update after zero |
| `Csa.HiddenNetworkNeverSwitches` | core/rtw_ap.c:168-234 | An instance: with a hidden network name in front, a countdown is never seen and no switch is made |
| `Csa.CountdownKeepsOrder` | core/rtw_ap.c:168-271 | The beacon is sorted and well formed at every step of every countdown |
| `Csa.RfCtl.ApProcessCsa` | core/rtw_ap.c:3327-3363 | The switch or the join is issued at count zero only, once, with the state set to remove |
| `Csa.RfCtl.UpdateCsaIe` | core/rtw_ap.c:3365-3413 | The three cases of the element in the buffer, and when the switch is to be processed |
| `Csa.RfCtl.UpdateBeacon` | core/rtw_ap.c:3545-3565 | One update of buffer and count is one step of the countdown |
| `ApStations.CountsAreStations` | core/rtw_ap.c:3812-4100 | Every join, leave and report keeps each of the seven counts equal to the number of stations with the matching flag |
| `ApStations.RunKeepsInv` | core/rtw_ap.c:3493-4100 | Over every run from the start: the counts, the non-ERP and protection bits exactly while a non-ERP station is counted, and the HT Operation element carrying the mode |
| `ApStations.ErpFollows` | core/rtw_ap.c:3132-3135 | Writing the element only when the count passes between zero and one is enough, though the writer tests for exactly one |
| `ApStations.ModeAfterJoinOrLeave` | core/rtw_ap.c:3709-3778 | After each join or leave with HT on, the mode is a fixed function of the counts, overlapping legacy networks and the width of the access point, and the element carries it |
| `ApStations.FlagsAfterJoin` | core/rtw_ap.c:3812-3975 | Which flags a station has after it joins, from what it can do |
| `ApStations.WidthIsSaid` | core/rtw_ap.c:3181-3215 | When the width changes with a join or leave, the element says 20 MHz without a secondary channel, or 40 MHz with it above or below as the primary channel is the lower one or not |
| `ApStations.OtherErpBitsStay` | core/rtw_ap.c:3113-3145 | The other five bits of the ERP octet never change |
| `ApStations.ReportIsKept` | core/rtw_ap.c:3620-3646 | What a coexistence report leaves in the flags of the station and of the BSS |
| `ApStations.BarkerAfterJoin` | core/rtw_ap.c:3137-3140 | The Barker preamble bit is right after a join if and only if, judged before it, the join moves the non-ERP count from or to zero or does not move the count without short preamble so |
| `ApStations.BarkerAfterLeave` | core/rtw_ap.c:4008-4041 | The same for a leave |
| `ApStations.BarkerLagsBehind` | core/rtw_ap.c:3831-3851 | A run from the start after which the bit is wrong |
| `ApStations.ReportNarrows` | core/rtw_ap.c:3188-3203 | A coexistence report with anything new makes a 2.4 GHz beacon announce 20 MHz |
| `ApStations.WidthAfterJoin` | core/rtw_ap.c:3188-3203 | The width after a join, judged before it: unchanged unless the operation mode changes; then a 2.4 GHz network at 40 MHz narrows exactly when 40 MHz was or becomes unwelcome, and a narrowed one stays so exactly then or when it did not start at 40 MHz |
| `ApStations.WidthAfterLeave` | core/rtw_ap.c:3188-3203 | The same for a leave, which withdraws the intolerance of the station |
| `ApStations.WidthLagsBehind` | core/rtw_ap.c:3958-3983 | A run from the start after which 40 MHz is unwelcome and still announced |
| `ApStations.JoinBalances` | core/rtw_ap.c:3812-3975 | A join, also a repeated one with other capabilities, moves each count by what the flag of that station moved |
| `ApStations.LeaveBalances` | core/rtw_ap.c:4008-4072 | A leave takes the station out of every count it was in and clears all its flags |
| `ApStations.MlmePriv.constructor` | core/rtw_ap.c:4403-4445 | All counts zero, no mode, 40 MHz not given up |
| `ApStations.MlmePriv.HtOperationUpdate` | core/rtw_ap.c:3709-3778 | The three updates of the mode word, with a change reported exactly when the word changed |
| `ApStations.MlmePriv.UpdateBcnErpinfoIe` | core/rtw_ap.c:3113-3145 | The three bits of the ERP element |
| `ApStations.MlmePriv.UpdateBcnHtinfoIe` | core/rtw_ap.c:3153-3235 | Width, secondary channel and mode in the HT Operation element |
| `ApStations.MlmePriv.BssCapUpdateOnStaJoin` | core/rtw_ap.c:3812-4006 | The state after a join, of the station and of everything counted or announced |
| `ApStations.MlmePriv.BssCapUpdateOnStaLeave` | core/rtw_ap.c:4008-4100 | The state after a leave |
| `ApStations.MlmePriv.ProcessBssCoex` | core/rtw_ap.c:3601-3666 | The state after a coexistence report |
| `Regd.FollowedIsRight` | core/rtw_chplan.c:2211-2277 | Clearing, adding and sweeping leave exactly one request per distinct plan heard, with the number of records as its count, the other requests as they were; the list grew or shrank if and only if the set of plans changed |
| `Regd.CountedIffHeard` | core/rtw_chplan.c:2459-2470 | A plan is counted exactly when a record with a country has it |
| `Regd.StillFollows` | core/rtw_chplan.c:2316-2325 | Leaving the list alone is right when no plan of a record changed |
| `Regd.OthersUntouched` | core/rtw_chplan.c:2211-2277 | Requests of the driver and the user stay, in order |
| `Regd.CountryRequestsAreOurs` | core/rtw_chplan.c:2246-2277 | Every request for a country stays one of the driver, not of the operating system |
| `Regd.RfCtl.ClearZeroRef` | core/rtw_chplan.c:2226-2244 | Deleting while walking removes exactly the unreferenced country requests, and says whether there were any |
| `Regd.RfCtl.AddCountryIeReq` | core/rtw_chplan.c:2246-2277 | A plan known is counted once more, an unknown one gets a request |
| `Regd.RfCtl.UpdatePerLinkCisr` | core/rtw_chplan.c:2279-2331 | The records of a link or of all links of an interface, and whether a plan changed |
| `Regd.RfCtl.SelectEffectedCisr` | core/rtw_chplan.c:2339-2379 | The record in effect has the highest score of all records with a country, the country in effect kept among equals and the first taken otherwise; there is one exactly when a record has a country; a change is a change of plan |
| `Regd.SamePlanFollows` | core/rtw_chplan.c:2363-2372 | A record in effect whose plan stays the same needs no other request |
| `Regd.RfCtl.PrehdlCountryIe` | core/rtw_chplan.c:2498-2551 | After each handled update, early exits included, with following disabled, by intersection or by one record: list and counts are what the records call for, other requests untouched, the stored length right, and "effected" exactly when the set of plans changed |
| `Chplan.OrderDoesNotMatter` | core/rtw_chplan.c:2649-2698 | Lists with the same requests, in any order and multiplicity, apply the same plans |
| `Chplan.SelectedMeaning` | core/rtw_chplan.c:2649-2698 | Applied are the requests of the operating system if there are any, otherwise those of the driver, and of these the ones no other outranks and those that always are |
| `Chplan.PlansDecide` | core/rtw_chplan.c:194-348 | The plans applied determine the status and the flags of every channel |
| `Chplan.MergedMerges` | core/rtw_chplan.c:2699-2719 | Merging one more plan keeps: the country survives only on full agreement, the domain when all have it, protocols as far as all allow them |
| `Chplan.MergeIsUnique` | core/rtw_chplan.c:2699-2719 | The merged status is determined by the set of plans |
| `Chplan.OneMorePlan` | core/rtw_chplan.c:194-244 | Applying one more plan to a channel keeps: disabled when a valid plan forbids it, otherwise the union of the flags |
| `Chplan.RegulationIsUnique` | core/rtw_chplan.c:194-348 | The flags before hints are determined by the set of plans |
| `Chplan.RegulationFollowsTables` | core/rtw_chplan.c:194-348 | From the tables: a channel is enabled if and only if its band is allowed, it is not excluded, every applied driver request whose domain has a plan lists it without a disabling flag and an applied request of the operating system does; its flags are then the union of those entries |
| `Chplan.CountEnabledIs` | core/rtw_chplan.c:308-325 | The number counted is the number of enabled channels |
| `Chplan.RegulationIsOneDfsStep` | core/rtw_chplan.c:283-348 | Applying regulation is, to the DFS master, the one step its runs take: new flags that differ from the regulated ones at most by the passive flag, and every non-occupancy ending |
| `Chplan.HintsStaySound` | core/rtw_chplan.c:310-458 | Over every run of hints, re-application and ticks: a channel regulated passive is active only on a hint that is not stopped, and a radar channel or one of 1 to 11 at 2.4 GHz that is regulated passive is passive |
| `Chplan.HintActivatesIff` | core/rtw_chplan.c:356-403 | A beacon takes NO_IR away if and only if the country is 00, 99 or 98 and the channel is neither a radar channel nor one of 1 to 11 at 2.4 GHz; how long the hint lasts |
| `Chplan.RegulationActivatesIff` | core/rtw_chplan.c:310-335 | Regulation applied anew leaves a channel active that it makes passive if and only if it is enabled, its hint still runs and a beacon could activate it |
| `Chplan.HintEndsIff` | core/rtw_chplan.c:440-452 | A hint ends, and gives NO_IR back, if and only if it has run out |
| `Chplan.TickMakesPassive` | core/rtw_chplan.c:421-458 | After a tick with no active link every channel regulated passive is passive unless its hint still runs |
| `Chplan.Chplan.HighestRanks` | core/rtw_chplan.c:2657-2680 | The highest source, and the highest initiator of that source |
| `Chplan.Chplan.SelAndStatusUpdate` | core/rtw_chplan.c:2649-2730 | Marks exactly the requests to apply and leaves the merged status of their plans |
| `Chplan.Chplan.ChsetApplyFromOs` | os_dep/linux/wifi_regd.c:334-388 | A request of the operating system disables the channels its table disables or flags as excluded, and adds the flags of its table to the others |
| `Chplan.Chplan.ApplyRegdReqs` | core/rtw_chplan.c:246-281 | Every channel is regulated by the set of applied requests, of the driver and of the operating system, and that as RegulationFollowsTables says from the tables: a channel a valid plan does not list is disabled |
| `Chplan.Chplan.ApplyRegulatory` | core/rtw_chplan.c:283-348 | The same with hints that still run, the passive flag remembered, and the number of enabled channels counted |
| `Chplan.Chplan.ProcessBeaconHint` | core/rtw_chplan.c:375-403 | A heard beacon starts the time of the enabled channel; no flag changes but NO_IR, and that only of the channel heard, under the three countries, off radar channels and 2.4 GHz channels 1-11 |
| `Chplan.Chplan.BeaconHintExpire` | core/rtw_chplan.c:421-458 | Run-out hints are stopped and their channels passive again; reported exactly when a channel changed |
| `Sounding.ScanLists` | core/rtw_beamforming.c:693-778 | The lists of a period hold exactly the first beamformees whose turn has come, in order, up to two single-user and six multi-user |
| `Sounding.DueInItsTurn` | core/rtw_beamforming.c:716-727 | With c periods left to count an entry is listed in none of the next c-1 periods and is due in the one after them, whatever the other entries do |
| `Sounding.ListedCountsAnew` | core/rtw_beamforming.c:729-765 | A listed entry counts anew from its period in units of the shortest, except one listed only to be deleted |
| `Sounding.PeriodForgets` | core/rtw_beamforming.c:661-683 | A new period takes the marks of the one before from every entry in use |
| `Sounding.PeriodSoundsEachOnce` | core/rtw_beamforming.c:780-927 | For every order of reports, timeouts and handler calls: listed single-user beamformees are sounded in order, at most once, all of them by the end; the group at most once and after all of them; a sounding under way is never flagged as timed out |
| `Sounding.PeriodEndsIff` | core/rtw_beamforming.c:995-1621 | For every order of reports, timeouts and handler calls, lost and late reports included: a period ends if and only if they end as many soundings as there are listed beamformees not being deleted, plus one for the group if there is one |
| `Sounding.StartsPutOff` | core/rtw_beamforming.c:800-850 | A start with nothing to sound is repeated five times at most while a beamformee is not in the hardware, and then the soundings are idle; a scan puts a period off; nothing is sent |
| `Sounding.SoundingEnds` | core/rtw_beamforming.c:1575-1612 | The end of a sounding counts a report or a failure, lets a beamformee being deleted go, and reports one as leaving exactly when its failures come to thirty-one |
| `Sounding.FailuresCount` | core/rtw_beamforming.c:1595-1612 | After n failures in a row the count is n modulo 32 |
| `Sounding.SoundedDownAdvances` | core/rtw_beamforming.c:1562-1621 | The end of a sounding under way always starts another one or ends the period: the return that would stall it is not reached |
| `Sounding.ContinuedAdvances` | core/rtw_beamforming.c:851-927 | Going on always starts the next sounding in order or ends the period |
| `Sounding.StartingCounts` | core/rtw_beamforming.c:851-873 | Starting a listed entry lowers the count of unsounded ones, which bounds the recursion of handler and sound-down |
| `Sounding.BeamformingInfo.GetList` | core/rtw_beamforming.c:693-778 | The scan of the entries produces those lists and tells nothing-to-do from not-ready |
| `Sounding.BeamformingInfo.SoundingHandler` | core/rtw_beamforming.c:780-927 | The handler in each state, with its retries and its abort during a scan |
| `Sounding.BeamformingInfo.GoOn` | core/rtw_beamforming.c:851-927 | The next sounding, the group, or the end; terminates although it calls the sound-down |
| `Sounding.BeamformingInfo.SoundDown` | core/rtw_beamforming.c:1562-1621 | The end of a sounding in each state; terminates although it calls the handler |
| `Sounding.BeamformingInfo.TimeoutTimer` | core/rtw_beamforming.c:995-1025 | A timeout marks the beamformee under way and nothing else |
| `ChannelSet.ChsetInit` | core/rtw_chset.c:50-81 | The set starts with every 20 MHz channel of the bands asked for, each once, and no other |
| `ChannelSet.SetSptChsIe` | core/rtw_chset.c:278-326 | Decoding the element gives back the enabled channels in order, runs are maximal, length octet and returned length match, nothing around it is touched, nothing is written when no channel is enabled |
| `ChannelSet.ContentIsDetermined` | core/rtw_chset.c:278-326 | No other content with maximal runs stands for the same channels |
| `ChannelSet.RunEnds` | core/rtw_chset.c:304-317 | Writing out a pending run leaves well-formed pairs that decode to everything seen so far |

## Left out

- One hardware band, 2.4 and 5 GHz only: 6 GHz, mesh, multi-channel concurrency and WDS are not modelled.
- Locks, timers and command queues as objects, memory failure, netlink and cfg80211 events, logging.
- Hardware access, HAL calls, power limits, EDCCA and power save; constant country and channel plan tables are a parameter.
- The DFS runs exclude a forced stop of the check and clearance taken from another access point; the debug trigger that fakes a radar event is not modelled.
- DfsSafety.CacSafety: assumes decisions on blocks of the tables; a misaligned block is not one.
- The clock does not wrap around, so comparisons of times are comparisons of integers.
- Chooser.ChooseShortestWaiting: does not model the mesh-only choice, and time stands still during the call.
- The bridge's IPX, AppleTalk and IPv6 branches, relay tags switched off, and frames shorter than the headers they announce.
- Pppoe.InsertRelay: assumes a well-formed tag list in a PADI or PADR; over any other list the driver reads past the tags.
- Pppoe.LookupRelay: assumes a well-formed tag list in a PADO or PADS, and so do Nat25Frames.Bridge.HandleLookup and HandleFrame.
- Nat25Frames.Bridge.HandleInsert: says nothing of the frame forwarded when the relay tag length is read back wrong.
- The bridge's start with an all-zero bridge address, and its decision which transmitted frames to hand to NAT2.5.
- Dhcp.DhcpFlagBcast: assumes that a datagram from port 68 to port 67 holds the fixed part of a DHCP message.
- The extended channel switch element, which is a build option, and the sending of beacons.
- Tim.UpdateBcnTim: assumes that the computed offset lies inside the beacon; the driver does not check it.
- Ies.Beacon.AddBcnIe: assumes that the element fits into the buffer; the driver does not check it.
- ApStations.RunKeepsInv: starts with clear protection bits and an HT Operation element with mode zero, with the BSS started, and excludes the reset of one count and of the mode after a scan.
- The traffic bit of a station that leaves, and rate adaptation of the stations after a change.
- The operation mode is a record of the three parts of its word that the driver uses, and station flags are a set.
- Regd.RfCtl.PrehdlCountryIe: clearing the option bits of the request is not modelled, and a change of the options is handed in as one flag.
- Plans of records are those of `rtw_get_cisr_from_recv_country_ie`: all zero exactly when there is no country.
- Two interfaces with two links each for country records.
- A channel plan never lists a channel with the disabled flag.
- Adding and removing beamformees, their hardware registers, and the forced stop of a sounding period; the period timer.
- An entry not in use is not marked as sounded when a period starts.
- The search of channel widths that fit an ongoing group, and operating classes.
