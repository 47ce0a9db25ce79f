/** Asking a DHCP server to answer by broadcast: the flag and the incremental UDP checksum (core/rtw_br_ext.c). */
module Dhcp {
  import opened Octets
  import opened Pppoe

  const ETH_HLEN := 14
  const UDP := 17
  const CLIENT_PORT := 68
  const SERVER_PORT := 67
  const COOKIE: seq<Byte> := [0x63, 0x82, 0x53, 0x63]

  /** Where the UDP header starts. */
  function UdpAt(d: seq<Byte>): nat
    requires |d| > ETH_HLEN
  {
    ETH_HLEN + 4 * (d[14] % 16)
  }

  predicate IsIp(d: seq<Byte>)
    requires |d| >= ETH_HLEN
  {
    U16At(d, 12) == 0x0800
  }

  predicate IsUdp(d: seq<Byte>)
    requires |d| >= ETH_HLEN && (IsIp(d) ==> |d| >= 34)
  {
    IsIp(d) && d[23] == UDP
  }

  /** From the client port to the server port. */
  predicate IsToServer(d: seq<Byte>)
    requires |d| >= ETH_HLEN && (IsIp(d) ==> |d| >= 34) && (IsUdp(d) ==> |d| >= UdpAt(d) + 8)
  {
    IsUdp(d) && U16At(d, UdpAt(d)) == CLIENT_PORT && U16At(d, UdpAt(d) + 2) == SERVER_PORT
  }

  /** The parts that are read are there: the headers, and a fixed DHCP message when the ports say so. */
  predicate HoldsDhcp(d: seq<Byte>) {
    |d| >= ETH_HLEN && (IsIp(d) ==> |d| >= 34) && (IsUdp(d) ==> |d| >= UdpAt(d) + 8) && (IsToServer(d) ==> |d| >= UdpAt(d) + 248)
  }

  predicate IsDhcpRequest(d: seq<Byte>)
    requires HoldsDhcp(d)
  {
    IsToServer(d) && d[UdpAt(d) + 244..UdpAt(d) + 248] == COOKIE
  }

  function FlagsOf(d: seq<Byte>): U16
    requires HoldsDhcp(d) && IsToServer(d)
  {
    U16At(d, UdpAt(d) + 18)
  }

  function CheckOf(d: seq<Byte>): U16
    requires HoldsDhcp(d) && IsToServer(d)
  {
    U16At(d, UdpAt(d) + 6)
  }

  // ----- the Internet checksum (RFC 1071)

  function Sum(s: seq<Byte>): nat {
    if |s| == 0 then 0 else if |s| == 1 then 256 * s[0] else U16At(s, 0) + Sum(s[2..])
  }

  predicate Congruent(a: int, b: int) {
    (a - b) % 0xffff == 0
  }

  /** The UDP checksum is right: the pseudo header and the datagram sum up to zero. */
  predicate Checks(d: seq<Byte>)
    requires HoldsDhcp(d) && IsToServer(d)
  {
    var u := UdpAt(d);
    var len := U16At(d, u + 4);
    u + len <= |d| && Congruent(Sum(d[26..34]) + UDP + len + Sum(d[u..u + len]), 0)
  }

  lemma {:induction false} SumAppend(a: seq<Byte>, b: seq<Byte>)
    requires |a| % 2 == 0
    ensures Sum(a + b) == Sum(a) + Sum(b)
  {
    if a == [] {
      assert a + b == b;
    } else {
      assert (a + b)[2..] == a[2..] + b;
      SumAppend(a[2..], b);
    }
  }

  /** Replacing the word at an even place moves the sum by the difference. */
  lemma SumOfReplaced(a: seq<Byte>, v: seq<Byte>, w: seq<Byte>, b: seq<Byte>)
    requires |a| % 2 == 0 && |v| == |w| == 2
    ensures Sum(a + w + b) - Sum(a + v + b) == U16At(w, 0) - U16At(v, 0)
  {
    SumAppend(a + w, b);
    SumAppend(a, w);
    SumAppend(a + v, b);
    SumAppend(a, v);
    assert w[2..] == [] && v[2..] == [];
  }

  /** The end-around carry. */
  function Fold(n: nat): (r: nat)
    ensures r < 0x10000 && Congruent(r, n) && (r == 0 <==> n == 0)
  {
    if n < 0x10000 then n else
      assert n == 0x10000 * (n / 0x10000) + n % 0x10000;
      var m := n % 0x10000 + n / 0x10000;
      assert n - m == 0xffff * (n / 0x10000);
      Carried(Fold(m), m, n);
      Fold(m)
  }

  lemma Carried(a: int, b: int, c: int)
    requires Congruent(a, b) && Congruent(b, c)
    ensures Congruent(a, c)
  {
  }

  method FoldCarries(n: nat) returns (sum: nat)
    ensures sum == Fold(n)
  {
    sum := n;
    while sum / 0x10000 != 0
      invariant Fold(sum) == Fold(n)
      decreases sum
    {
      sum := sum % 0x10000 + sum / 0x10000;
    }
  }

  // ----- octet order of the host

  function Host(n: U16, bigEndian: bool): (r: U16) {
    if bigEndian then n else Swap(n)
  }

  lemma HostWord(n: U16, bigEndian: bool)
    ensures Host(Host(n, bigEndian), bigEndian) == n
    ensures Congruent(if bigEndian then n else 256 * n, Host(n, bigEndian))
  {
    var hi, lo := n / 256, n % 256;
    assert n == 256 * hi + lo;
    assert Swap(n) == 256 * lo + hi && Swap(n) / 256 == lo && Swap(n) % 256 == hi;
    assert 256 * n - Swap(n) == 0xffff * hi;
  }

  /** The checksum field after the update, and the word it is updated with. */
  function NewCheck(check: U16, flags: U16, bigEndian: bool): U16 {
    Host(0xffff - Fold(0xffff - Host(check, bigEndian) + Host(flags, bigEndian)), bigEndian)
  }

  lemma NewCheckIsDifference(check: U16, flags: U16, bigEndian: bool)
    ensures Congruent(NewCheck(check, flags, bigEndian), check - flags)
  {
    hide Congruent, Fold, Swap;
    var c: int, f: int := Host(check, bigEndian), Host(flags, bigEndian);
    var sum := Fold(0xffff - c + f);
    if bigEndian {
      Complement(sum, check, flags);
    } else {
      HostWord(0xffff - sum, false);
      HostWord(c, false);
      HostWord(f, false);
      HostWord(check, false);
      HostWord(flags, false);
      ScaledComplement(sum, c, f, NewCheck(check, flags, false), check, flags);
    }
  }

  lemma Complement(s: int, c: int, f: int)
    requires Congruent(s, 0xffff - c + f)
    ensures Congruent(0xffff - s, c - f)
  {
    var a := (s - (0xffff - c + f)) / 0xffff;
    assert 0xffff - s - (c - f) == 0xffff * -a;
  }

  lemma ScaledComplement(s: int, c: int, f: int, n: int, check: int, flags: int)
    requires Congruent(s, 0xffff - c + f) && Congruent(256 * c, check) && Congruent(256 * f, flags) && Congruent(256 * (0xffff - s), n)
    ensures Congruent(n, check - flags)
  {
    var a, b, d, e := (s - (0xffff - c + f)) / 0xffff, (256 * c - check) / 0xffff, (256 * f - flags) / 0xffff, (256 * (0xffff - s) - n) / 0xffff;
    assert n - (check - flags) == 0xffff * (b - d - 256 * a - e);
  }

  // ----- the rewriting

  /** The frame with two words behind the UDP header replaced. */
  function WithWords(d: seq<Byte>, u: nat, check: U16, flags: U16): (r: seq<Byte>)
    requires |d| >= u + 20
    ensures |r| == |d|
  {
    d[..u + 6] + U16Octets(check) + d[u + 8..u + 18] + U16Octets(flags) + d[u + 20..]
  }

  predicate NeedsFlag(d: seq<Byte>)
    requires HoldsDhcp(d)
  {
    IsDhcpRequest(d) && FlagsOf(d) < 0x8000
  }

  function Rewritten(d: seq<Byte>, bigEndian: bool): seq<Byte>
    requires HoldsDhcp(d) && NeedsFlag(d)
  {
    var flags := FlagsOf(d) + 0x8000;
    WithWords(d, UdpAt(d), NewCheck(CheckOf(d), flags, bigEndian), flags)
  }

  /** Whether a frame is rewritten, told from its octets: an IPv4 frame with a UDP datagram from port 68 to port 67 behind
      its header, the DHCP cookie 244 octets behind that, and the broadcast bit clear. */
  lemma RewrittenIff(d: seq<Byte>)
    requires HoldsDhcp(d)
    ensures NeedsFlag(d) <==>
      d[12] == 8 && d[13] == 0 && d[23] == 17
      && var u := 14 + 4 * (d[14] % 16);
         d[u] == 0 && d[u + 1] == 68 && d[u + 2] == 0 && d[u + 3] == 67
         && d[u + 244] == 0x63 && d[u + 245] == 0x82 && d[u + 246] == 0x53 && d[u + 247] == 0x63 && d[u + 18] < 128
  {
    if IsToServer(d) {
      var c := d[UdpAt(d) + 244..UdpAt(d) + 248];
      assert c == COOKIE <==> c[0] == 0x63 && c[1] == 0x82 && c[2] == 0x53 && c[3] == 0x63;
    }
  }

  /** A rewritten frame has the broadcast bit set; besides that only the two octets of the checksum change. */
  lemma OnlyBitAndChecksum(d: seq<Byte>, bigEndian: bool)
    requires HoldsDhcp(d) && NeedsFlag(d)
    ensures var e, u := Rewritten(d, bigEndian), 14 + 4 * (d[14] % 16);
      |e| == |d| && e[u + 18] == d[u + 18] + 128 && forall k | 0 <= k < |d| && k != u + 18 && k != u + 6 && k != u + 7 :: e[k] == d[k]
  {
    var flags := FlagsOf(d) + 0x8000;
    assert flags / 256 == d[UdpAt(d) + 18] + 128 && flags % 256 == d[UdpAt(d) + 19];
    hide NewCheck;
  }

  /** Nothing but the two words changes. */
  lemma WordsOnly(d: seq<Byte>, u: nat, check: U16, flags: U16, k: nat)
    requires |d| >= u + 20
    requires k + 2 <= |d| && (k + 2 <= u + 6 || u + 8 <= k <= u + 16 || u + 20 <= k || k == u + 6 || k == u + 18)
    ensures U16At(WithWords(d, u, check, flags), k) == if k == u + 6 then check else if k == u + 18 then flags else U16At(d, k)
  {
    var r := WithWords(d, u, check, flags);
    var c, f := U16Octets(check), U16Octets(flags);
    assert r[u + 6] == c[0] && r[u + 7] == c[1] && r[u + 18] == f[0] && r[u + 19] == f[1];
  }

  lemma FiveParts(s: seq<Byte>)
    requires |s| >= 20
    ensures s == s[..6] + s[6..8] + (s[8..18] + s[18..20] + s[20..])
    ensures s == (s[..6] + s[6..8] + s[8..18]) + s[18..20] + s[20..]
  {
  }

  lemma SliceOfSlice(d: seq<Byte>, i: nat, j: nat, k: nat, l: nat)
    requires i <= j <= |d| && k <= l <= j - i
    ensures d[i..j][k..l] == d[i + k..i + l]
  {
    var s := d[i..j];
    forall m | 0 <= m < l - k ensures s[k..l][m] == d[i + k..i + l][m] {
      assert s[k..l][m] == s[k + m] == d[i + (k + m)];
    }
  }

  lemma WindowOfWords(d: seq<Byte>, u: nat, len: nat, c: seq<Byte>, f: seq<Byte>)
    requires |d| >= u + len && len >= 20 && |c| == |f| == 2
    ensures var s := d[u..u + len];
      var r := (d[..u + 6] + c + d[u + 8..u + 18] + f + d[u + 20..])[u..u + len];
      r == s[..6] + c + (s[8..18] + f + s[20..]) && r == (s[..6] + c + s[8..18]) + f + s[20..]
  {
    var s := d[u..u + len];
    assert d[..u + 6] == d[..u] + s[..6] && d[u + 20..] == s[20..] + d[u + len..];
    SliceOfSlice(d, u, u + len, 8, 18);
    var r := s[..6] + c + (s[8..18] + f + s[20..]);
    assert d[..u + 6] + c + d[u + 8..u + 18] + f + d[u + 20..] == d[..u] + r + d[u + len..];
  }

  lemma SameWord(d: seq<Byte>, u: nat, len: nat, k: nat)
    requires |d| >= u + len && k + 2 <= len
    ensures U16At(d[u..u + len][k..k + 2], 0) == U16At(d, u + k)
  {
    var w := d[u..u + len][k..k + 2];
    assert w[0] == d[u + k] && w[1] == d[u + k + 1];
  }

  lemma SumWithWords(d: seq<Byte>, u: nat, len: nat, check: U16, flags: U16)
    requires |d| >= u + len && len >= 20
    ensures Sum(WithWords(d, u, check, flags)[u..u + len])
      == Sum(d[u..u + len]) + check - U16At(d, u + 6) + flags - U16At(d, u + 18)
  {
    hide U16Octets, U16At, Sum;
    var s, r := d[u..u + len], WithWords(d, u, check, flags)[u..u + len];
    var a, b, z := s[..6], s[8..18], s[20..];
    var v, w := s[6..8], s[18..20];
    var c, f := U16Octets(check), U16Octets(flags);
    FiveParts(s);
    WindowOfWords(d, u, len, c, f);
    SameWord(d, u, len, 6);
    SameWord(d, u, len, 18);
    assert a + c + (b + w + z) == (a + c + b) + w + z;
    SumOfReplaced(a, v, c, b + w + z);
    SumOfReplaced(a + c + b, w, f, z);
  }

  /** The rewritten request carries a right checksum exactly when the reserved flag bits were clear, whatever the
      length of the datagram and the octet order of the host. */
  lemma ChecksumKeptIffFlagsWereZero(d: seq<Byte>, bigEndian: bool)
    requires HoldsDhcp(d) && NeedsFlag(d) && Checks(d) && d[14] % 16 >= 5 && U16At(d, UdpAt(d) + 4) >= 20
    ensures var e := Rewritten(d, bigEndian);
      HoldsDhcp(e) && IsDhcpRequest(e) && FlagsOf(e) == FlagsOf(d) + 0x8000
      && (Checks(e) <==> FlagsOf(d) == 0)
  {
    hide Sum, Swap, U16At, U16Octets, WithWords, NewCheck;
    var u, e := UdpAt(d), Rewritten(d, bigEndian);
    var len, flags, check := U16At(d, u + 4), FlagsOf(d) + 0x8000, NewCheck(CheckOf(d), FlagsOf(d) + 0x8000, bigEndian);
    SamePlace(d, check, flags);
    SumWithWords(d, u, len, check, flags);
    NewCheckIsDifference(CheckOf(d), flags, bigEndian);
    assert e[26..34] == d[26..34] by { SameAddresses(d, u, check, flags); }
    var p, s, t := Sum(d[26..34]) + UDP + len, Sum(d[u..u + len]), Sum(e[u..u + len]);
    assert t == s + check - CheckOf(d) + flags - FlagsOf(d);
    Difference(p + s, p + t, check, CheckOf(d) - flags, FlagsOf(d));
  }

  function Zeros(n: nat): (r: seq<Byte>)
    ensures |r| == n && forall i | 0 <= i < n :: r[i] == 0
  {
    seq(n, _ => 0)
  }

  lemma {:induction false} SumOfZeros(n: nat)
    ensures Sum(Zeros(n)) == 0
  {
    if n >= 2 {
      assert Zeros(n)[2..] == Zeros(n - 2);
      SumOfZeros(n - 2);
    }
  }

  /** An IP header without options and without addresses, for UDP. */
  function Header(): seq<Byte> {
    Zeros(12) + [8, 0, 0x45] + Zeros(8) + [UDP] + Zeros(10)
  }

  /** 248 octets from port 68 to port 67 with a right checksum, a reserved flag bit set, and nothing else but the cookie. */
  function Datagram(): seq<Byte> {
    [0, 68, 0, 67] + ([0, 248, 0x46, 0x91] + (Zeros(10) + ([0, 1] + (Zeros(224) + COOKIE))))
  }

  predicate IsHeader(h: seq<Byte>) {
    |h| == 34 && U16At(h, 12) == 0x0800 && h[14] == 0x45 && h[23] == UDP && Sum(h[26..34]) == 0
  }

  predicate IsDatagram(g: seq<Byte>) {
    |g| == 248 && U16At(g, 0) == 68 && U16At(g, 2) == 67 && U16At(g, 4) == 248 && U16At(g, 18) == 1 && g[244..248] == COOKIE
    && UDP + 248 + Sum(g) == 0xffff
  }

  /** A request with a right checksum and a reserved flag bit set goes out with a wrong checksum, from hosts of either
      octet order. */
  lemma ReservedFlagBreaksChecksum(bigEndian: bool)
    ensures var d := Header() + Datagram();
      HoldsDhcp(d) && NeedsFlag(d) && FlagsOf(d) == 1 && Checks(d)
      && HoldsDhcp(Rewritten(d, bigEndian)) && IsToServer(Rewritten(d, bigEndian)) && !Checks(Rewritten(d, bigEndian))
  {
    HeaderIsRight();
    DatagramIsRight();
    hide Header, Datagram, Sum, U16At, IsHeader, IsDatagram, Checks, Rewritten;
    var h, g := Header(), Datagram();
    RequestIsRight(h, g);
    ChecksumKeptIffFlagsWereZero(h + g, bigEndian);
  }

  lemma RequestIsRight(h: seq<Byte>, g: seq<Byte>)
    requires IsHeader(h) && IsDatagram(g)
    ensures var d := h + g;
      HoldsDhcp(d) && NeedsFlag(d) && d[14] % 16 == 5 && UdpAt(d) == 34 && U16At(d, 38) == 248 && FlagsOf(d) == 1 && Checks(d)
  {
    hide Sum;
    var d := h + g;
    assert d[14] == 0x45 && d[23] == UDP && U16At(d, 12) == 0x0800;
    forall k | k == 0 || k == 2 || k == 4 || k == 18 ensures U16At(d, 34 + k) == U16At(g, k) {
      assert d[34 + k] == g[k] && d[34 + k + 1] == g[k + 1];
    }
    assert d[26..34] == h[26..34] && d[34..34 + 248] == g;
    assert d[34 + 244..34 + 248] == g[244..248];
  }

  lemma HeaderIsRight()
    ensures IsHeader(Header())
  {
    var h := Header();
    assert h[12] == 8 && h[13] == 0 && h[26..34] == Zeros(8);
    SumOfZeros(8);
  }

  lemma SumOfTwo(a: Byte, b: Byte)
    ensures Sum([a, b]) == 256 * a as int + b
  {
    assert [a, b][2..] == [];
  }

  lemma SumOfFour(a: Byte, b: Byte, c: Byte, d: Byte)
    ensures Sum([a, b, c, d]) == 256 * a as int + b + 256 * c as int + d
  {
    assert [a, b, c, d] == [a, b] + [c, d];
    SumAppend([a, b], [c, d]);
    SumOfTwo(a, b);
    SumOfTwo(c, d);
  }

  lemma DatagramIsRight()
    ensures IsDatagram(Datagram())
  {
    DatagramParts();
    DatagramSum();
    hide Datagram, Sum;
  }

  lemma DatagramParts()
    ensures var g := Datagram();
      |g| == 248 && U16At(g, 0) == 68 && U16At(g, 2) == 67 && U16At(g, 4) == 248 && U16At(g, 18) == 1 && g[244..248] == COOKIE
  {
    var g := Datagram();
    assert g[0] == 0 && g[1] == 68 && g[2] == 0 && g[3] == 67 && g[4] == 0 && g[5] == 248 && g[18] == 0 && g[19] == 1;
  }

  lemma DatagramSum()
    ensures UDP + 248 + Sum(Datagram()) == 0xffff
  {
    hide Sum;
    var e := Zeros(224) + COOKIE;
    var d: seq<Byte> := [0, 1] + e;
    var c := Zeros(10) + d;
    var b: seq<Byte> := [0, 248, 0x46, 0x91] + c;
    assert Datagram() == [0, 68, 0, 67] + b;
    SumAppend([0, 68, 0, 67], b);
    SumAppend([0, 248, 0x46, 0x91], c);
    SumAppend(Zeros(10), d);
    SumAppend([0, 1], e);
    SumAppend(Zeros(224), COOKIE);
    SumOfZeros(10);
    SumOfZeros(224);
    SumOfFour(0, 68, 0, 67);
    SumOfFour(0, 248, 0x46, 0x91);
    SumOfTwo(0, 1);
    SumOfFour(0x63, 0x82, 0x53, 0x63);
  }

  lemma SameAddresses(d: seq<Byte>, u: nat, check: U16, flags: U16)
    requires |d| >= u + 20 && u >= 34
    ensures WithWords(d, u, check, flags)[26..34] == d[26..34]
  {
  }

  lemma SamePlace(d: seq<Byte>, check: U16, flags: U16)
    requires HoldsDhcp(d) && IsDhcpRequest(d) && d[14] % 16 >= 5
    ensures var u, e := UdpAt(d), WithWords(d, UdpAt(d), check, flags);
      HoldsDhcp(e) && IsDhcpRequest(e) && UdpAt(e) == u && FlagsOf(e) == flags && CheckOf(e) == check && U16At(e, u + 4) == U16At(d, u + 4)
  {
    var u, e := UdpAt(d), WithWords(d, UdpAt(d), check, flags);
    WordsOnly(d, u, check, flags, 12);
    WordsOnly(d, u, check, flags, u);
    WordsOnly(d, u, check, flags, u + 2);
    WordsOnly(d, u, check, flags, u + 4);
    WordsOnly(d, u, check, flags, u + 6);
    WordsOnly(d, u, check, flags, u + 18);
    assert e[14] == d[14] && e[23] == d[23] && e[u + 244..u + 248] == d[u + 244..u + 248];
  }

  lemma Difference(a: int, b: int, n: int, m: int, f: nat)
    requires Congruent(a, 0) && Congruent(n, m) && b == a + n - m - f && f < 0x8000
    ensures Congruent(b, 0) <==> f == 0
  {
    var i, j := a / 0xffff, (n - m) / 0xffff;
    assert b == 0xffff * (i + j) - f;
  }

  lemma SwapComplement(n: U16)
    ensures Swap(0xffff - n) == 0xffff - Swap(n)
  {
    var hi, lo := n / 256, n % 256;
    assert 0xffff - n == 256 * (255 - hi) + (255 - lo);
    assert (0xffff - n) / 256 == 255 - hi && (0xffff - n) % 256 == 255 - lo;
  }

  /** A datagram sent without a checksum gets one. */
  lemma MissingChecksumAppears(flags: U16, bigEndian: bool)
    requires 0x8000 <= flags < 0xffff
    ensures NewCheck(0, flags, bigEndian) == 0xffff - flags
  {
    var f: nat := Host(flags, bigEndian);
    assert Host(0, bigEndian) == 0;
    FoldOfFull(f) by { hide *; HostWord(flags, bigEndian); assert Host(0, bigEndian) == 0; }
    hide *;
    HostWord(flags, bigEndian);
    SwapComplement(f);
  }

  lemma FoldOfFull(f: nat)
    requires 0 < f < 0x10000
    ensures Fold(0xffff + f) == f
  {
    assert (0xffff + f) / 0x10000 == 1 && (0xffff + f) % 0x10000 == f - 1;
  }

  method DhcpFlagBcast(skb: Skb, dhcpBcstDisable: bool, bigEndian: bool)
    requires skb.Valid() && HoldsDhcp(skb.Data())
    modifies skb`buf
    ensures skb.Valid() && |skb.buf| == |old(skb.buf)|
    ensures var d := old(skb.Data());
      skb.Data() == if !dhcpBcstDisable && NeedsFlag(d) then Rewritten(d, bigEndian) else d
  {
    hide Swap, U16Octets, U16At, Fold, NewCheck, WithWords;
    var d := skb.Data();
    if !dhcpBcstDisable && IsDhcpRequest(d) {
      SetBroadcast(skb, UdpAt(d), bigEndian);
    }
  }

  method SetBroadcast(skb: Skb, u: nat, bigEndian: bool)
    requires skb.Valid() && |skb.Data()| >= u + 20
    modifies skb`buf
    ensures skb.Valid() && |skb.buf| == |old(skb.buf)|
    ensures var d := old(skb.Data());
      var check, flags := U16At(d, u + 6), U16At(d, u + 18);
      skb.Data() == if flags < 0x8000 then WithWords(d, u, NewCheck(check, flags + 0x8000, bigEndian), flags + 0x8000) else d
  {
    hide Swap, U16Octets, U16At, Fold, Host, WithWords;
    var d := skb.Data();
    var was: nat := U16At(d, u + 18);
    var flags: nat, bit := Host(was, bigEndian), if bigEndian then 0x8000 else 0x80;
    FlagBit(was, bigEndian);
    if flags / bit % 2 == 0 {
      flags := flags + bit;
      HostWord(was + 0x8000, bigEndian);
      var sum := FoldCarries(0xffff - Host(U16At(d, u + 6), bigEndian) + flags);
      SetWord(skb, u + 18, Host(flags, bigEndian));
      ghost var e := skb.Data();
      SetWord(skb, u + 6, Host(0xffff - sum, bigEndian));
      TwoWords(d, e, skb.Data(), u, Host(0xffff - sum, bigEndian), Host(flags, bigEndian));
    }
  }

  method SetWord(skb: Skb, pos: nat, n: U16)
    requires skb.Valid() && pos + 2 <= |skb.Data()|
    modifies skb`buf
    ensures skb.Valid() && |skb.buf| == |old(skb.buf)|
    ensures skb.Data() == old(skb.Data())[..pos] + U16Octets(n) + old(skb.Data())[pos + 2..]
  {
    ghost var d := skb.Data();
    assert d == d[..pos] + d[pos..pos + 2] + d[pos + 2..];
    skb.Write(pos, U16Octets(n), d[..pos], d[pos..pos + 2], d[pos + 2..]);
  }

  lemma TwoWords(d: seq<Byte>, e: seq<Byte>, g: seq<Byte>, u: nat, check: U16, flags: U16)
    requires |d| >= u + 20 && |e| == |d|
    requires e == d[..u + 18] + U16Octets(flags) + d[u + 20..] && g == e[..u + 6] + U16Octets(check) + e[u + 8..]
    ensures g == WithWords(d, u, check, flags)
  {
    var f := U16Octets(flags);
    assert e[..u + 6] == d[..u + 6] && e[u + 8..] == d[u + 8..u + 18] + f + d[u + 20..];
  }

  /** The broadcast bit as the host sees it. */
  lemma FlagBit(n: U16, bigEndian: bool)
    ensures var bit, h := if bigEndian then 0x8000 else 0x80, Host(n, bigEndian);
      (h / bit % 2 == 0 <==> n < 0x8000) && (n < 0x8000 ==> h + bit == Host(n + 0x8000, bigEndian))
  {
    var hi, lo := n / 256, n % 256;
    assert n == 256 * hi + lo;
    if bigEndian {
      assert n / 0x8000 == if n < 0x8000 then 0 else 1;
    } else {
      LittleBit(n, hi, lo);
    }
  }

  lemma LittleBit(n: U16, hi: nat, lo: nat)
    requires n == 256 * hi + lo && hi < 256 && lo < 256
    ensures Swap(n) / 0x80 % 2 == 0 <==> n < 0x8000
    ensures n < 0x8000 ==> Swap(n) + 0x80 == Swap(n + 0x8000)
  {
    assert n / 256 == hi && n % 256 == lo;
    assert Swap(n) == 256 * lo + hi;
    assert Swap(n) / 0x80 == 2 * lo + hi / 0x80;
    if n < 0x8000 {
      assert (n + 0x8000) / 256 == hi + 0x80 && (n + 0x8000) % 256 == lo;
    }
  }
}
