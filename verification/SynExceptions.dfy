/** Where the egress program does less than its comments say: each time the exact condition, in terms of
    the packet that comes in, and a packet that shows it
    (fingerprint/bpf/syn_rewrite.bpf.c:6-7, 21-26, 68-79, 96-103, 145-147, 186-188). */
module SynExceptions {
  import opened Basics
  import opened RelayTypes
  import opened OnesComplement
  import opened SynPacket
  import opened SynLaws
  import opened SynOptions

  // ---- which packets are found ----

  /** An Ethernet frame with a TCP packet over a 20-byte IPv4 header. */
  predicate EthernetTcp(p: seq<byte>) {
    |p| >= 34 && Word(p[12], p[13]) == 0x0800 && p[14] == 0x45 && p[23] == 6
  }

  /** The program looks at the first byte before the EtherType: a destination address that begins with the
      digit 4 is read as the start of an IPv4 header. Such a frame is not found, or found in the wrong
      place; every other one is found where it is. */
  lemma LocatedIff(p: seq<byte>)
    requires EthernetTcp(p)
    ensures Locate(p) == Some(14) <==> p[0] / 16 != 4
    ensures Locate(p) == Some(0) <==> p[0] == 0x45 && p[9] == 6
    ensures Locate(p) == None <==> p[0] / 16 == 4 && (p[0] != 0x45 || p[9] != 6)
  {
  }

  /** So a marked frame leaves with the profile's TTL if and only if its destination address begins with
      another digit than 4, or it had that TTL already. */
  lemma TtlSetIff(p: seq<byte>, mark: nat, h: Helpers, partial: bool)
    requires EthernetTcp(p) && FP_WINDOWS <= mark <= FP_IOS && HelpersOk(h)
    ensures |Rewritten(p, mark, h, partial)| > 22
    ensures Rewritten(p, mark, h, partial)[22] == Ttl(mark) <==> p[0] / 16 != 4 || p[22] == Ttl(mark)
  {
    hide Locate, Rewritten, HeaderByte;
    LocatedIff(p);
    ProfileOnEveryPacket(p, mark, h, partial);
    if Locate(p) == Some(0) {
      NotTheTtl();
      if Reshapes(p, mark, h) {
        MisreadKeepsTtl(p, mark, h, partial);
      }
    }
  }

  lemma NotTheTtl()
    ensures !HeaderByte(22, 0)
  {
  }

  lemma MisreadKeepsTtl(p: seq<byte>, mark: nat, h: Helpers, partial: bool)
    requires HelpersOk(h) && Reshapes(p, mark, h) && Locate(p) == Some(0)
    ensures |p| >= 60 && |Rewritten(p, mark, h, partial)| > 22 && Rewritten(p, mark, h, partial)[22] == p[22]
  {
    hide NewOptions, NewIp, NewDoff, NewCsum, Reshaped, Packet, CarriedOver, PerPacket, Rewritten;
    var q := PerPacket(p, 0, mark, h.random);
    RewrittenIs(p, mark, h, partial);
    OptionsOf(q, 0, mark);
    MarkedBytes(p, 0, mark, h.random);
    assert q[22] == q[20..][2] && p[22] == p[20..][2];
    var link, ip, tcp, o, data := q[..0], q[0..20], q[20..40], q[40..60], q[60..];
    Split(q, 0);
    ReshapedParts(link, ip, tcp, o, data, mark, h, partial);
    var jp, t, w := NewIp(ip, mark), NewTcp(tcp, o, mark, partial), NewOptions(mark, o) + CarriedOver(mark, o, data, h);
    Parts(link, jp, t, w);
    SetTcp(link, jp, t, w, 2, 0);
    EarlyKept(tcp, o, mark, partial);
  }

  lemma EarlyKept(tcp: seq<byte>, o: seq<byte>, mark: nat, partial: bool)
    requires |tcp| == |o| == 20
    ensures NewTcp(tcp, o, mark, partial)[2] == tcp[2]
  {
    hide NewCsum;
  }

  // ---- the way out that writes no header checksum ----

  /** What the program makes of an IP ID. */
  function NewId(mark: nat, id: nat, random: nat): nat {
    if mark == FP_WINDOWS then id else if mark == FP_MACOS then 0 else random % 65536
  }

  /** The SYN is to be reshaped, and its length cannot be changed. */
  predicate Unresized(p: seq<byte>, mark: nat, h: Helpers) {
    HelpersOk(h) && Applies(p, mark) && LinuxSyn(p, Locate(p).value, mark) && h.pulled && !h.resized
  }

  lemma SynUnmoved(p: seq<byte>, l2: nat, mark: nat, random: nat)
    requires |p| >= l2 + 20
    ensures LinuxSyn(PerPacket(p, l2, mark, random), l2, mark) <==> LinuxSyn(p, l2, mark)
  {
    hide LinuxKinds;
    var q := PerPacket(p, l2, mark, random);
    MarkedBytes(p, l2, mark, random);
    if |p| >= l2 + 60 {
      assert q[l2 + 32] == q[l2 + 20..][12] && q[l2 + 33] == q[l2 + 20..][13];
      assert p[l2 + 32] == p[l2 + 20..][12] && p[l2 + 33] == p[l2 + 20..][13];
    }
  }

  /** The program leaves with the new TTL and IP ID and the old checksum. A header that was right is then
      right if and only if the words that hold TTL and ID have, as ones'-complement numbers, the sum they
      had before. */
  lemma {:induction false} UnresizedHeader(p: seq<byte>, mark: nat, h: Helpers, partial: bool)
    requires Unresized(p, mark, h) && HeaderOk(p[Locate(p).value..Locate(p).value + 20])
    ensures var l2 := Locate(p).value; var id := Word(p[l2 + 4], p[l2 + 5]); var r := Rewritten(p, mark, h, partial);
            && |r| == |p|
            && (HeaderOk(r[l2..l2 + 20]) <==> Same(NewId(mark, id, h.random) + Word(Ttl(mark), 0), id + Word(p[l2 + 8], 0)))
  {
    hide Sum, Folded, LinuxSyn, HeaderOk, Same, PerPacket, Word, NewId, Ttl;
    var l2 := Locate(p).value;
    var q := PerPacket(p, l2, mark, h.random);
    SynUnmoved(p, l2, mark, h.random);
    AndroidKept(p, l2, mark);
    MarkedHeader(p, l2, mark, h.random);
    var ip, jp := p[l2..l2 + 20], q[l2..l2 + 20];
    FirstWordCounts(jp);
    TwoWordsChange(ip, jp);
    WordParts(jp[8], jp[9]);
    WordParts(ip[8], ip[9]);
    SameLess(Word(jp[4], jp[5]) + Word(jp[8], 0), Word(ip[4], ip[5]) + Word(ip[8], 0), ip[9]);
  }

  lemma WordParts(hi: byte, lo: byte)
    ensures Word(hi, lo) == Word(hi, 0) + lo
  {
  }

  /** The header with its new TTL and IP ID. */
  lemma MarkedHeader(p: seq<byte>, l2: nat, mark: nat, random: nat)
    requires |p| >= l2 + 20 && FP_WINDOWS <= mark <= FP_IOS && mark != FP_ANDROID && p[l2] / 16 == 4
    ensures var ip, jp := p[l2..l2 + 20], PerPacket(p, l2, mark, random)[l2..l2 + 20];
            && ip[..4] == jp[..4] && ip[6..8] == jp[6..8] && ip[10..] == jp[10..] && jp[9] == ip[9]
            && jp[8] == Ttl(mark) && Word(jp[4], jp[5]) == NewId(mark, Word(ip[4], ip[5]), random) && jp[0] / 16 == 4
  {
    hide Word, Ttl, Hi, Lo, HeaderByte;
    MarkedProfile(p, l2, mark, random);
    WordOfPut(random);
    WordOfPut(0);
  }

  lemma AndroidKept(p: seq<byte>, l2: nat, mark: nat)
    requires LinuxSyn(p, l2, mark)
    ensures mark != FP_ANDROID
  {
  }

  lemma SameLess(a: int, b: int, c: int)
    ensures Same(a + c, b + c) <==> Same(a, b)
  {
  }

  /** The Windows profile leaves the IP ID alone: the header is right if and only if the TTL was 128. */
  lemma UnresizedWindows(p: seq<byte>, h: Helpers, partial: bool)
    requires Unresized(p, FP_WINDOWS, h) && HeaderOk(p[Locate(p).value..Locate(p).value + 20])
    ensures var l2 := Locate(p).value; var r := Rewritten(p, FP_WINDOWS, h, partial);
            |r| == |p| && (HeaderOk(r[l2..l2 + 20]) <==> p[l2 + 8] == 128)
  {
    hide HeaderOk, LinuxSyn, Same, Rewritten;
    var l2 := Locate(p).value;
    UnresizedHeader(p, FP_WINDOWS, h, partial);
    TtlOnly(p[l2 + 8], Word(p[l2 + 4], p[l2 + 5]));
  }

  lemma TtlOnly(ttl: byte, id: nat)
    ensures Same(id + Word(128, 0), id + Word(ttl, 0)) <==> ttl == 128
  {
  }

  /** The macOS profile, from the usual TTL of 64: if and only if the IP ID was zero, in either of its
      two forms. */
  lemma UnresizedMacOS(p: seq<byte>, h: Helpers, partial: bool)
    requires Unresized(p, FP_MACOS, h) && HeaderOk(p[Locate(p).value..Locate(p).value + 20])
    ensures var l2 := Locate(p).value; var id := Word(p[l2 + 4], p[l2 + 5]); var r := Rewritten(p, FP_MACOS, h, partial);
            |r| == |p| && (p[l2 + 8] == 64 ==> (HeaderOk(r[l2..l2 + 20]) <==> id == 0 || id == 0xffff))
  {
    hide HeaderOk, LinuxSyn, Same, Rewritten;
    var l2 := Locate(p).value;
    UnresizedHeader(p, FP_MACOS, h, partial);
    SameLess(0, Word(p[l2 + 4], p[l2 + 5]), Word(64, 0));
    ZeroForms(Word(p[l2 + 4], p[l2 + 5]));
  }

  lemma ZeroForms(id: nat)
    requires id <= 65535
    ensures Same(0, id) <==> id == 0 || id == 0xffff
  {
  }

  /** The iOS profile, from a TTL of 64: if and only if the random ID is the old one, zero in either form. */
  lemma UnresizedIOS(p: seq<byte>, h: Helpers, partial: bool)
    requires Unresized(p, FP_IOS, h) && HeaderOk(p[Locate(p).value..Locate(p).value + 20])
    ensures var l2 := Locate(p).value; var id := Word(p[l2 + 4], p[l2 + 5]); var r := Rewritten(p, FP_IOS, h, partial);
            |r| == |p| && (p[l2 + 8] == 64 ==> (HeaderOk(r[l2..l2 + 20]) <==> Same(h.random % 65536, id)))
  {
    hide HeaderOk, LinuxSyn, Same, Rewritten;
    var l2 := Locate(p).value;
    UnresizedHeader(p, FP_IOS, h, partial);
    SameLess(h.random % 65536, Word(p[l2 + 4], p[l2 + 5]), Word(64, 0));
  }

  // ---- packets that show it ----

  lemma SumTen(b: seq<byte>)
    requires |b| == 20
    ensures Sum(b) == Word(b[0], b[1]) + Word(b[2], b[3]) + Word(b[4], b[5]) + Word(b[6], b[7]) + Word(b[8], b[9])
                    + Word(b[10], b[11]) + Word(b[12], b[13]) + Word(b[14], b[15]) + Word(b[16], b[17]) + Word(b[18], b[19])
  {
    hide Sum;
    SumFive(b[..10]);
    SumFive(b[10..]);
    assert b == b[..10] + b[10..];
    SumConcat(b[..10], b[10..]);
  }

  lemma SumFive(b: seq<byte>)
    requires |b| == 10
    ensures Sum(b) == Word(b[0], b[1]) + Word(b[2], b[3]) + Word(b[4], b[5]) + Word(b[6], b[7]) + Word(b[8], b[9])
  {
    assert Sum(b) == Word(b[0], b[1]) + Sum(b[2..]);
    assert Sum(b[2..]) == Word(b[2], b[3]) + Sum(b[2..][2..]);
    assert Sum(b[2..][2..]) == Word(b[4], b[5]) + Sum(b[2..][2..][2..]);
    SumWord(b[2..][2..][2..][2..]);
  }

  /** An Ethernet header: the destination address, its first byte `first`, an all-zero source and IPv4. */
  function Link(first: byte): (l: seq<byte>)
    ensures |l| == 14
  {
    [first, 0, 0, 0, 0, 0, 0, 0, 0, 0, 0, 0, 8, 0]
  }

  /** 10.0.0.1 to 10.0.0.2, TTL 64, ID 0, total length `len`, with its checksum. */
  function Ip(len: byte): (ip: seq<byte>)
    requires 60 <= len <= 62
    ensures |ip| == 20
  {
    [0x45, 0, 0, len, 0, 0, 64, 0, 64, 6, 38, 246 - len, 10, 0, 0, 1, 10, 0, 0, 2]
  }

  lemma IpOk(len: byte)
    requires 60 <= len <= 62
    ensures HeaderOk(Ip(len))
  {
    SumTen(Ip(len));
  }

  /** A SYN with data offset 10 and checksum `hi`, `lo`. */
  function Tcp(hi: byte, lo: byte): (tcp: seq<byte>)
    ensures |tcp| == 20
  {
    [0, 0, 0, 0, 0, 0, 0, 0, 0, 0, 0, 0, 0xa0, 2, 0, 0, hi, lo, 0, 0]
  }

  /** MSS 1460, SACK permitted, zero timestamps, scale 7, in the Linux layout; `mssLen` is the length byte
      of the first option, 4 if it is right. */
  function Opts(mssLen: byte): (o: seq<byte>)
    ensures |o| == 20
  {
    [2, mssLen, 5, 180, 4, 2, 8, 10, 0, 0, 0, 0, 0, 0, 0, 0, 1, 3, 3, 7]
  }

  function Syn(first: byte, len: byte, hi: byte, lo: byte, mssLen: byte, data: seq<byte>): seq<byte>
    requires 60 <= len <= 62
  {
    Packet(Link(first), Ip(len), Tcp(hi, lo), Opts(mssLen) + data)
  }

  lemma SynBytes(first: byte, len: byte, hi: byte, lo: byte, mssLen: byte, data: seq<byte>)
    requires 60 <= len <= 62
    ensures var p := Syn(first, len, hi, lo, mssLen, data);
            && |p| == 74 + |data| && p[0] == first && p[8] == p[9] == 0
            && EthernetTcp(p) && p[14..34] == Ip(len) && p[22] == 64
            && p[54..74] == Opts(mssLen) && p[74..] == data
            && (forall mark :: mark != FP_ANDROID ==> LinuxSyn(p, 14, mark))
  {
    hide Packet;
    var link, ip, tcp, o := Link(first), Ip(len), Tcp(hi, lo), Opts(mssLen);
    var p := Syn(first, len, hi, lo, mssLen, data);
    Parts(link, ip, tcp, o + data);
    OptionBytes(p, 14, o, data);
    assert p[0] == p[..14][0] && p[8] == p[..14][8] && p[9] == p[..14][9] && p[12] == p[..14][12] && p[13] == p[..14][13];
    assert p[14] == p[14..34][0] && p[22] == p[14..34][8] && p[23] == p[14..34][9];
    assert p[46] == p[34..54][12] && p[47] == p[34..54][13];
  }

  /** A located SYN whose header was right and leaves wrong, because its length could not be changed. */
  lemma UnresizedCanFail(partial: bool) returns (p: seq<byte>, h: Helpers)
    ensures Unresized(p, FP_WINDOWS, h) && Locate(p) == Some(14) && |p| == 74
    ensures HeaderOk(p[14..34])
    ensures |Rewritten(p, FP_WINDOWS, h, partial)| == 74 && !HeaderOk(Rewritten(p, FP_WINDOWS, h, partial)[14..34])
  {
    hide HeaderOk, Rewritten, Syn, Ip, LinuxSyn, EthernetTcp;
    p, h := Syn(2, 60, 0, 0, 4, []), Helpers(0, true, false, [0, 0, 0, 0]);
    SynBytes(2, 60, 0, 0, 4, []);
    IpOk(60);
    LocatedIff(p);
    UnresizedWindows(p, h, partial);
  }

  /** A SYN that is taken for one with the Linux layout, and has no such layout: neither what comes in nor
      what goes out reads as it should. */
  lemma OddLengthIsReshaped(partial: bool) returns (p: seq<byte>, h: Helpers)
    ensures HelpersOk(h) && Reshapes(p, FP_WINDOWS, h) && Locate(p) == Some(14) && |p| == 74
    ensures |Rewritten(p, FP_WINDOWS, h, partial)| >= 66
    ensures !exists v :: GoodValues(v) && Parse(p[54..74]) == Some(LinuxLayout(v))
    ensures !exists v :: GoodValues(v) && Parse(Rewritten(p, FP_WINDOWS, h, partial)[54..66]) == Some(TargetLayout(FP_WINDOWS, v))
  {
    hide Rewritten, Syn, Ip, LinuxSyn, Parse, EthernetTcp, PerPacket, TargetLayout;
    p, h := Syn(2, 60, 0, 0, 5, []), Helpers(0, true, true, [0, 0, 0, 0]);
    SynBytes(2, 60, 0, 0, 5, []);
    LocatedIff(p);
    SynUnmoved(p, 14, FP_WINDOWS, 0);
    assert Reshapes(p, FP_WINDOWS, h);
    KindsSufficeIff(Opts(5));
    ReshapedMeaning(p, FP_WINDOWS, h, partial);
  }

  /** A SYN with two bytes of data whose right TCP checksum leaves wrong: the data was overwritten. */
  lemma DataCanBreakTheChecksum() returns (p: seq<byte>, h: Helpers)
    ensures HelpersOk(h) && Reshapes(p, FP_WINDOWS, h) && Locate(p) == Some(14) && |p| == 76
    ensures TcpOk(p, 14) && !TcpOk(Rewritten(p, FP_WINDOWS, h, false), 14)
  {
    hide Rewritten, Syn, Ip, LinuxSyn, EthernetTcp, PerPacket, TcpOk, Same, Sum;
    p, h := Syn(2, 62, 51, 251, 4, [0, 1]), Helpers(0, true, true, [0, 0, 0, 0]);
    SynBytes(2, 62, 51, 251, 4, [0, 1]);
    LocatedIff(p);
    SynUnmoved(p, 14, FP_WINDOWS, 0);
    assert Reshapes(p, FP_WINDOWS, h);
    WithDataOk();
    TcpChecksumKept(p, FP_WINDOWS, h);
    DataLost(h);
  }

  lemma WithDataOk()
    ensures TcpOk(Syn(2, 62, 51, 251, 4, [0, 1]), 14)
  {
    hide Sum, Packet;
    var link, ip, tcp, o := Link(2), Ip(62), Tcp(51, 251), Opts(4);
    TotalOf(link, ip, tcp, o + [0, 1]);
    SumBehind(tcp, o, [0, 1]);
    SumConcat(tcp, o);
    SumTen(tcp);
    SumTen(o);
    SumWord([0, 1]);
    assert ip[12..20] == [10, 0, 0, 1] + [10, 0, 0, 2];
    SumConcat([10, 0, 0, 1], [10, 0, 0, 2]);
    SumFour(10, 0, 0, 1);
    SumFour(10, 0, 0, 2);
  }

  lemma SumFour(a: byte, b: byte, c: byte, d: byte)
    ensures Sum([a, b, c, d]) == Word(a, b) + Word(c, d)
  {
    assert [a, b, c, d][2..] == [c, d];
    SumWord([c, d]);
  }

  lemma DataLost(h: Helpers)
    requires HelpersOk(h)
    ensures !Same(Sum(CarriedOver(FP_WINDOWS, Opts(4), [0, 1], h)) - Sum([0, 1]), 0)
  {
    assert CarriedOver(FP_WINDOWS, Opts(4), [0, 1], h) == [0, 0];
    SumWord([0, 0]);
    SumWord([0, 1]);
  }

  /** Two Ethernet frames with TCP over IPv4 that leave without the profile's TTL. The first is not found
      and leaves as it came; in the second a byte of the source address is overwritten instead. */
  lemma FramesMissed(h: Helpers, partial: bool) returns (p: seq<byte>, q: seq<byte>)
    requires HelpersOk(h)
    ensures EthernetTcp(p) && Rewritten(p, FP_WINDOWS, h, partial) == p && p[22] != Ttl(FP_WINDOWS)
    ensures EthernetTcp(q) && |Rewritten(q, FP_WINDOWS, h, partial)| > 22
    ensures var r := Rewritten(q, FP_WINDOWS, h, partial); r[22] != Ttl(FP_WINDOWS) && r[8] != q[8]
  {
    hide Rewritten, Syn, Ip, LinuxSyn, EthernetTcp;
    p := Syn(0x44, 60, 0, 0, 4, []);
    SynBytes(0x44, 60, 0, 0, 4, []);
    LocatedIff(p);
    ProfileOnEveryPacket(p, FP_WINDOWS, h, partial);
    var s := Syn(0x45, 60, 0, 0, 4, []);
    SynBytes(0x45, 60, 0, 0, 4, []);
    q := s[9 := 6];
    StillEthernet(s);
    LocatedIff(q);
    ProfileOnEveryPacket(q, FP_WINDOWS, h, partial);
    TtlSetIff(q, FP_WINDOWS, h, partial);
  }

  lemma StillEthernet(s: seq<byte>)
    requires EthernetTcp(s)
    ensures EthernetTcp(s[9 := 6])
  {
  }
}
