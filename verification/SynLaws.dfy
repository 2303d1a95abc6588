/** What the egress rewrite promises: header checksum, TCP checksum, option meaning and lengths
    (RFC 791 section 3.1; RFC 9293 section 3.1; RFC 7323 sections 2.2 and 3.2; RFC 2018 section 2). */
module SynLaws {
  import opened Basics
  import opened RelayTypes
  import opened OnesComplement
  import opened SynPacket

  // ---- the IPv4 header checksum ----

  /** A receiver accepts the header: its ten words sum to 0xffff. */
  predicate HeaderOk(ip: seq<byte>) {
    |ip| == 20 && Folded(Sum(ip)) == 0xffff
  }

  /** Whatever the other nine words are, two folds suffice and the header is accepted. */
  lemma ChecksumAccepted(ip: seq<byte>)
    requires |ip| == 20
    ensures HeaderOk(Put16(ip, 10, HeaderChecksum(ip)))
  {
    hide Sum, Fold, Folded;
    var c := HeaderChecksum(ip);
    var jp := Put16(ip, 10, c);
    var nine := Sum(ip[..10] + ip[12..]);
    SumBound(ip[..10] + ip[12..]);
    SumConcat(ip[..10], ip[12..]);
    assert jp == ip[..10] + ([Hi(c), Lo(c)] + ip[12..]);
    SumConcat(ip[..10], [Hi(c), Lo(c)] + ip[12..]);
    SumConcat([Hi(c), Lo(c)], ip[12..]);
    SumWord([Hi(c), Lo(c)]);
    assert Sum(jp) == nine + c;
    CsumFoldSame(nine);
    if Sum(jp) == 0 {
      assert nine == 0 && c == 0;
      FoldZero();
    }
    AcceptsIff(Sum(jp));
  }

  lemma FoldZero()
    ensures CsumFold(0) == 65535
  {
  }

  lemma WithIpCsumOk(p: seq<byte>, l2: nat)
    requires l2 + 20 <= |p|
    ensures HeaderOk(WithIpCsum(p, l2)[l2..l2 + 20])
  {
    hide HeaderOk, HeaderChecksum;
    var ip := p[l2..l2 + 20];
    ChecksumAccepted(ip);
    assert WithIpCsum(p, l2)[l2..l2 + 20] == Put16(ip, 10, HeaderChecksum(ip));
  }

  /** The program is done with a packet after all its checks. */
  predicate Applies(p: seq<byte>, mark: nat) {
    FP_WINDOWS <= mark <= FP_IOS && Locate(p).Some?
  }

  /** The packet is reshaped, length and all. */
  predicate Reshapes(p: seq<byte>, mark: nat, h: Helpers) {
    Applies(p, mark) && LinuxSyn(PerPacket(p, Locate(p).value, mark, h.random), Locate(p).value, mark) && h.pulled && h.resized
  }

  /** Every marked packet leaves with a header checksum that is accepted, whatever its old one was,
      unless its length was to change and could not. */
  lemma {:induction false} HeaderAccepted(p: seq<byte>, mark: nat, h: Helpers, partial: bool)
    requires HelpersOk(h) && Applies(p, mark)
    requires LinuxSyn(PerPacket(p, Locate(p).value, mark, h.random), Locate(p).value, mark) && h.pulled ==> h.resized
    ensures var l2 := Locate(p).value; var r := Rewritten(p, mark, h, partial);
            |r| >= l2 + 20 && HeaderOk(r[l2..l2 + 20])
  {
    hide HeaderOk, WithIpCsum, LinuxSyn, PerPacket, NewField;
    var l2 := Locate(p).value;
    var q := PerPacket(p, l2, mark, h.random);
    if Reshapes(p, mark, h) {
      LongEnough(q, l2, mark);
      ReheadedOk(q, l2, mark, h);
      var q' := Reheaded(q, l2, mark, h);
      assert Reshaped(q, l2, mark, h, partial)[l2..l2 + 20] == q'[l2..l2 + 20];
    } else {
      WithIpCsumOk(q, l2);
    }
  }

  lemma LongEnough(p: seq<byte>, l2: nat, mark: nat)
    requires LinuxSyn(p, l2, mark)
    ensures |p| >= l2 + 60
  {
  }

  lemma {:induction false} ReheadedOk(p: seq<byte>, l2: nat, mark: nat, h: Helpers)
    requires HelpersOk(h) && |p| >= l2 + 60
    ensures HeaderOk(Reheaded(p, l2, mark, h)[l2..l2 + 20])
  {
    hide HeaderOk, WithIpCsum;
    var q := Overlay(Resized(p, mark, h), l2 + 40, NewOptions(mark, p[l2 + 40..l2 + 60]));
    var q1 := q[l2 + 32 := 16 * NewOffset(mark) + q[l2 + 32] % 16];
    var q2 := if Shrinks(mark) then q1[l2 + 8 := Ttl(mark)] else q1;
    var q3 := Put16(q2, l2 + 2, NewTotalLen(mark, Word(q2[l2 + 2], q2[l2 + 3])));
    WithIpCsumOk(q3, l2);
  }

  // ---- two headers that differ in two words ----

  lemma HeaderWords(ip: seq<byte>)
    requires |ip| == 20
    ensures Sum(ip) == Sum(ip[..4]) + Word(ip[4], ip[5]) + Sum(ip[6..8]) + Word(ip[8], ip[9]) + Sum(ip[10..])
  {
    hide Sum;
    assert ip == ip[..4] + (ip[4..6] + (ip[6..8] + (ip[8..10] + ip[10..])));
    SumConcat(ip[..4], ip[4..6] + (ip[6..8] + (ip[8..10] + ip[10..])));
    SumConcat(ip[4..6], ip[6..8] + (ip[8..10] + ip[10..]));
    SumConcat(ip[6..8], ip[8..10] + ip[10..]);
    SumConcat(ip[8..10], ip[10..]);
    SumWord(ip[4..6]);
    SumWord(ip[8..10]);
  }

  /** Two headers that differ in the words at 4 and 8 only, one of them right: the other is right if and
      only if the two words have the same sum. */
  lemma TwoWordsChange(ip: seq<byte>, jp: seq<byte>)
    requires |ip| == |jp| == 20 && HeaderOk(ip) && Sum(jp) > 0
    requires ip[..4] == jp[..4] && ip[6..8] == jp[6..8] && ip[10..] == jp[10..]
    ensures HeaderOk(jp) <==> Same(Word(jp[4], jp[5]) + Word(jp[8], jp[9]), Word(ip[4], ip[5]) + Word(ip[8], ip[9]))
  {
    hide Sum, Folded, Same, Word;
    HeaderWords(ip);
    HeaderWords(jp);
    AcceptsIff(Sum(ip));
    AcceptsIff(Sum(jp));
    SameShift(Sum(ip), Sum(jp), Word(ip[4], ip[5]) + Word(ip[8], ip[9]), Word(jp[4], jp[5]) + Word(jp[8], jp[9]));
  }

  lemma SameShift(a: int, b: int, x: int, y: int)
    requires Same(a, 0) && b - a == y - x
    ensures Same(b, 0) <==> Same(y, x)
  {
    var k := a / M;
    assert a == k * M;
    if Same(b, 0) {
      assert y - x == (b / M - k) * M;
    }
    if Same(y, x) {
      assert b == ((y - x) / M + k) * M;
    }
  }

  lemma FirstWordCounts(ip: seq<byte>)
    requires |ip| == 20 && ip[0] / 16 == 4
    ensures Sum(ip) > 0
  {
    assert ip[0] >= 64;
  }

  // ---- the parts of a SYN ----

  /** There is room for an IPv4 header, a TCP header and 20 bytes of options; data may follow. */
  predicate HasOptions(p: seq<byte>, l2: nat) {
    |p| >= l2 + 60
  }

  /** A packet whose IPv4 header, TCP header and options are `ip`, `tcp` and `opts`, behind `link`. */
  function Packet(link: seq<byte>, ip: seq<byte>, tcp: seq<byte>, opts: seq<byte>): seq<byte> {
    link + (ip + (tcp + opts))
  }

  predicate Shaped(ip: seq<byte>, tcp: seq<byte>) {
    |ip| == 20 && |tcp| == 20
  }

  lemma Parts(link: seq<byte>, ip: seq<byte>, tcp: seq<byte>, opts: seq<byte>)
    requires Shaped(ip, tcp)
    ensures var p := Packet(link, ip, tcp, opts); var l := |link|;
            && |p| == l + 40 + |opts|
            && p[..l] == link && p[l..l + 20] == ip && p[l + 20..l + 40] == tcp && p[l + 40..] == opts
  {
    var p, l := Packet(link, ip, tcp, opts), |link|;
    assert p[l..] == ip + (tcp + opts);
    assert p[l + 20..] == p[l..][20..] == tcp + opts;
    assert p[l + 40..] == p[l + 20..][20..] == opts;
    assert p[l + 20..l + 40] == p[l + 20..][..20] == tcp;
    assert p[l..l + 20] == p[l..][..20] == ip;
  }

  lemma SetIp(link: seq<byte>, ip: seq<byte>, tcp: seq<byte>, opts: seq<byte>, at: nat, b: byte)
    requires Shaped(ip, tcp) && at < 20
    ensures var p := Packet(link, ip, tcp, opts);
            p[|link| + at] == ip[at] && p[|link| + at := b] == Packet(link, ip[at := b], tcp, opts)
  {
  }

  lemma SetTcp(link: seq<byte>, ip: seq<byte>, tcp: seq<byte>, opts: seq<byte>, at: nat, b: byte)
    requires Shaped(ip, tcp) && at < 20
    ensures var p := Packet(link, ip, tcp, opts);
            p[|link| + 20 + at] == tcp[at] && p[|link| + 20 + at := b] == Packet(link, ip, tcp[at := b], opts)
  {
  }

  lemma PutIp(link: seq<byte>, ip: seq<byte>, tcp: seq<byte>, opts: seq<byte>, at: nat, w: nat)
    requires Shaped(ip, tcp) && at < 19
    ensures Put16(Packet(link, ip, tcp, opts), |link| + at, w) == Packet(link, Put16(ip, at, w), tcp, opts)
  {
    hide Packet;
    SetIp(link, ip, tcp, opts, at, Hi(w));
    SetIp(link, ip[at := Hi(w)], tcp, opts, at + 1, Lo(w));
    Parts(link, ip, tcp, opts);
  }

  lemma PutTcp(link: seq<byte>, ip: seq<byte>, tcp: seq<byte>, opts: seq<byte>, at: nat, w: nat)
    requires Shaped(ip, tcp) && at < 19
    ensures Put16(Packet(link, ip, tcp, opts), |link| + 20 + at, w) == Packet(link, ip, Put16(tcp, at, w), opts)
  {
    hide Packet;
    SetTcp(link, ip, tcp, opts, at, Hi(w));
    SetTcp(link, ip, tcp[at := Hi(w)], opts, at + 1, Lo(w));
    Parts(link, ip, tcp, opts);
  }

  /** The IPv4 header of a reshaped SYN. */
  function NewIp(ip: seq<byte>, mark: nat): (jp: seq<byte>)
    requires |ip| == 20
    ensures |jp| == 20
  {
    var jp := if Shrinks(mark) then ip[8 := Ttl(mark)] else ip;
    var jp := Put16(jp, 2, NewTotalLen(mark, Word(ip[2], ip[3])));
    Put16(jp, 10, HeaderChecksum(jp))
  }

  function NewDoff(tcp: seq<byte>, mark: nat): (t: seq<byte>)
    requires |tcp| == 20
    ensures |t| == 20
  {
    tcp[12 := 16 * NewOffset(mark) + tcp[12] % 16]
  }

  /** The TCP checksum field of a reshaped SYN. */
  function NewCsum(tcp: seq<byte>, o: seq<byte>, mark: nat, partial: bool): (f: nat)
    requires |tcp| == |o| == 20
    ensures f <= 65535
  {
    Updated(Word(tcp[16], tcp[17]), CsumDiff(tcp[12..16], NewDoff(tcp, mark)[12..16]),
            CsumDiff(o, NewOptions(mark, o)), NewTcpLen(mark), partial)
  }

  /** The TCP header of a reshaped SYN. */
  function NewTcp(tcp: seq<byte>, o: seq<byte>, mark: nat, partial: bool): (t: seq<byte>)
    requires |tcp| == |o| == 20
    ensures |t| == 20
  {
    Put16(NewDoff(tcp, mark), 16, NewCsum(tcp, o, mark, partial))
  }

  /** What stands behind the new options: as many bytes as stood behind the old ones. A packet that
      shrinks has the last option bytes in front and loses its end; one that grows loses its front and has
      whatever the helper left at its end. */
  function CarriedOver(mark: nat, o: seq<byte>, data: seq<byte>, h: Helpers): (d: seq<byte>)
    requires |o| == 20 && HelpersOk(h)
    ensures |d| == |data|
  {
    if Shrinks(mark) then (o[12..] + data)[..|data|] else (data + h.tail)[4..]
  }

  lemma OptionsLaid(link: seq<byte>, ip: seq<byte>, tcp: seq<byte>, o: seq<byte>, data: seq<byte>, mark: nat, h: Helpers)
    requires HelpersOk(h) && Shaped(ip, tcp) && |o| == 20
    ensures var p := Packet(link, ip, tcp, o + data); var w := NewOptions(mark, o);
            && |p| == |link| + 60 + |data|
            && Overlay(Resized(p, mark, h), |link| + 40, w) == Packet(link, ip, tcp, w + CarriedOver(mark, o, data, h))
  {
    hide NewOptions;
    var p, w, l := Packet(link, ip, tcp, o + data), NewOptions(mark, o), |link|;
    Parts(link, ip, tcp, o + data);
    var q := Resized(p, mark, h);
    assert q[..l + 40] == link + (ip + tcp);
    if Shrinks(mark) {
      assert q[l + 52..] == p[l + 40..][12..12 + |data|];
    } else {
      assert q[l + 64..] == (p[l + 40..] + h.tail)[24..];
    }
    assert q[l + 40 + |w|..] == CarriedOver(mark, o, data, h);
  }

  lemma ReheadedParts(link: seq<byte>, ip: seq<byte>, tcp: seq<byte>, o: seq<byte>, data: seq<byte>, mark: nat, h: Helpers)
    requires HelpersOk(h) && Shaped(ip, tcp) && |o| == 20
    ensures |Packet(link, ip, tcp, o + data)| == |link| + 60 + |data|
    ensures Reheaded(Packet(link, ip, tcp, o + data), |link|, mark, h)
            == Packet(link, NewIp(ip, mark), NewDoff(tcp, mark), NewOptions(mark, o) + CarriedOver(mark, o, data, h))
  {
    hide Packet, NewOptions, HeaderChecksum, Put16, CarriedOver;
    var p, l := Packet(link, ip, tcp, o + data), |link|;
    Parts(link, ip, tcp, o + data);
    OptionBytes(p, l, o, data);
    var w := NewOptions(mark, o) + CarriedOver(mark, o, data, h);
    OptionsLaid(link, ip, tcp, o, data, mark, h);
    var t := NewDoff(tcp, mark);
    SetTcp(link, ip, tcp, w, 12, 16 * NewOffset(mark) + tcp[12] % 16);
    SetIp(link, ip, t, w, 8, Ttl(mark));
    var jp := if Shrinks(mark) then ip[8 := Ttl(mark)] else ip;
    SetIp(link, jp, t, w, 2, 0);
    SetIp(link, jp, t, w, 3, 0);
    var n := NewTotalLen(mark, Word(ip[2], ip[3]));
    PutIp(link, jp, t, w, 2, n);
    Parts(link, Put16(jp, 2, n), t, w);
    PutIp(link, Put16(jp, 2, n), t, w, 10, HeaderChecksum(Put16(jp, 2, n)));
  }

  lemma OptionBytes(p: seq<byte>, l: nat, o: seq<byte>, data: seq<byte>)
    requires |o| == 20 && |p| >= l + 60 && p[l + 40..] == o + data
    ensures p[l + 40..l + 60] == o && p[l + 60..] == data
  {
    assert p[l + 40..l + 60] == p[l + 40..][..20];
    assert p[l + 60..] == p[l + 40..][20..];
  }

  lemma OffsetWord(p: seq<byte>, l: nat)
    requires |p| >= l + 40
    ensures p[l + 32..l + 36] == p[l + 20..l + 40][12..16]
  {
    var t := p[l + 20..l + 40];
    forall k | 0 <= k < 4 ensures p[l + 32..l + 36][k] == t[12..16][k] {
      assert t[12 + k] == p[l + 20 + (12 + k)];
    }
  }

  lemma FieldKept(tcp: seq<byte>, mark: nat)
    requires |tcp| == 20
    ensures NewDoff(tcp, mark)[16] == tcp[16] && NewDoff(tcp, mark)[17] == tcp[17]
  {
  }

  /** A SYN, reshaped, part by part. */
  lemma ReshapedParts(link: seq<byte>, ip: seq<byte>, tcp: seq<byte>, o: seq<byte>, data: seq<byte>, mark: nat, h: Helpers,
                      partial: bool)
    requires HelpersOk(h) && Shaped(ip, tcp) && |o| == 20
    ensures |Packet(link, ip, tcp, o + data)| == |link| + 60 + |data|
    ensures Reshaped(Packet(link, ip, tcp, o + data), |link|, mark, h, partial)
            == Packet(link, NewIp(ip, mark), NewTcp(tcp, o, mark, partial), NewOptions(mark, o) + CarriedOver(mark, o, data, h))
  {
    hide Packet, NewOptions, NewIp, NewDoff, Put16, Reheaded, Updated, CsumDiff, CarriedOver;
    var p, l, w := Packet(link, ip, tcp, o + data), |link|, NewOptions(mark, o) + CarriedOver(mark, o, data, h);
    Parts(link, ip, tcp, o + data);
    ReheadedParts(link, ip, tcp, o, data, mark, h);
    var jp, t := NewIp(ip, mark), NewDoff(tcp, mark);
    var q := Packet(link, jp, t, w);
    Parts(link, jp, t, w);
    OptionBytes(p, l, o, data);
    OffsetWord(p, l);
    OffsetWord(q, l);
    SetTcp(link, jp, t, w, 16, 0);
    SetTcp(link, jp, t, w, 17, 0);
    FieldKept(tcp, mark);
    PutTcp(link, jp, t, w, 16, NewCsum(tcp, o, mark, partial));
  }

  // ---- the TCP checksum ----

  /** What a receiver sums: addresses, protocol, length, and the whole segment (RFC 9293 section 3.1). The
      length is the buffer's: see TotalByHeader. */
  function TcpTotal(p: seq<byte>, l2: nat): (t: nat)
    requires |p| >= l2 + 20
    ensures t >= 6
  {
    Sum(p[l2 + 12..l2 + 20]) + 6 + (|p| - l2 - 20) + Sum(p[l2 + 20..])
  }

  /** A receiver goes by the IP total length. Where that is the length of the packet, which a reshaping
      keeps so, it is the same sum. */
  lemma TotalByHeader(p: seq<byte>, l2: nat)
    requires |p| >= l2 + 20 && Word(p[l2 + 2], p[l2 + 3]) == |p| - l2
    ensures var len := Word(p[l2 + 2], p[l2 + 3]);
            TcpTotal(p, l2) == Sum(p[l2 + 12..l2 + 20]) + 6 + (len - 20) + Sum(p[l2 + 20..l2 + len])
  {
    assert p[l2 + 20..] == p[l2 + 20..|p|];
  }

  predicate TcpOk(p: seq<byte>, l2: nat) {
    |p| >= l2 + 20 && Folded(TcpTotal(p, l2)) == 0xffff
  }

  /** The pseudo-header's part of the sum: what the checksum field holds while the hardware is to
      finish it. */
  function PseudoTotal(p: seq<byte>, l2: nat): nat
    requires |p| >= l2 + 20
  {
    Sum(p[l2 + 12..l2 + 20]) + 6 + (|p| - l2 - 20)
  }

  function FieldOf(p: seq<byte>, l2: nat): nat
    requires |p| >= l2 + 40
  {
    Word(p[l2 + 36], p[l2 + 37])
  }

  lemma UpdatedSame(field: nat, doff: nat, opts: nat, len: nat, partial: bool)
    requires field <= 65535 && doff < TWO_32 && opts < TWO_32 && len <= 65535
    ensures Same(Updated(field, doff, opts, len, partial),
                 if partial then field - 40 + len else field - doff - opts + 40 - len)
  {
    hide Same, ReplacedByDiff, Replaced2;
    var f1 := ReplacedByDiff(field, doff, false, partial);
    var f2 := ReplacedByDiff(f1, opts, false, partial);
    ReplacedByDiffSame(field, doff, false, partial);
    ReplacedByDiffSame(f1, opts, false, partial);
    Replaced2Same(f2, 40, len, true, partial);
    SameSelf(opts);
    SameSelf(40 - len);
    if partial {
      SameChain(f2, f1, field);
      SameAdds(f2, field, 40 - len, 40 - len);
      SameChain(Updated(field, doff, opts, len, partial), f2 - (40 - len), field - (40 - len));
    } else {
      SameAdds(f1, field - doff, opts, opts);
      SameChain(f2, f1 - opts, field - doff - opts);
      SameAdds(f2, field - doff - opts, 40 - len, 40 - len);
      SameChain(Updated(field, doff, opts, len, partial), f2 + (40 - len), field - doff - opts + (40 - len));
    }
  }

  lemma TcpSum(tcp: seq<byte>, opts: seq<byte>)
    requires |tcp| == 20
    ensures Sum(tcp + opts) == Sum(tcp[..12]) + Sum(tcp[12..16]) + Word(tcp[16], tcp[17]) + Sum(tcp[18..]) + Sum(opts)
  {
    hide Sum;
    SumConcat(tcp, opts);
    assert tcp == tcp[..12] + (tcp[12..16] + (tcp[16..18] + tcp[18..]));
    SumConcat(tcp[..12], tcp[12..16] + (tcp[16..18] + tcp[18..]));
    SumConcat(tcp[12..16], tcp[16..18] + tcp[18..]);
    SumConcat(tcp[16..18], tcp[18..]);
    SumWord(tcp[16..18]);
  }

  /** The arithmetic of equation 3 of RFC 1624 for three changes at once. */
  lemma Balanced(d: int, d': int, field: int, f: int, o: int, w: int, len: int, doff: int, opts: int)
    requires Same(f, field - doff - opts + 40 - len) && Same(doff, d' - d) && Same(opts, w - o)
    ensures Same(len + d' + f + w, 40 + d + field + o)
  {
    var i, j, k := (f - (field - doff - opts + 40 - len)) / M, (doff - (d' - d)) / M, (opts - (w - o)) / M;
    assert f == field - doff - opts + 40 - len + i * M;
    assert doff == d' - d + j * M;
    assert opts == w - o + k * M;
    assert (len + d' + f + w) - (40 + d + field + o) == (i - j - k) * M;
  }

  lemma NewCsumSame(tcp: seq<byte>, o: seq<byte>, mark: nat)
    requires |tcp| == |o| == 20
    ensures Same(NewTcpLen(mark) + Sum(NewDoff(tcp, mark)[12..16]) + NewCsum(tcp, o, mark, false) + Sum(NewOptions(mark, o)),
                 40 + Sum(tcp[12..16]) + Word(tcp[16], tcp[17]) + Sum(o))
  {
    hide Sum, Same, Updated, CsumDiff, NewDoff, NewOptions, Word;
    var w, d := NewOptions(mark, o), NewDoff(tcp, mark);
    var doff, opts := CsumDiff(tcp[12..16], d[12..16]), CsumDiff(o, w);
    CsumDiffSame(tcp[12..16], d[12..16]);
    CsumDiffSame(o, w);
    UpdatedSame(Word(tcp[16], tcp[17]), doff, opts, NewTcpLen(mark), false);
    Balanced(Sum(tcp[12..16]), Sum(d[12..16]), Word(tcp[16], tcp[17]), NewCsum(tcp, o, mark, false),
             Sum(o), Sum(w), NewTcpLen(mark), doff, opts);
  }

  /** Data-offset word, options, checksum and length all change, and the sum does not. */
  lemma TotalKept(tcp: seq<byte>, o: seq<byte>, mark: nat)
    requires |tcp| == |o| == 20
    ensures var w := NewOptions(mark, o);
            Same(20 + |w| + Sum(NewTcp(tcp, o, mark, false) + w), 40 + Sum(tcp + o))
  {
    hide Sum, Same, NewCsum, NewOptions, NewDoff, NewTcp, NewTcpLen, Word;
    var w, d, t := NewOptions(mark, o), NewDoff(tcp, mark), NewTcp(tcp, o, mark, false);
    TcpSum(tcp, o);
    TcpSum(t, w);
    NewTcpParts(tcp, o, mark, false);
    NewCsumSame(tcp, o, mark);
    var rest := Sum(tcp[..12]) + Sum(tcp[18..]);
    SameSelf(rest);
    SameAdds(NewTcpLen(mark) + Sum(d[12..16]) + NewCsum(tcp, o, mark, false) + Sum(w),
             40 + Sum(tcp[12..16]) + Word(tcp[16], tcp[17]) + Sum(o), rest, rest);
  }

  lemma {:induction false} NewTcpParts(tcp: seq<byte>, o: seq<byte>, mark: nat, partial: bool)
    requires |tcp| == |o| == 20
    ensures var t := NewTcp(tcp, o, mark, partial); var d := NewDoff(tcp, mark);
            && t[..12] == tcp[..12] && t[12..16] == d[12..16] && t[18..] == tcp[18..]
            && Word(t[16], t[17]) == NewCsum(tcp, o, mark, partial)
            && |NewOptions(mark, o)| + 20 == NewTcpLen(mark)
  {
    hide NewCsum, NewOptions;
  }

  lemma Split(p: seq<byte>, l2: nat)
    requires HasOptions(p, l2)
    ensures p == Packet(p[..l2], p[l2..l2 + 20], p[l2 + 20..l2 + 40], p[l2 + 40..l2 + 60] + p[l2 + 60..])
  {
  }

  lemma TotalOf(link: seq<byte>, ip: seq<byte>, tcp: seq<byte>, opts: seq<byte>)
    requires Shaped(ip, tcp)
    ensures var p := Packet(link, ip, tcp, opts);
            |p| == |link| + 40 + |opts| && TcpTotal(p, |link|) == Sum(ip[12..20]) + 6 + (20 + |opts|) + Sum(tcp + opts)
    ensures var p := Packet(link, ip, tcp, opts);
            PseudoTotal(p, |link|) == Sum(ip[12..20]) + 6 + (20 + |opts|) && FieldOf(p, |link|) == Word(tcp[16], tcp[17])
  {
    hide Sum, Packet;
    var p, l := Packet(link, ip, tcp, opts), |link|;
    Parts(link, ip, tcp, opts);
    assert p[l + 12..l + 20] == p[l..l + 20][12..20];
    assert p[l + 20..] == p[l + 20..l + 40] + p[l + 40..];
    SetTcp(link, ip, tcp, opts, 16, 0);
    SetTcp(link, ip, tcp, opts, 17, 0);
  }

  lemma NewIpAddresses(ip: seq<byte>, mark: nat)
    requires |ip| == 20
    ensures NewIp(ip, mark)[12..20] == ip[12..20]
  {
    hide HeaderChecksum, NewTotalLen;
  }

  lemma SumBehind(tcp: seq<byte>, opts: seq<byte>, data: seq<byte>)
    requires |tcp| % 2 == 0 && |opts| % 2 == 0
    ensures Sum(tcp + (opts + data)) == Sum(tcp + opts) + Sum(data)
  {
    hide Sum;
    assert tcp + (opts + data) == (tcp + opts) + data;
    EvenParts(|tcp|, |opts|);
    SumConcat(tcp + opts, data);
  }

  lemma EvenParts(m: nat, n: nat)
    requires m % 2 == 0 && n % 2 == 0
    ensures (m + n) % 2 == 0
  {
  }

  /** By how much the reshaping changes what stands behind the options. */
  function DataShift(p: seq<byte>, l2: nat, mark: nat, h: Helpers): int
    requires HasOptions(p, l2) && HelpersOk(h)
  {
    Sum(CarriedOver(mark, p[l2 + 40..l2 + 60], p[l2 + 60..], h)) - Sum(p[l2 + 60..])
  }

  /** A reshaped SYN's sum is, as a ones'-complement number, the sum it had, but for the data. */
  lemma {:induction false} ReshapedTotal(p: seq<byte>, l2: nat, mark: nat, h: Helpers)
    requires HelpersOk(h) && HasOptions(p, l2)
    ensures var r := Reshaped(p, l2, mark, h, false);
            |r| >= l2 + 40 && Same(TcpTotal(r, l2), TcpTotal(p, l2) + DataShift(p, l2, mark, h))
  {
    hide Sum, Same, Packet, NewOptions, NewIp, NewTcp, Reshaped, TcpTotal, CarriedOver;
    var link, ip, tcp, o, data := p[..l2], p[l2..l2 + 20], p[l2 + 20..l2 + 40], p[l2 + 40..l2 + 60], p[l2 + 60..];
    var w, t, d := NewOptions(mark, o), NewTcp(tcp, o, mark, false), CarriedOver(mark, o, data, h);
    Split(p, l2);
    ReshapedParts(link, ip, tcp, o, data, mark, h, false);
    TotalOf(link, ip, tcp, o + data);
    TotalOf(link, NewIp(ip, mark), t, w + d);
    NewIpAddresses(ip, mark);
    SumBehind(tcp, o, data);
    SumBehind(t, w, d);
    TotalKept(tcp, o, mark);
    var rest := Sum(ip[12..20]) + 6 + |data| + Sum(d);
    SameSelf(rest);
    SameAdds(20 + |w| + Sum(t + w), 40 + Sum(tcp + o), rest, rest);
  }

  lemma HeaderEdits(p: seq<byte>, l2: nat, mark: nat, random: nat)
    requires l2 + 20 <= |p|
    ensures var q := PerPacket(p, l2, mark, random);
            q[l2 + 12..l2 + 20] == p[l2 + 12..l2 + 20] && q[l2 + 20..] == p[l2 + 20..]
    ensures var q := WithIpCsum(PerPacket(p, l2, mark, random), l2);
            q[l2 + 12..l2 + 20] == p[l2 + 12..l2 + 20] && q[l2 + 20..] == p[l2 + 20..]
  {
    hide HeaderChecksum;
  }

  /** The data behind the options is, as a ones'-complement number, what it was: always if there is none. */
  predicate DataKept(p: seq<byte>, mark: nat, h: Helpers)
    requires HelpersOk(h) && Applies(p, mark) && HasOptions(p, Locate(p).value)
  {
    Same(DataShift(p, Locate(p).value, mark, h), 0)
  }

  lemma NoDataKept(p: seq<byte>, mark: nat, h: Helpers)
    requires HelpersOk(h) && Applies(p, mark) && |p| == Locate(p).value + 60
    ensures DataKept(p, mark, h)
  {
    hide NewOptions;
    assert p[Locate(p).value + 60..] == [];
  }

  /** The TCP checksum of a marked packet, whatever the helpers answer. If the packet is not reshaped, or
      has no data behind its options, it is right after the rewrite if and only if it was right before.
      If a reshaped SYN has data, a right checksum stays right if and only if what then stands behind the
      options has the same ones'-complement sum as the data. */
  lemma {:induction false} TcpChecksumKept(p: seq<byte>, mark: nat, h: Helpers)
    requires HelpersOk(h) && Applies(p, mark)
    ensures var l2 := Locate(p).value; var r := Rewritten(p, mark, h, false);
            if !Reshapes(p, mark, h) then TcpOk(r, l2) <==> TcpOk(p, l2) else
            && HasOptions(p, l2)
            && (DataKept(p, mark, h) ==> (TcpOk(r, l2) <==> TcpOk(p, l2)))
            && (TcpOk(p, l2) ==> (TcpOk(r, l2) <==> DataKept(p, mark, h)))
            && (|p| == l2 + 60 ==> DataKept(p, mark, h))
  {
    hide Sum, Same, Folded, PerPacket, LinuxSyn, WithIpCsum, Reshaped, CarriedOver, Locate, Rewritten, TcpTotal;
    var l2 := Locate(p).value;
    var q := PerPacket(p, l2, mark, h.random);
    LocatedLength(p);
    HeaderEdits(p, l2, mark, h.random);
    RewrittenIs(p, mark, h, false);
    SameSegment(p, q, l2);
    if Reshapes(p, mark, h) {
      LongEnough(q, l2, mark);
      SameBehind(p, q, l2);
      ReshapedTotal(q, l2, mark, h);
      TotalShift(TcpTotal(Reshaped(q, l2, mark, h, false), l2), TcpTotal(p, l2), DataShift(p, l2, mark, h));
      if |p| == l2 + 60 {
        NoDataKept(p, mark, h);
      }
    } else {
      SameSegment(p, WithIpCsum(q, l2), l2);
    }
  }

  lemma LocatedLength(p: seq<byte>)
    requires Locate(p).Some?
    ensures |p| >= Locate(p).value + 20
  {
  }

  lemma RewrittenIs(p: seq<byte>, mark: nat, h: Helpers, partial: bool)
    requires HelpersOk(h) && Applies(p, mark)
    ensures |p| >= Locate(p).value + 20
    ensures var l2 := Locate(p).value; var q := PerPacket(p, l2, mark, h.random);
            && (Reshapes(p, mark, h) ==> |q| >= l2 + 60 && Rewritten(p, mark, h, partial) == Reshaped(q, l2, mark, h, partial))
            && (!Reshapes(p, mark, h) ==> Rewritten(p, mark, h, partial) == q || Rewritten(p, mark, h, partial) == WithIpCsum(q, l2))
  {
    hide PerPacket, WithIpCsum, Reshaped;
  }

  lemma SameSegment(p: seq<byte>, q: seq<byte>, l2: nat)
    requires |p| == |q| >= l2 + 20 && q[l2 + 12..l2 + 20] == p[l2 + 12..l2 + 20] && q[l2 + 20..] == p[l2 + 20..]
    ensures TcpTotal(q, l2) == TcpTotal(p, l2) && PseudoTotal(q, l2) == PseudoTotal(p, l2)
  {
  }

  lemma SameBehind(p: seq<byte>, q: seq<byte>, l2: nat)
    requires |p| == |q| >= l2 + 60 && q[l2 + 20..] == p[l2 + 20..]
    ensures q[l2 + 40..l2 + 60] == p[l2 + 40..l2 + 60] && q[l2 + 60..] == p[l2 + 60..]
  {
    assert forall s: seq<byte> :: |s| >= l2 + 60 ==> s[l2 + 40..l2 + 60] == s[l2 + 20..][20..40] && s[l2 + 60..] == s[l2 + 20..][40..];
  }

  lemma TotalShift(a: nat, b: nat, shift: int)
    requires a > 0 && b > 0 && Same(a, b + shift)
    ensures Same(shift, 0) ==> (Folded(a) == 0xffff <==> Folded(b) == 0xffff)
    ensures Folded(b) == 0xffff ==> (Folded(a) == 0xffff <==> Same(shift, 0))
  {
    hide Folded;
    AcceptsIff(a);
    AcceptsIff(b);
    SumZero(a, b, shift);
  }

  lemma SumZero(a: int, b: int, shift: int)
    requires Same(a, b + shift)
    ensures Same(shift, 0) ==> (Same(a, 0) <==> Same(b, 0))
    ensures Same(b, 0) ==> (Same(a, 0) <==> Same(shift, 0))
  {
    hide Same;
    SameSelf(b);
    SameSelf(shift);
    if Same(shift, 0) {
      SameAdds(b, b, shift, 0);
      SameChain(a, b + shift, b);
      if Same(a, 0) { SameChain(b, a, 0); }
      if Same(b, 0) { SameChain(a, b, 0); }
    }
    if Same(b, 0) {
      SameAdds(b, 0, shift, shift);
      SameChain(a, b + shift, shift);
      if Same(a, 0) { SameChain(shift, a, 0); }
    }
  }

  // ---- a checksum left to the hardware ----

  /** The packet is ready for the hardware: its checksum field holds the pseudo-header's sum. */
  predicate Primed(p: seq<byte>, l2: nat) {
    |p| >= l2 + 40 && Same(FieldOf(p, l2), PseudoTotal(p, l2))
  }

  /** The hardware sums the segment, field included, and stores the complement. */
  function Finished(p: seq<byte>, l2: nat): seq<byte>
    requires |p| >= l2 + 40
  {
    Put16(p, l2 + 36, 65535 - Folded(Sum(p[l2 + 20..])))
  }

  /** Storing `c` in the field changes the sum by the difference to what was there. */
  lemma StoredTotal(p: seq<byte>, l2: nat, c: nat)
    requires |p| >= l2 + 40 && c <= 65535
    ensures TcpTotal(Put16(p, l2 + 36, c), l2) == PseudoTotal(p, l2) + Sum(p[l2 + 20..]) - FieldOf(p, l2) + c
  {
    hide Sum;
    var seg := p[l2 + 20..];
    var r := Put16(p, l2 + 36, c);
    assert r[l2 + 12..l2 + 20] == p[l2 + 12..l2 + 20];
    assert r[l2 + 20..] == seg[..16] + ([Hi(c), Lo(c)] + seg[18..]);
    assert seg == seg[..16] + ([p[l2 + 36], p[l2 + 37]] + seg[18..]);
    WordInside(seg[..16], Hi(c), Lo(c), seg[18..]);
    WordInside(seg[..16], p[l2 + 36], p[l2 + 37], seg[18..]);
  }

  /** From a primed packet the hardware makes a right checksum. */
  lemma HardwareFinishes(p: seq<byte>, l2: nat)
    requires Primed(p, l2)
    ensures TcpOk(Finished(p, l2), l2)
  {
    hide Sum, Folded, FieldOf, TcpTotal, Put16, Same;
    var s, f, total := Sum(p[l2 + 20..]), FieldOf(p, l2), PseudoTotal(p, l2);
    var c := 65535 - Folded(s);
    StoredTotal(p, l2, c);
    FoldedSame(s);
    FieldSmall(p, l2);
    Cancels(total, s, f, Folded(s));
    AcceptsIff(TcpTotal(Finished(p, l2), l2));
  }

  lemma FieldSmall(p: seq<byte>, l2: nat)
    requires |p| >= l2 + 40
    ensures FieldOf(p, l2) <= Sum(p[l2 + 20..]) && PseudoTotal(p, l2) > 0
  {
    hide Sum;
    var seg := p[l2 + 20..];
    assert seg == seg[..16] + ([p[l2 + 36], p[l2 + 37]] + seg[18..]);
    WordInside(seg[..16], p[l2 + 36], p[l2 + 37], seg[18..]);
  }

  lemma Cancels(total: int, s: int, f: int, folded: int)
    requires Same(f, total) && Same(folded, s)
    ensures Same(total + s - f + (65535 - folded), 0)
  {
  }

  lemma WordInside(a: seq<byte>, hi: byte, lo: byte, b: seq<byte>)
    requires |a| % 2 == 0
    ensures Sum(a + ([hi, lo] + b)) == Sum(a) + Word(hi, lo) + Sum(b)
  {
    hide Sum;
    SumConcat(a, [hi, lo] + b);
    SumConcat([hi, lo], b);
    SumWord([hi, lo]);
  }

  lemma {:induction false} ReshapedPrimed(p: seq<byte>, l2: nat, mark: nat, h: Helpers)
    requires HelpersOk(h) && HasOptions(p, l2) && Primed(p, l2)
    ensures Primed(Reshaped(p, l2, mark, h, true), l2)
  {
    hide Sum, Same, Packet, NewOptions, NewIp, NewTcp, Reshaped, NewDoff, CsumDiff, Updated, FieldOf, PseudoTotal, CarriedOver;
    var link, ip, tcp, o, data := p[..l2], p[l2..l2 + 20], p[l2 + 20..l2 + 40], p[l2 + 40..l2 + 60], p[l2 + 60..];
    var w, d := NewOptions(mark, o), CarriedOver(mark, o, data, h);
    Split(p, l2);
    ReshapedParts(link, ip, tcp, o, data, mark, h, true);
    TotalOf(link, ip, tcp, o + data);
    TotalOf(link, NewIp(ip, mark), NewTcp(tcp, o, mark, true), w + d);
    NewIpAddresses(ip, mark);
    NewTcpParts(tcp, o, mark, true);
    var f := Word(tcp[16], tcp[17]);
    UpdatedSame(f, CsumDiff(tcp[12..16], NewDoff(tcp, mark)[12..16]), CsumDiff(o, w), NewTcpLen(mark), true);
    var up := NewTcpLen(mark) - 40;
    SameSelf(up);
    SameAdds(f, Sum(ip[12..20]) + 46 + |data|, up, up);
    SameChain(NewCsum(tcp, o, mark, true), f - 40 + NewTcpLen(mark), Sum(ip[12..20]) + 6 + NewTcpLen(mark) + |data|);
  }

  /** With the checksum left to the hardware, a primed packet leaves primed, for its new length, and the
      hardware makes it right; also when it is a SYN with data. */
  lemma {:induction false} OffloadKept(p: seq<byte>, mark: nat, h: Helpers)
    requires HelpersOk(h) && Applies(p, mark) && Primed(p, Locate(p).value)
    ensures var l2 := Locate(p).value; var r := Rewritten(p, mark, h, true);
            Primed(r, l2) && TcpOk(Finished(r, l2), l2)
  {
    hide Sum, Same, Folded, PerPacket, LinuxSyn, WithIpCsum, Reshaped, Finished, TcpOk, Locate, Rewritten, FieldOf, PseudoTotal;
    var l2 := Locate(p).value;
    var q := PerPacket(p, l2, mark, h.random);
    HeaderEdits(p, l2, mark, h.random);
    RewrittenIs(p, mark, h, true);
    FieldInSegment(p, q, l2);
    SameSegment(p, q, l2);
    if Reshapes(p, mark, h) {
      LongEnough(q, l2, mark);
      ReshapedPrimed(q, l2, mark, h);
    } else {
      FieldInSegment(p, WithIpCsum(q, l2), l2);
      SameSegment(p, WithIpCsum(q, l2), l2);
    }
    HardwareFinishes(Rewritten(p, mark, h, true), l2);
  }

  lemma FieldInSegment(p: seq<byte>, q: seq<byte>, l2: nat)
    requires |p| == |q| >= l2 + 40 && p[l2 + 20..] == q[l2 + 20..]
    ensures FieldOf(p, l2) == FieldOf(q, l2)
  {
    assert p[l2 + 36] == p[l2 + 20..][16] && p[l2 + 37] == p[l2 + 20..][17];
    assert q[l2 + 36] == q[l2 + 20..][16] && q[l2 + 37] == q[l2 + 20..][17];
  }
}
