/** What the egress program makes of a packet, as a function of its bytes
    (fingerprint/bpf/syn_rewrite.bpf.c:37-220). */
module SynPacket {
  import opened Basics
  import opened RelayTypes
  import opened OnesComplement

  const FP_WINDOWS: nat := 1
  const FP_MACOS: nat := 2
  const FP_ANDROID: nat := 3
  const FP_IOS: nat := 4

  /** What the kernel's helpers answer in one run: a random number, whether the headers could be made
      writable, whether the length could be changed, and the bytes a longer packet gets at its end. */
  datatype Helpers = Helpers(random: nat, pulled: bool, resized: bool, tail: seq<byte>)

  predicate HelpersOk(h: Helpers) {
    h.random < TWO_32 && |h.tail| == 4
  }

  /** The link-layer length in front of an IPv4 header without options that carries TCP. */
  function Locate(p: seq<byte>): (l2: Option<nat>)
    ensures l2.Some? ==> (l2.value == 0 || l2.value == 14) && |p| >= l2.value + 20
  {
    if |p| < 14 then None else
    var l2 := if p[0] / 16 == 4 then 0 else if Word(p[12], p[13]) == 0x0800 then 14 else -1;
    if l2 < 0 || |p| < l2 + 20 then None
    else if p[l2] / 16 != 4 || p[l2] % 16 != 5 || p[l2 + 9] != 6 then None
    else Some(l2)
  }

  function Ttl(mark: nat): byte {
    if mark == FP_WINDOWS then 128 else 64
  }

  function Hi(w: nat): byte {
    (w / 256) % 256
  }

  function Lo(w: nat): byte {
    w % 256
  }

  function Put16(p: seq<byte>, at: nat, w: nat): (q: seq<byte>)
    requires at + 2 <= |p|
    ensures |q| == |p|
  {
    p[at := Hi(w)][at + 1 := Lo(w)]
  }

  /** TTL and IP ID. */
  function PerPacket(p: seq<byte>, l2: nat, mark: nat, random: nat): (q: seq<byte>)
    requires l2 + 20 <= |p|
    ensures |q| == |p|
  {
    var q := p[l2 + 8 := Ttl(mark)];
    if mark == FP_MACOS then Put16(q, l2 + 4, 0)
    else if mark == FP_ANDROID || mark == FP_IOS then Put16(q, l2 + 4, random)
    else q
  }

  function HeaderChecksum(ip: seq<byte>): (c: nat)
    requires |ip| == 20
    ensures c <= 65535
  {
    SumBound(ip[..10] + ip[12..]);
    CsumFold(Sum(ip[..10] + ip[12..]))
  }

  function WithIpCsum(p: seq<byte>, l2: nat): (q: seq<byte>)
    requires l2 + 20 <= |p|
    ensures |q| == |p|
  {
    Put16(p, l2 + 10, HeaderChecksum(p[l2..l2 + 20]))
  }

  /** The five kind bytes of the Linux option layout. */
  predicate LinuxKinds(o: seq<byte>) {
    |o| >= 20 && o[0] == 2 && o[4] == 4 && o[6] == 8 && o[16] == 1 && o[17] == 3
  }

  /** A SYN without ACK, data offset 10, with the Linux option layout, of a mark that reshapes. */
  predicate LinuxSyn(p: seq<byte>, l2: nat, mark: nat) {
    && mark != FP_ANDROID && |p| >= l2 + 60
    && p[l2 + 32] / 16 == 10 && (p[l2 + 33] / 2) % 2 == 1 && (p[l2 + 33] / 16) % 2 == 0
    && LinuxKinds(p[l2 + 40..l2 + 60])
  }

  function Shrinks(mark: nat): bool {
    mark == FP_WINDOWS
  }

  function NewOptions(mark: nat, o: seq<byte>): (w: seq<byte>)
    requires |o| == 20
    ensures |w| == if Shrinks(mark) then 12 else 24
  {
    if Shrinks(mark) then
      [o[0], o[1], o[2], o[3], 1, o[17], o[18], o[19], 1, 1, o[4], o[5]]
    else
      [o[0], o[1], o[2], o[3], 1, o[17], o[18], o[19], 1, 1,
       o[6], o[7], o[8], o[9], o[10], o[11], o[12], o[13], o[14], o[15], o[4], o[5], 0, 0]
  }

  function NewOffset(mark: nat): nat {
    if Shrinks(mark) then 8 else 11
  }

  /** The TCP header length after the rewrite. */
  function NewTcpLen(mark: nat): nat {
    4 * NewOffset(mark)
  }

  function Overlay(p: seq<byte>, at: nat, w: seq<byte>): (q: seq<byte>)
    requires at + |w| <= |p|
    ensures |q| == |p|
  {
    p[..at] + w + p[at + |w|..]
  }

  function Resized(p: seq<byte>, mark: nat, h: Helpers): seq<byte>
    requires |p| >= 8
  {
    if Shrinks(mark) then p[..|p| - 8] else p + h.tail
  }

  function NewTotalLen(mark: nat, len: nat): (n: nat)
    ensures n < 65536
  {
    if Shrinks(mark) then (len - 8) % 65536 else (len + 4) % 65536
  }

  /** The header and option bytes after the rewrite, the TCP checksum field still the old one. */
  function Reheaded(p: seq<byte>, l2: nat, mark: nat, h: Helpers): (q: seq<byte>)
    requires HelpersOk(h) && |p| >= l2 + 60
    ensures |q| == |Resized(p, mark, h)| && |q| >= l2 + 52
  {
    var q := Overlay(Resized(p, mark, h), l2 + 40, NewOptions(mark, p[l2 + 40..l2 + 60]));
    var q := q[l2 + 32 := 16 * NewOffset(mark) + q[l2 + 32] % 16];
    var q := if Shrinks(mark) then q[l2 + 8 := Ttl(mark)] else q;
    var q := Put16(q, l2 + 2, NewTotalLen(mark, Word(q[l2 + 2], q[l2 + 3])));
    WithIpCsum(q, l2)
  }

  /** The checksum field after two differences and a pseudo-header change. */
  function Updated(field: nat, doff: nat, opts: nat, len: nat, partial: bool): (f: nat)
    requires field <= 65535 && doff < TWO_32 && opts < TWO_32 && len <= 65535
    ensures f <= 65535
  {
    Replaced2(ReplacedByDiff(ReplacedByDiff(field, doff, false, partial), opts, false, partial), 40, len, true, partial)
  }

  /** The checksum field of `q`, updated for what changed since `p`: the word with the data offset, the
      options and the pseudo-header's length. */
  function NewField(p: seq<byte>, q: seq<byte>, l2: nat, mark: nat, partial: bool): (f: nat)
    requires |p| >= l2 + 60 && |q| >= l2 + 52
    ensures f <= 65535
  {
    var o := p[l2 + 40..l2 + 60];
    Updated(Word(q[l2 + 36], q[l2 + 37]), CsumDiff(p[l2 + 32..l2 + 36], q[l2 + 32..l2 + 36]),
            CsumDiff(o, NewOptions(mark, o)), NewTcpLen(mark), partial)
  }

  function Reshaped(p: seq<byte>, l2: nat, mark: nat, h: Helpers, partial: bool): seq<byte>
    requires HelpersOk(h) && |p| >= l2 + 60
  {
    var q := Reheaded(p, l2, mark, h);
    Put16(q, l2 + 36, NewField(p, q, l2, mark, partial))
  }

  /** The program. */
  function Rewritten(p: seq<byte>, mark: nat, h: Helpers, partial: bool): seq<byte>
    requires HelpersOk(h)
  {
    if mark < FP_WINDOWS || mark > FP_IOS || Locate(p).None? then p else
    var l2 := Locate(p).value;
    var q := PerPacket(p, l2, mark, h.random);
    if !LinuxSyn(q, l2, mark) || !h.pulled then WithIpCsum(q, l2)
    else if !h.resized then q
    else Reshaped(q, l2, mark, h, partial)
  }
}
