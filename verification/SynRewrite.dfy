/** The egress program as it works: in place on the packet buffer, byte by byte
    (fingerprint/bpf/syn_rewrite.bpf.c:43-220). */
module SynRewrite {
  import opened Basics
  import opened RelayTypes
  import opened OnesComplement
  import opened SynPacket

  /** A packet on its way out. `partial` says that the hardware is to finish its TCP checksum. */
  class Skb {
    var data: array<byte>
    const partial: bool

    constructor (bytes: seq<byte>, p: bool)
      ensures data[..] == bytes && partial == p && fresh(data)
    {
      data := new byte[|bytes|](i requires 0 <= i < |bytes| => bytes[i]);
      partial := p;
    }

    method Put(at: nat, w: nat)
      requires at + 2 <= data.Length
      modifies data
      ensures data[..] == Put16(old(data[..]), at, w)
    {
      data[at] := (w / 256) % 256;
      data[at + 1] := w % 256;
    }

    /** The header checksum, recomputed from the other nine words. */
    method IpCsum(l2: nat)
      requires l2 + 20 <= data.Length
      modifies data
      ensures data[..] == WithIpCsum(old(data[..]), l2)
    {
      hide Sum;
      ghost var ip := data[l2..l2 + 20];
      NineNone(ip);
      var s, i := 0, 0;
      while i < 20
        invariant 0 <= i <= 20 && i % 2 == 0
        invariant s == Sum(Nine(ip, i)) && data[..] == old(data[..])
      {
        NineNext(ip, i);
        if i != 10 {
          s := s + Word(data[l2 + i], data[l2 + i + 1]);
        }
        i := i + 2;
      }
      NineAll(ip);
      SumBound(ip[..10] + ip[12..]);
      TwoFolds(s);
      s := s % 65536 + s / 65536;
      s := s % 65536 + s / 65536;
      Put(l2 + 10, 65535 - s);
    }

    /** bpf_skb_change_tail: cut, or extended by whatever `tail` holds. */
    method ChangeTail(len: nat, tail: seq<byte>)
      requires len <= data.Length || len == data.Length + |tail|
      modifies `data
      ensures fresh(data)
      ensures data[..] == if len <= old(data).Length then old(data[..])[..len] else old(data[..]) + tail
    {
      var n := data.Length;
      ghost var bytes := data[..];
      var b := new byte[len];
      var i := 0;
      while i < len
        invariant 0 <= i <= len
        invariant data == old(data) && data[..] == bytes && b.Length == len
        invariant forall k :: 0 <= k < i ==> b[k] == if k < n then bytes[k] else tail[k - n]
      {
        b[i] := if i < n then data[i] else tail[i - n];
        i := i + 1;
      }
      data := b;
    }

    /** The option bytes, written over the old ones. */
    method PutOptions(at: nat, w: array<byte>)
      requires at + w.Length <= data.Length && w != data
      modifies data
      ensures data[..] == Overlay(old(data[..]), at, w[..])
    {
      ghost var p := data[..];
      var i := 0;
      while i < w.Length
        invariant 0 <= i <= w.Length
        invariant data[..] == Overlay(p, at, w[..i])
      {
        data[at + i] := w[i];
        i := i + 1;
      }
      assert w[..i] == w[..];
    }

    /** bpf_l4_csum_replace with a difference. */
    method ReplaceByDiff(at: nat, diff: nat)
      requires at + 2 <= data.Length && diff < TWO_32
      modifies data
      ensures var f := Word(old(data[at]), old(data[at + 1]));
              data[..] == Put16(old(data[..]), at, ReplacedByDiff(f, diff, false, partial))
    {
      Put(at, ReplacedByDiff(Word(data[at], data[at + 1]), diff, false, partial));
    }

    /** bpf_l4_csum_replace with a 16-bit value of the pseudo-header. */
    method ReplacePseudo(at: nat, from: nat, to: nat)
      requires at + 2 <= data.Length && from <= 65535 && to <= 65535
      modifies data
      ensures var f := Word(old(data[at]), old(data[at + 1]));
              data[..] == Put16(old(data[..]), at, Replaced2(f, from, to, true, partial))
    {
      Put(at, Replaced2(Word(data[at], data[at + 1]), from, to, true, partial));
    }

    /** The three incremental updates of the TCP checksum. */
    method FixTcpCsum(at: nat, doff: nat, opts: nat, len: nat)
      requires at + 2 <= data.Length && doff < TWO_32 && opts < TWO_32 && len <= 65535
      modifies data
      ensures data[..] == Put16(old(data[..]), at, Updated(Word(old(data[at]), old(data[at + 1])), doff, opts, len, partial))
    {
      hide ReplacedByDiff, Replaced2;
      ghost var p := data[..];
      ghost var f0 := Word(data[at], data[at + 1]);
      ReplaceByDiff(at, doff);
      ghost var f1 := ReplacedByDiff(f0, doff, false, partial);
      Stored16(p, at, f1);
      ReplaceByDiff(at, opts);
      ghost var f2 := ReplacedByDiff(f1, opts, false, partial);
      PutAgain(p, at, f1, f2);
      Stored16(p, at, f2);
      ReplacePseudo(at, 40, len);
      PutAgain(p, at, f2, Replaced2(f2, 40, len, true, partial));
    }

    method ReadOptions(at: nat) returns (o: array<byte>)
      requires at + 20 <= data.Length
      ensures fresh(o) && o[..] == data[at..at + 20]
    {
      o := new byte[20];
      var i := 0;
      while i < 20
        invariant 0 <= i <= 20 && o[..i] == data[at..at + i]
      {
        o[i] := data[at + i];
        i := i + 1;
      }
      assert o[..] == o[..20];
    }

    /** The header and option bytes of a SYN that is reshaped. */
    method Rehead(l2: nat, mark: nat, h: Helpers, w: array<byte>)
      requires HelpersOk(h) && data.Length >= l2 + 60 && w != data
      requires w[..] == NewOptions(mark, data[l2 + 40..l2 + 60])
      modifies `data
      ensures fresh(data) && data[..] == Reheaded(old(data[..]), l2, mark, h)
    {
      hide WithIpCsum, NewOptions;
      if mark == FP_WINDOWS {
        ChangeTail(data.Length - 8, h.tail);
      } else {
        ChangeTail(data.Length + 4, h.tail);
      }
      PutOptions(l2 + 40, w);
      data[l2 + 32] := 16 * NewOffset(mark) + data[l2 + 32] % 16;
      if mark == FP_WINDOWS {
        data[l2 + 8] := 128;
      }
      Put(l2 + 2, NewTotalLen(mark, Word(data[l2 + 2], data[l2 + 3])));
      IpCsum(l2);
    }

    method Reshape(l2: nat, mark: nat, h: Helpers)
      requires HelpersOk(h) && data.Length >= l2 + 60
      modifies `data
      ensures data[..] == Reshaped(old(data[..]), l2, mark, h, partial)
    {
      hide Reheaded, CsumDiff, ReplacedByDiff, Replaced2, NewOptions;
      var o := ReadOptions(l2 + 40);
      var w := Layout(mark, o);
      var before := FourBytes(l2 + 32);
      Rehead(l2, mark, h, w);
      var after := FourBytes(l2 + 32);
      var doff := ComputeCsumDiff(before, after);
      var opts := ComputeCsumDiff(o, w);
      FixTcpCsum(l2 + 36, doff, opts, 4 * NewOffset(mark));
    }

    method FourBytes(at: nat) returns (b: array<byte>)
      requires at + 4 <= data.Length
      ensures fresh(b) && b[..] == data[at..at + 4]
    {
      b := new byte[4] [data[at], data[at + 1], data[at + 2], data[at + 3]];
      assert b[..] == data[at..at + 4];
    }

    /** TTL and IP ID, in place. */
    method MarkPacket(l2: nat, mark: nat, random: nat)
      requires l2 + 20 <= data.Length
      modifies data
      ensures data[..] == PerPacket(old(data[..]), l2, mark, random)
    {
      data[l2 + 8] := if mark == FP_WINDOWS then 128 else 64;
      if mark == FP_MACOS {
        Put(l2 + 4, 0);
      } else if mark == FP_ANDROID || mark == FP_IOS {
        Put(l2 + 4, random);
      }
    }

    method IsLinuxSyn(l2: nat, mark: nat) returns (syn: bool)
      ensures syn == LinuxSyn(data[..], l2, mark)
    {
      if mark == FP_ANDROID || data.Length < l2 + 60 {
        return false;
      }
      if data[l2 + 32] / 16 == 10 && (data[l2 + 33] / 2) % 2 == 1 && (data[l2 + 33] / 16) % 2 == 0 {
        return data[l2 + 40] == 2 && data[l2 + 44] == 4 && data[l2 + 46] == 8 && data[l2 + 56] == 1 && data[l2 + 57] == 3;
      }
      return false;
    }

    /** syn_rewrite. */
    method SynRewrite(mark: nat, h: Helpers)
      requires HelpersOk(h)
      modifies this, data
      ensures data[..] == Rewritten(old(data[..]), mark, h, partial)
    {
      hide WithIpCsum, Reshaped, PerPacket, LinuxSyn;
      if mark < FP_WINDOWS || mark > FP_IOS {
        return;
      }
      if data.Length < 14 {
        return;
      }
      var l2: int := -1;
      if data[0] / 16 == 4 {
        l2 := 0;
      } else if Word(data[12], data[13]) == 0x0800 {
        l2 := 14;
      }
      if l2 < 0 || data.Length < l2 + 20 {
        return;
      }
      if data[l2] / 16 != 4 || data[l2] % 16 != 5 || data[l2 + 9] != 6 {
        return;
      }
      MarkPacket(l2, mark, h.random);
      var reshape := IsLinuxSyn(l2, mark);
      if !reshape || !h.pulled {
        IpCsum(l2);
        return;
      }
      if !h.resized {
        return;
      }
      SynHasRoom(data[..], l2, mark);
      Reshape(l2, mark, h);
    }
  }

  lemma SynHasRoom(p: seq<byte>, l2: nat, mark: nat)
    requires LinuxSyn(p, l2, mark)
    ensures |p| >= l2 + 60
  {
  }

  lemma Stored16(p: seq<byte>, at: nat, w: nat)
    requires at + 2 <= |p| && w <= 65535
    ensures Word(Put16(p, at, w)[at], Put16(p, at, w)[at + 1]) == w
  {
  }

  lemma PutAgain(p: seq<byte>, at: nat, v: nat, w: nat)
    requires at + 2 <= |p|
    ensures Put16(Put16(p, at, v), at, w) == Put16(p, at, w)
  {
  }

  /** The option bytes of the target system, from those of the Linux SYN. */
  method Layout(mark: nat, o: array<byte>) returns (w: array<byte>)
    requires o.Length == 20
    ensures fresh(w) && w[..] == NewOptions(mark, o[..])
  {
    if mark == FP_WINDOWS {
      w := new byte[12] [o[0], o[1], o[2], o[3], 1, o[17], o[18], o[19], 1, 1, o[4], o[5]];
    } else {
      w := new byte[24] [o[0], o[1], o[2], o[3], 1, o[17], o[18], o[19], 1, 1,
                         o[6], o[7], o[8], o[9], o[10], o[11], o[12], o[13], o[14], o[15], o[4], o[5], 0, 0];
    }
    assert w[..] == NewOptions(mark, o[..]);
  }

  /** The header words before byte `i`, without the checksum word. */
  function Nine(ip: seq<byte>, i: nat): seq<byte>
    requires |ip| == 20 && i <= 20
  {
    if i <= 10 then ip[..i] else ip[..10] + (if i <= 12 then [] else ip[12..i])
  }

  lemma NineNone(ip: seq<byte>)
    requires |ip| == 20
    ensures Sum(Nine(ip, 0)) == 0
  {
  }

  lemma NineNext(ip: seq<byte>, i: nat)
    requires |ip| == 20 && i < 20 && i % 2 == 0
    ensures Sum(Nine(ip, i + 2)) == Sum(Nine(ip, i)) + (if i == 10 then 0 else Word(ip[i], ip[i + 1]))
  {
    hide Sum;
    if i == 10 {
      assert Nine(ip, 12) == Nine(ip, 10);
    } else {
      SumNext(Nine(ip, i), ip[i], ip[i + 1]);
      assert Nine(ip, i + 2) == Nine(ip, i) + [ip[i], ip[i + 1]];
    }
  }

  lemma NineAll(ip: seq<byte>)
    requires |ip| == 20
    ensures Nine(ip, 20) == ip[..10] + ip[12..]
  {
  }

  lemma SumNext(b: seq<byte>, hi: byte, lo: byte)
    requires |b| % 2 == 0
    ensures Sum(b + [hi, lo]) == Sum(b) + Word(hi, lo)
  {
    SumConcat(b, [hi, lo]);
    SumWord([hi, lo]);
  }
}
