/** Which packets the egress program finds, which it reshapes, and which bytes it leaves alone, said of the bytes
    that come in (fingerprint/bpf/syn_rewrite.bpf.c:64-103, 120-218). */
module SynEffects {
  import opened Basics
  import opened RelayTypes
  import opened OnesComplement
  import opened SynPacket
  import opened SynLaws
  import opened SynOptions
  import opened SynExceptions

  /** The header at `l2` is an IPv4 header of 20 bytes that carries TCP. */
  predicate TcpHeaderAt(p: seq<byte>, l2: nat) {
    |p| >= l2 + 20 && p[l2] == 0x45 && p[l2 + 9] == 6
  }

  /** A packet is found where its first byte looks like IP, at its start; or else behind an Ethernet header that
      names IPv4; and nowhere else. */
  lemma FoundIff(p: seq<byte>)
    ensures Locate(p) == Some(0) <==> TcpHeaderAt(p, 0)
    ensures Locate(p) == Some(14) <==> TcpHeaderAt(p, 14) && p[0] / 16 != 4 && p[12] == 8 && p[13] == 0
    ensures Locate(p) != None ==> Locate(p) == Some(0) || Locate(p) == Some(14)
  {
  }

  const SYN: bv8 := 0x02
  const SYN_ACK: bv8 := 0x12

  /** The TCP segment at `l2 + 20` has 20 bytes of options with the kinds of the Linux layout in their places, SYN
      and no ACK among its flags; the other flags do not matter. */
  predicate LinuxSynBytes(p: seq<byte>, l2: nat) {
    && |p| >= l2 + 60 && p[l2 + 32] / 16 == 10 && (p[l2 + 33] as bv8) & SYN_ACK == SYN
    && p[l2 + 40] == 2 && p[l2 + 44] == 4 && p[l2 + 46] == 8 && p[l2 + 56] == 1 && p[l2 + 57] == 3
  }

  /** SYN is the second bit of the flags, ACK the fifth. */
  lemma FlagBits(b: byte)
    ensures (b as bv8) & SYN_ACK == SYN <==> (b / 2) % 2 == 1 && (b / 16) % 2 == 0
  {
  }

  /** The length changes exactly for these SYNs, of a profile that is not Linux's own, and if the kernel's helpers
      allow it: by -8 for Windows, by 4 for macOS and iOS. */
  lemma ReshapedIff(p: seq<byte>, mark: nat, h: Helpers, partial: bool)
    requires HelpersOk(h)
    ensures var found := Locate(p).Some? && 1 <= mark <= 4;
            |Rewritten(p, mark, h, partial)|
            == |p| + if found && mark != 3 && LinuxSynBytes(p, Locate(p).value) && h.pulled && h.resized
                     then if mark == 1 then -8 else 4 else 0
  {
    hide Locate, Rewritten, LinuxKinds, Word;
    ProfileOnEveryPacket(p, mark, h, partial);
    if Applies(p, mark) {
      var l2 := Locate(p).value;
      LocatedRoom(p);
      SynUnmoved(p, l2, mark, h.random);
      LinuxSynIff(p, l2, mark);
      if Reshapes(p, mark, h) {
        LengthsMoveTogether(p, mark, h, partial);
      }
    }
  }

  lemma LinuxSynIff(p: seq<byte>, l2: nat, mark: nat)
    ensures LinuxSyn(p, l2, mark) <==> mark != FP_ANDROID && LinuxSynBytes(p, l2)
  {
    if |p| >= l2 + 60 {
      FlagBits(p[l2 + 33]);
      var o := p[l2 + 40..l2 + 60];
      assert o[0] == p[l2 + 40] && o[4] == p[l2 + 44] && o[6] == p[l2 + 46] && o[16] == p[l2 + 56] && o[17] == p[l2 + 57];
    }
  }

  // ---- what a reshaped SYN keeps ----

  /** A byte that is written anew: total length, ID, TTL and checksum of the IP header, data offset and checksum
      of the TCP header, and the new options. */
  predicate Anew(i: int, l2: nat, mark: nat) {
    || l2 + 2 <= i <= l2 + 5 || i == l2 + 8 || i == l2 + 10 || i == l2 + 11
    || i == l2 + 32 || i == l2 + 36 || i == l2 + 37
    || l2 + 40 <= i < l2 + 20 + NewTcpLen(mark)
  }

  lemma OverlayEach(p: seq<byte>, at: nat, w: seq<byte>)
    requires at + |w| <= |p|
    ensures forall i :: 0 <= i < |p| && !(at <= i < at + |w|) ==> Overlay(p, at, w)[i] == p[i]
  {
  }

  lemma ReheadedEach(p: seq<byte>, l2: nat, mark: nat, h: Helpers)
    requires HelpersOk(h) && |p| >= l2 + 60
    ensures var q, r := Reheaded(p, l2, mark, h), Resized(p, mark, h);
            && (forall i :: 0 <= i < |r| && !Anew(i, l2, mark) ==> q[i] == r[i])
            && q[l2 + 32] % 16 == r[l2 + 32] % 16
  {
    hide Resized, Overlay, NewOptions, Put16, HeaderChecksum, Word, NewTotalLen, Ttl;
    var r := Resized(p, mark, h);
    assert |r| >= l2 + 52 && (!Shrinks(mark) ==> |r| >= l2 + 64) by { ResizedLength(p, mark, h); }
    var w := NewOptions(mark, p[l2 + 40..l2 + 60]);
    OverlayEach(r, l2 + 40, w);
    var a := Overlay(r, l2 + 40, w);
    var b := a[l2 + 32 := 16 * NewOffset(mark) + a[l2 + 32] % 16];
    var c := if Shrinks(mark) then b[l2 + 8 := Ttl(mark)] else b;
    var n := NewTotalLen(mark, Word(c[l2 + 2], c[l2 + 3]));
    PutEach(c, l2 + 2, n);
    var d := Put16(c, l2 + 2, n);
    PutEach(d, l2 + 10, HeaderChecksum(d[l2..l2 + 20]));
  }

  lemma ResizedLength(p: seq<byte>, mark: nat, h: Helpers)
    requires HelpersOk(h) && |p| >= 8
    ensures |Resized(p, mark, h)| == |p| + if Shrinks(mark) then -8 else 4
    ensures forall i :: 0 <= i < |p| && i < |Resized(p, mark, h)| ==> Resized(p, mark, h)[i] == p[i]
    ensures !Shrinks(mark) ==> Resized(p, mark, h)[|p|..] == h.tail
  {
  }

  /** Every byte of a reshaped SYN that is not written anew stays where it was, the low half of the data offset's byte
      included; addresses, ports, numbers, flags and window are among them, and the data behind the new options.
      A SYN that grows ends with what the helper left there. */
  lemma UntouchedBytes(p: seq<byte>, mark: nat, h: Helpers, partial: bool)
    requires HelpersOk(h) && Reshapes(p, mark, h)
    ensures |p| >= Locate(p).value + 60 && |Rewritten(p, mark, h, partial)| >= Locate(p).value + 52
    ensures var l2 := Locate(p).value; var r := Rewritten(p, mark, h, partial);
            && (forall i :: 0 <= i < |p| && i < |r| && !Anew(i, l2, mark) ==> r[i] == p[i])
            && r[l2 + 32] % 16 == p[l2 + 32] % 16
            && (mark != 1 && |p| >= l2 + 64 ==> |r| == |p| + 4 && r[|p|..] == h.tail)
  {
    hide Locate, Rewritten, Resized, Reheaded, NewField, PerPacket, LinuxSyn, Put16;
    var l2 := Locate(p).value;
    LocatedRoom(p);
    RewrittenIs(p, mark, h, partial);
    var q := PerPacket(p, l2, mark, h.random);
    LongEnough(q, l2, mark);
    MarkedProfile(p, l2, mark, h.random);
    ResizedLength(q, mark, h);
    ReheadedEach(q, l2, mark, h);
    var a := Reheaded(q, l2, mark, h);
    PutEach(a, l2 + 36, NewField(q, a, l2, mark, partial));
    var r := Reshaped(q, l2, mark, h, partial);
    if mark != 1 && |p| >= l2 + 64 {
      assert r[|p|..] == Resized(q, mark, h)[|p|..];
    }
  }
}
