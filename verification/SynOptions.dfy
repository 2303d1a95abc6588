/** The meaning of the option bytes before and after the rewrite, and the three lengths that move with
    them (RFC 9293 section 3.1; RFC 7323 sections 2.2 and 3.2; RFC 2018 section 2). */
module SynOptions {
  import opened Basics
  import opened RelayTypes
  import opened OnesComplement
  import opened SynPacket
  import opened SynLaws

  datatype TcpOpt =
    | Eol
    | Nop
    | Mss(size: nat)
    | WindowScale(shift: byte)
    | SackPermitted
    | Timestamps(value: seq<byte>, echo: seq<byte>)
    | Other(kind: byte, body: seq<byte>)

  /** The options a receiver reads, or None if a length does not fit. Nothing is read behind the end
      of the list. */
  function Parse(b: seq<byte>): Option<seq<TcpOpt>> {
    if b == [] then Some([])
    else if b[0] == 0 then Some([Eol])
    else if b[0] == 1 then Before(Nop, Parse(b[1..]))
    else if |b| < 2 || b[1] < 2 || b[1] > |b| then None
    else Before(OptOf(b[0], b[2..b[1]]), Parse(b[b[1]..]))
  }

  function Before(o: TcpOpt, rest: Option<seq<TcpOpt>>): Option<seq<TcpOpt>> {
    if rest.None? then None else Some([o] + rest.value)
  }

  function OptOf(kind: byte, body: seq<byte>): TcpOpt {
    if kind == 2 && |body| == 2 then Mss(Word(body[0], body[1]))
    else if kind == 3 && |body| == 1 then WindowScale(body[0])
    else if kind == 4 && |body| == 0 then SackPermitted
    else if kind == 8 && |body| == 8 then Timestamps(body[..4], body[4..])
    else Other(kind, body)
  }

  predicate Encodable(o: TcpOpt) {
    match o
    case Eol => false
    case Mss(size) => size <= 65535
    case Timestamps(value, echo) => |value| == |echo| == 4
    case Other(kind, body) => kind >= 2 && |body| <= 253 && OptOf(kind, body) == o
    case _ => true
  }

  function EncodeOne(o: TcpOpt): (b: seq<byte>)
    requires Encodable(o)
    ensures |b| > 0
  {
    match o
    case Nop => [1]
    case Mss(size) => [2, 4, Hi(size), Lo(size)]
    case WindowScale(shift) => [3, 3, shift]
    case SackPermitted => [4, 2]
    case Timestamps(value, echo) => [8, 10] + value + echo
    case Other(kind, body) => [kind, |body| + 2] + body
  }

  function Encode(os: seq<TcpOpt>): seq<byte>
    requires AllEncodable(os)
  {
    if os == [] then [] else EncodeOne(os[0]) + Encode(os[1..])
  }

  lemma ParseOne(o: TcpOpt, rest: seq<byte>)
    requires Encodable(o)
    ensures Parse(EncodeOne(o) + rest) == Before(o, Parse(rest))
  {
    var b := EncodeOne(o) + rest;
    match o
    case Nop => assert b[1..] == rest;
    case Mss(size) =>
      assert b[2..4] == [Hi(size), Lo(size)] && b[4..] == rest;
    case WindowScale(shift) =>
      assert b[2..3] == [shift] && b[3..] == rest;
    case SackPermitted =>
      assert b[2..2] == [] && b[2..] == rest;
    case Timestamps(value, echo) =>
      assert b[2..10] == value + echo && b[10..] == rest;
      assert (value + echo)[..4] == value && (value + echo)[4..] == echo;
    case Other(kind, body) =>
      assert b[2..|body| + 2] == body && b[|body| + 2..] == rest;
  }

  predicate AllEncodable(os: seq<TcpOpt>) {
    forall i :: 0 <= i < |os| ==> Encodable(os[i])
  }

  /** Reading back what was written. */
  lemma {:induction false} RoundTrip(os: seq<TcpOpt>)
    requires AllEncodable(os)
    ensures Parse(Encode(os)) == Some(os)
  {
    hide EncodeOne, OptOf;
    if os != [] {
      RoundTrip(os[1..]);
      ParseOne(os[0], Encode(os[1..]));
      assert [os[0]] + os[1..] == os;
    }
  }

  /** The same with an end of list and padding behind it. */
  lemma {:induction false} RoundTripPadded(os: seq<TcpOpt>, pad: seq<byte>)
    requires AllEncodable(os) && pad != [] && pad[0] == 0
    ensures Parse(Encode(os) + pad) == Some(os + [Eol])
  {
    hide EncodeOne, OptOf;
    if os == [] {
      assert Encode(os) + pad == pad && os + [Eol] == [Eol];
    } else {
      var rest := Encode(os[1..]);
      RoundTripPadded(os[1..], pad);
      ParseOne(os[0], rest + pad);
      assert Encode(os) + pad == EncodeOne(os[0]) + (rest + pad);
      assert [os[0]] + (os[1..] + [Eol]) == os + [Eol];
    }
  }

  // ---- the layouts ----

  datatype Values = Values(mss: nat, scale: byte, value: seq<byte>, echo: seq<byte>)

  predicate GoodValues(v: Values) {
    v.mss <= 65535 && |v.value| == |v.echo| == 4
  }

  function LinuxLayout(v: Values): seq<TcpOpt> {
    [Mss(v.mss), SackPermitted, Timestamps(v.value, v.echo), Nop, WindowScale(v.scale)]
  }

  function WindowsLayout(v: Values): seq<TcpOpt> {
    [Mss(v.mss), Nop, WindowScale(v.scale), Nop, Nop, SackPermitted]
  }

  function AppleLayout(v: Values): seq<TcpOpt> {
    [Mss(v.mss), Nop, WindowScale(v.scale), Nop, Nop, Timestamps(v.value, v.echo), SackPermitted, Eol]
  }

  /** The four lengths that the program's test of the kind bytes does not look at. */
  predicate GoodLengths(o: seq<byte>) {
    |o| == 20 && o[1] == 4 && o[5] == 2 && o[7] == 10 && o[18] == 3
  }

  function ValuesOf(o: seq<byte>): (v: Values)
    requires |o| == 20
    ensures GoodValues(v)
  {
    Values(Word(o[2], o[3]), o[19], o[8..12], o[12..16])
  }

  lemma HiLo(hi: byte, lo: byte)
    ensures Hi(Word(hi, lo)) == hi && Lo(Word(hi, lo)) == lo
  {
  }

  lemma EncodeNext(o: TcpOpt, os: seq<TcpOpt>)
    requires Encodable(o) && AllEncodable(os)
    ensures AllEncodable([o] + os) && Encode([o] + os) == EncodeOne(o) + Encode(os)
  {
    hide EncodeOne, Encodable;
    assert ([o] + os)[1..] == os;
  }

  lemma Encode5(a: TcpOpt, b: TcpOpt, c: TcpOpt, d: TcpOpt, e: TcpOpt)
    requires Encodable(a) && Encodable(b) && Encodable(c) && Encodable(d) && Encodable(e)
    ensures AllEncodable([a, b, c, d, e])
    ensures Encode([a, b, c, d, e]) ==
            EncodeOne(a) + (EncodeOne(b) + (EncodeOne(c) + (EncodeOne(d) + EncodeOne(e))))
  {
    hide Encode, EncodeOne, Encodable;
    EncodeNone();
    EncodeNext(e, []);
    assert [e] + [] == [e] && EncodeOne(e) + [] == EncodeOne(e);
    EncodeNext(d, [e]);
    assert [d] + [e] == [d, e];
    EncodeNext(c, [d, e]);
    assert [c] + [d, e] == [c, d, e];
    EncodeNext(b, [c, d, e]);
    assert [b] + [c, d, e] == [b, c, d, e];
    EncodeNext(a, [b, c, d, e]);
    assert [a] + [b, c, d, e] == [a, b, c, d, e];
  }

  lemma LinuxConcat(o: seq<byte>, v: Values)
    requires LinuxKinds(o) && GoodLengths(o) && v == ValuesOf(o)
    ensures EncodeOne(Mss(v.mss)) + (EncodeOne(SackPermitted) + (EncodeOne(Timestamps(v.value, v.echo)) +
              (EncodeOne(Nop) + EncodeOne(WindowScale(v.scale))))) == o
  {
    hide Hi, Lo, Word;
    HiLo(o[2], o[3]);
    var t := EncodeOne(Timestamps(v.value, v.echo));
    assert t == o[6..16];
    assert EncodeOne(Mss(v.mss)) == o[0..4] && EncodeOne(SackPermitted) == o[4..6];
    assert EncodeOne(Nop) + EncodeOne(WindowScale(v.scale)) == o[16..20];
    assert o == o[0..4] + (o[4..6] + (o[6..16] + o[16..20]));
  }

  /** The Linux layout, written out: the kinds the program tests and the lengths it does not. */
  lemma LinuxBytes(o: seq<byte>)
    requires LinuxKinds(o) && GoodLengths(o)
    ensures AllEncodable(LinuxLayout(ValuesOf(o))) && Encode(LinuxLayout(ValuesOf(o))) == o
  {
    hide Encode, EncodeOne, Word;
    var v := ValuesOf(o);
    LinuxConcat(o, v);
    Encode5(Mss(v.mss), SackPermitted, Timestamps(v.value, v.echo), Nop, WindowScale(v.scale));
  }

  lemma EncodeNone()
    ensures AllEncodable([]) && Encode([]) == []
  {
  }

  /** The length bytes that end up in the new options: the Windows layout has no timestamps. */
  predicate LengthsFit(mark: nat, o: seq<byte>) {
    |o| == 20 && o[1] == 4 && o[5] == 2 && o[18] == 3 && (Shrinks(mark) || o[7] == 10)
  }

  function TargetLayout(mark: nat, v: Values): seq<TcpOpt> {
    if Shrinks(mark) then WindowsLayout(v) else AppleLayout(v)
  }

  lemma WindowsBytes(o: seq<byte>)
    requires LinuxKinds(o) && LengthsFit(FP_WINDOWS, o)
    ensures var os := WindowsLayout(ValuesOf(o)); AllEncodable(os) && Encode(os) == NewOptions(FP_WINDOWS, o)
  {
    hide Encode, Hi, Lo, Word;
    var v := ValuesOf(o);
    HiLo(o[2], o[3]);
    Encode5(Nop, WindowScale(v.scale), Nop, Nop, SackPermitted);
    var rest := [Nop, WindowScale(v.scale), Nop, Nop, SackPermitted];
    assert Encode(rest) == NewOptions(FP_WINDOWS, o)[4..];
    EncodeNext(Mss(v.mss), rest);
    assert WindowsLayout(v) == [Mss(v.mss)] + rest;
  }

  lemma AppleBytes(o: seq<byte>)
    requires LinuxKinds(o) && LengthsFit(FP_MACOS, o)
    ensures var os := AppleLayout(ValuesOf(o))[..7]; AllEncodable(os) && Encode(os) + [0, 0] == NewOptions(FP_MACOS, o)
  {
    hide Encode, EncodeOne, Word;
    var v := ValuesOf(o);
    AppleTail(o, v);
    var tail := [WindowScale(v.scale), Nop, Nop, Timestamps(v.value, v.echo), SackPermitted];
    EncodeNext(Nop, tail);
    EncodeNext(Mss(v.mss), [Nop] + tail);
    AppleHead(o, v);
    assert AppleLayout(v)[..7] == [Mss(v.mss)] + ([Nop] + tail);
    var w := NewOptions(FP_MACOS, o);
    assert w == w[..4] + (w[4..5] + w[5..22]) + [0, 0];
  }

  lemma AppleTail(o: seq<byte>, v: Values)
    requires LinuxKinds(o) && LengthsFit(FP_MACOS, o) && v == ValuesOf(o)
    ensures var tail := [WindowScale(v.scale), Nop, Nop, Timestamps(v.value, v.echo), SackPermitted];
            AllEncodable(tail) && Encode(tail) == NewOptions(FP_MACOS, o)[5..22]
  {
    hide Encode, EncodeOne, Word, ValuesOf, NewOptions;
    Encode5(WindowScale(v.scale), Nop, Nop, Timestamps(v.value, v.echo), SackPermitted);
    AppleTimestamps(o, v);
    AppleRest(o, v);
    var w := NewOptions(FP_MACOS, o);
    assert w[5..22] == w[5..8] + (w[8..9] + (w[9..10] + (w[10..20] + w[20..22])));
  }

  lemma AppleTimestamps(o: seq<byte>, v: Values)
    requires LinuxKinds(o) && LengthsFit(FP_MACOS, o) && v == ValuesOf(o)
    ensures Encodable(Timestamps(v.value, v.echo)) && EncodeOne(Timestamps(v.value, v.echo)) == NewOptions(FP_MACOS, o)[10..20]
  {
    hide Word;
  }

  lemma AppleRest(o: seq<byte>, v: Values)
    requires LinuxKinds(o) && LengthsFit(FP_MACOS, o) && v == ValuesOf(o)
    ensures var w := NewOptions(FP_MACOS, o);
            && EncodeOne(WindowScale(v.scale)) == w[5..8] && EncodeOne(Nop) == w[8..9] == w[9..10]
            && EncodeOne(SackPermitted) == w[20..22]
  {
    hide Word;
  }

  lemma AppleHead(o: seq<byte>, v: Values)
    requires LinuxKinds(o) && LengthsFit(FP_MACOS, o) && v == ValuesOf(o)
    ensures EncodeOne(Mss(v.mss)) == NewOptions(FP_MACOS, o)[..4] && EncodeOne(Nop) == NewOptions(FP_MACOS, o)[4..5]
    ensures NewOptions(FP_MACOS, o)[22..] == [0, 0]
  {
    hide Hi, Lo, Word;
    HiLo(o[2], o[3]);
  }

  /** The new options read as the target's layout, whatever its values, if and only if the length bytes
      they take over are the usual ones; and then the values are those the Linux SYN carried. */
  lemma LayoutKeepsValues(mark: nat, o: seq<byte>)
    requires |o| == 20 && LinuxKinds(o)
    ensures LengthsFit(mark, o) ==> Parse(NewOptions(mark, o)) == Some(TargetLayout(mark, ValuesOf(o)))
    ensures (exists v :: GoodValues(v) && Parse(NewOptions(mark, o)) == Some(TargetLayout(mark, v))) <==> LengthsFit(mark, o)
  {
    hide Parse, NewOptions, TargetLayout, LengthsFit;
    if LengthsFit(mark, o) {
      TargetRead(mark, o);
      assert GoodValues(ValuesOf(o));
    } else {
      forall v | GoodValues(v) ensures Parse(NewOptions(mark, o)) != Some(TargetLayout(mark, v)) {
        if Parse(NewOptions(mark, o)) == Some(TargetLayout(mark, v)) {
          LengthsTaken(mark, o, v);
        }
      }
    }
  }

  lemma TargetRead(mark: nat, o: seq<byte>)
    requires LinuxKinds(o) && LengthsFit(mark, o)
    ensures Parse(NewOptions(mark, o)) == Some(TargetLayout(mark, ValuesOf(o)))
  {
    hide Encode, Parse, NewOptions;
    if Shrinks(mark) {
      WindowsBytes(o);
      RoundTrip(WindowsLayout(ValuesOf(o)));
    } else {
      AppleBytes(o);
      SameLayout(mark, o);
      RoundTripPadded(AppleLayout(ValuesOf(o))[..7], [0, 0]);
      assert AppleLayout(ValuesOf(o))[..7] + [Eol] == AppleLayout(ValuesOf(o));
    }
  }

  /** The part the two layouts have in common. */
  lemma HeadRead(w: seq<byte>, size: nat, shift: byte, rest: seq<TcpOpt>)
    requires |w| >= 10 && w[0] == 2 && w[4] == 1 && w[5] == 3 && w[8] == w[9] == 1
    requires Parse(w) == Some([Mss(size), Nop, WindowScale(shift), Nop, Nop] + rest)
    ensures w[1] == 4 && w[6] == 3 && Parse(w[10..]) == Some(rest)
  {
    hide Parse;
    var os := [Mss(size), Nop, WindowScale(shift), Nop, Nop] + rest;
    var os1 := os[1..];
    var os2 := os1[1..];
    var os3 := os2[1..];
    var os4 := os3[1..];
    FirstRead(w, os);
    var w1 := w[4..];
    FirstRead(w1, os1);
    var w2 := w1[1..];
    FirstRead(w2, os2);
    var w3 := w2[3..];
    FirstRead(w3, os3);
    var w4 := w3[1..];
    FirstRead(w4, os4);
    assert w4[1..] == w[10..] && os4[1..] == rest;
  }

  lemma LengthsTaken(mark: nat, o: seq<byte>, v: Values)
    requires |o| == 20 && LinuxKinds(o) && Parse(NewOptions(mark, o)) == Some(TargetLayout(mark, v))
    ensures LengthsFit(mark, o)
  {
    hide Parse;
    var w := NewOptions(mark, o);
    if Shrinks(mark) {
      assert WindowsLayout(v) == [Mss(v.mss), Nop, WindowScale(v.scale), Nop, Nop] + [SackPermitted];
      HeadRead(w, v.mss, v.scale, [SackPermitted]);
      FirstRead(w[10..], [SackPermitted]);
    } else {
      var rest := [Timestamps(v.value, v.echo), SackPermitted, Eol];
      assert AppleLayout(v) == [Mss(v.mss), Nop, WindowScale(v.scale), Nop, Nop] + rest;
      HeadRead(w, v.mss, v.scale, rest);
      FirstRead(w[10..], rest);
      FirstRead(w[10..][10..], rest[1..]);
    }
  }

  lemma SameLayout(mark: nat, o: seq<byte>)
    requires |o| == 20 && !Shrinks(mark)
    ensures NewOptions(mark, o) == NewOptions(FP_MACOS, o)
  {
  }

  /** The test of the five kind bytes recognises the Linux layout if and only if the four length bytes
      it does not look at are the usual ones. */
  lemma KindsSufficeIff(o: seq<byte>)
    requires |o| == 20 && LinuxKinds(o)
    ensures (exists v :: GoodValues(v) && Parse(o) == Some(LinuxLayout(v))) <==> GoodLengths(o)
  {
    if GoodLengths(o) {
      LinuxBytes(o);
      RoundTrip(LinuxLayout(ValuesOf(o)));
      assert GoodValues(ValuesOf(o));
    } else {
      forall v | GoodValues(v) ensures Parse(o) != Some(LinuxLayout(v)) {
        if Parse(o) == Some(LinuxLayout(v)) {
          LengthsRead(o, v);
        }
      }
    }
  }

  lemma LengthsRead(o: seq<byte>, v: Values)
    requires |o| == 20 && LinuxKinds(o) && Parse(o) == Some(LinuxLayout(v))
    ensures GoodLengths(o)
  {
    var os := LinuxLayout(v);
    FirstRead(o, os);
    var p1 := o[4..];
    FirstRead(p1, os[1..]);
    var p2 := p1[2..];
    FirstRead(p2, os[1..][1..]);
    var p3 := p2[10..];
    FirstRead(p3, os[1..][1..][1..]);
    FirstRead(p3[1..], os[1..][1..][1..][1..]);
  }

  /** The first of the options read, and the rest. */
  lemma FirstRead(b: seq<byte>, os: seq<TcpOpt>)
    requires Parse(b) == Some(os) && os != [] && os[0] != Eol && !os[0].Other?
    ensures b != [] && b[0] != 0
    ensures b[0] == 1 <==> os[0] == Nop
    ensures b[0] == 1 ==> Parse(b[1..]) == Some(os[1..])
    ensures b[0] != 1 ==>
              && 2 <= b[1] <= |b| && os[0] == OptOf(b[0], b[2..b[1]]) && Parse(b[b[1]..]) == Some(os[1..])
              && b[1] == OptLength(os[0])
  {
    hide OptOf, OptLength, Before;
    if b != [] && b[0] == 1 {
      BeforeFirst(Nop, Parse(b[1..]), os);
    } else if |b| >= 2 && b[0] != 0 && 2 <= b[1] <= |b| {
      BeforeFirst(OptOf(b[0], b[2..b[1]]), Parse(b[b[1]..]), os);
      BodyLength(b[0], b[2..b[1]]);
    }
  }

  lemma BeforeFirst(o: TcpOpt, rest: Option<seq<TcpOpt>>, os: seq<TcpOpt>)
    requires Before(o, rest) == Some(os)
    ensures os != [] && os[0] == o && rest == Some(os[1..])
  {
    assert os[1..] == rest.value;
  }

  lemma BodyLength(kind: byte, body: seq<byte>)
    ensures OptOf(kind, body) != Nop
    ensures !OptOf(kind, body).Other? ==> |body| + 2 == OptLength(OptOf(kind, body))
  {
  }

  /** The length byte of an option. */
  function OptLength(o: TcpOpt): nat {
    match o
    case Mss(_) => 4
    case WindowScale(_) => 3
    case SackPermitted => 2
    case Timestamps(_, _) => 10
    case _ => 0
  }

  // ---- on the packet ----

  /** What a reshaped SYN says, with or without data behind its options: the target's layout, if and only
      if the length bytes taken over are the usual ones, and then with the values the old options had. */
  lemma {:induction false} ReshapedMeaning(p: seq<byte>, mark: nat, h: Helpers, partial: bool)
    requires HelpersOk(h) && Reshapes(p, mark, h)
    ensures |p| >= Locate(p).value + 60 && |Rewritten(p, mark, h, partial)| >= Locate(p).value + 20 + NewTcpLen(mark)
    ensures var l2 := Locate(p).value; var o := p[l2 + 40..l2 + 60];
            var w := Rewritten(p, mark, h, partial)[l2 + 40..l2 + 20 + NewTcpLen(mark)];
            && (LengthsFit(mark, o) ==> Parse(w) == Some(TargetLayout(mark, ValuesOf(o))))
            && ((exists v :: GoodValues(v) && Parse(w) == Some(TargetLayout(mark, v))) <==> LengthsFit(mark, o))
  {
    hide Parse, NewOptions, PerPacket, Locate, Reshaped, ValuesOf, NewTotalLen, LengthsFit, TargetLayout, Rewritten;
    var l2 := Locate(p).value;
    var q := PerPacket(p, l2, mark, h.random);
    RewrittenIs(p, mark, h, partial);
    MarkedBytes(p, l2, mark, h.random);
    OptionsOf(q, l2, mark);
    ReshapedFields(q, l2, mark, h, partial);
    LayoutKeepsValues(mark, p[l2 + 40..l2 + 60]);
  }

  lemma OptionsOf(q: seq<byte>, l2: nat, mark: nat)
    requires LinuxSyn(q, l2, mark)
    ensures |q| >= l2 + 60 && LinuxKinds(q[l2 + 40..l2 + 60])
  {
  }

  /** The buffer, the IP total length (a 16-bit number) and the TCP header length all move by the same
      amount; so a packet whose total length was right leaves with a right one, if that fits 16 bits. */
  lemma {:induction false} LengthsMoveTogether(p: seq<byte>, mark: nat, h: Helpers, partial: bool)
    requires HelpersOk(h) && Reshapes(p, mark, h)
    ensures |p| >= Locate(p).value + 60 && |Rewritten(p, mark, h, partial)| >= Locate(p).value + 40
    ensures var l2 := Locate(p).value; var r := Rewritten(p, mark, h, partial);
            var delta := if mark == FP_WINDOWS then -8 else 4; var len := Word(p[l2 + 2], p[l2 + 3]);
            && |r| == |p| + delta
            && 4 * (p[l2 + 32] / 16) == 40 && 4 * (r[l2 + 32] / 16) == 40 + delta
            && Word(r[l2 + 2], r[l2 + 3]) == (len + delta) % 65536
            && (len == |p| - l2 ==> (Word(r[l2 + 2], r[l2 + 3]) == |r| - l2 <==> |r| - l2 < 65536))
  {
    hide NewOptions, PerPacket, LinuxKinds, Locate, Reshaped, NewTotalLen, Word, Rewritten;
    var l2 := Locate(p).value;
    var q := PerPacket(p, l2, mark, h.random);
    RewrittenIs(p, mark, h, partial);
    MarkedBytes(p, l2, mark, h.random);
    assert q[l2 + 32] == q[l2 + 20..][12] && p[l2 + 32] == p[l2 + 20..][12];
    ReshapedFields(q, l2, mark, h, partial);
    TotalLenMoves(mark, Word(p[l2 + 2], p[l2 + 3]));
  }

  lemma TotalLenMoves(mark: nat, len: nat)
    ensures NewTotalLen(mark, len) == (len + (if Shrinks(mark) then -8 else 4)) % 65536
    ensures 60 <= len < 65536 ==>
              var total := len + (if Shrinks(mark) then -8 else 4); NewTotalLen(mark, len) == total <==> total < 65536
  {
  }

  /** `r` has length `n`, total length `total`, data offset `offset` and options `w`. */
  predicate Says(r: seq<byte>, l2: nat, n: int, total: nat, offset: nat, w: seq<byte>) {
    && |r| == n >= l2 + 40 + |w|
    && Word(r[l2 + 2], r[l2 + 3]) == total && r[l2 + 32] / 16 == offset
    && r[l2 + 40..l2 + 40 + |w|] == w
  }

  lemma {:induction false} ReshapedFields(q: seq<byte>, l2: nat, mark: nat, h: Helpers, partial: bool)
    requires HelpersOk(h) && HasOptions(q, l2)
    ensures Says(Reshaped(q, l2, mark, h, partial), l2, |q| + NewTcpLen(mark) - 40,
                 NewTotalLen(mark, Word(q[l2 + 2], q[l2 + 3])), NewOffset(mark), NewOptions(mark, q[l2 + 40..l2 + 60]))
  {
    hide NewOptions, Reshaped, NewTotalLen, Word, Packet, NewOffset, NewTcpLen;
    Split(q, l2);
    FieldsOfParts(q[..l2], q[l2..l2 + 20], q[l2 + 20..l2 + 40], q[l2 + 40..l2 + 60], q[l2 + 60..], mark, h, partial);
  }

  lemma {:induction false} FieldsOfParts(link: seq<byte>, ip: seq<byte>, tcp: seq<byte>, o: seq<byte>, data: seq<byte>, mark: nat, h: Helpers,
                      partial: bool)
    requires HelpersOk(h) && Shaped(ip, tcp) && |o| == 20
    ensures |Packet(link, ip, tcp, o + data)| == |link| + 60 + |data|
    ensures Says(Reshaped(Packet(link, ip, tcp, o + data), |link|, mark, h, partial), |link|,
                 |link| + 20 + NewTcpLen(mark) + |data|, NewTotalLen(mark, Word(ip[2], ip[3])), NewOffset(mark), NewOptions(mark, o))
  {
    hide NewOptions, NewIp, NewTcp, Reshaped, Packet, NewTotalLen, CarriedOver, Word, NewOffset, NewTcpLen, Hi, Lo;
    NewTcpParts(tcp, o, mark, partial);
    ReshapedParts(link, ip, tcp, o, data, mark, h, partial);
    PacketFields(link, NewIp(ip, mark), NewTcp(tcp, o, mark, partial), NewOptions(mark, o), CarriedOver(mark, o, data, h));
    NewFields(ip, tcp, o, mark, partial);
    WordOfBytes(NewIp(ip, mark)[2], NewIp(ip, mark)[3], NewTotalLen(mark, Word(ip[2], ip[3])));
  }

  lemma WordOfBytes(hi: byte, lo: byte, w: nat)
    requires hi == Hi(w) && lo == Lo(w) && w < 65536
    ensures Word(hi, lo) == w
  {
    WordOfPut(w);
  }

  lemma PacketFields(link: seq<byte>, ip: seq<byte>, tcp: seq<byte>, w: seq<byte>, d: seq<byte>)
    requires Shaped(ip, tcp)
    ensures var r := Packet(link, ip, tcp, w + d); var l := |link|;
            && |r| == l + 40 + |w| + |d| && r[l + 40..l + 40 + |w|] == w
            && r[l + 2] == ip[2] && r[l + 3] == ip[3] && r[l + 32] == tcp[12]
  {
    hide Packet;
    var r, l := Packet(link, ip, tcp, w + d), |link|;
    Parts(link, ip, tcp, w + d);
    assert r[l + 40..l + 40 + |w|] == r[l + 40..][..|w|] == w;
    SetIp(link, ip, tcp, w + d, 2, 0);
    SetIp(link, ip, tcp, w + d, 3, 0);
    SetTcp(link, ip, tcp, w + d, 12, 0);
  }

  lemma MarkedBytes(p: seq<byte>, l2: nat, mark: nat, random: nat)
    requires l2 + 20 <= |p|
    ensures var q := PerPacket(p, l2, mark, random);
            && q[l2 + 2] == p[l2 + 2] && q[l2 + 3] == p[l2 + 3] && q[l2 + 20..] == p[l2 + 20..]
            && (|p| >= l2 + 60 ==> q[l2 + 40..l2 + 60] == p[l2 + 40..l2 + 60])
  {
  }

  lemma NewFields(ip: seq<byte>, tcp: seq<byte>, o: seq<byte>, mark: nat, partial: bool)
    requires |ip| == |tcp| == |o| == 20
    ensures var total := NewTotalLen(mark, Word(ip[2], ip[3]));
            NewIp(ip, mark)[2] == Hi(total) && NewIp(ip, mark)[3] == Lo(total)
    ensures NewTcp(tcp, o, mark, partial)[12] / 16 == NewOffset(mark)
  {
    hide HeaderChecksum, NewCsum, NewTotalLen, Hi, Lo;
    PutEach(ip, 2, NewTotalLen(mark, Word(ip[2], ip[3])));
  }

  /** TTL and IP ID of the profile on every marked packet that is located, on every way out of the
      program; nothing but these and the header checksum changes unless the SYN is reshaped, and nothing at
      all on a packet that is not marked or not located. What is located is another matter: see
      SynExceptions.LocatedIff. */
  lemma {:induction false} ProfileOnEveryPacket(p: seq<byte>, mark: nat, h: Helpers, partial: bool)
    requires HelpersOk(h)
    ensures var r := Rewritten(p, mark, h, partial);
            if !Applies(p, mark) then r == p else
            var l2 := Locate(p).value;
            && |r| >= l2 + 20 && r[l2 + 8] == (if mark == FP_WINDOWS then 128 else 64)
            && Word(r[l2 + 4], r[l2 + 5]) == (if mark == FP_WINDOWS then Word(p[l2 + 4], p[l2 + 5])
                                             else if mark == FP_MACOS then 0 else h.random % 65536)
            && (!Reshapes(p, mark, h) ==>
                  |r| == |p| && forall i :: 0 <= i < |p| && !HeaderByte(i, l2) ==> r[i] == p[i])
  {
    hide LinuxSyn, Reshaped, PerPacket, WithIpCsum, Locate, Hi, Lo, Word;
    if Applies(p, mark) {
      LocatedRoom(p);
      MarkedProfile(p, Locate(p).value, mark, h.random);
      WordOfPut(h.random);
      WordOfPut(0);
      ChecksumProfile(PerPacket(p, Locate(p).value, mark, h.random), Locate(p).value);
    }
    if Reshapes(p, mark, h) {
      ReshapedProfile(p, mark, h, partial);
    }
  }

  lemma LocatedRoom(p: seq<byte>)
    ensures Locate(p).Some? ==> |p| >= Locate(p).value + 20
  {
  }

  lemma PutEach(p: seq<byte>, at: nat, w: nat)
    requires at + 2 <= |p|
    ensures var q := Put16(p, at, w);
            && (forall i :: 0 <= i < |p| && i != at && i != at + 1 ==> q[i] == p[i])
            && q[at] == Hi(w) && q[at + 1] == Lo(w)
  {
    hide Hi, Lo;
  }

  /** The header of a packet that only gets its TTL and IP ID. */
  lemma MarkedProfile(p: seq<byte>, l2: nat, mark: nat, random: nat)
    requires |p| >= l2 + 20
    ensures var q := PerPacket(p, l2, mark, random);
            && q[l2 + 8] == Ttl(mark)
            && (q[l2 + 4], q[l2 + 5]) == (if mark == FP_MACOS then (Hi(0), Lo(0))
                                          else if mark == FP_ANDROID || mark == FP_IOS then (Hi(random), Lo(random))
                                          else (p[l2 + 4], p[l2 + 5]))
            && (forall i :: 0 <= i < |p| && !HeaderByte(i, l2) ==> q[i] == p[i])
  {
    hide Put16, Hi, Lo, Word, Ttl;
    var q := p[l2 + 8 := Ttl(mark)];
    PutEach(q, l2 + 4, 0);
    PutEach(q, l2 + 4, random);
  }

  /** The same after the header checksum has been written. */
  lemma ChecksumProfile(q: seq<byte>, l2: nat)
    requires |q| >= l2 + 20
    ensures var r := WithIpCsum(q, l2);
            && r[l2 + 8] == q[l2 + 8] && r[l2 + 4] == q[l2 + 4] && r[l2 + 5] == q[l2 + 5]
            && (forall i :: 0 <= i < |q| && !HeaderByte(i, l2) ==> r[i] == q[i])
  {
    hide Put16, HeaderChecksum, Hi, Lo;
    PutEach(q, l2 + 10, HeaderChecksum(q[l2..l2 + 20]));
  }

  lemma WordOfPut(w: nat)
    ensures Word(Hi(w), Lo(w)) == w % 65536
  {
    var q, r := w / 256, w % 256;
    var a, b := q / 256, q % 256;
    assert w == 65536 * a + (256 * b + r);
  }

  /** The bytes of the IPv4 header that belong to the profile, and the checksum's. */
  predicate HeaderByte(i: int, l2: nat) {
    i == l2 + 4 || i == l2 + 5 || i == l2 + 8 || i == l2 + 10 || i == l2 + 11
  }

  lemma ReshapedProfile(p: seq<byte>, mark: nat, h: Helpers, partial: bool)
    requires HelpersOk(h) && Reshapes(p, mark, h)
    ensures |p| >= Locate(p).value + 60
    ensures var l2 := Locate(p).value; var q := PerPacket(p, l2, mark, h.random); var r := Reshaped(q, l2, mark, h, partial);
            |r| >= l2 + 20 && r[l2 + 8] == q[l2 + 8] && r[l2 + 4] == q[l2 + 4] && r[l2 + 5] == q[l2 + 5]
  {
    hide NewOptions, NewIp, NewTcp, Reshaped, Packet, CarriedOver, PerPacket;
    var l2 := Locate(p).value;
    var q := PerPacket(p, l2, mark, h.random);
    OptionsOf(q, l2, mark);
    var link, ip, tcp, o, data := q[..l2], q[l2..l2 + 20], q[l2 + 20..l2 + 40], q[l2 + 40..l2 + 60], q[l2 + 60..];
    Split(q, l2);
    ReshapedParts(link, ip, tcp, o, data, mark, h, partial);
    var jp, t, w := NewIp(ip, mark), NewTcp(tcp, o, mark, partial), NewOptions(mark, o) + CarriedOver(mark, o, data, h);
    Parts(link, jp, t, w);
    SetIp(link, jp, t, w, 4, 0);
    SetIp(link, jp, t, w, 5, 0);
    SetIp(link, jp, t, w, 8, 0);
    KeptFields(ip, mark);
    MarkedProfile(p, l2, mark, h.random);
  }

  lemma KeptFields(ip: seq<byte>, mark: nat)
    requires |ip| == 20
    ensures var jp := NewIp(ip, mark);
            jp[4] == ip[4] && jp[5] == ip[5] && jp[8] == if Shrinks(mark) then 128 else ip[8]
  {
    hide HeaderChecksum, NewTotalLen;
  }
}
