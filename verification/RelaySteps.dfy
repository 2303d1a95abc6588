/** Every completion keeps the per-connection invariant. */
module RelaySteps {
  import opened RelayTypes
  import opened RelaySession
  import opened RelayInv
  import opened RelayTeardown

  // ---- which phase an operation in flight belongs to ----

  ghost predicate PhaseOf(cfg: Cfg, s: Session, k: Kind) {
    match k
    case RecvReq => Reading(cfg, s)
    case ReplyMore => ReplyingMore(cfg, s)
    case RejectSend => Rejecting(cfg, s)
    case ReplyClient => Replying(cfg, s)
    case SendUp => Forwarding(cfg, s)
    case C2URecv => Duplex(cfg, s) && !s.c.clientReadDone && s.c.c2uOff == s.c.c2uEnd
    case C2USend => Duplex(cfg, s) && !s.c.clientReadDone && s.c.c2uOff < s.c.c2uEnd
    case U2CRecv => Duplex(cfg, s) && !s.c.upstreamReadDone && s.c.u2cOff == s.c.u2cEnd
    case U2CSend => Duplex(cfg, s) && !s.c.upstreamReadDone && s.c.u2cOff < s.c.u2cEnd
  }

  lemma DuplexPhase(cfg: Cfg, s: Session, f: Flight)
    requires Duplex(cfg, s) && f in s.flights
    ensures f == FlightOf(s.c, f.kind) && PhaseOf(cfg, s, f.kind)
  {
    DuplexInFlight(s);
    assert InFlight(s, f.kind) > 0;
  }

  lemma OnlyPhase(s: Session, k: Kind, f: Flight)
    requires s.flights == multiset{FlightOf(s.c, k)} && f in s.flights
    ensures f == FlightOf(s.c, k) && f.kind == k
  {
  }

  lemma PhaseOfFlight(cfg: Cfg, s: Session, tick: nat, f: Flight)
    requires Active(cfg, s, tick) && f in s.flights
    ensures f == FlightOf(s.c, f.kind) && PhaseOf(cfg, s, f.kind)
  {
    if Duplex(cfg, s) {
      DuplexPhase(cfg, s, f);
    } else if Reading(cfg, s) {
      OnlyPhase(s, RecvReq, f);
    } else if ReplyingMore(cfg, s) {
      OnlyPhase(s, ReplyMore, f);
    } else if Rejecting(cfg, s) {
      OnlyPhase(s, RejectSend, f);
    } else if Replying(cfg, s) {
      OnlyPhase(s, ReplyClient, f);
    } else if Forwarding(cfg, s) {
      OnlyPhase(s, SendUp, f);
    }
  }

  lemma PhaseQuiet(cfg: Cfg, s: Session, tick: nat, f: Flight)
    requires Active(cfg, s, tick) && f in s.flights
    ensures NothingAtHook(s) && (s.c.counted <==> f.kind == RejectSend)
  {
    PhaseOfFlight(cfg, s, tick, f);
  }

  // ---- failures, and the end of a rejected connection ----

  lemma FailedOp(cfg: Cfg, s: Session, tick: nat, f: Flight, res: int, data: seq<byte>)
    requires GoodCfg(cfg) && Active(cfg, s, tick) && f in s.flights && ResultOk(f, res, data)
    requires f.kind != RejectSend
    ensures Closing(cfg, Fail(Harvested(s, f, res, data)), tick)
    ensures Fail(Harvested(s, f, res, data)).mapped
  {
    ActiveIsLasting(cfg, s, tick);
    HarvestLasting(cfg, s, tick, f, res, data);
    PhaseQuiet(cfg, s, tick, f);
    FailKeeps(cfg, Harvested(s, f, res, data), tick);
  }

  /** Moving a window's start leaves a session lasting: the fields behind no other operation change. */
  lemma RejectEnds(cfg: Cfg, s: Session, tick: nat, f: Flight, res: int, n: nat)
    requires GoodCfg(cfg) && Active(cfg, s, tick) && f in s.flights && ResultOk(f, res, []) && f.kind == RejectSend
    ensures var t := Harvested(s, f, res, []);
            Closing(cfg, CloseConn(t.(c := t.c.(replyOff := n))), tick)
  {
    ActiveIsLasting(cfg, s, tick);
    HarvestLasting(cfg, s, tick, f, res, []);
    PhaseOfFlight(cfg, s, tick, f);
    var t := Harvested(s, f, res, []);
    var u := t.(c := t.c.(replyOff := n));
    assert u.flights == multiset{};
    NoneInFlight(u);
    assert ForUpstream(u.h) == ForUpstream(t.h) && ForClient(u.h) == ForClient(t.h);
    assert Lasting(cfg, u, tick);
    CloseKeeps(cfg, u, tick);
  }

  // ---- reading the request ----

  lemma StoredPrefix(b: seq<byte>, at: nat, d: seq<byte>)
    requires at + |d| <= |b|
    ensures |Stored(b, at, d)| == |b|
    ensures Stored(b, at, d)[..at] == b[..at]
    ensures Stored(b, at, d)[..at + |d|] == b[..at] + d
    ensures at == 0 ==> Stored(b, at, d)[0..|d|] == d
  {
  }

  lemma SeenGrows(cfg: Cfg, s: Session, t: Session, req: seq<byte>)
    requires s.c.reqN < |req| == t.c.reqN <= cfg.maxReqLen
    requires SeenOk(cfg, s) && s.h.clientIn == req[..s.c.reqN]
    requires t.h.clientIn == req && t.h.seen == s.h.seen + [req]
    ensures SeenOk(cfg, t)
  {
    forall k | 0 <= k < |t.h.seen|
      ensures 0 < |t.h.seen[k]| <= t.c.reqN && t.h.seen[k] == t.h.clientIn[..|t.h.seen[k]|]
    {
      if k < |s.h.seen| {
        assert s.h.seen[k] == s.h.clientIn[..|s.h.seen[k]|];
      }
    }
  }

  lemma RecvReqKeeps(cfg: Cfg, s: Session, tick: nat, f: Flight, res: int, data: seq<byte>)
    requires GoodCfg(cfg) && Active(cfg, s, tick) && f in s.flights && ResultOk(f, res, data)
    requires f.kind == RecvReq && res > 0
    ensures Active(cfg, Complete(cfg, s, tick, f, res, data), tick)
    ensures AtHook(cfg, Complete(cfg, s, tick, f, res, data))
  {
    PhaseOfFlight(cfg, s, tick, f);
    var t := Complete(cfg, s, tick, f, res, data);
    StoredPrefix(s.c.reqBuf, s.c.reqN, data);
    var req := t.c.reqBuf[..t.c.reqN];
    assert req == s.h.clientIn + data;
    SeenGrows(cfg, s, t, req);
    assert t.jobs == [req];
    assert PreRelay(cfg, t);
  }

  // ---- the reply window ----

  /** A send took the first `n` bytes of the window [i..j) of `b`. */
  lemma WindowAdvance(out: seq<byte>, b: seq<byte>, i: nat, j: nat, n: nat)
    requires i + n <= j <= |b|
    ensures Slice(Slice(b, i, j), 0, n) == b[i..i + n]
    ensures (out + b[i..i + n]) + Slice(b, i + n, j) == out + Slice(b, i, j)
  {
    assert b[i..j] == b[i..i + n] + b[i + n..j];
    assert (out + b[i..i + n]) + b[i + n..j] == out + (b[i..i + n] + b[i + n..j]);
  }

  predicate IsReply(k: Kind) {
    k == ReplyClient || k == ReplyMore || k == RejectSend
  }

  /** `t` is `s` with `res` more reply bytes at the client and `flights` as given. */
  ghost predicate Replied(s: Session, t: Session, res: nat) {
    && s.c.replyOff + res <= s.c.replyEnd <= |s.c.replyBuf|
    && t.c == s.c.(replyOff := s.c.replyOff + res)
    && t.h == s.h.(clientOut := s.h.clientOut + s.c.replyBuf[s.c.replyOff..s.c.replyOff + res])
    && t == s.(c := t.c, h := t.h, flights := t.flights)
  }

  lemma RepliedPre(cfg: Cfg, s: Session, t: Session, res: nat)
    requires Replied(s, t, res) && PreRelay(cfg, s)
    ensures PreRelay(cfg, t)
    ensures Undecided(s) ==> Undecided(t)
    ensures DecidedPre(cfg, s) ==> DecidedPre(cfg, t)
    ensures SeenOk(cfg, s) ==> SeenOk(cfg, t)
  {
    WindowAdvance(s.h.clientOut, s.c.replyBuf, s.c.replyOff, s.c.replyEnd, res);
  }

  lemma ReplyPartial(cfg: Cfg, s: Session, tick: nat, f: Flight, res: int)
    requires GoodCfg(cfg) && Active(cfg, s, tick) && f in s.flights && ResultOk(f, res, [])
    requires IsReply(f.kind) && 0 < res < |f.data|
    ensures Active(cfg, Complete(cfg, s, tick, f, res, []), tick)
  {
    PhaseOfFlight(cfg, s, tick, f);
    var t := Complete(cfg, s, tick, f, res, []);
    WindowAdvance(s.h.clientOut, s.c.replyBuf, s.c.replyOff, s.c.replyEnd, res);
    assert Replied(s, t, res);
    RepliedPre(cfg, s, t, res);
    assert t.flights == multiset{FlightOf(t.c, f.kind)};
  }

  lemma ReplyMoreDone(cfg: Cfg, s: Session, tick: nat, f: Flight)
    requires GoodCfg(cfg) && Active(cfg, s, tick) && f in s.flights && f.kind == ReplyMore
    ensures Active(cfg, Complete(cfg, s, tick, f, |f.data|, []), tick)
  {
    PhaseOfFlight(cfg, s, tick, f);
    var res := |f.data|;
    var t := Complete(cfg, s, tick, f, res, []);
    WindowAdvance(s.h.clientOut, s.c.replyBuf, s.c.replyOff, s.c.replyEnd, res);
    assert Replied(s, t, res);
    RepliedPre(cfg, s, t, res);
    assert t.flights == multiset{FlightOf(t.c, RecvReq)};
  }

  // ---- going duplex ----

  /** Everything before the first duplex read is settled; nothing is in flight. */
  ghost predicate ReadyForDuplex(cfg: Cfg, s: Session, tick: nat) {
    && s.mapped && !s.c.closing
    && s.c.clientFD > 0 && s.c.lastTick <= tick
    && s.closes == multiset{} && s.unclosed == multiset{} && s.c.closesLeft == 0
    && SeenOk(cfg, s) && Charged(cfg, s)
    && DecidedPre(cfg, s) && s.c.replyOff == s.c.replyEnd
    && s.flights == multiset{} && NothingAtHook(s)
  }

  lemma StartDuplexKeeps(cfg: Cfg, s: Session, tick: nat)
    requires GoodCfg(cfg) && ReadyForDuplex(cfg, s, tick) && s.c.initSent == s.c.reqN
    ensures Active(cfg, StartDuplex(cfg, s), tick) && Duplex(cfg, StartDuplex(cfg, s))
  {
    var t := StartDuplex(cfg, s);
    assert t.flights == C2UToken(t.c) + U2CToken(t.c);
    assert ForClient(t.h) == s.h.replied;
    assert s.h.upOut == s.h.clientIn[s.h.consumed..];
    assert Duplex(cfg, t);
  }

  lemma ForwardInitKeeps(cfg: Cfg, s: Session, tick: nat)
    requires GoodCfg(cfg) && ReadyForDuplex(cfg, s, tick)
    ensures Active(cfg, ForwardInit(cfg, s), tick)
  {
    if s.c.initSent >= s.c.reqN {
      StartDuplexKeeps(cfg, s, tick);
    } else {
      var t := ForwardInit(cfg, s);
      assert t.flights == multiset{FlightOf(t.c, SendUp)};
      assert Forwarding(cfg, t);
    }
  }

  lemma ReplyClientDone(cfg: Cfg, s: Session, tick: nat, f: Flight)
    requires GoodCfg(cfg) && Active(cfg, s, tick) && f in s.flights && f.kind == ReplyClient
    ensures Active(cfg, Complete(cfg, s, tick, f, |f.data|, []), tick)
  {
    PhaseOfFlight(cfg, s, tick, f);
    var res := |f.data|;
    var h := Harvested(s, f, res, []);
    var t := h.(c := h.c.(replyOff := h.c.replyOff + res));
    WindowAdvance(s.h.clientOut, s.c.replyBuf, s.c.replyOff, s.c.replyEnd, res);
    assert Replied(s, t, res);
    RepliedPre(cfg, s, t, res);
    assert t.flights == multiset{};
    ForwardInitKeeps(cfg, t, tick);
  }

  /** `t` is `s` with `res` more request bytes at the upstream and nothing in flight. */
  ghost predicate SentUp(s: Session, t: Session, res: nat) {
    && s.c.initSent + res <= s.c.reqN <= |s.c.reqBuf|
    && t.c == s.c.(initSent := s.c.initSent + res)
    && t.h == s.h.(upOut := s.h.upOut + s.c.reqBuf[s.c.initSent..s.c.initSent + res], bytesUp := s.h.bytesUp + res)
    && t == s.(c := t.c, h := t.h, flights := multiset{})
  }

  lemma SentUpPre(cfg: Cfg, s: Session, t: Session, res: nat)
    requires SentUp(s, t, res) && DecidedPre(cfg, s)
    ensures DecidedPre(cfg, t)
    ensures SeenOk(cfg, s) ==> SeenOk(cfg, t)
  {
    assert s.c.reqBuf[s.h.consumed..t.c.initSent] == s.h.upOut + s.c.reqBuf[s.c.initSent..t.c.initSent];
  }

  lemma SendUpForwards(cfg: Cfg, s: Session, tick: nat, f: Flight, res: int) returns (t: Session)
    requires s.mapped && !s.c.closing && s.flights == multiset{f} && f == FlightOf(s.c, SendUp)
    requires s.c.initSent < s.c.reqN <= |s.c.reqBuf| && 0 < res <= |f.data|
    ensures SentUp(s, t, res) && Complete(cfg, s, tick, f, res, []) == ForwardInit(cfg, t)
  {
    hide Fail, CloseConn, StartDuplex;
    var h := Harvested(s, f, res, []);
    WindowAdvance(s.h.upOut, s.c.reqBuf, s.c.initSent, s.c.reqN, res);
    assert h == s.(flights := multiset{}, h := s.h.(upOut := s.h.upOut + s.c.reqBuf[s.c.initSent..s.c.initSent + res]));
    t := h.(c := h.c.(initSent := h.c.initSent + res), h := h.h.(bytesUp := h.h.bytesUp + res));
    assert Complete(cfg, s, tick, f, res, []) == OnSendUp(cfg, h, res);
  }

  lemma SendUpKeeps(cfg: Cfg, s: Session, tick: nat, f: Flight, res: int)
    requires GoodCfg(cfg) && Envelope(cfg, s, tick) && Forwarding(cfg, s)
    requires f == FlightOf(s.c, SendUp) && 0 < res <= |f.data|
    ensures Active(cfg, Complete(cfg, s, tick, f, res, []), tick)
  {
    var t := SendUpForwards(cfg, s, tick, f, res);
    SentUpPre(cfg, s, t, res);
    ForwardInitKeeps(cfg, t, tick);
  }

  // ---- duplex, client to upstream ----

  /** The fields one direction uses settle its token. */
  lemma SameU2C(c: Fields, d: Fields)
    requires d.clientFD == c.clientFD && d.upstreamFD == c.upstreamFD && d.upstreamReadDone == c.upstreamReadDone
    requires d.u2cBuf == c.u2cBuf && d.u2cOff == c.u2cOff && d.u2cEnd == c.u2cEnd
    ensures U2CToken(d) == U2CToken(c)
  {
    hide Slice;
  }

  lemma SameC2U(c: Fields, d: Fields)
    requires d.clientFD == c.clientFD && d.upstreamFD == c.upstreamFD && d.clientReadDone == c.clientReadDone
    requires d.c2uBuf == c.c2uBuf && d.c2uOff == c.c2uOff && d.c2uEnd == c.c2uEnd
    ensures C2UToken(d) == C2UToken(c)
  {
    hide Slice;
  }

  lemma C2UDropToken(s: Session)
    requires s.flights == C2UToken(s.c) + U2CToken(s.c) && !s.c.clientReadDone
    ensures s.flights - multiset{FlightOf(s.c, C2UKind(s.c))} == U2CToken(s.c)
  {
  }

  lemma U2CDropToken(s: Session)
    requires s.flights == C2UToken(s.c) + U2CToken(s.c) && !s.c.upstreamReadDone
    ensures s.flights - multiset{FlightOf(s.c, U2CKind(s.c))} == C2UToken(s.c)
  {
  }

  lemma C2URecvShape(cfg: Cfg, s: Session, tick: nat, f: Flight, res: int, data: seq<byte>)
    requires s.mapped && !s.c.closing && !s.c.clientReadDone && s.flights == C2UToken(s.c) + U2CToken(s.c)
    requires s.c.c2uOff == s.c.c2uEnd && f == FlightOf(s.c, C2URecv) && 0 < res == |data| <= f.room
    ensures var t := Complete(cfg, s, tick, f, res, data);
            && t == s.(c := s.c.(c2uBuf := Stored(s.c.c2uBuf, 0, data), lastTick := tick, c2uOff := 0, c2uEnd := res),
                       flights := U2CToken(s.c) + multiset{FlightOf(t.c, C2USend)},
                       h := s.h.(clientIn := s.h.clientIn + data, bytesUp := s.h.bytesUp + res))
  {
    hide Fail, CloseConn, FdIfOpen, Slice, Stored;
    C2UDropToken(s);
    assert Harvested(s, f, res, data) == s.(flights := U2CToken(s.c), h := s.h.(clientIn := s.h.clientIn + data));
  }

  lemma C2URecvKeeps(cfg: Cfg, s: Session, tick: nat, f: Flight, res: int, data: seq<byte>)
    requires GoodCfg(cfg) && Envelope(cfg, s, tick) && PhaseOf(cfg, s, C2URecv)
    requires f == FlightOf(s.c, C2URecv) && 0 < res == |data| <= f.room
    ensures var t := Complete(cfg, s, tick, f, res, data); Envelope(cfg, t, tick) && Duplex(cfg, t)
  {
    hide Complete, FlightOf, C2UStream, U2CToken, SeenOk, Stored;
    var t := Complete(cfg, s, tick, f, res, data);
    assert f.room == cfg.bufSize by { RoomIs(cfg, s); }
    C2URecvShape(cfg, s, tick, f, res, data) by { RoomIs(cfg, s); }
    SameU2C(s.c, t.c);
    SeenAfterRead(cfg, s, t, data);
    C2URecvStream(cfg, s, t, data);
  }

  lemma RoomIs(cfg: Cfg, s: Session)
    ensures C2UStream(cfg, s) ==> FlightOf(s.c, C2URecv).room == cfg.bufSize
    ensures U2CStream(cfg, s) ==> FlightOf(s.c, U2CRecv).room == cfg.bufSize
  {
  }

  lemma SeenAfterRead(cfg: Cfg, s: Session, t: Session, data: seq<byte>)
    requires SeenOk(cfg, s) && t.h.clientIn == s.h.clientIn + data && t.h.seen == s.h.seen && t.c.reqN == s.c.reqN
    ensures SeenOk(cfg, t)
  {
    forall k | 0 <= k < |t.h.seen| ensures 0 < |t.h.seen[k]| <= t.c.reqN && t.h.seen[k] == t.h.clientIn[..|t.h.seen[k]|] {
      assert s.h.seen[k] == s.h.clientIn[..|s.h.seen[k]|];
    }
  }

  lemma C2URecvStream(cfg: Cfg, s: Session, t: Session, data: seq<byte>)
    requires C2UStream(cfg, s) && s.c.c2uOff == s.c.c2uEnd && |data| <= cfg.bufSize
    requires !t.c.clientReadDone
    requires t.c.c2uBuf == Stored(s.c.c2uBuf, 0, data) && t.c.c2uOff == 0 && t.c.c2uEnd == |data|
    requires t.h.clientIn == s.h.clientIn + data && t.h.upOut == s.h.upOut && t.h.consumed == s.h.consumed
    requires t.h.bytesUp == s.h.bytesUp + |data|
    ensures C2UStream(cfg, t)
  {
    assert t.c.c2uBuf[0..|data|] == data;
    assert t.h.clientIn[t.h.consumed..] == s.h.clientIn[s.h.consumed..] + data;
  }

  lemma C2USendHarvest(s: Session, f: Flight, res: int)
    requires !s.c.clientReadDone && s.flights == C2UToken(s.c) + U2CToken(s.c)
    requires s.c.c2uOff < s.c.c2uEnd <= |s.c.c2uBuf| && f == FlightOf(s.c, C2USend) && 0 < res <= |f.data|
    ensures Harvested(s, f, res, []) ==
            s.(flights := U2CToken(s.c), h := s.h.(upOut := s.h.upOut + s.c.c2uBuf[s.c.c2uOff..s.c.c2uOff + res]))
  {
    WindowAdvance(s.h.upOut, s.c.c2uBuf, s.c.c2uOff, s.c.c2uEnd, res);
    C2UDropToken(s);
  }

  lemma C2UNext(h: Session, res: int)
    requires !h.c.clientReadDone && 0 < res && h.c.c2uOff + res <= h.c.c2uEnd
    ensures var t := OnC2USend(h, res);
            t == h.(c := h.c.(c2uOff := h.c.c2uOff + res), flights := h.flights + C2UToken(t.c)) && U2CToken(t.c) == U2CToken(h.c)
  {
    hide Fail, CloseConn, FdIfOpen, U2CToken;
    SameU2C(h.c, OnC2USend(h, res).c);
  }

  lemma C2USendIs(cfg: Cfg, s: Session, tick: nat, f: Flight, res: int)
    requires s.mapped && !s.c.closing && f.kind == C2USend
    ensures Complete(cfg, s, tick, f, res, []) == OnC2USend(Harvested(s, f, res, []), res)
  {
    hide OnC2USend, OnU2CSend, OnC2URecv, OnU2CRecv, OnReply, OnSendUp, OnRecvReq, Harvested;
  }

  lemma C2USendShape(cfg: Cfg, s: Session, tick: nat, f: Flight, res: int)
    requires s.mapped && !s.c.closing && !s.c.clientReadDone && s.flights == C2UToken(s.c) + U2CToken(s.c)
    requires s.c.c2uOff < s.c.c2uEnd <= |s.c.c2uBuf| && f == FlightOf(s.c, C2USend) && 0 < res <= |f.data|
    ensures var t := Complete(cfg, s, tick, f, res, []);
            && t == s.(c := s.c.(c2uOff := s.c.c2uOff + res), flights := t.flights,
                       h := s.h.(upOut := s.h.upOut + s.c.c2uBuf[s.c.c2uOff..s.c.c2uOff + res]))
            && t.flights == C2UToken(t.c) + U2CToken(t.c)
  {
    hide OnC2USend, Harvested, Complete;
    C2USendHarvest(s, f, res);
    var h := Harvested(s, f, res, []);
    C2USendIs(cfg, s, tick, f, res);
    C2UNext(h, res);
  }

  lemma C2USendStream(cfg: Cfg, s: Session, t: Session, res: nat)
    requires C2UStream(cfg, s) && s.c.c2uOff + res <= s.c.c2uEnd && !s.c.clientReadDone
    requires t.c == s.c.(c2uOff := s.c.c2uOff + res)
    requires t.h == s.h.(upOut := s.h.upOut + s.c.c2uBuf[s.c.c2uOff..s.c.c2uOff + res])
    ensures C2UStream(cfg, t)
  {
    WindowAdvance(s.h.upOut, s.c.c2uBuf, s.c.c2uOff, s.c.c2uEnd, res);
  }

  lemma C2USendKeeps(cfg: Cfg, s: Session, tick: nat, f: Flight, res: int)
    requires GoodCfg(cfg) && Envelope(cfg, s, tick) && PhaseOf(cfg, s, C2USend)
    requires f == FlightOf(s.c, C2USend) && 0 < res <= |f.data|
    ensures var t := Complete(cfg, s, tick, f, res, []); Envelope(cfg, t, tick) && Duplex(cfg, t)
  {
    C2USendShape(cfg, s, tick, f, res);
    C2USendStream(cfg, s, Complete(cfg, s, tick, f, res, []), res);
  }

  /** The client's end of stream: the upstream is told, and the connection closes when both are done. */
  lemma KindOfFlight(c: Fields, k: Kind)
    ensures FlightOf(c, k).kind == k
  {
  }

  lemma C2UEofShape(cfg: Cfg, s: Session, tick: nat, f: Flight) returns (t: Session)
    requires s.mapped && !s.c.closing && !s.c.clientReadDone && s.flights == C2UToken(s.c) + U2CToken(s.c)
    requires s.c.c2uOff == s.c.c2uEnd && f == FlightOf(s.c, C2URecv)
    ensures t == s.(c := s.c.(clientReadDone := true), flights := U2CToken(s.c), h := s.h.(shutUp := s.h.shutUp + 1))
    ensures t.flights == C2UToken(t.c) + U2CToken(t.c)
    ensures Complete(cfg, s, tick, f, 0, []) == if s.c.upstreamReadDone then CloseConn(t) else t
  {
    hide Fail, CloseConn, Post, FlightOf;
    var h := Harvested(s, f, 0, []);
    KindOfFlight(s.c, C2URecv);
    SameU2C(s.c, s.c.(clientReadDone := true));
    C2UDropToken(s);
    assert h == s.(flights := U2CToken(s.c));
    t := h.(c := h.c.(clientReadDone := true), h := h.h.(shutUp := h.h.shutUp + 1));
    assert Complete(cfg, s, tick, f, 0, []) == OnC2URecv(h, tick, 0, []);
  }

  /** `t` is `s` with one more read side done and SHUT_WR passed on. */
  lemma EofClose(cfg: Cfg, s: Session, t: Session, tick: nat)
    requires GoodCfg(cfg) && Envelope(cfg, s, tick) && Duplex(cfg, s)
    requires s.c.c2uOff == s.c.c2uEnd && s.c.u2cOff == s.c.u2cEnd
    requires t.c == s.c.(clientReadDone := true, upstreamReadDone := true)
    requires t.h == s.h.(shutUp := 1, shutClient := 1)
    requires t == s.(c := t.c, h := t.h, flights := multiset{})
    ensures MayClose(cfg, t, tick)
  {
    assert ForClient(t.h) == ForClient(s.h);
    BothDone(cfg, t, tick);
  }

  lemma C2UEofKeeps(cfg: Cfg, s: Session, tick: nat, f: Flight)
    requires GoodCfg(cfg) && Envelope(cfg, s, tick) && PhaseOf(cfg, s, C2URecv)
    requires f == FlightOf(s.c, C2URecv)
    ensures var t := Complete(cfg, s, tick, f, 0, []);
            Closing(cfg, t, tick) || (Envelope(cfg, t, tick) && Duplex(cfg, t))
  {
    var t := C2UEofShape(cfg, s, tick, f);
    if t.c.upstreamReadDone {
      assert t.h == s.h.(shutUp := 1, shutClient := 1);
      EofClose(cfg, s, t, tick);
      CloseKeeps(cfg, t, tick);
    } else {
      EofOpen(cfg, s, t, tick);
    }
  }

  lemma EofOpen(cfg: Cfg, s: Session, t: Session, tick: nat)
    requires Envelope(cfg, s, tick) && Duplex(cfg, s)
    requires || (t.c == s.c.(clientReadDone := true) && !s.c.clientReadDone && !s.c.upstreamReadDone
                 && s.c.c2uOff == s.c.c2uEnd && t.h == s.h.(shutUp := 1))
             || (t.c == s.c.(upstreamReadDone := true) && !s.c.clientReadDone && !s.c.upstreamReadDone
                 && s.c.u2cOff == s.c.u2cEnd && t.h == s.h.(shutClient := 1))
    requires t == s.(c := t.c, h := t.h, flights := C2UToken(t.c) + U2CToken(t.c))
    ensures Envelope(cfg, t, tick) && Duplex(cfg, t)
  {
    assert ForClient(t.h) == ForClient(s.h);
  }

  /** When both directions have ended there is nothing left to deliver. */
  lemma BothDone(cfg: Cfg, t: Session, tick: nat)
    requires GoodCfg(cfg) && t.mapped && !t.c.closing
    requires t.c.clientFD > 0 && t.c.lastTick <= tick && t.closes == multiset{}
    requires SeenOk(cfg, t) && Charged(cfg, t)
    requires t.c.relayStarted && t.h.decided && t.c.clientReadDone && t.c.upstreamReadDone
    requires NothingAtHook(t) && t.flights == multiset{}
    requires t.h.shutUp == 1 && t.h.shutClient == 1
    requires t.h.consumed <= |t.h.clientIn|
    requires t.h.upOut == t.h.clientIn[t.h.consumed..] && t.h.clientOut == ForClient(t.h)
    requires t.h.bytesUp == |t.h.clientIn| - t.h.consumed && t.h.bytesDown == |t.h.upIn|
    ensures MayClose(cfg, t, tick)
  {
    NoneInFlight(t);
  }

  // ---- duplex, upstream to client ----

  lemma U2CRecvShape(cfg: Cfg, s: Session, tick: nat, f: Flight, res: int, data: seq<byte>)
    requires s.mapped && !s.c.closing && !s.c.upstreamReadDone && s.flights == C2UToken(s.c) + U2CToken(s.c)
    requires s.c.u2cOff == s.c.u2cEnd && f == FlightOf(s.c, U2CRecv) && 0 < res == |data| <= f.room
    ensures var t := Complete(cfg, s, tick, f, res, data);
            && t == s.(c := s.c.(u2cBuf := Stored(s.c.u2cBuf, 0, data), lastTick := tick, u2cOff := 0, u2cEnd := res),
                       flights := C2UToken(s.c) + multiset{FlightOf(t.c, U2CSend)},
                       h := s.h.(upIn := s.h.upIn + data, bytesDown := s.h.bytesDown + res))
  {
    hide Fail, CloseConn, FdIfOpen, Slice, Stored;
    U2CDropToken(s);
    assert Harvested(s, f, res, data) == s.(flights := C2UToken(s.c), h := s.h.(upIn := s.h.upIn + data));
  }

  lemma U2CRecvKeeps(cfg: Cfg, s: Session, tick: nat, f: Flight, res: int, data: seq<byte>)
    requires GoodCfg(cfg) && Envelope(cfg, s, tick) && PhaseOf(cfg, s, U2CRecv)
    requires f == FlightOf(s.c, U2CRecv) && 0 < res == |data| <= f.room
    ensures var t := Complete(cfg, s, tick, f, res, data); Envelope(cfg, t, tick) && Duplex(cfg, t)
  {
    hide Complete, FlightOf, U2CStream, C2UToken, SeenOk, Stored;
    var t := Complete(cfg, s, tick, f, res, data);
    assert f.room == cfg.bufSize by { RoomIs(cfg, s); }
    U2CRecvShape(cfg, s, tick, f, res, data) by { RoomIs(cfg, s); }
    SameC2U(s.c, t.c);
    assert SeenOk(cfg, t) by { SeenAfterRead(cfg, s, t, []); }
    U2CRecvStream(cfg, s, t, data);
  }

  lemma U2CRecvStream(cfg: Cfg, s: Session, t: Session, data: seq<byte>)
    requires U2CStream(cfg, s) && s.c.u2cOff == s.c.u2cEnd && |data| <= cfg.bufSize
    requires !t.c.upstreamReadDone
    requires t.c.u2cBuf == Stored(s.c.u2cBuf, 0, data) && t.c.u2cOff == 0 && t.c.u2cEnd == |data|
    requires t.h.upIn == s.h.upIn + data && t.h.replied == s.h.replied && t.h.clientOut == s.h.clientOut
    requires t.h.bytesDown == s.h.bytesDown + |data|
    ensures U2CStream(cfg, t)
  {
    assert t.c.u2cBuf[0..|data|] == data;
    assert ForClient(t.h) == ForClient(s.h) + data;
  }

  lemma U2CSendHarvest(s: Session, f: Flight, res: int)
    requires !s.c.upstreamReadDone && s.flights == C2UToken(s.c) + U2CToken(s.c)
    requires s.c.u2cOff < s.c.u2cEnd <= |s.c.u2cBuf| && f == FlightOf(s.c, U2CSend) && 0 < res <= |f.data|
    ensures Harvested(s, f, res, []) ==
            s.(flights := C2UToken(s.c), h := s.h.(clientOut := s.h.clientOut + s.c.u2cBuf[s.c.u2cOff..s.c.u2cOff + res]))
  {
    WindowAdvance(s.h.clientOut, s.c.u2cBuf, s.c.u2cOff, s.c.u2cEnd, res);
    U2CDropToken(s);
  }

  lemma U2CNext(h: Session, res: int)
    requires !h.c.upstreamReadDone && 0 < res && h.c.u2cOff + res <= h.c.u2cEnd
    ensures var t := OnU2CSend(h, res);
            t == h.(c := h.c.(u2cOff := h.c.u2cOff + res), flights := h.flights + U2CToken(t.c)) && C2UToken(t.c) == C2UToken(h.c)
  {
    hide Fail, CloseConn, FdIfOpen, C2UToken;
    SameC2U(h.c, OnU2CSend(h, res).c);
  }

  lemma U2CSendIs(cfg: Cfg, s: Session, tick: nat, f: Flight, res: int)
    requires s.mapped && !s.c.closing && f.kind == U2CSend
    ensures Complete(cfg, s, tick, f, res, []) == OnU2CSend(Harvested(s, f, res, []), res)
  {
    hide OnC2USend, OnU2CSend, OnC2URecv, OnU2CRecv, OnReply, OnSendUp, OnRecvReq, Harvested;
  }

  lemma U2CSendShape(cfg: Cfg, s: Session, tick: nat, f: Flight, res: int)
    requires s.mapped && !s.c.closing && !s.c.upstreamReadDone && s.flights == C2UToken(s.c) + U2CToken(s.c)
    requires s.c.u2cOff < s.c.u2cEnd <= |s.c.u2cBuf| && f == FlightOf(s.c, U2CSend) && 0 < res <= |f.data|
    ensures var t := Complete(cfg, s, tick, f, res, []);
            && t == s.(c := s.c.(u2cOff := s.c.u2cOff + res), flights := t.flights,
                       h := s.h.(clientOut := s.h.clientOut + s.c.u2cBuf[s.c.u2cOff..s.c.u2cOff + res]))
            && t.flights == C2UToken(t.c) + U2CToken(t.c)
  {
    hide OnU2CSend, Harvested, Complete;
    U2CSendHarvest(s, f, res);
    var h := Harvested(s, f, res, []);
    U2CSendIs(cfg, s, tick, f, res);
    U2CNext(h, res);
  }

  lemma U2CSendStream(cfg: Cfg, s: Session, t: Session, res: nat)
    requires U2CStream(cfg, s) && s.c.u2cOff + res <= s.c.u2cEnd && !s.c.upstreamReadDone
    requires t.c == s.c.(u2cOff := s.c.u2cOff + res)
    requires t.h == s.h.(clientOut := s.h.clientOut + s.c.u2cBuf[s.c.u2cOff..s.c.u2cOff + res])
    ensures U2CStream(cfg, t)
  {
    WindowAdvance(s.h.clientOut, s.c.u2cBuf, s.c.u2cOff, s.c.u2cEnd, res);
  }

  lemma U2CSendKeeps(cfg: Cfg, s: Session, tick: nat, f: Flight, res: int)
    requires GoodCfg(cfg) && Envelope(cfg, s, tick) && PhaseOf(cfg, s, U2CSend)
    requires f == FlightOf(s.c, U2CSend) && 0 < res <= |f.data|
    ensures var t := Complete(cfg, s, tick, f, res, []); Envelope(cfg, t, tick) && Duplex(cfg, t)
  {
    U2CSendShape(cfg, s, tick, f, res);
    U2CSendStream(cfg, s, Complete(cfg, s, tick, f, res, []), res);
  }

  lemma U2CEofShape(cfg: Cfg, s: Session, tick: nat, f: Flight) returns (t: Session)
    requires s.mapped && !s.c.closing && !s.c.upstreamReadDone && s.flights == C2UToken(s.c) + U2CToken(s.c)
    requires s.c.u2cOff == s.c.u2cEnd && f == FlightOf(s.c, U2CRecv)
    ensures t == s.(c := s.c.(upstreamReadDone := true), flights := C2UToken(s.c), h := s.h.(shutClient := s.h.shutClient + 1))
    ensures t.flights == C2UToken(t.c) + U2CToken(t.c)
    ensures Complete(cfg, s, tick, f, 0, []) == if s.c.clientReadDone then CloseConn(t) else t
  {
    hide Fail, CloseConn, Post, FlightOf;
    var h := Harvested(s, f, 0, []);
    KindOfFlight(s.c, U2CRecv);
    SameC2U(s.c, s.c.(upstreamReadDone := true));
    U2CDropToken(s);
    assert h == s.(flights := C2UToken(s.c));
    t := h.(c := h.c.(upstreamReadDone := true), h := h.h.(shutClient := h.h.shutClient + 1));
    assert Complete(cfg, s, tick, f, 0, []) == OnU2CRecv(h, tick, 0, []);
  }

  lemma U2CEofKeeps(cfg: Cfg, s: Session, tick: nat, f: Flight)
    requires GoodCfg(cfg) && Envelope(cfg, s, tick) && PhaseOf(cfg, s, U2CRecv)
    requires f == FlightOf(s.c, U2CRecv)
    ensures var t := Complete(cfg, s, tick, f, 0, []);
            Closing(cfg, t, tick) || (Envelope(cfg, t, tick) && Duplex(cfg, t))
  {
    var t := U2CEofShape(cfg, s, tick, f);
    if t.c.clientReadDone {
      assert t.h == s.h.(shutUp := 1, shutClient := 1);
      EofClose(cfg, s, t, tick);
      CloseKeeps(cfg, t, tick);
    } else {
      EofOpen(cfg, s, t, tick);
    }
  }

  // ---- every completion ----

  lemma DuplexCompletion(cfg: Cfg, s: Session, tick: nat, f: Flight, res: int, data: seq<byte>)
    requires GoodCfg(cfg) && Envelope(cfg, s, tick) && PhaseOf(cfg, s, f.kind)
    requires f == FlightOf(s.c, f.kind) && ResultOk(f, res, data) && res >= 0
    requires f.kind == C2URecv || f.kind == U2CRecv || (res > 0 && (f.kind == C2USend || f.kind == U2CSend))
    ensures var t := Complete(cfg, s, tick, f, res, data);
            Closing(cfg, t, tick) || (Envelope(cfg, t, tick) && Duplex(cfg, t))
  {
    match f.kind
    case C2URecv => if res == 0 { C2UEofKeeps(cfg, s, tick, f); } else { C2URecvKeeps(cfg, s, tick, f, res, data); }
    case C2USend => C2USendKeeps(cfg, s, tick, f, res);
    case U2CRecv => if res == 0 { U2CEofKeeps(cfg, s, tick, f); } else { U2CRecvKeeps(cfg, s, tick, f, res, data); }
    case U2CSend => U2CSendKeeps(cfg, s, tick, f, res);
  }

  lemma FailedIs(cfg: Cfg, s: Session, tick: nat, f: Flight, res: int, data: seq<byte>)
    requires s.mapped && !s.c.closing && f.kind != RejectSend
    requires res < 0 || (res == 0 && f.kind != C2URecv && f.kind != U2CRecv)
    ensures Complete(cfg, s, tick, f, res, data) == Fail(Harvested(s, f, res, data))
  {
    hide Fail, CloseConn, Harvested;
  }

  lemma FromPhase(cfg: Cfg, s: Session, tick: nat)
    ensures Active(cfg, s, tick) || Closing(cfg, s, tick) ==> SessionInv(cfg, s, tick)
    ensures Envelope(cfg, s, tick) && Duplex(cfg, s) ==> SessionInv(cfg, s, tick)
  {
    hide Lasting, Delivered, Duplex, Reading, AtHook, ReplyingMore, Rejecting, Replying, Forwarding, SeenOk, Charged;
  }

  lemma CompleteKeeps(cfg: Cfg, s: Session, tick: nat, f: Flight, res: int, data: seq<byte>)
    requires GoodCfg(cfg) && SessionInv(cfg, s, tick) && f in s.flights && ResultOk(f, res, data)
    ensures SessionInv(cfg, Complete(cfg, s, tick, f, res, data), tick)
  {
    hide Complete, Harvested, Closing, Active;
    FromPhase(cfg, Complete(cfg, s, tick, f, res, data), tick);
    if !s.mapped || s.c.closing {
      LateCompletion(cfg, s, tick, f, res, data);
    } else if f.kind == RejectSend {
      RejectSendKeeps(cfg, s, tick, f, res);
    } else if res < 0 || (res == 0 && f.kind != C2URecv && f.kind != U2CRecv) {
      FailedOp(cfg, s, tick, f, res, data);
      FailedIs(cfg, s, tick, f, res, data);
    } else {
      ActiveCompletion(cfg, s, tick, f, res, data);
    }
  }

  lemma ActiveCompletion(cfg: Cfg, s: Session, tick: nat, f: Flight, res: int, data: seq<byte>)
    requires GoodCfg(cfg) && Active(cfg, s, tick) && f in s.flights && ResultOk(f, res, data)
    requires f.kind != RejectSend && res >= 0 && (res == 0 ==> f.kind == C2URecv || f.kind == U2CRecv)
    ensures SessionInv(cfg, Complete(cfg, s, tick, f, res, data), tick)
  {
    hide Complete, Closing, Envelope, Duplex, Reading, AtHook, ReplyingMore, Rejecting, Replying, Forwarding, FlightOf, SessionInv;
    FromPhase(cfg, Complete(cfg, s, tick, f, res, data), tick);
    PhaseOfFlight(cfg, s, tick, f);
    match f.kind
    case RecvReq => RecvReqKeeps(cfg, s, tick, f, res, data);
    case SendUp => SendUpKeeps(cfg, s, tick, f, res);
    case ReplyMore => if res < |f.data| { ReplyPartial(cfg, s, tick, f, res); } else { ReplyMoreDone(cfg, s, tick, f); }
    case ReplyClient => if res < |f.data| { ReplyPartial(cfg, s, tick, f, res); } else { ReplyClientDone(cfg, s, tick, f); }
    case _ => DuplexCompletion(cfg, s, tick, f, res, data);
  }

  lemma RejectSendKeeps(cfg: Cfg, s: Session, tick: nat, f: Flight, res: int)
    requires GoodCfg(cfg) && Active(cfg, s, tick) && f in s.flights && ResultOk(f, res, []) && f.kind == RejectSend
    ensures SessionInv(cfg, Complete(cfg, s, tick, f, res, []), tick)
  {
    hide Fail, CloseConn, Closing;
    PhaseOfFlight(cfg, s, tick, f);
    if res <= 0 {
      RejectEnds(cfg, s, tick, f, res, s.c.replyOff);
    } else if res < |f.data| {
      ReplyPartial(cfg, s, tick, f, res);
    } else {
      RejectEnds(cfg, s, tick, f, res, s.c.replyOff + res);
    }
  }
}
