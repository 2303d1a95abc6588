/** A connection as the object the event loop updates: each op case works on its fields in place and is
    proved against the transition of the same name (flashrelay/worker.go:66-89, 189-263, 307-583). */
module RelayConn {
  import opened Basics
  import opened RelayTypes
  import T = RelaySession

  /** `s` with one more operation, or one more close, handed to the kernel. */
  function InFlightToo(s: Session, f: Flight): Session {
    s.(flights := s.flights + multiset{f})
  }

  function ClosingToo(s: Session, fd: int): Session {
    s.(closes := s.closes + multiset{fd}, unclosed := s.unclosed + multiset{fd})
  }

  /** The engine's counters (flashrelay/flashrelay.go:169-172). */
  class Counters {
    var accepted: int
    var completed: int
    var rejected: int
    var shed: int
    var idleClosed: int
    var errors: int
    var bytesC2U: int
    var bytesU2C: int
    var live: int

    constructor ()
      ensures accepted == completed == rejected == shed == idleClosed == errors == bytesC2U == bytesU2C == live == 0
    {
      accepted, completed, rejected, shed, idleClosed := 0, 0, 0, 0, 0;
      errors, bytesC2U, bytesU2C, live := 0, 0, 0, 0;
    }

    /** The counters have moved exactly as the charges between `s` and `t`. */
    twostate predicate Moved(s: Session, t: Session)
      reads this
    {
      && completed == old(completed) + t.h.completed - s.h.completed
      && rejected == old(rejected) + t.h.rejected - s.h.rejected
      && idleClosed == old(idleClosed) + t.h.idle - s.h.idle
      && errors == old(errors) + t.h.errors - s.h.errors
      && bytesC2U == old(bytesC2U) + t.h.bytesUp - s.h.bytesUp
      && bytesU2C == old(bytesU2C) + t.h.bytesDown - s.h.bytesDown
      && live == old(live) + B2N(t.mapped && !t.c.closing) - B2N(s.mapped && !s.c.closing)
      && accepted == old(accepted) && shed == old(shed)
    }
  }

  class Conn {
    var clientFD: int
    var upstreamFD: int
    var reqBuf: seq<byte>
    var reqN: nat
    var initSent: nat
    var replyBuf: seq<byte>
    var replyOff: nat
    var replyEnd: nat
    var closing: bool
    var closesLeft: int
    var relayStarted: bool
    var counted: bool
    var lastTick: nat
    var c2uBuf: seq<byte>
    var u2cBuf: seq<byte>
    var c2uOff: nat
    var c2uEnd: nat
    var u2cOff: nat
    var u2cEnd: nat
    var clientReadDone: bool
    var upstreamReadDone: bool
    /** What is outstanding for the connection and what the outside has seen of it (all but `g.c`). */
    ghost var g: Session

    function Now(): Fields
      reads this
    {
      Fields(clientFD, upstreamFD, reqBuf, reqN, initSent, replyBuf, replyOff, replyEnd, closing, closesLeft,
             relayStarted, counted, lastTick, c2uBuf, u2cBuf, c2uOff, c2uEnd, u2cOff, u2cEnd,
             clientReadDone, upstreamReadDone)
    }

    ghost function View(): Session
      reads this
    {
      g.(c := Now())
    }

    /** The literal at the accept case: everything not named is zero. */
    constructor (cfg: Cfg, fd: int, tick: nat)
      requires cfg.initialReqLen > 0
      ensures View() == T.Accepted(cfg, tick, fd)
    {
      clientFD, upstreamFD := fd, 0;
      reqBuf, reqN, initSent := Zeros(cfg.initialReqLen), 0, 0;
      replyBuf, replyOff, replyEnd := [], 0, 0;
      closing, closesLeft, relayStarted, counted, lastTick := false, 0, false, false, tick;
      c2uBuf, u2cBuf, c2uOff, c2uEnd, u2cOff, u2cEnd := [], [], 0, 0, 0, 0;
      clientReadDone, upstreamReadDone := false, false;
      g := Session(Fields(fd, 0, Zeros(cfg.initialReqLen), 0, 0, [], 0, 0, false, 0, false, false, tick,
                          [], [], 0, 0, 0, 0, false, false),
                   true, multiset{}, multiset{}, multiset{}, [], [], T.NoHist());
      new;
      PostRecv(RecvReq, clientFD, |reqBuf|);
    }

    // ---- handing operations to the ring: each takes the address of a first byte, so there must be one ----

    method PostSend(k: Kind, fd: int, data: seq<byte>)
      requires |data| > 0
      modifies `g
      ensures View() == InFlightToo(old(View()), Flight(k, fd, data, 0))
    {
      g := g.(flights := g.flights + multiset{Flight(k, fd, data, 0)});
    }

    method PostRecv(k: Kind, fd: int, room: nat)
      requires room > 0
      modifies `g
      ensures View() == InFlightToo(old(View()), Flight(k, fd, [], room))
    {
      g := g.(flights := g.flights + multiset{Flight(k, fd, [], room)});
    }

    method PostClose(fd: int)
      modifies `g
      ensures g == ClosingToo(old(g), fd)
    {
      g := g.(closes := g.closes + multiset{fd}, unclosed := g.unclosed + multiset{fd});
    }

    // ---- the closures ----

    method PostCloses()
      modifies `closesLeft, `g
      ensures closesLeft == B2N(clientFD > 0) + B2N(upstreamFD > 0)
      ensures g == old(g).(closes := T.WithClose(T.WithClose(old(g.closes), clientFD), upstreamFD),
                           unclosed := T.WithClose(T.WithClose(old(g.unclosed), clientFD), upstreamFD))
    {
      closesLeft := 0;
      if clientFD > 0 {
        closesLeft := closesLeft + 1;
        PostClose(clientFD);
      }
      if upstreamFD > 0 {
        closesLeft := closesLeft + 1;
        PostClose(upstreamFD);
      }
    }

    method Close(cnt: Counters)
      requires g.mapped && !closing
      modifies this, cnt`live
      ensures View() == T.CloseConn(old(View()))
      ensures cnt.live == old(cnt.live) - 1
    {
      hide T.WithClose, Slice, Zeros;
      closing := true;
      cnt.live := cnt.live - 1;
      PostCloses();
      if closesLeft == 0 {
        g := g.(mapped := false);
      }
    }

    method Fail(cnt: Counters)
      requires g.mapped && !closing
      modifies this, cnt`live, cnt`errors
      ensures View() == T.Fail(old(View())) && cnt.Moved(old(View()), View())
    {
      hide T.CloseConn;
      if !counted {
        cnt.errors := cnt.errors + 1;
        counted := true;
        g := g.(h := g.h.(errors := g.h.errors + 1));
      }
      ClosedDelta(View());
      Close(cnt);
    }

    /** Closing charges nothing and ends the connection's being live. */
    static lemma ClosedDelta(s: Session)
      requires s.mapped && !s.c.closing
      ensures T.CloseConn(s).h == s.h && T.CloseConn(s).c.closing
    {
    }

    method Shut(cnt: Counters)
      requires g.mapped && !closing
      modifies this, cnt`live
      ensures View() == T.CloseConn(old(View())) && cnt.Moved(old(View()), View())
    {
      hide T.CloseConn;
      ClosedDelta(View());
      Close(cnt);
    }

    /** The relay's buffers replace those of the handshake. */
    method EnterRelay(cfg: Cfg)
      modifies `relayStarted, `reqBuf, `replyBuf, `c2uBuf, `u2cBuf
      ensures relayStarted && reqBuf == [] && replyBuf == []
      ensures c2uBuf == Zeros(cfg.bufSize) && u2cBuf == Zeros(cfg.bufSize)
    {
      hide Zeros;
      relayStarted := true;
      reqBuf, replyBuf := [], [];
      c2uBuf := Zeros(cfg.bufSize);
      u2cBuf := Zeros(cfg.bufSize);
    }

    method StartDuplex(cfg: Cfg)
      requires cfg.bufSize > 0
      modifies this
      ensures View() == T.StartDuplex(cfg, old(View()))
    {
      ghost var s := View();
      EnterRelay(cfg);
      ghost var t := View();
      assert t.c.clientFD == clientFD && t.c.upstreamFD == upstreamFD && t.c.c2uBuf == c2uBuf && t.c.u2cBuf == u2cBuf;
      assert |c2uBuf| == |u2cBuf| == cfg.bufSize;
      DuplexPosts(cfg, s, t);
      hide View, Now, T.StartDuplex, Zeros, InFlightToo;
      PostRecv(C2URecv, clientFD, |c2uBuf|);
      PostRecv(U2CRecv, upstreamFD, |u2cBuf|);
    }

    static lemma DuplexPosts(cfg: Cfg, s: Session, t: Session)
      requires t == s.(c := s.c.(relayStarted := true, reqBuf := [], replyBuf := [],
                                 c2uBuf := Zeros(cfg.bufSize), u2cBuf := Zeros(cfg.bufSize)))
      ensures T.StartDuplex(cfg, s) == InFlightToo(InFlightToo(t, Flight(C2URecv, t.c.clientFD, [], |t.c.c2uBuf|)),
                                                   Flight(U2CRecv, t.c.upstreamFD, [], |t.c.u2cBuf|))
    {
      hide Zeros, Slice;
    }

    method PostRecvReq()
      requires reqN < |reqBuf|
      modifies `g
      ensures View() == T.Post(old(View()), RecvReq)
    {
      PostRecv(RecvReq, clientFD, |reqBuf[reqN..]|);
    }

    method GrowReq(cfg: Cfg) returns (ok: bool)
      requires reqN <= |reqBuf|
      modifies `reqBuf
      ensures ok == T.CanGrow(cfg, old(Now())) && Now() == T.GrowReq(cfg, old(Now()))
    {
      if reqN < |reqBuf| {
        return true;
      }
      if |reqBuf| >= cfg.maxReqLen {
        return false;
      }
      var n := |reqBuf| * 2;
      if n > cfg.maxReqLen {
        n := cfg.maxReqLen;
      }
      var nb := Zeros(n);
      nb := Stored(nb, 0, reqBuf[..reqN]);
      reqBuf := nb;
      return true;
    }

    method ForwardInit(cfg: Cfg)
      requires cfg.bufSize > 0 && reqN <= |reqBuf|
      modifies this
      ensures View() == T.ForwardInit(cfg, old(View()))
    {
      if initSent >= reqN {
        StartDuplex(cfg);
        return;
      }
      PostSend(SendUp, upstreamFD, reqBuf[initSent..reqN]);
    }

    // ---- the op cases, for a connection that is in the map and not closing ----

    method OnRecvReq(cnt: Counters, tick: nat, res: int, data: seq<byte>)
      requires g.mapped && !closing
      requires res > 0 ==> |data| == res && reqN + res <= |reqBuf|
      modifies this, cnt`live, cnt`errors
      ensures View() == T.OnRecvReq(old(View()), tick, res, data) && cnt.Moved(old(View()), View())
    {
      hide T.Fail, T.CloseConn, Stored;
      if res <= 0 {
        Fail(cnt);
        return;
      }
      reqBuf := Stored(reqBuf, reqN, data); // what the kernel wrote
      reqN := reqN + res;
      lastTick := tick;
      assert |reqBuf| >= reqN by { StoredLength(old(reqBuf), old(reqN), data); }
      ghost var req := reqBuf[..reqN];
      g := g.(jobs := g.jobs + [req], h := g.h.(seen := g.h.seen + [req]));
    }

    static lemma StoredLength(b: seq<byte>, at: nat, d: seq<byte>)
      ensures |Stored(b, at, d)| == |b|
    {
    }

    method OnReplyClient(cnt: Counters, cfg: Cfg, res: int)
      requires g.mapped && !closing && cfg.bufSize > 0
      requires replyEnd <= |replyBuf| && reqN <= |reqBuf|
      modifies this, cnt`live, cnt`errors
      ensures View() == T.OnReply(cfg, old(View()), ReplyClient, res) && cnt.Moved(old(View()), View())
    {
      hide T.Fail, T.CloseConn, T.ForwardInit;
      if res <= 0 {
        Fail(cnt);
        return;
      }
      replyOff := replyOff + res;
      if replyOff < replyEnd {
        PostSend(ReplyClient, clientFD, replyBuf[replyOff..replyEnd]);
        return;
      }
      ForwardDelta(cfg, View());
      ForwardInit(cfg);
    }

    /** Forwarding charges nothing and leaves the connection live. */
    static lemma ForwardDelta(cfg: Cfg, s: Session)
      ensures T.ForwardInit(cfg, s).h == s.h && T.ForwardInit(cfg, s).mapped == s.mapped
      ensures T.ForwardInit(cfg, s).c.closing == s.c.closing
    {
    }

    method OnReplyMore(cnt: Counters, cfg: Cfg, res: int)
      requires g.mapped && !closing
      requires replyEnd <= |replyBuf| && reqN < |reqBuf|
      modifies this, cnt`live, cnt`errors
      ensures View() == T.OnReply(cfg, old(View()), ReplyMore, res) && cnt.Moved(old(View()), View())
    {
      hide T.Fail, T.CloseConn, T.ForwardInit;
      if res <= 0 {
        Fail(cnt);
        return;
      }
      replyOff := replyOff + res;
      if replyOff < replyEnd {
        PostSend(ReplyMore, clientFD, replyBuf[replyOff..replyEnd]);
        return;
      }
      PostRecvReq();
    }

    method OnRejectSend(cnt: Counters, cfg: Cfg, res: int)
      requires g.mapped && !closing && replyEnd <= |replyBuf|
      modifies this, cnt`live
      ensures View() == T.OnReply(cfg, old(View()), RejectSend, res) && cnt.Moved(old(View()), View())
    {
      hide T.Fail, T.CloseConn, T.ForwardInit;
      if res > 0 {
        replyOff := replyOff + res;
        if replyOff < replyEnd {
          PostSend(RejectSend, clientFD, replyBuf[replyOff..replyEnd]);
          return;
        }
      }
      Shut(cnt);
    }

    method Forwarded(n: nat)
      modifies `initSent, `g
      ensures initSent == old(initSent) + n
      ensures g == old(g).(h := old(g.h).(bytesUp := old(g.h.bytesUp) + n))
    {
      initSent := initSent + n;
      g := g.(h := g.h.(bytesUp := g.h.bytesUp + n));
    }

    /** The rest of the request is sent; after the last byte the relay starts. */
    method NextInit(cfg: Cfg)
      requires cfg.bufSize > 0 && reqN <= |reqBuf|
      modifies this
      ensures View() == T.ForwardInit(cfg, old(View()))
    {
      if initSent < reqN {
        PostSend(SendUp, upstreamFD, reqBuf[initSent..reqN]);
        return;
      }
      StartDuplex(cfg);
    }

    method OnSendUp(cnt: Counters, cfg: Cfg, res: int)
      requires g.mapped && !closing && cfg.bufSize > 0 && reqN <= |reqBuf|
      modifies this, cnt`live, cnt`errors, cnt`bytesC2U
      ensures View() == T.OnSendUp(cfg, old(View()), res) && cnt.Moved(old(View()), View())
    {
      hide T.Fail, T.CloseConn, T.StartDuplex, T.Post;
      if res <= 0 {
        Fail(cnt);
        return;
      }
      cnt.bytesC2U := cnt.bytesC2U + res;
      Forwarded(res);
      ForwardDelta(cfg, View());
      NextInit(cfg);
    }

    method OnC2URecv(cnt: Counters, tick: nat, res: int, data: seq<byte>)
      requires g.mapped && !closing
      requires res > 0 ==> |data| == res <= |c2uBuf|
      modifies this, cnt`live, cnt`errors, cnt`bytesC2U
      ensures View() == T.OnC2URecv(old(View()), tick, res, data) && cnt.Moved(old(View()), View())
    {
      hide T.Fail, T.CloseConn, Stored;
      if res < 0 {
        Fail(cnt);
        return;
      }
      if res == 0 {
        g := g.(h := g.h.(shutUp := g.h.shutUp + 1)); // SHUT_WR on the upstream
        clientReadDone := true;
        if upstreamReadDone {
          Shut(cnt);
        }
        return;
      }
      ReadC2U(cnt, tick, data);
    }

    /** The bytes the kernel wrote become the window, and the read is recorded. */
    method LoadC2U(tick: nat, data: seq<byte>)
      modifies `c2uBuf, `lastTick, `c2uOff, `c2uEnd, `g
      ensures c2uBuf == Stored(old(c2uBuf), 0, data) && lastTick == tick && c2uOff == 0 && c2uEnd == |data|
      ensures g == old(g).(h := old(g.h).(bytesUp := old(g.h.bytesUp) + |data|))
    {
      hide Stored;
      c2uBuf := Stored(c2uBuf, 0, data);
      lastTick := tick;
      g := g.(h := g.h.(bytesUp := g.h.bytesUp + |data|));
      c2uOff, c2uEnd := 0, |data|;
    }

    method ReadC2U(cnt: Counters, tick: nat, data: seq<byte>)
      requires g.mapped && !closing && 0 < |data| <= |c2uBuf|
      modifies this, cnt`bytesC2U
      ensures View() == T.OnC2URecv(old(View()), tick, |data|, data) && cnt.Moved(old(View()), View())
    {
      hide T.Fail, T.CloseConn, Stored;
      cnt.bytesC2U := cnt.bytesC2U + |data|;
      StoredLength(c2uBuf, 0, data);
      LoadC2U(tick, data);
      PostSend(C2USend, upstreamFD, c2uBuf[c2uOff..c2uEnd]);
    }

    /** Going on with a direction charges nothing and leaves the connection live. */
    static lemma NextDelta(s: Session)
      ensures T.NextC2U(s) == s.(flights := T.NextC2U(s).flights)
      ensures T.NextU2C(s) == s.(flights := T.NextU2C(s).flights)
    {
    }

    /** The rest of the window is sent; an empty window is read into again. */
    method NextC2U()
      requires c2uEnd <= |c2uBuf| && 0 < |c2uBuf|
      modifies `g
      ensures View() == T.NextC2U(old(View()))
    {
      if c2uOff < c2uEnd {
        PostSend(C2USend, upstreamFD, c2uBuf[c2uOff..c2uEnd]);
        return;
      }
      if !clientReadDone {
        PostRecv(C2URecv, clientFD, |c2uBuf|);
      }
    }

    method OnC2USend(cnt: Counters, res: int)
      requires g.mapped && !closing && c2uOff < c2uEnd <= |c2uBuf|
      modifies this, cnt`live, cnt`errors
      ensures View() == T.OnC2USend(old(View()), res) && cnt.Moved(old(View()), View())
    {
      hide T.Fail, T.CloseConn, T.NextC2U;
      if res <= 0 {
        Fail(cnt);
        return;
      }
      c2uOff := c2uOff + res;
      NextDelta(View());
      NextC2U();
    }

    method OnU2CRecv(cnt: Counters, tick: nat, res: int, data: seq<byte>)
      requires g.mapped && !closing
      requires res > 0 ==> |data| == res <= |u2cBuf|
      modifies this, cnt`live, cnt`errors, cnt`bytesU2C
      ensures View() == T.OnU2CRecv(old(View()), tick, res, data) && cnt.Moved(old(View()), View())
    {
      hide T.Fail, T.CloseConn, Stored;
      if res < 0 {
        Fail(cnt);
        return;
      }
      if res == 0 {
        g := g.(h := g.h.(shutClient := g.h.shutClient + 1)); // SHUT_WR on the client
        upstreamReadDone := true;
        if clientReadDone {
          Shut(cnt);
        }
        return;
      }
      ReadU2C(cnt, tick, data);
    }

    /** The bytes the kernel wrote become the window, and the read is recorded. */
    method LoadU2C(tick: nat, data: seq<byte>)
      modifies `u2cBuf, `lastTick, `u2cOff, `u2cEnd, `g
      ensures u2cBuf == Stored(old(u2cBuf), 0, data) && lastTick == tick && u2cOff == 0 && u2cEnd == |data|
      ensures g == old(g).(h := old(g.h).(bytesDown := old(g.h.bytesDown) + |data|))
    {
      hide Stored;
      u2cBuf := Stored(u2cBuf, 0, data);
      lastTick := tick;
      g := g.(h := g.h.(bytesDown := g.h.bytesDown + |data|));
      u2cOff, u2cEnd := 0, |data|;
    }

    method ReadU2C(cnt: Counters, tick: nat, data: seq<byte>)
      requires g.mapped && !closing && 0 < |data| <= |u2cBuf|
      modifies this, cnt`bytesU2C
      ensures View() == T.OnU2CRecv(old(View()), tick, |data|, data) && cnt.Moved(old(View()), View())
    {
      hide T.Fail, T.CloseConn, Stored;
      cnt.bytesU2C := cnt.bytesU2C + |data|;
      StoredLength(u2cBuf, 0, data);
      LoadU2C(tick, data);
      PostSend(U2CSend, clientFD, u2cBuf[u2cOff..u2cEnd]);
    }

    /** The rest of the window is sent; an empty window is read into again. */
    method NextU2C()
      requires u2cEnd <= |u2cBuf| && 0 < |u2cBuf|
      modifies `g
      ensures View() == T.NextU2C(old(View()))
    {
      if u2cOff < u2cEnd {
        PostSend(U2CSend, clientFD, u2cBuf[u2cOff..u2cEnd]);
        return;
      }
      if !upstreamReadDone {
        PostRecv(U2CRecv, upstreamFD, |u2cBuf|);
      }
    }

    method OnU2CSend(cnt: Counters, res: int)
      requires g.mapped && !closing && u2cOff < u2cEnd <= |u2cBuf|
      modifies this, cnt`live, cnt`errors
      ensures View() == T.OnU2CSend(old(View()), res) && cnt.Moved(old(View()), View())
    {
      hide T.Fail, T.CloseConn, T.NextU2C;
      if res <= 0 {
        Fail(cnt);
        return;
      }
      u2cOff := u2cOff + res;
      NextDelta(View());
      NextU2C();
    }

    /** The last close of a connection that is in the map charges it, if it relayed and nothing else did. */
    method OnClose(cnt: Counters, ghost fd: int)
      requires g.mapped && closing
      modifies this, cnt`completed
      ensures View() == T.CloseDone(old(View()), fd) && cnt.Moved(old(View()), View())
      ensures !g.mapped <==> closesLeft <= 0
    {
      CloseHarvested(fd);
      closesLeft := closesLeft - 1;
      if closesLeft <= 0 {
        if !counted && relayStarted {
          cnt.completed := cnt.completed + 1;
        }
        Leave();
      }
    }

    ghost method Leave()
      modifies `g
      ensures g == old(g).(mapped := false, h :=
        if !counted && relayStarted then old(g.h).(completed := old(g.h.completed) + 1) else old(g.h))
    {
      if !counted && relayStarted {
        g := g.(h := g.h.(completed := g.h.completed + 1));
      }
      g := g.(mapped := false);
    }

    ghost method CloseHarvested(fd: int)
      modifies `g
      ensures g == old(g).(closes := old(g.closes) - multiset{fd})
    {
      g := g.(closes := g.closes - multiset{fd});
    }

    // ---- a drained Hook result ----

    method SetReply(reply: seq<byte>)
      modifies `replyBuf, `replyOff, `replyEnd, `g
      ensures replyBuf == reply && replyOff == 0 && replyEnd == |reply|
      ensures g == old(g).(h := old(g.h).(replied := old(g.h.replied) + reply))
    {
      replyBuf, replyOff, replyEnd := reply, 0, |reply|;
      g := g.(h := g.h.(replied := g.h.replied + reply));
    }

    /** Scheduling a reply charges nothing and leaves the connection live. */
    static lemma ReplyDelta(s: Session, reply: seq<byte>, k: Kind)
      ensures var t := T.SendReply(s, reply, k);
              t.h == s.h.(replied := t.h.replied) && t.mapped == s.mapped && t.c.closing == s.c.closing
    {
    }

    method SendReply(reply: seq<byte>, k: Kind)
      requires |reply| > 0 && (k == ReplyClient || k == ReplyMore || k == RejectSend)
      modifies `replyBuf, `replyOff, `replyEnd, `g
      ensures View() == T.SendReply(old(View()), reply, k)
    {
      SetReply(reply);
      assert Slice(reply, 0, |reply|) == reply;
      PostSend(k, clientFD, replyBuf);
    }

    method Refuse(tick: nat)
      modifies `lastTick, `counted, `g
      ensures lastTick == tick && counted
      ensures g == old(g).(h := old(g.h).(rejected := old(g.h.rejected) + 1))
    {
      lastTick := tick;
      counted := true;
      g := g.(h := g.h.(rejected := g.h.rejected + 1));
    }

    static function Refused(s: Session, tick: nat): Session {
      s.(c := s.c.(lastTick := tick, counted := true), h := s.h.(rejected := s.h.rejected + 1))
    }

    static lemma RejectShape(cfg: Cfg, s: Session, tick: nat, d: Decision)
      requires d.reject
      ensures T.Apply(cfg, s, tick, d) ==
              if |d.reply| > 0 then T.SendReply(Refused(s, tick), d.reply, RejectSend) else T.CloseConn(Refused(s, tick))
    {
      hide T.SendReply, T.CloseConn;
    }

    method Reject(cnt: Counters, cfg: Cfg, tick: nat, d: Decision)
      requires g.mapped && !closing && d.reject
      modifies this, cnt`live, cnt`rejected
      ensures View() == T.Apply(cfg, old(View()), tick, d) && cnt.Moved(old(View()), View())
    {
      hide T.Apply, T.CloseConn, T.SendReply;
      ghost var s := View();
      RejectShape(cfg, s, tick, d);
      cnt.rejected := cnt.rejected + 1;
      Refuse(tick);
      assert View() == Refused(s, tick) && s.mapped && !s.c.closing;
      hide View, Now;
      if |d.reply| > 0 {
        ReplyDelta(View(), d.reply, RejectSend);
        SendReply(d.reply, RejectSend);
      } else {
        Shut(cnt);
      }
    }

    method More(cnt: Counters, cfg: Cfg, tick: nat, d: Decision)
      requires g.mapped && !closing && !d.reject && d.more && reqN <= |reqBuf| && 0 < |reqBuf|
      modifies this, cnt`live, cnt`errors
      ensures View() == T.Apply(cfg, old(View()), tick, d) && cnt.Moved(old(View()), View())
    {
      hide T.Fail, T.CloseConn, T.ForwardInit, T.GrowReq, T.CanGrow, T.FlightOf;
      lastTick := tick;
      ghost var c := Now();
      var ok := GrowReq(cfg);
      if !ok {
        GrowRefused(cfg, c);
        Fail(cnt);
        return;
      }
      GrownRoom(cfg, c);
      if |d.reply| > 0 {
        ReplyDelta(View(), d.reply, ReplyMore);
        SendReply(d.reply, ReplyMore);
      } else {
        PostRecvReq();
      }
    }

    static lemma GrowRefused(cfg: Cfg, c: Fields)
      requires !T.CanGrow(cfg, c)
      ensures T.GrowReq(cfg, c) == c
    {
    }

    static lemma GrownRoom(cfg: Cfg, c: Fields)
      requires c.reqN <= |c.reqBuf| && 0 < |c.reqBuf| && T.CanGrow(cfg, c)
      ensures T.GrowReq(cfg, c) == c.(reqBuf := T.GrowReq(cfg, c).reqBuf) && c.reqN < |T.GrowReq(cfg, c).reqBuf|
    {
    }

    /** The upstream is the connection's from here on; `consumed` is clamped to what was read. */
    method Adopt(tick: nat, fd: int, consumed: int)
      modifies `lastTick, `upstreamFD, `initSent, `g
      ensures lastTick == tick && upstreamFD == fd && initSent == T.Clamp(consumed, reqN)
      ensures g == old(g).(h := old(g.h).(decided := true, consumed := T.Clamp(consumed, reqN)))
    {
      lastTick := tick;
      upstreamFD := fd;
      var sent := consumed;
      if sent < 0 {
        sent := 0;
      }
      if sent > reqN {
        sent := reqN;
      }
      initSent := sent;
      g := g.(h := g.h.(decided := true, consumed := sent));
    }

    method Relay(cnt: Counters, cfg: Cfg, tick: nat, d: Decision)
      requires g.mapped && !closing && !d.reject && !d.more && cfg.bufSize > 0 && reqN <= |reqBuf|
      modifies this
      ensures View() == T.Apply(cfg, old(View()), tick, d) && cnt.Moved(old(View()), View())
    {
      hide T.Fail, T.CloseConn, T.ForwardInit, T.GrowReq, T.CanGrow, T.SendReply, T.Post;
      ghost var s := View();
      Adopt(tick, d.upstreamFD, d.consumed);
      ghost var n := T.Clamp(d.consumed, s.c.reqN);
      assert View() == s.(c := s.c.(lastTick := tick, upstreamFD := d.upstreamFD, initSent := n),
                          h := s.h.(decided := true, consumed := n));
      assert s.mapped && !s.c.closing;
      hide View, Now;
      if |d.reply| > 0 {
        ReplyDelta(View(), d.reply, ReplyClient);
        SendReply(d.reply, ReplyClient);
      } else {
        ForwardDelta(cfg, View());
        ForwardInit(cfg);
      }
    }

    /** The idle branch of the sweep. */
    method IdleClose(cnt: Counters, cfg: Cfg, tick: nat)
      requires T.Quiet(cfg, View(), tick)
      modifies this, cnt`live, cnt`idleClosed
      ensures View() == T.Sweep(cfg, old(View()), tick) && cnt.Moved(old(View()), View())
    {
      hide T.CloseConn;
      cnt.idleClosed := cnt.idleClosed + 1;
      g := g.(h := g.h.(idle := g.h.idle + 1, again := g.h.again + (if counted then 1 else 0)));
      counted := true;
      Shut(cnt);
    }

    // ---- the kernel and the pool ----

    ghost method Harvest(f: Flight, res: int, data: seq<byte>)
      modifies `g
      ensures View() == T.Harvested(old(View()), f, res, data)
    {
      g := g.(flights := g.flights - multiset{f}, h := T.Observed(g.h, f, res, data));
    }

    ghost method Returns(k: nat, d: Decision)
      requires k < |g.jobs|
      modifies `g
      ensures View() == T.Returned(old(View()), k, d)
    {
      g := g.(jobs := g.jobs[..k] + g.jobs[k + 1..], results := g.results + [d]);
    }

    ghost method KernelCloses(fd: int)
      modifies `g
      ensures View() == T.KernelClosed(old(View()), fd)
    {
      g := g.(unclosed := g.unclosed - multiset{fd});
    }

    ghost method TakeResult()
      modifies `g
      ensures View() == (if old(g.results) == [] then old(View()) else old(View()).(results := old(g.results)[1..]))
    {
      if g.results != [] {
        g := g.(results := g.results[1..]);
      }
    }
  }
}
