/** The switch on the op code: which case runs, on which connection, and that the case may run
    (flashrelay/worker.go:282-391, 445-565). */
module RelayDispatch {
  import opened RelayTypes
  import T = RelaySession
  import opened RelayInv
  import opened RelaySteps
  import opened RelayConn
  import opened UserData

  function OpOf(k: Kind): (op: nat)
    ensures op < 256
  {
    match k
    case RecvReq => OP_RECV_REQ
    case ReplyClient => OP_REPLY_CLIENT
    case ReplyMore => OP_REPLY_MORE
    case SendUp => OP_SEND_UP
    case RejectSend => OP_REJECT_SEND
    case C2URecv => OP_C2U_RECV
    case C2USend => OP_C2U_SEND
    case U2CRecv => OP_U2C_RECV
    case U2CSend => OP_U2C_SEND
  }

  /** The transition of a live connection for the completion of an operation of kind `k`. */
  function Act(cfg: Cfg, s: Session, tick: nat, k: Kind, res: int, data: seq<byte>): Session {
    match k
    case RecvReq => T.OnRecvReq(s, tick, res, data)
    case SendUp => T.OnSendUp(cfg, s, res)
    case C2URecv => T.OnC2URecv(s, tick, res, data)
    case C2USend => T.OnC2USend(s, res)
    case U2CRecv => T.OnU2CRecv(s, tick, res, data)
    case U2CSend => T.OnU2CSend(s, res)
    case _ => T.OnReply(cfg, s, k, res)
  }

  lemma CompleteActs(cfg: Cfg, s: Session, tick: nat, f: Flight, res: int, data: seq<byte>)
    ensures T.Complete(cfg, s, tick, f, res, data) ==
            var t := T.Harvested(s, f, res, data);
            if s.mapped && !s.c.closing then Act(cfg, t, tick, f.kind, res, data) else t
  {
    hide T.Harvested, T.OnRecvReq, T.OnSendUp, T.OnC2URecv, T.OnC2USend, T.OnU2CRecv, T.OnU2CSend, T.OnReply;
  }

  /** What a case needs of the fields so that no index it uses is out of range. */
  predicate Fits(c: Fields, k: Kind, res: int, data: seq<byte>) {
    match k
    case RecvReq => res > 0 ==> |data| == res && c.reqN + res <= |c.reqBuf|
    case ReplyClient => c.replyEnd <= |c.replyBuf| && c.reqN <= |c.reqBuf|
    case ReplyMore => c.replyEnd <= |c.replyBuf| && c.reqN < |c.reqBuf|
    case RejectSend => c.replyEnd <= |c.replyBuf|
    case SendUp => c.reqN <= |c.reqBuf|
    case C2URecv => res > 0 ==> |data| == res <= |c.c2uBuf|
    case C2USend => c.c2uOff < c.c2uEnd <= |c.c2uBuf|
    case U2CRecv => res > 0 ==> |data| == res <= |c.u2cBuf|
    case U2CSend => c.u2cOff < c.u2cEnd <= |c.u2cBuf|
  }

  /** Whatever completes on a live connection, its case finds every range it needs. */
  lemma AlwaysFits(cfg: Cfg, s: Session, tick: nat, f: Flight, res: int, data: seq<byte>)
    requires Active(cfg, s, tick) && f in s.flights && T.ResultOk(f, res, data)
    ensures Fits(s.c, f.kind, res, data)
  {
    PhaseOfFlight(cfg, s, tick, f);
  }

  /** The switch. */
  method Dispatch(cfg: Cfg, cnt: Counters, cc: Conn, tick: nat, op: nat, res: int, data: seq<byte>, ghost k: Kind)
    requires op == OpOf(k) && cc.g.mapped && !cc.closing && cfg.bufSize > 0
    requires Fits(cc.Now(), k, res, data)
    modifies cc, cnt
    ensures cc.View() == Act(cfg, old(cc.View()), tick, k, res, data)
    ensures cnt.Moved(old(cc.View()), cc.View())
  {
    hide T.OnRecvReq, T.OnSendUp, T.OnC2URecv, T.OnC2USend, T.OnU2CRecv, T.OnU2CSend, T.OnReply, Conn.View, Counters.Moved;
    if op == OP_RECV_REQ {
      cc.OnRecvReq(cnt, tick, res, data);
    } else if op == OP_REPLY_CLIENT {
      cc.OnReplyClient(cnt, cfg, res);
    } else if op == OP_REPLY_MORE {
      cc.OnReplyMore(cnt, cfg, res);
    } else if op == OP_REJECT_SEND {
      cc.OnRejectSend(cnt, cfg, res);
    } else if op == OP_SEND_UP {
      cc.OnSendUp(cnt, cfg, res);
    } else if op == OP_C2U_RECV {
      cc.OnC2URecv(cnt, tick, res, data);
    } else if op == OP_C2U_SEND {
      cc.OnC2USend(cnt, res);
    } else if op == OP_U2C_RECV {
      cc.OnU2CRecv(cnt, tick, res, data);
    } else {
      cc.OnU2CSend(cnt, res);
    }
  }

  /** A completion for a live connection, from harvest to the next operation posted. */
  method Finish(cfg: Cfg, cnt: Counters, cc: Conn, tick: nat, op: nat, res: int, data: seq<byte>, ghost f: Flight)
    requires op == OpOf(f.kind) && cc.g.mapped && !cc.closing && cfg.bufSize > 0
    requires Fits(cc.Now(), f.kind, res, data)
    modifies cc, cnt
    ensures cc.View() == T.Complete(cfg, old(cc.View()), tick, f, res, data)
    ensures cnt.Moved(old(cc.View()), cc.View())
  {
    hide T.Complete, Act, T.Observed, Fits;
    CompleteActs(cfg, cc.View(), tick, f, res, data);
    ObservedCharges(cc.g.h, f, res, data);
    cc.Harvest(f, res, data);
    assert cc.Now() == old(cc.Now());
    Dispatch(cfg, cnt, cc, tick, op, res, data, f.kind);
  }

  /** What crossed the socket is not a charge. */
  lemma ObservedCharges(h: Hist, f: Flight, res: int, data: seq<byte>)
    ensures var t := T.Observed(h, f, res, data);
            t == h.(clientIn := t.clientIn, upOut := t.upOut, upIn := t.upIn, clientOut := t.clientOut)
  {
  }

  /** What a drained result needs of the fields. */
  predicate Answerable(c: Fields) {
    c.reqN <= |c.reqBuf| && 0 < |c.reqBuf|
  }

  lemma AlwaysAnswerable(cfg: Cfg, s: Session, tick: nat)
    requires SessionInv(cfg, s, tick) && s.mapped && !s.c.closing && s.results != []
    ensures Answerable(s.c)
  {
  }

  /** Reject, then More, then the relay. */
  method Decide(cfg: Cfg, cnt: Counters, cc: Conn, tick: nat, d: Decision)
    requires cc.g.mapped && !cc.closing && cfg.bufSize > 0 && Answerable(cc.Now())
    modifies cc, cnt
    ensures cc.View() == T.Apply(cfg, old(cc.View()), tick, d)
    ensures cnt.Moved(old(cc.View()), cc.View())
  {
    hide T.Apply, Conn.View, Counters.Moved;
    if d.reject {
      cc.Reject(cnt, cfg, tick, d);
    } else if d.more {
      cc.More(cnt, cfg, tick, d);
    } else {
      cc.Relay(cnt, cfg, tick, d);
    }
  }

  /** A drained result for a live connection. */
  method Settle(cfg: Cfg, cnt: Counters, cc: Conn, tick: nat, d: Decision)
    requires cc.g.mapped && !cc.closing && cfg.bufSize > 0 && Answerable(cc.Now())
    modifies cc, cnt
    ensures cc.View() == T.Drain(cfg, old(cc.View()), tick, d)
    ensures cnt.Moved(old(cc.View()), cc.View())
  {
    hide T.Apply, Answerable;
    cc.TakeResult();
    assert cc.Now() == old(cc.Now());
    Decide(cfg, cnt, cc, tick, d);
  }
}
