/** Accepting, the Hook's answers and the idle sweep keep the per-connection invariant. */
module RelayDecide {
  import opened Basics
  import opened RelayTypes
  import opened RelaySession
  import opened RelayInv
  import opened RelayTeardown
  import opened RelaySteps

  lemma AcceptedActive(cfg: Cfg, tick: nat, fd: int)
    requires GoodCfg(cfg) && fd > 0
    ensures Active(cfg, Accepted(cfg, tick, fd), tick) && Reading(cfg, Accepted(cfg, tick, fd))
  {
    var s := Accepted(cfg, tick, fd);
    assert s.flights == multiset{FlightOf(s.c, RecvReq)};
  }

  // ---- the Hook pool answers ----

  lemma ReturnedKeeps(cfg: Cfg, s: Session, tick: nat, k: nat, d: Decision)
    requires GoodCfg(cfg) && SessionInv(cfg, s, tick) && k < |s.jobs| && DecisionOk(d)
    ensures SessionInv(cfg, Returned(s, k, d), tick)
  {
    if s.mapped && !s.c.closing {
      assert AtHook(cfg, s);
      assert AtHook(cfg, Returned(s, k, d));
    } else {
      LateReturn(cfg, s, tick, k, d);
    }
  }

  // ---- a drained result ----

  /** The result has been taken off the list and the connection touched. */
  ghost predicate Answered(cfg: Cfg, s: Session, tick: nat) {
    && Envelope(cfg, s, tick)
    && PreRelay(cfg, s) && Undecided(s) && !s.c.counted
    && s.flights == multiset{} && NothingAtHook(s) && s.c.replyOff == s.c.replyEnd
  }

  lemma TakeResult(cfg: Cfg, s: Session, tick: nat)
    requires Envelope(cfg, s, tick) && AtHook(cfg, s) && s.results != []
    ensures Answered(cfg, s.(results := s.results[1..], c := s.c.(lastTick := tick)), tick)
  {
  }

  lemma AnsweredLasting(cfg: Cfg, s: Session, tick: nat)
    requires Answered(cfg, s, tick)
    ensures Lasting(cfg, s, tick)
  {
    NoneInFlight(s);
    assert ForClient(s.h) == s.h.replied;
  }

  /** A reply becomes the pending window and the only thing in flight. */
  lemma SendReplyWindow(s: Session, reply: seq<byte>, k: Kind)
    requires ReplyWindow(s) && s.c.replyOff == s.c.replyEnd && |reply| > 0
    requires s.flights == multiset{} && NothingAtHook(s)
    ensures var t := SendReply(s, reply, k);
            ReplyWindow(t) && Only(t, k) && t.c.replyOff < t.c.replyEnd
  {
    var t := SendReply(s, reply, k);
    assert Slice(reply, 0, |reply|) == reply;
    assert t.flights == multiset{FlightOf(t.c, k)};
  }

  lemma RejectKeeps(cfg: Cfg, s: Session, tick: nat, d: Decision)
    requires GoodCfg(cfg) && Answered(cfg, s, tick) && d.reject
    ensures SessionInv(cfg, Apply(cfg, s, s.c.lastTick, d), tick)
  {
    var u := s.(c := s.c.(counted := true), h := s.h.(rejected := s.h.rejected + 1));
    if |d.reply| > 0 {
      SendReplyWindow(u, d.reply, RejectSend);
      assert Rejecting(cfg, SendReply(u, d.reply, RejectSend));
    } else {
      AnsweredLasting(cfg, s, tick);
      BookkeepingOnly(s.c, u.c);
      LastingKept(cfg, s, u, tick);
      CloseKeeps(cfg, u, tick);
    }
  }

  /** Growing keeps every byte read so far, makes room, and respects the cap. */
  lemma GrowKeeps(cfg: Cfg, c: Fields)
    requires 0 < |c.reqBuf| <= cfg.maxReqLen && c.reqN <= |c.reqBuf| && CanGrow(cfg, c)
    ensures var g := GrowReq(cfg, c);
            && g == c.(reqBuf := g.reqBuf)
            && c.reqN < |g.reqBuf| <= cfg.maxReqLen
            && g.reqBuf[..c.reqN] == c.reqBuf[..c.reqN]
  {
  }

  lemma MoreKeeps(cfg: Cfg, s: Session, tick: nat, d: Decision)
    requires GoodCfg(cfg) && Answered(cfg, s, tick) && !d.reject && d.more
    ensures SessionInv(cfg, Apply(cfg, s, s.c.lastTick, d), tick)
  {
    if !CanGrow(cfg, s.c) {
      AnsweredLasting(cfg, s, tick);
      FailKeeps(cfg, s, tick);
    } else {
      GrowKeeps(cfg, s.c);
      var u := s.(c := GrowReq(cfg, s.c));
      assert PreRelay(cfg, u);
      MoreContinues(cfg, u, tick, d.reply);
    }
  }

  lemma MoreContinues(cfg: Cfg, u: Session, tick: nat, reply: seq<byte>)
    requires Answered(cfg, u, tick) && u.c.reqN < |u.c.reqBuf|
    ensures Active(cfg, if |reply| > 0 then SendReply(u, reply, ReplyMore) else Post(u, RecvReq), tick)
  {
    if |reply| > 0 {
      SendReplyWindow(u, reply, ReplyMore);
      assert ReplyingMore(cfg, SendReply(u, reply, ReplyMore));
    } else {
      var v := Post(u, RecvReq);
      assert v.flights == multiset{FlightOf(v.c, RecvReq)};
      assert Reading(cfg, v);
    }
  }

  lemma RelayKeeps(cfg: Cfg, s: Session, tick: nat, d: Decision)
    requires GoodCfg(cfg) && Answered(cfg, s, tick) && !d.reject && !d.more && DecisionOk(d)
    ensures Active(cfg, Apply(cfg, s, s.c.lastTick, d), tick)
  {
    var n := Clamp(d.consumed, s.c.reqN);
    var u := s.(c := s.c.(upstreamFD := d.upstreamFD, initSent := n), h := s.h.(decided := true, consumed := n));
    assert PreRelay(cfg, u);
    assert ReadyForDuplex(cfg, u, tick);
    if |d.reply| > 0 {
      SendReplyWindow(u, d.reply, ReplyClient);
      assert Replying(cfg, SendReply(u, d.reply, ReplyClient));
    } else {
      ForwardInitKeeps(cfg, u, tick);
    }
  }

  lemma DrainKeeps(cfg: Cfg, s: Session, tick: nat, d: Decision)
    requires GoodCfg(cfg) && SessionInv(cfg, s, tick) && s.results != [] && d == s.results[0]
    ensures SessionInv(cfg, Drain(cfg, s, tick, d), tick)
  {
    if s.mapped && !s.c.closing {
      assert AtHook(cfg, s);
      TakeResult(cfg, s, tick);
      var t := s.(results := s.results[1..], c := s.c.(lastTick := tick));
      ApplyTouches(cfg, s.(results := s.results[1..]), tick, d);
      if d.reject {
        RejectKeeps(cfg, t, tick, d);
      } else if d.more {
        MoreKeeps(cfg, t, tick, d);
      } else {
        RelayKeeps(cfg, t, tick, d);
      }
    } else {
      LateDrain(cfg, s, tick, d);
    }
  }

  lemma ApplyTouches(cfg: Cfg, s: Session, tick: nat, d: Decision)
    ensures Apply(cfg, s, tick, d) == Apply(cfg, s.(c := s.c.(lastTick := tick)), tick, d)
  {
    hide Fail, CloseConn, SendReply, ForwardInit, GrowReq;
  }

  // ---- ticks ----

  lemma TickKeeps(cfg: Cfg, s: Session, tick: nat)
    requires SessionInv(cfg, s, tick)
    ensures SessionInv(cfg, s, tick + 1)
  {
  }

  /** The charge of the sweep: the connection is closed as idle, a second time over if it was charged. */
  lemma SweepKeeps(cfg: Cfg, s: Session, tick: nat)
    requires GoodCfg(cfg) && cfg.idleTicks > 0 && SessionInv(cfg, s, tick)
    ensures SessionInv(cfg, Sweep(cfg, s, tick), tick)
  {
    if Quiet(cfg, s, tick) {
      ActiveIsLasting(cfg, s, tick);
      var t := s.(c := s.c.(counted := true),
                  h := s.h.(idle := s.h.idle + 1, again := s.h.again + (if s.c.counted then 1 else 0)));
      SweepCharge(cfg, s, t, tick);
      BookkeepingOnly(s.c, t.c);
      CloseSwept(cfg, s, t, tick);
    }
  }

  lemma SweepCharge(cfg: Cfg, s: Session, t: Session, tick: nat)
    requires Active(cfg, s, tick) && cfg.idleTicks > 0
    requires t == s.(c := s.c.(counted := true),
                     h := s.h.(idle := s.h.idle + 1, again := s.h.again + B2N(s.c.counted)))
    ensures s.h.again == 0 && (s.c.counted ==> s.h.rejected == 1)
    ensures t.h.rejected + t.h.idle + t.h.errors == 1 + t.h.again && t.h.completed == 0
  {
  }

  lemma CloseSwept(cfg: Cfg, s: Session, t: Session, tick: nat)
    requires cfg.idleTicks > 0 && Envelope(cfg, s, tick) && Lasting(cfg, s, tick)
    requires t.c == s.c.(counted := true)
    requires t == s.(c := t.c, h := s.h.(idle := t.h.idle, again := t.h.again))
    requires t.h.again == B2N(s.c.counted) && (s.c.counted ==> t.h.rejected == 1)
    requires t.h.rejected + t.h.idle + t.h.errors == 1 + t.h.again && t.h.completed == 0
    ensures Closing(cfg, CloseConn(t), tick) && CloseConn(t).mapped
  {
    var u := CloseConn(t);
    var fds := FdIfOpen(s.c.clientFD) + FdIfOpen(s.c.upstreamFD);
    assert u.c == s.c.(counted := true, closing := true, closesLeft := |fds|);
    BookkeepingOnly(s.c, u.c);
    assert Charged(cfg, u);
    LastingKept(cfg, s, u, tick);
  }
}
