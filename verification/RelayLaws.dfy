/** What the engine promises about each connection, in every reachable state. */
module RelayLaws {
  import opened Basics
  import opened RelayTypes
  import opened RelaySession
  import opened RelayInv
  import opened RelaySteps
  import opened RelayWorld
  import opened RelaySafety

  lemma SoundConn(cfg: Cfg, w: World, i: nat)
    requires Inv(cfg, w) && i < |w.all|
    ensures SessionInv(cfg, w.all[i], w.tick) && IdleOk(cfg, w.all[i], w.tick)
  {
    hide SessionInv, IdleOk;
    assert SoundAt(cfg, w.tick)(w.all[i]);
  }

  predicate Live(s: Session) {
    s.mapped && !s.c.closing
  }

  // ---- streams ----

  /** Client bytes read and decided to go upstream, not yet taken by the upstream socket. */
  function PendingUp(s: Session): seq<byte> {
    if !s.h.decided then []
    else if s.c.relayStarted then Slice(s.c.c2uBuf, s.c.c2uOff, s.c.c2uEnd)
    else Slice(s.c.reqBuf, s.c.initSent, s.c.reqN)
  }

  /** Reply and upstream bytes not yet taken by the client socket. */
  function PendingDown(s: Session): seq<byte> {
    if s.c.relayStarted then Slice(s.c.u2cBuf, s.c.u2cOff, s.c.u2cEnd)
    else Slice(s.c.replyBuf, s.c.replyOff, s.c.replyEnd)
  }

  /** End to end, at any split of any send: while the connection lives, what the upstream took and
      what is pending is the client stream from byte `consumed` on, and what the client took and what
      is pending is every reply and then the upstream stream. After teardown both are still prefixes. */
  lemma StreamFidelity(cfg: Cfg, evs: seq<Event>, i: nat)
    requires GoodCfg(cfg) && Legal(cfg, Start(), evs) && i < |Run(cfg, Start(), evs).all|
    ensures var s := Run(cfg, Start(), evs).all[i];
            && (Live(s) ==> s.h.upOut + PendingUp(s) == ForUpstream(s.h) && s.h.clientOut + PendingDown(s) == ForClient(s.h))
            && s.h.upOut <= ForUpstream(s.h) && s.h.clientOut <= ForClient(s.h)
  {
    hide Run, Legal, SessionInv;
    var w := Run(cfg, Start(), evs);
    Reachable(cfg, evs);
    SoundConn(cfg, w, i);
    StreamsOf(cfg, w.all[i], w.tick);
  }

  lemma StreamsOf(cfg: Cfg, s: Session, tick: nat)
    requires GoodCfg(cfg) && SessionInv(cfg, s, tick)
    ensures Live(s) ==> s.h.upOut + PendingUp(s) == ForUpstream(s.h) && s.h.clientOut + PendingDown(s) == ForClient(s.h)
    ensures s.h.upOut <= ForUpstream(s.h) && s.h.clientOut <= ForClient(s.h)
  {
    if Live(s) {
      ActiveIsLasting(cfg, s, tick);
      if Duplex(cfg, s) {
      } else if Replying(cfg, s) || Forwarding(cfg, s) {
        DecidedStreams(cfg, s);
      } else {
        UndecidedStreams(cfg, s);
      }
    }
  }

  lemma DecidedStreams(cfg: Cfg, s: Session)
    requires DecidedPre(cfg, s)
    ensures s.h.upOut + PendingUp(s) == ForUpstream(s.h) && s.h.clientOut + PendingDown(s) == ForClient(s.h)
  {
    assert ForClient(s.h) == s.h.replied;
    assert s.h.upOut + s.c.reqBuf[s.c.initSent..s.c.reqN] == s.c.reqBuf[s.h.consumed..s.c.reqN];
  }

  lemma UndecidedStreams(cfg: Cfg, s: Session)
    requires PreRelay(cfg, s) && Undecided(s)
    ensures s.h.upOut + PendingUp(s) == ForUpstream(s.h) && s.h.clientOut + PendingDown(s) == ForClient(s.h)
  {
    assert ForClient(s.h) == s.h.replied;
  }

  // ---- completed means delivered ----

  /** A connection charged as completed has left the map, saw the end of both streams, and delivered
      every byte it was to deliver; its byte counts are the bytes delivered. */
  lemma CompletedMeansDelivered(cfg: Cfg, evs: seq<Event>, i: nat)
    requires GoodCfg(cfg) && Legal(cfg, Start(), evs) && i < |Run(cfg, Start(), evs).all|
    ensures var s := Run(cfg, Start(), evs).all[i];
            s.h.completed > 0 ==>
              && s.h.completed == 1 && !s.mapped && Delivered(s) && s.flights == multiset{}
              && s.h.bytesUp == |s.h.clientIn| - s.h.consumed && s.h.bytesDown == |s.h.clientOut| - |s.h.replied|
  {
    hide Run, Legal, SessionInv;
    var w := Run(cfg, Start(), evs);
    Reachable(cfg, evs);
    SoundConn(cfg, w, i);
    if w.all[i].h.completed > 0 {
      DeliveredOf(cfg, w.all[i], w.tick);
    }
  }

  lemma DeliveredOf(cfg: Cfg, s: Session, tick: nat)
    requires SessionInv(cfg, s, tick) && s.h.completed > 0
    ensures s.h.completed == 1 && !s.mapped && Delivered(s) && s.flights == multiset{}
    ensures s.h.bytesUp == |s.h.clientIn| - s.h.consumed && s.h.bytesDown == |s.h.clientOut| - |s.h.replied|
  {
    hide Stable, OneUserPerBuffer, NonEmpty, PrefixSafe, SeenOk, HalfClosed, InSomePhase;
  }

  // ---- outstanding work ----

  /** A live connection before the relay has exactly one thing outstanding: an operation in flight, a
      request at the Hook, or a result to be drained. In the relay each direction has exactly one
      operation until its read side is done, and one side is always open. A closing connection has
      exactly closesLeft closes in flight. So no mapped connection is ever without something to wait
      for, and no buffer has two users. */
  lemma OneTokenEach(cfg: Cfg, evs: seq<Event>, i: nat)
    requires GoodCfg(cfg) && Legal(cfg, Start(), evs) && i < |Run(cfg, Start(), evs).all|
    ensures var s := Run(cfg, Start(), evs).all[i];
            && (Live(s) && !s.c.relayStarted ==> |s.flights| + |s.jobs| + |s.results| == 1)
            && (Live(s) && s.c.relayStarted ==>
                  && s.jobs == [] && s.results == []
                  && InFlight(s, C2URecv) + InFlight(s, C2USend) == B2N(!s.c.clientReadDone)
                  && InFlight(s, U2CRecv) + InFlight(s, U2CSend) == B2N(!s.c.upstreamReadDone)
                  && |s.flights| == B2N(!s.c.clientReadDone) + B2N(!s.c.upstreamReadDone) >= 1)
            && (s.mapped && s.c.closing ==> |s.closes| == s.c.closesLeft >= 1)
            && OneUserPerBuffer(s) && Stable(s) && NonEmpty(s)
  {
    hide Run, Legal, SessionInv, Stable, NonEmpty, OneUserPerBuffer;
    var w := Run(cfg, Start(), evs);
    Reachable(cfg, evs);
    SoundConn(cfg, w, i);
    TokensOf(cfg, w.all[i], w.tick);
  }

  lemma TokensOf(cfg: Cfg, s: Session, tick: nat)
    requires GoodCfg(cfg) && SessionInv(cfg, s, tick)
    ensures Live(s) && !s.c.relayStarted ==> |s.flights| + |s.jobs| + |s.results| == 1
    ensures Live(s) && s.c.relayStarted ==>
              && s.jobs == [] && s.results == []
              && InFlight(s, C2URecv) + InFlight(s, C2USend) == B2N(!s.c.clientReadDone)
              && InFlight(s, U2CRecv) + InFlight(s, U2CSend) == B2N(!s.c.upstreamReadDone)
              && |s.flights| == B2N(!s.c.clientReadDone) + B2N(!s.c.upstreamReadDone) >= 1
    ensures s.mapped && s.c.closing ==> |s.closes| == s.c.closesLeft >= 1
    ensures OneUserPerBuffer(s) && Stable(s) && NonEmpty(s)
  {
    hide PrefixSafe, SeenOk, HalfClosed, Charged, Stable, OneUserPerBuffer, NonEmpty, ReplyWindow, Undecided, FlightOf;
    if Live(s) {
      ActiveIsLasting(cfg, s, tick);
      if s.c.relayStarted {
        RelayTokens(cfg, s);
      }
    }
  }

  lemma RelayTokens(cfg: Cfg, s: Session)
    requires Duplex(cfg, s)
    ensures s.jobs == [] && s.results == []
    ensures InFlight(s, C2URecv) + InFlight(s, C2USend) == B2N(!s.c.clientReadDone)
    ensures InFlight(s, U2CRecv) + InFlight(s, U2CSend) == B2N(!s.c.upstreamReadDone)
    ensures |s.flights| == B2N(!s.c.clientReadDone) + B2N(!s.c.upstreamReadDone) >= 1
  {
    hide FlightOf, C2UStream, U2CStream;
    DuplexInFlight(s);
  }

  // ---- half-close ----

  /** At most one SHUT_WR per direction, and only once everything owed in that direction was taken. */
  lemma ShutdownAfterData(cfg: Cfg, evs: seq<Event>, i: nat)
    requires GoodCfg(cfg) && Legal(cfg, Start(), evs) && i < |Run(cfg, Start(), evs).all|
    ensures var s := Run(cfg, Start(), evs).all[i];
            && s.h.shutUp <= 1 && s.h.shutClient <= 1
            && (s.h.shutUp == 1 ==> s.h.upOut == ForUpstream(s.h) && InFlight(s, C2USend) == InFlight(s, SendUp) == 0)
            && (s.h.shutClient == 1 ==> s.h.clientOut == ForClient(s.h) && InFlight(s, U2CSend) == 0)
  {
    hide Run, Legal, SessionInv;
    var w := Run(cfg, Start(), evs);
    Reachable(cfg, evs);
    SoundConn(cfg, w, i);
    HalfClosedOf(cfg, w.all[i], w.tick);
  }

  lemma HalfClosedOf(cfg: Cfg, s: Session, tick: nat)
    requires GoodCfg(cfg) && SessionInv(cfg, s, tick)
    ensures HalfClosed(s)
  {
    hide Stable, OneUserPerBuffer, NonEmpty, PrefixSafe, SeenOk, HalfClosed, Charged, InSomePhase;
    if Live(s) {
      ActiveIsLasting(cfg, s, tick);
    }
  }

  // ---- what the Hook is shown ----

  /** Each call of the Hook sees a strictly longer prefix of the same client stream, never more than
      the cap, so there are at most MaxReqLen calls per connection. */
  lemma HookSeesGrowingPrefixes(cfg: Cfg, evs: seq<Event>, i: nat)
    requires GoodCfg(cfg) && Legal(cfg, Start(), evs) && i < |Run(cfg, Start(), evs).all|
    ensures var h := Run(cfg, Start(), evs).all[i].h;
            && (forall k :: 0 <= k < |h.seen| ==> 0 < |h.seen[k]| <= cfg.maxReqLen && h.seen[k] <= h.clientIn)
            && (forall j, k :: 0 <= j < k < |h.seen| ==> h.seen[j] < h.seen[k])
            && |h.seen| <= cfg.maxReqLen
  {
    hide Run, Legal, SessionInv;
    var w := Run(cfg, Start(), evs);
    Reachable(cfg, evs);
    SoundConn(cfg, w, i);
    SeenOf(cfg, w.all[i], w.tick);
    GrowingPrefixes(cfg, w.all[i]);
  }

  lemma SeenOf(cfg: Cfg, s: Session, tick: nat)
    requires SessionInv(cfg, s, tick)
    ensures SeenOk(cfg, s)
  {
    hide Stable, OneUserPerBuffer, NonEmpty, PrefixSafe, SeenOk, HalfClosed, Charged, InSomePhase;
  }

  lemma GrowingPrefixes(cfg: Cfg, s: Session)
    requires SeenOk(cfg, s)
    ensures forall k :: 0 <= k < |s.h.seen| ==> 0 < |s.h.seen[k]| <= cfg.maxReqLen && s.h.seen[k] <= s.h.clientIn
    ensures forall j, k :: 0 <= j < k < |s.h.seen| ==> s.h.seen[j] < s.h.seen[k]
    ensures |s.h.seen| <= cfg.maxReqLen
  {
    forall j, k | 0 <= j < k < |s.h.seen| ensures s.h.seen[j] < s.h.seen[k] {
      assert s.h.seen[j] == s.h.clientIn[..|s.h.seen[j]|];
      assert s.h.seen[k] == s.h.clientIn[..|s.h.seen[k]|];
    }
    if s.h.seen != [] {
      LengthsClimb(s.h.seen, |s.h.seen| - 1);
    }
  }

  lemma {:induction false} LengthsClimb(seen: seq<seq<byte>>, k: nat)
    requires k < |seen| && (forall j :: 0 <= j < |seen| ==> 0 < |seen[j]|)
    requires forall j, l :: 0 <= j < l < |seen| ==> |seen[j]| < |seen[l]|
    ensures |seen[k]| >= k + 1
  {
    if k > 0 {
      LengthsClimb(seen, k - 1);
    }
  }

  // ---- late completions ----

  /** A completion for a connection that is closing or gone changes nothing the engine acts on: not the
      fields, the map, the closes, the Hook's work, nor any charge. */
  lemma LateIsInert(cfg: Cfg, s: Session, tick: nat, f: Flight, res: int, data: seq<byte>)
    requires !Live(s)
    ensures var t := Complete(cfg, s, tick, f, res, data);
            && t == s.(flights := s.flights - multiset{f}, h := t.h)
            && t.h == s.h.(clientIn := t.h.clientIn, upOut := t.h.upOut, upIn := t.h.upIn, clientOut := t.h.clientOut)
  {
  }

  // ---- idle closing ----

  /** With idle closing on, a live connection is never quiet for longer than the limit plus the ticks
      since the last sweep. */
  lemma IdleBound(cfg: Cfg, evs: seq<Event>, i: nat)
    requires GoodCfg(cfg) && Legal(cfg, Start(), evs) && i < |Run(cfg, Start(), evs).all|
    ensures var w := Run(cfg, Start(), evs); var s := w.all[i];
            Live(s) && cfg.idleTicks > 0 ==> 0 <= w.tick - s.c.lastTick <= cfg.idleTicks + w.tick % 10
  {
    hide Run, Legal, InSomePhase, Closing;
    Reachable(cfg, evs);
    SoundConn(cfg, Run(cfg, Start(), evs), i);
  }

  /** The timer closes a live connection as idle exactly when this is a sweep and more than the limit
      has gone by since it was last active. */
  lemma SweptIffQuiet(cfg: Cfg, w: World, i: nat)
    requires !w.exited && i < |w.all| && Live(w.all[i])
    ensures var t := Step(cfg, w, TimeoutDone).all[i];
            && (!Live(t) <==> cfg.idleTicks > 0 && (w.tick + 1) % 10 == 0 && w.tick + 1 - w.all[i].c.lastTick > cfg.idleTicks)
            && (!Live(t) <==> t.h.idle == w.all[i].h.idle + 1)
  {
    hide FdIfOpen;
  }

  // ---- what a result means ----

  /** Reject wins over More, and More over a relay. Only a relay adopts a descriptor and decides, and then
      the consumed count is the Hook's, moved into the range of what was read. The reply is owed to the
      client whichever of the three it is, unless More is refused at the cap. */
  lemma Precedence(cfg: Cfg, s: Session, tick: nat, d: Decision)
    requires Live(s) && !s.h.decided
    ensures var t := Apply(cfg, s, tick, d);
            && (t.h.rejected == s.h.rejected + 1 <==> d.reject)
            && (t.h.decided <==> !d.reject && !d.more)
            && t.c.upstreamFD == (if t.h.decided then d.upstreamFD else s.c.upstreamFD)
            && (t.h.decided ==>
                  && t.h.consumed <= s.c.reqN
                  && (0 <= d.consumed <= s.c.reqN ==> t.h.consumed == d.consumed)
                  && (d.consumed < 0 ==> t.h.consumed == 0) && (d.consumed > s.c.reqN ==> t.h.consumed == s.c.reqN))
            && (!d.reject && d.more && !CanGrow(cfg, s.c) ==> t.c.closing && t.h.replied == s.h.replied)
            && (d.reject || !d.more || CanGrow(cfg, s.c) ==> t.h.replied == s.h.replied + d.reply)
  {
    hide FlightOf, WithClose, Zeros, Stored;
    assert s.h.replied + [] == s.h.replied;
  }

  /** The result ends the connection: an error, or nothing moved where that is not the end of a stream. */
  predicate Failed(k: Kind, res: int) {
    res < 0 || (res == 0 && k != C2URecv && k != U2CRecv)
  }

  /** A live connection is charged as an error exactly when one of its operations fails, except the reply
      of a reject, which was charged already; and a failure always ends it. */
  lemma ErrorIffFailed(cfg: Cfg, s: Session, tick: nat, f: Flight, res: int, data: seq<byte>)
    requires Active(cfg, s, tick) && f in s.flights && ResultOk(f, res, data)
    ensures var t := Complete(cfg, s, tick, f, res, data);
            && (t.h.errors == s.h.errors + 1 <==> Failed(f.kind, res) && f.kind != RejectSend)
            && (Failed(f.kind, res) ==> t.c.closing)
            && t.h.rejected == s.h.rejected && t.h.idle == s.h.idle && t.h.completed == s.h.completed
  {
    hide FlightOf, WithClose, Stored, Slice, ResultOk, InSomePhase;
    PhaseQuiet(cfg, s, tick, f);
    var t := Harvested(s, f, res, data);
    assert t.h.errors == s.h.errors;
  }

  lemma EndsKeepTick(s: Session)
    ensures Fail(s).c.lastTick == CloseConn(s).c.lastTick == s.c.lastTick
  {
    hide WithClose;
  }

  /** `lastTick` is the tick of the last bytes received or the last Hook result applied: nothing else a
      completion does moves it. */
  lemma LastTickIsActivity(cfg: Cfg, s: Session, tick: nat, f: Flight, res: int, data: seq<byte>)
    requires Live(s)
    ensures Complete(cfg, s, tick, f, res, data).c.lastTick == if IsRecv(f.kind) && res > 0 then tick else s.c.lastTick
  {
    hide FlightOf, Stored, Slice, Fail, CloseConn, Post, ForwardInit, StartDuplex, NextC2U, NextU2C, Observed, OnRecvReq, OnReply,
         OnSendUp, OnC2URecv, OnC2USend, OnU2CRecv, OnU2CSend;
    var t := Harvested(s, f, res, data);
    ReadsTick(t, tick, res, data);
    SendsTick(cfg, t, f.kind, res);
  }

  lemma ReadsTick(s: Session, tick: nat, res: int, data: seq<byte>)
    ensures var last := if res > 0 then tick else s.c.lastTick;
            && OnRecvReq(s, tick, res, data).c.lastTick == last
            && OnC2URecv(s, tick, res, data).c.lastTick == last
            && OnU2CRecv(s, tick, res, data).c.lastTick == last
  {
    hide FlightOf, Stored, Slice, Fail, CloseConn;
    EndsKeepTick(s);
    EndsKeepTick(s.(c := s.c.(clientReadDone := true), h := s.h.(shutUp := s.h.shutUp + 1)));
    EndsKeepTick(s.(c := s.c.(upstreamReadDone := true), h := s.h.(shutClient := s.h.shutClient + 1)));
  }

  lemma SendsTick(cfg: Cfg, s: Session, k: Kind, res: int)
    ensures OnReply(cfg, s, k, res).c.lastTick == OnSendUp(cfg, s, res).c.lastTick == s.c.lastTick
    ensures OnC2USend(s, res).c.lastTick == OnU2CSend(s, res).c.lastTick == s.c.lastTick
  {
    hide FlightOf, Fail, CloseConn;
    EndsKeepTick(s);
    if res > 0 {
      EndsKeepTick(s.(c := s.c.(replyOff := s.c.replyOff + res)));
    }
  }

  lemma AppliedIsActivity(cfg: Cfg, s: Session, tick: nat, d: Decision)
    ensures Apply(cfg, s, tick, d).c.lastTick == tick
  {
    hide FlightOf, WithClose, Zeros, Stored, Slice;
  }
}
