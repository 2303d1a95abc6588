/** After SHUT_WR no byte follows in that direction, however the run continues. */
module RelayShutdown {
  import opened RelayTypes
  import opened RelaySession
  import opened RelayInv
  import opened RelayTeardown
  import opened RelayWorld
  import opened RelaySafety
  import opened RelayLaws

  /** Nothing new reached the upstream or the client. */
  ghost predicate UpFrozen(h: Hist, k: Hist) {
    k.upOut == h.upOut && k.shutUp == h.shutUp
  }

  ghost predicate DownFrozen(h: Hist, k: Hist) {
    k.clientOut == h.clientOut && k.shutClient == h.shutClient
  }

  lemma EndsFrozen(s: Session)
    ensures UpFrozen(s.h, Fail(s).h) && DownFrozen(s.h, Fail(s).h)
    ensures UpFrozen(s.h, CloseConn(s).h) && DownFrozen(s.h, CloseConn(s).h)
  {
    hide FdIfOpen;
  }

  lemma ForwardFrozen(cfg: Cfg, s: Session)
    ensures UpFrozen(s.h, ForwardInit(cfg, s).h) && DownFrozen(s.h, ForwardInit(cfg, s).h)
  {
    hide FlightOf;
  }

  lemma ReplyFrozen(cfg: Cfg, s: Session, k: Kind, res: int)
    ensures UpFrozen(s.h, OnReply(cfg, s, k, res).h) && DownFrozen(s.h, OnReply(cfg, s, k, res).h)
  {
    hide Fail, CloseConn, ForwardInit, FlightOf;
    EndsFrozen(s);
    if res > 0 {
      var t := s.(c := s.c.(replyOff := s.c.replyOff + res));
      EndsFrozen(t);
      ForwardFrozen(cfg, t);
    }
  }

  lemma SendsFrozen(cfg: Cfg, s: Session, res: int)
    ensures UpFrozen(s.h, OnC2USend(s, res).h) && DownFrozen(s.h, OnC2USend(s, res).h)
    ensures UpFrozen(s.h, OnU2CSend(s, res).h) && DownFrozen(s.h, OnU2CSend(s, res).h)
    ensures UpFrozen(s.h, OnSendUp(cfg, s, res).h) && DownFrozen(s.h, OnSendUp(cfg, s, res).h)
  {
    hide Fail, CloseConn, FlightOf;
    EndsFrozen(s);
  }

  lemma ReadsFrozen(s: Session, tick: nat, res: int, data: seq<byte>)
    ensures UpFrozen(s.h, OnRecvReq(s, tick, res, data).h) && DownFrozen(s.h, OnRecvReq(s, tick, res, data).h)
    ensures DownFrozen(s.h, OnC2URecv(s, tick, res, data).h)
    ensures UpFrozen(s.h, OnU2CRecv(s, tick, res, data).h)
  {
    hide Fail, CloseConn, FlightOf;
    EndsFrozen(s);
    EndsFrozen(s.(c := s.c.(clientReadDone := true), h := s.h.(shutUp := s.h.shutUp + 1)));
    EndsFrozen(s.(c := s.c.(upstreamReadDone := true), h := s.h.(shutClient := s.h.shutClient + 1)));
  }

  lemma CompleteFrozen(cfg: Cfg, s: Session, tick: nat, f: Flight, res: int, data: seq<byte>)
    requires f in s.flights && Stable(s) && HalfClosed(s)
    ensures s.h.shutUp > 0 ==> UpFrozen(s.h, Complete(cfg, s, tick, f, res, data).h)
    ensures s.h.shutClient > 0 ==> DownFrozen(s.h, Complete(cfg, s, tick, f, res, data).h)
  {
    hide OnReply, OnC2USend, OnU2CSend, OnSendUp, OnRecvReq, OnC2URecv, OnU2CRecv, FlightOf, ForUpstream, ForClient;
    var t := Harvested(s, f, res, data);
    assert InFlight(s, f.kind) > 0;
    if Live(s) {
      match f.kind
      case RecvReq => ReadsFrozen(t, tick, res, data);
      case C2URecv => ReadsFrozen(t, tick, res, data);
      case U2CRecv => ReadsFrozen(t, tick, res, data);
      case SendUp => SendsFrozen(cfg, t, res);
      case C2USend => SendsFrozen(cfg, t, res);
      case U2CSend => SendsFrozen(cfg, t, res);
      case _ => ReplyFrozen(cfg, t, f.kind, res);
    }
  }

  lemma ApplyFrozen(cfg: Cfg, s: Session, tick: nat, d: Decision)
    ensures UpFrozen(s.h, Apply(cfg, s, tick, d).h) && DownFrozen(s.h, Apply(cfg, s, tick, d).h)
  {
    hide Fail, CloseConn, ForwardInit, FlightOf, GrowReq, CanGrow;
    var t := s.(c := s.c.(lastTick := tick));
    EndsFrozen(t);
    EndsFrozen(t.(c := t.c.(counted := true), h := t.h.(rejected := t.h.rejected + 1)));
    var n := Clamp(d.consumed, t.c.reqN);
    ForwardFrozen(cfg, t.(c := t.c.(upstreamFD := d.upstreamFD, initSent := n), h := t.h.(decided := true, consumed := n)));
  }

  lemma SweepFrozen(cfg: Cfg, s: Session, tick: nat)
    ensures UpFrozen(s.h, Sweep(cfg, s, tick).h) && DownFrozen(s.h, Sweep(cfg, s, tick).h)
  {
    hide CloseConn;
    EndsFrozen(s.(c := s.c.(counted := true),
                  h := s.h.(idle := s.h.idle + 1, again := s.h.again + (if s.c.counted then 1 else 0))));
  }

  /** What the i-th connection's directions keep across one step, once shut. */
  ghost predicate StaysShut(w: World, v: World, i: nat) {
    && i < |w.all| <= |v.all|
    && (w.all[i].h.shutUp > 0 ==> UpFrozen(w.all[i].h, v.all[i].h))
    && (w.all[i].h.shutClient > 0 ==> DownFrozen(w.all[i].h, v.all[i].h))
  }

  lemma DrainFrozen(cfg: Cfg, s: Session, tick: nat, d: Decision)
    ensures UpFrozen(s.h, Drain(cfg, s, tick, d).h) && DownFrozen(s.h, Drain(cfg, s, tick, d).h)
  {
    hide Apply;
    ApplyFrozen(cfg, if s.results == [] then s else s.(results := s.results[1..]), tick, d);
  }

  lemma {:induction false} DrainAllFrozen(cfg: Cfg, w: World, i: nat)
    requires i < |w.all|
    ensures StaysShut(w, DrainAll(cfg, w), i)
    decreases |w.ready|
  {
    hide Drain, Adopts;
    if w.ready != [] {
      var r := w.ready[0];
      DrainFrozen(cfg, w.all[i], w.tick, r.dec);
      DrainAllFrozen(cfg, DrainOne(cfg, w.(ready := w.ready[1..]), r), i);
    }
  }

  lemma ConnDoneFrozen(cfg: Cfg, w: World, id: nat, f: Flight, res: int, data: seq<byte>, i: nat)
    requires GoodCfg(cfg) && Inv(cfg, w) && Enabled(w, ConnDone(id, f, res, data)) && i < |w.all|
    ensures StaysShut(w, Step(cfg, w, ConnDone(id, f, res, data)), i)
  {
    hide InvBy, SessionInv, Complete, HalfClosed, Stable, ResultOk;
    if id == i + 1 {
      SoundConn(cfg, w, i);
      HalfClosedOf(cfg, w.all[i], w.tick);
      StableOf(cfg, w.all[i], w.tick);
      CompleteFrozen(cfg, w.all[i], w.tick, f, res, data);
    }
  }

  lemma WithFrozen(w: World, id: nat, t: Session, i: nat)
    requires IsConn(w, id) && i < |w.all|
    requires UpFrozen(w.all[id - 1].h, t.h) && DownFrozen(w.all[id - 1].h, t.h)
    ensures StaysShut(w, With(w, id, t), i)
  {
  }

  lemma QuietStepsFrozen(s: Session, fd: int, k: nat, d: Decision)
    ensures UpFrozen(s.h, CloseDone(s, fd).h) && DownFrozen(s.h, CloseDone(s, fd).h)
    ensures KernelClosed(s, fd).h == s.h
    ensures k < |s.jobs| ==> Returned(s, k, d).h == s.h
  {
  }

  lemma StepFrozen(cfg: Cfg, w: World, e: Event, i: nat)
    requires GoodCfg(cfg) && Inv(cfg, w) && Enabled(w, e) && i < |w.all|
    ensures StaysShut(w, Step(cfg, w, e), i)
  {
    hide InvBy, StaysShut, DrainAll, Complete;
    match e
    case ConnDone(id, f, res, data) => ConnDoneFrozen(cfg, w, id, f, res, data, i);
    case EventfdDone => DrainAllFrozen(cfg, w, i);
    case TimeoutDone => TimeoutFrozen(cfg, w, i);
    case _ => OtherFrozen(cfg, w, e, i);
  }

  lemma TimeoutFrozen(cfg: Cfg, w: World, i: nat)
    requires i < |w.all|
    ensures StaysShut(w, OnTimeout(cfg, w), i)
  {
    hide Sweep;
    SweepFrozen(cfg, w.all[i], w.tick + 1);
  }

  /** A step that leaves what the i-th connection exchanged as it was. */
  lemma UnmovedFrozen(w: World, v: World, i: nat)
    requires i < |w.all| <= |v.all| && v.all[i].h == w.all[i].h
    ensures StaysShut(w, v, i)
  {
  }

  lemma OtherFrozen(cfg: Cfg, w: World, e: Event, i: nat)
    requires Enabled(w, e) && i < |w.all| && !e.ConnDone? && !e.EventfdDone? && !e.TimeoutDone?
    ensures StaysShut(w, Step(cfg, w, e), i)
  {
    hide CloseDone, KernelClosed, Returned, Accepted, Mapped, TopUp, ResultOk, DecisionOk, StaysShut;
    match e
    case ConnCloseDone(id, fd) =>
      QuietStepsFrozen(w.all[id - 1], fd, 0, Decision(0, [], false, false, 0));
      WithFrozen(w, id, CloseDone(w.all[id - 1], fd), i);
    case HookReturns(id, k, d) =>
      QuietStepsFrozen(w.all[id - 1], 0, k, d);
      UnmovedFrozen(w, Step(cfg, w, e), i);
    case KernelCloses(id, fd) =>
      QuietStepsFrozen(w.all[id - 1], fd, 0, Decision(0, [], false, false, 0));
      UnmovedFrozen(w, Step(cfg, w, e), i);
    case AcceptDone(_) | ShedCloseDone | BatchDone | KernelClosesShed(_) | StopCalled =>
      UnmovedFrozen(w, Step(cfg, w, e), i);
    case ConnDone(_, _, _, _) | EventfdDone | TimeoutDone =>
  }

  lemma StableOf(cfg: Cfg, s: Session, tick: nat)
    requires GoodCfg(cfg) && SessionInv(cfg, s, tick)
    ensures Stable(s)
  {
    hide Stable, OneUserPerBuffer, NonEmpty, PrefixSafe, SeenOk, HalfClosed, Charged, InSomePhase;
    if Live(s) {
      ActiveIsLasting(cfg, s, tick);
    }
  }

  /** Once the upstream has been told that the client is done, no run adds a byte to what it got, and
      it is never told twice; likewise for the client. */
  lemma {:induction false} NothingAfterShutdown(cfg: Cfg, w: World, evs: seq<Event>, i: nat)
    requires GoodCfg(cfg) && Inv(cfg, w) && Legal(cfg, w, evs) && i < |w.all|
    ensures StaysShut(w, Run(cfg, w, evs), i)
    decreases |evs|
  {
    hide InvBy, Step, Enabled;
    if evs != [] {
      StepKeeps(cfg, w, evs[0]);
      StepFrozen(cfg, w, evs[0], i);
      NothingAfterShutdown(cfg, Step(cfg, w, evs[0]), evs[1..], i);
    }
  }
}
