/** After Stop the worker winds down: a bound on the work left falls with every accept, Hook answer,
    drained result and connection completion (flashrelay/worker.go:602-611). */
module RelayDrain {
  import opened RelayTypes
  import opened RelaySession
  import opened RelayInv
  import opened RelaySteps
  import opened RelayWorld
  import opened RelaySums
  import opened RelaySafety
  import opened RelayLaws

  /** No peer supplies more than `bytes`, no Hook reply is longer than `reply`. */
  datatype Supply = Supply(bytes: nat, reply: nat)

  function Gap(a: nat, b: nat): nat {
    if a < b then b - a else 0
  }

  /** What one more byte from a peer can cost: the Hook call it may cause, its reply, its forwarding. */
  function PerByte(b: Supply): nat {
    b.reply + 6
  }

  function PlainCount(s: Session): nat {
    |s.flights| + |s.closes| + 2 * |s.jobs| + |s.results|
  }

  /** Completions, Hook answers and drained results the connection can still cause. */
  function WorkLeft(b: Supply, s: Session): int {
    if !Live(s) then PlainCount(s) else
    |s.flights| + |s.closes| + (b.reply + 4) * |s.jobs| + (b.reply + 3) * |s.results|
    + PerByte(b) * Gap(|s.h.clientIn|, b.bytes) + PerByte(b) * Gap(|s.h.upIn|, b.bytes)
    + Gap(s.c.replyOff, s.c.replyEnd)
    + (if s.c.relayStarted then 0 else 2 + Gap(s.c.initSent, s.c.reqN))
    + Gap(s.c.c2uOff, s.c.c2uEnd) + Gap(s.c.u2cOff, s.c.u2cEnd)
    + 3
  }

  predicate WithinOne(b: Supply, s: Session) {
    |s.h.clientIn| <= b.bytes && |s.h.upIn| <= b.bytes
  }

  // ---- arithmetic ----

  lemma AtLeastTwice(n: nat, r: nat)
    ensures (r + 4) * n >= 2 * n && (r + 3) * n >= n
  {
  }

  /** `r` more bytes out of a supply of `top`, at price `p` each. */
  lemma BytesSpent(p: nat, have: nat, r: nat, top: nat)
    requires r >= 1 && p >= 1 && have + r <= top
    ensures p * Gap(have + r, top) + r <= p * Gap(have, top) - p + 1
  {
    var g := Gap(have + r, top);
    assert Gap(have, top) == g + r;
    assert p * (g + r) == p * g + p * r;
    assert p * r >= p + r - 1 by {
      assert (p - 1) * (r - 1) >= 0;
      assert (p - 1) * (r - 1) == p * r - p - r + 1;
    }
  }

  // ---- a connection that stops being live ----

  lemma LiveHasReserve(b: Supply, s: Session)
    requires Live(s)
    ensures WorkLeft(b, s) >= PlainCount(s) + 3
  {
    AtLeastTwice(|s.jobs|, b.reply);
    AtLeastTwice(|s.results|, b.reply);
  }

  /** `t` is `s` closed: at most two closes were added and nothing else. */
  ghost predicate Ended(s: Session, t: Session) {
    !Live(t) && t.flights == s.flights && t.jobs == s.jobs && t.results == s.results && |t.closes| <= |s.closes| + 2
  }

  lemma CloseEnds(s: Session)
    requires s.mapped
    ensures !s.c.closing ==> Ended(s, CloseConn(s)) && Ended(s, Fail(s))
  {
  }

  lemma EndedWork(b: Supply, s: Session, t: Session, tick: nat, f: Flight, res: int, data: seq<byte>)
    requires Live(s) && f in s.flights && Ended(Harvested(s, f, res, data), t)
    ensures WorkLeft(b, t) < WorkLeft(b, s)
  {
    LiveHasReserve(b, s);
  }

  // ---- completions of a live connection ----

  lemma RecvReqWork(cfg: Cfg, b: Supply, s: Session, tick: nat, f: Flight, res: int, data: seq<byte>)
    requires Live(s) && f in s.flights && !s.c.relayStarted && s.c.initSent <= s.c.reqN
    requires f.kind == RecvReq && 0 < res == |data| && |s.h.clientIn| + res <= b.bytes
    ensures WorkLeft(b, OnRecvReq(Harvested(s, f, res, data), tick, res, data)) < WorkLeft(b, s)
  {
    hide Fail, Slice, Stored;
    var t := OnRecvReq(Harvested(s, f, res, data), tick, res, data);
    BytesSpent(PerByte(b), |s.h.clientIn|, res, b.bytes);
    assert (b.reply + 4) * |t.jobs| == (b.reply + 4) * |s.jobs| + (b.reply + 4);
    assert |t.flights| == |s.flights| - 1;
  }

  lemma StartDuplexWork(cfg: Cfg, b: Supply, s: Session)
    requires Live(s)
    ensures Live(ForwardInit(cfg, s)) && WorkLeft(b, ForwardInit(cfg, s)) <= WorkLeft(b, s) + (if s.c.relayStarted then 2 else 1)
  {
    hide FlightOf, PerByte;
  }

  lemma ReplyWork(cfg: Cfg, b: Supply, s: Session, k: Kind, f: Flight, res: int)
    requires Live(s) && f in s.flights && IsReply(k) && f.kind == k && 0 < res
    requires s.c.replyOff < s.c.replyEnd && !s.c.relayStarted
    ensures WorkLeft(b, OnReply(cfg, Harvested(s, f, res, []), k, res)) < WorkLeft(b, s)
  {
    hide Fail, CloseConn, ForwardInit, PerByte, FlightOf, Slice;
    var h := Harvested(s, f, res, []);
    var t := h.(c := h.c.(replyOff := h.c.replyOff + res));
    assert |t.flights| == |s.flights| - 1;
    assert WorkLeft(b, t) <= WorkLeft(b, s) - 2;
    if t.c.replyOff >= t.c.replyEnd {
      if k == RejectSend {
        CloseEnds(t);
        LiveHasReserve(b, t);
      } else if k == ReplyClient {
        StartDuplexWork(cfg, b, t);
      }
    }
  }

  lemma SendUpWork(cfg: Cfg, b: Supply, s: Session, f: Flight, res: int)
    requires Live(s) && f in s.flights && f.kind == SendUp && 0 < res && s.c.initSent < s.c.reqN && !s.c.relayStarted
    ensures WorkLeft(b, OnSendUp(cfg, Harvested(s, f, res, []), res)) < WorkLeft(b, s)
  {
    hide Fail, FlightOf, PerByte, Slice;
  }

  lemma C2URecvWork(b: Supply, s: Session, tick: nat, f: Flight, res: int, data: seq<byte>)
    requires Live(s) && f in s.flights && f.kind == C2URecv && 0 <= res == |data| && s.c.c2uOff == s.c.c2uEnd
    requires |s.h.clientIn| + res <= b.bytes
    ensures WorkLeft(b, OnC2URecv(Harvested(s, f, res, data), tick, res, data)) < WorkLeft(b, s)
  {
    hide Fail, CloseConn, FlightOf, Stored;
    var h := Harvested(s, f, res, data);
    assert |h.flights| == |s.flights| - 1;
    if res == 0 {
      var t := h.(c := h.c.(clientReadDone := true), h := h.h.(shutUp := h.h.shutUp + 1));
      CloseEnds(t);
      LiveHasReserve(b, t);
      assert WorkLeft(b, t) < WorkLeft(b, s);
    } else {
      BytesSpent(PerByte(b), |s.h.clientIn|, res, b.bytes);
    }
  }

  lemma U2CRecvWork(b: Supply, s: Session, tick: nat, f: Flight, res: int, data: seq<byte>)
    requires Live(s) && f in s.flights && f.kind == U2CRecv && 0 <= res == |data| && s.c.u2cOff == s.c.u2cEnd
    requires |s.h.upIn| + res <= b.bytes
    ensures WorkLeft(b, OnU2CRecv(Harvested(s, f, res, data), tick, res, data)) < WorkLeft(b, s)
  {
    hide Fail, CloseConn, FlightOf, Stored;
    var h := Harvested(s, f, res, data);
    assert |h.flights| == |s.flights| - 1;
    if res == 0 {
      var t := h.(c := h.c.(upstreamReadDone := true), h := h.h.(shutClient := h.h.shutClient + 1));
      CloseEnds(t);
      LiveHasReserve(b, t);
      assert WorkLeft(b, t) < WorkLeft(b, s);
    } else {
      BytesSpent(PerByte(b), |s.h.upIn|, res, b.bytes);
    }
  }

  lemma C2USendWork(b: Supply, s: Session, f: Flight, res: int)
    requires Live(s) && f in s.flights && f.kind == C2USend && 0 < res && s.c.c2uOff < s.c.c2uEnd
    ensures WorkLeft(b, OnC2USend(Harvested(s, f, res, []), res)) < WorkLeft(b, s)
  {
    hide Fail, FlightOf, PerByte, Slice;
  }

  lemma U2CSendWork(b: Supply, s: Session, f: Flight, res: int)
    requires Live(s) && f in s.flights && f.kind == U2CSend && 0 < res && s.c.u2cOff < s.c.u2cEnd
    ensures WorkLeft(b, OnU2CSend(Harvested(s, f, res, []), res)) < WorkLeft(b, s)
  {
    hide Fail, FlightOf, PerByte, Slice;
  }

  lemma FailWork(cfg: Cfg, b: Supply, s: Session, tick: nat, f: Flight, res: int, data: seq<byte>)
    requires Live(s) && f in s.flights && (res < 0 || (res == 0 && f.kind != C2URecv && f.kind != U2CRecv))
    ensures WorkLeft(b, Complete(cfg, s, tick, f, res, data)) < WorkLeft(b, s)
  {
    hide Fail, CloseConn, WorkLeft, Harvested, Ended;
    var h := Harvested(s, f, res, data);
    assert Live(h) by { HarvestLive(s, f, res, data); }
    CloseEnds(h);
    EndedWork(b, s, Fail(h), tick, f, res, data);
    EndedWork(b, s, CloseConn(h), tick, f, res, data);
  }

  lemma HarvestLive(s: Session, f: Flight, res: int, data: seq<byte>)
    ensures Live(Harvested(s, f, res, data)) <==> Live(s)
  {
  }

  /** How much the streams grow by is what was read. */
  lemma HarvestWithin(cfg: Cfg, b: Supply, s: Session, tick: nat, f: Flight, res: int, data: seq<byte>)
    requires Live(s) && res > 0 && |data| == (if IsRecv(f.kind) then res else 0)
    requires WithinOne(b, Harvested(s, f, res, data))
    ensures f.kind == RecvReq || f.kind == C2URecv ==> |s.h.clientIn| + res <= b.bytes
    ensures f.kind == U2CRecv ==> |s.h.upIn| + res <= b.bytes
  {
  }

  /** What phase an operation belongs to, as far as the work left depends on it. */
  lemma PhaseFacts(cfg: Cfg, s: Session, tick: nat, f: Flight)
    requires Active(cfg, s, tick) && f in s.flights
    ensures f.kind == RecvReq ==> !s.c.relayStarted && s.c.initSent <= s.c.reqN
    ensures IsReply(f.kind) ==> s.c.replyOff < s.c.replyEnd && !s.c.relayStarted
    ensures f.kind == SendUp ==> s.c.initSent < s.c.reqN && !s.c.relayStarted
    ensures f.kind == C2URecv ==> s.c.c2uOff == s.c.c2uEnd
    ensures f.kind == U2CRecv ==> s.c.u2cOff == s.c.u2cEnd
    ensures f.kind == C2USend ==> s.c.c2uOff < s.c.c2uEnd
    ensures f.kind == U2CSend ==> s.c.u2cOff < s.c.u2cEnd
  {
    hide FlightOf, SeenOk, Charged, C2UStream, U2CStream, ReplyWindow, InSomePhase;
    PhaseOfFlight(cfg, s, tick, f);
  }

  lemma LiveCompleteWork(cfg: Cfg, b: Supply, s: Session, tick: nat, f: Flight, res: int, data: seq<byte>)
    requires GoodCfg(cfg) && Active(cfg, s, tick) && f in s.flights && ResultOk(f, res, data)
    requires WithinOne(b, Harvested(s, f, res, data))
    ensures WorkLeft(b, Complete(cfg, s, tick, f, res, data)) < WorkLeft(b, s)
  {
    hide Active, WorkLeft, Harvested, WithinOne, OnReply, OnC2USend, OnU2CSend, OnSendUp, OnRecvReq, OnC2URecv, OnU2CRecv;
    assert Live(s) by { ActiveLive(cfg, s, tick); }
    PhaseFacts(cfg, s, tick, f);
    if res < 0 || (res == 0 && f.kind != C2URecv && f.kind != U2CRecv) {
      FailWork(cfg, b, s, tick, f, res, data);
    } else {
      if res > 0 { HarvestWithin(cfg, b, s, tick, f, res, data); }
      WithinNow(b, s, f, res, data);
      match f.kind
      case RecvReq => RecvReqWork(cfg, b, s, tick, f, res, data);
      case SendUp => SendUpWork(cfg, b, s, f, res);
      case C2URecv => C2URecvWork(b, s, tick, f, res, data);
      case C2USend => C2USendWork(b, s, f, res);
      case U2CRecv => U2CRecvWork(b, s, tick, f, res, data);
      case U2CSend => U2CSendWork(b, s, f, res);
      case _ => ReplyWork(cfg, b, s, f.kind, f, res);
    }
  }

  lemma ActiveLive(cfg: Cfg, s: Session, tick: nat)
    requires Active(cfg, s, tick)
    ensures Live(s)
  {
    hide InSomePhase, SeenOk, Charged;
  }

  lemma WithinNow(b: Supply, s: Session, f: Flight, res: int, data: seq<byte>)
    requires WithinOne(b, Harvested(s, f, res, data))
    ensures |s.h.clientIn| <= b.bytes && |s.h.upIn| <= b.bytes
  {
  }

  lemma CompleteWork(cfg: Cfg, b: Supply, s: Session, tick: nat, f: Flight, res: int, data: seq<byte>)
    requires GoodCfg(cfg) && SessionInv(cfg, s, tick) && f in s.flights && ResultOk(f, res, data)
    requires WithinOne(b, Harvested(s, f, res, data))
    ensures WorkLeft(b, Complete(cfg, s, tick, f, res, data)) < WorkLeft(b, s)
  {
    hide Active, Closing, WithinOne;
    if Live(s) {
      LiveCompleteWork(cfg, b, s, tick, f, res, data);
    }
  }

  // ---- the other transitions ----

  lemma CloseDoneWork(cfg: Cfg, b: Supply, s: Session, tick: nat, fd: int)
    requires SessionInv(cfg, s, tick) && fd in s.closes
    ensures WorkLeft(b, CloseDone(s, fd)) < WorkLeft(b, s)
  {
    hide InSomePhase, Lasting, Delivered, SeenOk, Charged;
  }

  lemma ReturnedWork(b: Supply, s: Session, k: nat, d: Decision)
    requires k < |s.jobs|
    ensures WorkLeft(b, Returned(s, k, d)) < WorkLeft(b, s)
  {
    var t := Returned(s, k, d);
    assert |t.jobs| == |s.jobs| - 1 && |t.results| == |s.results| + 1;
    assert (b.reply + 4) * |t.jobs| == (b.reply + 4) * |s.jobs| - (b.reply + 4);
    assert (b.reply + 3) * |t.results| == (b.reply + 3) * |s.results| + (b.reply + 3);
  }

  lemma SendReplyWork(b: Supply, s: Session, reply: seq<byte>, k: Kind)
    requires Live(s) && |reply| <= b.reply
    ensures Live(SendReply(s, reply, k)) && WorkLeft(b, SendReply(s, reply, k)) <= WorkLeft(b, s) + b.reply + 1
  {
    hide FlightOf, PerByte;
  }

  lemma PostWork(b: Supply, s: Session, k: Kind)
    requires Live(s)
    ensures Live(Post(s, k)) && WorkLeft(b, Post(s, k)) == WorkLeft(b, s) + 1
  {
    hide FlightOf, PerByte;
  }

  lemma DecideWork(b: Supply, s: Session, fd: int, n: nat)
    requires Live(s) && s.c.initSent <= n
    ensures var u := s.(c := s.c.(upstreamFD := fd, initSent := n), h := s.h.(decided := true, consumed := n));
            Live(u) && WorkLeft(b, u) <= WorkLeft(b, s)
  {
    hide PerByte;
  }

  lemma TouchWork(b: Supply, s: Session, tick: nat, counted: bool, r: nat)
    ensures WorkLeft(b, s.(c := s.c.(lastTick := tick))) == WorkLeft(b, s)
    ensures WorkLeft(b, s.(c := s.c.(counted := counted), h := s.h.(rejected := r))) == WorkLeft(b, s)
  {
    hide PerByte;
  }

  lemma GrowWork(cfg: Cfg, b: Supply, s: Session)
    ensures Live(s) ==> Live(s.(c := GrowReq(cfg, s.c))) && WorkLeft(b, s.(c := GrowReq(cfg, s.c))) == WorkLeft(b, s)
  {
    hide PerByte, Slice, Stored, Zeros;
    assert GrowReq(cfg, s.c) == s.c.(reqBuf := GrowReq(cfg, s.c).reqBuf);
  }

  lemma ApplyWork(cfg: Cfg, b: Supply, s: Session, tick: nat, d: Decision)
    requires Live(s) && |d.reply| <= b.reply && s.c.initSent == 0 && !s.c.relayStarted
    ensures WorkLeft(b, Apply(cfg, s, tick, d)) <= WorkLeft(b, s) + b.reply + 1
  {
    hide WorkLeft, CloseConn, Fail, SendReply, Post, ForwardInit, GrowReq, CanGrow;
    var t := s.(c := s.c.(lastTick := tick));
    TouchWork(b, s, tick, true, t.h.rejected + 1);
    if d.reject {
      var u := t.(c := t.c.(counted := true), h := t.h.(rejected := t.h.rejected + 1));
      TouchWork(b, t, tick, true, t.h.rejected + 1);
      SendReplyWork(b, u, d.reply, RejectSend);
      DeadWork(b, u);
    } else if d.more {
      var u := t.(c := GrowReq(cfg, t.c));
      GrowWork(cfg, b, t);
      SendReplyWork(b, u, d.reply, ReplyMore);
      PostWork(b, u, RecvReq);
      DeadWork(b, t);
    } else {
      var n := Clamp(d.consumed, t.c.reqN);
      var u := t.(c := t.c.(upstreamFD := d.upstreamFD, initSent := n), h := t.h.(decided := true, consumed := n));
      DecideWork(b, t, d.upstreamFD, n);
      SendReplyWork(b, u, d.reply, ReplyClient);
      StartDuplexWork(cfg, b, u);
    }
  }

  lemma DeadWork(b: Supply, s: Session)
    requires Live(s)
    ensures WorkLeft(b, CloseConn(s)) < WorkLeft(b, s) && WorkLeft(b, Fail(s)) < WorkLeft(b, s)
  {
    hide CloseConn, Fail;
    CloseEnds(s);
    LiveHasReserve(b, s);
  }

  lemma PopWork(b: Supply, s: Session)
    requires s.results != []
    ensures WorkLeft(b, s.(results := s.results[1..])) <= WorkLeft(b, s) - (if Live(s) then b.reply + 3 else 1)
  {
    hide PerByte;
    assert (b.reply + 3) * (|s.results| - 1) == (b.reply + 3) * |s.results| - (b.reply + 3);
  }

  lemma DrainWork(cfg: Cfg, b: Supply, s: Session, tick: nat, d: Decision)
    requires SessionInv(cfg, s, tick) && s.results != [] && d == s.results[0] && |d.reply| <= b.reply
    ensures WorkLeft(b, Drain(cfg, s, tick, d)) < WorkLeft(b, s)
  {
    hide WorkLeft, Apply;
    PopWork(b, s);
    if Live(s) {
      UndecidedAtHook(cfg, s, tick);
      ApplyWork(cfg, b, s.(results := s.results[1..]), tick, d);
    }
  }

  lemma UndecidedAtHook(cfg: Cfg, s: Session, tick: nat)
    requires SessionInv(cfg, s, tick) && Live(s) && s.results != []
    ensures s.c.initSent == 0 && !s.c.relayStarted
  {
    hide SeenOk, Charged, ReplyWindow, C2UStream, U2CStream, FlightOf;
  }

  lemma SweepWork(cfg: Cfg, b: Supply, s: Session, tick: nat)
    ensures WorkLeft(b, Sweep(cfg, s, tick)) <= WorkLeft(b, s)
  {
    hide CloseConn;
    if Quiet(cfg, s, tick) {
      var t := s.(c := s.c.(counted := true),
                  h := s.h.(idle := s.h.idle + 1, again := s.h.again + (if s.c.counted then 1 else 0)));
      LiveHasReserve(b, s);
      CloseEnds(t);
    }
  }

  lemma AcceptedWork(cfg: Cfg, b: Supply, tick: nat, fd: int)
    ensures WorkLeft(b, Accepted(cfg, tick, fd)) == 2 * (PerByte(b) * b.bytes) + 6
  {
    hide FlightOf, PerByte;
  }

  // ---- the whole worker ----

  function WorkOf(b: Supply): Session -> int {
    (s: Session) => WorkLeft(b, s)
  }

  /** What one accept in flight can still cause. */
  function PerAccept(b: Supply): nat {
    2 * (PerByte(b) * b.bytes) + 7
  }

  function TotalWork(b: Supply, w: World): int {
    PerAccept(b) * w.accepts + Sum(w.all, WorkOf(b))
  }

  /** The events that count as progress: an accept, a completion of a connection, a Hook answer, and
      each result drained. */
  function Progress(w: World, e: Event): nat {
    match e
    case AcceptDone(_) => 1
    case ConnDone(_, _, _, _) => 1
    case ConnCloseDone(_, _) => 1
    case HookReturns(_, _, _) => 1
    case EventfdDone => |w.ready|
    case _ => 0
  }

  function ProgressIn(cfg: Cfg, w: World, evs: seq<Event>): nat
    requires Legal(cfg, w, evs)
    decreases |evs|
  {
    if evs == [] then 0 else Progress(w, evs[0]) + ProgressIn(cfg, Step(cfg, w, evs[0]), evs[1..])
  }

  /** The event stays within the supply. */
  predicate Supplied(b: Supply, w: World, e: Event)
    requires Enabled(w, e)
  {
    match e
    case ConnDone(id, f, res, data) => WithinOne(b, Harvested(w.all[id - 1], f, res, data))
    case HookReturns(id, k, d) => |d.reply| <= b.reply
    case _ => true
  }

  predicate SuppliedIn(cfg: Cfg, b: Supply, w: World, evs: seq<Event>)
    requires Legal(cfg, w, evs)
    decreases |evs|
  {
    evs == [] || (Supplied(b, w, evs[0]) && SuppliedIn(cfg, b, Step(cfg, w, evs[0]), evs[1..]))
  }

  ghost predicate RepliesWithin(b: Supply, w: World) {
    forall k :: 0 <= k < |w.ready| ==> |w.ready[k].dec.reply| <= b.reply
  }

  lemma WorkNonNegative(b: Supply, s: Session)
    ensures WorkLeft(b, s) >= 0
  {
    hide WorkLeft;
    if Live(s) { LiveHasReserve(b, s); } else { DeadIsOutstanding(b, s); }
  }

  lemma DeadIsOutstanding(b: Supply, s: Session)
    requires !Live(s)
    ensures WorkLeft(b, s) == PlainCount(s)
  {
  }

  /** Each mapped connection has work left. */
  lemma MappedIsWork(cfg: Cfg, b: Supply, w: World)
    requires GoodCfg(cfg) && Inv(cfg, w)
    ensures Mapped(w) <= TotalWork(b, w)
  {
    hide WorkLeft, SessionInv, InvBy;
    forall i | 0 <= i < |w.all| ensures MappedOf(w.all[i]) <= WorkOf(b)(w.all[i]) {
      SoundConn(cfg, w, i);
      OneIsWork(cfg, b, w.all[i], w.tick);
    }
    SumAtMost(w.all, MappedOf, WorkOf(b));
  }

  lemma OneIsWork(cfg: Cfg, b: Supply, s: Session, tick: nat)
    requires GoodCfg(cfg) && SessionInv(cfg, s, tick)
    ensures MappedOf(s) <= WorkLeft(b, s)
  {
    hide WorkLeft, SessionInv;
    WorkNonNegative(b, s);
    if Live(s) {
      LiveHasReserve(b, s);
    } else if s.mapped {
      DeadIsOutstanding(b, s);
      TokensOf(cfg, s, tick);
    }
  }

  lemma OneLess(b: Supply, w: World, id: nat, t: Session)
    requires IsConn(w, id) && WorkLeft(b, t) < WorkLeft(b, w.all[id - 1])
    ensures Sum(With(w, id, t).all, WorkOf(b)) + 1 <= Sum(w.all, WorkOf(b))
  {
    hide WorkLeft;
    SumUpdate(w.all, WorkOf(b), id - 1, t);
  }

  lemma AcceptWork(cfg: Cfg, b: Supply, w: World, res: int)
    requires Enabled(w, AcceptDone(res))
    ensures TotalWork(b, OnAccept(cfg, w, res)) + 1 <= TotalWork(b, w)
  {
    hide WorkLeft, Accepted, Mapped, PerByte;
    assert PerAccept(b) * (w.accepts - 1) == PerAccept(b) * w.accepts - PerAccept(b);
    if res >= 0 {
      AcceptedWork(cfg, b, w.tick, res);
      SumAppend(w.all, WorkOf(b), Accepted(cfg, w.tick, res));
    }
  }

  lemma ConnDoneWork(cfg: Cfg, b: Supply, w: World, id: nat, f: Flight, res: int, data: seq<byte>)
    requires GoodCfg(cfg) && Inv(cfg, w) && Enabled(w, ConnDone(id, f, res, data)) && Supplied(b, w, ConnDone(id, f, res, data))
    ensures TotalWork(b, Step(cfg, w, ConnDone(id, f, res, data))) + 1 <= TotalWork(b, w)
  {
    hide WorkLeft, Complete, SessionInv, InvBy, WithinOne, Harvested, ResultOk, PerAccept;
    SoundConn(cfg, w, id - 1);
    CompleteWork(cfg, b, w.all[id - 1], w.tick, f, res, data);
    OneLess(b, w, id, Complete(cfg, w.all[id - 1], w.tick, f, res, data));
  }

  lemma CloseWork(cfg: Cfg, b: Supply, w: World, id: nat, fd: int)
    requires Inv(cfg, w) && Enabled(w, ConnCloseDone(id, fd))
    ensures TotalWork(b, Step(cfg, w, ConnCloseDone(id, fd))) + 1 <= TotalWork(b, w)
  {
    hide WorkLeft, CloseDone, SessionInv, InvBy, PerAccept;
    SoundConn(cfg, w, id - 1);
    CloseDoneWork(cfg, b, w.all[id - 1], w.tick, fd);
    OneLess(b, w, id, CloseDone(w.all[id - 1], fd));
  }

  lemma HookWork(cfg: Cfg, b: Supply, w: World, id: nat, k: nat, d: Decision)
    requires Enabled(w, HookReturns(id, k, d))
    ensures TotalWork(b, Step(cfg, w, HookReturns(id, k, d))) + 1 <= TotalWork(b, w)
  {
    hide WorkLeft, Returned, PerAccept;
    ReturnedWork(b, w.all[id - 1], k, d);
    OneLess(b, w, id, Returned(w.all[id - 1], k, d));
  }

  lemma KernelClosesWork(cfg: Cfg, b: Supply, w: World, id: nat, fd: int)
    requires IsConn(w, id)
    ensures Sum(With(w, id, KernelClosed(w.all[id - 1], fd)).all, WorkOf(b)) == Sum(w.all, WorkOf(b))
  {
    hide WorkLeft;
    assert WorkLeft(b, KernelClosed(w.all[id - 1], fd)) == WorkLeft(b, w.all[id - 1]) by { SameWork(b, w.all[id - 1], fd); }
    SumUpdate(w.all, WorkOf(b), id - 1, KernelClosed(w.all[id - 1], fd));
  }

  lemma SameWork(b: Supply, s: Session, fd: int)
    ensures WorkLeft(b, KernelClosed(s, fd)) == WorkLeft(b, s)
  {
    hide PerByte;
  }

  lemma TimeoutWork(cfg: Cfg, b: Supply, w: World)
    ensures TotalWork(b, OnTimeout(cfg, w)) <= TotalWork(b, w)
  {
    hide WorkLeft, Sweep, PerAccept;
    if SweepsAt(cfg, w.tick + 1) {
      var v := SweepAll(cfg, w.all, w.tick + 1);
      forall i | 0 <= i < |v| ensures WorkOf(b)(v[i]) <= WorkOf(b)(w.all[i]) {
        SweepWork(cfg, b, w.all[i], w.tick + 1);
      }
      SumShrinks(v, w.all, WorkOf(b));
    }
  }

  lemma DrainHeadWork(cfg: Cfg, b: Supply, w: World)
    requires GoodCfg(cfg) && Inv(cfg, w) && w.ready != [] && RepliesWithin(b, w)
    ensures TotalWork(b, DrainOne(cfg, w.(ready := w.ready[1..]), w.ready[0])) + 1 <= TotalWork(b, w)
  {
    hide WorkLeft, Drain, SessionInv, AllOk, FdsBalance, AcceptsOk, PerAccept, Adopts;
    var r := w.ready[0];
    assert w.all[r.id - 1].results == ResultsFor(w.ready, r.id) == [r.dec] + ResultsFor(w.ready[1..], r.id);
    SoundConn(cfg, w, r.id - 1);
    DrainWork(cfg, b, w.all[r.id - 1], w.tick, r.dec);
    OneLess(b, w, r.id, Drain(cfg, w.all[r.id - 1], w.tick, r.dec));
  }

  lemma {:induction false} DrainAllWork(cfg: Cfg, b: Supply, w: World)
    requires GoodCfg(cfg) && Inv(cfg, w) && RepliesWithin(b, w)
    ensures TotalWork(b, DrainAll(cfg, w)) + |w.ready| <= TotalWork(b, w)
    decreases |w.ready|
  {
    hide InvBy, TotalWork, Drain;
    if w.ready != [] {
      DrainHeadKeeps(cfg, w);
      DrainHeadWork(cfg, b, w);
      DrainAllWork(cfg, b, DrainOne(cfg, w.(ready := w.ready[1..]), w.ready[0]));
    }
  }

  lemma StepWork(cfg: Cfg, b: Supply, w: World, e: Event)
    requires GoodCfg(cfg) && Inv(cfg, w) && w.stopping && Enabled(w, e) && Supplied(b, w, e) && RepliesWithin(b, w)
    ensures TotalWork(b, Step(cfg, w, e)) + Progress(w, e) <= TotalWork(b, w)
  {
    hide InvBy, WorkLeft, OnAccept, OnTimeout, DrainAll, Complete, CloseDone, Returned, PerAccept, WithinOne, Harvested, ResultOk;
    match e
    case AcceptDone(res) => AcceptWork(cfg, b, w, res);
    case ConnDone(id, f, res, data) => ConnDoneWork(cfg, b, w, id, f, res, data);
    case ConnCloseDone(id, fd) => CloseWork(cfg, b, w, id, fd);
    case HookReturns(id, k, d) => HookWork(cfg, b, w, id, k, d);
    case KernelCloses(id, fd) => KernelClosesWork(cfg, b, w, id, fd);
    case EventfdDone => DrainAllWork(cfg, b, w);
    case TimeoutDone => TimeoutWork(cfg, b, w);
    case _ =>
  }

  lemma {:induction false} DrainedReady(cfg: Cfg, w: World)
    ensures var v := DrainAll(cfg, w); v.ready == [] && v.stopping == w.stopping
    decreases |w.ready|
  {
    hide Drain, Adopts;
    if w.ready != [] {
      DrainedReady(cfg, DrainOne(cfg, w.(ready := w.ready[1..]), w.ready[0]));
    }
  }

  lemma StepKeepsReplies(cfg: Cfg, b: Supply, w: World, e: Event)
    requires w.stopping && Enabled(w, e) && Supplied(b, w, e) && RepliesWithin(b, w)
    ensures var v := Step(cfg, w, e); RepliesWithin(b, v) && v.stopping
  {
    hide DrainAll, Complete, CloseDone, Returned, SweepAll, Accepted, Mapped, WithinOne, Harvested, ResultOk, KernelClosed;
    DrainedReady(cfg, w);
  }

  /** Once stopped, the progress of a run and the connections it leaves in the map are together within the
      work there was: the accepts still in flight and what every connection, given its peers' and the Hook's
      finite supply, can still cause. */
  lemma {:induction false} WindsDown(cfg: Cfg, b: Supply, w: World, evs: seq<Event>)
    requires GoodCfg(cfg) && Inv(cfg, w) && w.stopping && RepliesWithin(b, w)
    requires Legal(cfg, w, evs) && SuppliedIn(cfg, b, w, evs)
    ensures ProgressIn(cfg, w, evs) + Mapped(Run(cfg, w, evs)) <= TotalWork(b, w)
    ensures Run(cfg, w, evs).stopping && Run(cfg, w, evs).accepts <= w.accepts
    decreases |evs|
  {
    hide InvBy, TotalWork, Step, Enabled, RepliesWithin, Supplied, Progress;
    if evs == [] {
      MappedIsWork(cfg, b, w);
    } else {
      StepKeeps(cfg, w, evs[0]);
      StepWork(cfg, b, w, evs[0]);
      StepKeepsReplies(cfg, b, w, evs[0]);
      NoNewAccepts(cfg, w, evs[0]);
      WindsDown(cfg, b, Step(cfg, w, evs[0]), evs[1..]);
    }
  }

  lemma NoNewAccepts(cfg: Cfg, w: World, e: Event)
    requires w.stopping && Enabled(w, e)
    ensures Step(cfg, w, e).accepts <= w.accepts
  {
    hide Complete, CloseDone, Returned, SweepAll, Accepted, Mapped, ResultOk, KernelClosed, DrainAll;
    DrainedAccepts(cfg, w);
  }

  lemma {:induction false} DrainedAccepts(cfg: Cfg, w: World)
    ensures DrainAll(cfg, w).accepts == w.accepts
    decreases |w.ready|
  {
    hide Drain, Adopts;
    if w.ready != [] {
      DrainedAccepts(cfg, DrainOne(cfg, w.(ready := w.ready[1..]), w.ready[0]));
    }
  }

  /** As long as a connection is in the map some progress is possible: nothing is ever stuck. */
  lemma NeverStuck(cfg: Cfg, w: World) returns (e: Event)
    requires GoodCfg(cfg) && Inv(cfg, w) && !w.exited && Mapped(w) > 0
    ensures Enabled(w, e) && Progress(w, e) > 0 && !e.AcceptDone?
  {
    hide SessionInv, AllOk, FdsBalance, AcceptsOk;
    var i := SomeMapped(w.all);
    var s := w.all[i];
    SoundConn(cfg, w, i);
    SomethingOutstanding(cfg, s, w.tick);
    if exists f :: f in s.flights {
      var f :| f in s.flights;
      e := ConnDone(i + 1, f, -1, []);
    } else if exists fd :: fd in s.closes {
      var fd :| fd in s.closes;
      e := ConnCloseDone(i + 1, fd);
    } else if s.jobs != [] {
      e := HookReturns(i + 1, 0, Decision(0, [], true, false, 0));
    } else {
      e := EventfdDone;
      assert ResultsFor(w.ready, i + 1) == s.results;
    }
  }

  /** Nothing more can be done for any connection; accepts may still be in flight. */
  ghost predicate NoProgress(w: World) {
    forall e: Event :: Enabled(w, e) && !e.AcceptDone? ==> Progress(w, e) <= 0
  }

  /** So a stopped worker's map empties: it is empty after a run that has made as much progress as there was
      work, and whenever nothing more can be done for a connection. */
  lemma StopEmptiesTheMap(cfg: Cfg, b: Supply, w: World, evs: seq<Event>)
    requires GoodCfg(cfg) && Inv(cfg, w) && w.stopping && RepliesWithin(b, w)
    requires Legal(cfg, w, evs) && SuppliedIn(cfg, b, w, evs)
    ensures var v := Run(cfg, w, evs);
            && ProgressIn(cfg, w, evs) <= TotalWork(b, w)
            && (ProgressIn(cfg, w, evs) >= TotalWork(b, w) ==> Mapped(v) <= 0)
            && (NoProgress(v) && !v.exited ==> Mapped(v) <= 0)
  {
    hide InvBy, Run, Legal, TotalWork, RepliesWithin, SuppliedIn, ProgressIn, Progress, Enabled;
    WindsDown(cfg, b, w, evs);
    RunKeeps(cfg, w, evs);
    MappedNatural(Run(cfg, w, evs));
    var v := Run(cfg, w, evs);
    if NoProgress(v) && !v.exited && Mapped(v) > 0 {
      var e := NeverStuck(cfg, v);
    }
  }

  lemma MappedNatural(w: World)
    ensures Mapped(w) >= 0
  {
    SumNonNegative(w.all, MappedOf);
  }

  lemma {:induction false} SomeMapped(all: seq<Session>) returns (i: nat)
    requires Sum(all, MappedOf) > 0
    ensures i < |all| && all[i].mapped
  {
    var n := |all| - 1;
    if all[n].mapped {
      i := n;
    } else {
      i := SomeMapped(all[..n]);
    }
  }

  lemma SomethingOutstanding(cfg: Cfg, s: Session, tick: nat)
    requires GoodCfg(cfg) && SessionInv(cfg, s, tick) && s.mapped
    ensures (exists f :: f in s.flights) || (exists fd :: fd in s.closes) || s.jobs != [] || s.results != []
  {
    hide SessionInv, Stable, NonEmpty, OneUserPerBuffer;
    TokensOf(cfg, s, tick);
    if s.flights != multiset{} {
      var f :| f in s.flights;
    } else if forall fd :: fd !in s.closes {
      NoneIn(s.closes);
    }
  }

  lemma NoneIn(m: multiset<int>)
    requires forall x: int :: x !in m
    ensures m == multiset{}
  {
    forall x: int ensures m[x] == (multiset{})[x] {}
    assert m <= multiset{};
  }
}
