/** The transitions of one connection, op case by op case (flashrelay/worker.go:189-263, 290-583). */
module RelaySession {
  import opened RelayTypes

  // ---- the operation each op kind would post from the current fields ----

  function FlightOf(c: Fields, k: Kind): Flight {
    match k
    case RecvReq => Flight(k, c.clientFD, [], if c.reqN <= |c.reqBuf| then |c.reqBuf| - c.reqN else 0)
    case ReplyClient => Flight(k, c.clientFD, Slice(c.replyBuf, c.replyOff, c.replyEnd), 0)
    case ReplyMore => Flight(k, c.clientFD, Slice(c.replyBuf, c.replyOff, c.replyEnd), 0)
    case RejectSend => Flight(k, c.clientFD, Slice(c.replyBuf, c.replyOff, c.replyEnd), 0)
    case SendUp => Flight(k, c.upstreamFD, Slice(c.reqBuf, c.initSent, c.reqN), 0)
    case C2URecv => Flight(k, c.clientFD, [], |c.c2uBuf|)
    case C2USend => Flight(k, c.upstreamFD, Slice(c.c2uBuf, c.c2uOff, c.c2uEnd), 0)
    case U2CRecv => Flight(k, c.upstreamFD, [], |c.u2cBuf|)
    case U2CSend => Flight(k, c.clientFD, Slice(c.u2cBuf, c.u2cOff, c.u2cEnd), 0)
  }

  function Post(s: Session, k: Kind): Session {
    s.(flights := s.flights + multiset{FlightOf(s.c, k)})
  }

  // ---- the closures of runWorker ----

  function FdIfOpen(fd: int): multiset<int> {
    if fd > 0 then multiset{fd} else multiset{}
  }

  /** A close of `fd` is posted if there is a descriptor. */
  function WithClose(m: multiset<int>, fd: int): multiset<int> {
    if fd > 0 then m + multiset{fd} else m
  }

  function CloseConn(s: Session): Session {
    if s.c.closing then s else
    var n := (if s.c.clientFD > 0 then 1 else 0) + (if s.c.upstreamFD > 0 then 1 else 0);
    s.(c := s.c.(closing := true, closesLeft := n),
       closes := WithClose(WithClose(s.closes, s.c.clientFD), s.c.upstreamFD),
       unclosed := WithClose(WithClose(s.unclosed, s.c.clientFD), s.c.upstreamFD),
       mapped := s.mapped && n != 0)
  }

  function Fail(s: Session): Session {
    CloseConn(if s.c.counted then s else s.(c := s.c.(counted := true), h := s.h.(errors := s.h.errors + 1)))
  }

  function StartDuplex(cfg: Cfg, s: Session): Session {
    var c := s.c.(relayStarted := true, reqBuf := [], replyBuf := [],
                  c2uBuf := Zeros(cfg.bufSize), u2cBuf := Zeros(cfg.bufSize));
    Post(Post(s.(c := c), C2URecv), U2CRecv)
  }

  function CanGrow(cfg: Cfg, c: Fields): bool {
    c.reqN < |c.reqBuf| || |c.reqBuf| < cfg.maxReqLen
  }

  function GrowReq(cfg: Cfg, c: Fields): Fields {
    if c.reqN < |c.reqBuf| || |c.reqBuf| >= cfg.maxReqLen then c else
    var n := if |c.reqBuf| * 2 > cfg.maxReqLen then cfg.maxReqLen else |c.reqBuf| * 2;
    c.(reqBuf := Stored(Zeros(n), 0, Slice(c.reqBuf, 0, c.reqN)))
  }

  function ForwardInit(cfg: Cfg, s: Session): Session {
    if s.c.initSent >= s.c.reqN then StartDuplex(cfg, s) else Post(s, SendUp)
  }

  // ---- a new connection ----

  function NoHist(): Hist {
    Hist([], [], [], [], [], false, 0, [], 0, 0, 0, 0, 0, 0, 0, 0, 0)
  }

  function Accepted(cfg: Cfg, tick: nat, fd: int): Session {
    var c := Fields(fd, 0, Zeros(cfg.initialReqLen), 0, 0, [], 0, 0, false, 0, false, false, tick,
                    [], [], 0, 0, 0, 0, false, false);
    Post(Session(c, true, multiset{}, multiset{}, multiset{}, [], [], NoHist()), RecvReq)
  }

  // ---- completions of data operations ----

  predicate IsRecv(k: Kind) {
    k == RecvReq || k == C2URecv || k == U2CRecv
  }

  /** What the kernel may report for `f`: an error, or a count within the operation's bounds. */
  predicate ResultOk(f: Flight, res: int, data: seq<byte>) {
    if IsRecv(f.kind) then res <= f.room && |data| == (if res > 0 then res else 0)
    else res <= |f.data| && data == []
  }

  /** The bytes that crossed a socket when `f` completed with `res`. */
  function Observed(h: Hist, f: Flight, res: int, data: seq<byte>): Hist {
    if res <= 0 then h else
    match f.kind
    case RecvReq => h.(clientIn := h.clientIn + data)
    case C2URecv => h.(clientIn := h.clientIn + data)
    case U2CRecv => h.(upIn := h.upIn + data)
    case SendUp => h.(upOut := h.upOut + Slice(f.data, 0, res))
    case C2USend => h.(upOut := h.upOut + Slice(f.data, 0, res))
    case ReplyClient => h.(clientOut := h.clientOut + Slice(f.data, 0, res))
    case ReplyMore => h.(clientOut := h.clientOut + Slice(f.data, 0, res))
    case RejectSend => h.(clientOut := h.clientOut + Slice(f.data, 0, res))
    case U2CSend => h.(clientOut := h.clientOut + Slice(f.data, 0, res))
  }

  function OnRecvReq(s: Session, tick: nat, res: int, data: seq<byte>): Session {
    if res <= 0 then Fail(s) else
    var c := s.c.(reqBuf := Stored(s.c.reqBuf, s.c.reqN, data), reqN := s.c.reqN + res, lastTick := tick);
    var req := Slice(c.reqBuf, 0, c.reqN);
    s.(c := c, jobs := s.jobs + [req], h := s.h.(seen := s.h.seen + [req]))
  }

  function OnReply(cfg: Cfg, s: Session, k: Kind, res: int): Session {
    if res <= 0 then (if k == RejectSend then CloseConn(s) else Fail(s)) else
    var t := s.(c := s.c.(replyOff := s.c.replyOff + res));
    if t.c.replyOff < t.c.replyEnd then Post(t, k)
    else match k
    case ReplyClient => ForwardInit(cfg, t)
    case ReplyMore => Post(t, RecvReq)
    case _ => CloseConn(t)
  }

  function OnSendUp(cfg: Cfg, s: Session, res: int): Session {
    if res <= 0 then Fail(s) else
    var t := s.(c := s.c.(initSent := s.c.initSent + res), h := s.h.(bytesUp := s.h.bytesUp + res));
    if t.c.initSent < t.c.reqN then Post(t, SendUp) else StartDuplex(cfg, t)
  }

  function OnC2URecv(s: Session, tick: nat, res: int, data: seq<byte>): Session {
    if res < 0 then Fail(s)
    else if res == 0 then
      var t := s.(c := s.c.(clientReadDone := true), h := s.h.(shutUp := s.h.shutUp + 1));
      if t.c.upstreamReadDone then CloseConn(t) else t
    else
      Post(s.(c := s.c.(c2uBuf := Stored(s.c.c2uBuf, 0, data), lastTick := tick, c2uOff := 0, c2uEnd := res),
              h := s.h.(bytesUp := s.h.bytesUp + res)), C2USend)
  }

  function NextC2U(s: Session): Session {
    if s.c.c2uOff < s.c.c2uEnd then Post(s, C2USend)
    else if !s.c.clientReadDone then Post(s, C2URecv) else s
  }

  function OnC2USend(s: Session, res: int): Session {
    if res <= 0 then Fail(s) else NextC2U(s.(c := s.c.(c2uOff := s.c.c2uOff + res)))
  }

  function OnU2CRecv(s: Session, tick: nat, res: int, data: seq<byte>): Session {
    if res < 0 then Fail(s)
    else if res == 0 then
      var t := s.(c := s.c.(upstreamReadDone := true), h := s.h.(shutClient := s.h.shutClient + 1));
      if t.c.clientReadDone then CloseConn(t) else t
    else
      Post(s.(c := s.c.(u2cBuf := Stored(s.c.u2cBuf, 0, data), lastTick := tick, u2cOff := 0, u2cEnd := res),
              h := s.h.(bytesDown := s.h.bytesDown + res)), U2CSend)
  }

  function NextU2C(s: Session): Session {
    if s.c.u2cOff < s.c.u2cEnd then Post(s, U2CSend)
    else if !s.c.upstreamReadDone then Post(s, U2CRecv) else s
  }

  function OnU2CSend(s: Session, res: int): Session {
    if res <= 0 then Fail(s) else NextU2C(s.(c := s.c.(u2cOff := s.c.u2cOff + res)))
  }

  /** The kernel is done with `f`: what moved is recorded and the operation is no longer in flight. */
  function Harvested(s: Session, f: Flight, res: int, data: seq<byte>): Session {
    s.(flights := s.flights - multiset{f}, h := Observed(s.h, f, res, data))
  }

  /** The completion of `f`. One that arrives for a connection that is gone or closing changes
      nothing but the record of what crossed the socket. */
  function Complete(cfg: Cfg, s: Session, tick: nat, f: Flight, res: int, data: seq<byte>): Session {
    var t := Harvested(s, f, res, data);
    if !s.mapped || s.c.closing then t else
    match f.kind
    case RecvReq => OnRecvReq(t, tick, res, data)
    case SendUp => OnSendUp(cfg, t, res)
    case C2URecv => OnC2URecv(t, tick, res, data)
    case C2USend => OnC2USend(t, res)
    case U2CRecv => OnU2CRecv(t, tick, res, data)
    case U2CSend => OnU2CSend(t, res)
    case _ => OnReply(cfg, t, f.kind, res)
  }

  /** The completion of a close (opClose): the last one takes the connection out of the map, and
      charges it as completed if it relayed and nothing else charged it. */
  function CloseDone(s: Session, fd: int): Session {
    var t := s.(closes := s.closes - multiset{fd});
    if !s.mapped then t else
    var u := t.(c := t.c.(closesLeft := t.c.closesLeft - 1));
    if u.c.closesLeft > 0 then u else
    u.(mapped := false,
       h := if !u.c.counted && u.c.relayStarted then u.h.(completed := u.h.completed + 1) else u.h)
  }

  // ---- Hook results ----

  /** A Hook that asks for a relay has dialled the upstream. */
  predicate DecisionOk(d: Decision) {
    !d.reject && !d.more ==> d.upstreamFD > 0
  }

  function Clamp(consumed: int, reqN: nat): nat {
    if consumed < 0 then 0 else if consumed > reqN then reqN else consumed
  }

  /** `reply` becomes the pending reply and its send is posted as `k`. */
  function SendReply(s: Session, reply: seq<byte>, k: Kind): Session {
    Post(s.(c := s.c.(replyBuf := reply, replyOff := 0, replyEnd := |reply|),
            h := s.h.(replied := s.h.replied + reply)), k)
  }

  /** A drained result applied to a connection that is in the map and not closing. */
  function Apply(cfg: Cfg, s: Session, tick: nat, d: Decision): Session {
    var t := s.(c := s.c.(lastTick := tick));
    if d.reject then
      var u := t.(c := t.c.(counted := true), h := t.h.(rejected := t.h.rejected + 1));
      if |d.reply| > 0 then SendReply(u, d.reply, RejectSend) else CloseConn(u)
    else if d.more then
      if !CanGrow(cfg, t.c) then Fail(t) else
      var u := t.(c := GrowReq(cfg, t.c));
      if |d.reply| > 0 then SendReply(u, d.reply, ReplyMore) else Post(u, RecvReq)
    else
      var n := Clamp(d.consumed, t.c.reqN);
      var u := t.(c := t.c.(upstreamFD := d.upstreamFD, initSent := n), h := t.h.(decided := true, consumed := n));
      if |d.reply| > 0 then SendReply(u, d.reply, ReplyClient) else ForwardInit(cfg, u)
  }

  /** One result taken off the ready list. */
  function Drain(cfg: Cfg, s: Session, tick: nat, d: Decision): Session {
    var t := if s.results == [] then s else s.(results := s.results[1..]);
    if !s.mapped || s.c.closing then t else Apply(cfg, t, tick, d)
  }

  /** Whether a drained result's descriptor is taken over by the connection (and not closed on the spot). */
  predicate Adopts(s: Session, d: Decision) {
    s.mapped && !s.c.closing && !d.reject && !d.more
  }

  /** The pool answers the k-th outstanding request of the connection. */
  function Returned(s: Session, k: nat, d: Decision): Session
    requires k < |s.jobs|
  {
    s.(jobs := s.jobs[..k] + s.jobs[k + 1..], results := s.results + [d])
  }

  // ---- the idle sweep ----

  predicate Quiet(cfg: Cfg, s: Session, tick: nat) {
    s.mapped && !s.c.closing && tick - s.c.lastTick > cfg.idleTicks
  }

  function Sweep(cfg: Cfg, s: Session, tick: nat): Session {
    if !Quiet(cfg, s, tick) then s else
    CloseConn(s.(c := s.c.(counted := true),
                 h := s.h.(idle := s.h.idle + 1, again := s.h.again + (if s.c.counted then 1 else 0))))
  }

  /** The kernel carries out a close it was asked for. */
  function KernelClosed(s: Session, fd: int): Session {
    s.(unclosed := s.unclosed - multiset{fd})
  }
}
