/** What each event does, said of the world and not of the handlers: what is in flight afterwards, to whom and
    with which bytes, what is charged, and what ends (flashrelay/worker.go:236-263, 288-583). */
module RelayEffects {
  import opened Basics
  import opened RelayTypes
  import opened RelaySession
  import opened RelayInv
  import opened RelaySteps
  import opened RelayDecide
  import opened RelayWorld
  import opened RelaySums
  import opened RelaySafety
  import opened RelayLaws

  // ---- what can become of a connection ----

  predicate SameCharges(a: Hist, b: Hist) {
    && a.completed == b.completed && a.rejected == b.rejected && a.idle == b.idle && a.errors == b.errors
    && a.again == b.again
  }

  /** It lives on, uncharged, on the same client. */
  predicate GoesOn(s: Session, t: Session) {
    && t.mapped && !t.c.closing && SameCharges(t.h, s.h) && t.c.counted == s.c.counted
    && t.c.clientFD == s.c.clientFD && t.closes == s.closes && t.unclosed == s.unclosed
  }

  /** A connection's descriptors. */
  function Descriptors(c: Fields): multiset<int> {
    multiset{c.clientFD} + if c.upstreamFD > 0 then multiset{c.upstreamFD} else multiset{}
  }

  /** It stays in the map with one close posted and counted for each of its descriptors, and nothing else. */
  predicate Closes(s: Session, t: Session) {
    var fds := Descriptors(s.c);
    && t.mapped && t.c.closing && t.c.closesLeft == |fds|
    && t.closes == s.closes + fds && t.unclosed == s.unclosed + fds
    && t.flights <= s.flights && t.jobs <= s.jobs && t.results <= s.results
  }

  /** It ends as an error. */
  predicate Errs(s: Session, t: Session) {
    Closes(s, t) && t.c.counted && t.h.errors == s.h.errors + 1 && SameCharges(t.h.(errors := s.h.errors), s.h)
  }

  /** It ends, and is charged no more than it was. */
  predicate Finishes(s: Session, t: Session) {
    Closes(s, t) && t.c.counted == s.c.counted && SameCharges(t.h, s.h)
  }

  predicate NoHookWork(t: Session) {
    t.jobs == [] && t.results == []
  }

  /** The relay begins: a whole buffer is read from each peer. */
  predicate Relays(cfg: Cfg, t: Session, clientFD: int, upFD: int) {
    t.flights == multiset{Flight(C2URecv, clientFD, [], cfg.bufSize), Flight(U2CRecv, upFD, [], cfg.bufSize)}
  }

  /** What is left of the request, if anything, is sent to the upstream; otherwise the relay begins. */
  predicate Forwards(cfg: Cfg, t: Session, clientFD: int, upFD: int, rest: seq<byte>) {
    if rest != [] then t.flights == multiset{Flight(SendUp, upFD, rest, 0)} else Relays(cfg, t, clientFD, upFD)
  }

  /** The client is read into the rest of the buffer, which is not empty. */
  predicate ReadsOn(t: Session, clientFD: int) {
    t.c.reqN < |t.c.reqBuf| && t.flights == multiset{Flight(RecvReq, clientFD, [], |t.c.reqBuf| - t.c.reqN)}
  }

  /** The client's bytes that were not yet taken by the upstream. */
  function Untaken(h: Hist): seq<byte> {
    Slice(h.clientIn, h.consumed + |h.upOut|, |h.clientIn|)
  }

  // ---- completions ----

  /** The send of what a send did not take. */
  function Rest(f: Flight, res: int): Flight {
    if 0 <= res <= |f.data| then f.(data := f.data[res..]) else f
  }

  /** What the completion of `f`, which succeeded, leads to. */
  ghost predicate Follows(cfg: Cfg, s: Session, f: Flight, res: int, data: seq<byte>, t: Session) {
    var others := s.flights - multiset{f};
    var partly := multiset{Rest(f, res)};
    match f.kind
    case RecvReq =>
      GoesOn(s, t) && t.flights == multiset{} && t.results == [] && t.jobs == [s.h.clientIn + data]
    case RejectSend =>
      if res < |f.data| then GoesOn(s, t) && NoHookWork(t) && t.flights == partly else Finishes(s, t)
    case ReplyMore =>
      && GoesOn(s, t) && NoHookWork(t) && t.c.reqBuf == s.c.reqBuf && t.c.reqN == s.c.reqN
      && if res < |f.data| then t.flights == partly else ReadsOn(t, s.c.clientFD)
    case ReplyClient =>
      && GoesOn(s, t) && NoHookWork(t) && t.c.upstreamFD == s.c.upstreamFD
      && if res < |f.data| then t.flights == partly else Forwards(cfg, t, s.c.clientFD, s.c.upstreamFD, Untaken(s.h))
    case SendUp =>
      && GoesOn(s, t) && NoHookWork(t) && t.c.upstreamFD == s.c.upstreamFD
      && if res < |f.data| then t.flights == partly else Relays(cfg, t, s.c.clientFD, s.c.upstreamFD)
    case C2URecv =>
      && NoHookWork(t) && t.c.upstreamFD == s.c.upstreamFD
      && if res > 0 then GoesOn(s, t) && t.flights == others + multiset{Flight(C2USend, s.c.upstreamFD, data, 0)}
         else t.flights == others && t.h.shutUp == s.h.shutUp + 1 && if s.c.upstreamReadDone then Finishes(s, t) else GoesOn(s, t)
    case C2USend =>
      && GoesOn(s, t) && NoHookWork(t) && t.c.upstreamFD == s.c.upstreamFD
      && t.flights == others + if res < |f.data| then partly else multiset{Flight(C2URecv, s.c.clientFD, [], cfg.bufSize)}
    case U2CRecv =>
      && NoHookWork(t) && t.c.upstreamFD == s.c.upstreamFD
      && if res > 0 then GoesOn(s, t) && t.flights == others + multiset{Flight(U2CSend, s.c.clientFD, data, 0)}
         else t.flights == others && t.h.shutClient == s.h.shutClient + 1 && if s.c.clientReadDone then Finishes(s, t) else GoesOn(s, t)
    case U2CSend =>
      && GoesOn(s, t) && NoHookWork(t) && t.c.upstreamFD == s.c.upstreamFD
      && t.flights == others + if res < |f.data| then partly else multiset{Flight(U2CRecv, s.c.upstreamFD, [], cfg.bufSize)}
  }

  lemma CloseIs(t: Session)
    requires t.mapped && !t.c.closing && t.c.clientFD > 0
    ensures CloseConn(t) == t.(c := t.c.(closing := true, closesLeft := |Descriptors(t.c)|),
                               closes := t.closes + Descriptors(t.c), unclosed := t.unclosed + Descriptors(t.c))
  {
    var one := t.closes + multiset{t.c.clientFD} + multiset{t.c.upstreamFD};
    assert t.c.upstreamFD > 0 ==> t.closes + Descriptors(t.c) == one;
  }

  lemma HarvestedKeeps(s: Session, f: Flight, res: int, data: seq<byte>)
    ensures var h := Harvested(s, f, res, data);
            h == s.(flights := h.flights, h := h.h) && h.flights <= s.flights && SameCharges(h.h, s.h)
            && h.h.shutUp == s.h.shutUp && h.h.shutClient == s.h.shutClient
  {
  }

  lemma FailedEffect(cfg: Cfg, s: Session, tick: nat, f: Flight, res: int, data: seq<byte>)
    requires GoodCfg(cfg) && Active(cfg, s, tick) && f in s.flights && ResultOk(f, res, data) && Failed(f.kind, res)
    ensures var t := Complete(cfg, s, tick, f, res, data); if f.kind == RejectSend then Finishes(s, t) else Errs(s, t)
  {
    hide InSomePhase, FlightOf, SeenOk, Charged, CloseConn, Harvested;
    PhaseQuiet(cfg, s, tick, f);
    var h := Harvested(s, f, res, data);
    HarvestedKeeps(s, f, res, data);
    CloseIs(h);
    CloseIs(h.(c := h.c.(counted := true), h := h.h.(errors := h.h.errors + 1)));
  }

  lemma OneFlight(cfg: Cfg, s: Session, tick: nat, f: Flight)
    requires Active(cfg, s, tick) && f in s.flights && !s.c.relayStarted
    ensures s.flights == multiset{f} && s.flights - multiset{f} == multiset{}
  {
    hide SeenOk, Charged, Slice;
    PhaseOfFlight(cfg, s, tick, f);
  }

  lemma RequestEffect(cfg: Cfg, s: Session, tick: nat, f: Flight, res: int, data: seq<byte>)
    requires GoodCfg(cfg) && Active(cfg, s, tick) && f in s.flights && ResultOk(f, res, data)
    requires f.kind == RecvReq && res > 0
    ensures Follows(cfg, s, f, res, data, Complete(cfg, s, tick, f, res, data))
  {
    hide SeenOk, Charged, Fail;
    PhaseOfFlight(cfg, s, tick, f);
    var t := Complete(cfg, s, tick, f, res, data);
    assert Slice(t.c.reqBuf, 0, t.c.reqN) == s.h.clientIn + data;
    assert t.flights == multiset{};
  }

  lemma ReplyPartEffect(cfg: Cfg, s: Session, tick: nat, f: Flight, res: int)
    requires GoodCfg(cfg) && Active(cfg, s, tick) && f in s.flights && ResultOk(f, res, [])
    requires IsReply(f.kind) && 0 < res < |f.data|
    ensures Follows(cfg, s, f, res, [], Complete(cfg, s, tick, f, res, []))
  {
    hide SeenOk, Charged, Fail, ForwardInit, CloseConn;
    PhaseOfFlight(cfg, s, tick, f);
    var t := Complete(cfg, s, tick, f, res, []);
    assert FlightOf(t.c, f.kind) == Rest(f, res);
    assert t.flights == multiset{Rest(f, res)};
  }

  lemma ReplyEndEffect(cfg: Cfg, s: Session, tick: nat, f: Flight, res: int)
    requires GoodCfg(cfg) && Active(cfg, s, tick) && f in s.flights && ResultOk(f, res, [])
    requires IsReply(f.kind) && f.kind != ReplyClient && 0 < res == |f.data|
    ensures Follows(cfg, s, f, res, [], Complete(cfg, s, tick, f, res, []))
  {
    hide SeenOk, Charged, Fail, ForwardInit, CloseConn;
    PhaseOfFlight(cfg, s, tick, f);
    var h := Harvested(s, f, res, []);
    HarvestedKeeps(s, f, res, []);
    CloseIs(h.(c := h.c.(replyOff := h.c.replyOff + res)));
    assert h.flights == multiset{};
  }

  lemma StartsRelay(cfg: Cfg, s: Session)
    requires Live(s) && s.flights == multiset{}
    ensures var t := StartDuplex(cfg, s);
            && Relays(cfg, t, s.c.clientFD, s.c.upstreamFD) && GoesOn(s, t) && t.c.upstreamFD == s.c.upstreamFD
            && t.jobs == s.jobs && t.results == s.results
  {
    var t := StartDuplex(cfg, s);
    assert t.flights == multiset{} + multiset{FlightOf(t.c, C2URecv)} + multiset{FlightOf(t.c, U2CRecv)};
  }

  /** The unsent part of the request is what the upstream has not taken. */
  lemma ForwardsRest(cfg: Cfg, s: Session)
    requires Live(s) && s.flights == multiset{} && s.c.reqN <= |s.c.reqBuf| && s.h.clientIn == s.c.reqBuf[..s.c.reqN]
    requires s.h.consumed + |s.h.upOut| == s.c.initSent <= s.c.reqN
    ensures var t := ForwardInit(cfg, s);
            && Forwards(cfg, t, s.c.clientFD, s.c.upstreamFD, Untaken(s.h)) && GoesOn(s, t) && t.c.upstreamFD == s.c.upstreamFD
            && t.jobs == s.jobs && t.results == s.results
  {
    hide Relays, StartDuplex;
    StartsRelay(cfg, s);
    assert Slice(s.c.reqBuf, s.c.initSent, s.c.reqN) == Untaken(s.h);
    assert multiset{} + multiset{FlightOf(s.c, SendUp)} == multiset{FlightOf(s.c, SendUp)};
  }

  lemma RepliedEffect(cfg: Cfg, s: Session, tick: nat, f: Flight, res: int)
    requires GoodCfg(cfg) && Active(cfg, s, tick) && f in s.flights && ResultOk(f, res, [])
    requires f.kind == ReplyClient && 0 < res == |f.data|
    ensures Follows(cfg, s, f, res, [], Complete(cfg, s, tick, f, res, []))
  {
    hide SeenOk, Charged, Fail, ForwardInit, CloseConn, Forwards, Untaken, FlightOf;
    PhaseOfFlight(cfg, s, tick, f);
    OneFlight(cfg, s, tick, f);
    var h := Harvested(s, f, res, []);
    ReplyLength(s.c, f);
    ForwardsRest(cfg, h.(c := h.c.(replyOff := h.c.replyOff + res)));
    SameUntaken(s.h, h.h);
  }

  lemma ReplyLength(c: Fields, f: Flight)
    requires f == FlightOf(c, f.kind) && IsReply(f.kind) && c.replyOff <= c.replyEnd <= |c.replyBuf|
    ensures |f.data| == c.replyEnd - c.replyOff
  {
  }

  lemma SameUntaken(a: Hist, b: Hist)
    requires a.clientIn == b.clientIn && a.consumed == b.consumed && a.upOut == b.upOut
    ensures Untaken(a) == Untaken(b)
  {
  }

  lemma RequestSentEffect(cfg: Cfg, s: Session, tick: nat, f: Flight, res: int)
    requires GoodCfg(cfg) && Active(cfg, s, tick) && f in s.flights && ResultOk(f, res, [])
    requires f.kind == SendUp && 0 < res
    ensures Follows(cfg, s, f, res, [], Complete(cfg, s, tick, f, res, []))
  {
    hide SeenOk, Charged, Fail, CloseConn, StartDuplex, Relays;
    PhaseOfFlight(cfg, s, tick, f);
    OneFlight(cfg, s, tick, f);
    var h := Harvested(s, f, res, []);
    var t := h.(c := h.c.(initSent := h.c.initSent + res), h := h.h.(bytesUp := h.h.bytesUp + res));
    StartsRelay(cfg, t);
    if res < |f.data| {
      assert FlightOf(t.c, SendUp) == Rest(f, res);
    }
  }

  // ---- the relay ----

  /** What holds of a connection that relays. */
  predicate Relaying(cfg: Cfg, s: Session) {
    && s.mapped && !s.c.closing && s.c.clientFD > 0 && s.c.upstreamFD > 0 && NoHookWork(s)
    && |s.c.c2uBuf| == |s.c.u2cBuf| == cfg.bufSize
    && s.c.c2uOff <= s.c.c2uEnd <= cfg.bufSize && s.c.u2cOff <= s.c.u2cEnd <= cfg.bufSize
  }

  lemma RelaysNow(cfg: Cfg, s: Session, tick: nat, f: Flight)
    requires Active(cfg, s, tick) && f in s.flights
    requires f.kind == C2URecv || f.kind == C2USend || f.kind == U2CRecv || f.kind == U2CSend
    ensures Relaying(cfg, s) && f == FlightOf(s.c, f.kind)
    ensures f.kind == C2URecv || f.kind == C2USend ==> !s.c.clientReadDone
    ensures f.kind == U2CRecv || f.kind == U2CSend ==> !s.c.upstreamReadDone
  {
    hide SeenOk, Charged;
    PhaseOfFlight(cfg, s, tick, f);
  }

  lemma StoredSlice(b: seq<byte>, data: seq<byte>)
    requires |data| <= |b|
    ensures Slice(Stored(b, 0, data), 0, |data|) == data
  {
  }

  lemma ClientReadEffect(cfg: Cfg, s: Session, tick: nat, f: Flight, res: int, data: seq<byte>)
    requires Relaying(cfg, s) && f == FlightOf(s.c, C2URecv) && f in s.flights && ResultOk(f, res, data) && res > 0
    ensures Follows(cfg, s, f, res, data, Complete(cfg, s, tick, f, res, data))
  {
    hide Fail, CloseConn, Harvested, Closes, Forwards, Relays, ReadsOn, Rest, Stored;
    HarvestedKeeps(s, f, res, data);
    HarvestedFlights(s, f, res, data);
    StoredSlice(s.c.c2uBuf, data);
  }

  lemma UpstreamReadEffect(cfg: Cfg, s: Session, tick: nat, f: Flight, res: int, data: seq<byte>)
    requires Relaying(cfg, s) && f == FlightOf(s.c, U2CRecv) && f in s.flights && ResultOk(f, res, data) && res > 0
    ensures Follows(cfg, s, f, res, data, Complete(cfg, s, tick, f, res, data))
  {
    hide Fail, CloseConn, Harvested, Closes, Forwards, Relays, ReadsOn, Rest, Stored;
    HarvestedKeeps(s, f, res, data);
    HarvestedFlights(s, f, res, data);
    StoredSlice(s.c.u2cBuf, data);
  }

  lemma ClientEofEffect(cfg: Cfg, s: Session, tick: nat, f: Flight)
    requires Relaying(cfg, s) && f.kind == C2URecv && f in s.flights
    ensures Follows(cfg, s, f, 0, [], Complete(cfg, s, tick, f, 0, []))
  {
    hide Fail, CloseConn, Harvested;
    HarvestedKeeps(s, f, 0, []);
    var h := Harvested(s, f, 0, []);
    HarvestedFlights(s, f, 0, []);
    CloseIs(h.(c := h.c.(clientReadDone := true), h := h.h.(shutUp := h.h.shutUp + 1)));
  }

  lemma UpstreamEofEffect(cfg: Cfg, s: Session, tick: nat, f: Flight)
    requires Relaying(cfg, s) && f.kind == U2CRecv && f in s.flights
    ensures Follows(cfg, s, f, 0, [], Complete(cfg, s, tick, f, 0, []))
  {
    hide Fail, CloseConn, Harvested;
    HarvestedKeeps(s, f, 0, []);
    var h := Harvested(s, f, 0, []);
    HarvestedFlights(s, f, 0, []);
    CloseIs(h.(c := h.c.(upstreamReadDone := true), h := h.h.(shutClient := h.h.shutClient + 1)));
  }

  lemma HarvestedFlights(s: Session, f: Flight, res: int, data: seq<byte>)
    ensures Harvested(s, f, res, data).flights == s.flights - multiset{f}
  {
  }

  lemma RestIs(c: Fields, f: Flight, res: int)
    requires f == FlightOf(c, f.kind) && 0 < res <= |f.data|
    ensures f.kind == C2USend && c.c2uOff <= c.c2uEnd <= |c.c2uBuf| ==>
              |f.data| == c.c2uEnd - c.c2uOff
              && (res < |f.data| ==> FlightOf(c.(c2uOff := c.c2uOff + res), C2USend) == Rest(f, res))
    ensures f.kind == U2CSend && c.u2cOff <= c.u2cEnd <= |c.u2cBuf| ==>
              |f.data| == c.u2cEnd - c.u2cOff
              && (res < |f.data| ==> FlightOf(c.(u2cOff := c.u2cOff + res), U2CSend) == Rest(f, res))
  {
  }

  lemma UpNext(cfg: Cfg, s: Session)
    requires |s.c.c2uBuf| == cfg.bufSize && !s.c.clientReadDone
    ensures NextC2U(s) == s.(flights := s.flights + multiset{
              if s.c.c2uOff < s.c.c2uEnd then FlightOf(s.c, C2USend) else Flight(C2URecv, s.c.clientFD, [], cfg.bufSize)})
  {
  }

  lemma ToUpstreamEffect(cfg: Cfg, s: Session, tick: nat, f: Flight, res: int)
    requires Relaying(cfg, s) && f == FlightOf(s.c, C2USend) && f.kind == C2USend && f in s.flights && ResultOk(f, res, []) && res > 0
    requires !s.c.clientReadDone
    ensures Follows(cfg, s, f, res, [], Complete(cfg, s, tick, f, res, []))
  {
    hide Fail, CloseConn, Harvested, Closes, Rest, FlightOf, NextC2U;
    RestIs(s.c, f, res);
    HarvestedKeeps(s, f, res, []);
    HarvestedFlights(s, f, res, []);
    var h := Harvested(s, f, res, []);
    UpNext(cfg, h.(c := h.c.(c2uOff := h.c.c2uOff + res)));
  }

  lemma DownNext(cfg: Cfg, s: Session)
    requires |s.c.u2cBuf| == cfg.bufSize && !s.c.upstreamReadDone
    ensures NextU2C(s) == s.(flights := s.flights + multiset{
              if s.c.u2cOff < s.c.u2cEnd then FlightOf(s.c, U2CSend) else Flight(U2CRecv, s.c.upstreamFD, [], cfg.bufSize)})
  {
  }

  lemma ToClientEffect(cfg: Cfg, s: Session, tick: nat, f: Flight, res: int)
    requires Relaying(cfg, s) && f == FlightOf(s.c, U2CSend) && f.kind == U2CSend && f in s.flights && ResultOk(f, res, []) && res > 0
    requires !s.c.upstreamReadDone
    ensures Follows(cfg, s, f, res, [], Complete(cfg, s, tick, f, res, []))
  {
    hide Fail, CloseConn, Harvested, Closes, Rest, FlightOf, NextU2C;
    RestIs(s.c, f, res);
    HarvestedKeeps(s, f, res, []);
    HarvestedFlights(s, f, res, []);
    var h := Harvested(s, f, res, []);
    DownNext(cfg, h.(c := h.c.(u2cOff := h.c.u2cOff + res)));
  }

  /** Every completion of a live connection: a failure ends it, as an error unless it was a reject's reply; any
      other leads to exactly what its kind, count and bytes call for. */
  lemma CompletionEffect(cfg: Cfg, s: Session, tick: nat, f: Flight, res: int, data: seq<byte>)
    requires GoodCfg(cfg) && Active(cfg, s, tick) && f in s.flights && ResultOk(f, res, data)
    ensures var t := Complete(cfg, s, tick, f, res, data);
            if res < 0 || (res == 0 && f.kind != C2URecv && f.kind != U2CRecv) then
              if f.kind == RejectSend then Finishes(s, t) else Errs(s, t)
            else Follows(cfg, s, f, res, data, t)
  {
    hide Active, Complete, Follows, Errs, Finishes, Relaying, FlightOf;
    if Failed(f.kind, res) {
      FailedEffect(cfg, s, tick, f, res, data);
    } else {
      match f.kind
      case RecvReq => RequestEffect(cfg, s, tick, f, res, data);
      case SendUp => RequestSentEffect(cfg, s, tick, f, res);
      case ReplyClient => ReplyEffect(cfg, s, tick, f, res);
      case ReplyMore => ReplyEffect(cfg, s, tick, f, res);
      case RejectSend => ReplyEffect(cfg, s, tick, f, res);
      case C2URecv =>
        RelaysNow(cfg, s, tick, f);
        if res > 0 { ClientReadEffect(cfg, s, tick, f, res, data); } else { ClientEofEffect(cfg, s, tick, f); }
      case U2CRecv =>
        RelaysNow(cfg, s, tick, f);
        if res > 0 { UpstreamReadEffect(cfg, s, tick, f, res, data); } else { UpstreamEofEffect(cfg, s, tick, f); }
      case C2USend =>
        RelaysNow(cfg, s, tick, f);
        ToUpstreamEffect(cfg, s, tick, f, res);
      case U2CSend =>
        RelaysNow(cfg, s, tick, f);
        ToClientEffect(cfg, s, tick, f, res);
    }
  }

  lemma ReplyEffect(cfg: Cfg, s: Session, tick: nat, f: Flight, res: int)
    requires GoodCfg(cfg) && Active(cfg, s, tick) && f in s.flights && ResultOk(f, res, []) && IsReply(f.kind) && 0 < res
    ensures Follows(cfg, s, f, res, [], Complete(cfg, s, tick, f, res, []))
  {
    hide Active, Complete, Follows;
    if res < |f.data| {
      ReplyPartEffect(cfg, s, tick, f, res);
    } else if f.kind == ReplyClient {
      RepliedEffect(cfg, s, tick, f, res);
    } else {
      ReplyEndEffect(cfg, s, tick, f, res);
    }
  }

  // ---- the Hook's answers ----

  /** The reply goes to the client, whole. */
  predicate Sends(t: Session, k: Kind, clientFD: int, reply: seq<byte>) {
    t.flights == multiset{Flight(k, clientFD, reply, 0)}
  }

  /** Rejected: charged once, and alive until its reply, if it has one, is sent. */
  predicate Rejects(s: Session, d: Decision, t: Session) {
    && t.c.counted && t.h.rejected == s.h.rejected + 1 && SameCharges(t.h.(rejected := s.h.rejected), s.h)
    && if d.reply == [] then Closes(s, t)
       else t.mapped && !t.c.closing && t.closes == s.closes && Sends(t, RejectSend, s.c.clientFD, d.reply)
  }

  /** More of the request is wanted: it goes on if and only if there is room for it, in the buffer or, doubled, up
      to the cap; after the reply, if there is one, the client is read on. */
  predicate ReadsMore(cfg: Cfg, s: Session, d: Decision, t: Session) {
    var size := |s.c.reqBuf|;
    if s.c.reqN >= size && size >= cfg.maxReqLen then Errs(s, t) else
    && GoesOn(s, t) && t.c.reqN == s.c.reqN < |t.c.reqBuf|
    && |t.c.reqBuf| == (if s.c.reqN < size then size else if 2 * size < cfg.maxReqLen then 2 * size else cfg.maxReqLen)
    && if d.reply != [] then Sends(t, ReplyMore, s.c.clientFD, d.reply) else ReadsOn(t, s.c.clientFD)
  }

  /** A relay: never charged, on the upstream that was dialled; after the reply, if there is one, what the Hook did
      not consume is forwarded. */
  predicate RelaysNext(cfg: Cfg, s: Session, d: Decision, t: Session) {
    var n := if d.consumed < 0 then 0 else if d.consumed > |s.h.clientIn| then |s.h.clientIn| else d.consumed;
    && GoesOn(s, t) && t.c.upstreamFD == d.upstreamFD
    && if d.reply != [] then Sends(t, ReplyClient, s.c.clientFD, d.reply)
       else Forwards(cfg, t, s.c.clientFD, d.upstreamFD, Slice(s.h.clientIn, n, |s.h.clientIn|))
  }

  lemma SendsReply(s: Session, reply: seq<byte>, k: Kind)
    requires s.flights == multiset{} && IsReply(k)
    ensures var t := SendReply(s, reply, k);
            Sends(t, k, s.c.clientFD, reply) && t.c == s.c.(replyBuf := reply, replyOff := 0, replyEnd := |reply|)
            && t == s.(c := t.c, flights := t.flights, h := s.h.(replied := s.h.replied + reply))
  {
    assert Slice(reply, 0, |reply|) == reply;
  }

  lemma GrowsTo(cfg: Cfg, c: Fields)
    requires 0 < |c.reqBuf| <= cfg.maxReqLen && c.reqN <= |c.reqBuf| && CanGrow(cfg, c)
    ensures var g := GrowReq(cfg, c); var size := |c.reqBuf|;
            && g == c.(reqBuf := g.reqBuf) && c.reqN < |g.reqBuf|
            && |g.reqBuf| == (if c.reqN < size then size else if 2 * size < cfg.maxReqLen then 2 * size else cfg.maxReqLen)
  {
  }

  lemma RejectEffect(cfg: Cfg, s: Session, tick: nat, d: Decision)
    requires Answered(cfg, s, tick) && d.reject
    ensures var t := Apply(cfg, s, tick, d); Rejects(s, d, t) && NoHookWork(t)
  {
    hide SendReply, CloseConn, Descriptors, SeenOk, Charged, PreRelay;
    var u := s.(c := s.c.(lastTick := tick, counted := true), h := s.h.(rejected := s.h.rejected + 1));
    SendsReply(u, d.reply, RejectSend);
    CloseIs(u);
    SameDescriptors(s.c, u.c);
  }

  lemma SameDescriptors(c: Fields, d: Fields)
    requires c.clientFD == d.clientFD && c.upstreamFD == d.upstreamFD
    ensures Descriptors(c) == Descriptors(d)
  {
  }

  lemma MoreEffect(cfg: Cfg, s: Session, tick: nat, d: Decision)
    requires GoodCfg(cfg) && Answered(cfg, s, tick) && !d.reject && d.more
    ensures var t := Apply(cfg, s, tick, d); ReadsMore(cfg, s, d, t) && NoHookWork(t)
  {
    hide SendReply, CloseConn, Descriptors, SeenOk, Charged, GrowReq;
    var u := s.(c := s.c.(lastTick := tick));
    if !CanGrow(cfg, u.c) {
      var v := u.(c := u.c.(counted := true), h := u.h.(errors := u.h.errors + 1));
      CloseIs(v);
      SameDescriptors(s.c, v.c);
    } else {
      GrowsTo(cfg, u.c);
      var v := u.(c := GrowReq(cfg, u.c));
      SendsReply(v, d.reply, ReplyMore);
      assert multiset{} + multiset{FlightOf(v.c, RecvReq)} == multiset{FlightOf(v.c, RecvReq)};
    }
  }

  lemma RelayEffect(cfg: Cfg, s: Session, tick: nat, d: Decision)
    requires GoodCfg(cfg) && Answered(cfg, s, tick) && !d.reject && !d.more
    ensures var t := Apply(cfg, s, tick, d); RelaysNext(cfg, s, d, t) && NoHookWork(t)
  {
    hide SendReply, SeenOk, Charged, ForwardInit, Forwards;
    var n := Clamp(d.consumed, s.c.reqN);
    var u := s.(c := s.c.(lastTick := tick, upstreamFD := d.upstreamFD, initSent := n),
                h := s.h.(decided := true, consumed := n));
    SendsReply(u, d.reply, ReplyClient);
    ForwardsRest(cfg, u);
  }

  /** What a drained answer does to a live connection. Reject wins over more, and more over a relay. */
  lemma DecisionEffect(cfg: Cfg, s: Session, tick: nat, d: Decision)
    requires GoodCfg(cfg) && Active(cfg, s, tick) && s.results != [] && d == s.results[0]
    ensures var t := Drain(cfg, s, tick, d);
            && t.c.lastTick == tick && NoHookWork(t)
            && if d.reject then Rejects(s, d, t) else if d.more then ReadsMore(cfg, s, d, t) else RelaysNext(cfg, s, d, t)
  {
    hide Apply, Rejects, ReadsMore, RelaysNext, SeenOk, Charged;
    assert AtHook(cfg, s);
    var u := s.(results := s.results[1..]);
    TakeResult(cfg, s, tick);
    ApplyTouches(cfg, u, tick, d);
    var v := u.(c := u.c.(lastTick := tick));
    ApplyTick(cfg, v, tick, d);
    if d.reject {
      RejectEffect(cfg, v, tick, d);
      TouchRejects(s, v, d, Apply(cfg, v, tick, d));
    } else if d.more {
      MoreEffect(cfg, v, tick, d);
      TouchMore(cfg, s, v, d, Apply(cfg, v, tick, d));
    } else {
      RelayEffect(cfg, v, tick, d);
      TouchRelays(cfg, s, v, d, Apply(cfg, v, tick, d));
    }
  }

  lemma ApplyTick(cfg: Cfg, s: Session, tick: nat, d: Decision)
    ensures Apply(cfg, s, tick, d).c.lastTick == tick
  {
    AppliedIsActivity(cfg, s, tick, d);
  }

  /** Taking the answer off and touching the connection is no difference to its effect. */
  ghost predicate Touched(s: Session, v: Session) {
    |s.results| == 1 && s.jobs == [] && v == s.(results := [], c := s.c.(lastTick := v.c.lastTick))
  }

  lemma TouchRejects(s: Session, v: Session, d: Decision, t: Session)
    requires Touched(s, v) && Rejects(v, d, t) && NoHookWork(t)
    ensures Rejects(s, d, t)
  {
  }

  lemma TouchMore(cfg: Cfg, s: Session, v: Session, d: Decision, t: Session)
    requires Touched(s, v) && ReadsMore(cfg, v, d, t) && NoHookWork(t)
    ensures ReadsMore(cfg, s, d, t)
  {
  }

  lemma TouchRelays(cfg: Cfg, s: Session, v: Session, d: Decision, t: Session)
    requires Touched(s, v) && RelaysNext(cfg, v, d, t)
    ensures RelaysNext(cfg, s, d, t)
  {
  }
}
