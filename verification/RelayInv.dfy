/** What holds of every accepted connection in every reachable state of the worker. */
module RelayInv {
  import opened Basics
  import opened RelayTypes
  import opened RelaySession

  // ---- facts that outlive teardown ----

  function Owed(c: Fields, k: Kind): seq<byte> {
    FlightOf(c, k).data
  }

  function InFlight(s: Session, k: Kind): nat {
    s.flights[FlightOf(s.c, k)]
  }

  /** Every operation in flight is exactly what its kind would post from the current fields, so the
      buffer range given to the kernel has not moved or changed since. */
  ghost predicate Stable(s: Session) {
    forall f :: f in s.flights ==> f == FlightOf(s.c, f.kind)
  }

  /** At most one operation in flight per buffer. */
  ghost predicate OneUserPerBuffer(s: Session) {
    && InFlight(s, RecvReq) + InFlight(s, SendUp) <= 1
    && InFlight(s, ReplyClient) + InFlight(s, ReplyMore) + InFlight(s, RejectSend) <= 1
    && InFlight(s, C2URecv) + InFlight(s, C2USend) <= 1
    && InFlight(s, U2CRecv) + InFlight(s, U2CSend) <= 1
  }

  /** A send has something to send and a receive has room. */
  ghost predicate NonEmpty(s: Session) {
    forall f :: f in s.flights ==> if IsRecv(f.kind) then f.room > 0 && f.data == [] else |f.data| > 0
  }

  /** The bytes of the client stream that are the upstream's to have. */
  function ForUpstream(h: Hist): seq<byte> {
    if h.decided && h.consumed <= |h.clientIn| then h.clientIn[h.consumed..] else []
  }

  /** The bytes that are the client's to have, in order. */
  function ForClient(h: Hist): seq<byte> {
    h.replied + h.upIn
  }

  /** What the two peers' sockets took, and what the sends in flight could still add, is a prefix of
      what is theirs to have. */
  ghost predicate PrefixSafe(s: Session) {
    && (s.h.decided ==> s.h.consumed <= |s.h.clientIn|)
    && s.h.upOut <= ForUpstream(s.h)
    && InFlight(s, SendUp) + InFlight(s, C2USend) <= 1
    && (InFlight(s, SendUp) > 0 ==> s.h.upOut + Owed(s.c, SendUp) <= ForUpstream(s.h))
    && (InFlight(s, C2USend) > 0 ==> s.h.upOut + Owed(s.c, C2USend) <= ForUpstream(s.h))
    && s.h.clientOut <= ForClient(s.h)
    && InFlight(s, ReplyClient) + InFlight(s, ReplyMore) + InFlight(s, RejectSend) + InFlight(s, U2CSend) <= 1
    && (InFlight(s, ReplyClient) > 0 ==> s.h.clientOut + Owed(s.c, ReplyClient) <= ForClient(s.h))
    && (InFlight(s, ReplyMore) > 0 ==> s.h.clientOut + Owed(s.c, ReplyMore) <= ForClient(s.h))
    && (InFlight(s, RejectSend) > 0 ==> s.h.clientOut + Owed(s.c, RejectSend) <= ForClient(s.h))
    && (InFlight(s, U2CSend) > 0 ==> s.h.clientOut + Owed(s.c, U2CSend) <= ForClient(s.h))
  }

  /** The Hook was shown ever longer prefixes of the client stream, none longer than the cap. */
  ghost predicate SeenOk(cfg: Cfg, s: Session) {
    && s.c.reqN <= |s.h.clientIn|
    && s.c.reqN <= cfg.maxReqLen
    && (forall k :: 0 <= k < |s.h.seen| ==> 0 < |s.h.seen[k]| <= s.c.reqN && s.h.seen[k] == s.h.clientIn[..|s.h.seen[k]|])
    && (forall j, k :: 0 <= j < k < |s.h.seen| ==> |s.h.seen[j]| < |s.h.seen[k]|)
  }

  /** How the connection has been charged: once as rejected, idle or error if `counted`, once as
      completed if it left the map uncounted, and `again` counts every idle charge beyond that. */
  ghost predicate Charged(cfg: Cfg, s: Session) {
    && s.h.rejected + s.h.idle + s.h.errors == B2N(s.c.counted) + s.h.again
    && s.h.completed == B2N(!s.mapped && !s.c.counted)
    && (s.h.again > 0 ==> s.h.again == 1 && s.h.rejected == 1 && s.c.closing && cfg.idleTicks > 0)
    && (cfg.idleTicks == 0 ==> s.h.idle == 0)
  }

  /** Nothing either peer was owed is missing, and both were told that the other has finished. */
  ghost predicate Delivered(s: Session) {
    && s.c.relayStarted && s.h.decided && s.c.clientReadDone && s.c.upstreamReadDone
    && s.h.consumed <= |s.h.clientIn|
    && s.h.upOut == s.h.clientIn[s.h.consumed..]
    && s.h.clientOut == ForClient(s.h)
    && s.h.shutUp == 1 && s.h.shutClient == 1
    && s.h.bytesUp == |s.h.upOut|
    && s.h.bytesDown == |s.h.upIn|
  }

  /** Half-close: at most one SHUT_WR per direction, and only after everything owed in it was sent. */
  ghost predicate HalfClosed(s: Session) {
    && s.h.shutUp == B2N(s.c.clientReadDone)
    && s.h.shutClient == B2N(s.c.upstreamReadDone)
    && (s.h.shutUp > 0 ==>
          && s.h.decided && s.h.upOut == ForUpstream(s.h)
          && InFlight(s, SendUp) == InFlight(s, C2URecv) == InFlight(s, C2USend) == InFlight(s, RecvReq) == 0)
    && (s.h.shutClient > 0 ==>
          && s.h.clientOut == ForClient(s.h)
          && InFlight(s, ReplyClient) == InFlight(s, ReplyMore) == InFlight(s, RejectSend) == 0
          && InFlight(s, U2CRecv) == InFlight(s, U2CSend) == 0)
  }

  ghost predicate Outstanding(s: Session) {
    && |s.jobs| + |s.results| <= 1
    && (forall k :: 0 <= k < |s.results| ==> DecisionOk(s.results[k]))
  }

  ghost predicate Lasting(cfg: Cfg, s: Session, tick: nat) {
    && s.c.clientFD > 0
    && s.c.lastTick <= tick
    && Stable(s) && OneUserPerBuffer(s) && NonEmpty(s) && PrefixSafe(s)
    && SeenOk(cfg, s) && Charged(cfg, s) && HalfClosed(s) && Outstanding(s)
  }

  // ---- a connection that is neither gone nor closing ----

  ghost predicate ReplyWindow(s: Session) {
    && s.c.replyOff <= s.c.replyEnd
    && (s.c.replyOff < s.c.replyEnd ==> s.c.replyEnd <= |s.c.replyBuf|)
    && s.h.clientOut + Slice(s.c.replyBuf, s.c.replyOff, s.c.replyEnd) == s.h.replied
  }

  ghost predicate PreRelay(cfg: Cfg, s: Session) {
    && !s.c.relayStarted && !s.c.clientReadDone && !s.c.upstreamReadDone
    && s.c.reqN <= |s.c.reqBuf| <= cfg.maxReqLen && 0 < |s.c.reqBuf|
    && s.h.clientIn == s.c.reqBuf[..s.c.reqN]
    && s.h.upIn == [] && s.h.bytesDown == 0 && s.h.shutUp == 0 && s.h.shutClient == 0
    && s.c.c2uBuf == [] && s.c.u2cBuf == []
    && s.c.c2uOff == s.c.c2uEnd == s.c.u2cOff == s.c.u2cEnd == 0
    && ReplyWindow(s)
  }

  ghost predicate Undecided(s: Session) {
    && s.c.upstreamFD == 0 && s.c.initSent == 0
    && !s.h.decided && s.h.upOut == [] && s.h.bytesUp == 0 && s.h.consumed == 0
  }

  ghost predicate NothingAtHook(s: Session) {
    s.jobs == [] && s.results == []
  }

  ghost predicate Only(s: Session, k: Kind) {
    s.flights == multiset{FlightOf(s.c, k)} && NothingAtHook(s)
  }

  ghost predicate Reading(cfg: Cfg, s: Session) {
    && PreRelay(cfg, s) && Undecided(s) && !s.c.counted
    && Only(s, RecvReq) && s.c.reqN < |s.c.reqBuf| && s.c.replyOff == s.c.replyEnd
  }

  /** A request is queued at the pool, being decided, or its result is waiting on the ready list. */
  ghost predicate AtHook(cfg: Cfg, s: Session) {
    && PreRelay(cfg, s) && Undecided(s) && !s.c.counted
    && s.flights == multiset{} && s.c.replyOff == s.c.replyEnd
    && |s.jobs| + |s.results| == 1
    && (forall k :: 0 <= k < |s.jobs| ==> s.jobs[k] == s.c.reqBuf[..s.c.reqN])
  }

  ghost predicate ReplyingMore(cfg: Cfg, s: Session) {
    && PreRelay(cfg, s) && Undecided(s) && !s.c.counted
    && Only(s, ReplyMore) && s.c.replyOff < s.c.replyEnd && s.c.reqN < |s.c.reqBuf|
  }

  ghost predicate Rejecting(cfg: Cfg, s: Session) {
    && PreRelay(cfg, s) && Undecided(s) && s.c.counted && s.h.rejected == 1
    && Only(s, RejectSend) && s.c.replyOff < s.c.replyEnd
  }

  ghost predicate DecidedPre(cfg: Cfg, s: Session) {
    && PreRelay(cfg, s) && !s.c.counted && s.c.upstreamFD > 0
    && s.h.decided && s.h.consumed <= s.c.initSent <= s.c.reqN
    && s.h.upOut == s.c.reqBuf[s.h.consumed..s.c.initSent]
    && s.h.bytesUp == |s.h.upOut|
  }

  ghost predicate Replying(cfg: Cfg, s: Session) {
    && DecidedPre(cfg, s) && Only(s, ReplyClient) && s.c.replyOff < s.c.replyEnd
  }

  ghost predicate Forwarding(cfg: Cfg, s: Session) {
    && DecidedPre(cfg, s) && Only(s, SendUp) && s.c.initSent < s.c.reqN && s.c.replyOff == s.c.replyEnd
  }

  /** The one operation a duplex direction has in flight, until its read side is done. */
  function C2UToken(c: Fields): multiset<Flight> {
    if c.clientReadDone then multiset{}
    else if c.c2uOff < c.c2uEnd then multiset{FlightOf(c, C2USend)}
    else multiset{FlightOf(c, C2URecv)}
  }

  function U2CToken(c: Fields): multiset<Flight> {
    if c.upstreamReadDone then multiset{}
    else if c.u2cOff < c.u2cEnd then multiset{FlightOf(c, U2CSend)}
    else multiset{FlightOf(c, U2CRecv)}
  }

  ghost predicate DuplexFrame(s: Session) {
    && s.c.relayStarted && s.c.upstreamFD > 0 && !s.c.counted && s.h.decided
    && s.c.reqBuf == [] && s.c.replyBuf == []
    && NothingAtHook(s)
    && !(s.c.clientReadDone && s.c.upstreamReadDone)
    && s.h.shutUp == B2N(s.c.clientReadDone) && s.h.shutClient == B2N(s.c.upstreamReadDone)
  }

  /** Client to upstream: what the upstream took, then the pending window, is exactly the client
      stream from the first byte the Hook did not consume. */
  ghost predicate C2UStream(cfg: Cfg, s: Session) {
    && |s.c.c2uBuf| == cfg.bufSize && s.c.c2uOff <= s.c.c2uEnd <= cfg.bufSize
    && (s.c.clientReadDone ==> s.c.c2uOff == s.c.c2uEnd)
    && s.h.consumed <= |s.h.clientIn|
    && s.h.upOut + s.c.c2uBuf[s.c.c2uOff..s.c.c2uEnd] == s.h.clientIn[s.h.consumed..]
    && s.h.bytesUp == |s.h.clientIn| - s.h.consumed
  }

  /** Upstream to client: what the client took, then the pending window, is exactly the replies and
      then the upstream stream. */
  ghost predicate U2CStream(cfg: Cfg, s: Session) {
    && |s.c.u2cBuf| == cfg.bufSize && s.c.u2cOff <= s.c.u2cEnd <= cfg.bufSize
    && (s.c.upstreamReadDone ==> s.c.u2cOff == s.c.u2cEnd)
    && s.h.clientOut + s.c.u2cBuf[s.c.u2cOff..s.c.u2cEnd] == ForClient(s.h)
    && s.h.bytesDown == |s.h.upIn|
  }

  ghost predicate Duplex(cfg: Cfg, s: Session) {
    && DuplexFrame(s)
    && s.flights == C2UToken(s.c) + U2CToken(s.c)
    && C2UStream(cfg, s)
    && U2CStream(cfg, s)
  }

  ghost predicate InSomePhase(cfg: Cfg, s: Session) {
    || Reading(cfg, s) || AtHook(cfg, s) || ReplyingMore(cfg, s) || Rejecting(cfg, s)
    || Replying(cfg, s) || Forwarding(cfg, s) || Duplex(cfg, s)
  }

  ghost predicate Envelope(cfg: Cfg, s: Session, tick: nat) {
    && s.mapped && !s.c.closing
    && s.c.clientFD > 0 && s.c.lastTick <= tick
    && s.closes == multiset{} && s.unclosed == multiset{} && s.c.closesLeft == 0
    && SeenOk(cfg, s) && Charged(cfg, s) && Outstanding(s)
  }

  ghost predicate Active(cfg: Cfg, s: Session, tick: nat) {
    Envelope(cfg, s, tick) && InSomePhase(cfg, s)
  }

  // ---- a connection being torn down, or gone ----

  ghost predicate Closing(cfg: Cfg, s: Session, tick: nat) {
    && s.c.closing && Lasting(cfg, s, tick)
    && (!s.c.counted ==> Delivered(s) && s.flights == multiset{})
    && |s.closes| == s.c.closesLeft
    && (s.mapped <==> s.c.closesLeft > 0)
    && (cfg.idleTicks == 0 ==> NothingAtHook(s))
  }

  ghost predicate SessionInv(cfg: Cfg, s: Session, tick: nat) {
    if s.mapped && !s.c.closing then Active(cfg, s, tick) else Closing(cfg, s, tick)
  }

  // ---- an active connection has the lasting facts too ----

  lemma NoneInFlight(s: Session)
    requires s.flights == multiset{}
    ensures forall k: Kind :: InFlight(s, k) == 0
    ensures Stable(s) && OneUserPerBuffer(s) && NonEmpty(s)
  {
  }

  lemma OneInFlight(s: Session, k: Kind)
    requires s.flights == multiset{FlightOf(s.c, k)}
    ensures forall j: Kind :: InFlight(s, j) == B2N(j == k)
    ensures Stable(s) && OneUserPerBuffer(s)
    ensures (if IsRecv(k) then FlightOf(s.c, k).room > 0 else |Owed(s.c, k)| > 0) ==> NonEmpty(s)
  {
    assert FlightOf(s.c, k).kind == k;
    forall j: Kind ensures InFlight(s, j) == B2N(j == k) {
      assert FlightOf(s.c, j).kind == j;
    }
  }

  /** The kind in flight in a duplex direction. */
  function C2UKind(c: Fields): Kind {
    if c.c2uOff < c.c2uEnd then C2USend else C2URecv
  }

  function U2CKind(c: Fields): Kind {
    if c.u2cOff < c.u2cEnd then U2CSend else U2CRecv
  }

  lemma TokenCount(c: Fields, k: Kind)
    ensures FlightOf(c, k).kind == k
    ensures C2UToken(c)[FlightOf(c, k)] == B2N(!c.clientReadDone && k == C2UKind(c))
    ensures U2CToken(c)[FlightOf(c, k)] == B2N(!c.upstreamReadDone && k == U2CKind(c))
  {
  }

  lemma DuplexCount(s: Session, k: Kind)
    requires s.flights == C2UToken(s.c) + U2CToken(s.c)
    ensures InFlight(s, k) == B2N(!s.c.clientReadDone && k == C2UKind(s.c)) + B2N(!s.c.upstreamReadDone && k == U2CKind(s.c))
  {
    TokenCount(s.c, k);
  }

  lemma KindKept(c: Fields, k: Kind)
    ensures FlightOf(c, k).kind == k
  {
  }

  lemma TokenMember(c: Fields, f: Flight)
    requires f in C2UToken(c) || f in U2CToken(c)
    ensures f == FlightOf(c, f.kind)
  {
    hide FlightOf;
    KindKept(c, C2USend);
    KindKept(c, C2URecv);
    KindKept(c, U2CSend);
    KindKept(c, U2CRecv);
  }

  lemma DuplexStable(s: Session)
    requires s.flights == C2UToken(s.c) + U2CToken(s.c)
    ensures Stable(s)
  {
    hide FlightOf, C2UToken, U2CToken;
    forall f | f in s.flights ensures f == FlightOf(s.c, f.kind) {
      assert f in C2UToken(s.c) || f in U2CToken(s.c);
      TokenMember(s.c, f);
    }
  }

  lemma DuplexInFlight(s: Session)
    requires s.flights == C2UToken(s.c) + U2CToken(s.c)
    ensures forall k: Kind :: InFlight(s, k) ==
              B2N(!s.c.clientReadDone && k == C2UKind(s.c)) + B2N(!s.c.upstreamReadDone && k == U2CKind(s.c))
    ensures Stable(s) && OneUserPerBuffer(s)
  {
    forall k: Kind ensures InFlight(s, k) ==
              B2N(!s.c.clientReadDone && k == C2UKind(s.c)) + B2N(!s.c.upstreamReadDone && k == U2CKind(s.c))
    {
      DuplexCount(s, k);
    }
    DuplexStable(s);
  }

  lemma ReadingPrefix(cfg: Cfg, s: Session)
    requires Reading(cfg, s) || AtHook(cfg, s) || ReplyingMore(cfg, s) || Rejecting(cfg, s)
    ensures Stable(s) && OneUserPerBuffer(s) && NonEmpty(s) && PrefixSafe(s) && HalfClosed(s)
  {
    assert ForClient(s.h) == s.h.replied;
    if Reading(cfg, s) {
      OneInFlight(s, RecvReq);
    } else if AtHook(cfg, s) {
      NoneInFlight(s);
    } else if ReplyingMore(cfg, s) {
      OneInFlight(s, ReplyMore);
    } else {
      OneInFlight(s, RejectSend);
    }
  }

  lemma DecidedPrefix(cfg: Cfg, s: Session)
    requires Replying(cfg, s) || Forwarding(cfg, s)
    ensures Stable(s) && OneUserPerBuffer(s) && NonEmpty(s) && PrefixSafe(s) && HalfClosed(s)
  {
    assert ForClient(s.h) == s.h.replied;
    assert s.h.upOut + s.c.reqBuf[s.c.initSent..s.c.reqN] == ForUpstream(s.h);
    if Replying(cfg, s) {
      OneInFlight(s, ReplyClient);
    } else {
      OneInFlight(s, SendUp);
    }
  }

  lemma DuplexPrefix(cfg: Cfg, s: Session)
    requires GoodCfg(cfg) && Duplex(cfg, s)
    ensures Stable(s) && OneUserPerBuffer(s) && NonEmpty(s) && PrefixSafe(s) && HalfClosed(s)
  {
    hide Stable, OneUserPerBuffer, NonEmpty, HalfClosed, PrefixSafe;
    DuplexInFlight(s);
    DuplexPrefixSafe(cfg, s);
    DuplexNonEmpty(cfg, s);
    DuplexHalfClosed(cfg, s);
  }

  lemma DuplexPrefixSafe(cfg: Cfg, s: Session)
    requires Duplex(cfg, s)
    ensures PrefixSafe(s)
  {
    hide Stable, OneUserPerBuffer, C2UToken, U2CToken;
    DuplexInFlight(s);
  }

  lemma DuplexNonEmpty(cfg: Cfg, s: Session)
    requires GoodCfg(cfg) && Duplex(cfg, s)
    ensures NonEmpty(s)
  {
    forall f | f in s.flights ensures if IsRecv(f.kind) then f.room > 0 && f.data == [] else |f.data| > 0 {
      assert f in C2UToken(s.c) || f in U2CToken(s.c);
    }
  }

  lemma DuplexHalfClosed(cfg: Cfg, s: Session)
    requires Duplex(cfg, s)
    ensures HalfClosed(s)
  {
    hide FlightOf, C2UToken, U2CToken;
    DuplexInFlight(s);
  }

  lemma ActiveIsLasting(cfg: Cfg, s: Session, tick: nat)
    requires GoodCfg(cfg) && Active(cfg, s, tick)
    ensures Lasting(cfg, s, tick)
  {
    if Duplex(cfg, s) {
      DuplexPrefix(cfg, s);
    } else if Replying(cfg, s) || Forwarding(cfg, s) {
      DecidedPrefix(cfg, s);
    } else {
      ReadingPrefix(cfg, s);
    }
  }
}
