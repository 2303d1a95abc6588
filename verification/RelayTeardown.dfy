/** Teardown: what a late completion, a close and a failure keep. */
module RelayTeardown {
  import opened Basics
  import opened RelayTypes
  import opened RelaySession
  import opened RelayInv

  // ---- harvesting an operation keeps the lasting facts ----

  lemma HarvestCounts(s: Session, f: Flight, res: int, data: seq<byte>)
    requires Stable(s) && f in s.flights
    ensures var t := Harvested(s, f, res, data);
            && Stable(t)
            && forall k: Kind :: InFlight(t, k) == InFlight(s, k) - B2N(k == f.kind)
  {
    var t := Harvested(s, f, res, data);
    forall k: Kind ensures InFlight(t, k) == InFlight(s, k) - B2N(k == f.kind) {
      assert FlightOf(s.c, k).kind == k;
    }
  }

  lemma HarvestSeen(cfg: Cfg, s: Session, f: Flight, res: int, data: seq<byte>)
    requires SeenOk(cfg, s)
    ensures SeenOk(cfg, Harvested(s, f, res, data))
  {
    var t := Harvested(s, f, res, data);
    assert s.h.clientIn <= t.h.clientIn;
    forall k | 0 <= k < |t.h.seen| ensures 0 < |t.h.seen[k]| <= t.c.reqN && t.h.seen[k] == t.h.clientIn[..|t.h.seen[k]|] {
      assert s.h.seen[k] == s.h.clientIn[..|s.h.seen[k]|];
    }
  }

  lemma TakenPrefix(out: seq<byte>, owed: seq<byte>, all: seq<byte>, n: nat)
    requires out + owed <= all && n <= |owed|
    ensures out + owed[..n] <= all
  {
    assert (out + owed)[..|out| + n] == out + owed[..n];
  }

  lemma HarvestSend(s: Session, f: Flight, res: int)
    requires Stable(s) && PrefixSafe(s) && f in s.flights && !IsRecv(f.kind) && ResultOk(f, res, [])
    ensures PrefixSafe(Harvested(s, f, res, []))
  {
    var t := Harvested(s, f, res, []);
    HarvestCounts(s, f, res, []);
    assert InFlight(s, f.kind) > 0;
    if res > 0 {
      assert Slice(f.data, 0, res) == f.data[..res];
      if f.kind == SendUp || f.kind == C2USend {
        TakenPrefix(s.h.upOut, f.data, ForUpstream(s.h), res);
      } else {
        TakenPrefix(s.h.clientOut, f.data, ForClient(s.h), res);
      }
    }
  }

  lemma HarvestRecv(s: Session, f: Flight, res: int, data: seq<byte>)
    requires Stable(s) && PrefixSafe(s) && f in s.flights && IsRecv(f.kind) && ResultOk(f, res, data)
    ensures PrefixSafe(Harvested(s, f, res, data))
  {
    var t := Harvested(s, f, res, data);
    HarvestCounts(s, f, res, data);
    assert ForUpstream(s.h) <= ForUpstream(t.h);
    assert ForClient(s.h) <= ForClient(t.h);
  }

  lemma HarvestHalf(s: Session, f: Flight, res: int, data: seq<byte>)
    requires Stable(s) && HalfClosed(s) && f in s.flights && ResultOk(f, res, data)
    ensures HalfClosed(Harvested(s, f, res, data))
  {
    HarvestCounts(s, f, res, data);
    assert InFlight(s, f.kind) > 0;
  }

  lemma HarvestCharged(cfg: Cfg, s: Session, f: Flight, res: int, data: seq<byte>)
    requires Charged(cfg, s)
    ensures Charged(cfg, Harvested(s, f, res, data))
  {
  }

  lemma HarvestLasting(cfg: Cfg, s: Session, tick: nat, f: Flight, res: int, data: seq<byte>)
    requires Lasting(cfg, s, tick) && f in s.flights && ResultOk(f, res, data)
    ensures Lasting(cfg, Harvested(s, f, res, data), tick)
  {
    hide PrefixSafe, SeenOk, HalfClosed, Observed, Charged, InFlight;
    HarvestCounts(s, f, res, data);
    HarvestCharged(cfg, s, f, res, data);
    HarvestSeen(cfg, s, f, res, data);
    HarvestHalf(s, f, res, data);
    if IsRecv(f.kind) {
      HarvestRecv(s, f, res, data);
    } else {
      HarvestSend(s, f, res);
    }
  }

  // ---- closing ----

  /** `s` differs from `s0` at most in fields that no operation in flight depends on. */
  ghost predicate SameBuffers(c0: Fields, c: Fields) {
    forall k: Kind :: FlightOf(c, k) == FlightOf(c0, k)
  }

  /** A connection that may be closed now: charged, or with everything delivered. */
  ghost predicate MayClose(cfg: Cfg, s: Session, tick: nat) {
    && s.mapped && !s.c.closing && s.closes == multiset{}
    && Lasting(cfg, s, tick)
    && (!s.c.counted ==> Delivered(s) && s.flights == multiset{})
    && (cfg.idleTicks == 0 ==> NothingAtHook(s))
  }

  lemma LastingKept(cfg: Cfg, s: Session, t: Session, tick: nat)
    requires Lasting(cfg, s, tick)
    requires SameBuffers(s.c, t.c) && t.flights == s.flights && t.jobs == s.jobs && t.results == s.results
    requires t.c.clientFD == s.c.clientFD && t.c.lastTick == s.c.lastTick && t.c.reqN == s.c.reqN
    requires t.c.clientReadDone == s.c.clientReadDone && t.c.upstreamReadDone == s.c.upstreamReadDone
    requires t.h == s.h.(completed := t.h.completed, rejected := t.h.rejected, idle := t.h.idle,
                         errors := t.h.errors, again := t.h.again)
    requires Charged(cfg, t)
    ensures Lasting(cfg, t, tick)
  {
    assert forall k: Kind :: InFlight(t, k) == InFlight(s, k);
    assert ForUpstream(t.h) == ForUpstream(s.h) && ForClient(t.h) == ForClient(s.h);
    assert Stable(t);
    assert OneUserPerBuffer(t) && NonEmpty(t);
    assert PrefixSafe(t);
  }

  lemma BookkeepingOnly(c0: Fields, c: Fields)
    requires c == c0.(closing := c.closing, closesLeft := c.closesLeft, counted := c.counted)
    ensures SameBuffers(c0, c)
  {
  }

  lemma CloseKeeps(cfg: Cfg, s: Session, tick: nat)
    requires MayClose(cfg, s, tick)
    ensures Closing(cfg, CloseConn(s), tick) && CloseConn(s).mapped
  {
    var t := CloseConn(s);
    var fds := FdIfOpen(s.c.clientFD) + FdIfOpen(s.c.upstreamFD);
    assert t.c == s.c.(closing := true, closesLeft := |fds|) && t.closes == fds && t.mapped;
    BookkeepingOnly(s.c, t.c);
    assert Charged(cfg, t);
    LastingKept(cfg, s, t, tick);
    CloseDelivered(s, t);
  }

  lemma CloseDelivered(s: Session, t: Session)
    requires t.h == s.h.(completed := t.h.completed, rejected := t.h.rejected, idle := t.h.idle,
                         errors := t.h.errors, again := t.h.again)
    requires t.c.relayStarted == s.c.relayStarted
    requires t.c.clientReadDone == s.c.clientReadDone && t.c.upstreamReadDone == s.c.upstreamReadDone
    ensures Delivered(s) ==> Delivered(t)
  {
    assert ForClient(t.h) == ForClient(s.h);
  }

  lemma FailKeeps(cfg: Cfg, s: Session, tick: nat)
    requires s.mapped && !s.c.closing && s.closes == multiset{} && !s.c.counted && Lasting(cfg, s, tick)
    requires cfg.idleTicks == 0 ==> NothingAtHook(s)
    ensures Closing(cfg, Fail(s), tick) && Fail(s).mapped
  {
    hide CloseConn, PrefixSafe, SeenOk, HalfClosed, Stable, OneUserPerBuffer, NonEmpty;
    var t := s.(c := s.c.(counted := true), h := s.h.(errors := s.h.errors + 1));
    BookkeepingOnly(s.c, t.c);
    assert Charged(cfg, t);
    LastingKept(cfg, s, t, tick);
    CloseKeeps(cfg, t, tick);
  }

  // ---- completions for a connection that is closing or gone ----

  lemma LateCompletion(cfg: Cfg, s: Session, tick: nat, f: Flight, res: int, data: seq<byte>)
    requires Closing(cfg, s, tick) && f in s.flights && ResultOk(f, res, data)
    ensures Closing(cfg, Complete(cfg, s, tick, f, res, data), tick)
  {
    HarvestLasting(cfg, s, tick, f, res, data);
  }

  lemma CloseDoneKeeps(cfg: Cfg, s: Session, tick: nat, fd: int)
    requires Closing(cfg, s, tick) && fd in s.closes
    ensures Closing(cfg, CloseDone(s, fd), tick)
  {
    var t := CloseDone(s, fd);
    assert |t.closes| == |s.closes| - 1;
    BookkeepingOnly(s.c, t.c);
    assert Charged(cfg, t);
    LastingKept(cfg, s, t, tick);
    CloseDelivered(s, t);
  }

  lemma LateDrain(cfg: Cfg, s: Session, tick: nat, d: Decision)
    requires Closing(cfg, s, tick) && s.results != []
    ensures Closing(cfg, Drain(cfg, s, tick, d), tick)
  {
    var t := s.(results := s.results[1..]);
    assert Stable(t) && OneUserPerBuffer(t) && NonEmpty(t) && PrefixSafe(t) && HalfClosed(t);
  }

  lemma LateReturn(cfg: Cfg, s: Session, tick: nat, k: nat, d: Decision)
    requires Closing(cfg, s, tick) && k < |s.jobs| && DecisionOk(d)
    ensures Closing(cfg, Returned(s, k, d), tick)
  {
    var t := Returned(s, k, d);
    assert Stable(t) && OneUserPerBuffer(t) && NonEmpty(t) && PrefixSafe(t) && HalfClosed(t);
  }

  lemma KernelCloseKeeps(cfg: Cfg, s: Session, tick: nat, fd: int)
    requires Closing(cfg, s, tick)
    ensures Closing(cfg, KernelClosed(s, fd), tick)
  {
    LastingKept(cfg, s, KernelClosed(s, fd), tick);
  }
}
