/** The invariant holds in every reachable state of the worker. */
module RelaySafety {
  import opened RelayTypes
  import opened RelaySession
  import opened RelayInv
  import opened RelayTeardown
  import opened RelaySteps
  import opened RelayDecide
  import opened RelayWorld
  import opened RelaySums

  // ---- one connection's transitions, as the worker sees them ----

  /** A connection's own transitions keep it sound. */
  lemma StaysSound(cfg: Cfg, s: Session, t: Session, tick: nat)
    requires SoundAt(cfg, tick)(s) && SessionInv(cfg, t, tick)
    requires t.mapped && !t.c.closing ==> s.mapped && !s.c.closing && (t.c.lastTick == s.c.lastTick || t.c.lastTick == tick)
    ensures SoundAt(cfg, tick)(t)
  {
  }

  lemma FollowerSound(cfg: Cfg, s: Session, t: Session, tick: nat)
    requires SoundAt(cfg, tick)(s) && SessionInv(cfg, t, tick) && Follows(s, t, tick)
    ensures SoundAt(cfg, tick)(t)
  {
    StaysSound(cfg, s, t, tick);
  }

  lemma CompletionSound(cfg: Cfg, s: Session, tick: nat, f: Flight, res: int, data: seq<byte>)
    requires GoodCfg(cfg) && SoundAt(cfg, tick)(s) && f in s.flights && ResultOk(f, res, data)
    ensures var t := Complete(cfg, s, tick, f, res, data);
            SoundAt(cfg, tick)(t) && t.results == s.results && FdsOf(t) == FdsOf(s) && MappedOf(t) <= MappedOf(s)
  {
    var t := Complete(cfg, s, tick, f, res, data);
    CompleteKeeps(cfg, s, tick, f, res, data);
    CompleteFollows(cfg, s, tick, f, res, data);
    FollowerSound(cfg, s, t, tick);
    FollowsFds(s, t, tick);
  }

  lemma CloseDoneSound(cfg: Cfg, s: Session, tick: nat, fd: int)
    requires GoodCfg(cfg) && SoundAt(cfg, tick)(s) && fd in s.closes
    ensures var t := CloseDone(s, fd);
            SoundAt(cfg, tick)(t) && t.results == s.results && FdsOf(t) == FdsOf(s) && MappedOf(t) <= MappedOf(s)
  {
    CloseDoneKeeps(cfg, s, tick, fd);
    StaysSound(cfg, s, CloseDone(s, fd), tick);
  }

  lemma ReturnedSound(cfg: Cfg, s: Session, tick: nat, k: nat, d: Decision)
    requires GoodCfg(cfg) && SoundAt(cfg, tick)(s) && k < |s.jobs| && DecisionOk(d)
    ensures var t := Returned(s, k, d);
            SoundAt(cfg, tick)(t) && t.results == s.results + [d] && FdsOf(t) == FdsOf(s) && MappedOf(t) <= MappedOf(s)
  {
    ReturnedKeeps(cfg, s, tick, k, d);
    StaysSound(cfg, s, Returned(s, k, d), tick);
  }

  lemma KernelClosedSound(cfg: Cfg, s: Session, tick: nat, fd: int)
    requires GoodCfg(cfg) && SoundAt(cfg, tick)(s) && fd in s.unclosed
    ensures var t := KernelClosed(s, fd);
            SoundAt(cfg, tick)(t) && t.results == s.results && FdsOf(s) == FdsOf(t) + multiset{fd} && MappedOf(t) <= MappedOf(s)
  {
    KernelCloseKeeps(cfg, s, tick, fd);
    StaysSound(cfg, s, KernelClosed(s, fd), tick);
  }

  lemma DrainSound(cfg: Cfg, s: Session, tick: nat, d: Decision)
    requires GoodCfg(cfg) && SoundAt(cfg, tick)(s) && s.results != [] && d == s.results[0]
    ensures var t := Drain(cfg, s, tick, d);
            && SoundAt(cfg, tick)(t) && t.results == s.results[1..] && MappedOf(t) <= MappedOf(s)
            && FdsOf(t) == FdsOf(s) + (if Adopts(s, d) then FdIfOpen(d.upstreamFD) else multiset{})
            && (Adopts(s, d) ==> d.upstreamFD > 0)
  {
    var t := Drain(cfg, s, tick, d);
    DrainKeeps(cfg, s, tick, d);
    if Adopts(s, d) {
      AtHookFacts(cfg, s, tick);
      AdoptFollows(cfg, s, tick, d);
    } else {
      DrainFollows(cfg, s, tick, d);
    }
    StaysSound(cfg, s, t, tick);
    DrainFds(cfg, s, tick, d);
  }

  lemma AtHookFacts(cfg: Cfg, s: Session, tick: nat)
    requires SessionInv(cfg, s, tick) && s.mapped && !s.c.closing && s.results != []
    ensures s.c.upstreamFD == 0 && DecisionOk(s.results[0])
  {
  }

  lemma TickSound(cfg: Cfg, s: Session, tick: nat)
    requires GoodCfg(cfg) && SoundAt(cfg, tick)(s)
    ensures var t := if SweepsAt(cfg, tick + 1) then Sweep(cfg, s, tick + 1) else s;
            SoundAt(cfg, tick + 1)(t) && t.results == s.results && FdsOf(t) == FdsOf(s) && MappedOf(t) <= MappedOf(s)
  {
    hide Active, Closing, FdsOf, FdIfOpen, CloseConn;
    TickKeeps(cfg, s, tick);
    if SweepsAt(cfg, tick + 1) {
      var t := Sweep(cfg, s, tick + 1);
      SweepKeeps(cfg, s, tick + 1);
      SweepFollows(cfg, s, tick + 1);
      FollowsFds(s, t, tick + 1);
      SweptQuiet(cfg, s, tick + 1);
    }
  }

  /** What the sweep leaves open was active within the idle limit. */
  lemma SweptQuiet(cfg: Cfg, s: Session, tick: nat)
    requires SweepsAt(cfg, tick)
    ensures IdleOk(cfg, Sweep(cfg, s, tick), tick)
  {
    hide FdIfOpen;
  }

  // ---- replacing one connection, whatever soundness means ----

  lemma ReplaceOne(cfg: Cfg, w: World, ok: Session -> bool, id: nat, t: Session)
    requires AllOk(w.all, ok) && AcceptsOk(cfg, w) && IsConn(w, id)
    requires ok(t) && MappedOf(t) <= MappedOf(w.all[id - 1])
    ensures AllOk(With(w, id, t).all, ok) && AcceptsOk(cfg, With(w, id, t))
  {
    hide FdsOf;
    SumUpdate(w.all, MappedOf, id - 1, t);
  }

  lemma ReplaceKept(cfg: Cfg, w: World, ok: Session -> bool, id: nat, t: Session)
    requires InvBy(cfg, w, ok) && IsConn(w, id)
    requires ok(t) && MappedOf(t) <= MappedOf(w.all[id - 1])
    requires t.results == w.all[id - 1].results && FdsOf(t) == FdsOf(w.all[id - 1])
    ensures InvBy(cfg, With(w, id, t), ok)
  {
    hide FdsOf;
    ReplaceOne(cfg, w, ok, id, t);
    BalanceKept(w, id, t);
  }

  lemma BalanceKept(w: World, id: nat, t: Session)
    requires FdsBalance(w) && IsConn(w, id) && FdsOf(t) == FdsOf(w.all[id - 1])
    ensures FdsBalance(With(w, id, t))
  {
    hide FdsOf;
    FdsUpdate(w.all, id - 1, t);
    SameAddend(Fds(With(w, id, t).all), Fds(w.all), FdsOf(t));
  }

  lemma SameAddend(a: multiset<int>, b: multiset<int>, x: multiset<int>)
    requires a + x == b + x
    ensures a == b
  {
    assert a == (a + x) - x;
    assert b == (b + x) - x;
  }

  // ---- one lemma per event ----

  lemma ConnDoneKeeps(cfg: Cfg, w: World, id: nat, f: Flight, res: int, data: seq<byte>)
    requires GoodCfg(cfg) && Inv(cfg, w) && Enabled(w, ConnDone(id, f, res, data))
    ensures Inv(cfg, Step(cfg, w, ConnDone(id, f, res, data)))
  {
    hide SoundAt, FdsOf, Sweep, Complete, CloseDone, Drain;
    var ok := SoundAt(cfg, w.tick);
    assert ok(w.all[id - 1]);
    CompletionSound(cfg, w.all[id - 1], w.tick, f, res, data);
    ReplaceKept(cfg, w, ok, id, Complete(cfg, w.all[id - 1], w.tick, f, res, data));
  }

  lemma CloseDoneOk(cfg: Cfg, w: World, id: nat, fd: int)
    requires GoodCfg(cfg) && Inv(cfg, w) && Enabled(w, ConnCloseDone(id, fd))
    ensures Inv(cfg, Step(cfg, w, ConnCloseDone(id, fd)))
  {
    hide SoundAt, FdsOf, Sweep, Complete, CloseDone, Drain;
    var ok := SoundAt(cfg, w.tick);
    assert ok(w.all[id - 1]);
    CloseDoneSound(cfg, w.all[id - 1], w.tick, fd);
    ReplaceKept(cfg, w, ok, id, CloseDone(w.all[id - 1], fd));
  }

  lemma AcceptKeeps(cfg: Cfg, w: World, res: int)
    requires GoodCfg(cfg) && Inv(cfg, w) && Enabled(w, AcceptDone(res))
    ensures Inv(cfg, Step(cfg, w, AcceptDone(res)))
  {
    if res > 0 {
      var ok := SoundAt(cfg, w.tick);
      AcceptedActive(cfg, w.tick, res);
      var s := Accepted(cfg, w.tick, res);
      assert ok(s);
      AcceptGrows(cfg, w, ok, res, s);
    }
  }

  lemma AcceptGrows(cfg: Cfg, w: World, ok: Session -> bool, fd: int, s: Session)
    requires InvBy(cfg, w, ok) && ok(s) && w.accepts > 0 && fd > 0 && fd !in w.open
    requires s.results == [] && MappedOf(s) == 1 && FdsOf(s) == multiset{fd}
    ensures Mapped(w) < cfg.maxConns
    ensures InvBy(cfg, w.(accepts := w.accepts - 1, all := w.all + [s], open := w.open + {fd}), ok)
  {
    hide FdsOf, ResultsFor;
    var v := w.(accepts := w.accepts - 1, all := w.all + [s], open := w.open + {fd});
    SumAppend(w.all, MappedOf, s);
    FdGained(w, v, fd, s);
    NoResults(w.ready, |w.all|);
    forall i | 0 <= i < |v.all| ensures ok(v.all[i]) && ResultsFor(v.ready, i + 1) == v.all[i].results {
      if i < |w.all| {
        assert ok(w.all[i]) && v.all[i] == w.all[i];
      }
    }
  }

  lemma FdGained(w: World, v: World, fd: int, s: Session)
    requires FdsBalance(w) && FdsOf(s) == multiset{fd} && fd > 0 && fd !in w.open
    requires v.all == w.all + [s] && v.ready == w.ready && v.unclosed == w.unclosed && v.open == w.open + {fd}
    ensures FdsBalance(v)
  {
    hide FdsOf;
    FdsAppend(w.all, s);
    assert multiset(v.open) == multiset(w.open) + multiset{fd};
  }

  lemma {:induction false} NoResults(ready: seq<HookResult>, n: nat)
    requires forall k :: 0 <= k < |ready| ==> 1 <= ready[k].id <= n
    ensures ResultsFor(ready, n + 1) == []
  {
    if ready != [] {
      NoResults(ready[1..], n);
    }
  }

  lemma HookReturnsKeeps(cfg: Cfg, w: World, id: nat, k: nat, d: Decision)
    requires GoodCfg(cfg) && Inv(cfg, w) && Enabled(w, HookReturns(id, k, d))
    ensures Inv(cfg, Step(cfg, w, HookReturns(id, k, d)))
  {
    hide SoundAt, FdsOf, Sweep, Complete, CloseDone, Drain;
    var ok := SoundAt(cfg, w.tick);
    assert ok(w.all[id - 1]);
    ReturnedSound(cfg, w.all[id - 1], w.tick, k, d);
    ResultQueued(cfg, w, ok, id, d, Returned(w.all[id - 1], k, d));
  }

  lemma ResultQueued(cfg: Cfg, w: World, ok: Session -> bool, id: nat, d: Decision, t: Session)
    requires InvBy(cfg, w, ok) && IsConn(w, id) && ok(t) && MappedOf(t) <= MappedOf(w.all[id - 1])
    requires t.results == w.all[id - 1].results + [d] && FdsOf(t) == FdsOf(w.all[id - 1])
    requires d.upstreamFD > 0 ==> d.upstreamFD !in w.open
    ensures InvBy(cfg, With(w, id, t).(ready := w.ready + [HookResult(id, d)],
                                       open := if d.upstreamFD > 0 then w.open + {d.upstreamFD} else w.open), ok)
  {
    hide FdsOf, ResultsFor, FdsBalance;
    var v := With(w, id, t).(ready := w.ready + [HookResult(id, d)],
                             open := if d.upstreamFD > 0 then w.open + {d.upstreamFD} else w.open);
    ReplaceOne(cfg, w, ok, id, t);
    BalanceKept(w, id, t);
    QueuedBalance(With(w, id, t), HookResult(id, d));
    forall i | 0 <= i < |v.all| ensures ResultsFor(v.ready, i + 1) == v.all[i].results {
      ResultsForAppend(w.ready, HookResult(id, d), i + 1);
    }
  }

  lemma QueuedBalance(u: World, r: HookResult)
    requires FdsBalance(u) && (r.dec.upstreamFD > 0 ==> r.dec.upstreamFD !in u.open)
    ensures FdsBalance(u.(ready := u.ready + [r],
                          open := if r.dec.upstreamFD > 0 then u.open + {r.dec.upstreamFD} else u.open))
  {
    hide FdsOf;
    ReadyFdsAppend(u.ready, r);
    if r.dec.upstreamFD > 0 {
      assert multiset(u.open + {r.dec.upstreamFD}) == multiset(u.open) + multiset{r.dec.upstreamFD};
    }
  }

  lemma KernelClosesKeeps(cfg: Cfg, w: World, id: nat, fd: int)
    requires GoodCfg(cfg) && Inv(cfg, w) && Enabled(w, KernelCloses(id, fd))
    ensures Inv(cfg, Step(cfg, w, KernelCloses(id, fd)))
  {
    hide SoundAt, FdsOf, Sweep, Complete, CloseDone, Drain;
    var ok := SoundAt(cfg, w.tick);
    assert ok(w.all[id - 1]);
    var t := KernelClosed(w.all[id - 1], fd);
    KernelClosedSound(cfg, w.all[id - 1], w.tick, fd);
    ReplaceOne(cfg, w, ok, id, t);
    FdReleased(w, id, t, fd);
  }

  lemma FdReleased(w: World, id: nat, t: Session, fd: int)
    requires FdsBalance(w) && IsConn(w, id) && FdsOf(w.all[id - 1]) == FdsOf(t) + multiset{fd}
    ensures FdsBalance(With(w, id, t).(open := w.open - {fd})) && fd in w.open
  {
    hide FdsOf;
    FdsUpdate(w.all, id - 1, t);
    LoseOne(Fds(w.all), Fds(With(w, id, t).all), FdsOf(w.all[id - 1]), FdsOf(t), ReadyFds(w.ready) + w.unclosed, w.open, fd) by {
      assert Fds(w.all) + (ReadyFds(w.ready) + w.unclosed) == Fds(w.all) + ReadyFds(w.ready) + w.unclosed;
    }
    var b := Fds(With(w, id, t).all);
    assert b + (ReadyFds(w.ready) + w.unclosed) == b + ReadyFds(w.ready) + w.unclosed;
  }

  lemma LoseOne(a: multiset<int>, b: multiset<int>, x: multiset<int>, y: multiset<int>, r: multiset<int>, open: set<int>, fd: int)
    requires b + x == a + y && x == y + multiset{fd} && a + r == multiset(open)
    ensures b + r == multiset(open - {fd}) && fd in open
  {
    SameAddend(b + multiset{fd}, a, y) by { assert (b + multiset{fd}) + y == b + x; }
    assert (b + r) + multiset{fd} == multiset(open);
    assert multiset(open)[fd] == 1;
    assert b + r == multiset(open) - multiset{fd};
  }

  lemma KernelClosesShedKeeps(cfg: Cfg, w: World, fd: int)
    requires GoodCfg(cfg) && Inv(cfg, w) && Enabled(w, KernelClosesShed(fd))
    ensures Inv(cfg, Step(cfg, w, KernelClosesShed(fd)))
  {
    var v := Step(cfg, w, KernelClosesShed(fd));
    LoseOne(w.unclosed, v.unclosed, multiset{fd}, multiset{}, Fds(w.all) + ReadyFds(w.ready), w.open, fd) by {
      assert v.unclosed + multiset{fd} == w.unclosed + multiset{};
      assert w.unclosed + (Fds(w.all) + ReadyFds(w.ready)) == multiset(w.open);
    }
  }

  lemma TimeoutKeeps(cfg: Cfg, w: World)
    requires GoodCfg(cfg) && Inv(cfg, w) && Enabled(w, TimeoutDone)
    ensures Inv(cfg, Step(cfg, w, TimeoutDone))
  {
    hide SoundAt, FdsOf, Sweep, Complete, CloseDone, Drain;
    var v := Step(cfg, w, TimeoutDone);
    var ok, ok' := SoundAt(cfg, w.tick), SoundAt(cfg, v.tick);
    forall i | 0 <= i < |v.all|
      ensures ok'(v.all[i]) && v.all[i].results == w.all[i].results
      ensures FdsOf(v.all[i]) == FdsOf(w.all[i]) && MappedOf(v.all[i]) <= MappedOf(w.all[i])
    {
      assert ok(w.all[i]);
      TickSound(cfg, w.all[i], w.tick);
    }
    AllReplaced(cfg, w, ok, v, ok');
  }

  lemma AllReplaced(cfg: Cfg, w: World, ok: Session -> bool, v: World, ok': Session -> bool)
    requires InvBy(cfg, w, ok) && |v.all| == |w.all|
    requires v == w.(all := v.all, tick := v.tick)
    requires forall i :: 0 <= i < |v.all| ==> ok'(v.all[i]) && v.all[i].results == w.all[i].results
    requires forall i :: 0 <= i < |v.all| ==> FdsOf(v.all[i]) == FdsOf(w.all[i]) && MappedOf(v.all[i]) <= MappedOf(w.all[i])
    ensures InvBy(cfg, v, ok')
  {
    hide FdsOf;
    FdsSame(v.all, w.all);
    SumShrinks(v.all, w.all, MappedOf);
  }

  lemma BatchKeeps(cfg: Cfg, w: World)
    requires GoodCfg(cfg) && Inv(cfg, w) && Enabled(w, BatchDone)
    ensures Inv(cfg, Step(cfg, w, BatchDone))
  {
    TopUpBound(cfg, Mapped(w), w.accepts);
  }

  lemma {:induction false} TopUpBound(cfg: Cfg, mapped: int, accepts: nat)
    requires accepts <= cfg.acceptBatch && mapped + accepts <= cfg.maxConns
    ensures var n := TopUp(cfg, mapped, accepts);
            && accepts <= n <= cfg.acceptBatch && mapped + n <= cfg.maxConns
            && (n == cfg.acceptBatch || mapped + n == cfg.maxConns)
    decreases cfg.acceptBatch - accepts
  {
    if accepts < cfg.acceptBatch && mapped + accepts < cfg.maxConns {
      TopUpBound(cfg, mapped, accepts + 1);
    }
  }

  // ---- draining the ready list ----

  lemma DrainHeadKeeps(cfg: Cfg, w: World)
    requires GoodCfg(cfg) && Inv(cfg, w) && w.ready != []
    ensures Inv(cfg, DrainOne(cfg, w.(ready := w.ready[1..]), w.ready[0]))
  {
    hide SoundAt, FdsOf, Sweep, Complete, CloseDone, Drain;
    var ok := SoundAt(cfg, w.tick);
    var r := w.ready[0];
    var s := w.all[r.id - 1];
    assert ok(s);
    assert s.results == ResultsFor(w.ready, r.id) == [r.dec] + ResultsFor(w.ready[1..], r.id);
    DrainSound(cfg, s, w.tick, r.dec);
    HeadDrained(cfg, w, ok, Drain(cfg, s, w.tick, r.dec), Adopts(s, r.dec));
  }

  lemma HeadDrained(cfg: Cfg, w: World, ok: Session -> bool, t: Session, adopted: bool)
    requires InvBy(cfg, w, ok) && w.ready != [] && ok(t)
    requires var s := w.all[w.ready[0].id - 1]; var d := w.ready[0].dec;
             && s.results != [] && t.results == s.results[1..] && MappedOf(t) <= MappedOf(s)
             && FdsOf(t) == FdsOf(s) + (if adopted then FdIfOpen(d.upstreamFD) else multiset{})
             && (adopted ==> d.upstreamFD > 0)
    ensures var u := With(w.(ready := w.ready[1..]), w.ready[0].id, t);
            InvBy(cfg, if adopted then u else u.(open := u.open - {w.ready[0].dec.upstreamFD}), ok)
  {
    hide FdsOf, FdIfOpen, FdsBalance, ResultsFor;
    var u := With(w.(ready := w.ready[1..]), w.ready[0].id, t);
    var v := if adopted then u else u.(open := u.open - {w.ready[0].dec.upstreamFD});
    ReplaceOne(cfg, w, ok, w.ready[0].id, t);
    HeadBalance(w, t, adopted);
    HeadReady(w, u, t);
    HeadReady(w, v, t);
  }

  lemma HeadBalance(w: World, t: Session, adopted: bool)
    requires FdsBalance(w) && ReadyOk(w) && w.ready != []
    requires FdsOf(t) == FdsOf(w.all[w.ready[0].id - 1]) + (if adopted then FdIfOpen(w.ready[0].dec.upstreamFD) else multiset{})
    requires adopted ==> w.ready[0].dec.upstreamFD > 0
    ensures var u := With(w.(ready := w.ready[1..]), w.ready[0].id, t);
            FdsBalance(if adopted then u else u.(open := u.open - {w.ready[0].dec.upstreamFD}))
  {
    hide FdsOf, ResultsFor, FdIfOpen;
    var r := w.ready[0];
    var u := With(w.(ready := w.ready[1..]), r.id, t);
    FdsUpdate(w.all, r.id - 1, t);
    HandOver(Fds(w.all), Fds(u.all), FdsOf(w.all[r.id - 1]), FdsOf(t), FdIfOpen(r.dec.upstreamFD),
             ReadyFds(u.ready), w.unclosed, w.open, r.dec.upstreamFD, adopted);
  }

  lemma HeadReady(w: World, v: World, t: Session)
    requires ReadyOk(w) && w.ready != [] && t.results == w.all[w.ready[0].id - 1].results[1..]
    requires w.all[w.ready[0].id - 1].results != []
    requires v.ready == w.ready[1..] && v.all == w.all[w.ready[0].id - 1 := t]
    ensures ReadyOk(v)
  {
    forall i | 0 <= i < |v.all| ensures ResultsFor(v.ready, i + 1) == v.all[i].results {
      assert ResultsFor(w.ready, i + 1) == w.all[i].results;
    }
  }

  lemma HandOver(a: multiset<int>, b: multiset<int>, x: multiset<int>, y: multiset<int>, m: multiset<int>,
                 r: multiset<int>, c: multiset<int>, open: set<int>, fd: int, adopted: bool)
    requires b + x == a + y && y == x + (if adopted then m else multiset{})
    requires m == FdIfOpen(fd) && a + (m + r) + c == multiset(open) && (fd <= 0 ==> !adopted)
    requires fd <= 0 ==> fd !in open
    ensures b + r + c == multiset(if adopted then open else open - {fd})
  {
    if adopted {
      SameAddend(b, a + m, x) by { assert (a + m) + x == a + y; }
      assert b + r + c == a + (m + r) + c;
    } else {
      SameAddend(b, a, x);
      if fd > 0 {
        assert (b + r + c) + multiset{fd} == multiset(open);
        assert b + r + c == multiset(open) - multiset{fd};
        assert multiset(open)[fd] == 1;
      } else {
        assert open - {fd} == open;
      }
    }
  }

  lemma {:induction false} DrainAllKeeps(cfg: Cfg, w: World)
    requires GoodCfg(cfg) && Inv(cfg, w)
    ensures Inv(cfg, DrainAll(cfg, w)) && DrainAll(cfg, w).ready == []
    decreases |w.ready|
  {
    if w.ready != [] {
      DrainHeadKeeps(cfg, w);
      DrainAllKeeps(cfg, DrainOne(cfg, w.(ready := w.ready[1..]), w.ready[0]));
    }
  }

  // ---- every step, every run ----

  lemma StepKeeps(cfg: Cfg, w: World, e: Event)
    requires GoodCfg(cfg) && Inv(cfg, w) && Enabled(w, e)
    ensures Inv(cfg, Step(cfg, w, e))
  {
    match e
    case AcceptDone(res) => AcceptKeeps(cfg, w, res);
    case ConnDone(id, f, res, data) => ConnDoneKeeps(cfg, w, id, f, res, data);
    case ConnCloseDone(id, fd) => CloseDoneOk(cfg, w, id, fd);
    case ShedCloseDone =>
    case EventfdDone => DrainAllKeeps(cfg, w);
    case TimeoutDone => TimeoutKeeps(cfg, w);
    case BatchDone => BatchKeeps(cfg, w);
    case HookReturns(id, k, d) => HookReturnsKeeps(cfg, w, id, k, d);
    case KernelCloses(id, fd) => KernelClosesKeeps(cfg, w, id, fd);
    case KernelClosesShed(fd) => KernelClosesShedKeeps(cfg, w, fd);
    case StopCalled =>
  }

  lemma {:induction false} RunKeeps(cfg: Cfg, w: World, evs: seq<Event>)
    requires GoodCfg(cfg) && Inv(cfg, w) && Legal(cfg, w, evs)
    ensures Inv(cfg, Run(cfg, w, evs))
    decreases |evs|
  {
    hide InvBy;
    if evs != [] {
      StepKeeps(cfg, w, evs[0]);
      RunKeeps(cfg, Step(cfg, w, evs[0]), evs[1..]);
    }
  }

  /** Whatever the kernel, the Hook and the peers do, every state reached from the start is sound. */
  lemma Reachable(cfg: Cfg, evs: seq<Event>)
    requires GoodCfg(cfg) && Legal(cfg, Start(), evs)
    ensures Inv(cfg, Run(cfg, Start(), evs))
  {
    RunKeeps(cfg, Start(), evs);
  }
}
