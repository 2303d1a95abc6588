/** What is left open when a worker returns: it does so when it is stopping and its map is empty, whatever is
    still at the Hook or on the ready list (flashrelay/worker.go:147-153, 322-341, 602-606). */
module RelayReturn {
  import opened RelayTypes
  import opened RelaySession
  import opened RelayInv
  import opened RelaySteps
  import opened RelayWorld
  import opened RelaySums
  import opened RelaySafety
  import opened RelayLaws
  import opened RelayDescriptors

  /** The descriptor is open and no close of it is under way. */
  ghost predicate LeftOpen(w: World, fd: int) {
    fd in w.open && fd !in w.unclosed && forall i :: 0 <= i < |w.all| ==> fd !in w.all[i].unclosed
  }

  // ---- with an empty map ----

  lemma NotMappedNow(all: seq<Session>, i: nat)
    requires Sum(all, MappedOf) <= 0 && i < |all|
    ensures !all[i].mapped
  {
    hide Sum;
    SumNonNegative(all, MappedOf);
    assert MappedOf(all[i]) <= Sum(all, MappedOf);
  }

  lemma {:induction false} FdsFrom(all: seq<Session>, fd: int) returns (i: nat)
    requires fd in Fds(all)
    ensures i < |all| && fd in FdsOf(all[i])
  {
    hide FdsOf;
    var n := |all| - 1;
    if fd in FdsOf(all[n]) {
      i := n;
    } else {
      i := FdsFrom(all[..n], fd);
    }
  }

  lemma UnmappedFds(s: Session)
    requires !s.mapped
    ensures FdsOf(s) == s.unclosed
  {
  }

  /** What is left open then is what the undrained results hold. */
  lemma LeftOpenIff(cfg: Cfg, w: World, fd: int)
    requires Inv(cfg, w) && Mapped(w) <= 0
    ensures LeftOpen(w, fd) <==> fd in ReadyFds(w.ready)
  {
    hide AllOk, ReadyOk, AcceptsOk, FdsOf, Fds, ReadyFds, Sum;
    var r, held := ReadyFds(w.ready), Fds(w.all) + w.unclosed;
    assert held + r == multiset(w.open);
    if fd in r {
      OnceEach(r, held, w.open, fd);
      forall i | 0 <= i < |w.all| ensures fd !in w.all[i].unclosed {
        NotMappedNow(w.all, i);
        UnmappedFds(w.all[i]);
        FdsMember(w.all, i);
      }
    } else if LeftOpen(w, fd) {
      assert fd in multiset(w.open);
      assert fd in Fds(w.all);
      var i := FdsFrom(w.all, fd);
      NotMappedNow(w.all, i);
      UnmappedFds(w.all[i]);
    }
  }

  // ---- returned workers ----

  lemma {:induction false} RunReturned(cfg: Cfg, w: World, evs: seq<Event>)
    requires (w.exited ==> Mapped(w) <= 0) && Legal(cfg, w, evs)
    ensures var v := Run(cfg, w, evs); v.exited ==> Mapped(v) <= 0
    decreases |evs|
  {
    hide Step, Enabled, Mapped;
    if evs != [] {
      StepReturned(cfg, w, evs[0]);
      RunReturned(cfg, Step(cfg, w, evs[0]), evs[1..]);
    }
  }

  lemma StepReturned(cfg: Cfg, w: World, e: Event)
    requires (w.exited ==> Mapped(w) <= 0) && Enabled(w, e)
    ensures var v := Step(cfg, w, e); v.exited ==> Mapped(v) <= 0
  {
    hide Complete, CloseDone, SweepAll, Accepted, DrainAll, Sum, ResultOk;
    match e
    case HookReturns(id, k, d) =>
      SumUpdate(w.all, MappedOf, id - 1, Returned(w.all[id - 1], k, d));
    case KernelCloses(id, fd) =>
      SumUpdate(w.all, MappedOf, id - 1, KernelClosed(w.all[id - 1], fd));
    case EventfdDone => DrainedRuns(cfg, w);
    case _ =>
  }

  lemma {:induction false} DrainedRuns(cfg: Cfg, w: World)
    ensures DrainAll(cfg, w).exited == w.exited
    decreases |w.ready|
  {
    hide Drain, Adopts;
    if w.ready != [] {
      DrainedRuns(cfg, DrainOne(cfg, w.(ready := w.ready[1..]), w.ready[0]));
    }
  }

  /** Once the worker has returned it stays so, and its list only grows. */
  lemma {:induction false} ListGrows(cfg: Cfg, w: World, more: seq<Event>)
    requires w.exited && Legal(cfg, w, more)
    ensures var v := Run(cfg, w, more); v.exited && w.ready <= v.ready
    decreases |more|
  {
    hide Returned, KernelClosed;
    if more != [] {
      ListGrows(cfg, Step(cfg, w, more[0]), more[1..]);
    }
  }

  lemma {:induction false} ReadyFdsGrow(ready: seq<HookResult>, later: seq<HookResult>)
    requires ready <= later
    ensures ReadyFds(ready) <= ReadyFds(later)
  {
    if ready != [] {
      ReadyFdsGrow(ready[1..], later[1..]);
    }
  }

  /** What is left open by a worker that has returned is left open for good. */
  lemma LeftForGood(cfg: Cfg, evs: seq<Event>, more: seq<Event>, fd: int)
    requires GoodCfg(cfg) && Legal(cfg, Start(), evs) && Run(cfg, Start(), evs).exited
    requires Legal(cfg, Run(cfg, Start(), evs), more) && LeftOpen(Run(cfg, Start(), evs), fd)
    ensures LeftOpen(Run(cfg, Run(cfg, Start(), evs), more), fd)
  {
    hide Run, Legal, InvBy, LeftOpen, ReadyFds, Mapped;
    var w := Run(cfg, Start(), evs);
    var v := Run(cfg, w, more);
    Reachable(cfg, evs);
    ReturnedEmpty(cfg, evs);
    RunKeeps(cfg, w, more);
    RunReturned(cfg, w, more);
    ListGrows(cfg, w, more);
    ReadyFdsGrow(w.ready, v.ready);
    LeftOpenIff(cfg, w, fd);
    LeftOpenIff(cfg, v, fd);
  }

  lemma ReturnedEmpty(cfg: Cfg, evs: seq<Event>)
    requires Legal(cfg, Start(), evs)
    ensures Run(cfg, Start(), evs).exited ==> Mapped(Run(cfg, Start(), evs)) <= 0
  {
    RunReturned(cfg, Start(), evs);
  }

  // ---- when nothing leaks ----

  /** Whatever happens after `w`, no descriptor is left open. */
  ghost predicate NeverLeaks(cfg: Cfg, w: World) {
    forall more: seq<Event>, fd: int :: Legal(cfg, w, more) ==> !LeftOpen(Run(cfg, w, more), fd)
  }

  /** No undrained result holds a descriptor, and no request is at the pool. */
  ghost predicate NoneOwed(w: World) {
    && (forall k :: 0 <= k < |w.ready| ==> w.ready[k].dec.upstreamFD <= 0)
    && (forall i :: 0 <= i < |w.all| ==> w.all[i].jobs == [])
  }

  lemma {:induction false} NoFdsReady(ready: seq<HookResult>)
    ensures ReadyFds(ready) == multiset{} <==> forall k :: 0 <= k < |ready| ==> ready[k].dec.upstreamFD <= 0
  {
    if ready != [] {
      NoFdsReady(ready[1..]);
      assert forall k :: 0 < k < |ready| ==> ready[k] == ready[1..][k - 1];
      if ready[0].dec.upstreamFD > 0 {
        assert ready[0].dec.upstreamFD in ReadyFds(ready);
      } else {
        assert forall k :: 0 <= k < |ready[1..]| ==> ready[1..][k] == ready[k + 1];
      }
    }
  }

  lemma {:induction false} StaysUnowed(cfg: Cfg, w: World, more: seq<Event>)
    requires w.exited && NoneOwed(w) && Legal(cfg, w, more)
    ensures NoneOwed(Run(cfg, w, more))
    decreases |more|
  {
    if more != [] {
      StaysUnowed(cfg, Step(cfg, w, more[0]), more[1..]);
    }
  }

  lemma {:induction false} FreshFd(open: set<int>) returns (fd: int)
    ensures fd > 0 && forall x :: x in open ==> x < fd
    decreases |open|
  {
    if x :| x in open {
      fd := FreshFd(open - {x});
      fd := if x < fd then fd else x + 1;
      assert forall y :: y in open ==> y == x || y in open - {x};
    } else {
      fd := 1;
    }
  }

  /** A Hook that is still deciding can dial. */
  lemma LateDial(cfg: Cfg, w: World, i: nat) returns (e: Event, fd: int)
    requires i < |w.all| && w.all[i].jobs != []
    ensures Enabled(w, e) && fd in ReadyFds(Step(cfg, w, e).ready)
  {
    hide Returned;
    fd := FreshFd(w.open);
    var d := Decision(fd, [], false, false, 0);
    e := HookReturns(i + 1, 0, d);
    ReadyFdsAppend(w.ready, HookResult(i + 1, d));
  }

  lemma NoMore(cfg: Cfg, w: World)
    ensures Legal(cfg, w, []) && Run(cfg, w, []) == w
  {
  }

  lemma OneMore(cfg: Cfg, w: World, e: Event)
    requires Enabled(w, e)
    ensures Legal(cfg, w, [e]) && Run(cfg, w, [e]) == Step(cfg, w, e)
  {
    assert [e][1..] == [];
  }

  /** A worker that has returned never leaks a descriptor, then or later, if and only if no undrained result
      holds one and no request is still at the pool. With idle closing off that is always so. */
  lemma NoLeak(cfg: Cfg, evs: seq<Event>)
    requires GoodCfg(cfg) && Legal(cfg, Start(), evs) && Run(cfg, Start(), evs).exited
    ensures NeverLeaks(cfg, Run(cfg, Start(), evs)) <==> NoneOwed(Run(cfg, Start(), evs))
    ensures cfg.idleTicks == 0 ==> NoneOwed(Run(cfg, Start(), evs))
  {
    hide Run, Legal, InvBy, LeftOpen, Mapped, NoneOwed;
    var w := Run(cfg, Start(), evs);
    Reachable(cfg, evs);
    ReturnedEmpty(cfg, evs);
    if NoneOwed(w) {
      forall more: seq<Event>, fd: int | Legal(cfg, w, more) ensures !LeftOpen(Run(cfg, w, more), fd) {
        var v := Run(cfg, w, more);
        StaysUnowed(cfg, w, more);
        RunKeeps(cfg, w, more);
        RunReturned(cfg, w, more);
        ListGrows(cfg, w, more);
        NothingOwed(v);
        LeftOpenIff(cfg, v, fd);
      }
    } else {
      var more, fd := Leak(cfg, w);
      assert LeftOpen(Run(cfg, w, more), fd);
    }
    if cfg.idleTicks == 0 {
      NothingLate(cfg, w);
    }
  }

  lemma NothingOwed(w: World)
    requires NoneOwed(w)
    ensures ReadyFds(w.ready) == multiset{}
  {
    NoFdsReady(w.ready);
  }

  lemma HeldFd(w: World) returns (fd: int)
    requires !NoneOwed(w) && forall i :: 0 <= i < |w.all| ==> w.all[i].jobs == []
    ensures fd in ReadyFds(w.ready)
  {
    var k :| 0 <= k < |w.ready| && w.ready[k].dec.upstreamFD > 0;
    fd := w.ready[k].dec.upstreamFD;
    HeldAt(w.ready, k);
  }

  lemma {:induction false} HeldAt(ready: seq<HookResult>, k: nat)
    requires k < |ready| && ready[k].dec.upstreamFD > 0
    ensures ready[k].dec.upstreamFD in ReadyFds(ready)
  {
    if k > 0 {
      HeldAt(ready[1..], k - 1);
    }
  }

  /** What is owed can be left open. */
  lemma Leak(cfg: Cfg, w: World) returns (more: seq<Event>, fd: int)
    requires GoodCfg(cfg) && Inv(cfg, w) && w.exited && Mapped(w) <= 0 && !NoneOwed(w)
    ensures Legal(cfg, w, more) && LeftOpen(Run(cfg, w, more), fd)
  {
    hide InvBy, LeftOpen, Mapped, ReadyFds, Step, Enabled, Run, Legal;
    NoMore(cfg, w);
    if i :| 0 <= i < |w.all| && w.all[i].jobs != [] {
      var e;
      e, fd := LateDial(cfg, w, i);
      more := [e];
      OneMore(cfg, w, e);
    } else {
      more := [];
      fd := HeldFd(w);
    }
    RunKeeps(cfg, w, more);
    RunReturned(cfg, w, more);
    ListGrows(cfg, w, more);
    LeftOpenIff(cfg, Run(cfg, w, more), fd);
  }

  /** With idle closing off a connection leaves the map with nothing at the Hook. */
  lemma NothingLate(cfg: Cfg, w: World)
    requires GoodCfg(cfg) && cfg.idleTicks == 0 && Inv(cfg, w) && Mapped(w) <= 0
    ensures NoneOwed(w)
  {
    hide SessionInv, AllOk, FdsBalance, AcceptsOk;
    forall i | 0 <= i < |w.all| ensures w.all[i].jobs == [] && w.all[i].results == [] {
      SoundConn(cfg, w, i);
      NotMappedNow(w.all, i);
      NothingAtHookOf(cfg, w.all[i], w.tick);
    }
    if w.ready != [] {
      var i := FirstResult(w);
    }
  }

  lemma FirstResult(w: World) returns (i: nat)
    requires ReadyOk(w) && w.ready != []
    ensures i < |w.all| && w.all[i].results != []
  {
    i := w.ready[0].id - 1;
    assert ResultsFor(w.ready, i + 1) == w.all[i].results;
  }

  lemma NothingAtHookOf(cfg: Cfg, s: Session, tick: nat)
    requires cfg.idleTicks == 0 && SessionInv(cfg, s, tick) && !s.mapped
    ensures s.jobs == [] && s.results == []
  {
    hide Lasting, Delivered;
  }
}
