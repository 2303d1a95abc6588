/** What each event does to the worker as a whole, again said of the world: which connection changes, what is
    counted, and when the worker returns (flashrelay/worker.go:288-305, 322-341, 554-583, 602-611). */
module RelayWorldEffects {
  import opened Basics
  import opened RelayTypes
  import opened RelaySession
  import opened RelayInv
  import opened RelaySteps
  import opened RelayWorld
  import opened RelaySums
  import opened RelaySafety
  import opened RelayLaws
  import opened RelayDrain
  import opened RelayReturn
  import opened RelayEffects

  // ---- accepts ----

  /** A connection just accepted: a read of the whole first buffer posted, and nothing else. */
  predicate IsNew(cfg: Cfg, s: Session, fd: int, tick: nat) {
    && s.mapped && !s.c.closing && !s.c.counted && s.c.clientFD == fd && s.c.upstreamFD == 0 && s.c.lastTick == tick
    && s.flights == multiset{Flight(RecvReq, fd, [], cfg.initialReqLen)} && NoHookWork(s)
    && s.closes == s.unclosed == multiset{} && s.h == NoHist()
  }

  /** One accept less is in flight, whatever its result. A failed one is counted; any other is a new
      connection, for there is room for every accept in flight. */
  lemma AcceptEffect(cfg: Cfg, w: World, res: int)
    requires Inv(cfg, w) && Enabled(w, AcceptDone(res))
    ensures var v := Step(cfg, w, AcceptDone(res)); var n := |w.all|;
            && v.accepts == w.accepts - 1
            && if res < 0 then v == w.(accepts := v.accepts, acceptErrors := w.acceptErrors + 1) else
               && |v.all| == n + 1 && v.all[..n] == w.all && IsNew(cfg, v.all[n], res, w.tick)
               && v == w.(accepts := v.accepts, all := v.all, open := w.open + {res})
  {
    hide AllOk, FdsBalance, ReadyOk, Sum, Accepted;
    AcceptedIs(cfg, w.tick, res);
  }

  lemma AcceptedIs(cfg: Cfg, tick: nat, fd: int)
    ensures IsNew(cfg, Accepted(cfg, tick, fd), fd, tick)
  {
  }

  // ---- closes ----

  /** One close less; with the last one the connection leaves the map, and is charged as completed if it was not
      charged before. */
  lemma CloseEffect(cfg: Cfg, s: Session, tick: nat, fd: int)
    requires GoodCfg(cfg) && SessionInv(cfg, s, tick) && fd in s.closes
    ensures var t := CloseDone(s, fd);
            && s.mapped && (t.mapped <==> |s.closes| > 1) && t.closes == s.closes - multiset{fd}
            && t.h == (if t.mapped || s.c.counted then s.h else s.h.(completed := s.h.completed + 1))
            && t == s.(mapped := t.mapped, closes := t.closes, c := s.c.(closesLeft := t.c.closesLeft), h := t.h)
  {
    hide InSomePhase, Lasting, SeenOk, Charged;
    if !s.mapped || !s.c.closing {
      NoClosesThen(cfg, s, tick, fd);
    }
  }

  lemma NoClosesThen(cfg: Cfg, s: Session, tick: nat, fd: int)
    requires SessionInv(cfg, s, tick) && fd in s.closes
    ensures s.mapped && s.c.closing
  {
    hide InSomePhase, Lasting, SeenOk, Charged, Delivered;
    assert |s.closes| > 0;
  }

  // ---- the pool ----

  /** A Hook's answer goes to the end of the list and of its connection's results; the request is no longer at
      the pool. */
  lemma HookEffect(cfg: Cfg, w: World, id: nat, k: nat, d: Decision)
    requires Enabled(w, HookReturns(id, k, d))
    ensures var v := Step(cfg, w, HookReturns(id, k, d)); var s := w.all[id - 1];
            && v.ready == w.ready + [HookResult(id, d)] && |v.all| == |w.all|
            && (forall i :: 0 <= i < |w.all| && i != id - 1 ==> v.all[i] == w.all[i])
            && v.all[id - 1] == s.(jobs := v.all[id - 1].jobs, results := s.results + [d])
            && multiset(v.all[id - 1].jobs) == multiset(s.jobs) - multiset{s.jobs[k]}
            && v == w.(ready := v.ready, all := v.all, open := if d.upstreamFD > 0 then w.open + {d.upstreamFD} else w.open)
  {
    var s := w.all[id - 1];
    assert s.jobs == s.jobs[..k] + [s.jobs[k]] + s.jobs[k + 1..];
  }

  // ---- the timer ----

  /** A quiet connection is closed and charged as idle; any other is left as it is. */
  lemma SweepEffect(cfg: Cfg, s: Session, tick: nat)
    requires SessionInv(cfg, s, tick)
    ensures var t := Sweep(cfg, s, tick);
            if s.mapped && !s.c.closing && tick - s.c.lastTick > cfg.idleTicks then
              && RelayEffects.Closes(s, t) && t.c.counted && t.h.idle == s.h.idle + 1
              && SameCharges(t.h.(idle := s.h.idle, again := s.h.again), s.h) && t.h.again == s.h.again + B2N(s.c.counted)
              && t.flights == s.flights && t.jobs == s.jobs && t.results == s.results
            else t == s
  {
    hide InSomePhase, SeenOk, Charged, CloseConn;
    var u := s.(c := s.c.(counted := true),
                h := s.h.(idle := s.h.idle + 1, again := s.h.again + (if s.c.counted then 1 else 0)));
    if Live(s) {
      CloseIs(u);
    }
  }

  /** The tick moves, and every tenth one sweeps all connections if idle closing is on. */
  lemma TimerEffect(cfg: Cfg, w: World)
    requires Enabled(w, TimeoutDone)
    ensures var v := Step(cfg, w, TimeoutDone);
            && v == w.(tick := w.tick + 1, all := v.all) && |v.all| == |w.all|
            && forall i :: 0 <= i < |w.all| ==>
                 v.all[i] == if cfg.idleTicks > 0 && v.tick % 10 == 0 then Sweep(cfg, w.all[i], v.tick) else w.all[i]
  {
    hide Sweep;
  }

  // ---- the list of answers ----

  /** What a connection becomes when its answers are taken off the list. */
  function Given(cfg: Cfg, s: Session, tick: nat): Session {
    if s.results == [] then s else Drain(cfg, s, tick, s.results[0])
  }

  lemma TakesOne(cfg: Cfg, s: Session, tick: nat, d: Decision)
    ensures Drain(cfg, s, tick, d).results == if s.results == [] then [] else s.results[1..]
  {
    hide GrowReq, FlightOf, Slice, Zeros;
  }

  lemma AtMostOne(cfg: Cfg, w: World, i: nat)
    requires Inv(cfg, w) && i < |w.all|
    ensures |w.all[i].results| <= 1
  {
    hide InvBy, InSomePhase, SeenOk, Charged, Delivered;
    SoundConn(cfg, w, i);
  }

  /** The head of the list is its own connection's answer. */
  lemma HeadIsOwn(cfg: Cfg, w: World)
    requires Inv(cfg, w) && w.ready != []
    ensures IsConn(w, w.ready[0].id) && w.all[w.ready[0].id - 1].results == [w.ready[0].dec]
  {
    hide AllOk, FdsBalance, AcceptsOk;
    var r := w.ready[0];
    assert ResultsFor(w.ready, r.id) == [r.dec] + ResultsFor(w.ready[1..], r.id);
    AtMostOne(cfg, w, r.id - 1);
    assert ResultsFor(w.ready, (r.id - 1) + 1) == w.all[r.id - 1].results;
  }

  lemma NoListNoResults(cfg: Cfg, w: World, i: nat)
    requires Inv(cfg, w) && w.ready == [] && i < |w.all|
    ensures w.all[i].results == []
  {
    hide AllOk, FdsBalance, AcceptsOk;
    assert ResultsFor(w.ready, i + 1) == w.all[i].results;
  }

  lemma HeadGiven(cfg: Cfg, w: World)
    requires w.ready != [] && IsConn(w, w.ready[0].id) && w.all[w.ready[0].id - 1].results == [w.ready[0].dec]
    ensures var i := w.ready[0].id - 1; var v := DrainOne(cfg, w.(ready := w.ready[1..]), w.ready[0]);
            && v == w.(all := w.all[i := Given(cfg, w.all[i], w.tick)], open := v.open, ready := w.ready[1..])
            && v.all[i].results == []
  {
    hide Drain, Adopts;
    TakesOne(cfg, w.all[w.ready[0].id - 1], w.tick, w.ready[0].dec);
  }

  /** The list is emptied: each connection that had an answer on it is given that answer, and no other changes;
      nor does anything else but the descriptors that are closed on the spot. */
  lemma {:induction false} ListEffect(cfg: Cfg, w: World)
    requires GoodCfg(cfg) && Inv(cfg, w)
    ensures var v := DrainAll(cfg, w);
            && v == w.(all := v.all, open := v.open, ready := []) && |v.all| == |w.all|
            && forall i :: 0 <= i < |w.all| ==> v.all[i] == Given(cfg, w.all[i], w.tick)
    decreases |w.ready|
  {
    hide Inv, Drain, DrainOne;
    if w.ready == [] {
      forall i | 0 <= i < |w.all| ensures w.all[i].results == [] {
        NoListNoResults(cfg, w, i);
      }
    } else {
      var r := w.ready[0];
      HeadIsOwn(cfg, w);
      DrainHeadKeeps(cfg, w);
      HeadGiven(cfg, w);
      ListEffect(cfg, DrainOne(cfg, w.(ready := w.ready[1..]), r));
    }
  }

  // ---- the end of a batch ----

  /** The worker returns at the end of a batch if it is stopping and its map is empty, whatever was accepted, turned
      away, left on the list or is still in flight; and at no other time. */
  lemma ReturnsIff(cfg: Cfg, w: World, e: Event)
    requires Enabled(w, e) && !w.exited
    ensures Step(cfg, w, e).exited <==> e.BatchDone? && w.stopping && Mapped(w) == 0
  {
    hide Complete, CloseDone, SweepAll, Accepted, DrainAll, Sum, ResultOk, TopUp;
    DrainedRuns(cfg, w);
  }

  /** The end of a batch changes nothing but that, or the accepts in flight. */
  lemma BatchEffect(cfg: Cfg, w: World)
    requires Enabled(w, BatchDone)
    ensures var v := Step(cfg, w, BatchDone);
            v == if w.stopping then w.(exited := v.exited) else w.(accepts := v.accepts)
  {
    hide TopUp, Sum;
  }

  /** Stop only tells the worker to stop, and the close of a connection turned away is of no concern to it. */
  lemma QuietEvents(cfg: Cfg, w: World)
    requires !w.exited
    ensures Step(cfg, w, StopCalled) == w.(stopping := true) && Step(cfg, w, ShedCloseDone) == w
  {
  }

  lemma StepStops(cfg: Cfg, w: World, e: Event)
    requires Enabled(w, e)
    ensures var v := Step(cfg, w, e);
            && (v.stopping <==> w.stopping || e.StopCalled?) && (v.exited ==> w.exited || w.stopping)
  {
    hide Complete, CloseDone, SweepAll, Accepted, DrainAll, Sum, ResultOk, TopUp;
    DrainedRuns(cfg, w);
    DrainedReady(cfg, w);
  }

  /** The worker is stopping if and only if it was told to stop; a worker that was not never returns. */
  lemma {:induction false} StopsIfTold(cfg: Cfg, w: World, evs: seq<Event>)
    requires Legal(cfg, w, evs) && (w.exited ==> w.stopping)
    ensures var v := Run(cfg, w, evs);
            && (v.stopping <==> w.stopping || exists k :: 0 <= k < |evs| && evs[k].StopCalled?)
            && (v.exited ==> v.stopping)
    decreases |evs|
  {
    hide Step, Enabled;
    if evs != [] {
      var rest := evs[1..];
      StepStops(cfg, w, evs[0]);
      StopsIfTold(cfg, Step(cfg, w, evs[0]), rest);
      assert forall k :: 0 < k < |evs| ==> evs[k] == rest[k - 1];
      if v :| 0 <= v < |rest| && rest[v].StopCalled? {
        assert evs[v + 1].StopCalled?;
      }
    }
  }

  /** From Stop to the return: a run past Stop that has made all the progress there was has returned, or returns
      at the end of its next batch. */
  lemma ReturnsAfterStop(cfg: Cfg, b: Supply, w: World, evs: seq<Event>)
    requires GoodCfg(cfg) && Inv(cfg, w) && w.stopping && RepliesWithin(b, w)
    requires Legal(cfg, w, evs) && SuppliedIn(cfg, b, w, evs) && ProgressIn(cfg, w, evs) >= TotalWork(b, w)
    ensures var v := Run(cfg, w, evs); v.exited || (Enabled(v, BatchDone) && Step(cfg, v, BatchDone).exited)
  {
    hide InvBy, Run, Legal, TotalWork, RepliesWithin, SuppliedIn, ProgressIn, Progress, Sum, Step;
    WindsDown(cfg, b, w, evs);
    var v := Run(cfg, w, evs);
    MappedNatural(v);
    if !v.exited {
      ReturnsIff(cfg, v, BatchDone);
    }
  }
}
