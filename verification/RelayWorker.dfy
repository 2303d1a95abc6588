/** The worker as an object: its map, counters and ready list updated in place, every handler proved
    to take exactly the step of RelayWorld (flashrelay/worker.go:134-613). */
module RelayWorker {
  import opened RelayTypes
  import T = RelaySession
  import opened RelayInv
  import opened RelayWorld
  import opened RelaySums
  import opened RelaySafety
  import opened RelayLaws
  import opened RelayLedger
  import opened RelayConn
  import opened RelayDispatch
  import opened UserData

  // ---- the counters against the record ----

  datatype Totals = Totals(
    accepted: int, completed: int, rejected: int, shed: int, idleClosed: int, errors: int,
    bytesC2U: int, bytesU2C: int, live: int)

  function Read(cnt: Counters): Totals
    reads cnt
  {
    Totals(cnt.accepted, cnt.completed, cnt.rejected, cnt.shed, cnt.idleClosed, cnt.errors,
           cnt.bytesC2U, cnt.bytesU2C, cnt.live)
  }

  /** What the counters must read. */
  function Tally(w: World): Totals {
    Totals(AcceptedCount(w), Sum(w.all, CompletedOf), Sum(w.all, RejectedOf), w.shed, Sum(w.all, IdleOf),
           Sum(w.all, ErrorsOf) + w.acceptErrors, Sum(w.all, BytesUpOf), Sum(w.all, BytesDownOf), Sum(w.all, LiveOf))
  }

  /** The counters after one connection has gone from `s` to `t`. */
  function Shifted(n: Totals, s: Session, t: Session): Totals {
    n.(completed := n.completed + CompletedOf(t) - CompletedOf(s),
       rejected := n.rejected + RejectedOf(t) - RejectedOf(s),
       idleClosed := n.idleClosed + IdleOf(t) - IdleOf(s),
       errors := n.errors + ErrorsOf(t) - ErrorsOf(s),
       bytesC2U := n.bytesC2U + BytesUpOf(t) - BytesUpOf(s),
       bytesU2C := n.bytesU2C + BytesDownOf(t) - BytesDownOf(s),
       live := n.live + LiveOf(t) - LiveOf(s))
  }

  lemma TallyMoved(w: World, v: World, i: nat, t: Session)
    requires i < |w.all| && v.all == w.all[i := t] && v.acceptErrors == w.acceptErrors && v.shed == w.shed
    ensures Tally(v) == Shifted(Tally(w), w.all[i], t)
  {
    hide Sum;
    SumUpdate(w.all, CompletedOf, i, t);
    SumUpdate(w.all, RejectedOf, i, t);
    SumUpdate(w.all, IdleOf, i, t);
    SumUpdate(w.all, ErrorsOf, i, t);
    SumUpdate(w.all, BytesUpOf, i, t);
    SumUpdate(w.all, BytesDownOf, i, t);
    SumUpdate(w.all, LiveOf, i, t);
  }

  /** Charges and liveness are the same in both. */
  predicate SameCharges(s: Session, t: Session) {
    && t.h.completed == s.h.completed && t.h.rejected == s.h.rejected && t.h.idle == s.h.idle
    && t.h.errors == s.h.errors && t.h.bytesUp == s.h.bytesUp && t.h.bytesDown == s.h.bytesDown
    && (t.mapped && !t.c.closing <==> s.mapped && !s.c.closing)
  }

  lemma NotMoved(n: Totals, s: Session, t: Session)
    requires SameCharges(s, t)
    ensures Shifted(n, s, t) == n
  {
  }

  lemma HarvestCharges(s: Session, f: Flight, res: int, data: seq<byte>)
    ensures SameCharges(s, T.Harvested(s, f, res, data)) && T.Harvested(s, f, res, data).mapped == s.mapped
  {
  }

  // ---- the size of the map ----

  lemma {:induction false} MappedSize(all: seq<Session>, dom: set<nat>)
    requires forall id :: id in dom <==> 1 <= id <= |all| && all[id - 1].mapped
    ensures |dom| == Sum(all, MappedOf)
  {
    if all == [] {
      assert dom == {};
    } else {
      var n := |all|;
      var init := all[..n - 1];
      MappedSize(init, dom - {n});
      if all[n - 1].mapped {
        assert dom == (dom - {n}) + {n};
      } else {
        assert dom == dom - {n};
      }
    }
  }

  /** The test that goes with leaving the map: the last close is back. */
  predicate Leaves(s: Session) {
    s.mapped <==> !(s.c.closing && s.c.closesLeft <= 0)
  }

  lemma StillMapped(cfg: Cfg, s: Session, tick: nat)
    requires SessionInv(cfg, s, tick)
    ensures Leaves(s)
  {
    hide InSomePhase, Lasting, Delivered;
  }

  lemma DrainOneReady(cfg: Cfg, w: World, r: HookResult)
    ensures DrainOne(cfg, w, r).ready == w.ready
  {
    hide T.Drain;
  }

  lemma TallyAppended(w: World, v: World, t: Session)
    requires v.all == w.all + [t] && v.acceptErrors == w.acceptErrors && v.shed == w.shed
    ensures Tally(v) == Tally(w).(
              accepted := Tally(w).accepted + 1,
              completed := Tally(w).completed + CompletedOf(t),
              rejected := Tally(w).rejected + RejectedOf(t),
              idleClosed := Tally(w).idleClosed + IdleOf(t),
              errors := Tally(w).errors + ErrorsOf(t),
              bytesC2U := Tally(w).bytesC2U + BytesUpOf(t),
              bytesU2C := Tally(w).bytesU2C + BytesDownOf(t),
              live := Tally(w).live + LiveOf(t))
  {
    hide Sum;
    SumAppend(w.all, CompletedOf, t);
    SumAppend(w.all, RejectedOf, t);
    SumAppend(w.all, IdleOf, t);
    SumAppend(w.all, ErrorsOf, t);
    SumAppend(w.all, BytesUpOf, t);
    SumAppend(w.all, BytesDownOf, t);
    SumAppend(w.all, LiveOf, t);
  }

  lemma SweepLeaves(cfg: Cfg, s: Session, tick: nat)
    requires T.Quiet(cfg, s, tick)
    ensures Leaves(T.Sweep(cfg, s, tick))
  {
  }

  lemma ReturnedMapped(s: Session, k: nat, d: Decision)
    requires k < |s.jobs|
    ensures T.Returned(s, k, d).mapped == s.mapped && SameCharges(s, T.Returned(s, k, d))
  {
  }

  lemma AcceptedMapped(cfg: Cfg, tick: nat, fd: int)
    ensures T.Accepted(cfg, tick, fd).mapped
  {
  }

  lemma KernelClosedCharges(s: Session, fd: int)
    ensures SameCharges(s, T.KernelClosed(s, fd))
  {
  }

  lemma SweptMapped(cfg: Cfg, s: Session, tick: nat)
    ensures T.Sweep(cfg, s, tick).mapped ==> s.mapped
  {
  }

  /** A sweep in progress: every mapped connection has been visited but those in `left`. */
  ghost predicate SweptBut(cfg: Cfg, was: seq<Session>, now: seq<Session>, left: set<nat>, tick: nat) {
    && |now| == |was|
    && forall i :: 0 <= i < |was| ==>
         now[i] == if i + 1 in left || !was[i].mapped then was[i] else T.Sweep(cfg, was[i], tick)
  }

  lemma SweptNone(cfg: Cfg, all: seq<Session>, left: set<nat>, tick: nat)
    requires forall id :: id in left <==> 1 <= id <= |all| && all[id - 1].mapped
    ensures SweptBut(cfg, all, all, left, tick)
  {
  }

  lemma SweptNext(cfg: Cfg, was: seq<Session>, all: seq<Session>, left: set<nat>, tick: nat, id: nat)
    requires SweptBut(cfg, was, all, left + {id}, tick) && 1 <= id <= |all| && all[id - 1].mapped && id !in left
    ensures SweptBut(cfg, was, all[id - 1 := T.Sweep(cfg, all[id - 1], tick)], left, tick)
  {
    hide T.Sweep;
  }

  lemma SweptDone(cfg: Cfg, was: seq<Session>, now: seq<Session>, tick: nat)
    requires SweptBut(cfg, was, now, {}, tick)
    ensures now == SweepAll(cfg, was, tick)
  {
    forall i | 0 <= i < |was| ensures now[i] == T.Sweep(cfg, was[i], tick) {
    }
  }

  class Worker {
    const cfg: Cfg
    const cnt: Counters
    var conns: map<nat, Conn>
    var nextID: nat
    var tick: nat
    var acceptInflight: int
    var stop: bool
    var returned: bool
    var ready: seq<HookResult>
    /** Every connection object ever made, in id order, and the state they stand for. */
    ghost var objs: seq<Conn>
    ghost var w: World

    /** Each object stands for its connection, and the map holds exactly the mapped ones under their ids. */
    ghost predicate Tied()
      reads `conns, `nextID, `objs, `w, objs
    {
      && |objs| == |w.all| == nextID
      && (forall i, j :: 0 <= i < j < |objs| ==> objs[i] != objs[j])
      && (forall i :: 0 <= i < |objs| ==> objs[i].View() == w.all[i])
      && (forall id :: id in conns <==> 1 <= id <= |objs| && w.all[id - 1].mapped)
      && (forall id :: id in conns ==> conns[id] == objs[id - 1])
    }

    ghost predicate Core()
      reads this, cnt, objs
    {
      && Tied() && Read(cnt) == Tally(w)
      && tick == w.tick && acceptInflight == w.accepts && stop == w.stopping && returned == w.exited
    }

    ghost predicate Valid()
      reads this, cnt, objs
    {
      Core() && ready == w.ready && GoodCfg(cfg) && Inv(cfg, w)
    }

    constructor (c: Cfg)
      requires GoodCfg(c)
      ensures Valid() && cfg == c && w == Start() && objs == [] && fresh(cnt)
    {
      cfg := c;
      cnt := new Counters();
      conns, nextID, tick, acceptInflight, stop, returned, ready := map[], 0, 0, 0, false, false, [];
      objs, w := [], Start();
      new;
      Reachable(c, []);
    }

    lemma Sized()
      requires Tied()
      ensures |conns| == Mapped(w)
    {
      MappedSize(w.all, conns.Keys);
    }

    lemma Accounted()
      requires Valid()
      ensures Read(cnt) == Tally(w) && |conns| == Mapped(w)
    {
      hide Tied, Inv;
      Sized();
    }

    // ---- the frame of a handler: one object changed, or none ----

    /** After one object has changed, and the map entry has gone if the connection has left the map. */
    lemma Retied(id: nat, u: World, was: map<nat, Conn>)
      requires |objs| == |u.all| == nextID && 1 <= id <= |objs|
      requires forall i, j :: 0 <= i < j < |objs| ==> objs[i] != objs[j]
      requires forall i :: 0 <= i < |objs| && i != id - 1 ==> objs[i].View() == u.all[i]
      requires forall k :: k in was <==> 1 <= k <= |objs| && u.all[k - 1].mapped
      requires forall k :: k in was ==> was[k] == objs[k - 1]
      requires w.all == u.all[id - 1 := objs[id - 1].View()]
      requires w.all[id - 1].mapped ==> u.all[id - 1].mapped
      requires conns == if w.all[id - 1].mapped then was else was - {id}
      ensures Tied()
    {
      hide Conn.Now;
    }

    /** The delete that goes with the last close. */
    method Forget(id: nat)
      requires id in conns
      requires Leaves(conns[id].View())
      modifies `conns
      ensures conns == if old(conns)[id].View().mapped then old(conns) else old(conns) - {id}
    {
      if conns[id].closing && conns[id].closesLeft <= 0 {
        conns := conns - {id};
      }
    }

    // ---- completions of data operations ----

    lemma DataTarget(id: nat, f: Flight, res: int, data: seq<byte>)
      requires Valid() && Enabled(w, ConnDone(id, f, res, data))
      ensures 1 <= id <= |objs| && |objs| == |w.all|
      ensures var s := w.all[id - 1]; var t := T.Complete(cfg, s, w.tick, f, res, data);
              && Step(cfg, w, ConnDone(id, f, res, data)) == With(w, id, t)
              && (Live(s) ==> Fits(s.c, f.kind, res, data))
              && Leaves(t) && (t.mapped ==> s.mapped) && (!Live(s) ==> t == T.Harvested(s, f, res, data))
    {
      hide Tally, T.ResultOk, T.Complete, T.Harvested, Fits, Leaves, FdsBalance, ReadyOk, AcceptsOk;
      ghost var s := w.all[id - 1];
      SoundConn(cfg, w, id - 1);
      CompletionSound(cfg, s, w.tick, f, res, data);
      StillMapped(cfg, T.Complete(cfg, s, w.tick, f, res, data), w.tick);
      CompleteActs(cfg, s, w.tick, f, res, data);
      if Live(s) {
        AlwaysFits(cfg, s, w.tick, f, res, data);
      }
    }

    method Carry(id: nat, op: nat, res: int, data: seq<byte>, ghost f: Flight)
      requires 1 <= id <= |objs| && op == OpOf(f.kind) && cfg.bufSize > 0
      requires id in conns <==> objs[id - 1].g.mapped
      requires id in conns ==> conns[id] == objs[id - 1]
      requires Live(objs[id - 1].View()) ==> Fits(objs[id - 1].Now(), f.kind, res, data)
      requires var s := objs[id - 1].View(); var t := T.Complete(cfg, s, tick, f, res, data);
               && Leaves(t) && (!Live(s) ==> t == T.Harvested(s, f, res, data))
      modifies `conns, cnt, objs[id - 1]
      ensures objs[id - 1].View() == T.Complete(cfg, old(objs[id - 1].View()), tick, f, res, data)
      ensures Read(cnt) == Shifted(old(Read(cnt)), old(objs[id - 1].View()), objs[id - 1].View())
      ensures conns == if objs[id - 1].View().mapped then old(conns) else old(conns) - {id}
    {
      hide T.Complete, T.Harvested, Fits;
      ghost var s := objs[id - 1].View();
      assert s.mapped == objs[id - 1].g.mapped && s.c.closing == objs[id - 1].closing;
      hide Conn.View;
      if id in conns && !conns[id].closing {
        Finish(cfg, cnt, conns[id], tick, op, res, data, f);
        Forget(id);
      } else {
        HarvestCharges(s, f, res, data);
        objs[id - 1].Harvest(f, res, data);
      }
    }

    method CarryOn(id: nat, op: nat, res: int, data: seq<byte>, ghost f: Flight)
      requires Tied() && 1 <= id <= |objs| && op == OpOf(f.kind) && cfg.bufSize > 0
      requires var s := w.all[id - 1]; var t := T.Complete(cfg, s, tick, f, res, data);
               && (Live(s) ==> Fits(s.c, f.kind, res, data))
               && Leaves(t) && (t.mapped ==> s.mapped) && (!Live(s) ==> t == T.Harvested(s, f, res, data))
      modifies `conns, `w, cnt, objs[id - 1]
      ensures Tied() && w == With(old(w), id, T.Complete(cfg, old(w).all[id - 1], tick, f, res, data))
      ensures Read(cnt) == Shifted(old(Read(cnt)), old(w).all[id - 1], w.all[id - 1])
    {
      hide T.Complete, T.Harvested, Fits, Leaves, Shifted, Read, Conn.Now;
      ghost var u := w;
      assert objs[id - 1].View() == w.all[id - 1];
      assert objs[id - 1].View().c == objs[id - 1].Now() && objs[id - 1].View().mapped == objs[id - 1].g.mapped;
      hide Conn.View;
      Carry(id, op, res, data, f);
      w := With(w, id, objs[id - 1].View());
      Retied(id, u, old(conns));
    }

    method OnData(id: nat, op: nat, res: int, data: seq<byte>, ghost f: Flight)
      requires Valid() && op == OpOf(f.kind) && Enabled(w, ConnDone(id, f, res, data))
      modifies this, cnt, objs
      ensures Valid() && objs == old(objs) && w == Step(cfg, old(w), ConnDone(id, f, res, data))
    {
      hide Inv, Tally, Enabled, Step, T.Complete, T.Harvested, Fits, Tied, Leaves, Shifted, Read;
      StepKeeps(cfg, w, ConnDone(id, f, res, data));
      DataTarget(id, f, res, data);
      ghost var u := w;
      CarryOn(id, op, res, data, f);
      TallyMoved(u, w, id - 1, w.all[id - 1]);
    }

    // ---- completions of closes ----

    method CloseOne(id: nat, ghost fd: int)
      requires 1 <= id <= |objs| && (id in conns <==> objs[id - 1].g.mapped)
      requires id in conns ==> conns[id] == objs[id - 1] && conns[id].closing
      modifies `conns, cnt, objs[id - 1]
      ensures objs[id - 1].View() == T.CloseDone(old(objs[id - 1].View()), fd)
      ensures Read(cnt) == Shifted(old(Read(cnt)), old(objs[id - 1].View()), objs[id - 1].View())
      ensures conns == if objs[id - 1].g.mapped then old(conns) else old(conns) - {id}
    {
      if id in conns {
        hide T.CloseDone, Conn.Now;
        conns[id].OnClose(cnt, fd);
        if conns[id].closesLeft <= 0 {
          conns := conns - {id};
        }
      } else {
        objs[id - 1].CloseHarvested(fd);
      }
    }

    method CloseOn(id: nat, ghost fd: int)
      requires Tied() && 1 <= id <= |objs| && (w.all[id - 1].mapped ==> w.all[id - 1].c.closing)
      modifies `conns, `w, cnt, objs[id - 1]
      ensures Tied() && w == With(old(w), id, T.CloseDone(old(w).all[id - 1], fd))
      ensures Read(cnt) == Shifted(old(Read(cnt)), old(w).all[id - 1], w.all[id - 1])
    {
      hide T.CloseDone, Shifted, Read;
      ghost var u := w;
      assert objs[id - 1].View() == w.all[id - 1];
      assert objs[id - 1].View().c.closing == objs[id - 1].closing;
      hide Conn.Now;
      CloseOne(id, fd);
      ClosedMapped(u.all[id - 1], fd);
      w := With(w, id, objs[id - 1].View());
      Retied(id, u, old(conns));
    }

    lemma ClosedMapped(s: Session, fd: int)
      ensures T.CloseDone(s, fd).mapped ==> s.mapped
    {
    }

    lemma CloseTarget(id: nat, fd: int)
      requires Valid() && Enabled(w, ConnCloseDone(id, fd))
      ensures 1 <= id <= |objs| && |objs| == |w.all|
      ensures w.all[id - 1].mapped ==> w.all[id - 1].c.closing
    {
      hide InSomePhase, Lasting, FdsBalance, ReadyOk, AcceptsOk, Conn.View;
      SoundConn(cfg, w, id - 1);
    }

    method OnClosed(id: nat, ghost fd: int)
      requires Valid() && Enabled(w, ConnCloseDone(id, fd))
      modifies this, cnt, objs
      ensures Valid() && objs == old(objs) && w == Step(cfg, old(w), ConnCloseDone(id, fd))
    {
      hide Inv, Tally, Enabled, T.CloseDone, Tied, Shifted, Read;
      StepKeeps(cfg, w, ConnCloseDone(id, fd));
      CloseTarget(id, fd);
      ghost var u := w;
      CloseOn(id, fd);
      TallyMoved(u, w, id - 1, w.all[id - 1]);
    }

    // ---- Hook results ----

    /** A descriptor closed on the spot. */
    method CloseFd(fd: int)
      modifies `w
      ensures w == if fd > 0 then old(w).(open := old(w).open - {fd}) else old(w)
    {
      if fd > 0 {
        w := w.(open := w.open - {fd});
      }
    }

    method AnswerOn(id: nat, d: Decision)
      requires Tied() && 1 <= id <= |objs| && cfg.bufSize > 0
      requires var s := w.all[id - 1]; var t := T.Drain(cfg, s, tick, d);
               (Live(s) ==> Answerable(s.c)) && Leaves(t) && (t.mapped ==> s.mapped)
      modifies `conns, `w, cnt, objs[id - 1]
      ensures Tied() && Read(cnt) == Shifted(old(Read(cnt)), old(w).all[id - 1], w.all[id - 1])
      ensures w == With(old(w), id, T.Drain(cfg, old(w).all[id - 1], tick, d))
    {
      hide T.Drain, Shifted, Read, Leaves, Conn.Now;
      ghost var u := w;
      assert objs[id - 1].View() == w.all[id - 1];
      AnswerOne(id, d);
      w := With(w, id, objs[id - 1].View());
      Retied(id, u, old(conns));
    }

    /** One drained result. A descriptor that the connection does not take over is closed on the spot. */
    method Answer(id: nat, d: Decision)
      requires Tied() && 1 <= id <= |objs| && cfg.bufSize > 0
      requires var s := w.all[id - 1]; var t := T.Drain(cfg, s, tick, d);
               (Live(s) ==> Answerable(s.c)) && Leaves(t) && (t.mapped ==> s.mapped)
      modifies `conns, `w, cnt, objs[id - 1]
      ensures Tied() && Read(cnt) == Shifted(old(Read(cnt)), old(w).all[id - 1], w.all[id - 1])
      ensures var v := With(old(w), id, T.Drain(cfg, old(w).all[id - 1], tick, d));
              w == if T.Adopts(old(w).all[id - 1], d) || d.upstreamFD <= 0 then v else v.(open := v.open - {d.upstreamFD})
    {
      hide T.Drain, Shifted, Read, Leaves, Answerable;
      assert objs[id - 1].View() == w.all[id - 1];
      assert objs[id - 1].View().c.closing == objs[id - 1].closing;
      if id !in conns || conns[id].closing || d.reject || d.more {
        CloseFd(d.upstreamFD);
      }
      hide Conn.View, Conn.Now;
      AnswerOn(id, d);
    }

    method AnswerOne(id: nat, d: Decision)
      requires 1 <= id <= |objs| && cfg.bufSize > 0
      requires id in conns <==> objs[id - 1].g.mapped
      requires id in conns ==> conns[id] == objs[id - 1]
      requires var s := objs[id - 1].View(); (Live(s) ==> Answerable(s.c)) && Leaves(T.Drain(cfg, s, tick, d))
      modifies `conns, cnt, objs[id - 1]
      ensures objs[id - 1].View() == T.Drain(cfg, old(objs[id - 1].View()), tick, d)
      ensures Read(cnt) == Shifted(old(Read(cnt)), old(objs[id - 1].View()), objs[id - 1].View())
      ensures conns == if objs[id - 1].View().mapped then old(conns) else old(conns) - {id}
    {
      hide Leaves, T.Apply;
      ghost var s := objs[id - 1].View();
      assert s.mapped == objs[id - 1].g.mapped && s.c.closing == objs[id - 1].closing;
      if id in conns && !conns[id].closing {
        hide Conn.View, T.Drain;
        Settle(cfg, cnt, conns[id], tick, d);
        Forget(id);
      } else {
        objs[id - 1].TakeResult();
      }
    }

    lemma ResultTarget(r: HookResult)
      requires Core() && GoodCfg(cfg) && Inv(cfg, w) && w.ready != [] && r == w.ready[0]
      ensures 1 <= r.id <= |objs| && |objs| == |w.all|
      ensures var s := w.all[r.id - 1]; var t := T.Drain(cfg, s, w.tick, r.dec);
              (Live(s) ==> Answerable(s.c)) && Leaves(t) && (t.mapped ==> s.mapped)
      ensures r.dec.upstreamFD <= 0 ==> w.open - {r.dec.upstreamFD} == w.open
    {
      hide Tally, T.Drain, Leaves, FdsOf, SessionInv, Conn.View;
      ghost var s := w.all[r.id - 1];
      SoundConn(cfg, w, r.id - 1);
      assert ResultsFor(w.ready, r.id) == [r.dec] + ResultsFor(w.ready[1..], r.id);
      DrainSound(cfg, s, w.tick, r.dec);
      StillMapped(cfg, T.Drain(cfg, s, w.tick, r.dec), w.tick);
      if Live(s) {
        AlwaysAnswerable(cfg, s, w.tick);
      }
    }

    /** The body of the drain loop. */
    method DrainResult(r: HookResult)
      requires Core() && GoodCfg(cfg) && Inv(cfg, w) && w.ready != [] && r == w.ready[0]
      modifies `conns, `w, cnt, objs
      ensures Core() && Inv(cfg, w) && w == DrainOne(cfg, old(w).(ready := old(w).ready[1..]), r)
    {
      hide Inv, Tally, Tied, T.Drain, Leaves, Answerable, Shifted, Read;
      ResultTarget(r);
      DrainHeadKeeps(cfg, w);
      ghost var u := w;
      Record(w.(ready := w.ready[1..]));
      Answer(r.id, r.dec);
      TallyMoved(u, w, r.id - 1, w.all[r.id - 1]);
    }

    /** The bridge's drain. */
    method TakeReady() returns (r: seq<HookResult>)
      requires Core()
      modifies `ready
      ensures Core() && r == old(ready) && ready == []
    {
      r := ready;
      ready := [];
    }

    /** opEventfd, after the read is armed again and the flag is cleared: the list is taken and emptied,
        then every result on it is applied, in order. */
    method OnEventfd()
      requires Valid() && Enabled(w, EventfdDone)
      modifies this, cnt, objs
      ensures Valid() && objs == old(objs) && w == Step(cfg, old(w), EventfdDone)
    {
      hide Inv, DrainOne, Tied, Tally, Read;
      var r := TakeReady();
      ghost var goal := DrainAll(cfg, w);
      var i := 0;
      while i < |r|
        invariant 0 <= i <= |r| && ready == []
        invariant Core() && Inv(cfg, w) && w.ready == r[i..] && DrainAll(cfg, w) == goal
        invariant objs == old(objs)
      {
        ghost var u := w;
        DrainResult(r[i]);
        DrainOneReady(cfg, u.(ready := u.ready[1..]), r[i]);
        i := i + 1;
      }
    }

    // ---- the timer ----

    method SweepOne(id: nat)
      requires 1 <= id <= |objs| && id in conns && conns[id] == objs[id - 1] && conns[id].g.mapped
      modifies `conns, cnt, objs[id - 1]
      ensures objs[id - 1].View() == T.Sweep(cfg, old(objs[id - 1].View()), tick)
      ensures Read(cnt) == Shifted(old(Read(cnt)), old(objs[id - 1].View()), objs[id - 1].View())
      ensures conns == if objs[id - 1].View().mapped then old(conns) else old(conns) - {id}
    {
      var cc := conns[id];
      ghost var s := cc.View();
      assert s.c.closing == cc.closing && s.c.lastTick == cc.lastTick && s.mapped == cc.g.mapped;
      if T.Quiet(cfg, s, tick) {
        SweepLeaves(cfg, s, tick);
      }
      hide Conn.View, T.Sweep, Leaves;
      if !cc.closing && tick - cc.lastTick > cfg.idleTicks {
        cc.IdleClose(cnt, cfg, tick);
        Forget(id);
      }
    }

    method SweepOn(id: nat)
      requires Tied() && id in conns
      modifies `conns, `w, cnt, objs
      ensures Tied() && w == With(old(w), id, T.Sweep(cfg, old(w).all[id - 1], tick))
      ensures Read(cnt) == Shifted(old(Read(cnt)), old(w).all[id - 1], w.all[id - 1])
      ensures conns.Keys == old(conns.Keys) || conns.Keys == old(conns.Keys) - {id}
    {
      hide T.Sweep, Shifted, Read, Conn.Now;
      ghost var u := w;
      assert objs[id - 1].View() == w.all[id - 1];
      SweptMapped(cfg, w.all[id - 1], tick);
      SweepOne(id);
      w := With(w, id, objs[id - 1].View());
      Retied(id, u, old(conns));
    }

    method SweepCore(id: nat)
      requires Core() && id in conns
      modifies `conns, `w, cnt, objs
      ensures Core() && 1 <= id <= |old(w).all| && old(w).all[id - 1].mapped
      ensures w == With(old(w), id, T.Sweep(cfg, old(w).all[id - 1], tick))
      ensures conns.Keys == old(conns.Keys) || conns.Keys == old(conns.Keys) - {id}
    {
      hide Tied, Tally, Read, T.Sweep, Shifted;
      KeysMapped();
      ghost var v := w;
      SweepOn(id);
      TallyMoved(v, w, id - 1, w.all[id - 1]);
    }

    /** The range over the map, in whatever order it comes. */
    method SweepConns()
      requires Core()
      modifies `conns, `w, cnt, objs
      ensures Core() && w == old(w).(all := SweepAll(cfg, old(w).all, tick))
    {
      hide Tied, Tally, Read, T.Sweep, SweptBut, SweepAll;
      ghost var u := w;
      var left := conns.Keys;
      KeysMapped();
      SweptNone(cfg, w.all, left, tick);
      while left != {}
        invariant Core() && left <= conns.Keys && w == u.(all := w.all)
        invariant SweptBut(cfg, u.all, w.all, left, tick)
        decreases |left|
      {
        var id :| id in left;
        ghost var v, before := w, left;
        left := left - {id};
        assert left + {id} == before;
        SweepCore(id);
        SweptNext(cfg, u.all, v.all, left, tick, id);
      }
      SweptDone(cfg, u.all, w.all, tick);
    }

    lemma KeysMapped()
      requires Tied()
      ensures |objs| == |w.all|
      ensures forall id :: id in conns.Keys <==> 1 <= id <= |w.all| && w.all[id - 1].mapped
    {
    }

    method OnTimeout()
      requires Valid() && Enabled(w, TimeoutDone)
      modifies this, cnt, objs
      ensures Valid() && objs == old(objs) && w == Step(cfg, old(w), TimeoutDone)
    {
      hide Inv, Tally, Read, Tied;
      StepKeeps(cfg, w, TimeoutDone);
      Ticked();
      if cfg.idleTicks > 0 && tick % 10 == 0 {
        SweepConns();
      }
    }

    method Ticked()
      requires Core()
      modifies `tick, `w
      ensures Core() && w == old(w).(tick := old(w).tick + 1)
    {
      tick := tick + 1;
      w := w.(tick := tick);
    }

    // ---- the end of a batch ----

    /** The record moves on without any connection or charge changing. */
    ghost method Note(v: World)
      requires Tied() && v.all == w.all && v.acceptErrors == w.acceptErrors && v.shed == w.shed
      modifies `w
      ensures w == v && Tied() && Tally(w) == Tally(old(w))
    {
      hide Conn.View;
      w := v;
    }

    method TopUpAccepts()
      requires acceptInflight >= 0
      modifies `acceptInflight
      ensures acceptInflight == TopUp(cfg, |conns|, old(acceptInflight))
    {
      ghost var goal := TopUp(cfg, |conns|, acceptInflight);
      while acceptInflight < cfg.acceptBatch && |conns| + acceptInflight < cfg.maxConns
        invariant acceptInflight >= 0 && TopUp(cfg, |conns|, acceptInflight) == goal
      {
        acceptInflight := acceptInflight + 1;
      }
    }

    method OnBatchDone()
      requires Valid() && Enabled(w, BatchDone)
      modifies this
      ensures Valid() && objs == old(objs) && w == Step(cfg, old(w), BatchDone)
    {
      hide Inv, Tally, Read, Mapped, TopUp, Tied;
      StepKeeps(cfg, w, BatchDone);
      Sized();
      ghost var v := Step(cfg, w, BatchDone);
      Note(v);
      if stop {
        if |conns| == 0 {
          returned := true;
        }
      } else {
        TopUpAccepts();
      }
    }

    // ---- a new connection ----

    method Admit(fd: int)
      requires Tied() && cfg.initialReqLen > 0
      modifies `conns, `nextID, `objs, `w
      ensures Tied() && w == old(w).(all := old(w).all + [T.Accepted(cfg, tick, fd)])
      ensures |objs| == |old(objs)| + 1 && objs[..|old(objs)|] == old(objs) && fresh(objs[|old(objs)|])
    {
      hide T.Accepted, Conn.View, Conn.Now;
      AcceptedMapped(cfg, tick, fd);
      nextID := nextID + 1;
      var cc := new Conn(cfg, fd, tick);
      conns := conns[nextID := cc];
      objs := objs + [cc];
      w := w.(all := w.all + [cc.View()]);
    }

    method Welcome(fd: int)
      requires Tied() && Read(cnt) == Tally(w) && cfg.initialReqLen > 0
      modifies `conns, `nextID, `objs, `w, cnt
      ensures Tied() && Read(cnt) == Tally(w)
      ensures w == old(w).(all := old(w).all + [T.Accepted(cfg, tick, fd)], open := old(w).open + {fd})
      ensures |objs| == |old(objs)| + 1 && objs[..|old(objs)|] == old(objs) && fresh(objs[|old(objs)|])
    {
      hide Tied, Sum;
      ghost var u := w;
      cnt.accepted := cnt.accepted + 1;
      cnt.live := cnt.live + 1;
      Admit(fd);
      Record(w.(open := w.open + {fd}));
      TallyAppended(u, w, T.Accepted(cfg, tick, fd));
    }

    method Shed(fd: int)
      requires Tied() && Read(cnt) == Tally(w)
      modifies `w, cnt
      ensures Tied() && Read(cnt) == Tally(w)
      ensures w == old(w).(shed := old(w).shed + 1, open := old(w).open + {fd}, unclosed := old(w).unclosed + multiset{fd})
    {
      hide Tied, Sum;
      cnt.accepted := cnt.accepted + 1;
      cnt.shed := cnt.shed + 1;
      Record(w.(shed := w.shed + 1, open := w.open + {fd}, unclosed := w.unclosed + multiset{fd}));
    }

    method AcceptFailed()
      requires Tied() && Read(cnt) == Tally(w)
      modifies `w, cnt
      ensures Tied() && Read(cnt) == Tally(w) && w == old(w).(acceptErrors := old(w).acceptErrors + 1)
    {
      hide Tied, Sum;
      cnt.errors := cnt.errors + 1;
      Record(w.(acceptErrors := w.acceptErrors + 1));
    }

    method OnAccept(res: int)
      requires Valid() && Enabled(w, AcceptDone(res))
      modifies this, cnt
      ensures Valid() && w == Step(cfg, old(w), AcceptDone(res))
      ensures |old(objs)| <= |objs| && objs[..|old(objs)|] == old(objs)
      ensures forall i :: |old(objs)| <= i < |objs| ==> fresh(objs[i])
    {
      hide Inv, Tied, Sum, Read, Tally, T.Accepted;
      StepKeeps(cfg, w, AcceptDone(res));
      Sized();
      acceptInflight := acceptInflight - 1;
      Note(w.(accepts := w.accepts - 1));
      if res < 0 {
        AcceptFailed();
      } else if |conns| >= cfg.maxConns {
        Shed(res);
      } else {
        Welcome(res);
      }
    }

    ghost method Record(v: World)
      requires Tied() && v.all == w.all
      modifies `w
      ensures w == v && Tied()
    {
      hide Conn.View;
      w := v;
    }

    // ---- what happens around the worker ----

    ghost method ReturnOn(id: nat, k: nat, d: Decision)
      requires Tied() && 1 <= id <= |objs| && k < |w.all[id - 1].jobs|
      modifies `w, objs[id - 1]
      ensures Tied() && w == With(old(w), id, T.Returned(old(w).all[id - 1], k, d))
    {
      hide T.Returned, Conn.Now;
      var u := w;
      assert objs[id - 1].View() == w.all[id - 1];
      objs[id - 1].Returns(k, d);
      ReturnedMapped(u.all[id - 1], k, d);
      w := With(w, id, objs[id - 1].View());
      Retied(id, u, conns);
    }

    /** A pool goroutine answers a request: the bridge's push. */
    method Push(id: nat, ghost k: nat, d: Decision)
      requires Valid() && Enabled(w, HookReturns(id, k, d))
      modifies this, objs
      ensures Valid() && objs == old(objs) && w == Step(cfg, old(w), HookReturns(id, k, d))
    {
      hide Inv, Tally, Read, T.Returned, Tied, Shifted;
      KeysMapped();
      StepKeeps(cfg, w, HookReturns(id, k, d));
      ghost var u, v := w, Step(cfg, w, HookReturns(id, k, d));
      ready := ready + [HookResult(id, d)];
      ReturnOn(id, k, d);
      Record(v);
      ReturnedMapped(u.all[id - 1], k, d);
      TallyMoved(u, w, id - 1, w.all[id - 1]);
      NotMoved(Tally(u), u.all[id - 1], w.all[id - 1]);
    }

    ghost method ClosedOn(id: nat, fd: int)
      requires Tied() && 1 <= id <= |objs|
      modifies `w, objs[id - 1]
      ensures Tied() && w == With(old(w), id, T.KernelClosed(old(w).all[id - 1], fd))
    {
      hide Conn.Now;
      var u := w;
      assert objs[id - 1].View() == w.all[id - 1];
      objs[id - 1].KernelCloses(fd);
      w := With(w, id, objs[id - 1].View());
      Retied(id, u, conns);
    }

    /** The kernel carries out a close of a connection's. */
    ghost method CloseCarriedOut(id: nat, fd: int)
      requires Valid() && Enabled(w, KernelCloses(id, fd))
      modifies this, objs
      ensures Valid() && objs == old(objs) && w == Step(cfg, old(w), KernelCloses(id, fd))
    {
      hide Inv, Tally, Read, T.KernelClosed, Tied, Shifted;
      KeysMapped();
      StepKeeps(cfg, w, KernelCloses(id, fd));
      var u, v := w, Step(cfg, w, KernelCloses(id, fd));
      ClosedOn(id, fd);
      Record(v);
      TallyMoved(u, w, id - 1, w.all[id - 1]);
      KernelClosedCharges(u.all[id - 1], fd);
      NotMoved(Tally(u), u.all[id - 1], w.all[id - 1]);
    }

    ghost method ShedCarriedOut(fd: int)
      requires Valid() && Enabled(w, KernelClosesShed(fd))
      modifies this
      ensures Valid() && objs == old(objs) && w == Step(cfg, old(w), KernelClosesShed(fd))
    {
      hide Inv, Tally, Read, Tied;
      StepKeeps(cfg, w, KernelClosesShed(fd));
      Note(Step(cfg, w, KernelClosesShed(fd)));
    }

    /** Server.Stop. */
    method Stop()
      requires Valid() && Enabled(w, StopCalled)
      modifies this
      ensures Valid() && objs == old(objs) && w == Step(cfg, old(w), StopCalled)
    {
      hide Inv, Tally, Read, Tied;
      StepKeeps(cfg, w, StopCalled);
      Note(Step(cfg, w, StopCalled));
      stop := true;
    }

    // ---- the switch on the raw completion ----

    /** Every completion is told by its word alone: the handler its op code selects, given the
        connection id it carries, takes the step of the operation it was posted for. */
    method OnCompletion(u: nat, res: int, data: seq<byte>, ghost e: Event)
      requires Valid() && Enabled(w, e) && IsCompletion(e) && |w.all| < TWO_56
      requires u == WordOf(e) && res == ResOf(e, res) && data == DataOf(e, data)
      modifies this, cnt, objs
      ensures Valid() && w == Step(cfg, old(w), e)
      ensures |old(objs)| <= |objs| && objs[..|old(objs)|] == old(objs)
      ensures forall i :: |old(objs)| <= i < |objs| ==> fresh(objs[i])
    {
      hide Valid, Inv, Step, Ud, Unpack;
      WordBack(w, e);
      var (id, op) := Unpack(u);
      if op == OP_ACCEPT {
        OnAccept(res);
      } else if op == OP_EVENTFD {
        OnEventfd();
      } else if op == OP_TIMEOUT {
        OnTimeout();
      } else if op == OP_CLOSE {
        if id == 0 { // no connection has id 0
          ShedClosed();
        } else {
          OnClosed(id, e.fd);
        }
      } else {
        OnData(id, op, res, data, e.f);
      }
    }

    lemma ShedClosed()
      requires Valid() && Enabled(w, ShedCloseDone)
      ensures w == Step(cfg, w, ShedCloseDone)
    {
    }
  }

  /** The events that reach the worker as a completion. */
  predicate IsCompletion(e: Event) {
    e.AcceptDone? || e.ConnDone? || e.ConnCloseDone? || e.ShedCloseDone? || e.EventfdDone? || e.TimeoutDone?
  }

  /** The word its operation was posted with. */
  function WordOf(e: Event): nat {
    match e
    case AcceptDone(_) => Ud(0, OP_ACCEPT)
    case ConnDone(id, f, _, _) => if id < TWO_64 then Ud(id, OpOf(f.kind)) else 0
    case ConnCloseDone(id, _) => if id < TWO_64 then Ud(id, OP_CLOSE) else 0
    case ShedCloseDone => Ud(0, OP_CLOSE)
    case EventfdDone => Ud(0, OP_EVENTFD)
    case TimeoutDone => Ud(0, OP_TIMEOUT)
    case _ => 0
  }

  function ResOf(e: Event, res: int): int {
    match e
    case AcceptDone(r) => r
    case ConnDone(_, _, r, _) => r
    case _ => res
  }

  function DataOf(e: Event, data: seq<byte>): seq<byte> {
    match e
    case ConnDone(_, _, _, d) => d
    case _ => data
  }

  function IdOf(e: Event): nat {
    match e
    case ConnDone(id, _, _, _) => id
    case ConnCloseDone(id, _) => id
    case _ => 0
  }

  function OpCodeOf(e: Event): nat {
    match e
    case AcceptDone(_) => OP_ACCEPT
    case ConnDone(_, f, _, _) => OpOf(f.kind)
    case EventfdDone => OP_EVENTFD
    case TimeoutDone => OP_TIMEOUT
    case _ => OP_CLOSE
  }

  lemma WordBack(w: World, e: Event)
    requires Enabled(w, e) && IsCompletion(e) && |w.all| < TWO_56
    ensures Unpack(WordOf(e)) == (IdOf(e), OpCodeOf(e))
    ensures IdOf(e) == 0 <==> !e.ConnDone? && !e.ConnCloseDone?
  {
    hide Ud, Unpack;
    RoundTrip(IdOf(e), OpCodeOf(e));
  }

  lemma GrowsByOne(cfg: Cfg, w: World, e: Event)
    requires Enabled(w, e)
    ensures |Step(cfg, w, e).all| <= |w.all| + 1
  {
    hide T.Complete, T.CloseDone, SweepAll, T.Accepted, T.KernelClosed, T.Returned, Mapped, TopUp;
    if e.EventfdDone? {
      DrainSize(cfg, w);
    }
  }

  lemma {:induction false} DrainSize(cfg: Cfg, w: World)
    ensures |DrainAll(cfg, w).all| == |w.all|
    decreases |w.ready|
  {
    hide T.Drain;
    if w.ready != [] {
      DrainSize(cfg, DrainOne(cfg, w.(ready := w.ready[1..]), w.ready[0]));
    }
  }

  /** The whole worker refines the model: driven by any legal run it ends where the model ends, with its
      map, its counters and its ready list saying exactly what the model's state says. */
  method RunWorker(cfg: Cfg, evs: seq<Event>) returns (k: Worker)
    requires GoodCfg(cfg) && Legal(cfg, Start(), evs) && |evs| < TWO_56
    ensures k.Valid() && k.cfg == cfg && k.w == Run(cfg, Start(), evs)
    ensures Read(k.cnt) == Tally(Run(cfg, Start(), evs)) && |k.conns| == Mapped(Run(cfg, Start(), evs))
  {
    hide Worker.Valid, Enabled, Step, Legal, Run, Read, Tally;
    k := new Worker(cfg);
    ghost var goal := Run(cfg, k.w, evs);
    assert evs[0..] == evs;
    var i := 0;
    while i < |evs|
      invariant 0 <= i <= |evs| && |k.w.all| <= i && k.cfg == cfg
      invariant k.Valid() && Legal(cfg, k.w, evs[i..]) && Run(cfg, k.w, evs[i..]) == goal
      invariant fresh(k) && fresh(k.cnt) && forall j :: 0 <= j < |k.objs| ==> fresh(k.objs[j])
    {
      var e := evs[i];
      RunStep(cfg, k.w, evs, i);
      GrowsByOne(cfg, k.w, e);
      OneStep(k, e);
      i := i + 1;
    }
    assert evs[i..] == [];
    RunNone(cfg, k.w);
    k.Accounted();
  }

  lemma RunStep(cfg: Cfg, w: World, evs: seq<Event>, i: nat)
    requires i < |evs| && Legal(cfg, w, evs[i..])
    ensures Enabled(w, evs[i]) && Legal(cfg, Step(cfg, w, evs[i]), evs[i + 1..])
    ensures Run(cfg, w, evs[i..]) == Run(cfg, Step(cfg, w, evs[i]), evs[i + 1..])
  {
    hide Enabled, Step;
    assert evs[i..][0] == evs[i] && evs[i..][1..] == evs[i + 1..];
  }

  lemma RunNone(cfg: Cfg, w: World)
    ensures Legal(cfg, w, []) && Run(cfg, w, []) == w
  {
  }

  method OneStep(k: Worker, e: Event)
    requires k.Valid() && Enabled(k.w, e) && |k.w.all| < TWO_56
    modifies k, k.cnt, k.objs
    ensures k.Valid() && k.w == Step(k.cfg, old(k.w), e)
    ensures |old(k.objs)| <= |k.objs| && k.objs[..|old(k.objs)|] == old(k.objs)
    ensures forall i :: |old(k.objs)| <= i < |k.objs| ==> fresh(k.objs[i])
  {
    hide Worker.Valid, Step;
    match e
    case BatchDone => k.OnBatchDone();
    case HookReturns(id, n, d) => k.Push(id, n, d);
    case KernelCloses(id, fd) => k.CloseCarriedOut(id, fd);
    case KernelClosesShed(fd) => k.ShedCarriedOut(fd);
    case StopCalled => k.Stop();
    case AcceptDone(res) => k.OnCompletion(WordOf(e), res, [], e);
    case ConnDone(_, _, res, data) => k.OnCompletion(WordOf(e), res, data, e);
    case _ => k.OnCompletion(WordOf(e), 0, [], e);
  }
}
