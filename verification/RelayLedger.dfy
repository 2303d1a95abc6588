/** The Stats partition: what is conserved, when the documented identity holds, and when it does not
    (flashrelay/flashrelay.go:136-144, flashrelay/worker.go:189-223, 343-355, 554-583). */
module RelayLedger {
  import opened Basics
  import opened RelayTypes
  import opened RelaySession
  import opened RelayInv
  import opened RelayWorld
  import opened RelaySums
  import opened RelaySafety
  import opened RelayLaws

  // ---- the buckets ----

  function Buckets(w: World): int {
    Sum(w.all, CompletedOf) + Sum(w.all, RejectedOf) + w.shed + Sum(w.all, IdleOf) + Sum(w.all, ErrorsOf)
  }

  /** Stats.Accepted: every accept that succeeded. */
  function AcceptedCount(w: World): int {
    |w.all| + w.shed
  }

  /** Charged, but not closing yet: its reject reply is still going out. */
  function ChargedOpenOf(s: Session): int {
    B2N(Live(s) && s.c.counted)
  }

  /** Closing, but to be charged only by its last close. */
  function UnchargedClosingOf(s: Session): int {
    B2N(s.mapped && s.c.closing && !s.c.counted)
  }

  lemma LedgerOne(cfg: Cfg, s: Session, tick: nat)
    requires SessionInv(cfg, s, tick)
    ensures CompletedOf(s) + RejectedOf(s) + IdleOf(s) + ErrorsOf(s) + LiveOf(s)
            == 1 + ChargedOpenOf(s) - UnchargedClosingOf(s) + AgainOf(s)
  {
    hide Stable, OneUserPerBuffer, NonEmpty, PrefixSafe, SeenOk, HalfClosed, InSomePhase, Delivered;
  }

  lemma {:induction false} LedgerSum(cfg: Cfg, all: seq<Session>, tick: nat)
    requires AllOk(all, SoundAt(cfg, tick))
    ensures Sum(all, CompletedOf) + Sum(all, RejectedOf) + Sum(all, IdleOf) + Sum(all, ErrorsOf) + Sum(all, LiveOf)
            == |all| + Sum(all, ChargedOpenOf) - Sum(all, UnchargedClosingOf) + Sum(all, AgainOf)
  {
    hide SessionInv, CompletedOf, RejectedOf, IdleOf, ErrorsOf, LiveOf, ChargedOpenOf, UnchargedClosingOf, AgainOf;
    if all != [] {
      var init, s := all[..|all| - 1], all[|all| - 1];
      assert SoundAt(cfg, tick)(s);
      assert AllOk(init, SoundAt(cfg, tick)) by {
        forall i | 0 <= i < |init| ensures SoundAt(cfg, tick)(init[i]) {
          assert SoundAt(cfg, tick)(all[i]);
        }
      }
      LedgerOne(cfg, s, tick);
      LedgerSum(cfg, init, tick);
    }
  }

  /** Conservation in every reachable state, moving parts included. */
  lemma Conservation(cfg: Cfg, evs: seq<Event>)
    requires GoodCfg(cfg) && Legal(cfg, Start(), evs)
    ensures var w := Run(cfg, Start(), evs);
            Buckets(w) + Sum(w.all, LiveOf) == AcceptedCount(w)
              + Sum(w.all, ChargedOpenOf) - Sum(w.all, UnchargedClosingOf) + Sum(w.all, AgainOf)
  {
    hide Run, Legal, Sum;
    Reachable(cfg, evs);
    LedgerSum(cfg, Run(cfg, Start(), evs).all, Run(cfg, Start(), evs).tick);
  }

  // ---- at rest ----

  lemma {:induction false} NoneMapped(all: seq<Session>)
    requires Sum(all, MappedOf) == 0
    ensures forall i :: 0 <= i < |all| ==> !all[i].mapped
    ensures Sum(all, LiveOf) == Sum(all, ChargedOpenOf) == Sum(all, UnchargedClosingOf) == 0
  {
    if all != [] {
      SumNonNegative(all[..|all| - 1], MappedOf);
      NoneMapped(all[..|all| - 1]);
    }
  }

  /** The documented identity, with no connection in the map: off by exactly the repeated idle charges. */
  lemma AtRest(cfg: Cfg, evs: seq<Event>)
    requires GoodCfg(cfg) && Legal(cfg, Start(), evs) && Mapped(Run(cfg, Start(), evs)) == 0
    ensures var w := Run(cfg, Start(), evs); Buckets(w) == AcceptedCount(w) + Sum(w.all, AgainOf)
    ensures var w := Run(cfg, Start(), evs);
            forall i :: 0 <= i < |w.all| ==>
              CompletedOf(w.all[i]) + RejectedOf(w.all[i]) + IdleOf(w.all[i]) + ErrorsOf(w.all[i]) == 1 + AgainOf(w.all[i])
  {
    hide Run, Legal, Sum, SessionInv;
    var w := Run(cfg, Start(), evs);
    Conservation(cfg, evs);
    NoneMapped(w.all);
    Reachable(cfg, evs);
    forall i | 0 <= i < |w.all|
      ensures CompletedOf(w.all[i]) + RejectedOf(w.all[i]) + IdleOf(w.all[i]) + ErrorsOf(w.all[i]) == 1 + AgainOf(w.all[i])
    {
      SoundConn(cfg, w, i);
      LedgerOne(cfg, w.all[i], w.tick);
    }
  }

  // ---- where the identity breaks: a sweep that meets a connection already charged ----

  /** What the sweep can check before it charges: the connection is quiet and `counted` is set. */
  function ChargedTwice(cfg: Cfg, tick: nat, s: Session): int {
    B2N(Quiet(cfg, s, tick) && s.c.counted)
  }

  function ChargedTwiceAt(cfg: Cfg, tick: nat): Session -> int {
    (s: Session) => ChargedTwice(cfg, tick, s)
  }

  /** The connections a step charges although they are charged already. */
  function DoubleCharges(cfg: Cfg, w: World, e: Event): int {
    if e.TimeoutDone? && SweepsAt(cfg, w.tick + 1) then Sum(w.all, ChargedTwiceAt(cfg, w.tick + 1)) else 0
  }

  function DoubleChargesIn(cfg: Cfg, w: World, evs: seq<Event>): int
    requires Legal(cfg, w, evs)
    decreases |evs|
  {
    if evs == [] then 0 else DoubleCharges(cfg, w, evs[0]) + DoubleChargesIn(cfg, Step(cfg, w, evs[0]), evs[1..])
  }

  lemma EndsAgain(s: Session)
    ensures Fail(s).h.again == s.h.again && CloseConn(s).h.again == s.h.again
  {
    hide FdIfOpen;
  }

  lemma ReplyAgain(cfg: Cfg, s: Session, k: Kind, res: int)
    ensures OnReply(cfg, s, k, res).h.again == s.h.again
  {
    hide Fail, CloseConn, FlightOf;
    EndsAgain(s);
    if res > 0 {
      EndsAgain(s.(c := s.c.(replyOff := s.c.replyOff + res)));
    }
  }

  lemma SendsAgain(cfg: Cfg, s: Session, res: int)
    ensures OnC2USend(s, res).h.again == OnU2CSend(s, res).h.again == OnSendUp(cfg, s, res).h.again == s.h.again
  {
    hide Fail, CloseConn, FlightOf;
    EndsAgain(s);
  }

  lemma ReadsAgain(s: Session, tick: nat, res: int, data: seq<byte>)
    ensures OnRecvReq(s, tick, res, data).h.again == s.h.again
    ensures OnC2URecv(s, tick, res, data).h.again == OnU2CRecv(s, tick, res, data).h.again == s.h.again
  {
    hide Fail, CloseConn, FlightOf;
    EndsAgain(s);
    EndsAgain(s.(c := s.c.(clientReadDone := true), h := s.h.(shutUp := s.h.shutUp + 1)));
    EndsAgain(s.(c := s.c.(upstreamReadDone := true), h := s.h.(shutClient := s.h.shutClient + 1)));
  }

  lemma CompleteAgain(cfg: Cfg, s: Session, tick: nat, f: Flight, res: int, data: seq<byte>)
    ensures Complete(cfg, s, tick, f, res, data).h.again == s.h.again
  {
    hide OnReply, OnC2USend, OnU2CSend, OnSendUp, OnRecvReq, OnC2URecv, OnU2CRecv;
    var t := Harvested(s, f, res, data);
    if Live(s) {
      ReadsAgain(t, tick, res, data);
      SendsAgain(cfg, t, res);
      ReplyAgain(cfg, t, f.kind, res);
    }
  }

  lemma ApplyAgain(cfg: Cfg, s: Session, tick: nat, d: Decision)
    ensures Apply(cfg, s, tick, d).h.again == s.h.again
  {
    hide Fail, CloseConn, FlightOf, GrowReq, CanGrow;
    var t := s.(c := s.c.(lastTick := tick));
    EndsAgain(t);
    EndsAgain(t.(c := t.c.(counted := true), h := t.h.(rejected := t.h.rejected + 1)));
  }

  lemma DrainAgain(cfg: Cfg, s: Session, tick: nat, d: Decision)
    ensures Drain(cfg, s, tick, d).h.again == s.h.again
  {
    hide Apply;
    ApplyAgain(cfg, if s.results == [] then s else s.(results := s.results[1..]), tick, d);
  }

  lemma SweepAgain(cfg: Cfg, s: Session, tick: nat)
    ensures AgainOf(Sweep(cfg, s, tick)) == AgainOf(s) + ChargedTwice(cfg, tick, s)
  {
    hide CloseConn;
    EndsAgain(s.(c := s.c.(counted := true),
                 h := s.h.(idle := s.h.idle + 1, again := s.h.again + (if s.c.counted then 1 else 0))));
  }

  lemma {:induction false} SweepAllAgain(cfg: Cfg, all: seq<Session>, tick: nat)
    ensures Sum(SweepAll(cfg, all, tick), AgainOf) == Sum(all, AgainOf) + Sum(all, ChargedTwiceAt(cfg, tick))
  {
    hide AgainOf, ChargedTwice, Sweep;
    if all != [] {
      var n := |all| - 1;
      SweepAllAgain(cfg, all[..n], tick);
      SweepAgain(cfg, all[n], tick);
      assert SweepAll(cfg, all, tick)[..n] == SweepAll(cfg, all[..n], tick);
    }
  }

  lemma {:induction false} DrainAllAgain(cfg: Cfg, w: World)
    ensures Sum(DrainAll(cfg, w).all, AgainOf) == Sum(w.all, AgainOf)
    decreases |w.ready|
  {
    hide Drain, Sum, Adopts;
    if w.ready != [] {
      var r := w.ready[0];
      var u := w.(ready := w.ready[1..]);
      if IsConn(w, r.id) {
        DrainAgain(cfg, w.all[r.id - 1], w.tick, r.dec);
        SumUpdate(w.all, AgainOf, r.id - 1, Drain(cfg, w.all[r.id - 1], w.tick, r.dec));
      }
      DrainAllAgain(cfg, DrainOne(cfg, u, r));
    }
  }

  lemma ConnAgain(w: World, id: nat, t: Session)
    requires IsConn(w, id) && t.h.again == w.all[id - 1].h.again
    ensures Sum(With(w, id, t).all, AgainOf) == Sum(w.all, AgainOf)
  {
    SumUpdate(w.all, AgainOf, id - 1, t);
  }

  lemma StepAgain(cfg: Cfg, w: World, e: Event)
    requires Enabled(w, e)
    ensures Sum(Step(cfg, w, e).all, AgainOf) == Sum(w.all, AgainOf) + DoubleCharges(cfg, w, e)
  {
    hide Sum, Complete, DrainAll, SweepAll, CloseDone, Accepted, Mapped;
    match e
    case ConnDone(id, f, res, data) =>
      CompleteAgain(cfg, w.all[id - 1], w.tick, f, res, data);
      ConnAgain(w, id, Complete(cfg, w.all[id - 1], w.tick, f, res, data));
    case ConnCloseDone(id, fd) =>
      assert CloseDone(w.all[id - 1], fd).h.again == w.all[id - 1].h.again by { CloseDoneAgain(w.all[id - 1], fd); }
      ConnAgain(w, id, CloseDone(w.all[id - 1], fd));
    case HookReturns(id, k, d) => ConnAgain(w, id, Returned(w.all[id - 1], k, d));
    case KernelCloses(id, fd) => ConnAgain(w, id, KernelClosed(w.all[id - 1], fd));
    case EventfdDone => DrainAllAgain(cfg, w);
    case TimeoutDone => SweepAllAgain(cfg, w.all, w.tick + 1);
    case AcceptDone(res) =>
      AcceptedAgain(cfg, w.tick, res);
      SumAppend(w.all, AgainOf, Accepted(cfg, w.tick, res));
    case _ =>
  }

  lemma CloseDoneAgain(s: Session, fd: int)
    ensures CloseDone(s, fd).h.again == s.h.again
  {
  }

  lemma AcceptedAgain(cfg: Cfg, tick: nat, fd: int)
    ensures Accepted(cfg, tick, fd).h.again == 0
  {
  }

  lemma {:induction false} RunAgain(cfg: Cfg, w: World, evs: seq<Event>)
    requires Legal(cfg, w, evs)
    ensures Sum(Run(cfg, w, evs).all, AgainOf) == Sum(w.all, AgainOf) + DoubleChargesIn(cfg, w, evs)
    decreases |evs|
  {
    hide Sum, DoubleCharges, Step, Enabled;
    if evs != [] {
      StepAgain(cfg, w, evs[0]);
      RunAgain(cfg, Step(cfg, w, evs[0]), evs[1..]);
    }
  }

  lemma {:induction false} DoubleChargesNonNegative(cfg: Cfg, w: World, evs: seq<Event>)
    requires Legal(cfg, w, evs)
    ensures DoubleChargesIn(cfg, w, evs) >= 0
    ensures cfg.idleTicks == 0 ==> DoubleChargesIn(cfg, w, evs) == 0
    decreases |evs|
  {
    hide Step, Enabled;
    if evs != [] {
      SumNonNegative(w.all, ChargedTwiceAt(cfg, w.tick + 1));
      DoubleChargesNonNegative(cfg, Step(cfg, w, evs[0]), evs[1..]);
    }
  }

  /** The documented identity holds at rest if and only if no sweep of the run met a quiet connection
      whose `counted` was already set; with the idle timeout off it always holds. */
  lemma IdentityIffNoDoubleCharge(cfg: Cfg, evs: seq<Event>)
    requires GoodCfg(cfg) && Legal(cfg, Start(), evs) && Mapped(Run(cfg, Start(), evs)) == 0
    ensures var w := Run(cfg, Start(), evs);
            && (Buckets(w) == AcceptedCount(w) <==> DoubleChargesIn(cfg, Start(), evs) == 0)
            && (cfg.idleTicks == 0 ==> Buckets(w) == AcceptedCount(w))
  {
    hide Run, Legal, Sum, DoubleChargesIn;
    AtRest(cfg, evs);
    RunAgain(cfg, Start(), evs);
    StartAgain();
    DoubleChargesNonNegative(cfg, Start(), evs);
  }

  lemma StartAgain()
    ensures Sum(Start().all, AgainOf) == 0
  {
  }
}
