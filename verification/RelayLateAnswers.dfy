/** Two runs that only idle closing makes possible: a worker returns, and an upstream the Hook dialled before or
    after that is left open (flashrelay/worker.go:147-153, 575-582, 602-606). */
module RelayLateAnswers {
  import opened RelayTypes
  import opened RelaySession
  import opened RelayInv
  import opened RelayWorld
  import opened RelayDoubleCharge
  import opened RelayReturn

  /** The first connection: one byte read from descriptor 5, the request at the Hook. */
  function AskingFields(): Fields {
    Fields(5, 0, [7], 1, 0, [], 0, 0, false, 0, false, false, 0, [], [], 0, 0, 0, 0, false, false)
  }

  function AskingSession(): Session {
    Session(AskingFields(), true, multiset{}, multiset{}, multiset{}, [[7]], [], NoHist().(clientIn := [7], seen := [[7]]))
  }

  function Asking(tick: nat): World {
    Start().(all := [AskingSession()], open := {5}, tick := tick)
  }

  /** Closed as idle on the tenth tick, with the request still at the Hook. */
  function IdledSession(): Session {
    AskingSession().(c := AskingFields().(closing := true, closesLeft := 1, counted := true),
                     closes := multiset{5}, unclosed := multiset{5}, h := AskingSession().h.(idle := 1))
  }

  function Idled(): World {
    Asking(10).(all := [IdledSession()])
  }

  /** The kernel has closed the descriptor, and the completion has taken the connection from the map. */
  function GoneSession(): Session {
    IdledSession().(c := AskingFields().(closing := true, closesLeft := 0, counted := true),
                    closes := multiset{}, unclosed := multiset{}, mapped := false)
  }

  function Gone(): World {
    Asking(10).(all := [GoneSession()], open := {})
  }

  lemma UpToAsking() returns (evs: seq<Event>)
    ensures Legal(Tiny(), Start(), evs) && Run(Tiny(), Start(), evs) == Asking(0)
  {
    hide Legal, Run;
    var cfg := Tiny();
    var f := Flight(RecvReq, 5, [], 1);
    var c := AskingFields().(reqBuf := [0], reqN := 0);
    var s1 := Session(c, true, multiset{f}, multiset{}, multiset{}, [], [], NoHist());
    var w1 := Start().(accepts := 1);
    var w2 := Start().(all := [s1], open := {5});
    NoEvents(cfg, Start());
    FirstTopUp();
    RunThen(cfg, Start(), [], BatchDone);
    evs := [] + [BatchDone];
    AcceptFive(w1, s1);
    RunThen(cfg, Start(), evs, AcceptDone(5));
    evs := evs + [AcceptDone(5)];
    ReadByte(w2, s1, AskingSession(), f);
    RunThen(cfg, Start(), evs, ConnDone(1, f, 1, [7]));
    evs := evs + [ConnDone(1, f, 1, [7])];
  }

  lemma UpToIdled() returns (evs: seq<Event>)
    ensures Legal(Tiny(), Start(), evs) && Run(Tiny(), Start(), evs) == Idled()
  {
    hide Legal, Run, Asking, Idled;
    evs := UpToAsking();
    var n := 0;
    while n < 9
      invariant n <= 9
      invariant Legal(Tiny(), Start(), evs) && Run(Tiny(), Start(), evs) == Asking(n)
    {
      AskingTick(n);
      RunThen(Tiny(), Start(), evs, TimeoutDone);
      evs := evs + [TimeoutDone];
      n := n + 1;
    }
    AskingSwept();
    RunThen(Tiny(), Start(), evs, TimeoutDone);
    evs := evs + [TimeoutDone];
  }

  lemma AskingTick(n: nat)
    requires n < 9
    ensures Enabled(Asking(n), TimeoutDone) && Step(Tiny(), Asking(n), TimeoutDone) == Asking(n + 1)
  {
    hide AskingSession;
  }

  lemma AskingSwept()
    ensures Enabled(Asking(9), TimeoutDone) && Step(Tiny(), Asking(9), TimeoutDone) == Idled()
  {
    assert FdIfOpen(5) + FdIfOpen(0) == multiset{5};
    assert Sweep(Tiny(), AskingSession(), 10) == IdledSession();
    assert SweepAll(Tiny(), [AskingSession()], 10) == [IdledSession()];
  }

  lemma UpToGone() returns (evs: seq<Event>)
    ensures Legal(Tiny(), Start(), evs) && Run(Tiny(), Start(), evs) == Gone()
  {
    hide Legal, Run;
    evs := UpToIdled();
    KernelClosesFive();
    RunThen(Tiny(), Start(), evs, KernelCloses(1, 5));
    evs := evs + [KernelCloses(1, 5)];
    LeavesTheMap();
    RunThen(Tiny(), Start(), evs, ConnCloseDone(1, 5));
    evs := evs + [ConnCloseDone(1, 5)];
  }

  function ClosedSession(): Session {
    IdledSession().(unclosed := multiset{})
  }

  lemma KernelClosesFive()
    ensures Enabled(Idled(), KernelCloses(1, 5))
    ensures Step(Tiny(), Idled(), KernelCloses(1, 5)) == Idled().(all := [ClosedSession()], open := {})
  {
    assert 5 in IdledSession().unclosed;
    assert IdledSession().unclosed - multiset{5} == multiset{};
    assert KernelClosed(IdledSession(), 5) == ClosedSession();
    assert {5} - {5} == {};
  }

  lemma LeavesTheMap()
    ensures var w := Idled().(all := [ClosedSession()], open := {});
            Enabled(w, ConnCloseDone(1, 5)) && Step(Tiny(), w, ConnCloseDone(1, 5)) == Gone()
  {
    var s := ClosedSession();
    assert 5 in s.closes;
    assert s.closes - multiset{5} == multiset{};
    assert CloseDone(s, 5) == GoneSession();
  }

  lemma GoneMapped()
    ensures Mapped(Gone()) == 0
  {
    SumOne(GoneSession(), MappedOf);
  }

  // ---- a worker that returns too early ----

  /** The Hook dials descriptor 9 for the connection that is gone. */
  function Dialled(): Decision {
    Decision(9, [], false, false, 0)
  }

  function Answered(w: World): World {
    w.(all := [GoneSession().(jobs := [], results := [Dialled()])], ready := [HookResult(1, Dialled())], open := {9})
  }

  /** It may do so before the worker has returned, or after. */
  lemma HookDials(w: World)
    requires w.all == [GoneSession()] && w.ready == [] && w.open == {}
    ensures Enabled(w, HookReturns(1, 0, Dialled())) && Step(Tiny(), w, HookReturns(1, 0, Dialled())) == Answered(w)
  {
    assert Returned(GoneSession(), 0, Dialled()) == GoneSession().(jobs := [], results := [Dialled()]);
  }

  lemma Returns(w: World)
    requires w.stopping && !w.exited && |w.all| == 1 && !w.all[0].mapped
    ensures Enabled(w, BatchDone) && Step(Tiny(), w, BatchDone) == w.(exited := true)
  {
    SumOne(w.all[0], MappedOf);
  }

  lemma NineLeftOpen(w: World)
    requires w.all == [GoneSession().(jobs := [], results := [Dialled()])] && w.unclosed == multiset{} && 9 in w.open
    ensures LeftOpen(w, 9)
  {
  }

  /** The Hook answers before the worker returns, and the worker returns with the answer on its list:
      descriptor 9 is left open. */
  lemma UndrainedAtReturn() returns (evs: seq<Event>)
    ensures GoodCfg(Tiny()) && Legal(Tiny(), Start(), evs)
    ensures var w := Run(Tiny(), Start(), evs); w.exited && LeftOpen(w, 9)
  {
    hide Legal, Run, Gone, GoneSession, LeftOpen, MappedOf;
    evs := UpToGone();
    GoneParts();
    HookDials(Gone());
    RunThen(Tiny(), Start(), evs, HookReturns(1, 0, Dialled()));
    evs := evs + [HookReturns(1, 0, Dialled())];
    RunThen(Tiny(), Start(), evs, StopCalled);
    evs := evs + [StopCalled];
    Returns(Answered(Gone()).(stopping := true));
    RunThen(Tiny(), Start(), evs, BatchDone);
    evs := evs + [BatchDone];
    NineLeftOpen(Answered(Gone()).(stopping := true, exited := true));
  }

  lemma GoneParts()
    ensures var w := Gone(); w.all == [GoneSession()] && w.ready == [] && w.open == {} && w.unclosed == multiset{}
    ensures !Gone().stopping && !Gone().exited && !GoneSession().mapped && GoneSession().unclosed == multiset{}
  {
  }

  /** The worker returns with nothing mapped, open, closing or on its list; the Hook dials later, and
      descriptor 9 is left open. */
  lemma DialledAfterReturn() returns (evs: seq<Event>, more: seq<Event>)
    ensures GoodCfg(Tiny()) && Legal(Tiny(), Start(), evs) && Legal(Tiny(), Run(Tiny(), Start(), evs), more)
    ensures var w := Run(Tiny(), Start(), evs);
            && w.exited && Mapped(w) == 0 && w.open == {} && w.ready == []
            && LeftOpen(Run(Tiny(), w, more), 9)
  {
    hide Legal, Run, Gone, GoneSession, LeftOpen, MappedOf;
    evs := UpToGone();
    GoneParts();
    RunThen(Tiny(), Start(), evs, StopCalled);
    evs := evs + [StopCalled];
    Returns(Gone().(stopping := true));
    RunThen(Tiny(), Start(), evs, BatchDone);
    evs := evs + [BatchDone];
    var w := Gone().(stopping := true, exited := true);
    GoneMapped();
    HookDials(w);
    more := [HookReturns(1, 0, Dialled())];
    OneMore(Tiny(), w, more[0]);
    NineLeftOpen(Answered(w));
  }
}
