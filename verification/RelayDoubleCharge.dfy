/** A run after which the documented Stats identity is false: a rejected connection whose reply the
    client does not read is charged again by the idle sweep (flashrelay/worker.go:343-355, 575-581). */
module RelayDoubleCharge {
  import opened RelayTypes
  import opened RelaySession
  import opened RelayInv
  import opened RelayWorld
  import opened RelayLedger

  /** Running `e` after `evs`. */
  lemma {:induction false} RunThen(cfg: Cfg, w: World, evs: seq<Event>, e: Event)
    requires Legal(cfg, w, evs) && Enabled(Run(cfg, w, evs), e)
    ensures Legal(cfg, w, evs + [e]) && Run(cfg, w, evs + [e]) == Step(cfg, Run(cfg, w, evs), e)
    decreases |evs|
  {
    if evs == [] {
      assert (evs + [e])[1..] == [];
    } else {
      assert (evs + [e])[1..] == evs[1..] + [e];
      RunThen(cfg, Step(cfg, w, evs[0]), evs[1..], e);
    }
  }

  /** One-byte buffers, one connection at a time, idle limit of one tick. */
  function Tiny(): Cfg {
    Cfg(1, 1, 1, 1, 1, 1)
  }

  /** The rejected connection: accepted as descriptor 5, one request byte read, a one-byte reply in flight. */
  function RejectedFields(): Fields {
    Fields(5, 0, [7], 1, 0, [1], 0, 1, false, 0, false, true, 0, [], [], 0, 0, 0, 0, false, false)
  }

  function RejectedSession(): Session {
    Session(RejectedFields(), true, multiset{Flight(RejectSend, 5, [1], 0)}, multiset{}, multiset{}, [], [],
            NoHist().(clientIn := [7], seen := [[7]], replied := [1], rejected := 1))
  }

  function AfterReject(tick: nat): World {
    World([RejectedSession()], tick, 0, 0, 0, false, false, [], {5}, multiset{})
  }

  lemma UpToReject() returns (evs: seq<Event>)
    ensures Legal(Tiny(), Start(), evs) && Run(Tiny(), Start(), evs) == AfterReject(0)
  {
    hide Legal, Run;
    var cfg := Tiny();
    var f := Flight(RecvReq, 5, [], 1);
    var d := Decision(0, [1], true, false, 0);
    var c := Fields(5, 0, [0], 0, 0, [], 0, 0, false, 0, false, false, 0, [], [], 0, 0, 0, 0, false, false);
    var s1 := Session(c, true, multiset{f}, multiset{}, multiset{}, [], [], NoHist());
    var h2 := NoHist().(clientIn := [7], seen := [[7]]);
    var s2 := Session(c.(reqBuf := [7], reqN := 1), true, multiset{}, multiset{}, multiset{}, [[7]], [], h2);
    var s3 := s2.(jobs := [], results := [d]);
    evs := [];
    assert Legal(cfg, Start(), evs) && Run(cfg, Start(), evs) == Start() by { NoEvents(cfg, Start()); }

    var w1 := Start().(accepts := 1);
    FirstTopUp();
    RunThen(cfg, Start(), evs, BatchDone);
    evs := evs + [BatchDone];

    AcceptFive(w1, s1);
    RunThen(cfg, Start(), evs, AcceptDone(5));
    evs := evs + [AcceptDone(5)];
    var w2 := Start().(all := [s1], open := {5});

    ReadByte(w2, s1, s2, f);
    RunThen(cfg, Start(), evs, ConnDone(1, f, 1, [7]));
    evs := evs + [ConnDone(1, f, 1, [7])];
    var w3 := w2.(all := [s2]);

    HookRejects(w3, s2, s3, d);
    RunThen(cfg, Start(), evs, HookReturns(1, 0, d));
    evs := evs + [HookReturns(1, 0, d)];
    var w4 := w3.(all := [s3], ready := [HookResult(1, d)]);

    DrainReject(w4, s3, d);
    RunThen(cfg, Start(), evs, EventfdDone);
    evs := evs + [EventfdDone];
  }

  lemma NoEvents(cfg: Cfg, w: World)
    ensures Legal(cfg, w, []) && Run(cfg, w, []) == w
  {
  }

  lemma FirstTopUp()
    ensures Enabled(Start(), BatchDone) && Step(Tiny(), Start(), BatchDone) == Start().(accepts := 1)
  {
    assert TopUp(Tiny(), 0, 1) == 1;
  }

  lemma AcceptFive(w: World, s: Session)
    requires w == Start().(accepts := 1)
    requires s.c == Fields(5, 0, [0], 0, 0, [], 0, 0, false, 0, false, false, 0, [], [], 0, 0, 0, 0, false, false)
    requires s == Session(s.c, true, multiset{Flight(RecvReq, 5, [], 1)}, multiset{}, multiset{}, [], [], NoHist())
    ensures Enabled(w, AcceptDone(5)) && Step(Tiny(), w, AcceptDone(5)) == Start().(all := [s], open := {5})
  {
    assert Zeros(1) == [0];
    var a := Accepted(Tiny(), 0, 5);
    assert a.c == s.c;
    assert a.flights == s.flights;
  }

  lemma ReadByte(w: World, s1: Session, s2: Session, f: Flight)
    requires f == Flight(RecvReq, 5, [], 1) && s1.c.reqBuf == [0] && s1.c.reqN == 0 && s1.c.lastTick == 0
    requires s1.mapped && !s1.c.closing && s1.flights == multiset{f} && s1.jobs == [] && s1.h == NoHist()
    requires s2 == s1.(c := s1.c.(reqBuf := [7], reqN := 1), flights := multiset{}, jobs := [[7]],
                       h := NoHist().(clientIn := [7], seen := [[7]]))
    requires w == Start().(all := [s1], open := {5})
    ensures Enabled(w, ConnDone(1, f, 1, [7])) && Step(Tiny(), w, ConnDone(1, f, 1, [7])) == w.(all := [s2])
  {
    hide Fail, CloseConn;
    assert Stored([0], 0, [7]) == [7];
    assert Complete(Tiny(), s1, 0, f, 1, [7]) == s2;
  }

  lemma HookRejects(w: World, s2: Session, s3: Session, d: Decision)
    requires w == Start().(all := [s2], open := {5}) && s2.jobs == [[7]] && s2.results == []
    requires s3 == s2.(jobs := [], results := [d]) && d == Decision(0, [1], true, false, 0)
    ensures Enabled(w, HookReturns(1, 0, d))
    ensures Step(Tiny(), w, HookReturns(1, 0, d)) == w.(all := [s3], ready := [HookResult(1, d)])
  {
    assert Returned(s2, 0, d) == s3;
  }

  lemma DrainReject(w: World, s3: Session, d: Decision)
    requires d == Decision(0, [1], true, false, 0)
    requires w == Start().(all := [s3], open := {5}, ready := [HookResult(1, d)])
    requires s3 == RejectedSession().(c := s3.c, flights := multiset{}, results := [d],
                                      h := NoHist().(clientIn := [7], seen := [[7]]))
    requires s3.c == RejectedFields().(replyBuf := [], replyEnd := 0, counted := false)
    ensures Enabled(w, EventfdDone) && Step(Tiny(), w, EventfdDone) == AfterReject(0)
  {
    hide Fail, CloseConn, ForwardInit, GrowReq;
    var t := Drain(Tiny(), s3, 0, d);
    assert Slice([1], 0, 1) == [1];
    assert t.flights == multiset{Flight(RejectSend, 5, [1], 0)};
    assert t == RejectedSession();
    var v := DrainOne(Tiny(), w.(ready := []), HookResult(1, d));
    assert [s3][0 := t] == [t];
    assert {5} - {0} == {5};
    assert v == AfterReject(0);
    assert DrainAll(Tiny(), v) == v;
    assert w.ready[1..] == [];
    assert w.ready[0] == HookResult(1, d);
    assert w.(ready := w.ready[1..]) == w.(ready := []);
    assert DrainAll(Tiny(), w) == DrainAll(Tiny(), v);
  }

  /** Nine ticks pass; then the sweep of the tenth meets the charged connection and charges it again. */
  lemma Ticks(evs0: seq<Event>) returns (evs: seq<Event>)
    requires Legal(Tiny(), Start(), evs0) && Run(Tiny(), Start(), evs0) == AfterReject(0)
    ensures Legal(Tiny(), Start(), evs) && Run(Tiny(), Start(), evs) == AfterReject(9)
  {
    hide Legal, Run;
    evs := evs0;
    var n := 0;
    while n < 9
      invariant n <= 9
      invariant Legal(Tiny(), Start(), evs) && Run(Tiny(), Start(), evs) == AfterReject(n)
    {
      OneTick(n);
      RunThen(Tiny(), Start(), evs, TimeoutDone);
      evs := evs + [TimeoutDone];
      n := n + 1;
    }
  }

  lemma OneTick(n: nat)
    requires n < 9
    ensures Enabled(AfterReject(n), TimeoutDone) && Step(Tiny(), AfterReject(n), TimeoutDone) == AfterReject(n + 1)
  {
    hide RejectedSession;
  }

  function SweptFields(): Fields {
    RejectedFields().(closing := true, closesLeft := 1)
  }

  function SweptSession(): Session {
    RejectedSession().(c := SweptFields(), closes := multiset{5}, unclosed := multiset{5},
                       h := RejectedSession().h.(idle := 1, again := 1))
  }

  lemma Swept()
    ensures Enabled(AfterReject(9), TimeoutDone)
    ensures Step(Tiny(), AfterReject(9), TimeoutDone) == AfterReject(10).(all := [SweptSession()])
  {
    var s := RejectedSession();
    assert FdIfOpen(5) + FdIfOpen(0) == multiset{5};
    assert Sweep(Tiny(), s, 10) == SweptSession();
    assert SweepAll(Tiny(), [s], 10) == [SweptSession()];
  }

  lemma LastClose()
    ensures var w := AfterReject(10).(all := [SweptSession()]); var e := ConnCloseDone(1, 5);
            Enabled(w, e) &&
            Step(Tiny(), w, e) == w.(all := [SweptSession().(c := SweptFields().(closesLeft := 0), closes := multiset{}, mapped := false)])
  {
    var s := SweptSession();
    assert 5 in s.closes;
    assert s.closes - multiset{5} == multiset{};
    assert CloseDone(s, 5) == s.(c := SweptFields().(closesLeft := 0), closes := multiset{}, mapped := false);
  }

  /** One connection accepted, none left in the map, and two terminal buckets charged: the identity the
      Stats comment promises at rest does not hold. */
  lemma IdentityCanFail() returns (evs: seq<Event>)
    ensures GoodCfg(Tiny()) && Legal(Tiny(), Start(), evs)
    ensures var w := Run(Tiny(), Start(), evs);
            Mapped(w) == 0 && AcceptedCount(w) == 1 && Buckets(w) == 2
  {
    hide Legal, Run;
    evs := UpToReject();
    evs := Ticks(evs);
    Swept();
    RunThen(Tiny(), Start(), evs, TimeoutDone);
    evs := evs + [TimeoutDone];
    LastClose();
    RunThen(Tiny(), Start(), evs, ConnCloseDone(1, 5));
    evs := evs + [ConnCloseDone(1, 5)];
    FinalCounts(SweptSession().(c := SweptFields().(closesLeft := 0), closes := multiset{}, mapped := false));
  }

  lemma FinalCounts(s: Session)
    requires s == SweptSession().(c := SweptFields().(closesLeft := 0), closes := multiset{}, mapped := false)
    ensures var w := AfterReject(10).(all := [s]);
            Mapped(w) == 0 && AcceptedCount(w) == 1 && Buckets(w) == 2
  {
    SumOne(s, MappedOf);
    SumOne(s, CompletedOf);
    SumOne(s, RejectedOf);
    SumOne(s, IdleOf);
    SumOne(s, ErrorsOf);
  }

  lemma SumOne(s: Session, f: Session -> int)
    ensures Sum([s], f) == f(s)
  {
    assert [s][..0] == [];
  }
}
