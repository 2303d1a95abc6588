/** The requests at the Hook pool. The job channel has 65536 slots and the worker blocks when it is full; what
    bounds the requests is MaxConns, but only with idle closing off (flashrelay/worker.go:146, 307-320,
    575-582). */
module RelayRequests {
  import opened Basics
  import opened RelayTypes
  import opened RelaySession
  import opened RelayInv
  import opened RelaySteps
  import opened RelayWorld
  import opened RelaySums
  import opened RelaySafety
  import opened RelayLaws
  import opened RelayDescriptors
  import opened RelayDoubleCharge
  import opened RelayReturn
  import opened RelayDrain

  // ---- what bounds them ----

  /** A connection that has left the map with a request still at the pool. */
  function OrphanOf(s: Session): int {
    B2N(!s.mapped && s.jobs != [])
  }

  function HolderOf(s: Session): int {
    MappedOf(s) + OrphanOf(s)
  }

  lemma JobsOfOne(cfg: Cfg, s: Session, tick: nat)
    requires SessionInv(cfg, s, tick)
    ensures JobsOf(s) <= HolderOf(s)
    ensures Live(s) && s.flights != multiset{} ==> JobsOf(s) == 0
    ensures cfg.idleTicks == 0 ==> OrphanOf(s) <= 0
  {
    hide PreRelay, Undecided, SeenOk, Charged, FlightOf, C2UStream, U2CStream, Delivered;
    hide Stable, OneUserPerBuffer, NonEmpty, PrefixSafe, HalfClosed;
  }

  lemma {:induction false} SumOfBoth(all: seq<Session>)
    ensures Sum(all, HolderOf) == Sum(all, MappedOf) + Sum(all, OrphanOf)
  {
    if all != [] {
      SumOfBoth(all[..|all| - 1]);
    }
  }

  lemma {:induction false} SumNone(all: seq<Session>, f: Session -> int)
    requires forall i :: 0 <= i < |all| ==> f(all[i]) <= 0
    ensures Sum(all, f) <= 0
  {
    if all != [] {
      SumNone(all[..|all| - 1], f);
    }
  }

  lemma {:induction false} SumBelow(s: seq<Session>, f: Session -> int, g: Session -> int, i: nat)
    requires i < |s| && forall k :: 0 <= k < |s| ==> f(s[k]) <= g(s[k])
    ensures Sum(s, f) <= Sum(s, g) - g(s[i]) + f(s[i])
  {
    var n := |s| - 1;
    if i < n {
      SumBelow(s[..n], f, g, i);
    } else {
      SumAtMost(s[..n], f, g);
    }
  }

  lemma NotOrphan(s: Session)
    requires s.mapped
    ensures OrphanOf(s) == 0
  {
  }

  /** The worker is about to hand over a request of a live connection. */
  predicate HandsOver(w: World, id: nat, f: Flight) {
    IsConn(w, id) && Live(w.all[id - 1]) && f in w.all[id - 1].flights && f.kind == RecvReq
  }

  /** The requests outstanding then are fewer than MaxConns and the connections that idle closing took from
      the map with a request still at the pool, together. */
  lemma HandOverBound(cfg: Cfg, w: World, id: nat, f: Flight)
    requires GoodCfg(cfg) && Inv(cfg, w) && HandsOver(w, id, f)
    ensures Sum(w.all, JobsOf) < cfg.maxConns + Sum(w.all, OrphanOf)
    ensures cfg.idleTicks == 0 ==> Sum(w.all, JobsOf) < cfg.maxConns
  {
    hide SessionInv, ReadyOk, FdsBalance, JobsOf, OrphanOf, Sum;
    forall k | 0 <= k < |w.all|
      ensures JobsOf(w.all[k]) <= HolderOf(w.all[k])
      ensures k == id - 1 ==> JobsOf(w.all[k]) == 0
      ensures cfg.idleTicks == 0 ==> OrphanOf(w.all[k]) <= 0
    {
      SoundConn(cfg, w, k);
      JobsOfOne(cfg, w.all[k], w.tick);
    }
    SumBelow(w.all, JobsOf, HolderOf, id - 1);
    NotOrphan(w.all[id - 1]);
    SumOfBoth(w.all);
    if cfg.idleTicks == 0 {
      SumNone(w.all, OrphanOf);
    }
  }

  lemma MappedBound(cfg: Cfg, w: World)
    requires GoodCfg(cfg) && Inv(cfg, w) && cfg.idleTicks == 0
    ensures Sum(w.all, JobsOf) <= cfg.maxConns
  {
    hide SessionInv, ReadyOk, FdsBalance, JobsOf, OrphanOf, Sum;
    forall k | 0 <= k < |w.all|
      ensures JobsOf(w.all[k]) <= HolderOf(w.all[k]) && OrphanOf(w.all[k]) <= 0
    {
      SoundConn(cfg, w, k);
      JobsOfOne(cfg, w.all[k], w.tick);
    }
    SumAtMost(w.all, JobsOf, HolderOf);
    SumOfBoth(w.all);
    SumNone(w.all, OrphanOf);
  }

  // ---- one more request ----

  /** The worker goes on, and there is room for a connection. */
  predicate HasRoom(cfg: Cfg, w: World) {
    !w.exited && !w.stopping && Mapped(w) < cfg.maxConns
  }

  /** The connection has nothing outstanding but its request at the Hook, and was last active at `tick`. */
  predicate Asking(s: Session, tick: nat) {
    s.mapped && !s.c.closing && s.c.clientFD > 0 && |s.jobs| == 1 && s.flights == multiset{} && s.c.lastTick == tick
  }

  /** A client is accepted. */
  lemma Admitted(cfg: Cfg, evs0: seq<Event>) returns (evs: seq<Event>, fd: int)
    requires GoodCfg(cfg) && Legal(cfg, Start(), evs0) && HasRoom(cfg, Run(cfg, Start(), evs0))
    ensures Legal(cfg, Start(), evs)
    ensures var w0, w := Run(cfg, Start(), evs0), Run(cfg, Start(), evs);
            && w.all == w0.all + [Accepted(cfg, w0.tick, fd)] && w.tick == w0.tick && !w.exited && !w.stopping
    ensures fd > 0
  {
    hide Legal, Run, InvBy, Accepted, Sum, TopUp;
    var w0 := Run(cfg, Start(), evs0);
    Reachable(cfg, evs0);
    ToppedUp(cfg, w0);
    RunThen(cfg, Start(), evs0, BatchDone);
    evs := evs0 + [BatchDone];
    var w1 := Run(cfg, Start(), evs);
    fd := FreshFd(w1.open);
    RunThen(cfg, Start(), evs, AcceptDone(fd));
    evs := evs + [AcceptDone(fd)];
  }

  lemma AcceptedReads(cfg: Cfg, tick: nat, fd: int) returns (f: Flight)
    requires GoodCfg(cfg) && fd > 0
    ensures var s := Accepted(cfg, tick, fd);
            && f in s.flights && f.kind == RecvReq && ResultOk(f, 1, [7])
            && Asking(Complete(cfg, s, tick, f, 1, [7]), tick)
    ensures var s := Accepted(cfg, tick, fd); Live(s) && s.jobs == []
  {
    hide Stored, Slice, Fail;
    f := FlightOf(Accepted(cfg, tick, fd).c, RecvReq);
    ZerosLength(cfg.initialReqLen);
    var s := Accepted(cfg, tick, fd);
    assert s.flights == multiset{f};
    assert multiset{f} - multiset{f} == multiset{};
  }

  lemma {:induction false} ZerosLength(n: nat)
    ensures |Zeros(n)| == n
  {
  }

  /** A client is accepted and its request handed over. */
  lemma Asks(cfg: Cfg, evs0: seq<Event>) returns (evs: seq<Event>)
    requires GoodCfg(cfg) && Legal(cfg, Start(), evs0) && HasRoom(cfg, Run(cfg, Start(), evs0))
    ensures Legal(cfg, Start(), evs)
    ensures var w0, w := Run(cfg, Start(), evs0), Run(cfg, Start(), evs); var n := |w0.all|;
            && |w.all| == n + 1 && w.all[..n] == w0.all && Asking(w.all[n], w.tick) && w.tick == w0.tick
            && !w.exited && !w.stopping
  {
    hide Legal, Run, Accepted, Complete, Asking, ResultOk;
    var fd;
    evs, fd := Admitted(cfg, evs0);
    var w0, w1 := Run(cfg, Start(), evs0), Run(cfg, Start(), evs);
    var n := |w0.all|;
    assert w1.all[n] == Accepted(cfg, w0.tick, fd);
    var f := AcceptedReads(cfg, w0.tick, fd);
    var e := ConnDone(n + 1, f, 1, [7]);
    RunThen(cfg, Start(), evs, e);
    evs := evs + [e];
  }

  lemma OneMoreJob(w0: World, w: World)
    requires |w.all| == |w0.all| + 1 && w.all[..|w0.all|] == w0.all && |w.all[|w0.all|].jobs| == 1
    ensures Sum(w.all, JobsOf) == Sum(w0.all, JobsOf) + 1
  {
    SumAppend(w0.all, JobsOf, w.all[|w0.all|]);
    assert w.all == w0.all + [w.all[|w0.all|]];
  }

  // ---- the same, and the connection closed as idle ----

  /** `w` has one connection more than `all`, all of them gone but that one; it has a request at the Hook, and
      was last active at `since`. */
  predicate Waiting(w: World, all: seq<Session>, since: nat) {
    var n := |all|;
    && |w.all| == n + 1 && w.all[..n] == all
    && (forall i :: 0 <= i < n ==> !all[i].mapped)
    && |w.all[n].jobs| == 1 && w.all[n].mapped && w.all[n].c.clientFD > 0
    && (Live(w.all[n]) ==> w.all[n].c.lastTick == since)
    && !w.exited && !w.stopping
  }

  lemma TickWaits(cfg: Cfg, w: World, all: seq<Session>, since: nat)
    requires Waiting(w, all, since)
    ensures Enabled(w, TimeoutDone) && Waiting(Step(cfg, w, TimeoutDone), all, since)
    ensures Step(cfg, w, TimeoutDone).tick == w.tick + 1
  {
    hide Sweep;
    var v := Step(cfg, w, TimeoutDone);
    SweepWaits(cfg, w.all[|all|], w.tick + 1, since);
    forall i | 0 <= i < |all| ensures v.all[i] == all[i] {
      assert w.all[i] == all[i];
      SweepSkips(cfg, all[i], w.tick + 1);
    }
    assert v.all[..|all|] == all;
  }

  lemma SweepSkips(cfg: Cfg, s: Session, tick: nat)
    requires !s.mapped
    ensures Sweep(cfg, s, tick) == s
  {
  }

  lemma SweepWaits(cfg: Cfg, s: Session, tick: nat, since: nat)
    requires s.mapped && s.c.clientFD > 0 && (Live(s) ==> s.c.lastTick == since)
    ensures var t := Sweep(cfg, s, tick); t.mapped && t.c.clientFD > 0 && (Live(t) ==> t.c.lastTick == since) && t.jobs == s.jobs
  {
  }

  lemma TicksPass(cfg: Cfg, evs0: seq<Event>, all: seq<Session>, since: nat, n: nat) returns (evs: seq<Event>)
    requires Legal(cfg, Start(), evs0) && Waiting(Run(cfg, Start(), evs0), all, since)
    ensures Legal(cfg, Start(), evs)
    ensures Waiting(Run(cfg, Start(), evs), all, since) && Run(cfg, Start(), evs).tick == Run(cfg, Start(), evs0).tick + n
  {
    hide Legal, Run, Waiting, Step, Enabled;
    evs := evs0;
    var k := 0;
    while k < n
      invariant 0 <= k <= n && Legal(cfg, Start(), evs) && Waiting(Run(cfg, Start(), evs), all, since)
      invariant Run(cfg, Start(), evs).tick == Run(cfg, Start(), evs0).tick + k
    {
      TickWaits(cfg, Run(cfg, Start(), evs), all, since);
      RunThen(cfg, Start(), evs, TimeoutDone);
      evs := evs + [TimeoutDone];
      k := k + 1;
    }
  }

  lemma CloseWaits(cfg: Cfg, w: World, all: seq<Session>, since: nat, fd: int)
    requires Waiting(w, all, since) && !Live(w.all[|all|]) && fd in w.all[|all|].closes
    ensures Enabled(w, ConnCloseDone(|all| + 1, fd))
    ensures var v := Step(cfg, w, ConnCloseDone(|all| + 1, fd));
            && |v.all| == |all| + 1 && v.all[..|all|] == all && v.tick == w.tick
            && (v.all[|all|].mapped ==> Waiting(v, all, since) && !Live(v.all[|all|]))
            && |v.all[|all|].closes| < |w.all[|all|].closes| && |v.all[|all|].jobs| == 1 && !v.exited && !v.stopping
  {
  }

  lemma ClosesOf(cfg: Cfg, w: World, i: nat) returns (fd: int)
    requires GoodCfg(cfg) && Inv(cfg, w) && i < |w.all| && w.all[i].mapped && !Live(w.all[i])
    ensures fd in w.all[i].closes
  {
    hide SessionInv, InvBy;
    SoundConn(cfg, w, i);
    TokensOf(cfg, w.all[i], w.tick);
    fd := SomeIn(w.all[i].closes);
  }

  lemma SomeIn(m: multiset<int>) returns (x: int)
    requires m != multiset{}
    ensures x in m
  {
    if forall y :: y !in m {
      NoneIn(m);
    }
    x :| x in m;
  }

  /** The closes complete and the connection leaves the map. */
  lemma {:induction false} Leaves(cfg: Cfg, evs0: seq<Event>, all: seq<Session>, since: nat) returns (evs: seq<Event>)
    requires GoodCfg(cfg) && Legal(cfg, Start(), evs0)
    requires Waiting(Run(cfg, Start(), evs0), all, since) && !Live(Run(cfg, Start(), evs0).all[|all|])
    ensures Legal(cfg, Start(), evs)
    ensures var w := Run(cfg, Start(), evs);
            && |w.all| == |all| + 1 && w.all[..|all|] == all && |w.all[|all|].jobs| == 1
            && !w.all[|all|].mapped && !w.exited && !w.stopping
    decreases |Run(cfg, Start(), evs0).all[|all|].closes|
  {
    hide Legal, Run, Step, Enabled, InvBy;
    var w := Run(cfg, Start(), evs0);
    Reachable(cfg, evs0);
    var fd := ClosesOf(cfg, w, |all|);
    CloseWaits(cfg, w, all, since, fd);
    RunThen(cfg, Start(), evs0, ConnCloseDone(|all| + 1, fd));
    evs := evs0 + [ConnCloseDone(|all| + 1, fd)];
    if Run(cfg, Start(), evs).all[|all|].mapped {
      evs := Leaves(cfg, evs, all, since);
    }
  }

  /** Nothing is mapped, and the worker goes on. */
  predicate AtRest(w: World) {
    !w.exited && !w.stopping && forall i :: 0 <= i < |w.all| ==> !w.all[i].mapped
  }

  lemma RestHasRoom(cfg: Cfg, w: World)
    requires GoodCfg(cfg) && AtRest(w)
    ensures HasRoom(cfg, w)
  {
    SumNone(w.all, MappedOf);
  }

  /** A client is accepted, asks, and is closed as idle while the Hook decides. */
  lemma Parked(cfg: Cfg, evs0: seq<Event>) returns (evs: seq<Event>)
    requires GoodCfg(cfg) && cfg.idleTicks > 0 && Legal(cfg, Start(), evs0) && AtRest(Run(cfg, Start(), evs0))
    ensures Legal(cfg, Start(), evs) && AtRest(Run(cfg, Start(), evs))
    ensures Sum(Run(cfg, Start(), evs).all, JobsOf) == Sum(Run(cfg, Start(), evs0).all, JobsOf) + 1
  {
    hide Legal, Run, Mapped, Sum, JobsOf, Inv, IdleOk, SessionInv;
    var w0 := Run(cfg, Start(), evs0);
    RestHasRoom(cfg, w0);
    evs := Asks(cfg, evs0);
    evs := TicksPass(cfg, evs, w0.all, w0.tick, cfg.idleTicks + 10);
    IdleBound(cfg, evs, |w0.all|);
    assert !Live(Run(cfg, Start(), evs).all[|w0.all|]);
    evs := Leaves(cfg, evs, w0.all, w0.tick);
    OneMoreJob(w0, Run(cfg, Start(), evs));
  }

  // ---- any number of requests ----

  lemma NothingYet(cfg: Cfg)
    ensures Legal(cfg, Start(), []) && Run(cfg, Start(), []) == Start() && AtRest(Start()) && Sum(Start().all, JobsOf) == 0
  {
  }

  /** With idle closing on a run can have any number of requests at the pool, whatever MaxConns is. */
  lemma {:induction false} AnyNumber(cfg: Cfg, n: nat) returns (evs: seq<Event>)
    requires GoodCfg(cfg) && cfg.idleTicks > 0
    ensures Legal(cfg, Start(), evs) && AtRest(Run(cfg, Start(), evs)) && Sum(Run(cfg, Start(), evs).all, JobsOf) == n
  {
    hide Legal, Run, AtRest, Sum;
    if n == 0 {
      NothingYet(cfg);
      evs := [];
    } else {
      evs := AnyNumber(cfg, n - 1);
      evs := Parked(cfg, evs);
    }
  }

  lemma OneMoreMapped(w0: World, w: World)
    requires |w.all| == |w0.all| + 1 && w.all[..|w0.all|] == w0.all
    ensures Mapped(w) <= Mapped(w0) + 1
  {
    SumAppend(w0.all, MappedOf, w.all[|w0.all|]);
    assert w.all == w0.all + [w.all[|w0.all|]];
  }

  /** With it off, or on, any number that MaxConns allows. */
  lemma {:induction false} UpToMaxConns(cfg: Cfg, n: nat) returns (evs: seq<Event>)
    requires GoodCfg(cfg) && n <= cfg.maxConns
    ensures Legal(cfg, Start(), evs)
    ensures var w := Run(cfg, Start(), evs); !w.exited && !w.stopping && Mapped(w) <= n && Sum(w.all, JobsOf) == n
  {
    hide Legal, Run, Sum, Mapped, JobsOf;
    if n == 0 {
      NothingYet(cfg);
      RestHasRoom(cfg, Start());
      NoneMappedYet();
      evs := [];
    } else {
      var evs0 := UpToMaxConns(cfg, n - 1);
      evs := Asks(cfg, evs0);
      OneMoreJob(Run(cfg, Start(), evs0), Run(cfg, Start(), evs));
      OneMoreMapped(Run(cfg, Start(), evs0), Run(cfg, Start(), evs));
    }
  }

  lemma NoneMappedYet()
    ensures Mapped(Start()) == 0
  {
  }

  // ---- when they are bounded ----

  /** In every run the requests at the pool stay within `n`. */
  ghost predicate Within(cfg: Cfg, n: nat) {
    forall evs :: Legal(cfg, Start(), evs) ==> Sum(Run(cfg, Start(), evs).all, JobsOf) <= n
  }

  /** Requests stay within MaxConns if and only if idle closing is off; and if it is on, within no bound. */
  lemma RequestsBoundedIff(cfg: Cfg, n: nat)
    requires GoodCfg(cfg)
    ensures Within(cfg, cfg.maxConns) <==> cfg.idleTicks == 0
    ensures cfg.idleTicks > 0 ==> !Within(cfg, n)
  {
    hide Legal, Run, Sum, AtRest, Inv;
    if cfg.idleTicks == 0 {
      forall evs | Legal(cfg, Start(), evs) ensures Sum(Run(cfg, Start(), evs).all, JobsOf) <= cfg.maxConns {
        Reachable(cfg, evs);
        MappedBound(cfg, Run(cfg, Start(), evs));
      }
    } else {
      var evs := AnyNumber(cfg, n + 1);
      var evs' := AnyNumber(cfg, cfg.maxConns + 1);
    }
  }

  /** In every run, whenever a request is handed over fewer than `slots` are outstanding. */
  ghost predicate AlwaysRoom(cfg: Cfg, slots: nat) {
    forall evs, id, f ::
      Legal(cfg, Start(), evs) && HandsOver(Run(cfg, Start(), evs), id, f) ==> Sum(Run(cfg, Start(), evs).all, JobsOf) < slots
  }

  /** `slots` requests outstanding and another one to hand over. */
  lemma FullAtHandOver(cfg: Cfg, slots: nat) returns (evs: seq<Event>, id: nat, f: Flight)
    requires GoodCfg(cfg) && (cfg.idleTicks > 0 || slots < cfg.maxConns)
    ensures Legal(cfg, Start(), evs) && HandsOver(Run(cfg, Start(), evs), id, f)
    ensures Sum(Run(cfg, Start(), evs).all, JobsOf) == slots
  {
    hide Legal, Run, Sum, Mapped, Accepted, ResultOk, Asking;
    var evs0;
    if cfg.idleTicks > 0 {
      evs0 := AnyNumber(cfg, slots);
      RestHasRoom(cfg, Run(cfg, Start(), evs0));
    } else {
      evs0 := UpToMaxConns(cfg, slots);
    }
    var w0 := Run(cfg, Start(), evs0);
    var fd;
    evs, fd := Admitted(cfg, evs0);
    f := AcceptedReads(cfg, w0.tick, fd);
    id := |w0.all| + 1;
    SumAppend(w0.all, JobsOf, Accepted(cfg, w0.tick, fd));
  }

  /** The hand-over of a request to a channel of `slots` slots never blocks the event loop, however slow the
      Hooks are, if and only if idle closing is off and MaxConns is at most the number of slots. */
  lemma HandOverNeverBlocksIff(cfg: Cfg, slots: nat)
    requires GoodCfg(cfg)
    ensures AlwaysRoom(cfg, slots) <==> cfg.idleTicks == 0 && cfg.maxConns <= slots
  {
    hide Legal, Run, Sum, Inv, HandsOver;
    if cfg.idleTicks == 0 && cfg.maxConns <= slots {
      forall evs, id, f | Legal(cfg, Start(), evs) && HandsOver(Run(cfg, Start(), evs), id, f)
        ensures Sum(Run(cfg, Start(), evs).all, JobsOf) < slots
      {
        Reachable(cfg, evs);
        HandOverBound(cfg, Run(cfg, Start(), evs), id, f);
      }
    } else {
      var evs, id, f := FullAtHandOver(cfg, slots);
    }
  }
}
