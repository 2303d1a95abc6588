/** Descriptor ownership and accept backpressure, in every reachable state. */
module RelayDescriptors {
  import opened RelayTypes
  import opened RelaySession
  import opened RelayInv
  import opened RelayTeardown
  import opened RelaySteps
  import opened RelayWorld
  import opened RelaySums
  import opened RelaySafety
  import opened RelayLaws

  // ---- descriptors ----

  /** Conservation: the descriptors that are open are exactly those a connection answers for, those of
      undrained results, and those of shed connections still to be closed, each once. */
  lemma DescriptorsBalance(cfg: Cfg, evs: seq<Event>)
    requires GoodCfg(cfg) && Legal(cfg, Start(), evs)
    ensures var w := Run(cfg, Start(), evs); Fds(w.all) + ReadyFds(w.ready) + w.unclosed == multiset(w.open)
  {
    hide Run, Legal, AllOk, ReadyOk, AcceptsOk;
    Reachable(cfg, evs);
  }

  lemma {:induction false} FdsOfTwo(s: seq<Session>, i: nat, j: nat)
    requires i < j < |s|
    ensures FdsOf(s[i]) + FdsOf(s[j]) <= Fds(s)
  {
    hide FdsOf;
    var n := |s| - 1;
    if j < n {
      FdsOfTwo(s[..n], i, j);
    } else {
      FdsMember(s[..n], i);
    }
  }

  lemma OnceEach(a: multiset<int>, b: multiset<int>, open: set<int>, fd: int)
    requires a + b <= multiset(open) && fd in a
    ensures fd in open && fd !in b
  {
    assert multiset(open)[fd] <= 1;
    assert (a + b)[fd] <= multiset(open)[fd];
  }

  /** No two connections answer for the same descriptor, and what one answers for is open. */
  lemma NoSharedDescriptors(cfg: Cfg, w: World, i: nat, j: nat, fd: int)
    requires Inv(cfg, w) && i < |w.all| && j < |w.all| && i != j && fd in FdsOf(w.all[i])
    ensures fd in w.open && fd !in FdsOf(w.all[j]) && fd !in ReadyFds(w.ready) && fd !in w.unclosed
  {
    hide AllOk, ReadyOk, AcceptsOk, FdsOf, Fds, ReadyFds;
    if i < j { FdsOfTwo(w.all, i, j); } else { FdsOfTwo(w.all, j, i); }
    var a, b := FdsOf(w.all[i]), FdsOf(w.all[j]);
    assert a + b <= Fds(w.all);
    assert a + b <= multiset(w.open);
    OnceEach(a, b, w.open, fd);
    FdsMember(w.all, i);
    var r := ReadyFds(w.ready) + w.unclosed;
    assert a + r <= Fds(w.all) + r;
    assert Fds(w.all) + r == Fds(w.all) + ReadyFds(w.ready) + w.unclosed;
    OnceEach(a, r, w.open, fd);
  }

  /** A close the kernel carries out hits a descriptor that is open and that no live connection, of
      this id or another, still uses: nothing is closed twice or under its user. */
  lemma ClosesOnlyItsOwn(cfg: Cfg, w: World, id: nat, fd: int, j: nat)
    requires GoodCfg(cfg) && Inv(cfg, w) && Enabled(w, KernelCloses(id, fd)) && j < |w.all|
    ensures fd in w.open && !Live(w.all[id - 1])
    ensures Live(w.all[j]) ==> w.all[j].c.clientFD != fd && w.all[j].c.upstreamFD != fd
  {
    hide InvBy, SessionInv;
    SoundConn(cfg, w, id - 1);
    LiveHasNoCloses(cfg, w.all[id - 1], w.tick);
    FdsBalanceOf(cfg, w);
    UnclosedHeld(w.all[id - 1], fd);
    UnclosedOpen(w, id - 1, fd);
    if j != id - 1 {
      NoSharedDescriptors(cfg, w, id - 1, j, fd);
      LiveHolds(w.all[j], fd);
      PositiveFd(w, fd);
    }
  }

  lemma FdsBalanceOf(cfg: Cfg, w: World)
    requires Inv(cfg, w)
    ensures FdsBalance(w)
  {
    hide FdsBalance, AllOk;
  }

  lemma PositiveFd(w: World, fd: int)
    requires FdsBalance(w) && fd in w.open
    ensures fd > 0
  {
    hide Fds, ReadyFds;
  }

  lemma UnclosedHeld(s: Session, fd: int)
    requires fd in s.unclosed
    ensures fd in FdsOf(s)
  {
  }

  lemma UnclosedOpen(w: World, i: nat, fd: int)
    requires FdsBalance(w) && i < |w.all| && fd in FdsOf(w.all[i])
    ensures fd in w.open
  {
    hide FdsOf, ReadyFds;
    FdsMember(w.all, i);
    assert fd in multiset(w.open);
  }

  lemma LiveHolds(s: Session, fd: int)
    ensures Live(s) && fd > 0 && (s.c.clientFD == fd || s.c.upstreamFD == fd) ==> fd in FdsOf(s)
  {
  }

  lemma LiveHasNoCloses(cfg: Cfg, s: Session, tick: nat)
    requires SessionInv(cfg, s, tick)
    ensures Live(s) ==> s.unclosed == multiset{} && s.closes == multiset{}
  {
    hide InSomePhase, Closing, SeenOk, Charged;
  }

  /** The operations on the client's socket; the others are on the upstream's. */
  predicate OnClient(k: Kind) {
    k == RecvReq || k == ReplyClient || k == ReplyMore || k == RejectSend || k == C2URecv || k == U2CSend
  }

  /** Every operation a live connection has in flight names the socket of the peer it is meant for, and
      that is one of the connection's own, open descriptors. */
  lemma OperatesOnItsOwn(cfg: Cfg, w: World, i: nat, f: Flight)
    requires GoodCfg(cfg) && Inv(cfg, w) && i < |w.all| && Live(w.all[i]) && f in w.all[i].flights
    ensures f.fd in w.open && f.fd == if OnClient(f.kind) then w.all[i].c.clientFD else w.all[i].c.upstreamFD
  {
    hide InvBy, PreRelay, Undecided, C2UStream, U2CStream, SeenOk, Charged, Slice, FdsBalance;
    var s := w.all[i];
    SoundConn(cfg, w, i);
    PhaseOfFlight(cfg, s, w.tick, f);
    assert f.fd > 0;
    LiveHolds(s, f.fd);
    FdsBalanceOf(cfg, w);
    UnclosedOpen(w, i, f.fd);
  }

  // ---- backpressure ----

  /** Connections in the map and accepts in flight never exceed MaxConns together, accepts never exceed
      AcceptBatch, and nothing is ever shed. */
  lemma Backpressure(cfg: Cfg, evs: seq<Event>)
    requires GoodCfg(cfg) && Legal(cfg, Start(), evs)
    ensures var w := Run(cfg, Start(), evs);
            Mapped(w) + w.accepts <= cfg.maxConns && w.accepts <= cfg.acceptBatch && w.shed == 0
  {
    hide Run, Legal, AllOk, ReadyOk, FdsBalance;
    Reachable(cfg, evs);
  }

  /** At the end of a batch, unless stopping, one of the two limits is reached exactly. */
  lemma ToppedUp(cfg: Cfg, w: World)
    requires Inv(cfg, w) && !w.exited && !w.stopping
    ensures var v := Step(cfg, w, BatchDone);
            v.accepts >= w.accepts && (v.accepts == cfg.acceptBatch || Mapped(v) + v.accepts == cfg.maxConns)
  {
    hide AllOk, ReadyOk, FdsBalance;
    TopUpBound(cfg, Mapped(w), w.accepts);
  }
}
