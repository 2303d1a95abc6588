/** Totals over connections, and how one transition moves them. */
module RelaySums {
  import opened RelayTypes
  import opened RelaySession
  import opened RelayInv
  import opened RelayWorld

  lemma {:induction false} SumUpdate(s: seq<Session>, f: Session -> int, i: nat, x: Session)
    requires i < |s|
    ensures Sum(s[i := x], f) == Sum(s, f) - f(s[i]) + f(x)
  {
    var n := |s| - 1;
    if i < n {
      SumUpdate(s[..n], f, i, x);
      assert s[i := x][..n] == s[..n][i := x];
    } else {
      assert s[i := x][..n] == s[..n];
    }
  }

  lemma SumAppend(s: seq<Session>, f: Session -> int, x: Session)
    ensures Sum(s + [x], f) == Sum(s, f) + f(x)
  {
    assert (s + [x])[..|s|] == s;
  }

  lemma {:induction false} SumAtMost(s: seq<Session>, f: Session -> int, g: Session -> int)
    requires forall i :: 0 <= i < |s| ==> f(s[i]) <= g(s[i])
    ensures Sum(s, f) <= Sum(s, g)
  {
    if s != [] {
      SumAtMost(s[..|s| - 1], f, g);
    }
  }

  lemma {:induction false} SumShrinks(s: seq<Session>, t: seq<Session>, f: Session -> int)
    requires |s| == |t| && forall i :: 0 <= i < |s| ==> f(s[i]) <= f(t[i])
    ensures Sum(s, f) <= Sum(t, f)
  {
    if s != [] {
      SumShrinks(s[..|s| - 1], t[..|t| - 1], f);
    }
  }

  lemma {:induction false} SumNonNegative(s: seq<Session>, f: Session -> int)
    requires forall i :: 0 <= i < |s| ==> f(s[i]) >= 0
    ensures Sum(s, f) >= 0
    ensures forall i :: 0 <= i < |s| ==> f(s[i]) <= Sum(s, f)
  {
    if s != [] {
      SumNonNegative(s[..|s| - 1], f);
    }
  }

  // ---- descriptors ----

  lemma AddOnRight(a: multiset<int>, b: multiset<int>, x: multiset<int>, y: multiset<int>, z: multiset<int>)
    requires a + x == b + y
    ensures (a + z) + x == (b + z) + y
  {
    assert (a + z) + x == (a + x) + z;
  }

  lemma {:induction false} FdsUpdate(s: seq<Session>, i: nat, x: Session)
    requires i < |s|
    ensures Fds(s[i := x]) + FdsOf(s[i]) == Fds(s) + FdsOf(x)
  {
    var n := |s| - 1;
    var t := s[i := x];
    if i < n {
      FdsUpdate(s[..n], i, x);
      assert t[..n] == s[..n][i := x];
      AddOnRight(Fds(t[..n]), Fds(s[..n]), FdsOf(s[i]), FdsOf(x), FdsOf(s[n]));
    } else {
      assert t[..n] == s[..n];
      AddOnRight(multiset{}, multiset{}, FdsOf(s[i]), FdsOf(s[i]), multiset{});
    }
  }

  lemma FdsAppend(s: seq<Session>, x: Session)
    ensures Fds(s + [x]) == Fds(s) + FdsOf(x)
  {
    assert (s + [x])[..|s|] == s;
  }

  lemma {:induction false} FdsSame(s: seq<Session>, t: seq<Session>)
    requires |s| == |t| && forall i :: 0 <= i < |s| ==> FdsOf(s[i]) == FdsOf(t[i])
    ensures Fds(s) == Fds(t)
  {
    if s != [] {
      FdsSame(s[..|s| - 1], t[..|t| - 1]);
    }
  }

  lemma {:induction false} FdsMember(s: seq<Session>, i: nat)
    requires i < |s|
    ensures FdsOf(s[i]) <= Fds(s)
  {
    if i < |s| - 1 {
      FdsMember(s[..|s| - 1], i);
    }
  }

  lemma {:induction false} ReadyFdsAppend(ready: seq<HookResult>, r: HookResult)
    ensures ReadyFds(ready + [r]) == ReadyFds(ready) + FdIfOpen(r.dec.upstreamFD)
  {
    if ready != [] {
      assert (ready + [r])[1..] == ready[1..] + [r];
      ReadyFdsAppend(ready[1..], r);
    }
  }

  lemma {:induction false} ResultsForAppend(ready: seq<HookResult>, r: HookResult, id: nat)
    ensures ResultsFor(ready + [r], id) == ResultsFor(ready, id) + (if r.id == id then [r.dec] else [])
  {
    if ready != [] {
      assert (ready + [r])[1..] == ready[1..] + [r];
      ResultsForAppend(ready[1..], r, id);
    }
  }

  // ---- closing moves descriptors, nothing else does ----

  ghost predicate SameHolder(s: Session, t: Session) {
    && t.mapped == s.mapped && t.c.closing == s.c.closing
    && t.c.clientFD == s.c.clientFD && t.c.upstreamFD == s.c.upstreamFD && t.unclosed == s.unclosed
  }

  /** `t` is `s`, or `s` closed, as far as its descriptors, its place in the map and its undrained
      results go; at most the current tick was stamped. */
  ghost predicate Follows(s: Session, t: Session, tick: nat) {
    && (SameHolder(s, t) || (s.mapped && SameHolder(CloseConn(s), t)))
    && t.results == s.results
    && (t.c.lastTick == s.c.lastTick || t.c.lastTick == tick)
  }

  lemma CloseConnFds(s: Session)
    requires s.mapped
    ensures FdsOf(CloseConn(s)) == FdsOf(s)
  {
  }

  lemma FollowsFds(s: Session, t: Session, tick: nat)
    requires Follows(s, t, tick)
    ensures FdsOf(t) == FdsOf(s) && MappedOf(t) <= MappedOf(s)
  {
    if !SameHolder(s, t) {
      CloseConnFds(s);
    }
  }

  lemma ForwardFollows(cfg: Cfg, s: Session)
    ensures var t := ForwardInit(cfg, s); SameHolder(s, t) && t.results == s.results && t.c.lastTick == s.c.lastTick
  {
  }

  lemma CloseFollows(s: Session, u: Session, tick: nat)
    requires s.mapped && SameHolder(s, u) && u.results == s.results
    requires u.c.lastTick == s.c.lastTick || u.c.lastTick == tick
    ensures Follows(s, u, tick) && Follows(s, CloseConn(u), tick) && Follows(s, Fail(u), tick)
  {
    hide FdIfOpen;
  }

  lemma RepliedFollows(cfg: Cfg, s: Session, k: Kind, t: Session, tick: nat)
    requires s.mapped && SameHolder(s, t) && t.results == s.results && t.c.lastTick == s.c.lastTick
    ensures Follows(s, Post(t, k), tick) && Follows(s, ForwardInit(cfg, t), tick) && Follows(s, CloseConn(t), tick)
  {
    hide CloseConn, ForwardInit, FlightOf;
    CloseFollows(s, t, tick);
    ForwardFollows(cfg, t);
  }

  lemma ReplyFollows(cfg: Cfg, s: Session, k: Kind, res: int, tick: nat)
    requires s.mapped
    ensures Follows(s, OnReply(cfg, s, k, res), tick)
  {
    hide Fail, CloseConn, Post, ForwardInit;
    if res <= 0 {
      CloseFollows(s, s, tick);
    } else {
      var t := s.(c := s.c.(replyOff := s.c.replyOff + res));
      RepliedFollows(cfg, s, k, t, tick);
      RepliedFollows(cfg, s, RecvReq, t, tick);
    }
  }

  lemma SendUpFollows(cfg: Cfg, s: Session, res: int, tick: nat)
    requires s.mapped
    ensures Follows(s, OnSendUp(cfg, s, res), tick)
  {
    hide Fail, CloseConn, FlightOf;
    CloseFollows(s, s, tick);
  }

  lemma C2URecvFollows(s: Session, tick: nat, res: int, data: seq<byte>)
    requires s.mapped
    ensures Follows(s, OnC2URecv(s, tick, res, data), tick)
  {
    hide Fail, CloseConn, FlightOf;
    CloseFollows(s, s, tick);
    CloseFollows(s, s.(c := s.c.(clientReadDone := true), h := s.h.(shutUp := s.h.shutUp + 1)), tick);
  }

  lemma U2CRecvFollows(s: Session, tick: nat, res: int, data: seq<byte>)
    requires s.mapped
    ensures Follows(s, OnU2CRecv(s, tick, res, data), tick)
  {
    hide Fail, CloseConn, FlightOf;
    CloseFollows(s, s, tick);
    CloseFollows(s, s.(c := s.c.(upstreamReadDone := true), h := s.h.(shutClient := s.h.shutClient + 1)), tick);
  }

  lemma SendFollows(s: Session, tick: nat, res: int)
    requires s.mapped
    ensures Follows(s, OnC2USend(s, res), tick) && Follows(s, OnU2CSend(s, res), tick)
  {
    hide Fail, CloseConn, FlightOf;
    CloseFollows(s, s, tick);
  }

  lemma RecvReqFollows(s: Session, tick: nat, res: int, data: seq<byte>)
    requires s.mapped
    ensures Follows(s, OnRecvReq(s, tick, res, data), tick)
  {
    hide Fail, CloseConn;
    CloseFollows(s, s, tick);
  }

  lemma HarvestFollows(s: Session, f: Flight, res: int, data: seq<byte>, u: Session, tick: nat)
    requires Follows(Harvested(s, f, res, data), u, tick)
    ensures Follows(s, u, tick)
  {
  }

  lemma CompleteFollows(cfg: Cfg, s: Session, tick: nat, f: Flight, res: int, data: seq<byte>)
    ensures Follows(s, Complete(cfg, s, tick, f, res, data), tick)
  {
    var t := Harvested(s, f, res, data);
    var u := Complete(cfg, s, tick, f, res, data);
    if s.mapped && !s.c.closing {
      match f.kind {
        case RecvReq => RecvReqFollows(t, tick, res, data);
        case SendUp => SendUpFollows(cfg, t, res, tick);
        case C2URecv => C2URecvFollows(t, tick, res, data);
        case U2CRecv => U2CRecvFollows(t, tick, res, data);
        case C2USend => SendFollows(t, tick, res);
        case U2CSend => SendFollows(t, tick, res);
        case _ => ReplyFollows(cfg, t, f.kind, res, tick);
      }
      HarvestFollows(s, f, res, data, u, tick);
    }
  }

  lemma SweepFollows(cfg: Cfg, s: Session, tick: nat)
    ensures Follows(s, Sweep(cfg, s, tick), tick)
  {
    hide FlightOf, FdIfOpen;
  }

  // ---- a drained result ----

  /** A drained descriptor changes hands exactly when it is adopted. */
  lemma DrainFds(cfg: Cfg, s: Session, tick: nat, d: Decision)
    requires Adopts(s, d) ==> s.c.upstreamFD == 0
    ensures FdsOf(Drain(cfg, s, tick, d)) == FdsOf(s) + (if Adopts(s, d) then FdIfOpen(d.upstreamFD) else multiset{})
  {
    if Adopts(s, d) {
      AdoptFollows(cfg, s, tick, d);
    } else {
      var p := if s.results == [] then s else s.(results := s.results[1..]);
      DrainFollows(cfg, s, tick, d);
      FollowsFds(p, Drain(cfg, s, tick, d), tick);
    }
  }

  lemma AdoptFollows(cfg: Cfg, s: Session, tick: nat, d: Decision)
    requires Adopts(s, d)
    ensures var t := Drain(cfg, s, tick, d);
            && SameHolder(s.(c := s.c.(upstreamFD := d.upstreamFD)), t)
            && t.results == (if s.results == [] then s.results else s.results[1..]) && t.c.lastTick == tick
  {
    hide FlightOf, CloseConn, Fail, GrowReq;
  }

  lemma DrainFollows(cfg: Cfg, s: Session, tick: nat, d: Decision)
    requires !Adopts(s, d)
    ensures Follows(if s.results == [] then s else s.(results := s.results[1..]), Drain(cfg, s, tick, d), tick)
  {
    if s.mapped && !s.c.closing {
      var t := if s.results == [] then s else s.(results := s.results[1..]);
      if d.reject {
        RejectFollows(cfg, t, tick, d);
      } else {
        MoreFollows(cfg, t, tick, d);
      }
    }
  }

  lemma RejectFollows(cfg: Cfg, s: Session, tick: nat, d: Decision)
    requires s.mapped && !s.c.closing && d.reject
    ensures Follows(s, Apply(cfg, s, tick, d), tick)
  {
    hide FlightOf, FdIfOpen;
  }

  lemma MoreFollows(cfg: Cfg, s: Session, tick: nat, d: Decision)
    requires s.mapped && !s.c.closing && !d.reject && d.more
    ensures Follows(s, Apply(cfg, s, tick, d), tick)
  {
    hide FlightOf, FdIfOpen;
    var t := s.(c := s.c.(lastTick := tick));
    if CanGrow(cfg, t.c) {
      assert GrowReq(cfg, t.c) == t.c.(reqBuf := GrowReq(cfg, t.c).reqBuf);
    }
  }
}
