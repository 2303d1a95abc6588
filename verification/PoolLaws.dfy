/** What holds in every run of the research relay: no operation, request or answer ever meets an object that was
    freed under it, every buffer forwards its own connection's bytes, and accepts are bounded
    (research/gate/cmd/relay-uring/main.go:322-348, 431-499, 680-730). */
module PoolLaws {
  import opened RelayTypes
  import opened PoolRuns
  import opened PoolInv

  // ---- every run ----

  lemma {:induction false} RunKeeps(par: Params, s: Pool, evs: seq<Event>)
    requires Inv(par, s) && Legal(par, s, evs)
    ensures Inv(par, Run(par, s, evs))
    decreases |evs|
  {
    hide Inv, Step, Enabled;
    if evs != [] {
      StepKeeps(par, s, evs[0]);
      RunKeeps(par, Step(par, s, evs[0]), evs[1..]);
    }
  }

  lemma Reachable(par: Params, listeners: nat, evs: seq<Event>)
    requires Legal(par, Start(listeners), evs)
    ensures Inv(par, Run(par, Start(listeners), evs))
  {
    hide Run, Legal;
    RunKeeps(par, Start(listeners), evs);
  }

  /** The object whose buffer an operation in flight uses. */
  predicate Uses(x: Item, o: nat) {
    match x
    case Recv(_, b, _) => b == o
    case SendReq(_, b, _) => b == o
    case RecvReply(_, b, _) => b == o
    case SendReply(_, b, _) => b == o
    case _ => false
  }

  /** In every run: for a connection in the map one thing is outstanding, or, once it closes, the closes it
      counts and nothing else; for any other id nothing is, but closes of connections turned away. */
  lemma OneThingEach(par: Params, listeners: nat, evs: seq<Event>, id: nat)
    requires Legal(par, Start(listeners), evs)
    ensures var s := Run(par, Start(listeners), evs); var its := ItemsOf(s.out, id);
            if id in s.conns then
              s.conns[id] < |s.objs| && var v := s.objs[s.conns[id]];
              if v.closing then |its| == v.closesLeft >= 1 && AllCloses(its) else
              |its| == 1 && Awaits(v, s.conns[id], its[0], Record(s.heard, id), Record(s.told, id))
            else AllCloses(its) && (id != 0 ==> its == [])
  {
    hide Run, Legal, ItemsOf, AllCloses, Awaits;
    Reachable(par, listeners, evs);
    var s := Run(par, Start(listeners), evs);
    assert IdOk(s, id);
    NoneCloses();
  }

  lemma NoneCloses()
    ensures AllCloses([])
  {
  }

  /** Nothing outstanding meets an object that no connection has. */
  lemma UnusedObject(par: Params, s: Pool, k: nat, o: nat)
    requires Inv(par, s) && k < |s.out| && forall id :: id in s.conns ==> s.conns[id] != o
    ensures !Uses(s.out[k], o)
    ensures s.out[k].id !in s.conns ==> s.out[k].CloseFd? && s.out[k].id == 0
  {
    hide ItemsOf, AllCloses, Without, FreeOk, Kept, BuffersOk;
    Harvest(s, k);
  }

  lemma FreeNotMapped(par: Params, s: Pool, i: nat)
    requires Inv(par, s) && i < |s.free|
    ensures forall id :: id in s.conns ==> s.conns[id] != s.free[i]
  {
    hide ItemsOf, AllCloses, Awaits;
    forall id | id in s.conns ensures s.conns[id] != s.free[i] {
      assert IdOk(s, id);
    }
  }

  /** In every run nothing outstanding meets an object on the free list: no operation in flight uses its
      buffers, and no operation, request or answer is for a connection that has it. */
  lemma FreeIsUnused(par: Params, listeners: nat, evs: seq<Event>, k: nat, i: nat)
    requires Legal(par, Start(listeners), evs)
    requires k < |Run(par, Start(listeners), evs).out| && i < |Run(par, Start(listeners), evs).free|
    ensures var s := Run(par, Start(listeners), evs);
            && !Uses(s.out[k], s.free[i])
            && (s.out[k].id in s.conns ==> s.conns[s.out[k].id] != s.free[i])
            && (s.out[k].id !in s.conns ==> s.out[k].CloseFd? && s.out[k].id == 0)
            && (forall j :: 0 <= j < |s.free| && j != i ==> s.free[j] != s.free[i])
  {
    hide Run, Legal, IdsOk, Uses, Kept, BuffersOk;
    Reachable(par, listeners, evs);
    var s := Run(par, Start(listeners), evs);
    FreeNotMapped(par, s, i);
    UnusedObject(par, s, k, s.free[i]);
  }

  /** In every run the object that a new connection gets is blank, no connection has it, and nothing
      outstanding uses it: no read of an earlier user can land in its buffers. */
  lemma HandedOutUnused(par: Params, listeners: nat, evs: seq<Event>)
    requires Legal(par, Start(listeners), evs)
    ensures var s := Run(par, Start(listeners), evs); var o := NextObj(s); var v := At(Got(par, s), o);
            && o == (if s.free != [] then s.free[|s.free| - 1] else |s.objs|)
            && Got(par, s).free == (if s.free != [] then s.free[..|s.free| - 1] else [])
            && v == Blank(v.reqBuf, v.respBuf) && |v.reqBuf| == par.reqLen && |v.respBuf| == par.replyLen
            && (forall id :: id in s.conns ==> s.conns[id] != o)
            && (forall k :: 0 <= k < |s.out| ==> !Uses(s.out[k], o))
  {
    hide Run, Legal, Inv, Uses;
    Reachable(par, listeners, evs);
    var s := Run(par, Start(listeners), evs);
    NextIsFree(par, s);
    forall k | 0 <= k < |s.out| ensures !Uses(s.out[k], NextObj(s)) {
      UnusedObject(par, s, k, NextObj(s));
    }
  }

  // ---- whose bytes are forwarded ----

  /** All that the client of connection `id` sent in a run. */
  function FromClient(par: Params, s: Pool, evs: seq<Event>, id: nat): seq<byte>
    requires Legal(par, s, evs)
    decreases |evs|
  {
    if evs == [] then [] else
    (if evs[0].Done? && s.out[evs[0].k].Recv? && s.out[evs[0].k].id == id then evs[0].data else [])
    + FromClient(par, Step(par, s, evs[0]), evs[1..], id)
  }

  /** All that its upstream sent. */
  function FromUpstream(par: Params, s: Pool, evs: seq<Event>, id: nat): seq<byte>
    requires Legal(par, s, evs)
    decreases |evs|
  {
    if evs == [] then [] else
    (if evs[0].Done? && s.out[evs[0].k].RecvReply? && s.out[evs[0].k].id == id then evs[0].data else [])
    + FromUpstream(par, Step(par, s, evs[0]), evs[1..], id)
  }

  /** No connection is added, and no record, accept or turned-away count moves. */
  ghost predicate Quieter(s: Pool, t: Pool) {
    && t.heard == s.heard && t.told == s.told && t.inflight == s.inflight && t.shed == s.shed
    && t.conns.Keys <= s.conns.Keys
  }

  lemma CloseQuieter(s: Pool, id: nat)
    requires id in s.conns
    ensures Quieter(s, CloseConn(s, id)) && Quieter(s, Fail(s, id)) && Quieter(s, CloseReturned(s, id))
  {
    hide ClosesFor;
  }

  lemma HandledQuieter(s: Pool, x: Item, res: int)
    ensures Quieter(s, Completed(s, x, res)) && (x.Answer? ==> Quieter(s, Adopted(s, x)))
  {
    hide CloseConn, Fail, CloseReturned;
    if x.id in s.conns {
      CloseQuieter(s, x.id);
      CloseQuieter(s.(errs := s.errs + 1), x.id);
      CloseQuieter(s.(completed := s.completed + 1), x.id);
    }
  }

  lemma WrittenRecords(s: Pool, x: Item, data: seq<byte>, id: nat)
    ensures var t := Written(s, x, data);
            && Record(t.heard, id) == Record(s.heard, id) + (if x.Recv? && x.id == id then data else [])
            && Record(t.told, id) == Record(s.told, id) + (if x.RecvReply? && x.id == id then data else [])
  {
    hide Stored;
  }

  lemma AcceptRecords(par: Params, s: Pool, k: nat, res: int)
    requires k < |s.inflight|
    ensures var t := Accepted(par, s, k, res); t.heard == s.heard && t.told == s.told
  {
  }

  lemma StepRecords(par: Params, s: Pool, e: Event, id: nat)
    requires Enabled(s, e)
    ensures var t := Step(par, s, e);
            && Record(t.heard, id)
               == Record(s.heard, id) + (if e.Done? && s.out[e.k].Recv? && s.out[e.k].id == id then e.data else [])
            && Record(t.told, id)
               == Record(s.told, id) + (if e.Done? && s.out[e.k].RecvReply? && s.out[e.k].id == id then e.data else [])
  {
    hide Refilled, Without, Completed, Adopted, Accepted, Written, Record;
    match e
    case AcceptDone(k, res) => AcceptRecords(par, s, k, res);
    case BatchDone => RefilledOnly(par, s, 0);
    case Done(k, res, data) =>
      WrittenRecords(Taken(s, k), s.out[k], data, id);
      HandledQuieter(Written(Taken(s, k), s.out[k], data), s.out[k], res);
    case Drained(k) => HandledQuieter(Taken(s, k), s.out[k], 0);
    case _ =>
  }

  lemma {:induction false} RunRecords(par: Params, s: Pool, evs: seq<Event>, id: nat)
    requires Legal(par, s, evs)
    ensures var t := Run(par, s, evs);
            && Record(t.heard, id) == Record(s.heard, id) + FromClient(par, s, evs, id)
            && Record(t.told, id) == Record(s.told, id) + FromUpstream(par, s, evs, id)
    decreases |evs|
  {
    hide Step, Enabled, Record;
    if evs != [] {
      StepRecords(par, s, evs[0], id);
      RunRecords(par, Step(par, s, evs[0]), evs[1..], id);
    }
  }

  /** In every run: the buffer a request is sent from holds all that the connection's client sent, and the
      buffer a reply is sent from all that its upstream sent; nothing from an earlier or another user. */
  lemma ForwardsOwnBytes(par: Params, listeners: nat, evs: seq<Event>, k: nat)
    requires Legal(par, Start(listeners), evs) && k < |Run(par, Start(listeners), evs).out|
    ensures var s := Run(par, Start(listeners), evs); var x := s.out[k];
            && (x.SendReq? ==>
                  && x.obj < |s.objs| && x.len <= |s.objs[x.obj].reqBuf|
                  && s.objs[x.obj].reqBuf[..x.len] == FromClient(par, Start(listeners), evs, x.id))
            && (x.SendReply? ==>
                  && x.obj < |s.objs| && x.len <= |s.objs[x.obj].respBuf|
                  && s.objs[x.obj].respBuf[..x.len] == FromUpstream(par, Start(listeners), evs, x.id))
  {
    hide Run, Legal, ItemsOf, AllCloses, Without, FromClient, FromUpstream;
    Reachable(par, listeners, evs);
    var s := Run(par, Start(listeners), evs);
    Harvest(s, k);
    RunRecords(par, Start(listeners), evs, s.out[k].id);
  }

  // ---- backpressure ----

  lemma {:induction false} TotalUpdate(s: seq<int>, k: nat, x: int)
    requires k < |s|
    ensures Total(s[k := x]) == Total(s) - s[k] + x
  {
    var n := |s| - 1;
    if k < n {
      assert s[k := x][..n] == s[..n][k := x];
      TotalUpdate(s[..n], k, x);
    } else {
      assert s[k := x][..n] == s[..n];
    }
  }

  lemma {:induction false} TotalNatural(s: seq<int>)
    requires forall i :: 0 <= i < |s| ==> s[i] >= 0
    ensures Total(s) >= 0
  {
    if s != [] {
      TotalNatural(s[..|s| - 1]);
    }
  }

  lemma {:induction false} TotalOnes(s: seq<int>)
    requires forall i :: 0 <= i < |s| ==> s[i] == 1
    ensures Total(s) == |s|
  {
    if s != [] {
      TotalOnes(s[..|s| - 1]);
    }
  }

  /** At most perLn accepts per listener, and map and accepts together within the cap, or one accept per
      listener if that is more; so with a cap that covers the listeners nothing is turned away. */
  ghost predicate Bounded(par: Params, s: Pool) {
    && (forall k :: 0 <= k < |s.inflight| ==> 0 <= s.inflight[k] <= par.perLn)
    && |s.conns| + Total(s.inflight) <= Max(par.maxConns, |s.inflight|)
    && (par.maxConns >= |s.inflight| ==> s.shed == 0)
  }

  lemma SizeAdded(m: map<nat, nat>, id: nat, o: nat)
    ensures |m[id := o]| <= |m| + 1
  {
    assert m[id := o].Keys == m.Keys + {id};
  }

  lemma FewerKeys(m: map<nat, nat>, n: map<nat, nat>)
    ensures n.Keys <= m.Keys ==> |n| <= |m|
  {
    if n.Keys <= m.Keys {
      assert m.Keys == n.Keys + (m.Keys - n.Keys);
    }
  }

  lemma {:induction false} RefillKeeps(par: Params, s: Pool, k: nat)
    requires Bounded(par, s)
    ensures Bounded(par, Refilled(par, s, k)) && |Refilled(par, s, k).inflight| == |s.inflight|
    decreases |s.inflight| - k, if k < |s.inflight| then par.perLn - s.inflight[k] else 0
  {
    if k < |s.inflight| {
      if s.inflight[k] < par.perLn && |s.conns| + Total(s.inflight) < par.maxConns {
        TotalUpdate(s.inflight, k, s.inflight[k] + 1);
        RefillKeeps(par, s.(inflight := s.inflight[k := s.inflight[k] + 1]), k);
      } else {
        RefillKeeps(par, s, k + 1);
      }
    }
  }

  lemma GotOnly(par: Params, s: Pool)
    ensures Got(par, s).inflight == s.inflight && Got(par, s).shed == s.shed
    ensures Got(par, s).conns == s.conns && Got(par, s).nextID == s.nextID
  {
  }

  lemma AcceptBounded(par: Params, s: Pool, k: nat, res: int)
    requires Bounded(par, s) && k < |s.inflight| && s.inflight[k] > 0
    ensures Bounded(par, Accepted(par, s, k, res))
  {
    hide Total, NextObj, Got, At;
    TotalUpdate(s.inflight, k, s.inflight[k] - 1);
    var t := s.inflight[k := s.inflight[k] - 1];
    TotalNatural(t);
    var u := s.(inflight := t, accepted := s.accepted + 1);
    SizeAdded(s.conns, s.nextID + 1, NextObj(u));
    GotOnly(par, u);
  }

  /** Only an accept adds to the map, and only it and the top-up move the accepts. */
  lemma MapShrinks(par: Params, s: Pool, e: Event)
    requires Enabled(s, e) && !e.AcceptDone? && !e.BatchDone?
    ensures var t := Step(par, s, e); t.inflight == s.inflight && t.shed == s.shed && |t.conns| <= |s.conns|
  {
    hide Stored, Without, Completed, Adopted;
    var k := e.k;
    FewerKeys(s.conns, Step(par, s, e).conns);
    match e
    case Done(_, res, data) => HandledQuieter(Written(Taken(s, k), s.out[k], data), s.out[k], res);
    case Drained(_) => HandledQuieter(Taken(s, k), s.out[k], 0);
    case _ =>
  }

  lemma StepBounded(par: Params, s: Pool, e: Event)
    requires Bounded(par, s) && Enabled(s, e)
    ensures Bounded(par, Step(par, s, e))
  {
    hide Refilled, Accepted, Total, Completed, Adopted, Taken;
    match e
    case AcceptDone(k, res) => AcceptBounded(par, s, k, res);
    case BatchDone => RefillKeeps(par, s, 0);
    case _ => MapShrinks(par, s, e);
  }

  lemma {:induction false} RunBounded(par: Params, s: Pool, evs: seq<Event>)
    requires Bounded(par, s) && Legal(par, s, evs)
    ensures Bounded(par, Run(par, s, evs))
    decreases |evs|
  {
    hide Step, Enabled, Bounded;
    if evs != [] {
      StepBounded(par, s, evs[0]);
      RunBounded(par, Step(par, s, evs[0]), evs[1..]);
    }
  }

  /** Backpressure, in every run from the start. */
  lemma AcceptsBounded(par: Params, listeners: nat, evs: seq<Event>)
    requires par.perLn >= 1 && Legal(par, Start(listeners), evs)
    ensures Bounded(par, Run(par, Start(listeners), evs))
  {
    hide Run, Legal;
    TotalOnes(Start(listeners).inflight);
    RunBounded(par, Start(listeners), evs);
  }
}
