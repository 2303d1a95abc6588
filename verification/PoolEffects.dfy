/** What each event does to the research relay, said of the world: what is outstanding for which connection
    afterwards, and what is counted (research/gate/cmd/relay-uring/main.go:431-499, 680-730). */
module PoolEffects {
  import opened RelayTypes
  import opened PoolRuns
  import opened PoolInv
  import opened PoolLaws

  // ---- one connection ----

  /** `t` counts so many more completions and errors than `s`, and no other connection is concerned. */
  ghost predicate Counts(s: Pool, t: Pool, id: nat, completed: nat, errs: nat) {
    && t.completed == s.completed + completed && t.errs == s.errs + errs
    && t.accepted == s.accepted && t.shed == s.shed && t.inflight == s.inflight && OnlyFor(s, t, id)
  }

  /** The connection goes on to wait for `x`, and nothing is counted. */
  ghost predicate WaitsFor(s: Pool, t: Pool, id: nat, x: Item) {
    && Counts(s, t, id, 0, 0) && ItemsOf(t.out, id) == [x]
    && var v, u := At(t, s.conns[id]), At(s, s.conns[id]);
       v.id == id && !v.closing && v.clientFD == u.clientFD
  }

  /** The connection closes: a close of each of its descriptors, and nothing else, is outstanding. */
  ghost predicate Closes(s: Pool, t: Pool, id: nat, completed: nat, errs: nat) {
    && Counts(s, t, id, completed, errs)
    && var v, u := At(t, s.conns[id]), At(s, s.conns[id]);
       && v.closing
       && ItemsOf(t.out, id) == [CloseFd(id, u.clientFD)] + (if u.upstreamFD > 0 then [CloseFd(id, u.upstreamFD)] else [])
       && v.closesLeft == (if u.upstreamFD > 0 then 2 else 1)
  }

  /** What the harvest of item `x`, an operation or an answer, leads to. */
  ghost predicate LeadsTo(par: Params, s: Pool, x: Item, res: int, t: Pool)
    requires x.id in s.conns
  {
    var o := s.conns[x.id];
    match x
    case Recv(id, _, _) =>
      if res <= 0 then Closes(s, t, id, 0, 1) else WaitsFor(s, t, id, Job(id)) && At(t, o).reqN == res
    case SendReq(id, _, _) => if res < 0 then Closes(s, t, id, 0, 1) else WaitsFor(s, t, id, RecvReply(id, o, par.replyLen))
    case RecvReply(id, _, _) => if res <= 0 then Closes(s, t, id, 0, 1) else WaitsFor(s, t, id, SendReply(id, o, res))
    case SendReply(id, _, _) => if res < 0 then Closes(s, t, id, 0, 1) else Closes(s, t, id, 1, 0)
    case Answer(id, fd, ok) =>
      if !ok then Closes(s, t, id, 0, 1) else WaitsFor(s, t, id, SendReq(id, o, At(s, o).reqN)) && At(t, o).upstreamFD == fd
    case _ => true
  }

  /** The state in between: the item is taken and what was received is written. */
  ghost predicate Between(s: Pool, t: Pool, id: nat) {
    && Counts(s, t, id, 0, 0) && ItemsOf(t.out, id) == [] && s.conns[id] < |t.objs|
    && var v, u := At(t, s.conns[id]), At(s, s.conns[id]);
       v.id == id && !v.closing && v.clientFD == u.clientFD > 0 && v.upstreamFD == u.upstreamFD && v.reqN == u.reqN
  }

  lemma InBetween(par: Params, s: Pool, k: nat, data: seq<byte>)
    requires Inv(par, s) && k < |s.out| && s.out[k].id in s.conns && !s.out[k].CloseFd?
    ensures var t := Written(Taken(s, k), s.out[k], data);
            Between(s, t, s.out[k].id) && t.conns == s.conns && |At(t, s.conns[s.out[k].id]).respBuf| == par.replyLen
  {
    hide IdsOk, FreeOk, Kept, ItemsOf, Without, Awaits;
    NotClosing(par, s, k);
    WrittenIdle(par, s, k, data);
    assert IdOk(s, s.out[k].id) by { KnownId(par, s, s.out[k].id); }
  }

  lemma KnownId(par: Params, s: Pool, id: nat)
    requires Inv(par, s)
    ensures IdOk(s, id)
  {
  }

  lemma Waits(s: Pool, t: Pool, id: nat, v: Obj, x: Item)
    requires Between(s, t, id) && t.conns == s.conns && x.id == id
    requires v.id == id && !v.closing && v.clientFD == At(t, t.conns[id]).clientFD
    ensures WaitsFor(s, Post(Put(t, t.conns[id], v), x), id, x)
  {
    hide ItemsOf;
    AppendOthers(t.out, x);
    ItemsAppend(t.out, x, id);
  }

  lemma ClosesAll(s: Pool, t: Pool, id: nat, completed: nat, errs: nat)
    requires Between(s, t.(completed := s.completed, errs := s.errs), id) && t.conns == s.conns
    requires t.completed == s.completed + completed && t.errs == s.errs + errs
    ensures Closes(s, CloseConn(t, id), id, completed, errs)
  {
    hide ItemsOf;
    var v := At(t, t.conns[id]);
    ClosesItems(t.out, v, id);
  }

  /** Every completion of an operation, and every answer taken off the list, of a connection in the map. */
  lemma ItemEffect(par: Params, s: Pool, e: Event)
    requires Inv(par, s) && Enabled(s, e) && (e.Done? || e.Drained?)
    requires s.out[e.k].id in s.conns && !s.out[e.k].CloseFd?
    ensures LeadsTo(par, s, s.out[e.k], if e.Done? then e.res else 0, Step(par, s, e))
  {
    hide Inv, Written, Taken, CloseConn, Between, Closes, WaitsFor;
    var x := s.out[e.k];
    var id, o := x.id, s.conns[x.id];
    var t := Written(Taken(s, e.k), x, if e.Done? then e.data else []);
    InBetween(par, s, e.k, if e.Done? then e.data else []);
    Fields(s, t, id);
    AnswerWrites(Taken(s, e.k), x);
    var u := At(t, o);
    PutAt(t, o);
    ClosesAll(s, t.(errs := t.errs + 1), id, 0, 1);
    ClosesAll(s, t.(completed := t.completed + 1), id, 1, 0);
    match x
    case Recv(_, _, _) => if e.res > 0 { Waits(s, t, id, u.(reqN := e.res), Job(id)); AtPut(t, o, u.(reqN := e.res)); }
    case SendReq(_, _, _) => Waits(s, t, id, u, RecvReply(id, o, |u.respBuf|));
    case RecvReply(_, _, _) => if e.res > 0 { Waits(s, t, id, u, SendReply(id, o, e.res)); }
    case SendReply(_, _, _) =>
    case Answer(_, fd, _) => Waits(s, t, id, u.(upstreamFD := fd), SendReq(id, o, u.reqN)); AtPut(t, o, u.(upstreamFD := fd));
  }

  lemma Fields(s: Pool, t: Pool, id: nat)
    requires Between(s, t, id)
    ensures id in s.conns && s.conns[id] < |t.objs|
    ensures t.completed == s.completed && t.errs == s.errs && t == t.(completed := s.completed, errs := s.errs)
    ensures var v, u := At(t, s.conns[id]), At(s, s.conns[id]); v.id == id && !v.closing && v.reqN == u.reqN
  {
    hide ItemsOf;
  }

  lemma AnswerWrites(s: Pool, x: Item)
    ensures x.Answer? ==> Written(s, x, []) == s
  {
  }

  lemma PutAt(t: Pool, o: nat)
    ensures Put(t, o, At(t, o)) == t
  {
  }

  lemma AtPut(t: Pool, o: nat, v: Obj)
    requires o < |t.objs|
    ensures At(Put(t, o, v), o) == v
  {
  }

  /** A request leaves the pool as an answer on the list, for the same connection. */
  lemma HookEffect(par: Params, s: Pool, k: nat, fd: int, ok: bool)
    requires Inv(par, s) && Enabled(s, HookReturns(k, fd, ok))
    ensures var t := Step(par, s, HookReturns(k, fd, ok)); var id := s.out[k].id;
            id in s.conns && WaitsFor(s, t, id, Answer(id, fd, ok)) && t.objs == s.objs
  {
    hide Inv, Written, Between, WaitsFor;
    var id := s.out[k].id;
    MappedOrClose(par, s, k);
    InBetween(par, s, k, []);
    WrittenJob(Taken(s, k), s.out[k]);
    Fields(s, Taken(s, k), id);
    PutAt(Taken(s, k), s.conns[id]);
    Waits(s, Taken(s, k), id, At(Taken(s, k), s.conns[id]), Answer(id, fd, ok));
  }

  lemma WrittenJob(s: Pool, x: Item)
    ensures x.Job? ==> Written(s, x, []) == s
  {
  }

  /** A close of a mapped connection: with the last one it leaves the map, and its object is the next to be handed
      out; before that only the count and the closes outstanding fall. Any other close is of a connection turned
      away, and changes nothing. */
  lemma CloseEffect(par: Params, s: Pool, k: nat, res: int)
    requires Inv(par, s) && Enabled(s, Done(k, res, [])) && s.out[k].CloseFd?
    ensures var id := s.out[k].id; var t := Step(par, s, Done(k, res, []));
            && |ItemsOf(t.out, id)| == |ItemsOf(s.out, id)| - 1
            && if id !in s.conns then t == s.(out := t.out) else
               var last := |ItemsOf(s.out, id)| == 1; var o := s.conns[id];
               && o < |s.objs|
               && t.conns == (if last then s.conns - {id} else s.conns) && t.free == (if last then s.free + [o] else s.free)
               && t == s.(out := t.out, conns := t.conns, free := t.free, objs := s.objs[o := At(t, o)])
               && At(t, o) == if last then Blank(At(s, o).reqBuf, At(s, o).respBuf)
                              else At(s, o).(closesLeft := At(s, o).closesLeft - 1)
  {
    hide ItemsOf, Without, FreeOk, Kept, Awaits;
    Harvest(s, k);
    if s.out[k].id in s.conns {
      NotClosing(par, s, k);
    }
    KnownId(par, s, s.out[k].id);
    ItemsWithout(s.out, k, s.out[k].id);
    OneFewer(ItemsOf(Without(s.out, k), s.out[k].id), ItemsOf(s.out, s.out[k].id), s.out[k]);
  }

  lemma OneFewer(a: seq<Item>, b: seq<Item>, x: Item)
    requires multiset(a) + multiset{x} == multiset(b)
    ensures |a| == |b| - 1
  {
    assert |multiset(b)| == |multiset(a)| + 1;
  }

  // ---- accepts ----

  /** One accept less is in flight on its listener, whatever its result; then an error is counted, or a connection
      over the cap is counted as shed and closed, or a new one gets the next id, an unused object and a read of
      the whole request buffer. */
  lemma AcceptEffect(par: Params, s: Pool, k: nat, res: int)
    requires Inv(par, s) && Enabled(s, AcceptDone(k, res))
    ensures var t := Step(par, s, AcceptDone(k, res)); var u := s.(inflight := s.inflight[k := s.inflight[k] - 1]);
            if res < 0 then t == u.(errs := s.errs + 1)
            else if |s.conns| >= par.maxConns then
              t == u.(accepted := s.accepted + 1, shed := s.shed + 1, out := s.out + [CloseFd(0, res)])
            else
              var id, o := s.nextID + 1, NextObj(s);
              && t.accepted == s.accepted + 1 && t.shed == s.shed && t.errs == s.errs && t.completed == s.completed
              && t.inflight == u.inflight && t.nextID == id && t.conns == s.conns[id := o] && id !in s.conns
              && t.out == s.out + [Recv(id, o, par.reqLen)]
              && At(t, o) == Blank(At(t, o).reqBuf, At(t, o).respBuf).(id := id, clientFD := res)
              && forall j :: j in s.conns ==> s.conns[j] != o && At(t, s.conns[j]) == At(s, s.conns[j])
  {
    hide IdsOk, FreeOk, Kept, Got, NextObj, BuffersOk;
    var u := s.(inflight := s.inflight[k := s.inflight[k] - 1], accepted := s.accepted + 1);
    CountersKeep(par, s, u);
    NextIsFree(par, u);
    GotOnly(par, u);
    SameNext(s, u);
    NotYet(s, s.nextID + 1);
    GotObjects(par, u);
  }

  lemma SameNext(s: Pool, t: Pool)
    requires s.free == t.free && s.objs == t.objs
    ensures NextObj(s) == NextObj(t)
  {
  }

  lemma GotObjects(par: Params, s: Pool)
    ensures Got(par, s).accepted == s.accepted && Got(par, s).errs == s.errs && Got(par, s).completed == s.completed
    ensures s.objs <= Got(par, s).objs && Got(par, s).out == s.out
  {
  }

  // ---- the top-up ----

  /** No count falls, and where the refill has been each listener has its share or the cap is reached. */
  ghost predicate Filled(par: Params, s: Pool, t: Pool, k: nat) {
    && |t.inflight| == |s.inflight| && t == s.(inflight := t.inflight)
    && (forall j :: 0 <= j < |s.inflight| ==> t.inflight[j] >= s.inflight[j])
    && (forall j :: k <= j < |s.inflight| && s.inflight[j] <= par.perLn ==> t.inflight[j] <= par.perLn)
    && (forall j :: k <= j < |s.inflight| ==> t.inflight[j] >= par.perLn || |t.conns| + Total(t.inflight) >= par.maxConns)
  }

  lemma {:induction false} RefillFills(par: Params, s: Pool, k: nat)
    ensures Filled(par, s, Refilled(par, s, k), k) && Total(Refilled(par, s, k).inflight) >= Total(s.inflight)
    decreases |s.inflight| - k, if k < |s.inflight| then par.perLn - s.inflight[k] else 0
  {
    hide Total;
    if k < |s.inflight| {
      if s.inflight[k] < par.perLn && |s.conns| + Total(s.inflight) < par.maxConns {
        var u := s.(inflight := s.inflight[k := s.inflight[k] + 1]);
        TotalUpdate(s.inflight, k, s.inflight[k] + 1);
        RefillFills(par, u, k);
      } else {
        RefillFills(par, s, k + 1);
        KeptShare(par, s, k);
      }
    }
  }

  /** The refill of the later listeners leaves this one's count alone. */
  lemma {:induction false} KeptShare(par: Params, s: Pool, k: nat)
    requires k < |s.inflight|
    ensures |Refilled(par, s, k + 1).inflight| == |s.inflight| && Refilled(par, s, k + 1).inflight[k] == s.inflight[k]
  {
    LaterOnly(par, s, k + 1, k);
  }

  lemma {:induction false} LaterOnly(par: Params, s: Pool, k: nat, i: nat)
    requires i < k && i < |s.inflight|
    ensures |Refilled(par, s, k).inflight| == |s.inflight| && Refilled(par, s, k).inflight[i] == s.inflight[i]
    decreases |s.inflight| - k, if k < |s.inflight| then par.perLn - s.inflight[k] else 0
  {
    if k < |s.inflight| {
      if s.inflight[k] < par.perLn && |s.conns| + Total(s.inflight) < par.maxConns {
        LaterOnly(par, s.(inflight := s.inflight[k := s.inflight[k] + 1]), k, i);
      } else {
        LaterOnly(par, s, k + 1, i);
      }
    }
  }

  /** In every run, at the end of a batch: no listener's count falls and nothing else changes, and either every listener
      has exactly its share of accepts in flight, or the map and all accepts together have reached the cap. */
  lemma ToppedUp(par: Params, listeners: nat, evs: seq<Event>)
    requires par.perLn >= 1 && Legal(par, Start(listeners), evs)
    ensures var s := Run(par, Start(listeners), evs); var t := Step(par, s, BatchDone);
            && |t.inflight| == |s.inflight| && t == s.(inflight := t.inflight)
            && (forall j :: 0 <= j < |s.inflight| ==> s.inflight[j] <= t.inflight[j] <= par.perLn)
            && ((forall j :: 0 <= j < |t.inflight| ==> t.inflight[j] == par.perLn)
                || |t.conns| + Total(t.inflight) >= par.maxConns)
  {
    hide Run, Legal, Total, Refilled;
    var s := Run(par, Start(listeners), evs);
    AcceptsBounded(par, listeners, evs);
    RefillFills(par, s, 0);
  }
}
