/** The invariant of the research relay: a connection in the map has exactly one thing outstanding, on its own
    buffers, or its closes, and any other id nothing; every event keeps it
    (research/gate/cmd/relay-uring/main.go:322-348, 431-499, 680-730). */
module PoolInv {
  import opened RelayTypes
  import opened PoolRuns

  // ---- one connection ----

  /** The one thing outstanding for an object in use: what its fields say it is waiting for, on its own
      buffers and within them. */
  predicate Awaits(v: Obj, o: nat, x: Item, heard: seq<byte>, told: seq<byte>) {
    match x
    case Recv(_, b, len) => b == o && len == |v.reqBuf| && v.upstreamFD == 0 && heard == told == []
    case Job(_) => v.upstreamFD == 0 && HasRequest(v, heard) && told == []
    case Answer(_, fd, ok) => v.upstreamFD == 0 && HasRequest(v, heard) && told == [] && (ok ==> fd > 0)
    case SendReq(_, b, len) => b == o && v.upstreamFD > 0 && len == v.reqN && HasRequest(v, heard) && told == []
    case RecvReply(_, b, len) => b == o && v.upstreamFD > 0 && len == |v.respBuf| && told == []
    case SendReply(_, b, len) => b == o && v.upstreamFD > 0 && 0 < len <= |v.respBuf| && told == v.respBuf[..len]
    case CloseFd(_, _) => false
  }

  /** The request buffer still holds all that was heard from the client. */
  predicate HasRequest(v: Obj, heard: seq<byte>) {
    0 < v.reqN <= |v.reqBuf| && heard == v.reqBuf[..v.reqN]
  }

  /** Object `o` in use by connection `id`, for which `its` is outstanding: exactly one thing, or as many closes
      as it counts. */
  predicate Sound(v: Obj, o: nat, id: nat, its: seq<Item>, heard: seq<byte>, told: seq<byte>) {
    && v.id == id && v.clientFD > 0
    && if v.closing then |its| == v.closesLeft >= 1 && AllCloses(its) else |its| == 1 && Awaits(v, o, its[0], heard, told)
  }

  /** Id 0 stands for connections turned away. */
  predicate IdOk(s: Pool, id: nat) {
    if id in s.conns then
      && 1 <= id <= s.nextID && s.conns[id] < |s.objs|
      && Sound(s.objs[s.conns[id]], s.conns[id], id, ItemsOf(s.out, id), Record(s.heard, id), Record(s.told, id))
    else if id == 0 then AllCloses(ItemsOf(s.out, 0))
    else ItemsOf(s.out, id) == [] && (id > s.nextID ==> Record(s.heard, id) == Record(s.told, id) == [])
  }

  ghost predicate FreeOk(s: Pool) {
    && (forall i :: 0 <= i < |s.free| ==> s.free[i] < |s.objs| && s.objs[s.free[i]].id == 0)
    && (forall i, j :: 0 <= i < j < |s.free| ==> s.free[i] != s.free[j])
  }

  /** Free objects are blank, and every object is free or in use by the connection it names. */
  ghost predicate Kept(s: Pool) {
    && (forall o :: 0 <= o < |s.objs| && s.objs[o].id == 0 ==> s.objs[o] == Blank(s.objs[o].reqBuf, s.objs[o].respBuf) && o in s.free)
    && (forall o :: 0 <= o < |s.objs| && s.objs[o].id != 0 ==> s.objs[o].id in s.conns && s.conns[s.objs[o].id] == o)
  }

  ghost predicate BuffersOk(par: Params, s: Pool) {
    forall o :: 0 <= o < |s.objs| ==> |s.objs[o].reqBuf| == par.reqLen && |s.objs[o].respBuf| == par.replyLen
  }

  ghost predicate IdsOk(s: Pool) {
    forall id: nat :: IdOk(s, id)
  }

  ghost predicate Inv(par: Params, s: Pool) {
    IdsOk(s) && FreeOk(s) && Kept(s) && BuffersOk(par, s)
  }

  // ---- what one connection's events leave alone ----

  /** `t` differs from `s` in the object and the items of connection `id`, and in counters. */
  ghost predicate OnlyFor(s: Pool, t: Pool, id: nat) {
    && id in s.conns && t.conns == s.conns && t.free == s.free && t.nextID == s.nextID && |t.objs| == |s.objs|
    && (forall o :: 0 <= o < |s.objs| && o != s.conns[id] ==> t.objs[o] == s.objs[o])
    && (forall j: nat :: j != id ==> ItemsOf(t.out, j) == ItemsOf(s.out, j))
    && (forall j: nat :: j != id ==> Record(t.heard, j) == Record(s.heard, j))
    && (forall j: nat :: j != id ==> Record(t.told, j) == Record(s.told, j))
  }

  lemma OneConn(par: Params, s: Pool, t: Pool, id: nat)
    requires Inv(par, s) && OnlyFor(s, t, id) && IdOk(t, id)
    requires var o := s.conns[id];
             o < |t.objs| ==> |t.objs[o].reqBuf| == |s.objs[o].reqBuf| && |t.objs[o].respBuf| == |s.objs[o].respBuf|
    ensures Inv(par, t)
  {
    hide AllCloses, Awaits;
    assert IdOk(s, id);
    forall j: nat ensures IdOk(t, j) {
      assert IdOk(s, j);
      if j != id && j in s.conns {
        Distinct(s, id, j);
      }
    }
  }

  /** No object is in use twice. */
  lemma Distinct(s: Pool, i: nat, j: nat)
    requires IdsOk(s) && i in s.conns && j in s.conns && i != j
    ensures s.conns[i] != s.conns[j]
  {
    hide AllCloses, Awaits;
    assert IdOk(s, i) && IdOk(s, j);
  }

  lemma TakenOthers(s: Pool, k: nat)
    requires k < |s.out|
    ensures forall j: nat :: j != s.out[k].id ==> ItemsOf(Without(s.out, k), j) == ItemsOf(s.out, j)
  {
    forall j: nat | j != s.out[k].id ensures ItemsOf(Without(s.out, k), j) == ItemsOf(s.out, j) {
      ItemsWithout(s.out, k, j);
    }
  }

  lemma AppendOthers(out: seq<Item>, x: Item)
    ensures forall j: nat :: j != x.id ==> ItemsOf(out + [x], j) == ItemsOf(out, j)
  {
    forall j: nat | j != x.id ensures ItemsOf(out + [x], j) == ItemsOf(out, j) {
      ItemsAppend(out, x, j);
    }
  }

  // ---- an item is harvested ----

  /** The item's connection is in the map, unless it is the close of one turned away; the item is the only
      thing outstanding for it, or one of its closes. */
  lemma Harvest(s: Pool, k: nat)
    requires IdsOk(s) && k < |s.out|
    ensures var x := s.out[k]; var id := x.id; var rest := ItemsOf(Without(s.out, k), id);
            if id !in s.conns then id == 0 && x.CloseFd? && AllCloses(rest) else
            var o := s.conns[id];
            && o < |s.objs| && 1 <= id <= s.nextID && s.objs[o].id == id && s.objs[o].clientFD > 0
            && (if s.objs[o].closing then x.CloseFd? && AllCloses(rest) && |rest| == s.objs[o].closesLeft - 1
                else Awaits(s.objs[o], o, x, Record(s.heard, id), Record(s.told, id)) && rest == [])
  {
    hide Without, Awaits, ItemsOf;
    var id := s.out[k].id;
    assert IdOk(s, id);
    HasItem(s.out, k);
    if id in s.conns && !s.objs[s.conns[id]].closing {
      OnlyOne(s.out, k);
    } else {
      OneOfCloses(s.out, k);
    }
  }

  /** The state with an item taken: its connection waits for nothing, or for one close less. */
  ghost predicate Idle(par: Params, s: Pool, t: Pool, id: nat) {
    Inv(par, s) && OnlyFor(s, t, id) && s.conns[id] < |t.objs| && 1 <= id
    && var v, u := s.objs[s.conns[id]], t.objs[s.conns[id]];
       && v.id == id && v.clientFD > 0 && !v.closing
       && ItemsOf(t.out, id) == [] && |u.reqBuf| == |v.reqBuf| && |u.respBuf| == |v.respBuf|
       && u.id == id && u.clientFD == v.clientFD && !u.closing
  }

  /** Its connection goes on to the next thing. */
  lemma Continues(par: Params, s: Pool, t: Pool, id: nat, v: Obj, x: Item)
    requires Idle(par, s, t, id) && x.id == id
    requires var u := t.objs[t.conns[id]];
             && v.id == id && v.clientFD == u.clientFD && !v.closing
             && Awaits(v, t.conns[id], x, Record(t.heard, id), Record(t.told, id))
             && |v.reqBuf| == |u.reqBuf| && |v.respBuf| == |u.respBuf|
    ensures Inv(par, Post(Put(t, t.conns[id], v), x))
  {
    hide Awaits, AllCloses, ItemsOf, FreeOk, Kept, BuffersOk;
    assert IdOk(s, id);
    var w := Post(Put(t, t.conns[id], v), x);
    AppendOthers(t.out, x);
    ItemsAppend(t.out, x, id);
    assert OnlyFor(s, w, id);
    OneConn(par, s, w, id);
  }

  lemma ClosesItems(out: seq<Item>, v: Obj, id: nat)
    requires v.id == id && v.clientFD > 0
    ensures var cs := ClosesFor(v);
            && 1 <= |cs| <= 2 && AllCloses(cs) && ItemsOf(out + cs, id) == ItemsOf(out, id) + cs
            && forall j: nat :: j != id ==> ItemsOf(out + cs, j) == ItemsOf(out, j)
  {
    hide ItemsOf;
    var cs := ClosesFor(v);
    AppendOthers(out, cs[0]);
    ItemsAppend(out, cs[0], id);
    if |cs| == 2 {
      AppendOthers(out + [cs[0]], cs[1]);
      ItemsAppend(out + [cs[0]], cs[1], id);
      assert out + cs == out + [cs[0]] + [cs[1]];
    } else {
      assert cs == [cs[0]];
    }
  }

  /** Its connection ends: the taken item was the only one, so from here on only its closes are outstanding. */
  lemma Ends(par: Params, s: Pool, t: Pool, id: nat)
    requires Idle(par, s, t, id)
    ensures Inv(par, CloseConn(t, id))
  {
    hide Awaits, ItemsOf, FreeOk, Kept, BuffersOk, ClosesFor, AllCloses;
    assert IdOk(s, id);
    var o := t.conns[id];
    var v := t.objs[o];
    ClosesItems(t.out, v, id);
    var w := CloseConn(t, id);
    assert OnlyFor(s, w, id);
    assert ItemsOf(w.out, id) == ClosesFor(v);
    OneConn(par, s, w, id);
  }

  /** What the kernel wrote went into the connection's own buffer. */
  lemma WrittenIdle(par: Params, s: Pool, k: nat, data: seq<byte>)
    requires Inv(par, s) && k < |s.out| && s.out[k].id in s.conns && !At(s, s.conns[s.out[k].id]).closing
    ensures var id := s.out[k].id; var t := Written(Taken(s, k), s.out[k], data);
            var o := s.conns[id];
            && Idle(par, s, t, id) && t.conns == s.conns
            && Awaits(At(s, o), o, s.out[k], Record(s.heard, id), Record(s.told, id))
            && At(t, o).upstreamFD == At(s, o).upstreamFD && At(t, o).reqN == At(s, o).reqN
            && (match s.out[k]
                case Recv(_, _, len) =>
                  && Record(t.told, id) == [] && Record(t.heard, id) == data
                  && (|data| <= len ==> At(t, o).reqBuf[..|data|] == data)
                case RecvReply(_, _, len) => Record(t.told, id) == data && (|data| <= len ==> At(t, o).respBuf[..|data|] == data)
                case _ => t.told == s.told && t.heard == s.heard && t.objs == s.objs)
  {
    hide ItemsOf, FreeOk, Kept, BuffersOk, Without, AllCloses;
    Harvest(s, k);
    TakenOthers(s, k);
  }


  lemma CountersIdle(par: Params, s: Pool, t: Pool, id: nat, completed: nat, errs: nat)
    requires Idle(par, s, t, id)
    ensures Idle(par, s, t.(completed := completed, errs := errs), id)
  {
    hide Inv, ItemsOf;
  }

  lemma PutSame(t: Pool, o: nat)
    requires o < |t.objs|
    ensures Put(t, o, t.objs[o]) == t
  {
  }

  lemma FailKeeps(par: Params, s: Pool, t: Pool, id: nat)
    requires Idle(par, s, t, id)
    ensures Inv(par, Fail(t, id))
  {
    hide Idle, CloseConn, Inv;
    CountersIdle(par, s, t, id, t.completed, t.errs + 1);
    Ends(par, s, t.(errs := t.errs + 1), id);
  }

  lemma OperationKeeps(par: Params, s: Pool, k: nat, res: int, data: seq<byte>)
    requires Inv(par, s) && Enabled(s, Done(k, res, data)) && s.out[k].id in s.conns && !s.out[k].CloseFd?
    ensures Inv(par, Step(par, s, Done(k, res, data)))
  {
    hide Inv, OnlyFor, Written, Taken, ItemsOf, CloseConn, Fail, IdsOk;
    var x := s.out[k];
    var id, o := x.id, s.conns[x.id];
    NotClosing(par, s, k);
    WrittenIdle(par, s, k, data);
    var t := Written(Taken(s, k), x, data);
    var u := t.objs[o];
    PutSame(t, o);
    FailKeeps(par, s, t, id);
    if x.Recv? && res > 0 {
      Continues(par, s, t, id, u.(reqN := res), Job(id));
    } else if x.SendReq? && res >= 0 {
      Continues(par, s, t, id, u, RecvReply(id, o, |u.respBuf|));
    } else if x.RecvReply? && res > 0 {
      Continues(par, s, t, id, u, SendReply(id, o, res));
    } else if x.SendReply? {
      CountersIdle(par, s, t, id, t.completed, t.errs + 1);
      CountersIdle(par, s, t, id, t.completed + 1, t.errs);
      Ends(par, s, t.(errs := t.errs + 1), id);
      Ends(par, s, t.(completed := t.completed + 1), id);
    }
  }

  lemma NotClosing(par: Params, s: Pool, k: nat)
    requires Inv(par, s) && k < |s.out| && s.out[k].id in s.conns
    ensures var o := s.conns[s.out[k].id]; o < |s.objs| && (!s.out[k].CloseFd? <==> !s.objs[o].closing)
  {
    hide ItemsOf, Without, AllCloses, FreeOk, Kept, BuffersOk;
    Harvest(s, k);
  }

  lemma HookKeeps(par: Params, s: Pool, k: nat, fd: int, ok: bool)
    requires Inv(par, s) && Enabled(s, HookReturns(k, fd, ok))
    ensures Inv(par, Step(par, s, HookReturns(k, fd, ok)))
  {
    hide Inv, OnlyFor, Taken, ItemsOf, IdsOk;
    MappedOrClose(par, s, k);
    NotClosing(par, s, k);
    WrittenIdle(par, s, k, []);
    var id, t := s.out[k].id, Taken(s, k);
    PutSame(t, s.conns[id]);
    Continues(par, s, t, id, t.objs[s.conns[id]], Answer(id, fd, ok));
  }

  lemma MappedOrClose(par: Params, s: Pool, k: nat)
    requires Inv(par, s) && k < |s.out|
    ensures s.out[k].id in s.conns || (s.out[k].CloseFd? && s.out[k].id == 0)
  {
    hide ItemsOf, Without, AllCloses, FreeOk, Kept, BuffersOk, Awaits;
    Harvest(s, k);
  }

  lemma DrainKeeps(par: Params, s: Pool, k: nat)
    requires Inv(par, s) && Enabled(s, Drained(k))
    ensures Inv(par, Step(par, s, Drained(k)))
  {
    hide Inv, OnlyFor, Taken, ItemsOf, IdsOk, Fail;
    MappedOrClose(par, s, k);
    NotClosing(par, s, k);
    WrittenIdle(par, s, k, []);
    var x, t := s.out[k], Taken(s, k);
    var o := s.conns[x.id];
    FailKeeps(par, s, t, x.id);
    if x.ok {
      Continues(par, s, t, x.id, t.objs[o].(upstreamFD := x.fd), SendReq(x.id, o, t.objs[o].reqN));
    }
  }

  // ---- closes ----

  /** A close of a connection that was turned away. */
  lemma ShedClosed(par: Params, s: Pool, k: nat)
    requires Inv(par, s) && k < |s.out| && s.out[k].id !in s.conns
    ensures Inv(par, Taken(s, k))
  {
    hide ItemsOf, Without, AllCloses, Sound;
    Harvest(s, k);
    TakenOthers(s, k);
    var t := Taken(s, k);
    forall j: nat ensures IdOk(t, j) {
      assert IdOk(s, j);
    }
  }

  /** One close less, and others still to come. */
  lemma FewerCloses(par: Params, s: Pool, k: nat)
    requires Inv(par, s) && k < |s.out| && s.out[k].CloseFd? && s.out[k].id in s.conns
    requires At(s, s.conns[s.out[k].id]).closesLeft > 1
    ensures Inv(par, CloseReturned(Taken(s, k), s.out[k].id))
  {
    hide ItemsOf, Without, AllCloses, FreeOk, Kept, BuffersOk;
    Harvest(s, k);
    TakenOthers(s, k);
    var id := s.out[k].id;
    assert IdOk(s, id);
    OneConn(par, s, CloseReturned(Taken(s, k), id), id);
  }

  /** With the last close nothing is outstanding for the connection, and its object is free. */
  lemma LastClose(par: Params, s: Pool, k: nat)
    requires Inv(par, s) && k < |s.out| && s.out[k].CloseFd? && s.out[k].id in s.conns
    requires At(s, s.conns[s.out[k].id]).closesLeft <= 1
    ensures var id := s.out[k].id; var t := CloseReturned(Taken(s, k), id);
            Inv(par, t) && ItemsOf(t.out, id) == [] && id !in t.conns
  {
    hide ItemsOf, Without, AllCloses;
    Harvest(s, k);
    TakenOthers(s, k);
    var id := s.out[k].id;
    var o := s.conns[id];
    assert IdOk(s, id);
    var t := CloseReturned(Taken(s, k), id);
    LastCloseIds(s, t, k);
    FreedKept(s, t, id);
  }

  lemma LastCloseIds(s: Pool, t: Pool, k: nat)
    requires IdsOk(s) && k < |s.out| && s.out[k].id in s.conns
    requires var id := s.out[k].id; var o := s.conns[id];
             && t.conns == s.conns - {id} && t.out == Without(s.out, k) && t.nextID == s.nextID && |t.objs| == |s.objs|
             && t.heard == s.heard && t.told == s.told
             && (forall j :: 0 <= j < |s.objs| && j != o ==> t.objs[j] == s.objs[j])
             && ItemsOf(t.out, id) == [] && id != 0
    ensures IdsOk(t)
  {
    hide ItemsOf, Without, AllCloses, Awaits;
    TakenOthers(s, k);
    var id := s.out[k].id;
    forall j: nat ensures IdOk(t, j) {
      assert IdOk(s, j);
      if j != id && j in s.conns {
        Distinct(s, id, j);
      }
    }
  }

  lemma FreedKept(s: Pool, t: Pool, id: nat)
    requires FreeOk(s) && Kept(s) && id in s.conns && s.conns[id] < |s.objs| && s.objs[s.conns[id]].id == id && id != 0
    requires var o := s.conns[id]; var v := s.objs[o];
             && t.conns == s.conns - {id} && t.free == s.free + [o]
             && t.objs == s.objs[o := Blank(v.reqBuf, v.respBuf)]
    ensures FreeOk(t) && Kept(t)
  {
    var o := s.conns[id];
    assert o !in s.free;
    forall p | 0 <= p < |t.objs| && t.objs[p].id == 0 ensures p in t.free {
      if p == o {
        assert t.free[|s.free|] == o;
      } else {
        assert p in s.free;
      }
    }
  }

  // ---- accepts ----

  lemma ShedKeeps(par: Params, s: Pool, t: Pool, fd: int)
    requires Inv(par, s) && t == s.(inflight := t.inflight, accepted := t.accepted, shed := t.shed, out := s.out + [CloseFd(0, fd)])
    ensures Inv(par, t)
  {
    hide ItemsOf, Sound;
    var x := CloseFd(0, fd);
    AppendOthers(s.out, x);
    ItemsAppend(s.out, x, 0);
    assert IdOk(s, 0);
    forall j: nat ensures IdOk(t, j) {
      assert IdOk(s, j);
    }
  }

  lemma NextIsFree(par: Params, s: Pool)
    requires Inv(par, s)
    ensures var o, t := NextObj(s), Got(par, s);
            && o <= |s.objs| && o < |t.objs| && t.objs[o] == Blank(t.objs[o].reqBuf, t.objs[o].respBuf)
            && |t.objs[o].reqBuf| == par.reqLen && |t.objs[o].respBuf| == par.replyLen
            && (forall j :: j in s.conns ==> s.conns[j] != o && s.conns[j] < |s.objs|)
            && t.conns == s.conns && t.out == s.out && t.nextID == s.nextID && s.objs <= t.objs
            && t.heard == s.heard && t.told == s.told
            && o !in t.free && (forall p :: p in s.free <==> p in t.free || (p == o && o < |s.objs|))
            && (|t.objs| == if o < |s.objs| then |s.objs| else o + 1)
            && (forall i, j :: 0 <= i < j < |t.free| ==> t.free[i] != t.free[j]) && forall p :: p in t.free ==> p < |s.objs|
  {
    hide ItemsOf, AllCloses, Awaits;
    forall j | j in s.conns ensures s.conns[j] != NextObj(s) && s.conns[j] < |s.objs| {
      assert IdOk(s, j);
    }
    if s.free != [] {
      var n := |s.free| - 1;
      assert s.free == s.free[..n] + [s.free[n]];
    }
  }

  lemma AdmitIds(par: Params, s: Pool, fd: int)
    requires Inv(par, s) && fd > 0
    ensures IdsOk(Admitted(par, s, fd))
  {
    hide ItemsOf, FreeOk, Kept, BuffersOk, Got, NextObj, AllCloses;
    NextIsFree(par, s);
    var t, o, id := Admitted(par, s, fd), NextObj(s), s.nextID + 1;
    var x := Recv(id, o, |Got(par, s).objs[o].reqBuf|);
    AppendOthers(s.out, x);
    ItemsAppend(s.out, x, id);
    assert IdOk(s, id);
    forall j: nat ensures IdOk(t, j) {
      assert IdOk(s, j);
    }
  }

  lemma AdmitObjects(par: Params, s: Pool, fd: int)
    requires Inv(par, s) && fd > 0
    ensures var t := Admitted(par, s, fd); FreeOk(t) && Kept(t) && BuffersOk(par, t)
  {
    hide ItemsOf, Got, NextObj, IdOk;
    NextIsFree(par, s);
    var t, o, id := Admitted(par, s, fd), NextObj(s), s.nextID + 1;
    assert IdOk(s, id);
    var g := Got(par, s);
    forall p | 0 <= p < |t.objs| && p != o ensures p < |s.objs| && t.objs[p] == s.objs[p] {
      assert g.objs[p] == s.objs[p];
    }
    NotYet(s, id);
    forall i | 0 <= i < |t.free| ensures t.free[i] < |t.objs| && t.objs[t.free[i]].id == 0 {
      var p := t.free[i];
      assert p in g.free && p in s.free;
    }
  }

  lemma NotYet(s: Pool, id: nat)
    requires IdsOk(s) && id == s.nextID + 1
    ensures id !in s.conns
  {
    hide ItemsOf, Sound;
    assert IdOk(s, id);
  }

  lemma AcceptKeeps(par: Params, s: Pool, k: nat, res: int)
    requires Inv(par, s) && Enabled(s, AcceptDone(k, res))
    ensures Inv(par, Step(par, s, AcceptDone(k, res)))
  {
    hide ItemsOf, Sound, Admitted;
    var u := s.inflight[k := s.inflight[k] - 1];
    CountersKeep(par, s, s.(inflight := u, accepted := s.accepted + 1));
    CountersKeep(par, s, s.(inflight := u, errs := s.errs + 1));
    if res > 0 && |s.conns| >= par.maxConns {
      ShedKeeps(par, s, Accepted(par, s, k, res), res);
    } else if res > 0 {
      AdmitIds(par, s.(inflight := u, accepted := s.accepted + 1), res);
      AdmitObjects(par, s.(inflight := u, accepted := s.accepted + 1), res);
    }
  }

  lemma CountersKeep(par: Params, s: Pool, t: Pool)
    requires Inv(par, s) && t == s.(inflight := t.inflight, accepted := t.accepted, errs := t.errs)
    ensures Inv(par, t)
  {
    hide ItemsOf, Sound;
    forall j: nat ensures IdOk(t, j) {
      assert IdOk(s, j);
    }
  }

  lemma {:induction false} RefilledOnly(par: Params, s: Pool, k: nat)
    ensures Refilled(par, s, k) == s.(inflight := Refilled(par, s, k).inflight)
    decreases |s.inflight| - k, if k < |s.inflight| then par.perLn - s.inflight[k] else 0
  {
    if k < |s.inflight| {
      if s.inflight[k] < par.perLn && |s.conns| + Total(s.inflight) < par.maxConns {
        RefilledOnly(par, s.(inflight := s.inflight[k := s.inflight[k] + 1]), k);
      } else {
        RefilledOnly(par, s, k + 1);
      }
    }
  }

  // ---- every event ----

  /** Every event keeps the invariant. */
  lemma StepKeeps(par: Params, s: Pool, e: Event)
    requires Inv(par, s) && Enabled(s, e)
    ensures Inv(par, Step(par, s, e))
  {
    hide Inv, Accepted, Refilled, Adopted, Without, CloseReturned, Fail, CloseConn;
    match e
    case AcceptDone(k, res) => AcceptKeeps(par, s, k, res);
    case HookReturns(k, fd, ok) => HookKeeps(par, s, k, fd, ok);
    case Drained(k) => DrainKeeps(par, s, k);
    case BatchDone =>
      RefilledOnly(par, s, 0);
      CountersKeep(par, s, Refilled(par, s, 0));
    case Done(k, res, data) =>
      MappedOrClose(par, s, k);
      if s.out[k].id !in s.conns {
        ShedClosed(par, s, k);
        assert Taken(s, k).conns == s.conns;
      } else if s.out[k].CloseFd? && At(s, s.conns[s.out[k].id]).closesLeft > 1 {
        FewerCloses(par, s, k);
      } else if s.out[k].CloseFd? {
        LastClose(par, s, k);
      } else {
        OperationKeeps(par, s, k, res, data);
      }
  }
}
