/** The research relay's worker without duplex mode, as it is written: recycled connection objects updated in
    place, the handlers of the event loop, and accepts counted per listener. Each handler is proved to take the
    step of the state machine (research/gate/cmd/relay-uring/main.go:320-387, 389-499, 541-542, 680-730). */
module ConnPool {
  import opened RelayTypes
  import opened PoolRuns
  import opened PoolInv
  import opened PoolLaws

  class Conn {
    /** Its place among the objects made. */
    const number: nat
    var id: nat
    var clientFD: int
    var upstreamFD: int
    var reqN: nat
    var closing: bool
    var closesLeft: int
    const reqBuf: array<byte>
    const respBuf: array<byte>

    constructor (number: nat, reqLen: nat, replyLen: nat)
      ensures View() == Blank(Zeros(reqLen), Zeros(replyLen)) && this.number == number
      ensures fresh(reqBuf) && fresh(respBuf) && reqBuf != respBuf
    {
      this.number := number;
      reqBuf := new byte[reqLen](i => 0);
      var b := new byte[replyLen](i => 0);
      respBuf := b;
      id, clientFD, upstreamFD, reqN, closing, closesLeft := 0, 0, 0, 0, false, 0;
      new;
      assert reqBuf[..] == Zeros(reqLen) && respBuf[..] == Zeros(replyLen);
    }

    ghost function View(): Obj
      reads this, reqBuf, respBuf
    {
      Obj(id, clientFD, upstreamFD, reqN, closing, closesLeft, reqBuf[..], respBuf[..])
    }

    /** closeConn's bookkeeping: the descriptors to close are counted. */
    method BeginClose()
      modifies `closing, `closesLeft
      ensures View() == old(View()).(closing := true, closesLeft := |ClosesFor(old(View()))|)
    {
      closing := true;
      closesLeft := 0;
      if clientFD > 0 {
        closesLeft := closesLeft + 1;
      }
      if upstreamFD > 0 {
        closesLeft := closesLeft + 1;
      }
    }

    /** putConn's reset: all but the byte buffers. */
    method Reset()
      modifies this
      ensures View() == Blank(old(reqBuf[..]), old(respBuf[..]))
    {
      id, clientFD, upstreamFD, reqN, closing, closesLeft := 0, 0, 0, 0, false, 0;
    }
  }

  /** The kernel fills the beginning of a buffer. */
  method Fill(buf: array<byte>, data: seq<byte>)
    modifies buf
    ensures buf[..] == Stored(old(buf[..]), 0, data)
  {
    if |data| <= buf.Length {
      forall i | 0 <= i < |data| {
        buf[i] := data[i];
      }
    }
  }

  // ---- objects and the machine's numbers for them ----

  /** No two objects share a buffer, and no object's two buffers are one. */
  ghost predicate Apart(made: seq<Conn>) {
    && (forall i :: 0 <= i < |made| ==> made[i].number == i)
    && (forall i, j :: 0 <= i < j < |made| ==> made[i].reqBuf != made[j].reqBuf && made[i].respBuf != made[j].respBuf)
    && (forall i, j :: 0 <= i < |made| && 0 <= j < |made| ==> made[i].reqBuf != made[j].respBuf)
  }

  /** The map and the free list hold the objects with the numbers in `cs` and `fr`. */
  ghost predicate Linked(conns: map<nat, Conn>, free: seq<Conn>, made: seq<Conn>, cs: map<nat, nat>, fr: seq<nat>) {
    && conns.Keys == cs.Keys && |free| == |fr|
    && (forall id :: id in conns ==> cs[id] < |made| && conns[id] == made[cs[id]])
    && (forall i :: 0 <= i < |free| ==> fr[i] < |made| && free[i] == made[fr[i]])
  }

  lemma LinkedFreed(conns: map<nat, Conn>, free: seq<Conn>, made: seq<Conn>, cs: map<nat, nat>, fr: seq<nat>, id: nat)
    requires Linked(conns, free, made, cs, fr) && id in conns
    ensures Linked(conns - {id}, free + [conns[id]], made, cs - {id}, fr + [cs[id]])
  {
  }

  lemma LinkedTaken(conns: map<nat, Conn>, free: seq<Conn>, made: seq<Conn>, cs: map<nat, nat>, fr: seq<nat>)
    requires Linked(conns, free, made, cs, fr) && free != []
    ensures Linked(conns, free[..|free| - 1], made, cs, fr[..|fr| - 1])
  {
  }

  lemma LinkedMapped(conns: map<nat, Conn>, free: seq<Conn>, made: seq<Conn>, cs: map<nat, nat>, fr: seq<nat>, id: nat, o: nat)
    requires Linked(conns, free, made, cs, fr) && o < |made|
    ensures Linked(conns[id := made[o]], free, made, cs[id := o], fr)
  {
  }

  lemma LinkedMade(conns: map<nat, Conn>, free: seq<Conn>, made: seq<Conn>, cs: map<nat, nat>, fr: seq<nat>, cc: Conn)
    requires Linked(conns, free, made, cs, fr)
    ensures Linked(conns, free, made + [cc], cs, fr)
  {
  }

  class Worker {
    const reqLen: nat
    const replyLen: nat
    const maxConns: nat
    const perLn: nat
    const acceptInflight: array<int>
    var conns: map<nat, Conn>
    var connFree: seq<Conn>
    var nextID: nat
    var totalAccepts: int
    var accepted: nat
    var completed: nat
    var shed: nat
    var errs: nat
    /** The world's side: the objects made, by which operations in flight name their buffers, and what was
        posted to the kernel and the pool and not yet harvested. */
    var made: seq<Conn>
    var out: seq<Item>
    /** The machine's state. */
    ghost var w: Pool

    ghost function Buffers(): set<array<byte>>
      reads `made
    {
      (set c: Conn | c in made :: c.reqBuf) + (set c: Conn | c in made :: c.respBuf)
    }

    ghost predicate Shows(objs: seq<Obj>)
      reads `made, made, Buffers()
    {
      |made| == |objs| && forall i :: 0 <= i < |made| ==> made[i].View() == objs[i]
    }

    ghost predicate Counters()
      reads this, acceptInflight
    {
      && out == w.out && nextID == w.nextID && accepted == w.accepted && completed == w.completed && shed == w.shed
      && errs == w.errs && acceptInflight[..] == w.inflight && totalAccepts == Total(w.inflight)
    }

    /** The objects, maps and counters are those of the machine's state. */
    ghost predicate Tied()
      reads this, acceptInflight, made, Buffers()
    {
      Apart(made) && Shows(w.objs) && Linked(conns, connFree, made, w.conns, w.free) && Counters()
    }

    ghost predicate Valid()
      reads this, acceptInflight, made, Buffers()
    {
      Tied() && Inv(Par(), w)
    }

    ghost function Par(): Params {
      Params(reqLen, replyLen, maxConns, perLn)
    }

    ghost predicate Known(cc: Conn)
      reads `made
    {
      cc.number < |made| && made[cc.number] == cc
    }

    // ---- one object changes ----

    method SetReqN(cc: Conn, n: nat)
      requires Tied() && Known(cc)
      modifies `w, cc`reqN
      ensures Tied() && w == Put(old(w), cc.number, At(old(w), cc.number).(reqN := n))
    {
      cc.reqN := n;
      w := Put(w, cc.number, At(w, cc.number).(reqN := n));
    }

    method SetUpstream(cc: Conn, fd: int)
      requires Tied() && Known(cc)
      modifies `w, cc`upstreamFD
      ensures Tied() && w == Put(old(w), cc.number, At(old(w), cc.number).(upstreamFD := fd))
    {
      cc.upstreamFD := fd;
      w := Put(w, cc.number, At(w, cc.number).(upstreamFD := fd));
    }

    method SetOwner(cc: Conn, id: nat, fd: int)
      requires Tied() && Known(cc)
      modifies `w, cc`id, cc`clientFD
      ensures Tied() && w == Put(old(w), cc.number, At(old(w), cc.number).(id := id, clientFD := fd))
    {
      cc.id, cc.clientFD := id, fd;
      w := Put(w, cc.number, At(w, cc.number).(id := id, clientFD := fd));
    }

    method SetClosing(cc: Conn)
      requires Tied() && Known(cc)
      modifies `w, cc`closing, cc`closesLeft
      ensures var v := At(old(w), cc.number);
              Tied() && w == Put(old(w), cc.number, v.(closing := true, closesLeft := |ClosesFor(v)|))
    {
      cc.BeginClose();
      w := Put(w, cc.number, At(w, cc.number).(closing := true, closesLeft := |ClosesFor(At(w, cc.number))|));
    }

    method CountClose(cc: Conn)
      requires Tied() && Known(cc)
      modifies `w, cc`closesLeft
      ensures var v := At(old(w), cc.number); Tied() && w == Put(old(w), cc.number, v.(closesLeft := v.closesLeft - 1))
    {
      cc.closesLeft := cc.closesLeft - 1;
      w := Put(w, cc.number, At(w, cc.number).(closesLeft := At(w, cc.number).closesLeft - 1));
    }

    method Clear(cc: Conn)
      requires Tied() && Known(cc)
      modifies `w, cc
      ensures var v := At(old(w), cc.number); Tied() && w == Put(old(w), cc.number, Blank(v.reqBuf, v.respBuf))
    {
      cc.Reset();
      w := Put(w, cc.number, Blank(At(w, cc.number).reqBuf, At(w, cc.number).respBuf));
    }

    // ---- what is posted and harvested ----

    method PostItem(x: Item)
      requires Tied()
      modifies `out, `w
      ensures Tied() && w == Post(old(w), x)
    {
      out := out + [x];
      w := Post(w, x);
    }

    method PostAll(cs: seq<Item>)
      requires Tied()
      modifies `out, `w
      ensures Tied() && w == old(w).(out := old(w).out + cs)
    {
      out := out + cs;
      w := w.(out := w.out + cs);
    }

    method TakeItem(k: nat) returns (x: Item)
      requires Tied() && k < |out|
      modifies `out, `w
      ensures Tied() && x == old(out)[k] && w == Taken(old(w), k)
    {
      x := out[k];
      w := Taken(w, k);
      out := out[..k] + out[k + 1..];
    }

    /** The buffer the kernel writes to when `x` completes. */
    ghost function Target(x: Item): set<array<byte>>
      reads `made
    {
      match x
      case Recv(_, o, _) => if o < |made| then {made[o].reqBuf} else {}
      case RecvReply(_, o, _) => if o < |made| then {made[o].respBuf} else {}
      case _ => {}
    }

    /** The kernel writes what it received, whoever has the object now. */
    method KernelWrites(x: Item, data: seq<byte>)
      requires Tied()
      modifies `w, Target(x)
      ensures Tied() && w == Written(old(w), x, data)
    {
      hide Apart, Linked;
      ghost var goal := Written(w, x, data);
      match x {
        case Recv(_, o, _) =>
          if o < |made| {
            Numbered(o);
            FillReq(made[o], data);
          }
        case RecvReply(_, o, _) =>
          if o < |made| {
            Numbered(o);
            FillResp(made[o], data);
          }
        case _ =>
      }
      w := w.(heard := goal.heard, told := goal.told);
    }

    lemma Numbered(i: nat)
      requires Apart(made) && i < |made|
      ensures Known(made[i]) && made[i].number == i
    {
    }

    method FillReq(cc: Conn, data: seq<byte>)
      requires Tied() && Known(cc)
      modifies `w, cc.reqBuf
      ensures var v := At(old(w), cc.number); Tied() && w == Put(old(w), cc.number, v.(reqBuf := Stored(v.reqBuf, 0, data)))
    {
      Fill(cc.reqBuf, data);
      w := Put(w, cc.number, At(w, cc.number).(reqBuf := Stored(At(w, cc.number).reqBuf, 0, data)));
    }

    method FillResp(cc: Conn, data: seq<byte>)
      requires Tied() && Known(cc)
      modifies `w, cc.respBuf
      ensures var v := At(old(w), cc.number); Tied() && w == Put(old(w), cc.number, v.(respBuf := Stored(v.respBuf, 0, data)))
    {
      Fill(cc.respBuf, data);
      w := Put(w, cc.number, At(w, cc.number).(respBuf := Stored(At(w, cc.number).respBuf, 0, data)));
    }

    // ---- the free list and the end of a connection ----

    lemma Found(id: nat)
      requires Tied()
      ensures conns.Keys == w.conns.Keys
      ensures id in conns ==> Known(conns[id]) && conns[id].number == w.conns[id] && w.conns[id] < |w.objs|
    {
    }

    /** delete and putConn. */
    method PutConn(id: nat)
      requires Tied() && id in conns
      modifies `conns, `connFree, `w, conns[id]
      ensures Tied() && w == Freed(old(w), id)
    {
      hide Linked, Apart, Blank;
      Found(id);
      var cc := conns[id];
      LinkedFreed(conns, connFree, made, w.conns, w.free, id);
      Clear(cc);
      conns := conns - {id};
      connFree := connFree + [cc];
      w := w.(conns := w.conns - {id}, free := w.free + [cc.number]);
    }

    /** One close for each descriptor is posted; a connection without descriptors is freed at once. */
    method CloseConn(id: nat)
      requires Tied() && id in conns
      modifies `conns, `connFree, `out, `w, conns[id]
      ensures Tied() && w == PoolRuns.CloseConn(old(w), id)
    {
      hide Apart, Linked;
      Found(id);
      var cc := conns[id];
      assert cc.View() == At(w, cc.number);
      if cc.closing {
        return;
      }
      ghost var v := At(w, cc.number);
      hide Shows;
      SetClosing(cc);
      var cs := (if cc.clientFD > 0 then [CloseFd(cc.id, cc.clientFD)] else [])
                + (if cc.upstreamFD > 0 then [CloseFd(cc.id, cc.upstreamFD)] else []);
      assert cs == ClosesFor(v);
      PostAll(cs);
      if cc.closesLeft == 0 {
        PutConn(id);
      }
    }

    method Fail(id: nat)
      requires Tied() && id in conns
      modifies `conns, `connFree, `out, `w, `errs, conns[id]
      ensures Tied() && w == PoolRuns.Fail(old(w), id)
    {
      hide Apart, Linked, PoolRuns.CloseConn;
      CountErr();
      CloseConn(id);
    }

    /** A close is done; the last one frees the connection. */
    method CloseReturned(id: nat)
      requires Tied() && id in conns
      modifies `conns, `connFree, `w, conns[id]
      ensures Tied() && w == PoolRuns.CloseReturned(old(w), id)
    {
      hide Apart, Linked;
      Found(id);
      var cc := conns[id];
      assert cc.View() == At(w, cc.number);
      CountClose(cc);
      assert cc.View() == At(w, cc.number);
      if cc.closesLeft <= 0 {
        PutConn(id);
      }
    }

    // ---- the handlers ----

    /** What one connection's event may write to. */
    ghost function Owned(id: nat): set<Conn>
      reads `conns
    {
      if id in conns then {conns[id]} else {}
    }

    method OnRecvReq(k: nat, res: int, data: seq<byte>)
      requires Valid() && Enabled(w, Done(k, res, data)) && out[k].Recv?
      modifies `conns, `connFree, `out, `w, `errs, Owned(out[k].id), Target(out[k])
      ensures Valid() && w == Step(Par(), old(w), Done(k, res, data))
    {
      hide Apart, Shows, Linked, Inv, Counters, PoolRuns.Fail, Written, Taken;
      ItemsKnown();
      StepKeeps(Par(), w, Done(k, res, data));
      var x := TakeItem(k);
      KernelWrites(x, data);
      Found(x.id);
      if x.id !in conns {
        return;
      }
      if res <= 0 {
        Fail(x.id);
        return;
      }
      SetReqN(conns[x.id], res);
      PostItem(Job(x.id));
    }

    method OnSendUp(k: nat, res: int)
      requires Valid() && Enabled(w, Done(k, res, [])) && out[k].SendReq?
      modifies `conns, `connFree, `out, `w, `errs, Owned(out[k].id)
      ensures Valid() && w == Step(Par(), old(w), Done(k, res, []))
    {
      hide Apart, Shows, Linked, Inv, Counters, PoolRuns.Fail, PoolRuns.CloseConn, Taken;
      ItemsKnown();
      StepKeeps(Par(), w, Done(k, res, []));
      var x := TakeItem(k);
      Found(x.id);
      if x.id !in conns {
        return;
      }
      if res < 0 {
        Fail(x.id);
        return;
      }
      var cc := conns[x.id];
      ReplyRoom(cc);
      PostItem(RecvReply(x.id, cc.number, cc.respBuf.Length));
    }

    lemma ReplyRoom(cc: Conn)
      requires Tied() && Known(cc)
      ensures |At(w, cc.number).respBuf| == cc.respBuf.Length
    {
      assert made[cc.number].View() == w.objs[cc.number];
    }

    method OnRecvResp(k: nat, res: int, data: seq<byte>)
      requires Valid() && Enabled(w, Done(k, res, data)) && out[k].RecvReply?
      modifies `conns, `connFree, `out, `w, `errs, Owned(out[k].id), Target(out[k])
      ensures Valid() && w == Step(Par(), old(w), Done(k, res, data))
    {
      hide Apart, Shows, Linked, Inv, Counters, PoolRuns.Fail, PoolRuns.CloseConn, Taken, Written;
      ItemsKnown();
      StepKeeps(Par(), w, Done(k, res, data));
      var x := TakeItem(k);
      KernelWrites(x, data);
      Found(x.id);
      if x.id !in conns {
        return;
      }
      if res <= 0 {
        Fail(x.id);
        return;
      }
      PostItem(SendReply(x.id, conns[x.id].number, res));
    }

    method OnSendClient(k: nat, res: int)
      requires Valid() && Enabled(w, Done(k, res, [])) && out[k].SendReply?
      modifies `conns, `connFree, `out, `w, `errs, `completed, Owned(out[k].id)
      ensures Valid() && w == Step(Par(), old(w), Done(k, res, []))
    {
      hide Apart, Shows, Linked, Inv, Counters, PoolRuns.Fail, PoolRuns.CloseConn, Taken;
      ItemsKnown();
      StepKeeps(Par(), w, Done(k, res, []));
      var x := TakeItem(k);
      Found(x.id);
      if x.id !in conns {
        return;
      }
      if res < 0 {
        CountErr();
      } else {
        CountCompleted();
      }
      CloseConn(x.id);
    }

    method CountErr()
      requires Tied()
      modifies `errs, `w
      ensures Tied() && w == old(w).(errs := old(w).errs + 1)
    {
      errs := errs + 1;
      w := w.(errs := w.errs + 1);
    }

    method CountCompleted()
      requires Tied()
      modifies `completed, `w
      ensures Tied() && w == old(w).(completed := old(w).completed + 1)
    {
      completed := completed + 1;
      w := w.(completed := w.completed + 1);
    }

    method OnClose(k: nat, res: int)
      requires Valid() && Enabled(w, Done(k, res, [])) && out[k].CloseFd?
      modifies `conns, `connFree, `out, `w, Owned(out[k].id)
      ensures Valid() && w == Step(Par(), old(w), Done(k, res, []))
    {
      hide Apart, Shows, Linked, Inv, Counters, PoolRuns.Fail, PoolRuns.CloseConn, Taken, PoolRuns.CloseReturned;
      ItemsKnown();
      StepKeeps(Par(), w, Done(k, res, []));
      var x := TakeItem(k);
      Found(x.id);
      if x.id !in conns {
        return;
      }
      CloseReturned(x.id);
    }

    /** The pool: a Hook returns, and its answer goes on the list. */
    method HookReturned(k: nat, fd: int, ok: bool)
      requires Valid() && Enabled(w, HookReturns(k, fd, ok))
      modifies `out, `w
      ensures Valid() && w == Step(Par(), old(w), HookReturns(k, fd, ok))
    {
      hide Apart, Shows, Linked, Inv, Counters, Taken;
      ItemsKnown();
      StepKeeps(Par(), w, HookReturns(k, fd, ok));
      var x := TakeItem(k);
      PostItem(Answer(x.id, fd, ok));
    }

    /** An answer of the list. If its connection is not in the map its descriptor is closed on the spot. */
    method OnResult(k: nat) returns (closed: bool)
      requires Valid() && Enabled(w, Drained(k))
      modifies `conns, `connFree, `out, `w, `errs, Owned(out[k].id)
      ensures Valid() && w == Step(Par(), old(w), Drained(k))
      ensures var x := old(out)[k]; closed <==> x.id !in old(conns) && x.ok && x.fd > 0
    {
      hide Apart, Shows, Linked, Inv, Counters, PoolRuns.Fail, Taken;
      ItemsKnown();
      StepKeeps(Par(), w, Drained(k));
      var x := TakeItem(k);
      Found(x.id);
      if x.id !in conns {
        return x.ok && x.fd > 0;
      }
      if !x.ok {
        Fail(x.id);
        return false;
      }
      var cc := conns[x.id];
      RequestLength(cc);
      SetUpstream(cc, x.fd);
      PostItem(SendReq(x.id, cc.number, cc.reqN));
      return false;
    }

    lemma RequestLength(cc: Conn)
      requires Tied() && Known(cc)
      ensures At(w, cc.number).reqN == cc.reqN
    {
      assert made[cc.number].View() == w.objs[cc.number];
    }

    // ---- accepts ----

    /** getConn: the object freed last, or a new one. */
    method GetConn() returns (cc: Conn)
      requires Tied()
      modifies `connFree, `made, `w
      ensures Tied() && w == Got(Par(), old(w)) && Known(cc) && cc.number == NextObj(old(w))
      ensures conns == old(conns) && if old(connFree) != [] then made == old(made) && cc in old(connFree) else fresh(cc) && made == old(made) + [cc]
      ensures old(connFree) == [] ==> fresh(cc.reqBuf) && fresh(cc.respBuf)
    {
      hide Linked;
      FreeCount();
      var n := |connFree|;
      if n > 0 {
        LinkedTaken(conns, connFree, made, w.conns, w.free);
        cc := connFree[n - 1];
        connFree := connFree[..n - 1];
        w := w.(free := w.free[..n - 1]);
        return;
      }
      cc := new Conn(|made|, reqLen, replyLen);
      LinkedMade(conns, connFree, made, w.conns, w.free, cc);
      made := made + [cc];
      w := w.(objs := w.objs + [Blank(Zeros(reqLen), Zeros(replyLen))]);
    }

    lemma FreeCount()
      requires Tied()
      ensures |connFree| == |w.free|
      ensures forall i :: 0 <= i < |connFree| ==> w.free[i] < |made| && connFree[i] == made[w.free[i]]
    {
    }

    /** A new connection, in a recycled or a new object, with its first read posted. */
    method Admit(fd: int)
      requires Tied()
      modifies `conns, `connFree, `made, `nextID, `out, `w, connFree
      ensures Tied() && w == Admitted(Par(), old(w), fd)
      ensures Grown(old(made))
    {
      hide Apart, Shows, Linked, Got, NextObj;
      GotOnly(Par(), w);
      var cc := GetConn();
      NextKnown();
      RequestRoom(cc);
      SetOwner(cc, nextID + 1, fd);
      MapNext(cc);
      PostItem(Recv(nextID, cc.number, cc.reqBuf.Length));
    }

    /** The objects made since are new. */
    twostate predicate Grown(was: seq<Conn>)
      reads this
    {
      && was <= made
      && forall i :: |was| <= i < |made| ==> fresh(made[i]) && fresh(made[i].reqBuf) && fresh(made[i].respBuf)
    }

    method MapNext(cc: Conn)
      requires Tied() && Known(cc)
      modifies `conns, `nextID, `w
      ensures Tied() && nextID == old(nextID) + 1
      ensures w == old(w).(conns := old(w).conns[nextID := cc.number], nextID := old(w).nextID + 1)
    {
      hide Linked, Apart;
      LinkedMapped(conns, connFree, made, w.conns, w.free, nextID + 1, cc.number);
      nextID := nextID + 1;
      conns := conns[nextID := cc];
      w := w.(conns := w.conns[nextID := cc.number], nextID := nextID);
    }

    lemma NextKnown()
      requires Tied()
      ensures nextID == w.nextID
    {
    }

    lemma RequestRoom(cc: Conn)
      requires Tied() && Known(cc)
      ensures |At(w, cc.number).reqBuf| == cc.reqBuf.Length
    {
      assert made[cc.number].View() == w.objs[cc.number];
    }

    /** An accept is posted on listener `k`, or taken off its count. */
    method CountAccepts(k: nat, n: int)
      requires Tied() && k < acceptInflight.Length
      modifies `totalAccepts, `w, acceptInflight
      ensures Tied() && w == old(w).(inflight := old(w).inflight[k := old(w).inflight[k] + n])
    {
      TotalUpdate(acceptInflight[..], k, acceptInflight[k] + n);
      acceptInflight[k] := acceptInflight[k] + n;
      totalAccepts := totalAccepts + n;
      w := w.(inflight := w.inflight[k := w.inflight[k] + n]);
    }

    lemma Listeners()
      requires Tied()
      ensures |w.inflight| == acceptInflight.Length && |w.conns| == |conns| && totalAccepts == Total(w.inflight)
      ensures forall k :: 0 <= k < acceptInflight.Length ==> acceptInflight[k] == w.inflight[k]
    {
      assert |conns.Keys| == |w.conns.Keys|;
    }

    method CountAccepted()
      requires Tied()
      modifies `accepted, `w
      ensures Tied() && w == old(w).(accepted := old(w).accepted + 1)
    {
      accepted := accepted + 1;
      w := w.(accepted := w.accepted + 1);
    }

    method CountShed()
      requires Tied()
      modifies `shed, `w
      ensures Tied() && w == old(w).(shed := old(w).shed + 1)
    {
      shed := shed + 1;
      w := w.(shed := w.shed + 1);
    }

    /** opAccept on listener `k`. A connection over the cap is closed under id 0. */
    method OnAccept(k: nat, res: int)
      requires Valid() && Enabled(w, AcceptDone(k, res))
      modifies this, acceptInflight, connFree
      ensures Valid() && w == Step(Par(), old(w), AcceptDone(k, res))
      ensures Grown(old(made))
    {
      hide Apart, Shows, Linked, Inv, Counters, Admitted;
      StepKeeps(Par(), w, AcceptDone(k, res));
      Listeners();
      CountAccepts(k, -1);
      if res < 0 {
        CountErr();
        return;
      }
      CountAccepted();
      Listeners();
      if |conns| >= maxConns {
        CountShed();
        PostItem(CloseFd(0, res));
        return;
      }
      Admit(res);
    }

    /** After every batch each listener is topped up, as long as the cap allows. */
    method TopUp()
      requires Valid() && Enabled(w, BatchDone)
      modifies `totalAccepts, `w, acceptInflight
      ensures Valid() && w == Step(Par(), old(w), BatchDone)
    {
      hide Apart, Shows, Linked, Inv, Counters, Refilled;
      StepKeeps(Par(), w, BatchDone);
      ghost var goal := Refilled(Par(), w, 0);
      var k := 0;
      Listeners();
      while k < acceptInflight.Length
        invariant 0 <= k <= acceptInflight.Length == |w.inflight| && Tied() && Refilled(Par(), w, k) == goal
      {
        FillOne(k);
        Listeners();
        k := k + 1;
      }
      RefilledEnd(Par(), w, k);
    }

    method FillOne(k: nat)
      requires Tied() && k < acceptInflight.Length
      modifies `totalAccepts, `w, acceptInflight
      ensures Tied() && Refilled(Par(), w, k + 1) == Refilled(Par(), old(w), k)
    {
      hide Apart, Shows, Linked, Counters;
      ghost var goal := Refilled(Par(), w, k);
      Listeners();
      while acceptInflight[k] < perLn && |conns| + totalAccepts < maxConns
        invariant Tied() && Refilled(Par(), w, k) == goal
        invariant |w.inflight| == acceptInflight.Length && |w.conns| == |conns| && totalAccepts == Total(w.inflight)
        invariant acceptInflight[k] == w.inflight[k]
        decreases perLn - acceptInflight[k]
      {
        CountAccepts(k, 1);
        Listeners();
      }
    }

    /** The start: the batch is split over the listeners, at least one each, and one accept is posted on
        every listener whatever the cap. */
    constructor (reqLen: nat, replyLen: nat, maxConns: nat, acceptBatch: nat, listeners: nat)
      requires listeners > 0
      ensures Valid() && Par() == Params(reqLen, replyLen, maxConns, Max(acceptBatch / listeners, 1))
      ensures w == PoolRuns.Start(listeners) && fresh(acceptInflight) && made == []
    {
      this.reqLen, this.replyLen, this.maxConns := reqLen, replyLen, maxConns;
      perLn := if acceptBatch / listeners < 1 then 1 else acceptBatch / listeners;
      acceptInflight := new int[listeners](i => 0);
      conns, connFree, nextID, totalAccepts := map[], [], 0, 0;
      accepted, completed, shed, errs, made, out := 0, 0, 0, 0, [], [];
      w := PoolRuns.Start(listeners).(inflight := seq(listeners, i => 0));
      new;
      TotalZeros(w.inflight);
      FirstAccepts();
      Reachable(Par(), listeners, []);
    }

    method FirstAccepts()
      requires Tied() && w == PoolRuns.Start(acceptInflight.Length).(inflight := seq(acceptInflight.Length, i => 0))
      modifies `totalAccepts, `w, acceptInflight
      ensures Tied() && w == PoolRuns.Start(acceptInflight.Length)
    {
      hide Apart, Shows, Linked, Counters;
      ghost var goal := PoolRuns.Start(acceptInflight.Length);
      var k := 0;
      while k < acceptInflight.Length
        invariant 0 <= k <= acceptInflight.Length && Tied() && w == goal.(inflight := w.inflight)
        invariant |w.inflight| == acceptInflight.Length
        invariant forall j :: 0 <= j < |w.inflight| ==> w.inflight[j] == if j < k then 1 else 0
      {
        CountAccepts(k, 1);
        k := k + 1;
      }
      assert w.inflight == goal.inflight;
    }

    // ---- whose the buffers are ----

    /** The buffers of a free object are used by no operation in flight and are no other object's. */
    lemma FreeIsUnused(i: nat, k: nat, o: nat)
      requires Valid() && i < |connFree| && k < |out| && o < |made| && Uses(out[k], o)
      ensures made[o] != connFree[i]
      ensures made[o].reqBuf != connFree[i].reqBuf && made[o].respBuf != connFree[i].respBuf
      ensures made[o].reqBuf != connFree[i].respBuf && made[o].respBuf != connFree[i].reqBuf
    {
      hide Inv, Shows;
      FreeNotMapped(Par(), w, i);
      UnusedObject(Par(), w, k, w.free[i]);
    }

    /** What is being sent on lies in the buffer it is sent from: all that was heard from the connection's
        client, or from its upstream. */
    lemma SentFromItsBuffers(k: nat)
      requires Valid() && k < |out| && (out[k].SendReq? || out[k].SendReply?)
      ensures var x := out[k];
              && x.id in conns && var cc := conns[x.id];
              && (x.SendReq? ==> x.len <= cc.reqBuf.Length && cc.reqBuf[..x.len] == Record(w.heard, x.id))
              && (x.SendReply? ==> x.len <= cc.respBuf.Length && cc.respBuf[..x.len] == Record(w.told, x.id))
    {
      hide ItemsOf, Without, AllCloses, FreeOk, Kept, BuffersOk;
      Harvest(w, k);
      Found(out[k].id);
      assert conns[out[k].id].View() == w.objs[w.conns[out[k].id]];
    }

    // ---- whole runs ----

    lemma TargetsMade(k: nat)
      requires k < |out|
      ensures Target(out[k]) <= Buffers()
    {
    }

    lemma InMade()
      requires Tied()
      ensures forall id :: id in conns ==> conns[id] in made
      ensures forall i :: 0 <= i < |connFree| ==> connFree[i] in made
    {
    }

    /** One event of any kind is one step of the machine. */
    method Complete(e: Event)
      requires Valid() && Enabled(w, e)
      modifies this, acceptInflight, made, Buffers()
      ensures Valid() && w == Step(Par(), old(w), e)
      ensures Grown(old(made))
    {
      hide Tied, Inv, Step;
      InMade();
      match e {
        case AcceptDone(k, res) =>
          OnAccept(k, res);
        case Done(k, res, data) =>
          Handle(k, res, data);
        case HookReturns(k, fd, ok) =>
          HookReturned(k, fd, ok);
        case Drained(k) =>
          ItemsKnown();
          var _ := OnResult(k);
        case BatchDone =>
          TopUp();
      }
    }

    lemma ItemsKnown()
      requires Tied()
      ensures out == w.out
    {
    }

    /** The switch on the op code of a completion. */
    method Handle(k: nat, res: int, data: seq<byte>)
      requires Valid() && Enabled(w, Done(k, res, data))
      modifies this, made, Buffers()
      ensures Valid() && w == Step(Par(), old(w), Done(k, res, data)) && made == old(made)
    {
      hide Tied, Inv, Step;
      ItemsKnown();
      InMade();
      TargetsMade(k);
      match out[k] {
        case Recv(_, _, _) => OnRecvReq(k, res, data);
        case SendReq(_, _, _) => OnSendUp(k, res);
        case RecvReply(_, _, _) => OnRecvResp(k, res, data);
        case SendReply(_, _, _) => OnSendClient(k, res);
        case CloseFd(_, _) => OnClose(k, res);
      }
    }
  }

  /** Any run of events the machine allows, taken by a worker from its start: it ends in the machine's state. */
  method RunPool(par: Params, acceptBatch: nat, listeners: nat, evs: seq<Event>) returns (k: Worker)
    requires listeners > 0 && par.perLn == Max(acceptBatch / listeners, 1)
    requires Legal(par, PoolRuns.Start(listeners), evs)
    ensures k.Valid() && k.Par() == par && k.w == Run(par, PoolRuns.Start(listeners), evs)
  {
    hide Worker.Tied, Inv, PoolRuns.Start, Enabled, Step;
    k := new Worker(par.reqLen, par.replyLen, par.maxConns, acceptBatch, listeners);
    var i := 0;
    while i < |evs|
      invariant 0 <= i <= |evs| && fresh(k) && fresh(k.acceptInflight)
      invariant forall j :: 0 <= j < |k.made| ==> fresh(k.made[j]) && fresh(k.made[j].reqBuf) && fresh(k.made[j].respBuf)
      invariant k.Valid() && k.Par() == par
      invariant Legal(par, k.w, evs[i..])
      invariant Run(par, k.w, evs[i..]) == Run(par, PoolRuns.Start(listeners), evs)
    {
      assert evs[i..][0] == evs[i] && evs[i..][1..] == evs[i + 1..];
      k.Complete(evs[i]);
      i := i + 1;
    }
  }

  lemma {:induction false} TotalZeros(s: seq<int>)
    requires forall i :: 0 <= i < |s| ==> s[i] == 0
    ensures Total(s) == 0
  {
    if s != [] {
      TotalZeros(s[..|s| - 1]);
    }
  }
}
