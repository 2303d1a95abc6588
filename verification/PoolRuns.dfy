/** The research relay's worker, without duplex mode, as a state machine over its completions: recycled
    connection objects, the operations the kernel has in flight on their buffers, the requests at the Hook and
    the accepts per listener (research/gate/cmd/relay-uring/main.go:320-387, 389-499, 680-730). */
module PoolRuns {
  import opened RelayTypes

  /** Something posted and not yet harvested: a data operation on the first `len` bytes of a buffer of object
      `obj`, a close, a request at the Hook, or the Hook's answer on the list. */
  datatype Item =
    | Recv(id: nat, obj: nat, len: nat)
    | SendReq(id: nat, obj: nat, len: nat)
    | RecvReply(id: nat, obj: nat, len: nat)
    | SendReply(id: nat, obj: nat, len: nat)
    | CloseFd(id: nat, fd: int)
    | Job(id: nat)
    | Answer(id: nat, fd: int, ok: bool)

  /** A connection object: its fields, and what its two buffers hold. */
  datatype Obj = Obj(
    id: nat, clientFD: int, upstreamFD: int, reqN: nat, closing: bool, closesLeft: int,
    reqBuf: seq<byte>, respBuf: seq<byte>)

  datatype Params = Params(reqLen: nat, replyLen: nat, maxConns: nat, perLn: nat)

  /** Objects are numbered in the order made. `conns` is the map by connection id, `free` the free list and
      `out` everything posted and not yet harvested. `heard` and `told` record, by connection id, what was
      received from its client and from its upstream. */
  datatype Pool = Pool(
    conns: map<nat, nat>, free: seq<nat>, objs: seq<Obj>, out: seq<Item>,
    nextID: nat, inflight: seq<int>,
    accepted: nat, completed: nat, shed: nat, errs: nat,
    heard: map<nat, seq<byte>>, told: map<nat, seq<byte>>)

  /** A harvested completion of `out[k]`, or a step of the world: a Hook returns, an answer is taken off the
      list. In any order; `data` is what a receive wrote. */
  datatype Event =
    | AcceptDone(k: nat, res: int)
    | Done(k: nat, res: int, data: seq<byte>)
    | HookReturns(k: nat, fd: int, ok: bool)
    | Drained(k: nat)
    | BatchDone

  function Total(s: seq<int>): int {
    if s == [] then 0 else Total(s[..|s| - 1]) + s[|s| - 1]
  }

  function Max(a: int, b: int): int {
    if a < b then b else a
  }

  // ---- what may happen ----

  predicate Within(res: int, len: nat, data: seq<byte>) {
    res <= len && |data| == (if res > 0 then res else 0)
  }

  predicate ResultOk(x: Item, res: int, data: seq<byte>) {
    match x
    case Recv(_, _, len) => Within(res, len, data)
    case RecvReply(_, _, len) => Within(res, len, data)
    case SendReq(_, _, len) => res <= len && data == []
    case SendReply(_, _, len) => res <= len && data == []
    case CloseFd(_, _) => data == []
    case _ => false
  }

  /** Whatever was posted may complete, whether or not its connection is in the map. */
  predicate Enabled(s: Pool, e: Event) {
    match e
    case AcceptDone(k, res) => k < |s.inflight| && s.inflight[k] > 0 && res != 0
    case Done(k, res, data) => k < |s.out| && ResultOk(s.out[k], res, data)
    case HookReturns(k, fd, ok) => k < |s.out| && s.out[k].Job? && (ok ==> fd > 0)
    case Drained(k) => k < |s.out| && s.out[k].Answer?
    case BatchDone => true
  }

  // ---- the parts of a step ----

  function Without(out: seq<Item>, k: nat): seq<Item>
    requires k < |out|
  {
    out[..k] + out[k + 1..]
  }

  function Taken(s: Pool, k: nat): Pool
    requires k < |s.out|
  {
    s.(out := Without(s.out, k))
  }

  function Post(s: Pool, x: Item): Pool {
    s.(out := s.out + [x])
  }

  function Put(s: Pool, o: nat, v: Obj): Pool {
    if o < |s.objs| then s.(objs := s.objs[o := v]) else s
  }

  function Blank(reqBuf: seq<byte>, respBuf: seq<byte>): Obj {
    Obj(0, 0, 0, 0, false, 0, reqBuf, respBuf)
  }

  function At(s: Pool, o: nat): Obj {
    if o < |s.objs| then s.objs[o] else Blank([], [])
  }

  function Record(m: map<nat, seq<byte>>, id: nat): seq<byte> {
    if id in m then m[id] else []
  }

  /** The kernel writes what it received into the buffer it was given, whoever uses that now. */
  function Written(s: Pool, x: Item, data: seq<byte>): Pool {
    match x
    case Recv(id, o, _) =>
      Put(s, o, At(s, o).(reqBuf := Stored(At(s, o).reqBuf, 0, data))).(heard := s.heard[id := Record(s.heard, id) + data])
    case RecvReply(id, o, _) =>
      Put(s, o, At(s, o).(respBuf := Stored(At(s, o).respBuf, 0, data))).(told := s.told[id := Record(s.told, id) + data])
    case _ => s
  }

  /** putConn: all but the buffers is reset. */
  function Freed(s: Pool, id: nat): Pool
    requires id in s.conns
  {
    var o := s.conns[id];
    Put(s, o, Blank(At(s, o).reqBuf, At(s, o).respBuf)).(conns := s.conns - {id}, free := s.free + [o])
  }

  function ClosesFor(v: Obj): seq<Item> {
    (if v.clientFD > 0 then [CloseFd(v.id, v.clientFD)] else [])
    + (if v.upstreamFD > 0 then [CloseFd(v.id, v.upstreamFD)] else [])
  }

  function CloseConn(s: Pool, id: nat): Pool
    requires id in s.conns
  {
    var o := s.conns[id];
    var v := At(s, o);
    if v.closing then s else
    var cs := ClosesFor(v);
    var t := Put(s, o, v.(closing := true, closesLeft := |cs|)).(out := s.out + cs);
    if cs == [] then Freed(t, id) else t
  }

  function Fail(s: Pool, id: nat): Pool
    requires id in s.conns
  {
    CloseConn(s.(errs := s.errs + 1), id)
  }

  function CloseReturned(s: Pool, id: nat): Pool
    requires id in s.conns
  {
    var o := s.conns[id];
    var v := At(s, o);
    var t := Put(s, o, v.(closesLeft := v.closesLeft - 1));
    if v.closesLeft - 1 <= 0 then Freed(t, id) else t
  }

  /** The switch on a completion; one whose connection is not in the map is ignored. */
  function Completed(s: Pool, x: Item, res: int): Pool {
    if x.id !in s.conns then s else
    var o := s.conns[x.id];
    var v := At(s, o);
    match x
    case Recv(id, _, _) =>
      if res <= 0 then Fail(s, id) else Post(Put(s, o, v.(reqN := res)), Job(id))
    case SendReq(id, _, _) =>
      if res < 0 then Fail(s, id) else Post(s, RecvReply(id, o, |v.respBuf|))
    case RecvReply(id, _, _) =>
      if res <= 0 then Fail(s, id) else Post(s, SendReply(id, o, res))
    case SendReply(id, _, _) =>
      CloseConn(if res < 0 then s.(errs := s.errs + 1) else s.(completed := s.completed + 1), id)
    case CloseFd(id, _) => CloseReturned(s, id)
    case _ => s
  }

  /** An answer taken off the list; for a connection that is not in the map its descriptor is closed. */
  function Adopted(s: Pool, x: Item): Pool
    requires x.Answer?
  {
    if x.id !in s.conns then s else
    if !x.ok then Fail(s, x.id) else
    var o := s.conns[x.id];
    Post(Put(s, o, At(s, o).(upstreamFD := x.fd)), SendReq(x.id, o, At(s, o).reqN))
  }

  /** getConn: the object freed last, or a new one. */
  function NextObj(s: Pool): nat {
    if s.free != [] then s.free[|s.free| - 1] else |s.objs|
  }

  function Got(par: Params, s: Pool): Pool {
    if s.free != [] then s.(free := s.free[..|s.free| - 1])
    else s.(objs := s.objs + [Blank(Zeros(par.reqLen), Zeros(par.replyLen))])
  }

  function Admitted(par: Params, s: Pool, fd: int): Pool {
    var o, id, t := NextObj(s), s.nextID + 1, Got(par, s);
    Post(Put(t, o, At(t, o).(id := id, clientFD := fd)), Recv(id, o, |At(t, o).reqBuf|)).(
      conns := s.conns[id := o], nextID := id)
  }

  function Accepted(par: Params, s: Pool, k: nat, res: int): Pool
    requires k < |s.inflight|
  {
    var t := s.(inflight := s.inflight[k := s.inflight[k] - 1]);
    if res < 0 then t.(errs := t.errs + 1)
    else if |t.conns| >= par.maxConns then
      Post(t.(accepted := t.accepted + 1, shed := t.shed + 1), CloseFd(0, res))
    else Admitted(par, t.(accepted := t.accepted + 1), res)
  }

  /** Every listener is topped up in turn, as long as the cap allows. */
  function Refilled(par: Params, s: Pool, k: nat): Pool
    decreases |s.inflight| - k, if k < |s.inflight| then par.perLn - s.inflight[k] else 0
  {
    if k >= |s.inflight| then s
    else if s.inflight[k] < par.perLn && |s.conns| + Total(s.inflight) < par.maxConns then
      Refilled(par, s.(inflight := s.inflight[k := s.inflight[k] + 1]), k)
    else Refilled(par, s, k + 1)
  }

  lemma RefilledEnd(par: Params, s: Pool, k: nat)
    requires k >= |s.inflight|
    ensures Refilled(par, s, k) == s
  {
  }

  // ---- runs ----

  function Step(par: Params, s: Pool, e: Event): Pool
    requires Enabled(s, e)
  {
    match e
    case AcceptDone(k, res) => Accepted(par, s, k, res)
    case Done(k, res, data) => Completed(Written(Taken(s, k), s.out[k], data), s.out[k], res)
    case HookReturns(k, fd, ok) => Post(Taken(s, k), Answer(s.out[k].id, fd, ok))
    case Drained(k) => Adopted(Taken(s, k), s.out[k])
    case BatchDone => Refilled(par, s, 0)
  }

  predicate Legal(par: Params, s: Pool, evs: seq<Event>)
    decreases |evs|
  {
    evs == [] || (Enabled(s, evs[0]) && Legal(par, Step(par, s, evs[0]), evs[1..]))
  }

  function Run(par: Params, s: Pool, evs: seq<Event>): Pool
    requires Legal(par, s, evs)
    decreases |evs|
  {
    if evs == [] then s else Run(par, Step(par, s, evs[0]), evs[1..])
  }

  /** One accept on every listener, whatever the cap. */
  function Start(listeners: nat): Pool {
    Pool(map[], [], [], [], 0, seq(listeners, k => 1), 0, 0, 0, 0, map[], map[])
  }

  // ---- what is outstanding for one connection ----

  /** The items of connection `id`, in the order posted. */
  function ItemsOf(out: seq<Item>, id: nat): (its: seq<Item>)
    ensures forall k :: 0 <= k < |its| ==> its[k].id == id && its[k] in out
  {
    if out == [] then [] else
    var n := |out| - 1;
    ItemsOf(out[..n], id) + if out[n].id == id then [out[n]] else []
  }

  lemma ItemsAppend(out: seq<Item>, x: Item, id: nat)
    ensures ItemsOf(out + [x], id) == ItemsOf(out, id) + if x.id == id then [x] else []
  {
    assert (out + [x])[..|out|] == out;
  }

  lemma WithoutLast(out: seq<Item>, x: Item, k: nat)
    requires k < |out|
    ensures Without(out + [x], k) == Without(out, k) + [x]
  {
  }

  lemma {:induction false} ItemsWithout(out: seq<Item>, k: nat, id: nat)
    requires k < |out|
    ensures out[k].id != id ==> ItemsOf(Without(out, k), id) == ItemsOf(out, id)
    ensures out[k].id == id ==> multiset(ItemsOf(Without(out, k), id)) + multiset{out[k]} == multiset(ItemsOf(out, id))
  {
    hide ItemsOf, Without;
    var n := |out| - 1;
    var init, last := out[..n], out[n];
    assert out == init + [last];
    ItemsAppend(init, last, id);
    if k == n {
      WithoutEnd(out);
    } else {
      ItemsWithout(init, k, id);
      WithoutLast(init, last, k);
      ItemsAppend(Without(init, k), last, id);
      assert init[k] == out[k];
    }
  }

  lemma WithoutEnd(out: seq<Item>)
    requires out != []
    ensures Without(out, |out| - 1) == out[..|out| - 1]
  {
  }

  /** The one item of a connection is taken: nothing is outstanding for it. */
  lemma OnlyOne(out: seq<Item>, k: nat)
    requires k < |out| && |ItemsOf(out, out[k].id)| == 1
    ensures ItemsOf(out, out[k].id) == [out[k]] && ItemsOf(Without(out, k), out[k].id) == []
  {
    var its, rest := ItemsOf(out, out[k].id), ItemsOf(Without(out, k), out[k].id);
    ItemsWithout(out, k, out[k].id);
    assert |multiset(its)| == 1;
    assert |multiset(rest)| == 0;
    assert its[0] in multiset(its);
    assert out[k] in multiset(its);
  }

  predicate AllCloses(its: seq<Item>) {
    forall k :: 0 <= k < |its| ==> its[k].CloseFd?
  }

  /** One of the closes is taken. */
  lemma OneOfCloses(out: seq<Item>, k: nat)
    requires k < |out| && AllCloses(ItemsOf(out, out[k].id))
    ensures var rest := ItemsOf(Without(out, k), out[k].id);
            out[k].CloseFd? && AllCloses(rest) && |rest| == |ItemsOf(out, out[k].id)| - 1
  {
    var its, rest := ItemsOf(out, out[k].id), ItemsOf(Without(out, k), out[k].id);
    ItemsWithout(out, k, out[k].id);
    assert |multiset(rest)| + 1 == |multiset(its)|;
    assert out[k] in multiset(its);
    forall j | 0 <= j < |rest| ensures rest[j].CloseFd? {
      assert rest[j] in multiset(rest);
      assert rest[j] in multiset(its);
    }
  }

  lemma {:induction false} HasItem(out: seq<Item>, k: nat)
    requires k < |out|
    ensures out[k] in ItemsOf(out, out[k].id)
  {
    if k < |out| - 1 {
      HasItem(out[..|out| - 1], k);
    }
  }
}
