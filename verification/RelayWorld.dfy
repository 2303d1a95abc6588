/** One worker and its environment: the event loop's steps and their runs (flashrelay/worker.go:265-613). */
module RelayWorld {
  import opened Basics
  import opened RelayTypes
  import opened RelaySession
  import opened RelayInv

  datatype HookResult = HookResult(id: nat, dec: Decision)

  /** `all[i]` is the connection with id i + 1, kept after it has left the map. `accepts` is
      acceptInflight, `ready` the bridge's list, `open` the descriptors that are open, `unclosed` the
      closes posted for shed connections that the kernel has yet to carry out. */
  datatype World = World(
    all: seq<Session>, tick: nat, accepts: nat, shed: nat, acceptErrors: nat,
    stopping: bool, exited: bool,
    ready: seq<HookResult>, open: set<int>, unclosed: multiset<int>)

  function Start(): World {
    World([], 0, 0, 0, 0, false, false, [], {}, multiset{})
  }

  // ---- totals over connections ----

  function Sum(s: seq<Session>, f: Session -> int): int {
    if s == [] then 0 else Sum(s[..|s| - 1], f) + f(s[|s| - 1])
  }

  function Fds(s: seq<Session>): multiset<int> {
    if s == [] then multiset{} else Fds(s[..|s| - 1]) + FdsOf(s[|s| - 1])
  }

  /** Every descriptor a connection answers for: its own until it closes, then those whose close the
      kernel has yet to carry out. */
  function FdsOf(s: Session): multiset<int> {
    (if s.mapped && !s.c.closing then FdIfOpen(s.c.clientFD) + FdIfOpen(s.c.upstreamFD) else multiset{}) + s.unclosed
  }

  function ReadyFds(ready: seq<HookResult>): multiset<int> {
    if ready == [] then multiset{} else FdIfOpen(ready[0].dec.upstreamFD) + ReadyFds(ready[1..])
  }

  /** The results on the list that belong to connection `id`, in order. */
  function ResultsFor(ready: seq<HookResult>, id: nat): seq<Decision> {
    if ready == [] then [] else
    (if ready[0].id == id then [ready[0].dec] else []) + ResultsFor(ready[1..], id)
  }

  function MappedOf(s: Session): int { B2N(s.mapped) }
  function LiveOf(s: Session): int { B2N(s.mapped && !s.c.closing) }
  function CompletedOf(s: Session): int { s.h.completed }
  function RejectedOf(s: Session): int { s.h.rejected }
  function IdleOf(s: Session): int { s.h.idle }
  function ErrorsOf(s: Session): int { s.h.errors }
  function AgainOf(s: Session): int { s.h.again }
  function BytesUpOf(s: Session): int { s.h.bytesUp }
  function BytesDownOf(s: Session): int { s.h.bytesDown }
  function JobsOf(s: Session): int { |s.jobs| }

  /** len(conns). */
  function Mapped(w: World): int {
    Sum(w.all, MappedOf)
  }

  // ---- events ----

  /** A completion taken off the ring, or a step of the world around the worker: a Hook returns, the
      kernel carries out a close, Stop is called. `BatchDone` is the end of one batch of completions. */
  datatype Event =
    | AcceptDone(res: int)
    | ConnDone(id: nat, f: Flight, res: int, data: seq<byte>)
    | ConnCloseDone(id: nat, fd: int)
    | ShedCloseDone
    | EventfdDone
    | TimeoutDone
    | BatchDone
    | HookReturns(id: nat, k: nat, dec: Decision)
    | KernelCloses(id: nat, fd: int)
    | KernelClosesShed(fd: int)
    | StopCalled

  predicate IsConn(w: World, id: nat) {
    1 <= id <= |w.all|
  }

  /** What goes on when the worker has returned: the Hooks still deciding return, and the kernel carries out
      the closes it was asked for. */
  predicate Outlasts(e: Event) {
    e.HookReturns? || e.KernelCloses? || e.KernelClosesShed?
  }

  /** What the kernel and the Hook may do: complete what is outstanding within its bounds; hand out
      descriptors that are positive and not open already. */
  predicate Enabled(w: World, e: Event) {
    && (w.exited ==> Outlasts(e))
    && match e
       case AcceptDone(res) => w.accepts > 0 && (res >= 0 ==> res > 0 && res !in w.open)
       case ConnDone(id, f, res, data) => IsConn(w, id) && f in w.all[id - 1].flights && ResultOk(f, res, data)
       case ConnCloseDone(id, fd) => IsConn(w, id) && fd in w.all[id - 1].closes
       case HookReturns(id, k, d) =>
         IsConn(w, id) && k < |w.all[id - 1].jobs| && DecisionOk(d) && (d.upstreamFD > 0 ==> d.upstreamFD !in w.open)
       case KernelCloses(id, fd) => IsConn(w, id) && fd in w.all[id - 1].unclosed
       case KernelClosesShed(fd) => fd in w.unclosed
       case _ => true
  }

  function OnAccept(cfg: Cfg, w: World, res: int): World {
    var v := w.(accepts := if w.accepts > 0 then w.accepts - 1 else 0);
    if res < 0 then v.(acceptErrors := v.acceptErrors + 1)
    else if Mapped(v) >= cfg.maxConns then
      v.(shed := v.shed + 1, open := v.open + {res}, unclosed := v.unclosed + multiset{res})
    else
      v.(all := v.all + [Accepted(cfg, v.tick, res)], open := v.open + {res})
  }

  function With(w: World, id: nat, s: Session): World
    requires IsConn(w, id)
  {
    w.(all := w.all[id - 1 := s])
  }

  /** One result of the ready list. A descriptor that is not adopted is closed on the spot. */
  function DrainOne(cfg: Cfg, w: World, r: HookResult): World {
    if !IsConn(w, r.id) then w else
    var s := w.all[r.id - 1];
    var v := With(w, r.id, Drain(cfg, s, w.tick, r.dec));
    if Adopts(s, r.dec) then v else v.(open := v.open - {r.dec.upstreamFD})
  }

  /** `ready` emptied front to back. */
  function DrainAll(cfg: Cfg, w: World): World
    decreases |w.ready|
  {
    if w.ready == [] then w else
    DrainAll(cfg, DrainOne(cfg, w.(ready := w.ready[1..]), w.ready[0]))
  }

  predicate SweepsAt(cfg: Cfg, tick: nat) {
    cfg.idleTicks > 0 && tick % 10 == 0
  }

  function SweepAll(cfg: Cfg, all: seq<Session>, tick: nat): (swept: seq<Session>)
    ensures |swept| == |all|
  {
    seq(|all|, i requires 0 <= i < |all| => Sweep(cfg, all[i], tick))
  }

  function OnTimeout(cfg: Cfg, w: World): World {
    var v := w.(tick := w.tick + 1);
    if SweepsAt(cfg, v.tick) then v.(all := SweepAll(cfg, v.all, v.tick)) else v
  }

  function TopUp(cfg: Cfg, mapped: int, accepts: nat): nat
    decreases cfg.acceptBatch - accepts
  {
    if accepts < cfg.acceptBatch && mapped + accepts < cfg.maxConns then TopUp(cfg, mapped, accepts + 1) else accepts
  }

  function OnBatchDone(cfg: Cfg, w: World): World {
    if w.stopping then w.(exited := w.exited || Mapped(w) == 0)
    else w.(accepts := TopUp(cfg, Mapped(w), w.accepts))
  }

  function Step(cfg: Cfg, w: World, e: Event): World
    requires Enabled(w, e)
  {
    match e
    case AcceptDone(res) => OnAccept(cfg, w, res)
    case ConnDone(id, f, res, data) => With(w, id, Complete(cfg, w.all[id - 1], w.tick, f, res, data))
    case ConnCloseDone(id, fd) => With(w, id, CloseDone(w.all[id - 1], fd))
    case ShedCloseDone => w
    case EventfdDone => DrainAll(cfg, w)
    case TimeoutDone => OnTimeout(cfg, w)
    case BatchDone => OnBatchDone(cfg, w)
    case HookReturns(id, k, d) =>
      With(w, id, Returned(w.all[id - 1], k, d)).(
        ready := w.ready + [HookResult(id, d)],
        open := if d.upstreamFD > 0 then w.open + {d.upstreamFD} else w.open)
    case KernelCloses(id, fd) => With(w, id, KernelClosed(w.all[id - 1], fd)).(open := w.open - {fd})
    case KernelClosesShed(fd) => w.(unclosed := w.unclosed - multiset{fd}, open := w.open - {fd})
    case StopCalled => w.(stopping := true)
  }

  /** `evs` can happen from `w`, one after the other. */
  predicate Legal(cfg: Cfg, w: World, evs: seq<Event>)
    decreases |evs|
  {
    evs == [] || (Enabled(w, evs[0]) && Legal(cfg, Step(cfg, w, evs[0]), evs[1..]))
  }

  function Run(cfg: Cfg, w: World, evs: seq<Event>): World
    requires Legal(cfg, w, evs)
    decreases |evs|
  {
    if evs == [] then w else Run(cfg, Step(cfg, w, evs[0]), evs[1..])
  }

  // ---- the invariant of the whole worker ----

  /** Exact idle bound: between two sweeps a live connection is at most the idle limit old, plus the
      ticks since the last sweep. */
  ghost predicate IdleOk(cfg: Cfg, s: Session, tick: nat) {
    cfg.idleTicks > 0 && s.mapped && !s.c.closing ==> tick - s.c.lastTick <= cfg.idleTicks + tick % 10
  }

  /** What is asked of every connection, as a predicate value: the invariant of one connection and
      the idle bound. */
  ghost function SoundAt(cfg: Cfg, tick: nat): Session -> bool {
    (s: Session) => SessionInv(cfg, s, tick) && IdleOk(cfg, s, tick)
  }

  ghost predicate AllOk(all: seq<Session>, ok: Session -> bool) {
    forall i {:trigger ok(all[i])} :: 0 <= i < |all| ==> ok(all[i])
  }

  /** Each open descriptor is answered for exactly once. */
  ghost predicate FdsBalance(w: World) {
    && Fds(w.all) + ReadyFds(w.ready) + w.unclosed == multiset(w.open)
    && (forall fd :: fd in w.open ==> fd > 0)
  }

  ghost predicate ReadyOk(w: World) {
    && (forall k :: 0 <= k < |w.ready| ==> IsConn(w, w.ready[k].id))
    && (forall i :: 0 <= i < |w.all| ==> ResultsFor(w.ready, i + 1) == w.all[i].results)
  }

  ghost predicate AcceptsOk(cfg: Cfg, w: World) {
    w.accepts <= cfg.acceptBatch && Mapped(w) + w.accepts <= cfg.maxConns && w.shed == 0
  }

  ghost predicate InvBy(cfg: Cfg, w: World, ok: Session -> bool) {
    AllOk(w.all, ok) && FdsBalance(w) && ReadyOk(w) && AcceptsOk(cfg, w)
  }

  ghost predicate Inv(cfg: Cfg, w: World) {
    InvBy(cfg, w, SoundAt(cfg, w.tick))
  }
}
