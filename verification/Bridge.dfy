/** The wake protocol between the Hook pool and the event loop: a list under a mutex, a coalescing flag
    and an eventfd, every interleaving of the producers, the loop and the kernel
    (flashrelay/worker.go:102-131, 270-278, 322-327). */
module Bridge {
  import opened Basics

  /** Where a producer is in push. */
  datatype Pc = Idle | Appended | WillWrite

  /** The ring's read of the eventfd: not posted, posted but not submitted, or with the kernel. */
  datatype EfdRead = Off | Queued | InKernel

  /** Where the loop is: between completions, or in the eventfd case. */
  datatype Loop = Polling | Took | Rearmed | Cleared

  /** `pushed` and `drained` record every result appended and taken, `writes` the eventfd writes and
      `clears` the times the flag was cleared. */
  datatype State<R> = State(
    ready: seq<R>, notified: bool, efd: nat,
    read: EfdRead, cqes: nat, producers: seq<Pc>, loop: Loop,
    pushed: seq<R>, drained: seq<R>, writes: nat, clears: nat)

  function Start<R>(n: nat): State<R> {
    State([], false, 0, Queued, 0, seq(n, i => Idle), Polling, [], [], 0, 0)
  }

  /** One atomic step of a producer (the first three), of the loop, or of the kernel. */
  datatype Move<R> =
    | Append(p: nat, r: R)
    | Swap(p: nat)
    | Write(p: nat)
    | Submit
    | KernelReads
    | Take
    | Rearm
    | Clear
    | Drain

  predicate At(ps: seq<Pc>, p: nat, pc: Pc) {
    p < |ps| && ps[p] == pc
  }

  predicate Enabled<R>(s: State<R>, m: Move<R>) {
    match m
    case Append(p, _) => At(s.producers, p, Idle)
    case Swap(p) => At(s.producers, p, Appended)
    case Write(p) => At(s.producers, p, WillWrite)
    case Submit => s.loop == Polling && s.read == Queued
    case KernelReads => s.read == InKernel && s.efd > 0
    case Take => s.loop == Polling && s.cqes > 0
    case Rearm => s.loop == Took
    case Clear => s.loop == Rearmed
    case Drain => s.loop == Cleared
  }

  function Step<R>(s: State<R>, m: Move<R>): State<R>
    requires Enabled(s, m)
  {
    match m
    case Append(p, r) =>
      s.(ready := s.ready + [r], pushed := s.pushed + [r], producers := s.producers[p := Appended])
    case Swap(p) =>
      s.(notified := true, producers := s.producers[p := if s.notified then Idle else WillWrite])
    case Write(p) => s.(efd := s.efd + 1, writes := s.writes + 1, producers := s.producers[p := Idle])
    case Submit => s.(read := InKernel)
    case KernelReads => s.(efd := 0, read := Off, cqes := s.cqes + 1)
    case Take => s.(cqes := s.cqes - 1, loop := Took)
    case Rearm => s.(read := Queued, loop := Rearmed)
    case Clear => s.(notified := false, clears := s.clears + 1, loop := Cleared)
    case Drain => s.(drained := s.drained + s.ready, ready := [], loop := Polling)
  }

  predicate Legal<R>(s: State<R>, ms: seq<Move<R>>)
    decreases |ms|
  {
    ms == [] || (Enabled(s, ms[0]) && Legal(Step(s, ms[0]), ms[1..]))
  }

  function Run<R>(s: State<R>, ms: seq<Move<R>>): State<R>
    requires Legal(s, ms)
    decreases |ms|
  {
    if ms == [] then s else Run(Step(s, ms[0]), ms[1..])
  }

  // ---- counting producers ----

  function Count(ps: seq<Pc>, pc: Pc): nat {
    if ps == [] then 0 else Count(ps[..|ps| - 1], pc) + (if ps[|ps| - 1] == pc then 1 else 0)
  }

  lemma {:induction false} CountMoves(ps: seq<Pc>, p: nat, to: Pc, pc: Pc)
    requires p < |ps|
    ensures Count(ps[p := to], pc) == Count(ps, pc) - (if ps[p] == pc then 1 else 0) + (if to == pc then 1 else 0)
  {
    var n := |ps| - 1;
    if p < n {
      assert ps[p := to][..n] == ps[..n][p := to];
      CountMoves(ps[..n], p, to, pc);
    } else {
      assert ps[p := to][..n] == ps[..n];
    }
  }

  lemma {:induction false} CountZero(ps: seq<Pc>, pc: Pc)
    ensures Count(ps, pc) == 0 <==> forall p :: 0 <= p < |ps| ==> ps[p] != pc
  {
    if ps != [] {
      CountZero(ps[..|ps| - 1], pc);
    }
  }

  // ---- the invariant ----

  /** Wakes on their way to the loop: a producer about to write, the eventfd's count, a completion not
      yet taken, or one that was taken and has not cleared the flag. */
  function Wakes<R>(s: State<R>): nat {
    Count(s.producers, WillWrite) + s.efd + s.cqes + B2N(s.loop == Took || s.loop == Rearmed)
  }

  predicate Inv<R(==)>(s: State<R>) {
    && Wakes(s) == B2N(s.notified)
    && B2N(s.read != Off) + s.cqes + B2N(s.loop == Took) == 1
    && (s.ready != [] ==> Count(s.producers, Appended) > 0 || s.notified || s.loop == Cleared)
    && s.pushed == s.drained + s.ready
    && s.writes + Count(s.producers, WillWrite) == s.clears + B2N(s.notified)
  }

  lemma StepKeeps<R>(s: State<R>, m: Move<R>)
    requires Inv(s) && Enabled(s, m)
    ensures Inv(Step(s, m))
  {
    match m
    case Append(p, r) =>
      CountMoves(s.producers, p, Appended, WillWrite);
      CountMoves(s.producers, p, Appended, Appended);
    case Swap(p) =>
      var to := if s.notified then Idle else WillWrite;
      CountMoves(s.producers, p, to, WillWrite);
    case Write(p) =>
      CountMoves(s.producers, p, Idle, WillWrite);
      CountMoves(s.producers, p, Idle, Appended);
    case _ =>
  }

  lemma {:induction false} RunKeeps<R>(s: State<R>, ms: seq<Move<R>>)
    requires Inv(s) && Legal(s, ms)
    ensures Inv(Run(s, ms))
    decreases |ms|
  {
    if ms != [] {
      StepKeeps(s, ms[0]);
      RunKeeps(Step(s, ms[0]), ms[1..]);
    }
  }

  lemma Reachable<R>(n: nat, ms: seq<Move<R>>)
    requires Legal(Start<R>(n), ms)
    ensures Inv(Run(Start<R>(n), ms))
  {
    CountZero(Start<R>(n).producers, WillWrite);
    RunKeeps(Start<R>(n), ms);
  }

  // ---- what the protocol promises ----

  /** The flag is exactly the number of wakes outstanding, so there is never more than one. */
  lemma FlagCountsWakes<R>(n: nat, ms: seq<Move<R>>)
    requires Legal(Start<R>(n), ms)
    ensures var s := Run(Start<R>(n), ms); Wakes(s) == B2N(s.notified) <= 1 && s.cqes + s.efd <= 1
  {
    Reachable(n, ms);
  }

  /** No result is left without a wake: while the list is not empty, a producer is between its append
      and its swap, the loop is about to drain, or exactly one wake is on its way. */
  lemma NoLostWakeup<R>(n: nat, ms: seq<Move<R>>)
    requires Legal(Start<R>(n), ms)
    ensures var s := Run(Start<R>(n), ms);
            s.ready != [] ==>
              (exists p :: At(s.producers, p, Appended)) || s.loop == Cleared || Wakes(s) == 1
  {
    var s := Run(Start<R>(n), ms);
    Reachable(n, ms);
    if s.ready != [] && Count(s.producers, Appended) > 0 {
      CountZero(s.producers, Appended);
      var p :| 0 <= p < |s.producers| && s.producers[p] == Appended;
      assert At(s.producers, p, Appended);
    }
  }

  /** Every result is taken exactly once, in the order it was appended. */
  lemma DrainedInOrder<R>(n: nat, ms: seq<Move<R>>)
    requires Legal(Start<R>(n), ms)
    ensures var s := Run(Start<R>(n), ms); s.pushed == s.drained + s.ready
  {
    Reachable(n, ms);
  }

  /** Wakes coalesce: however many results were pushed, there is at most one eventfd write more than
      there were drains. */
  lemma AtMostOneWritePerDrain<R>(n: nat, ms: seq<Move<R>>)
    requires Legal(Start<R>(n), ms)
    ensures var s := Run(Start<R>(n), ms); s.writes <= s.clears + 1
  {
    Reachable(n, ms);
  }

  // ---- the list is emptied ----

  function LoopLeft(l: Loop): nat {
    match l
    case Polling => 0
    case Took => 4
    case Rearmed => 2
    case Cleared => 1
  }

  /** The steps that pushes already begun can still cause. */
  function StepsLeft<R>(s: State<R>): nat {
    8 * Count(s.producers, Appended) + 7 * Count(s.producers, WillWrite) + 6 * s.efd + 5 * s.cqes
    + LoopLeft(s.loop) + B2N(s.read == Queued)
  }

  lemma StepsFall<R>(s: State<R>, m: Move<R>)
    requires Enabled(s, m) && !m.Append?
    ensures StepsLeft(Step(s, m)) < StepsLeft(s)
  {
    match m
    case Swap(p) =>
      var to := if s.notified then Idle else WillWrite;
      CountMoves(s.producers, p, to, WillWrite);
      CountMoves(s.producers, p, to, Appended);
    case Write(p) =>
      CountMoves(s.producers, p, Idle, WillWrite);
      CountMoves(s.producers, p, Idle, Appended);
    case _ =>
  }

  predicate NoAppend<R>(ms: seq<Move<R>>) {
    forall k :: 0 <= k < |ms| ==> !ms[k].Append?
  }

  /** Without new pushes only so many steps are possible. */
  lemma {:induction false} StepsBounded<R>(s: State<R>, ms: seq<Move<R>>)
    requires Legal(s, ms) && NoAppend(ms)
    ensures |ms| + StepsLeft(Run(s, ms)) <= StepsLeft(s)
    decreases |ms|
  {
    if ms != [] {
      StepsFall(s, ms[0]);
      StepsBounded(Step(s, ms[0]), ms[1..]);
    }
  }

  ghost predicate Stuck<R(!new)>(s: State<R>) {
    forall m: Move<R> :: Enabled(s, m) ==> m.Append?
  }

  /** When nothing can step any more except by a new push, everything pushed has been taken, and the
      loop is waiting for the next wake with its read at the kernel. */
  lemma StuckIsDrained<R(!new)>(s: State<R>)
    requires Inv(s) && Stuck(s)
    ensures s.ready == [] && s.drained == s.pushed
    ensures s.loop == Polling && s.read == InKernel && !s.notified && s.efd == 0
  {
    assert !Enabled(s, Rearm) && !Enabled(s, Clear) && !Enabled(s, Drain);
    assert !Enabled(s, Take) && !Enabled(s, Submit) && !Enabled(s, KernelReads);
    forall p | 0 <= p < |s.producers| ensures s.producers[p] == Idle {
      assert !Enabled(s, Swap(p)) && !Enabled(s, Write(p));
    }
    CountZero(s.producers, Appended);
    CountZero(s.producers, WillWrite);
  }

  /** So from any reachable state, any run of the pushes already begun, the loop and the kernel that goes
      on as long as it can is finite, and ends with every result pushed so far taken, in order. */
  lemma EverythingIsDrained<R(!new)>(n: nat, ms: seq<Move<R>>, rest: seq<Move<R>>)
    requires Legal(Start<R>(n), ms) && Legal(Run(Start<R>(n), ms), rest) && NoAppend(rest)
    ensures var s := Run(Start<R>(n), ms); var t := Run(s, rest);
            |rest| <= StepsLeft(s) && (Stuck(t) ==> t.drained == s.pushed)
  {
    var s := Run(Start<R>(n), ms);
    Reachable(n, ms);
    StepsBounded(s, rest);
    RunKeeps(s, rest);
    NothingPushed(s, rest);
    if Stuck(Run(s, rest)) {
      StuckIsDrained(Run(s, rest));
    }
  }

  lemma {:induction false} NothingPushed<R>(s: State<R>, ms: seq<Move<R>>)
    requires Legal(s, ms) && NoAppend(ms)
    ensures Run(s, ms).pushed == s.pushed
    decreases |ms|
  {
    if ms != [] {
      NothingPushed(Step(s, ms[0]), ms[1..]);
    }
  }

  // ---- the shared object ----

  /** The bridge as the goroutines share it: each method is one atomic access. `st` is the state of the
      whole protocol, of which the fields are a part. */
  class Shared<R> {
    var ready: seq<R>
    var notified: int
    var efd: nat
    ghost var st: State<R>

    ghost predicate Valid()
      reads this
    {
      Inv(st) && ready == st.ready && notified == B2N(st.notified) && efd == st.efd
    }

    constructor (n: nat)
      ensures Valid() && st == Start<R>(n)
    {
      ready, notified, efd := [], 0, 0;
      st := Start<R>(n);
      new;
      Reachable<R>(n, []);
    }

    /** push, under the mutex. */
    method Append(ghost p: nat, r: R)
      requires Valid() && Enabled(st, Move.Append(p, r))
      modifies this
      ensures Valid() && st == Step(old(st), Move.Append(p, r)) && ready == old(ready) + [r]
    {
      StepKeeps(st, Move.Append(p, r));
      ready := ready + [r];
      st := Step(st, Move.Append(p, r));
    }

    /** push, the atomic exchange: says whether an eventfd write is called for. */
    method Swap(ghost p: nat) returns (wake: bool)
      requires Valid() && Enabled(st, Move.Swap(p))
      modifies this
      ensures Valid() && st == Step(old(st), Move.Swap(p))
      ensures wake <==> At(st.producers, p, WillWrite)
      ensures wake ==> Wakes(old(st)) == 0
    {
      StepKeeps(st, Move.Swap(p));
      wake := notified == 0;
      notified := 1;
      st := Step(st, Move.Swap(p));
    }

    /** push, the write: the count never passes 1. */
    method Write(ghost p: nat)
      requires Valid() && Enabled(st, Move.Write(p))
      modifies this
      ensures Valid() && st == Step(old(st), Move.Write(p)) && old(efd) == 0 && efd == 1
    {
      StepKeeps(st, Move.Write(p));
      CountZero(st.producers, WillWrite);
      efd := efd + 1;
      st := Step(st, Move.Write(p));
    }

    /** The loop clears the flag, before it drains. */
    method Clear()
      requires Valid() && Enabled(st, Move.Clear)
      modifies this
      ensures Valid() && st == Step(old(st), Move.Clear) && Wakes(st) == 0
    {
      StepKeeps(st, Move.Clear);
      notified := 0;
      st := Step(st, Move.Clear);
    }

    /** drain, under the mutex. */
    method Drain() returns (r: seq<R>)
      requires Valid() && Enabled(st, Move.Drain)
      modifies this
      ensures Valid() && st == Step(old(st), Move.Drain)
      ensures r == old(ready) && ready == [] && st.drained == old(st.drained) + r == st.pushed
    {
      StepKeeps(st, Move.Drain);
      r := ready;
      ready := [];
      st := Step(st, Move.Drain);
    }

    /** The ring's read of the eventfd completes with its count. */
    method KernelReads() returns (count: nat)
      requires Valid() && Enabled(st, Move.KernelReads)
      modifies this
      ensures Valid() && st == Step(old(st), Move.KernelReads) && count == 1 && efd == 0
    {
      StepKeeps(st, Move.KernelReads);
      count := efd;
      efd := 0;
      st := Step(st, Move.KernelReads);
    }

    /** A step of the loop that does not touch the bridge. */
    ghost method LoopStep(m: Move<R>)
      requires Valid() && Enabled(st, m) && (m.Submit? || m.Take? || m.Rearm?)
      modifies this
      ensures Valid() && st == Step(old(st), m)
    {
      StepKeeps(st, m);
      st := Step(st, m);
    }
  }
}
