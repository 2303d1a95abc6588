/** The hand-rolled submission and completion queues: index rings over shared 32-bit counters that wrap,
    proved to be unbounded FIFOs, also when the kernel takes only a part of what it is handed and when
    completions do not fit (internal/uring/uring.go:132-320). */
module Ring {
  import opened Basics
  import opened Wrap32

  /** The fields of an entry that the engine fills. */
  datatype Sqe = Sqe(opcode: nat, fd: int, addr: nat, len: nat, opFlags: nat, userData: nat)

  datatype Cqe = Cqe(userData: nat, res: int)

  /** How a call of io_uring_enter ends: broken off by a signal before anything was taken, with an error,
      or with the first `n` of the entries to submit taken. */
  datatype Enter = Interrupted | Failed | Took(n: nat)

  const EMPTY: Sqe := Sqe(0, 0, 0, 0, 0, 0)

  /** The completions of the first `k` steps, in order. */
  function Arrived(late: seq<seq<Cqe>>, k: nat): seq<Cqe> {
    if k == 0 then [] else Arrived(late, k - 1) + ArrivesAt(late, k - 1)
  }

  function ArrivesAt(late: seq<seq<Cqe>>, k: nat): seq<Cqe> {
    if k < |late| then late[k] else []
  }

  /** The ring as the process sees it, with the kernel's side of both queues. */
  class Queues {
    const sqBits: nat
    const cqBits: nat
    const sqEntries: nat
    const cqEntries: nat
    const sqMask: nat
    const cqMask: nat
    const sqes: array<Sqe>
    const sqArray: array<nat>
    const cqes: array<Cqe>
    const noDrop: bool
    // words shared with the kernel
    var sqHead: nat
    var sqTail: nat
    var cqHead: nat
    var cqTail: nat
    var cqOverflow: nat
    /** What a kernel that does not drop keeps for lack of space. */
    var backlog: seq<Cqe>
    // the process's own copies
    var sqTailLocal: nat
    var cqHeadLocal: nat
    var toSubmit: nat
    /** The same counters as natural numbers, which never wrap. */
    ghost var consumed: nat
    ghost var acquired: nat
    ghost var harvested: nat
    ghost var postedCount: nat
    /** Everything the kernel has taken, everything it has completed, and what of that it has posted, in
        order; and how many completions it dropped. */
    ghost var taken: seq<Sqe>
    ghost var completed: seq<Cqe>
    ghost var posted: seq<Cqe>
    ghost var lost: nat

    ghost predicate Sizes()
      reads this
    {
      && sqBits < 32 && cqBits < 32
      && sqEntries == Pow2(sqBits) == sqes.Length == sqArray.Length && sqMask == sqEntries - 1
      && cqEntries == Pow2(cqBits) == cqes.Length && cqMask == cqEntries - 1
    }

    ghost predicate Valid()
      reads this, sqArray, cqes
    {
      && Sizes() && Submissions() && Completions() && Accounted()
    }

    ghost predicate Submissions()
      requires Sizes()
      reads this, sqArray
    {
      && consumed <= acquired <= consumed + sqEntries
      && sqHead == Wrap(consumed) && sqTailLocal == Wrap(acquired) && toSubmit <= acquired - consumed
      && (forall i :: consumed <= i < acquired ==> sqArray[Slot(i, sqEntries)] == Slot(i, sqEntries))
      && |taken| == consumed
    }

    ghost predicate Completions()
      requires Sizes()
      reads this, cqes
    {
      && harvested <= postedCount <= harvested + cqEntries
      && cqHead == cqHeadLocal == Wrap(harvested) && cqTail == Wrap(postedCount)
      && |posted| == postedCount && Window(cqes[..], harvested, postedCount) == posted[harvested..]
    }

    /** Every completion is posted, kept back or dropped, the first two in order if there is no drop; and
        only a kernel without NODROP drops. */
    ghost predicate Accounted()
      reads this
    {
      && |completed| == |posted| + |backlog| + lost && cqOverflow == Wrap(lost)
      && (lost == 0 ==> completed == posted + backlog)
      && (if noDrop then lost == 0 else backlog == [])
    }

    /** The entries handed out and not yet taken by the kernel, as the kernel will find them. */
    ghost function Pending(): (q: seq<Sqe>)
      requires Valid()
      reads this, sqArray, sqes, cqes
      ensures |q| == acquired - consumed
    {
      Window(sqes[..], consumed, acquired)
    }

    /** The completions posted and not yet given back. */
    ghost function Ready(): (q: seq<Cqe>)
      requires Valid()
      reads this, sqArray, cqes
      ensures |q| == postedCount - harvested
    {
      Window(cqes[..], harvested, postedCount)
    }

    /** How many of the entries that wait the next enter will not reach. */
    ghost function Stranded(): (n: nat)
      requires Valid()
      reads this, sqArray, cqes
    {
      acquired - consumed - toSubmit
    }

    /** New, from what the kernel reports: both queues empty, with counters that may start anywhere. */
    constructor (sqb: nat, cqb: nat, sqAt: nat, cqAt: nat, noDrop: bool)
      requires sqb < 32 && cqb < 32
      ensures Valid() && sqBits == sqb && cqBits == cqb && Pending() == [] && Ready() == [] && Stranded() == 0
      ensures this.noDrop == noDrop && backlog == [] && lost == 0
      ensures fresh(sqes) && fresh(sqArray) && fresh(cqes)
    {
      sqBits, cqBits := sqb, cqb;
      sqEntries, cqEntries := Pow2(sqb), Pow2(cqb);
      sqMask, cqMask := Pow2(sqb) - 1, Pow2(cqb) - 1;
      sqes := new Sqe[Pow2(sqb)](i => EMPTY);
      sqArray := new nat[Pow2(sqb)](i => 0);
      cqes := new Cqe[Pow2(cqb)](i => Cqe(0, 0));
      sqHead, sqTail, sqTailLocal, toSubmit := Wrap(sqAt), Wrap(sqAt), Wrap(sqAt), 0;
      cqHead, cqTail, cqHeadLocal := Wrap(cqAt), Wrap(cqAt), Wrap(cqAt);
      consumed, acquired, harvested, postedCount := sqAt, sqAt, cqAt, cqAt;
      taken, posted := seq(sqAt, i => EMPTY), seq(cqAt, i => Cqe(0, 0));
      completed, backlog, lost, cqOverflow := seq(cqAt, i => Cqe(0, 0)), [], 0, 0;
      this.noDrop := noDrop;
    }

    // ---- the submission queue ----

    /** A zeroed slot, or None when every slot holds an entry the kernel has not taken. The slot is
        none of those. */
    method GetSQE() returns (slot: Option<nat>)
      requires Valid()
      modifies `sqTailLocal, `toSubmit, `acquired, sqes, sqArray
      ensures Valid() && Ready() == old(Ready()) && toSubmit == old(toSubmit) + (if slot.Some? then 1 else 0)
      ensures slot.None? <==> |old(Pending())| == sqEntries
      ensures slot.None? ==> Pending() == old(Pending()) && acquired == old(acquired)
      ensures slot.Some? ==> acquired == old(acquired) + 1 && slot.value == Slot(old(acquired), sqEntries)
      ensures slot.Some? ==> Pending() == old(Pending()) + [EMPTY]
      ensures slot.Some? ==> forall i :: consumed <= i < old(acquired) ==> Slot(i, sqEntries) != slot.value
    {
      hide Slot, And;
      var head := sqHead;
      Below32(sqBits);
      Distance(acquired, consumed);
      if Wrap(sqTailLocal - head) >= sqEntries {
        return None;
      }
      var idx := And(sqTailLocal, sqMask);
      SlotOf(acquired, sqBits);
      Next(acquired, 1);
      FreshSlot();
      WindowPush(sqes[..], consumed, acquired, EMPTY);
      sqes[idx] := EMPTY;
      sqArray[idx] := idx;
      sqTailLocal := Wrap(sqTailLocal + 1);
      toSubmit := Wrap(toSubmit + 1);
      acquired := acquired + 1;
      return Some(idx);
    }

    lemma FreshSlot()
      requires Valid() && acquired < consumed + sqEntries
      ensures forall i :: consumed <= i < acquired ==> Slot(i, sqEntries) != Slot(acquired, sqEntries)
    {
      forall i | consumed <= i < acquired ensures Slot(i, sqEntries) != Slot(acquired, sqEntries) {
        SlotsDiffer(i, acquired, sqEntries);
      }
    }

    /** The Prep helpers: the entry in the slot handed out last is filled in place. */
    method Fill(slot: nat, e: Sqe)
      requires Valid() && acquired > consumed && slot == Slot(acquired - 1, sqEntries)
      modifies sqes
      ensures Valid() && Ready() == old(Ready())
      ensures Pending() == old(Pending())[acquired - 1 - consumed := e]
    {
      hide Slot;
      WindowSet(sqes[..], consumed, acquired, e);
      sqes[slot] := e;
    }

    /** The kernel takes the `m` oldest entries, reading each through the index array. */
    method KernelEnter(m: nat)
      requires Valid() && m <= toSubmit
      modifies `sqHead, `consumed, `taken, `toSubmit
      ensures Valid() && Ready() == old(Ready()) && acquired == old(acquired) && toSubmit == old(toSubmit) - m
      ensures Pending() == old(Pending())[m..] && taken == old(taken) + old(Pending())[..m] && consumed == old(consumed) + m
    {
      hide Slot, And, Window;
      ghost var queue := Pending();
      var i := 0;
      while i < m
        invariant 0 <= i <= m && toSubmit == old(toSubmit) - i
        invariant Valid() && acquired == old(acquired) && consumed == old(consumed) + i && harvested == old(harvested)
        invariant Pending() == queue[i..] && taken == old(taken) + queue[..i]
      {
        var e := KernelTake();
        assert queue[..i + 1] == queue[..i] + [queue[i]];
        i := i + 1;
      }
    }

    /** The kernel takes the oldest entry, through the index array. */
    method KernelTake() returns (e: Sqe)
      requires Valid() && toSubmit > 0
      modifies `sqHead, `consumed, `taken, `toSubmit
      ensures Valid() && consumed == old(consumed) + 1 && toSubmit == old(toSubmit) - 1
      ensures e == old(Pending())[0] && Pending() == old(Pending())[1..] && taken == old(taken) + [e]
    {
      hide Slot, And;
      SlotOf(consumed, sqBits);
      Next(consumed, 1);
      WindowDrop(sqes[..], consumed, acquired, 1);
      e := sqes[sqArray[And(sqHead, sqMask)]];
      sqHead := Wrap(sqHead + 1);
      toSubmit := toSubmit - 1;
      consumed := consumed + 1;
      taken := taken + [e];
    }

    /** Calls of io_uring_enter up to the one that is not broken off; no call takes more than it is asked to. */
    predicate Calls(calls: seq<Enter>)
      reads `toSubmit
    {
      && calls != [] && !calls[|calls| - 1].Interrupted?
      && (forall i :: 0 <= i < |calls| - 1 ==> calls[i].Interrupted?)
      && (calls[|calls| - 1].Took? ==> calls[|calls| - 1].n <= toSubmit)
    }

    /** Submit: io_uring_enter until a call is not broken off. If that one fails nothing is taken and nothing
        forgotten. If it takes less than all, the count of the rest is forgotten: those entries stay first
        in the queue, and as many entries as were left are out of every later enter's reach. */
    method Submit(calls: seq<Enter>) returns (n: nat, ok: bool)
      requires Valid() && Calls(calls)
      modifies `sqTail, `sqHead, `consumed, `taken, `toSubmit
      ensures Valid() && Ready() == old(Ready()) && acquired == old(acquired) && sqTail == Wrap(acquired)
      ensures ok == calls[|calls| - 1].Took?
      ensures ok ==> n == calls[|calls| - 1].n && toSubmit == 0 && Stranded() == old(Stranded()) + old(toSubmit) - n
      ensures ok ==> Pending() == old(Pending())[n..] && taken == old(taken) + old(Pending())[..n]
      ensures !ok ==> n == 0 && Pending() == old(Pending()) && taken == old(taken) && toSubmit == old(toSubmit)
    {
      hide Slot, Window;
      sqTail := sqTailLocal;
      var i := 0;
      while calls[i].Interrupted?
        invariant 0 <= i < |calls|
        decreases |calls| - i
      {
        i := i + 1;
      }
      if calls[i].Failed? {
        return 0, false;
      }
      KernelEnter(calls[i].n);
      toSubmit := 0;
      return calls[i].n, true;
    }

    // ---- the completion queue ----

    /** The kernel posts a completion where there is room. */
    method KernelPost(c: Cqe)
      requires Sizes() && Submissions() && Completions() && postedCount - harvested < cqEntries
      modifies `cqTail, `postedCount, `posted, cqes
      ensures Submissions() && Completions()
      ensures posted == old(posted) + [c] && postedCount == old(postedCount) + 1
    {
      hide Slot, And;
      SlotOf(postedCount, cqBits);
      Next(postedCount, 1);
      WindowPush(cqes[..], harvested, postedCount, c);
      cqes[And(cqTail, cqMask)] := c;
      cqTail := Wrap(cqTail + 1);
      postedCount := postedCount + 1;
      posted := posted + [c];
    }

    lemma Room()
      requires Sizes() && Completions()
      ensures Wrap(cqTail - cqHead) == postedCount - harvested
    {
      Below32(cqBits);
      Distance(postedCount, harvested);
    }

    /** An operation completes. Its completion is posted if there is room and none is kept back; otherwise a
        kernel with NODROP keeps it back, and one without drops and counts it. */
    method KernelComplete(c: Cqe)
      requires Valid()
      modifies `cqTail, `postedCount, `posted, `completed, `backlog, `lost, `cqOverflow, cqes
      ensures Valid() && completed == old(completed) + [c] && Pending() == old(Pending()) && old(posted) <= posted
      ensures var room := old(|Ready()| < cqEntries && backlog == []);
              && Ready() == old(Ready()) + (if room then [c] else [])
              && backlog == old(backlog) + (if room || !noDrop then [] else [c])
              && lost == old(lost) + (if room || noDrop then 0 else 1)
    {
      hide Slot, Window;
      completed := completed + [c];
      Room();
      if backlog == [] && Wrap(cqTail - cqHead) < cqEntries {
        KernelPost(c);
      } else if noDrop {
        backlog := backlog + [c];
      } else {
        Next(lost, 1);
        lost := lost + 1;
        cqOverflow := Wrap(cqOverflow + 1);
      }
    }

    /** The kernel posts what it kept back, as far as there is room. */
    method KernelFlush()
      requires Valid()
      modifies `cqTail, `postedCount, `posted, `backlog, cqes
      ensures Valid() && Pending() == old(Pending())
      ensures Ready() + backlog == old(Ready() + backlog) && (backlog == [] || |Ready()| == cqEntries)
    {
      hide Slot, Window;
      Room();
      while backlog != [] && Wrap(cqTail - cqHead) < cqEntries
        invariant Wrap(cqTail - cqHead) == postedCount - harvested
        invariant Valid() && Pending() == old(Pending()) && Ready() + backlog == old(Ready() + backlog)
        decreases |backlog|
      {
        var c := backlog[0];
        KernelPost(c);
        backlog := backlog[1..];
        Room();
      }
    }

    /** If nothing was dropped, what was given back, what is ready and what is kept back are all
        completions there were, in order. A kernel with NODROP never drops. */
    lemma NothingLost()
      requires Valid()
      ensures lost == 0 ==> posted[..harvested] + Ready() + backlog == completed
      ensures noDrop ==> lost == 0
      ensures |completed| == harvested + |Ready()| + |backlog| + lost
    {
    }

    /** CQOverflow, compared with what it was: the completions dropped in between. */
    method NewlyLost(last: nat, ghost before: nat) returns (d: nat)
      requires Valid() && before <= lost && last == Wrap(before)
      ensures lost - before < TWO_32 ==> d == lost - before
    {
      d := Wrap(cqOverflow - last);
    }

    method CQReady() returns (n: nat)
      requires Valid()
      ensures n == |Ready()|
    {
      Below32(cqBits);
      Distance(postedCount, harvested);
      n := Wrap(cqTail - cqHeadLocal);
    }

    method PeekCQE(i: nat) returns (c: Cqe)
      requires Valid() && i < |Ready()|
      ensures c == Ready()[i]
    {
      hide Slot, And;
      SlotOf(harvested + i, cqBits);
      Next(harvested, i);
      c := cqes[And(Wrap(cqHeadLocal + i), cqMask)];
    }

    method CQAdvance(n: nat)
      requires Valid() && n <= |Ready()|
      modifies `cqHeadLocal, `cqHead, `harvested
      ensures Valid() && Ready() == old(Ready())[n..] && harvested == old(harvested) + n && Pending() == old(Pending())
    {
      hide Slot;
      Next(harvested, n);
      WindowDrop(cqes[..], harvested, postedCount, n);
      cqHeadLocal := Wrap(cqHeadLocal + n);
      cqHead := cqHeadLocal;
      harvested := harvested + n;
    }

    // ---- the event loop's use of the two queues ----

    /** An entry in the next slot, if there is one. */
    method Place(e: Sqe) returns (ok: bool)
      requires Valid()
      modifies `sqTailLocal, `toSubmit, `acquired, sqes, sqArray
      ensures Valid() && Ready() == old(Ready()) && Stranded() == old(Stranded()) && ok == (|old(Pending())| < sqEntries)
      ensures Pending() == if ok then old(Pending()) + [e] else old(Pending())
    {
      hide Slot, Window;
      var slot := GetSQE();
      if slot.Some? {
        Fill(slot.value, e);
      }
      return slot.Some?;
    }

    /** post: a slot is taken and filled, submitting whenever the queue is full, until that finds room;
        `outs` is how the submissions end, each taking at least one entry if it takes any it can. Whatever was
        there keeps its place, and exactly this entry is added at the end. Room is found by the first
        submission that succeeds; or never, if the whole queue is out of reach. */
    method Post(e: Sqe, outs: seq<Enter>) returns (ok: bool)
      requires Valid() && forall i :: 0 <= i < |outs| ==> Succeeds(outs[i], toSubmit)
      modifies this, sqes, sqArray
      ensures Valid() && Ready() == old(Ready()) && completed == old(completed)
      ensures taken + Pending() == old(taken + Pending()) + (if ok then [e] else [])
      ensures ok <==> old(|Pending()| < sqEntries || (toSubmit > 0 && exists i :: 0 <= i < |outs| && outs[i].Took?))
      ensures old(Stranded()) < sqEntries ==> Stranded() < sqEntries
      ensures !ok ==> Pending() == old(Pending()) && toSubmit == old(toSubmit)
    {
      hide Slot, Window;
      ok := Place(e);
      var k := 0;
      while !ok && k < |outs|
        invariant 0 <= k <= |outs| && Valid() && Ready() == old(Ready()) && completed == old(completed)
        invariant taken + Pending() == old(taken + Pending()) + (if ok then [e] else [])
        invariant !ok ==> toSubmit == old(toSubmit) && Pending() == old(Pending()) && |Pending()| == sqEntries
        invariant !ok ==> old(toSubmit) == 0 || forall i :: 0 <= i < k ==> !outs[i].Took?
        invariant ok ==> old(|Pending()| < sqEntries || (toSubmit > 0 && exists i :: 0 <= i < |outs| && outs[i].Took?))
        invariant old(Stranded()) < sqEntries ==> Stranded() < sqEntries
      {
        ok := Retry(e, outs[k]);
        k := k + 1;
      }
    }

    /** One submission of a full queue, and another try. */
    method Retry(e: Sqe, out: Enter) returns (ok: bool)
      requires Valid() && |Pending()| == sqEntries && Succeeds(out, toSubmit)
      modifies this, sqes, sqArray
      ensures Valid() && Ready() == old(Ready()) && completed == old(completed)
      ensures ok <==> out.Took? && old(toSubmit) > 0
      ensures taken + Pending() == old(taken + Pending()) + (if ok then [e] else [])
      ensures ok ==> Stranded() < sqEntries
      ensures !ok ==> toSubmit == old(toSubmit) && Pending() == old(Pending())
    {
      hide Slot, Window;
      var n, sent := Submit([out]);
      ok := Place(e);
    }

    /** One pass over the completions that were ready, while operations go on completing, any number before
        each step of the pass: each that was ready is seen once, in order, whatever is posted meanwhile,
        and is then given back. */
    method Harvest(late: seq<seq<Cqe>>) returns (seen: seq<Cqe>)
      requires Valid()
      modifies `cqHeadLocal, `cqHead, `harvested, `cqTail, `postedCount, `posted, `completed, `backlog, `lost, `cqOverflow, cqes
      ensures Valid() && Pending() == old(Pending())
      ensures seen == old(Ready()) && harvested == old(harvested) + |seen| && |posted| >= harvested
      ensures seen == posted[old(harvested)..harvested]
      ensures completed == old(completed) + Arrived(late, |seen| + 1)
    {
      hide Slot, Window, Arrived, Submissions, Accounted;
      var n := CQReady();
      var i := 0;
      seen := [];
      ArrivedNext(late, 0);
      while i < n
        invariant Valid() && harvested == old(harvested) && Pending() == old(Pending())
        invariant 0 <= i <= n == |old(Ready())| <= |Ready()| && Ready()[..n] == old(Ready())
        invariant seen == old(Ready())[..i]
        invariant completed == old(completed) + Arrived(late, i)
      {
        KernelCompletes(ArrivesAt(late, i));
        ArrivedNext(late, i);
        var c := PeekCQE(i);
        seen := seen + [c];
        i := i + 1;
      }
      KernelCompletes(ArrivesAt(late, i));
      ArrivedNext(late, i);
      CQAdvance(n);
    }

    /** Any number of completions. */
    method KernelCompletes(cs: seq<Cqe>)
      requires Valid()
      modifies `cqTail, `postedCount, `posted, `completed, `backlog, `lost, `cqOverflow, cqes
      ensures Valid() && Pending() == old(Pending()) && completed == old(completed) + cs
      ensures old(Ready()) <= Ready() && old(posted) <= posted
    {
      hide Slot, Window;
      var i := 0;
      while i < |cs|
        invariant 0 <= i <= |cs| && Valid() && Pending() == old(Pending()) && harvested == old(harvested)
        invariant completed == old(completed) + cs[..i]
        invariant old(Ready()) <= Ready() && old(posted) <= posted
      {
        KernelComplete(cs[i]);
        assert cs[..i + 1] == cs[..i] + [cs[i]];
        i := i + 1;
      }
    }
  }

  /** A successful call takes one of two entries: the other is left in the queue with nothing to submit, so the
      next call takes nothing. */
  method PartIsStranded(a: Sqe, b: Sqe) returns (q: Queues)
    ensures q.Valid() && q.Pending() == [b] && q.toSubmit == 0 && q.Stranded() == 1
  {
    q := new Queues(1, 1, 0, 0, true);
    assert q.sqEntries == 2;
    var okA := q.Place(a);
    var okB := q.Place(b);
    var n, ok := q.Submit([Took(1)]);
  }

  /** A queue all of whose entries are stranded: post finds no room, however often it submits. A call that
      succeeds and takes nothing brings it about. */
  method PostCanSpin(a: Sqe, e: Sqe, outs: seq<Enter>) returns (q: Queues, ok: bool)
    requires forall i :: 0 <= i < |outs| ==> Succeeds(outs[i], 0)
    ensures q.Valid() && !ok && q.Pending() == [a] && |q.Pending()| == q.sqEntries == q.Stranded()
  {
    q := new Queues(0, 1, 0, 0, true);
    assert q.sqEntries == 1;
    var placed := q.Place(a);
    var n, sent := q.Submit([Took(0)]);
    ok := q.Post(e, outs);
  }

  lemma ArrivedNext(late: seq<seq<Cqe>>, k: nat)
    ensures Arrived(late, 0) == [] && Arrived(late, k + 1) == Arrived(late, k) + ArrivesAt(late, k)
  {
  }

  /** The call is not broken off, and takes at least one entry if it succeeds and there is one to take. */
  predicate Succeeds(e: Enter, room: nat) {
    !e.Interrupted? && (e.Took? ==> e.n <= room && (room > 0 ==> e.n > 0))
  }
}
