/** The dial-target grid: one shared counter walks hosts and ports at once
    (research/gate/internal/hook/hook.go:68-140). */
module DialGrid {
  import opened Basics

  // ---- the cell of a counter value ----

  /** The host and port offset that counter value `n` selects among `t` hosts and `p` ports. */
  function Cell(n: nat, t: nat, p: nat): (c: (nat, nat))
    requires t > 0 && p > 0
    ensures c.0 < t && c.1 < p
  {
    (n % t, (n / t) % p)
  }

  /** The cells numbered row by row. */
  function Number(c: (nat, nat), t: nat): nat {
    c.0 + t * c.1
  }

  /** Counter values select the same cell exactly when they agree modulo the number of cells. */
  lemma CellNumber(n: nat, t: nat, p: nat)
    requires t > 0 && p > 0
    ensures t * p > 0 && Number(Cell(n, t, p), t) == n % (t * p)
  {
    hide Cell, Number;
    var a, b := n / t, n % t;
    var q, r := a / p, a % p;
    MulLess(t, r, p);
    Regrouped(n, t, p, a, b, q, r);
    DivMod(n, t * p, q, t * r + b);
    CellIs(n, t, p);
  }

  lemma CellIs(n: nat, t: nat, p: nat)
    requires t > 0 && p > 0
    ensures Number(Cell(n, t, p), t) == n % t + t * ((n / t) % p)
  {
  }

  lemma Regrouped(n: nat, t: nat, p: nat, a: nat, b: nat, q: nat, r: nat)
    requires n == t * a + b && a == p * q + r
    ensures n == (t * p) * q + (t * r + b)
  {
    assert t * (p * q + r) == (t * p) * q + t * r;
  }

  lemma NumberInjective(c: (nat, nat), d: (nat, nat), t: nat)
    requires c.0 < t && d.0 < t && Number(c, t) == Number(d, t)
    ensures c == d
  {
    DivMod(Number(c, t), t, c.1, c.0);
    DivMod(Number(d, t), t, d.1, d.0);
  }

  lemma NumberBound(c: (nat, nat), t: nat, p: nat)
    requires c.0 < t && c.1 < p
    ensures t * p > 0 && Number(c, t) < t * p
  {
    MulLess(t, c.1, p);
  }

  // ---- how often a cell is hit ----

  function Hit(n: nat, t: nat, p: nat, c: (nat, nat)): nat
    requires t > 0 && p > 0
  {
    if Cell(n, t, p) == c then 1 else 0
  }

  /** Hits of cell `c` by the `k` counter values from `from` on. */
  function Hits(from: nat, k: nat, t: nat, p: nat, c: (nat, nat)): nat
    requires t > 0 && p > 0
  {
    if k == 0 then 0 else Hits(from, k - 1, t, p, c) + Hit(from + k - 1, t, p, c)
  }

  /** How many numbers below `x` leave remainder `r` by `m`. */
  function Below(x: nat, r: nat, m: nat): nat
    requires m > 0
  {
    x / m + (if x % m > r then 1 else 0)
  }

  lemma BelowNext(x: nat, r: nat, m: nat)
    requires r < m
    ensures Below(x + 1, r, m) == Below(x, r, m) + (if x % m == r then 1 else 0)
  {
    var q, s := x / m, x % m;
    assert x == m * q + s;
    if s + 1 < m {
      DivMod(x + 1, m, q, s + 1);
    } else {
      assert x + 1 == m * (q + 1) + 0;
      DivMod(x + 1, m, q + 1, 0);
    }
  }

  lemma {:induction false} HitsAre(from: nat, k: nat, t: nat, p: nat, c: (nat, nat))
    requires c.0 < t && c.1 < p
    ensures t * p > 0 && Hits(from, k, t, p, c) == Below(from + k, Number(c, t), t * p) - Below(from, Number(c, t), t * p)
  {
    hide Below, Cell, Number;
    NumberBound(c, t, p);
    if k > 0 {
      var n := from + k - 1;
      HitsAre(from, k - 1, t, p, c);
      BelowNext(n, Number(c, t), t * p);
      CellNumber(n, t, p);
      if Number(Cell(n, t, p), t) == Number(c, t) {
        NumberInjective(Cell(n, t, p), c, t);
      }
    }
  }

  lemma Evenly(x: nat, y: nat, r: nat, s: nat, m: nat)
    requires x <= y && r < m && s < m
    ensures -1 <= (Below(y, r, m) - Below(x, r, m)) - (Below(y, s, m) - Below(x, s, m)) <= 1
  {
  }

  /** Over any run of consecutive counter values, two cells are hit equally often, give or take one. */
  lemma Fair(from: nat, k: nat, t: nat, p: nat, c: (nat, nat), d: (nat, nat))
    requires c.0 < t && c.1 < p && d.0 < t && d.1 < p
    ensures -1 <= Hits(from, k, t, p, c) - Hits(from, k, t, p, d) <= 1
  {
    HitsAre(from, k, t, p, c);
    HitsAre(from, k, t, p, d);
    NumberBound(c, t, p);
    NumberBound(d, t, p);
    Evenly(from, from + k, Number(c, t), Number(d, t), t * p);
  }

  lemma BelowShift(x: nat, r: nat, m: nat)
    requires m > 0
    ensures Below(x + m, r, m) == Below(x, r, m) + 1
  {
    var q, s := x / m, x % m;
    assert x + m == m * (q + 1) + s;
    DivMod(x + m, m, q + 1, s);
  }

  /** Over as many values as there are cells, every cell is hit exactly once. */
  lemma Bijection(from: nat, t: nat, p: nat, c: (nat, nat))
    requires c.0 < t && c.1 < p
    ensures Hits(from, t * p, t, p, c) == 1
  {
    hide Below, Number;
    HitsAre(from, t * p, t, p, c);
    BelowShift(from, Number(c, t), t * p);
  }

  // ---- the configuration that the Hook's goroutines share ----

  /** What one entry of the host list comes to: blank, not an address, or a host with or without its own
      base port. */
  datatype Entry = Blank | Malformed | Host(ip: string) | HostPort(ip: string, base: int)

  datatype Target = Target(ip: string, base: int)

  function Targets(es: seq<Entry>, port: int): seq<Target> {
    if es == [] then [] else
    Targets(es[..|es| - 1], port) +
    match es[|es| - 1]
    case Host(ip) => [Target(ip, port)]
    case HostPort(ip, base) => [Target(ip, base)]
    case _ => []
  }

  /** One target for each entry that is a host, in order, with its own base port or the common one. */
  lemma {:induction false} TargetOf(es: seq<Entry>, port: int, i: nat)
    requires i < |es| && (es[i].Host? || es[i].HostPort?)
    ensures var k := |Targets(es[..i], port)|;
            k < |Targets(es, port)|
            && Targets(es, port)[k] == Target(es[i].ip, if es[i].HostPort? then es[i].base else port)
  {
    var n := |es| - 1;
    if i < n {
      assert es[..n][..i] == es[..i];
      TargetOf(es[..n], port, i);
    }
  }

  lemma {:induction false} TargetCount(es: seq<Entry>, port: int)
    ensures |Targets(es, port)| == |multiset(es)| - Unusable(es)
  {
    if es != [] {
      TargetCount(es[..|es| - 1], port);
    }
  }

  /** Blank entries and those that are not an address. */
  function Unusable(es: seq<Entry>): nat {
    if es == [] then 0 else
    Unusable(es[..|es| - 1]) + if es[|es| - 1].Blank? || es[|es| - 1].Malformed? then 1 else 0
  }

  // ---- the addresses of the cells ----

  /** The address that counter value `n` selects among the targets, with `p` ports each. */
  function Address(ts: seq<Target>, p: nat, n: nat): (a: (string, int))
    requires |ts| > 0 && p > 0
  {
    var c := Cell(n, |ts|, p);
    (ts[c.0].ip, ts[c.0].base + c.1)
  }

  /** No two targets have an address in common. */
  predicate DisjointSpans(ts: seq<Target>, p: nat) {
    forall i, j :: 0 <= i < j < |ts| ==>
      ts[i].ip != ts[j].ip || ts[i].base + p <= ts[j].base || ts[j].base + p <= ts[i].base
  }

  /** Every address dialled is a host of the list and a port of its span, counted from its base; with disjoint spans it
      is the `off`-th port of the `i`-th host exactly for the counter values of that cell. */
  lemma AddressIff(ts: seq<Target>, p: nat, n: nat, i: nat, off: nat)
    requires |ts| > 0 && p > 0 && i < |ts| && off < p
    ensures var t := ts[n % |ts|]; Address(ts, p, n).0 == t.ip && t.base <= Address(ts, p, n).1 < t.base + p
    ensures DisjointSpans(ts, p) ==>
              (Address(ts, p, n) == (ts[i].ip, ts[i].base + off) <==> n % |ts| == i && (n / |ts|) % p == off)
  {
    var c := Cell(n, |ts|, p);
    assert Address(ts, p, n) == (ts[c.0].ip, ts[c.0].base + c.1);
  }

  /** Dials of address `a` by the `k` counter values from `from` on. */
  function DialsOf(ts: seq<Target>, p: nat, from: nat, k: nat, a: (string, int)): nat
    requires |ts| > 0 && p > 0
  {
    if k == 0 then 0 else DialsOf(ts, p, from, k - 1, a) + if Address(ts, p, from + k - 1) == a then 1 else 0
  }

  lemma {:induction false} DialsAreHits(ts: seq<Target>, p: nat, from: nat, k: nat, i: nat, off: nat)
    requires |ts| > 0 && p > 0 && i < |ts| && off < p && DisjointSpans(ts, p)
    ensures DialsOf(ts, p, from, k, (ts[i].ip, ts[i].base + off)) == Hits(from, k, |ts|, p, (i, off))
  {
    hide Address, DisjointSpans;
    if k > 0 {
      DialsAreHits(ts, p, from, k - 1, i, off);
      AddressIff(ts, p, from + k - 1, i, off);
    }
  }

  /** As many dials in a row as there are addresses reach every port of every host exactly once. */
  lemma EveryAddressOnce(ts: seq<Target>, p: nat, from: nat, i: nat, off: nat)
    requires |ts| > 0 && p > 0 && i < |ts| && off < p && DisjointSpans(ts, p)
    ensures DialsOf(ts, p, from, |ts| * p, (ts[i].ip, ts[i].base + off)) == 1
  {
    hide DialsOf, DisjointSpans, Hits;
    DialsAreHits(ts, p, from, |ts| * p, i, off);
    Bijection(from, |ts|, p, (i, off));
  }

  /** Over any number of dials in a row two addresses are dialled equally often, give or take one. */
  lemma FairAddresses(ts: seq<Target>, p: nat, from: nat, n: nat, i: nat, off: nat, j: nat, off': nat)
    requires |ts| > 0 && i < |ts| && off < p && j < |ts| && off' < p && DisjointSpans(ts, p)
    ensures -1 <= DialsOf(ts, p, from, n, (ts[i].ip, ts[i].base + off))
                  - DialsOf(ts, p, from, n, (ts[j].ip, ts[j].base + off')) <= 1
  {
    hide DialsOf, DisjointSpans, Hits;
    DialsAreHits(ts, p, from, n, i, off);
    DialsAreHits(ts, p, from, n, j, off');
    Fair(from, n, |ts|, p, (i, off), (j, off'));
  }

  class Config {
    const sinkIP: string
    const sinkPort: int
    const sinkPorts: int
    const sinkIPs: seq<Entry>
    var ready: bool
    var dialSeq: nat
    var targets: seq<Target>

    constructor (ip: string, port: int, ports: int, ips: seq<Entry>)
      ensures sinkIP == ip && sinkPort == port && sinkPorts == ports && sinkIPs == ips
      ensures !ready && dialSeq == 0 && targets == []
    {
      sinkIP, sinkPort, sinkPorts, sinkIPs := ip, port, ports, ips;
      ready, dialSeq, targets := false, 0, [];
    }

    /** The targets in list order, blanks left out; the single configured host if there are none; an
        error, with the list cut off there, at the first entry that is not an address. */
    method Init() returns (ok: bool)
      modifies this
      ensures ready && dialSeq == (if old(ready) then old(dialSeq) else 0)
      ensures ok <==> Malformed !in sinkIPs
      ensures ok ==> targets == if Targets(sinkIPs, sinkPort) == [] then [Target(sinkIP, sinkPort)] else Targets(sinkIPs, sinkPort)
      ensures ok ==> |targets| > 0
    {
      if !ready {
        dialSeq := 0;
        ready := true;
      }
      targets := [];
      var i := 0;
      while i < |sinkIPs|
        invariant 0 <= i <= |sinkIPs| && targets == Targets(sinkIPs[..i], sinkPort) && Malformed !in sinkIPs[..i]
        invariant ready && dialSeq == (if old(ready) then old(dialSeq) else 0)
      {
        assert sinkIPs[..i + 1][..i] == sinkIPs[..i];
        match sinkIPs[i] {
          case Blank =>
          case Malformed => return false;
          case Host(ip) => targets := targets + [Target(ip, sinkPort)];
          case HostPort(ip, base) => targets := targets + [Target(ip, base)];
        }
        i := i + 1;
      }
      assert sinkIPs[..i] == sinkIPs;
      if |targets| == 0 {
        targets := [Target(sinkIP, sinkPort)];
      }
      return true;
    }

    function Ports(): (p: nat)
      ensures if sinkPorts >= 1 then p == sinkPorts else p == 1
    {
      if sinkPorts < 1 then 1 else sinkPorts
    }

    /** One dial's destination. The counter moves by one; the host is picked by its new value, and the port is the
        host's base plus an offset that moves on each time all hosts have been picked. With a single address, or
        before Init, the counter stays. */
    method SinkTargetFor() returns (ip: string, port: int)
      modifies `dialSeq
      ensures targets == [] ==> (ip, port) == (sinkIP, sinkPort) && dialSeq == old(dialSeq)
      ensures targets != [] && (!ready || |targets| * Ports() == 1) ==>
                ip == targets[0].ip && port == targets[0].base && dialSeq == old(dialSeq)
      ensures targets != [] && ready && |targets| * Ports() > 1 ==>
                && dialSeq == old(dialSeq) + 1 && var t := targets[dialSeq % |targets|];
                && ip == t.ip && port == t.base + (dialSeq / |targets|) % Ports()
      ensures targets != [] && ready && |targets| * Ports() > 1 ==> (ip, port) == Address(targets, Ports(), dialSeq)
    {
      var ts := targets;
      if |ts| == 0 {
        return sinkIP, sinkPort;
      }
      var nports := sinkPorts;
      if nports < 1 {
        nports := 1;
      }
      OneCell(|ts|, nports);
      if !ready || (|ts| == 1 && nports == 1) {
        return ts[0].ip, ts[0].base;
      }
      dialSeq := dialSeq + 1;
      var n := dialSeq;
      var t := ts[n % |ts|];
      return t.ip, t.base + (n / |ts|) % nports;
    }
  }

  lemma OneCell(t: nat, p: nat)
    requires t > 0 && p > 0
    ensures t * p == 1 <==> t == 1 && p == 1
    ensures t * p > 0
  {
    if t > 1 {
      MulLess(p, 1, t);
    } else if p > 1 {
      MulLess(t, 1, p);
    }
  }

  // ---- any interleaving of dials ----

  /** Dials by many goroutines: `next` is the counter, `held` the values taken by goroutines that have
      not dialled yet, `dialled` the values whose cell was dialled, in whatever order. */
  datatype Dials = Dials(next: nat, held: multiset<nat>, dialled: multiset<nat>)

  /** A goroutine takes the next value, or dials the cell of the value it took. */
  datatype Act = TakeNext | Dial(n: nat)

  predicate CanAct(s: Dials, a: Act) {
    a.Dial? ==> a.n in s.held
  }

  function Do(s: Dials, a: Act): Dials {
    match a
    case TakeNext => s.(next := s.next + 1, held := s.held + multiset{s.next + 1})
    case Dial(n) => s.(held := s.held - multiset{n}, dialled := s.dialled + multiset{n})
  }

  predicate CanRun(s: Dials, acts: seq<Act>)
    decreases |acts|
  {
    acts == [] || (CanAct(s, acts[0]) && CanRun(Do(s, acts[0]), acts[1..]))
  }

  function After(s: Dials, acts: seq<Act>): Dials
    requires CanRun(s, acts)
    decreases |acts|
  {
    if acts == [] then s else After(Do(s, acts[0]), acts[1..])
  }

  /** Since the counter stood at `start`, every value up to now was taken once, and is either held or
      dialled. */
  ghost predicate TakenOnce(start: nat, s: Dials) {
    start <= s.next && forall n: nat :: s.held[n] + s.dialled[n] == if start < n <= s.next then 1 else 0
  }

  lemma {:induction false} ActsKeep(start: nat, s: Dials, acts: seq<Act>)
    requires TakenOnce(start, s) && CanRun(s, acts)
    ensures TakenOnce(start, After(s, acts))
    decreases |acts|
  {
    if acts != [] {
      ActsKeep(start, Do(s, acts[0]), acts[1..]);
    }
  }

  /** How often cell `c` occurs among the values of `m` from `from` up to `from + k`. */
  function At(m: multiset<nat>, from: nat, k: nat, t: nat, p: nat, c: (nat, nat)): nat
    requires t > 0 && p > 0
  {
    if k == 0 then 0 else At(m, from, k - 1, t, p, c) + (if Cell(from + k - 1, t, p) == c then m[from + k - 1] else 0)
  }

  lemma {:induction false} HeldOrDialled(start: nat, s: Dials, k: nat, t: nat, p: nat, c: (nat, nat))
    requires t > 0 && p > 0 && TakenOnce(start, s) && k <= s.next - start
    ensures At(s.held, start + 1, k, t, p, c) + At(s.dialled, start + 1, k, t, p, c) == Hits(start + 1, k, t, p, c)
  {
    hide Cell;
    if k > 0 {
      HeldOrDialled(start, s, k - 1, t, p, c);
    }
  }

  lemma {:induction false} NoneAt(from: nat, k: nat, t: nat, p: nat, c: (nat, nat))
    requires t > 0 && p > 0
    ensures At(multiset{}, from, k, t, p, c) == 0
  {
    if k > 0 {
      NoneAt(from, k - 1, t, p, c);
    }
  }

  /** However the goroutines' steps interleave, the dials of two cells differ by at most one, give or
      take the dials still under way; and by at most one when none is. */
  lemma FairDials(start: nat, acts: seq<Act>, t: nat, p: nat, c: (nat, nat), d: (nat, nat))
    requires CanRun(Dials(start, multiset{}, multiset{}), acts)
    requires c.0 < t && c.1 < p && d.0 < t && d.1 < p
    ensures var s := After(Dials(start, multiset{}, multiset{}), acts); var k := s.next - start;
            && k >= 0
            && var x, y := At(s.dialled, start + 1, k, t, p, c), At(s.dialled, start + 1, k, t, p, d);
            && -1 - At(s.held, start + 1, k, t, p, c) <= x - y <= 1 + At(s.held, start + 1, k, t, p, d)
            && (s.held == multiset{} ==> -1 <= x - y <= 1)
  {
    hide Cell, Hits;
    var s0 := Dials(start, multiset{}, multiset{});
    var s := After(s0, acts);
    ActsKeep(start, s0, acts);
    var k := s.next - start;
    HeldOrDialled(start, s, k, t, p, c);
    HeldOrDialled(start, s, k, t, p, d);
    Fair(start + 1, k, t, p, c, d);
    NoneAt(start + 1, k, t, p, c);
    NoneAt(start + 1, k, t, p, d);
  }

  /** How often address `a` occurs among the values of `m` from `from` up to `from + k`. */
  function AddressAt(m: multiset<nat>, from: nat, k: nat, ts: seq<Target>, p: nat, a: (string, int)): nat
    requires |ts| > 0 && p > 0
  {
    if k == 0 then 0 else
    AddressAt(m, from, k - 1, ts, p, a) + (if Address(ts, p, from + k - 1) == a then m[from + k - 1] else 0)
  }

  lemma {:induction false} AddressAtCell(m: multiset<nat>, from: nat, k: nat, ts: seq<Target>, p: nat, i: nat, off: nat)
    requires i < |ts| && off < p && DisjointSpans(ts, p)
    ensures AddressAt(m, from, k, ts, p, (ts[i].ip, ts[i].base + off)) == At(m, from, k, |ts|, p, (i, off))
  {
    hide Address, DisjointSpans;
    if k > 0 {
      AddressAtCell(m, from, k - 1, ts, p, i, off);
      AddressIff(ts, p, from + k - 1, i, off);
    }
  }

  /** The same of addresses: however the goroutines interleave, once none is under way any two addresses were dialled
      equally often, give or take one. */
  lemma FairAddressDials(start: nat, acts: seq<Act>, ts: seq<Target>, p: nat, i: nat, off: nat, j: nat, off': nat)
    requires CanRun(Dials(start, multiset{}, multiset{}), acts)
    requires i < |ts| && off < p && j < |ts| && off' < p && DisjointSpans(ts, p)
    ensures var s := After(Dials(start, multiset{}, multiset{}), acts); var k := s.next - start;
            && k >= 0
            && (s.held == multiset{} ==>
                  -1 <= AddressAt(s.dialled, start + 1, k, ts, p, (ts[i].ip, ts[i].base + off))
                        - AddressAt(s.dialled, start + 1, k, ts, p, (ts[j].ip, ts[j].base + off')) <= 1)
  {
    hide AddressAt, At, DisjointSpans;
    var s := After(Dials(start, multiset{}, multiset{}), acts);
    FairDials(start, acts, |ts|, p, (i, off), (j, off'));
    AddressAtCell(s.dialled, start + 1, s.next - start, ts, p, i, off);
    AddressAtCell(s.dialled, start + 1, s.next - start, ts, p, j, off');
  }
}
