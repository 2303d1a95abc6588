/** Values shared by the model of the relay engine (flashrelay/worker.go, flashrelay/flashrelay.go). */
module RelayTypes {

  type byte = x: int | 0 <= x < 256

  /** What a Hook answers; the fields are read in the order reject, more, upstreamFD. */
  datatype Decision = Decision(upstreamFD: int, reply: seq<byte>, reject: bool, more: bool, consumed: int)

  /** The part of the configuration that the event loop reads. `idleTicks` is the idle timeout in
      100 ms ticks, 0 when idle closing is off. */
  datatype Cfg = Cfg(initialReqLen: nat, maxReqLen: nat, bufSize: nat, maxConns: nat, acceptBatch: nat, idleTicks: nat)

  /** What Config.defaults establishes about a configuration. */
  predicate GoodCfg(cfg: Cfg) {
    && 1 <= cfg.initialReqLen <= cfg.maxReqLen
    && 1 <= cfg.bufSize
    && 1 <= cfg.maxConns
    && 1 <= cfg.acceptBatch
  }

  /** The per-connection data operations of the op enumeration; closes are kept apart. */
  datatype Kind = RecvReq | ReplyClient | ReplyMore | SendUp | RejectSend | C2URecv | C2USend | U2CRecv | U2CSend

  /** An operation handed to the kernel and not yet harvested: a send of `data`, or a receive of at
      most `room` bytes. */
  datatype Flight = Flight(kind: Kind, fd: int, data: seq<byte>, room: nat)

  /** The fields of a conn. */
  datatype Fields = Fields(
    clientFD: int, upstreamFD: int,
    reqBuf: seq<byte>, reqN: nat, initSent: nat,
    replyBuf: seq<byte>, replyOff: nat, replyEnd: nat,
    closing: bool, closesLeft: int,
    relayStarted: bool, counted: bool,
    lastTick: nat,
    c2uBuf: seq<byte>, u2cBuf: seq<byte>,
    c2uOff: nat, c2uEnd: nat, u2cOff: nat, u2cEnd: nat,
    clientReadDone: bool, upstreamReadDone: bool)

  /** What the outside world has seen of one connection, and what has been charged for it.
      `clientIn`/`upIn` are the bytes received from the two peers, `upOut`/`clientOut` the bytes the
      two peers' sockets took, `replied` every Hook reply scheduled for the client, in order;
      `seen` lists the requests the Hook was given. `again` counts idle charges on top of an
      earlier charge. */
  datatype Hist = Hist(
    clientIn: seq<byte>, upOut: seq<byte>, upIn: seq<byte>, clientOut: seq<byte>, replied: seq<byte>,
    decided: bool, consumed: nat, seen: seq<seq<byte>>,
    shutUp: nat, shutClient: nat,
    completed: nat, rejected: nat, idle: nat, errors: nat, again: nat,
    bytesUp: nat, bytesDown: nat)

  /** One accepted connection together with everything outstanding for it: data operations in
      flight, closes in flight (`closes`), closes the kernel has yet to carry out (`unclosed`),
      requests at the Hook pool (`jobs`) and results not yet drained (`results`).
      `mapped` says whether the connection is in the worker's map. */
  datatype Session = Session(
    c: Fields, mapped: bool,
    flights: multiset<Flight>, closes: multiset<int>, unclosed: multiset<int>,
    jobs: seq<seq<byte>>, results: seq<Decision>,
    h: Hist)

  /** `b[i:j]` where that is in range. */
  function Slice(b: seq<byte>, i: nat, j: nat): seq<byte> {
    if i <= j <= |b| then b[i..j] else []
  }

  /** `b` after the kernel has stored `d` at offset `at`, where that is in range. */
  function Stored(b: seq<byte>, at: nat, d: seq<byte>): seq<byte> {
    if at + |d| <= |b| then b[..at] + d + b[at + |d|..] else b
  }

  function Zeros(n: nat): seq<byte> {
    seq(n, i => 0)
  }
}
