/** The user_data word of a ring operation: a connection id and an op code (flashrelay/worker.go:23-41). */
module UserData {

  const TWO_56: nat := 0x100_0000_0000_0000
  const TWO_64: nat := 0x1_0000_0000_0000_0000

  const OP_ACCEPT: nat := 1
  const OP_EVENTFD: nat := 2
  const OP_RECV_REQ: nat := 3
  const OP_REPLY_CLIENT: nat := 4
  const OP_REPLY_MORE: nat := 5
  const OP_SEND_UP: nat := 6
  const OP_REJECT_SEND: nat := 7
  const OP_C2U_RECV: nat := 8
  const OP_C2U_SEND: nat := 9
  const OP_U2C_RECV: nat := 10
  const OP_U2C_SEND: nat := 11
  const OP_CLOSE: nat := 12
  const OP_TIMEOUT: nat := 13

  /** `id << 8 | op` on 64-bit words: the low byte of the shifted id is free for the op code. */
  function Ud(id: nat, op: nat): (u: nat)
    requires id < TWO_64 && op < 256
    ensures u < TWO_64
  {
    (id * 256) % TWO_64 + op
  }

  function Unpack(u: nat): (nat, nat) {
    (u / 256, u % 256)
  }

  /** The op code always comes back; the id comes back exactly when it is below 2^56. */
  lemma RoundTrip(id: nat, op: nat)
    requires id < TWO_64 && op < 256
    ensures Unpack(Ud(id, op)).1 == op
    ensures Unpack(Ud(id, op)).0 == id % TWO_56
    ensures Unpack(Ud(id, op)) == (id, op) <==> id < TWO_56
  {
    var q, r := id / TWO_56, id % TWO_56;
    assert id * 256 == q * TWO_64 + r * 256;
    assert (id * 256) % TWO_64 == r * 256;
  }

  /** Below 2^56 no two operations share a word, so a completion names one connection and one op. */
  lemma Injective(id: nat, op: nat, id': nat, op': nat)
    requires id < TWO_56 && id' < TWO_56 && op < 256 && op' < 256
    ensures Ud(id, op) == Ud(id', op') <==> id == id' && op == op'
  {
    RoundTrip(id, op);
    RoundTrip(id', op');
  }
}
