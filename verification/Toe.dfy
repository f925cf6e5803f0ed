/** Shared vocabulary of the TCP offload engine: the fixed-width integers of `ap_uint`,
    the session states and the constants of toe.hpp. An `ap_uint` expression widens, so
    every truncation on assignment is written as an explicit remainder. */
module Toe {

  type Byte = x: int | 0 <= x < 0x100
  type U16 = x: int | 0 <= x < 0x1_0000
  type U32 = x: int | 0 <= x < 0x1_0000_0000

  /** toe.hpp: the number of entries of every per-session table. */
  const MAX_SESSIONS: nat := 10000

  /** toe.hpp: the only segment size the TX engine uses. */
  const MSS: nat := 1460

  /** The size of one session's RX or TX ring in the external memory. */
  const RING: nat := 0x1_0000

  type SessionId = x: nat | x < MAX_SESSIONS

  datatype Option<+T> = None | Some(value: T)

  /** LISTEN is merged into CLOSED and CLOSE_WAIT is not used. */
  datatype SessionState =
    | CLOSED | SYN_SENT | SYN_RECEIVED | ESTABLISHED | FIN_WAIT_1
    | FIN_WAIT_2 | CLOSING | TIME_WAIT | LAST_ACK

  datatype EventType = TX | RT | ACK | SYN | SYN_ACK | FIN | RST | ACK_NODELAY

  /** The transitions of section 3.3.2 of RFC 9293 that `rxTcpFSM` may write, with LISTEN
      merged into CLOSED: staying put, an abort, and the arrows taken on a segment. */
  predicate RxEdge(old_: SessionState, new_: SessionState) {
    || new_ == old_
    || new_ == CLOSED
    || (old_ == CLOSED && new_ == SYN_RECEIVED)
    || (old_ == SYN_SENT && (new_ == SYN_RECEIVED || new_ == ESTABLISHED))
    || (old_ == SYN_RECEIVED && new_ == ESTABLISHED)
    || (old_ == ESTABLISHED && new_ == LAST_ACK)
    || ((old_ == FIN_WAIT_1 || old_ == FIN_WAIT_2) && (new_ == CLOSING || new_ == TIME_WAIT))
    || (old_ == CLOSING && new_ == TIME_WAIT)
  }

  /** The transitions of a close request of the application. */
  predicate AppEdge(old_: SessionState, new_: SessionState) {
    new_ == if old_ == ESTABLISHED || old_ == FIN_WAIT_1 || old_ == FIN_WAIT_2 then FIN_WAIT_1 else old_
  }

  // ---------------------------------------------------------------- shared FIFOs

  /** A FIFO shared by the sessions. Where the hardware's words do not carry the session, their
      reader knows it. */
  type Shared<T> = seq<(SessionId, T)>

  /** What a shared FIFO holds for one session. */
  function Of<T>(q: Shared<T>, i: SessionId): seq<T> {
    if q == [] then [] else (if q[0].0 == i then [q[0].1] else []) + Of(q[1..], i)
  }

  lemma {:induction false} OfPush<T>(q: Shared<T>, id: SessionId, x: T, i: SessionId)
    ensures Of(q + [(id, x)], i) == Of(q, i) + if id == i then [x] else []
  {
    if q == [] {
    } else {
      assert (q + [(id, x)])[1..] == q[1..] + [(id, x)];
      OfPush(q[1..], id, x, i);
    }
  }

  /** The state after `n` steps. */
  function Iterate<S>(step: S -> S, s: S, n: nat): S
    decreases n, s
  {
    if n == 0 then s else Iterate(step, step(s), n - 1)
  }

  lemma {:induction false} IterateAdd<S>(step: S -> S, s: S, m: nat, n: nat)
    ensures Iterate(step, s, m + n) == Iterate(step, Iterate(step, s, m), n)
    decreases m
  {
    if m > 0 { IterateAdd(step, step(s), m - 1, n); }
  }
}
