/** state_table.cpp with its two locking clients.

    A client reads a session's state, which locks the session against the other client and
    the timer, and gives the lock back with the write that follows. A request that meets
    the other client's lock is parked until the lock is gone. The state is the whole
    subsystem: the static variables of `state_table`, the FIFOs around it, and the phase of
    `rxTcpFSM` and of `tx_app_if`. */
module StateTable {
  import opened Toe

  /** toe.cpp: the depth of every FIFO around the state table. */
  const DEPTH: nat := 2

  /** `rxTcpFSM`, and the close requests of `tx_app_if`. */
  datatype Client = RxEngine | TxAppIf

  datatype Query = Query(id: SessionId, state: SessionState, write: bool)

  datatype Phase = Idle | Awaiting(id: SessionId)

  /** One client's side of the table: its request and reply FIFOs, the parked request, the
      lock, the client's own phase and the last state it was told. */
  datatype Port = Port(
    req: seq<Query>, rsp: seq<SessionState>,
    access: Query, wait: bool,
    id: SessionId, locked: bool,
    phase: Phase, seen: SessionState)

  type Table = t: seq<SessionState> | |t| == MAX_SESSIONS witness seq(MAX_SESSIONS, _ => CLOSED)

  datatype Sys = Sys(
    table: Table, tx: Port, rx: Port,
    closeId: SessionId, closeWait: bool, timerReq: seq<SessionId>,
    appReq: seq<SessionId>, appRsp: seq<SessionState>,
    released: seq<SessionId>)

  /** One scheduling step: a clock tick of `state_table`, a step of a client, or the
      environment filling or draining a FIFO. */
  datatype Action =
    | Tick
    | RxLoad(id: SessionId)
    | RxTransition(next: SessionState)
    | AppOpen(id: SessionId)
    | AppClose(id: SessionId)
    | AppCloseReply
    | AppQuery(id: SessionId)
    | AppQueryReply
    | TimerRelease(id: SessionId)
    | Released

  predicate Full<T>(fifo: seq<T>) {
    |fifo| >= DEPTH
  }

  // ---------------------------------------------------------------- state_table

  function Fetch(p: Port): Port
    requires p.req != []
  {
    p.(access := p.req[0], req := p.req[1..])
  }

  /** Serving a request: a read answers and locks, a write gives the lock back. */
  function Serve(p: Port, t: Table): Port {
    if p.access.write then p.(locked := false)
    else p.(rsp := p.rsp + [t[p.access.id]], id := p.access.id, locked := true)
  }

  function Written(p: Port, t: Table): Table {
    if p.access.write then t[p.access.id := p.access.state] else t
  }

  predicate Holds(p: Port, id: SessionId) {
    p.locked && p.id == id
  }

  function ServeTx(s: Sys): Sys {
    s.(tx := Serve(s.tx, s.table), table := Written(s.tx, s.table))
  }

  /** The RX engine's write of CLOSED also hands the session to the lookup controller. */
  function ServeRx(s: Sys): Sys {
    s.(rx := Serve(s.rx, s.table), table := Written(s.rx, s.table),
       released := if s.rx.access.write && s.rx.access.state == CLOSED
                   then s.released + [s.rx.access.id] else s.released)
  }

  function ServeTimer(s: Sys): Sys {
    s.(table := s.table[s.closeId := CLOSED], released := s.released + [s.closeId])
  }

  predicate CloseBlocked(s: Sys) {
    Holds(s.rx, s.closeId) || Holds(s.tx, s.closeId)
  }

  function FetchTx(s: Sys): Sys
    requires s.tx.req != []
  {
    var r := s.(tx := Fetch(s.tx));
    if Holds(r.rx, r.tx.access.id) then r.(tx := r.tx.(wait := true)) else ServeTx(r)
  }

  function FetchRx(s: Sys): Sys
    requires s.rx.req != []
  {
    var r := s.(rx := Fetch(s.rx));
    if Holds(r.tx, r.rx.access.id) then r.(rx := r.rx.(wait := true)) else ServeRx(r)
  }

  function FetchTimer(s: Sys): Sys
    requires s.timerReq != []
  {
    var r := s.(closeId := s.timerReq[0], timerReq := s.timerReq[1..]);
    if CloseBlocked(r) then r.(closeWait := true) else ServeTimer(r)
  }

  function ReserveTx(s: Sys): Sys {
    if Holds(s.rx, s.tx.access.id) then s
    else var r := ServeTx(s); r.(tx := r.tx.(wait := false))
  }

  function ReserveRx(s: Sys): Sys {
    if Holds(s.tx, s.rx.access.id) then s
    else var r := ServeRx(s); r.(rx := r.rx.(wait := false))
  }

  /** The branches of `state_table`: take a new request, or retry a parked one. */
  datatype Branch = TakeTx | TakeApp | TakeRx | TakeTimer | RetryTx | RetryRx | RetryTimer | Pause

  /** The branch that a call takes, in priority order. */
  function Choose(s: Sys): (b: Branch)
    ensures b == TakeTx ==> s.tx.req != []
    ensures b == TakeApp ==> s.appReq != []
    ensures b == TakeRx ==> s.rx.req != []
    ensures b == TakeTimer ==> s.timerReq != []
  {
    if s.tx.req != [] && !Full(s.tx.rsp) && !s.tx.wait then TakeTx
    else if s.appReq != [] && !Full(s.appRsp) then TakeApp
    else if s.rx.req != [] && !Full(s.rx.rsp) && !Full(s.released) && !s.rx.wait then TakeRx
    else if s.timerReq != [] && !Full(s.released) && !s.closeWait then TakeTimer
    else if s.tx.wait && !Full(s.tx.rsp) then RetryTx
    else if s.rx.wait && !Full(s.rx.rsp) && !Full(s.released) then RetryRx
    else if s.closeWait && !Full(s.released) then RetryTimer
    else Pause
  }

  /** One call of `state_table`. */
  function TableTick(s: Sys): Sys {
    match Choose(s)
    case TakeTx => FetchTx(s)
    case TakeApp => s.(appReq := s.appReq[1..], appRsp := s.appRsp + [s.table[s.appReq[0]]])
    case TakeRx => FetchRx(s)
    case TakeTimer => FetchTimer(s)
    case RetryTx => ReserveTx(s)
    case RetryRx => ReserveRx(s)
    case RetryTimer => if CloseBlocked(s) then s else ServeTimer(s).(closeWait := false)
    case Pause => s
  }

  // ---------------------------------------------------------------- the clients

  function Ask(p: Port, id: SessionId): Port {
    p.(req := p.req + [Query(id, CLOSED, false)], phase := Awaiting(id))
  }

  function Answer(p: Port, next: SessionState): Port
    requires p.phase.Awaiting? && p.rsp != []
  {
    p.(seen := p.rsp[0], rsp := p.rsp[1..], req := p.req + [Query(p.phase.id, next, true)], phase := Idle)
  }

  /** A write without a read before it: `tx_app_if` opening a connection. */
  function Post(p: Port, id: SessionId, next: SessionState): Port {
    p.(req := p.req + [Query(id, next, true)])
  }

  predicate CanAsk(p: Port) {
    p.phase == Idle && !Full(p.req)
  }

  predicate CanAnswer(p: Port) {
    p.phase.Awaiting? && p.rsp != [] && !Full(p.req)
  }

  /** What `tx_app_if` writes back when a close request found the session in `v`. */
  function CloseState(v: SessionState): SessionState {
    if v == ESTABLISHED || v == FIN_WAIT_2 || v == FIN_WAIT_1 then FIN_WAIT_1 else v
  }

  function OpenStep(s: Sys, id: SessionId): Sys {
    if CanAsk(s.tx) then s.(tx := Post(s.tx, id, SYN_SENT)) else s
  }

  function CloseStep(s: Sys, id: SessionId): Sys {
    if CanAsk(s.tx) then s.(tx := Ask(s.tx, id)) else s
  }

  function CloseReplyStep(s: Sys): Sys {
    if CanAnswer(s.tx) then s.(tx := Answer(s.tx, CloseState(s.tx.rsp[0]))) else s
  }

  /** One step of the subsystem; an action whose guard fails changes nothing. The RX engine
      may write any state that `RxEdge` allows after the one it read. */
  function Step(s: Sys, a: Action): Sys {
    match a
    case Tick => TableTick(s)
    case RxLoad(id) => if CanAsk(s.rx) then s.(rx := Ask(s.rx, id)) else s
    case RxTransition(next) =>
      if CanAnswer(s.rx) && RxEdge(s.rx.rsp[0], next) then s.(rx := Answer(s.rx, next)) else s
    case AppOpen(id) => OpenStep(s, id)
    case AppClose(id) => CloseStep(s, id)
    case AppCloseReply => CloseReplyStep(s)
    case AppQuery(id) => if Full(s.appReq) then s else s.(appReq := s.appReq + [id])
    case AppQueryReply => if s.appRsp == [] then s else s.(appRsp := s.appRsp[1..])
    case TimerRelease(id) => if Full(s.timerReq) then s else s.(timerReq := s.timerReq + [id])
    case Released => if s.released == [] then s else s.(released := s.released[1..])
  }

  predicate Init(s: Sys) {
    && (forall i :: 0 <= i < MAX_SESSIONS ==> s.table[i] == CLOSED)
    && InitPort(s.tx) && InitPort(s.rx)
    && !s.closeWait && s.timerReq == [] && s.appReq == [] && s.appRsp == [] && s.released == []
  }

  predicate InitPort(p: Port) {
    p.req == [] && p.rsp == [] && !p.wait && !p.locked && p.phase == Idle
  }

  // ---------------------------------------------------------------- the lock protocol

  /** The requests of a client that the table has not served yet, oldest first. */
  function Pending(p: Port): seq<Query> {
    (if p.wait then [p.access] else []) + p.req
  }

  /** From the `k`-th to the `n`-th, the requests are the writes of opening connections. */
  predicate Opens(ops: seq<Query>, k: nat, n: nat) {
    k <= n <= |ops| && forall i :: k <= i < n ==> ops[i].write && ops[i].state == SYN_SENT
  }

  predicate Allowed(c: Client, old_: SessionState, new_: SessionState) {
    if c == RxEngine then RxEdge(old_, new_) else AppEdge(old_, new_)
  }

  /** Whether the client's read is still waiting to be served. */
  predicate ReadPending(p: Port) {
    p.phase.Awaiting? && p.rsp == []
  }

  /** The holder of a lock that already has its answer read the session's present value,
      and its next request is the write that answers that read. */
  predicate HolderInv(c: Client, p: Port, t: Table, ops: seq<Query>, n: nat) {
    && n > 0 && n <= |ops| && ops[0].write && ops[0].id == p.id
    && p.seen == t[p.id] && Allowed(c, p.seen, ops[0].state)
  }

  /** The number of pending requests, at most one, that answer the read of a held lock. */
  function Answering(p: Port): nat {
    if p.locked && p.rsp == [] then 1 else 0
  }

  /** The lock protocol of one port, whose pending requests are `ops`. */
  predicate Protocol(c: Client, p: Port, t: Table, ops: seq<Query>) {
    var n := if ReadPending(p) then |ops| - 1 else |ops|;
    && (p.wait ==> !p.locked)
    && n >= 0 && Opens(ops, Answering(p), n)
    && (ReadPending(p) ==> ops[n] == Query(p.phase.id, CLOSED, false))
    && (p.phase == Idle ==> p.rsp == [])
    && (p.rsp != [] ==> ops == [] && p.locked && p.id == p.phase.id && p.rsp == [t[p.id]])
    && (p.rsp == [] && p.locked ==> HolderInv(c, p, t, ops, n))
    && (c == RxEngine ==> n == Answering(p))
  }

  predicate PortInv(c: Client, p: Port, t: Table) {
    Protocol(c, p, t, Pending(p))
  }

  predicate Inv(s: Sys) {
    && PortInv(TxAppIf, s.tx, s.table) && PortInv(RxEngine, s.rx, s.table)
    && !(s.tx.locked && s.rx.locked && s.tx.id == s.rx.id)
    && !(s.tx.wait && s.rx.wait)
  }

  lemma InitInv(s: Sys)
    requires Init(s)
    ensures Inv(s)
  {
  }

  /** A port does not notice a write to a session it has not locked. */
  lemma PortFrame(c: Client, p: Port, t: Table, t': Table)
    requires PortInv(c, p, t)
    requires p.locked ==> t'[p.id] == t[p.id]
    ensures PortInv(c, p, t')
  {
  }

  /** The port with its oldest pending request, parked or queued, ready to be served. */
  function Head(p: Port): Port
    requires Pending(p) != []
  {
    if p.wait then p.(wait := false) else Fetch(p)
  }

  lemma HeadPending(p: Port)
    requires Pending(p) != []
    ensures Head(p).access == Pending(p)[0] && Pending(Head(p)) == Pending(p)[1..]
    ensures !p.wait ==> Pending(Fetch(p).(wait := true)) == Pending(p)
  {
    assert !p.wait ==> [p.req[0]] + p.req[1..] == p.req;
  }

  /** The oldest request of a client that holds a lock is the write that gives it back. */
  lemma HolderWrites(c: Client, p: Port, t: Table)
    requires PortInv(c, p, t) && p.locked && Pending(p) != []
    ensures var q := Pending(p)[0];
            q.write && q.id == p.id && p.seen == t[q.id] && Allowed(c, t[q.id], q.state)
  {
  }

  /** Dropping the oldest pending write keeps the shape of what follows it. */
  lemma OpensAfter(ops: seq<Query>, k: nat, n: nat)
    requires 0 < n && k <= 1 && Opens(ops, k, n)
    ensures Opens(ops[1..], 0, n - 1)
    ensures n < |ops| ==> ops[1..][n - 1] == ops[n]
  {
  }

  lemma Unlocked(c: Client, p: Port, t: Table, ops: seq<Query>, t': Table)
    requires Protocol(c, p, t, ops) && ops != [] && ops[0].write
    ensures Protocol(c, p.(wait := false, locked := false), t', ops[1..])
  {
    assert p.rsp == [];
    OpensAfter(ops, Answering(p), if ReadPending(p) then |ops| - 1 else |ops|);
  }

  lemma ServedWrite(c: Client, p: Port, t: Table)
    requires PortInv(c, p, t) && Pending(p) != [] && Pending(p)[0].write
    ensures PortInv(c, Serve(Head(p), t), Written(Head(p), t))
  {
    HeadPending(p);
    var r, ops, q := Serve(Head(p), t), Pending(p), p.(wait := false, locked := false);
    assert Pending(r) == ops[1..];
    Unlocked(c, p, t, ops, Written(Head(p), t));
    assert q.phase == r.phase && q.rsp == r.rsp && !r.locked && !r.wait;
  }

  lemma ServedRead(c: Client, p: Port, t: Table)
    requires PortInv(c, p, t) && Pending(p) != [] && !Pending(p)[0].write
    ensures PortInv(c, Serve(Head(p), t), t)
  {
    HeadPending(p);
    var r := Serve(Head(p), t);
    assert |Pending(p)| == 1;
    assert Pending(r) == Pending(Head(p)) == [];
  }

  lemma Parked(c: Client, p: Port, t: Table)
    requires PortInv(c, p, t) && p.req != [] && !p.wait && !p.locked
    ensures PortInv(c, Fetch(p).(wait := true), t)
  {
    HeadPending(p);
  }

  lemma Served(c: Client, p: Port, t: Table)
    requires PortInv(c, p, t) && Pending(p) != []
    ensures PortInv(c, Serve(Head(p), t), Written(Head(p), t))
  {
    HeadPending(p);
    if Pending(p)[0].write {
      ServedWrite(c, p, t);
    } else {
      ServedRead(c, p, t);
    }
  }

  // ---------------------------------------------------------------- invariants of every step

  /** Serving the oldest request of one port, unless the other port has that session locked. */
  lemma ServeKeepsInv(c: Client, d: Client, p: Port, o: Port, t: Table)
    requires PortInv(c, p, t) && PortInv(d, o, t) && c != d
    requires !(p.locked && o.locked && p.id == o.id)
    requires Pending(p) != [] && !Holds(o, Head(p).access.id)
    ensures var r := Serve(Head(p), t);
            && PortInv(c, r, Written(Head(p), t)) && PortInv(d, o, Written(Head(p), t))
            && !(r.locked && o.locked && r.id == o.id) && !r.wait
  {
    Served(c, p, t);
    PortFrame(d, o, t, Written(Head(p), t));
  }

  lemma TxServed(s: Sys)
    requires Inv(s) && Pending(s.tx) != [] && !Holds(s.rx, Head(s.tx).access.id)
    ensures Inv(s.(tx := Serve(Head(s.tx), s.table), table := Written(Head(s.tx), s.table)))
  {
    ServeKeepsInv(TxAppIf, RxEngine, s.tx, s.rx, s.table);
  }

  lemma RxServed(s: Sys)
    requires Inv(s) && Pending(s.rx) != [] && !Holds(s.tx, Head(s.rx).access.id)
    ensures Inv(s.(rx := Serve(Head(s.rx), s.table), table := Written(Head(s.rx), s.table)))
  {
    ServeKeepsInv(RxEngine, TxAppIf, s.rx, s.tx, s.table);
  }

  lemma FetchTxInv(s: Sys)
    requires Inv(s) && s.tx.req != [] && !s.tx.wait
    ensures Inv(FetchTx(s))
  {
    HeadPending(s.tx);
    if Holds(s.rx, s.tx.req[0].id) {
      if s.tx.locked { HolderWrites(TxAppIf, s.tx, s.table); }
      Parked(TxAppIf, s.tx, s.table);
    } else {
      TxServed(s);
    }
  }

  lemma FetchRxInv(s: Sys)
    requires Inv(s) && s.rx.req != [] && !s.rx.wait
    ensures Inv(FetchRx(s))
  {
    HeadPending(s.rx);
    if Holds(s.tx, s.rx.req[0].id) {
      if s.rx.locked { HolderWrites(RxEngine, s.rx, s.table); }
      Parked(RxEngine, s.rx, s.table);
    } else {
      RxServed(s);
    }
  }

  lemma ExpireInv(s: Sys)
    requires Inv(s) && !CloseBlocked(s)
    ensures Inv(ServeTimer(s))
  {
    PortFrame(TxAppIf, s.tx, s.table, s.table[s.closeId := CLOSED]);
    PortFrame(RxEngine, s.rx, s.table, s.table[s.closeId := CLOSED]);
  }

  lemma FetchTimerInv(s: Sys)
    requires Inv(s) && s.timerReq != []
    ensures Inv(FetchTimer(s))
  {
    var r := s.(closeId := s.timerReq[0], timerReq := s.timerReq[1..]);
    if !CloseBlocked(r) { ExpireInv(r); }
  }

  lemma ReserveTxInv(s: Sys)
    requires Inv(s) && s.tx.wait
    ensures Inv(ReserveTx(s))
  {
    if !Holds(s.rx, s.tx.access.id) { TxServed(s); }
  }

  lemma ReserveRxInv(s: Sys)
    requires Inv(s) && s.rx.wait
    ensures Inv(ReserveRx(s))
  {
    if !Holds(s.tx, s.rx.access.id) { RxServed(s); }
  }

  lemma TickInv(s: Sys)
    requires Inv(s)
    ensures Inv(TableTick(s))
  {
    match Choose(s)
    case TakeTx => FetchTxInv(s);
    case TakeApp =>
    case TakeRx => FetchRxInv(s);
    case TakeTimer => FetchTimerInv(s);
    case RetryTx => ReserveTxInv(s);
    case RetryRx => ReserveRxInv(s);
    case RetryTimer => if !CloseBlocked(s) { ExpireInv(s); }
    case Pause =>
  }

  lemma Asked(c: Client, p: Port, t: Table, id: SessionId)
    requires PortInv(c, p, t) && p.phase == Idle
    ensures PortInv(c, Ask(p, id), t)
  {
    assert Pending(Ask(p, id)) == Pending(p) + [Query(id, CLOSED, false)];
  }

  lemma Posted(p: Port, t: Table, id: SessionId)
    requires PortInv(TxAppIf, p, t) && p.phase == Idle
    ensures PortInv(TxAppIf, Post(p, id, SYN_SENT), t)
  {
    assert Pending(Post(p, id, SYN_SENT)) == Pending(p) + [Query(id, SYN_SENT, true)];
  }

  lemma Answered(c: Client, p: Port, t: Table, next: SessionState)
    requires PortInv(c, p, t) && CanAnswer(p) && Allowed(c, p.rsp[0], next)
    ensures PortInv(c, Answer(p, next), t)
  {
    assert Pending(Answer(p, next)) == [Query(p.phase.id, next, true)];
  }

  /** Every step keeps the lock protocol. */
  lemma StepInv(s: Sys, a: Action)
    requires Inv(s)
    ensures Inv(Step(s, a))
  {
    match a
    case Tick => TickInv(s);
    case RxLoad(id) => if CanAsk(s.rx) { Asked(RxEngine, s.rx, s.table, id); }
    case RxTransition(next) =>
      if CanAnswer(s.rx) && RxEdge(s.rx.rsp[0], next) { Answered(RxEngine, s.rx, s.table, next); }
    case AppOpen(id) => if CanAsk(s.tx) { Posted(s.tx, s.table, id); }
    case AppClose(id) => if CanAsk(s.tx) { Asked(TxAppIf, s.tx, s.table, id); }
    case AppCloseReply =>
      if CanAnswer(s.tx) { Answered(TxAppIf, s.tx, s.table, CloseState(s.tx.rsp[0])); }
    case _ =>
  }

  // ---------------------------------------------------------------- safety over whole runs

  function Run(s: Sys, actions: seq<Action>): Sys
    decreases |actions|
  {
    if actions == [] then s else Run(Step(s, actions[0]), actions[1..])
  }

  lemma {:induction false} RunInv(s: Sys, actions: seq<Action>)
    requires Inv(s)
    ensures Inv(Run(s, actions))
    decreases |actions|
  {
    if actions != [] {
      StepInv(s, actions[0]);
      RunInv(Step(s, actions[0]), actions[1..]);
    }
  }

  /** In every state of every run the two locks are on different sessions, the two deferred
      flags are not both set, and a client that holds a lock is never deferred: its oldest
      request is the write that gives the lock back, and `state_table` serves it. */
  lemma NoLockCycle(init: Sys, actions: seq<Action>)
    requires Init(init)
    ensures var s := Run(init, actions);
            && !(s.tx.locked && s.rx.locked && s.tx.id == s.rx.id)
            && !(s.tx.wait && s.rx.wait)
            && (s.tx.locked && s.tx.req != [] ==>
                  !s.tx.wait && FetchTx(s) == ServeTx(s.(tx := Fetch(s.tx))) && !FetchTx(s).tx.locked)
            && (s.rx.locked && s.rx.req != [] ==>
                  !s.rx.wait && FetchRx(s) == ServeRx(s.(rx := Fetch(s.rx))) && !FetchRx(s).rx.locked)
  {
    InitInv(init);
    RunInv(init, actions);
    var s := Run(init, actions);
    if s.tx.locked && s.tx.req != [] { HolderWrites(TxAppIf, s.tx, s.table); }
    if s.rx.locked && s.rx.req != [] { HolderWrites(RxEngine, s.rx, s.table); }
  }

  /** A step of the atomic machine that the deferring machine must look like: one session's
      state is read and replaced at once, and nothing happens in between. */
  datatype Commit =
    | Nothing
    | Replace(client: Client, id: SessionId, old_: SessionState, new_: SessionState)
    | Open(id: SessionId, old_: SessionState)
    | Expire(id: SessionId)

  predicate AtomicNext(t: Table, c: Commit, t': Table) {
    match c
    case Nothing => t' == t
    case Replace(client, id, old_, new_) => t[id] == old_ && Allowed(client, old_, new_) && t' == t[id := new_]
    case Open(id, old_) => t[id] == old_ && t' == t[id := SYN_SENT]
    case Expire(id) => t' == t[id := CLOSED]
  }

  /** What serving a port's request commits: the state the client was told, replaced by the
      state it wrote, or the unlocked write of an opening connection. */
  function PortCommit(c: Client, p: Port, t: Table): Commit {
    if !p.access.write then Nothing
    else if p.locked then Replace(c, p.access.id, p.seen, p.access.state)
    else Open(p.access.id, t[p.access.id])
  }

  function TickCommit(s: Sys): Commit {
    match Choose(s)
    case TakeTx => if Holds(s.rx, s.tx.req[0].id) then Nothing else PortCommit(TxAppIf, Fetch(s.tx), s.table)
    case TakeRx => if Holds(s.tx, s.rx.req[0].id) then Nothing else PortCommit(RxEngine, Fetch(s.rx), s.table)
    case TakeTimer => if CloseBlocked(s.(closeId := s.timerReq[0])) then Nothing else Expire(s.timerReq[0])
    case RetryTx => if Holds(s.rx, s.tx.access.id) then Nothing else PortCommit(TxAppIf, s.tx, s.table)
    case RetryRx => if Holds(s.tx, s.rx.access.id) then Nothing else PortCommit(RxEngine, s.rx, s.table)
    case RetryTimer => if CloseBlocked(s) then Nothing else Expire(s.closeId)
    case _ => Nothing
  }

  function CommitOf(s: Sys, a: Action): Commit {
    if a == Tick then TickCommit(s) else Nothing
  }

  lemma PortRefines(c: Client, p: Port, t: Table)
    requires PortInv(c, p, t) && Pending(p) != []
    ensures AtomicNext(t, PortCommit(c, Head(p), t), Written(Head(p), t))
  {
    HeadPending(p);
    if p.locked { HolderWrites(c, p, t); }
  }

  /** Refinement, step by step: the table changes as the atomic machine allows, and a state
      that is replaced under a lock is the one its client was told. */
  lemma StepRefines(s: Sys, a: Action)
    requires Inv(s)
    ensures AtomicNext(s.table, CommitOf(s, a), Step(s, a).table)
  {
    if a == Tick {
      match Choose(s)
      case TakeTx => PortRefines(TxAppIf, s.tx, s.table);
      case TakeRx => PortRefines(RxEngine, s.rx, s.table);
      case RetryTx => PortRefines(TxAppIf, s.tx, s.table);
      case RetryRx => PortRefines(RxEngine, s.rx, s.table);
      case _ =>
    }
  }

  /** The commits of a run, in order. */
  function Commits(s: Sys, actions: seq<Action>): seq<Commit>
    decreases |actions|
  {
    if actions == [] then [] else [CommitOf(s, actions[0])] + Commits(Step(s, actions[0]), actions[1..])
  }

  /** A run of the atomic machine from `t` to `t'`. */
  predicate AtomicRun(t: Table, commits: seq<Commit>, t': Table)
    decreases |commits|
  {
    if commits == [] then t == t'
    else
      var u := Applied(t, commits[0]);
      AtomicNext(t, commits[0], u) && AtomicRun(u, commits[1..], t')
  }

  function Applied(t: Table, c: Commit): Table {
    match c
    case Nothing => t
    case Replace(_, id, _, new_) => t[id := new_]
    case Open(id, _) => t[id := SYN_SENT]
    case Expire(id) => t[id := CLOSED]
  }

  /** Refinement of whole runs: for every interleaving the deferred-request machine goes
      through the states of an atomic per-session map. */
  lemma {:induction false} RunRefines(s: Sys, actions: seq<Action>)
    requires Inv(s)
    ensures AtomicRun(s.table, Commits(s, actions), Run(s, actions).table)
    decreases |actions|
  {
    if actions != [] {
      var a := actions[0];
      StepRefines(s, a);
      StepInv(s, a);
      RunRefines(Step(s, a), actions[1..]);
      var rest := Commits(Step(s, a), actions[1..]);
      assert Commits(s, actions) == [CommitOf(s, a)] + rest;
      assert Commits(s, actions)[1..] == rest;
    }
  }

  // ---------------------------------------------------------------- the state diagram

  /** The write follows section 3.3.2 of RFC 9293: an arrow of the RX engine or of a close
      request, an expired timer, or an active open, which starts in CLOSED. */
  predicate Follows(c: Commit) {
    match c
    case Nothing => true
    case Replace(client, _, old_, new_) => Allowed(client, old_, new_)
    case Open(_, old_) => old_ == CLOSED
    case Expire(_) => true
  }

  predicate AllFollow(commits: seq<Commit>) {
    forall k :: 0 <= k < |commits| ==> Follows(commits[k])
  }

  /** The session whose opening write, which no lock protects, this step serves. */
  function OpeningServed(s: Sys, a: Action): Option<SessionId> {
    if a != Tick then None
    else match Choose(s)
      case TakeTx => Opening(s, s.tx.req[0])
      case RetryTx => Opening(s, s.tx.access)
      case _ => None
  }

  function Opening(s: Sys, q: Query): Option<SessionId> {
    if q.write && !s.tx.locked && !Holds(s.rx, q.id) then Some(q.id) else None
  }

  /** Every opening write is served while its session is CLOSED. */
  predicate OpensMeetClosed(s: Sys, actions: seq<Action>)
    decreases |actions|
  {
    actions == [] ||
    (&& (OpeningServed(s, actions[0]).Some? ==> s.table[OpeningServed(s, actions[0]).value] == CLOSED)
     && OpensMeetClosed(Step(s, actions[0]), actions[1..]))
  }

  /** The RX engine only writes what it has locked. */
  lemma RxWritesLocked(p: Port, t: Table)
    requires PortInv(RxEngine, p, t) && Pending(p) != [] && Pending(p)[0].write
    ensures p.locked
  {
  }

  lemma StepFollows(s: Sys, a: Action)
    requires Inv(s)
    ensures Follows(CommitOf(s, a)) <==>
              (OpeningServed(s, a).Some? ==> s.table[OpeningServed(s, a).value] == CLOSED)
  {
    if a == Tick {
      match Choose(s)
      case TakeTx => if s.tx.locked { HolderWrites(TxAppIf, s.tx, s.table); }
      case TakeRx =>
        if s.rx.locked { HolderWrites(RxEngine, s.rx, s.table); }
        if s.rx.req[0].write { RxWritesLocked(s.rx, s.table); }
      case RetryTx => if s.tx.locked { HolderWrites(TxAppIf, s.tx, s.table); }
      case RetryRx =>
        if s.rx.locked { HolderWrites(RxEngine, s.rx, s.table); }
        if s.rx.access.write { RxWritesLocked(s.rx, s.table); }
      case _ =>
    }
  }

  lemma FollowCons(c: Commit, rest: seq<Commit>)
    ensures AllFollow([c] + rest) <==> Follows(c) && AllFollow(rest)
  {
    var all := [c] + rest;
    assert all[0] == c;
    if AllFollow(all) {
      forall k | 0 <= k < |rest| ensures Follows(rest[k]) { assert all[k + 1] == rest[k]; }
    }
    if Follows(c) && AllFollow(rest) {
      forall k | 0 <= k < |all| ensures Follows(all[k]) {
        if k > 0 { assert all[k] == rest[k - 1]; }
      }
    }
  }

  /** Every write of every client and timer follows the diagram if and only if each opening
      write is served while its session is CLOSED. */
  lemma {:induction false} WritesFollowIff(s: Sys, actions: seq<Action>)
    requires Inv(s)
    ensures AllFollow(Commits(s, actions)) <==> OpensMeetClosed(s, actions)
    decreases |actions|
  {
    if actions != [] {
      var a := actions[0];
      StepFollows(s, a);
      StepInv(s, a);
      WritesFollowIff(Step(s, a), actions[1..]);
      FollowCons(CommitOf(s, a), Commits(Step(s, a), actions[1..]));
    }
  }

  /** A segment of the RX engine for a session: the locking read and the write of `next`. */
  function Segment(id: SessionId, next: SessionState): seq<Action> {
    [RxLoad(id), Tick, RxTransition(next), Tick]
  }

  /** What is between two segments. */
  predicate Resting(s: Sys) {
    && InitPort(s.tx) && InitPort(s.rx) && !s.closeWait
    && s.timerReq == [] && s.appReq == [] && s.appRsp == [] && s.released == []
  }

  lemma FourSteps(s: Sys, a: Action, b: Action, c: Action, d: Action)
    ensures Run(s, [a] + ([b] + ([c] + [d]))) == Step(Step(Step(Step(s, a), b), c), d)
  {
    var t := [b] + ([c] + [d]);
    assert ([a] + t)[1..] == t && t[1..] == [c] + [d] && ([c] + [d])[1..] == [d] && [d][1..] == [];
    var s1, s2, s3 := Step(s, a), Step(Step(s, a), b), Step(Step(Step(s, a), b), c);
    assert Run(s, [a] + t) == Run(s1, t) && Run(s2, [c] + [d]) == Run(s3, [d]);
    assert Run(s3, [d]) == Run(Step(s3, d), []);
  }

  lemma SegmentWrites(s: Sys, id: SessionId, next: SessionState)
    requires Resting(s) && RxEdge(s.table[id], next) && next != CLOSED
    ensures var r := Run(s, Segment(id, next));
            Resting(r) && r.table == s.table[id := next]
  {
    var q, w := Query(id, CLOSED, false), Query(id, next, true);
    var s1 := s.(rx := s.rx.(req := [q], phase := Awaiting(id)));
    var s2 := s.(rx := s.rx.(access := q, rsp := [s.table[id]], id := id, locked := true, phase := Awaiting(id)));
    var s3 := s2.(rx := s2.rx.(seen := s.table[id], rsp := [], req := [w], phase := Idle));
    assert Step(s, RxLoad(id)) == s1;
    assert Choose(s1) == TakeRx && [q][1..] == [] && Step(s1, Tick) == s2;
    assert Step(s2, RxTransition(next)) == s3;
    assert Choose(s3) == TakeRx && [w][1..] == [];
    assert Step(s3, Tick) == s3.(rx := s3.rx.(req := [], access := w, locked := false), table := s.table[id := next]);
    FourSteps(s, RxLoad(id), Tick, RxTransition(next), Tick);
    assert Segment(id, next) == [RxLoad(id)] + ([Tick] + ([RxTransition(next)] + [Tick]));
  }

  lemma OpenServed(s: Sys, id: SessionId)
    requires Resting(s)
    ensures var r := Run(s, [AppOpen(id), Tick]);
            r.table == s.table[id := SYN_SENT] && Commits(s, [AppOpen(id), Tick]) == [Nothing, Open(id, s.table[id])]
  {
    var w := Query(id, SYN_SENT, true);
    var s1 := s.(tx := s.tx.(req := [w]));
    assert Step(s, AppOpen(id)) == s1;
    assert Choose(s1) == TakeTx && [w][1..] == [];
    assert [AppOpen(id), Tick][1..] == [Tick] && [Tick][1..] == [];
    assert Run(s, [AppOpen(id), Tick]) == Run(s1, [Tick]) == Run(Step(s1, Tick), []);
    assert CommitOf(s1, Tick) == Open(id, s.table[id]);
    assert Commits(s1, [Tick]) == [CommitOf(s1, Tick)] + Commits(Step(s1, Tick), []);
  }

  lemma {:induction false} RunConcat(s: Sys, a: seq<Action>, b: seq<Action>)
    ensures Run(s, a + b) == Run(Run(s, a), b)
    ensures Commits(s, a + b) == Commits(s, a) + Commits(Run(s, a), b)
    decreases |a|
  {
    if a == [] {
      assert a + b == b;
    } else {
      assert (a + b)[1..] == a[1..] + b;
      RunConcat(Step(s, a[0]), a[1..], b);
    }
  }

  /** `tx_app_if` writes SYN_SENT for every session that its lookup found, without a look at
      the state. A peer that reached the port first has the session established, and the
      open request takes it back to SYN_SENT. */
  lemma OpenOverwrites(init: Sys, id: SessionId)
    requires Init(init)
    ensures var before := Segment(id, SYN_RECEIVED) + Segment(id, ESTABLISHED);
            var open := [AppOpen(id), Tick];
            && Run(init, before).table[id] == ESTABLISHED && Run(init, before + open).table[id] == SYN_SENT
            && !AllFollow(Commits(init, before + open))
  {
    var b1, b2, open := Segment(id, SYN_RECEIVED), Segment(id, ESTABLISHED), [AppOpen(id), Tick];
    SegmentWrites(init, id, SYN_RECEIVED);
    RunConcat(init, b1, b2);
    SegmentWrites(Run(init, b1), id, ESTABLISHED);
    RunConcat(init, b1 + b2, open);
    var s := Run(init, b1 + b2);
    OpenServed(s, id);
    var c := Commits(init, b1 + b2);
    assert (c + Commits(s, open))[|c| + 1] == Open(id, ESTABLISHED);
  }

  /** Between the reply to a locking read and the write that answers it, no other client and
      no timer changes the session. */
  lemma TxLockedStateIsStable(s: Sys, a: Action)
    requires Inv(s) && s.tx.locked && Step(s, a).tx.locked
    ensures Step(s, a).tx.id == s.tx.id && Step(s, a).table[s.tx.id] == s.table[s.tx.id]
  {
    if a == Tick {
      match Choose(s)
      case TakeTx =>
        HeadPending(s.tx);
        HolderWrites(TxAppIf, s.tx, s.table);
        assert false;
      case TakeRx => assert FetchRx(s).tx == s.tx;
      case RetryRx => assert ReserveRx(s).tx == s.tx;
      case TakeTimer => assert FetchTimer(s).tx == s.tx;
      case _ =>
    }
  }

  lemma RxLockedStateIsStable(s: Sys, a: Action)
    requires Inv(s) && s.rx.locked && Step(s, a).rx.locked
    ensures Step(s, a).rx.id == s.rx.id && Step(s, a).table[s.rx.id] == s.table[s.rx.id]
  {
    if a == Tick {
      match Choose(s)
      case TakeRx =>
        HeadPending(s.rx);
        HolderWrites(RxEngine, s.rx, s.table);
        assert false;
      case TakeTx => assert FetchTx(s).rx == s.rx;
      case RetryTx => assert ReserveTx(s).rx == s.rx;
      case TakeTimer => assert FetchTimer(s).rx == s.rx;
      case _ =>
    }
  }

  predicate FinWait2Free(t: Table) {
    forall i :: 0 <= i < MAX_SESSIONS ==> t[i] != FIN_WAIT_2
  }

  lemma {:induction false} AtomicRunsAvoidFinWait2(t: Table, commits: seq<Commit>, t': Table)
    requires AtomicRun(t, commits, t') && FinWait2Free(t)
    ensures FinWait2Free(t')
    decreases |commits|
  {
    if commits != [] {
      AtomicRunsAvoidFinWait2(Applied(t, commits[0]), commits[1..], t');
    }
  }

  /** FIN_WAIT_2 is in the enumeration but no run ever stores it. */
  lemma FinWait2IsUnreachable(init: Sys, actions: seq<Action>)
    requires Init(init)
    ensures FinWait2Free(Run(init, actions).table)
  {
    InitInv(init);
    RunRefines(init, actions);
    AtomicRunsAvoidFinWait2(init.table, Commits(init, actions), Run(init, actions).table);
  }

  // ---------------------------------------------------------------- the hardware's form

  /** The static variables of `state_table` and its clients, and the FIFOs between them. */
  class SessionStates {
    const stateTable: array<SessionState>
    var sttTxSessionId: SessionId
    var sttRxSessionId: SessionId
    var sttTxSessionLocked: bool
    var sttRxSessionLocked: bool
    var sttTxAccess: Query
    var sttRxAccess: Query
    var sttTxWait: bool
    var sttRxWait: bool
    var sttCloseSessionId: SessionId
    var sttCloseWait: bool
    var taiFsm: Phase
    var rxFsm: Phase
    ghost var taiSeen: SessionState
    ghost var rxSeen: SessionState
    var txUpdReq: seq<Query>
    var txUpdRsp: seq<SessionState>
    var txAppReq: seq<SessionId>
    var txAppRsp: seq<SessionState>
    var rxUpdReq: seq<Query>
    var rxUpdRsp: seq<SessionState>
    var timerRelease: seq<SessionId>
    var releaseSession: seq<SessionId>

    ghost predicate Valid()
    {
      stateTable.Length == MAX_SESSIONS
    }

    ghost function Abs(): Sys
      reads this, stateTable
      requires Valid()
    {
      Sys(stateTable[..],
          Port(txUpdReq, txUpdRsp, sttTxAccess, sttTxWait, sttTxSessionId, sttTxSessionLocked, taiFsm, taiSeen),
          Port(rxUpdReq, rxUpdRsp, sttRxAccess, sttRxWait, sttRxSessionId, sttRxSessionLocked, rxFsm, rxSeen),
          sttCloseSessionId, sttCloseWait, timerRelease, txAppReq, txAppRsp, releaseSession)
    }

    constructor ()
      ensures Valid() && Init(Abs())
    {
      stateTable := new SessionState[MAX_SESSIONS](_ => CLOSED);
      sttTxSessionId, sttRxSessionId, sttCloseSessionId := 0, 0, 0;
      sttTxSessionLocked, sttRxSessionLocked := false, false;
      sttTxAccess, sttRxAccess := Query(0, CLOSED, false), Query(0, CLOSED, false);
      sttTxWait, sttRxWait, sttCloseWait := false, false, false;
      taiFsm, rxFsm := Idle, Idle;
      taiSeen, rxSeen := CLOSED, CLOSED;
      txUpdReq, rxUpdReq, txAppReq, timerRelease, releaseSession := [], [], [], [], [];
      txUpdRsp, rxUpdRsp, txAppRsp := [], [], [];
    }

    method ServeTxAccess()
      requires Valid()
      modifies this, stateTable
      ensures Abs() == ServeTx(old(Abs()))
    {
      if sttTxAccess.write {
        stateTable[sttTxAccess.id] := sttTxAccess.state;
        sttTxSessionLocked := false;
      } else {
        txUpdRsp := txUpdRsp + [stateTable[sttTxAccess.id]];
        sttTxSessionId := sttTxAccess.id;
        sttTxSessionLocked := true;
      }
    }

    method ServeRxAccess()
      requires Valid()
      modifies this, stateTable
      ensures Abs() == ServeRx(old(Abs()))
    {
      if sttRxAccess.write {
        if sttRxAccess.state == CLOSED {
          releaseSession := releaseSession + [sttRxAccess.id];
        }
        stateTable[sttRxAccess.id] := sttRxAccess.state;
        sttRxSessionLocked := false;
      } else {
        rxUpdRsp := rxUpdRsp + [stateTable[sttRxAccess.id]];
        sttRxSessionId := sttRxAccess.id;
        sttRxSessionLocked := true;
      }
    }

    method CloseSession()
      requires Valid()
      modifies this, stateTable
      ensures Abs() == ServeTimer(old(Abs()))
    {
      stateTable[sttCloseSessionId] := CLOSED;
      releaseSession := releaseSession + [sttCloseSessionId];
    }

    method TakeTxRequest()
      requires Valid() && txUpdReq != []
      modifies this, stateTable
      ensures Abs() == FetchTx(old(Abs()))
    {
      sttTxAccess, txUpdReq := txUpdReq[0], txUpdReq[1..];
      if sttTxAccess.id == sttRxSessionId && sttRxSessionLocked {
        sttTxWait := true;
      } else {
        ServeTxAccess();
      }
    }

    method TakeRxRequest()
      requires Valid() && rxUpdReq != []
      modifies this, stateTable
      ensures Abs() == FetchRx(old(Abs()))
    {
      sttRxAccess, rxUpdReq := rxUpdReq[0], rxUpdReq[1..];
      if sttRxAccess.id == sttTxSessionId && sttTxSessionLocked {
        sttRxWait := true;
      } else {
        ServeRxAccess();
      }
    }

    method TakeTimerRelease()
      requires Valid() && timerRelease != []
      modifies this, stateTable
      ensures Abs() == FetchTimer(old(Abs()))
    {
      sttCloseSessionId, timerRelease := timerRelease[0], timerRelease[1..];
      if (sttCloseSessionId == sttRxSessionId && sttRxSessionLocked) ||
         (sttCloseSessionId == sttTxSessionId && sttTxSessionLocked) {
        sttCloseWait := true;
      } else {
        CloseSession();
      }
    }

    method RetryTxRequest()
      requires Valid()
      modifies this, stateTable
      ensures Abs() == ReserveTx(old(Abs()))
    {
      if sttTxAccess.id != sttRxSessionId || !sttRxSessionLocked {
        ServeTxAccess();
        sttTxWait := false;
      }
    }

    method RetryRxRequest()
      requires Valid()
      modifies this, stateTable
      ensures Abs() == ReserveRx(old(Abs()))
    {
      if sttRxAccess.id != sttTxSessionId || !sttTxSessionLocked {
        ServeRxAccess();
        sttRxWait := false;
      }
    }

    method RetryTimerRelease()
      requires Valid()
      modifies this, stateTable
      ensures var s := old(Abs());
              Abs() == if CloseBlocked(s) then s else ServeTimer(s).(closeWait := false)
    {
      if (sttCloseSessionId != sttRxSessionId || !sttRxSessionLocked) &&
         (sttCloseSessionId != sttTxSessionId || !sttTxSessionLocked) {
        CloseSession();
        sttCloseWait := false;
      }
    }

    /** The second half of `state_table`: no request can be taken, so retry a parked one. */
    method RetryParked()
      requires Valid() && var b := Choose(Abs()); b.RetryTx? || b.RetryRx? || b.RetryTimer? || b.Pause?
      modifies this, stateTable
      ensures Abs() == TableTick(old(Abs()))
    {
      ghost var s := Abs();
      if sttTxWait && |txUpdRsp| < DEPTH {
        assert Choose(s) == RetryTx;
        RetryTxRequest();
      } else if sttRxWait && |rxUpdRsp| < DEPTH && |releaseSession| < DEPTH {
        assert Choose(s) == RetryRx;
        RetryRxRequest();
      } else if sttCloseWait && |releaseSession| < DEPTH {
        assert Choose(s) == RetryTimer;
        RetryTimerRelease();
      }
    }

    /** One clock tick of `state_table`. */
    method StateTable()
      requires Valid()
      modifies this, stateTable
      ensures Abs() == TableTick(old(Abs()))
    {
      ghost var s := Abs();
      if txUpdReq != [] && |txUpdRsp| < DEPTH && !sttTxWait {
        assert Choose(s) == TakeTx;
        TakeTxRequest();
      } else if txAppReq != [] && |txAppRsp| < DEPTH {
        assert Choose(s) == TakeApp;
        txAppRsp, txAppReq := txAppRsp + [stateTable[txAppReq[0]]], txAppReq[1..];
      } else if rxUpdReq != [] && |rxUpdRsp| < DEPTH && |releaseSession| < DEPTH && !sttRxWait {
        assert Choose(s) == TakeRx;
        TakeRxRequest();
      } else if timerRelease != [] && |releaseSession| < DEPTH && !sttCloseWait {
        assert Choose(s) == TakeTimer;
        TakeTimerRelease();
      } else {
        RetryParked();
      }
    }

    /** `tx_app_if` with a session found for an open request: the unlocked write. */
    method OpenConnection(id: SessionId)
      requires Valid()
      modifies this`txUpdReq
      ensures Abs() == OpenStep(old(Abs()), id)
    {
      if taiFsm == Idle && |txUpdReq| < DEPTH {
        txUpdReq := txUpdReq + [Query(id, SYN_SENT, true)];
      }
    }

    /** `tx_app_if` with a close request: the locking read. */
    method CloseConnection(id: SessionId)
      requires Valid()
      modifies this`txUpdReq, this`taiFsm
      ensures Abs() == CloseStep(old(Abs()), id)
    {
      if taiFsm == Idle && |txUpdReq| < DEPTH {
        txUpdReq := txUpdReq + [Query(id, CLOSED, false)];
        taiFsm := Awaiting(id);
      }
    }

    /** `tx_app_if` with the state of the session it wants to close: the releasing write. */
    method FinishClose()
      requires Valid()
      modifies this`txUpdReq, this`txUpdRsp, this`taiFsm, this`taiSeen
      ensures Abs() == CloseReplyStep(old(Abs()))
    {
      if taiFsm.Awaiting? && txUpdRsp != [] && |txUpdReq| < DEPTH {
        var state := txUpdRsp[0];
        if state == ESTABLISHED || state == FIN_WAIT_2 || state == FIN_WAIT_1 {
          state := FIN_WAIT_1;
        }
        WriteBack(state);
      }
    }

    method WriteBack(state: SessionState)
      requires Valid() && CanAnswer(Abs().tx)
      modifies this`txUpdReq, this`txUpdRsp, this`taiFsm, this`taiSeen
      ensures Abs() == old(Abs()).(tx := Answer(old(Abs()).tx, state))
    {
      taiSeen := txUpdRsp[0];
      txUpdRsp := txUpdRsp[1..];
      txUpdReq := txUpdReq + [Query(taiFsm.id, state, true)];
      taiFsm := Idle;
    }
  }
}
