/** session_lookup_controller.cpp with the external lookup table.

    Session IDs travel in a circle: from a counter or the free list through an insertion
    into the lookup table, to the reverse table, and after a release through the delete and
    the fin FIFO back to the free list. The lookup table answers in order, as the stub of
    toe_tb.cpp does. A step may find an output FIFO full; the flags of an action say so, and
    a step that cannot go on changes nothing. */
module SessionIds {
  import opened Toe

  /** A connection as the lookup table stores it. */
  datatype Tuple = Tuple(myIp: U32, theirIp: U32, myPort: U16, theirPort: U16)

  /** A connection as the packet or the application names it. */
  datatype FourTuple = FourTuple(srcIp: U32, dstIp: U32, srcPort: U16, dstPort: U16)

  datatype Source = RX | TX_APP

  datatype Op = INSERT | DELETE

  datatype Fsm = LUP_REQ | LUP_RSP | UPD_RSP

  /** One line of the lookup table, and the format of a reverse table insertion. */
  datatype Pair = Pair(id: SessionId, tuple: Tuple)

  datatype Query = Query(tuple: Tuple, allowCreation: bool, source: Source)

  datatype LookupReply = LookupReply(hit: bool, id: SessionId, source: Source)

  datatype Update = Update(pair: Pair, op: Op, source: Source)

  datatype UpdateReply = UpdateReply(id: SessionId, op: Op, source: Source)

  /** What a client is told: the session, and whether there is one. */
  datatype Answer = Answer(id: SessionId, hit: bool)

  /** `sessionIdManager`: the IDs at and above `counter` were never handed out. */
  datatype Pool = Pool(counter: nat, free: seq<SessionId>, fin: seq<SessionId>)

  /** `lookupReplyHandler` with its query cache, its tuples and the lookup FIFOs. */
  datatype Front = Front(
    fsm: Fsm, query: seq<Query>, tuples: seq<Tuple>, lupReq: seq<Query>, lupRsp: seq<LookupReply>)

  /** The update FIFOs from the front end and the reverse table to the lookup table and back. */
  datatype Pipe = Pipe(
    insertReq: seq<Update>, deleteReq: seq<Update>, updReq: seq<Update>,
    updRsp: seq<UpdateReply>, insertRsp: seq<UpdateReply>, used: U16)

  type Tuples = t: seq<Tuple> | |t| == MAX_SESSIONS witness seq(MAX_SESSIONS, _ => Tuple(0, 0, 0, 0))
  type Flags = f: seq<bool> | |f| == MAX_SESSIONS witness seq(MAX_SESSIONS, _ => false)

  datatype Rev = Rev(table: Tuples, valid: Flags, inserts: seq<Pair>)

  /** The FIFOs to the clients; what is sent to a client is kept as a log. */
  datatype Io = Io(
    txQuery: seq<FourTuple>, rxQuery: seq<(FourTuple, bool)>, release: seq<SessionId>, revQuery: seq<SessionId>,
    txRsp: seq<Answer>, rxRsp: seq<Answer>, ports: seq<U16>, revRsp: seq<FourTuple>)

  type Cam = map<Tuple, SessionId>

  datatype Sys = Sys(pool: Pool, front: Front, pipe: Pipe, rev: Rev, cam: Cam, io: Io)

  datatype Action =
    | IssueId
    | Lookup
    | SendUpdate(finRoom: bool)
    | HandleReply
    | Reverse(deleteRoom: bool, answerRoom: bool)
    | CamLookup
    | CamUpdate
    | TxQuery(t: FourTuple)
    | RxQuery(t: FourTuple, allowCreation: bool)
    | ReleaseSession(id: SessionId)
    | ReverseQuery(id: SessionId)

  // ---------------------------------------------------------------- the steps

  /** `sessionIdManager`: released IDs first, fresh ones while there are any. */
  function Issue(p: Pool): Pool {
    if p.fin != [] then p.(fin := p.fin[1..], free := p.free + [p.fin[0]])
    else if p.counter < MAX_SESSIONS then p.(free := p.free + [p.counter], counter := p.counter + 1)
    else p
  }

  function FromTx(t: FourTuple): Tuple {
    Tuple(t.srcIp, t.dstIp, t.srcPort, t.dstPort)
  }

  function FromRx(t: FourTuple): Tuple {
    Tuple(t.dstIp, t.srcIp, t.dstPort, t.srcPort)
  }

  function ToTx(t: Tuple): FourTuple {
    FourTuple(t.myIp, t.theirIp, t.myPort, t.theirPort)
  }

  function AskCam(f: Front, q: Query): Front {
    f.(fsm := LUP_RSP, query := f.query + [q], lupReq := f.lupReq + [q])
  }

  /** Case LUP_REQ of `lookupReplyHandler`: the application goes first. */
  function TakeQuery(s: Sys): Sys {
    if s.io.txQuery != [] then
      s.(io := s.io.(txQuery := s.io.txQuery[1..]),
         front := AskCam(s.front, Query(FromTx(s.io.txQuery[0]), true, TX_APP)))
    else if s.io.rxQuery != [] then
      s.(io := s.io.(rxQuery := s.io.rxQuery[1..]),
         front := AskCam(s.front, Query(FromRx(s.io.rxQuery[0].0), s.io.rxQuery[0].1, RX)))
    else s
  }

  function Tell(io: Io, source: Source, a: Answer): Io {
    if source == RX then io.(rxRsp := io.rxRsp + [a]) else io.(txRsp := io.txRsp + [a])
  }

  /** Whether the lookup reply makes the handler create a session. */
  predicate Creates(s: Sys)
    requires s.front.lupRsp != [] && s.front.query != []
  {
    !s.front.lupRsp[0].hit && s.front.query[0].allowCreation && s.pool.free != []
  }

  function Taken(f: Front): Front
    requires f.lupRsp != [] && f.query != []
  {
    f.(lupRsp := f.lupRsp[1..], query := f.query[1..])
  }

  function Create(s: Sys): Sys
    requires s.front.lupRsp != [] && s.front.query != [] && s.pool.free != []
  {
    var t := s.front.query[0].tuple;
    s.(pool := s.pool.(free := s.pool.free[1..]),
       front := Taken(s.front).(fsm := UPD_RSP, tuples := s.front.tuples + [t]),
       pipe := s.pipe.(insertReq :=
         s.pipe.insertReq + [Update(Pair(s.pool.free[0], t), INSERT, s.front.lupRsp[0].source)]))
  }

  function Pass(s: Sys): Sys
    requires s.front.lupRsp != [] && s.front.query != []
  {
    var r := s.front.lupRsp[0];
    s.(front := Taken(s.front).(fsm := LUP_REQ), io := Tell(s.io, r.source, Answer(r.id, r.hit)))
  }

  /** Case LUP_RSP of `lookupReplyHandler`. */
  function TakeLookupReply(s: Sys): Sys {
    if s.front.lupRsp == [] || s.front.query == [] then s
    else if Creates(s) then Create(s)
    else Pass(s)
  }

  /** Case UPD_RSP of `lookupReplyHandler`. */
  function TakeInsertReply(s: Sys): Sys {
    if s.pipe.insertRsp == [] || s.front.tuples == [] then s
    else
      var r := s.pipe.insertRsp[0];
      s.(pipe := s.pipe.(insertRsp := s.pipe.insertRsp[1..]),
         front := s.front.(fsm := LUP_REQ, tuples := s.front.tuples[1..]),
         rev := s.rev.(inserts := s.rev.inserts + [Pair(r.id, s.front.tuples[0])]),
         io := Tell(s.io, r.source, Answer(r.id, true)))
  }

  function LookupStep(s: Sys): Sys {
    match s.front.fsm
    case LUP_REQ => TakeQuery(s)
    case LUP_RSP => TakeLookupReply(s)
    case UPD_RSP => TakeInsertReply(s)
  }

  function SendInsert(p: Pipe): Pipe
    requires p.insertReq != []
  {
    p.(insertReq := p.insertReq[1..], updReq := p.updReq + [p.insertReq[0]], used := (p.used + 1) % 0x1_0000)
  }

  /** The delete and the ID leave together, the one for the table and the other for reuse. */
  function SendDelete(s: Sys): Sys
    requires s.pipe.deleteReq != []
  {
    var u := s.pipe.deleteReq[0];
    s.(pipe := s.pipe.(deleteReq := s.pipe.deleteReq[1..], updReq := s.pipe.updReq + [u],
                       used := (s.pipe.used - 1) % 0x1_0000),
       pool := s.pool.(fin := s.pool.fin + [u.pair.id]))
  }

  /** `updateRequestSender`: insertions first. */
  function SendStep(s: Sys, finRoom: bool): Sys {
    if s.pipe.insertReq != [] then s.(pipe := SendInsert(s.pipe))
    else if s.pipe.deleteReq != [] && finRoom then SendDelete(s)
    else s
  }

  /** `updateReplyHandler`: only insertions are answered. */
  function ReplyStep(p: Pipe): Pipe {
    if p.updRsp == [] then p
    else p.(updRsp := p.updRsp[1..],
            insertRsp := if p.updRsp[0].op == INSERT then p.insertRsp + [p.updRsp[0]] else p.insertRsp)
  }

  function Record(r: Rev): Rev
    requires r.inserts != []
  {
    var p := r.inserts[0];
    Rev(r.table[p.id := p.tuple], r.valid[p.id := true], r.inserts[1..])
  }

  /** A release is passed on once; the release of an ID that is not valid is ignored. */
  function Release(s: Sys): Sys
    requires s.io.release != []
  {
    var id := s.io.release[0];
    var t := s.rev.table[id];
    var r := s.(io := s.io.(release := s.io.release[1..]));
    if s.rev.valid[id] then
      r.(rev := s.rev.(valid := s.rev.valid[id := false]),
         pipe := s.pipe.(deleteReq := s.pipe.deleteReq + [Update(Pair(id, t), DELETE, RX)]),
         io := r.io.(ports := s.io.ports + [t.myPort]))
    else r
  }

  /** `reverseLookupTableInterface`. */
  function ReverseStep(s: Sys, deleteRoom: bool, answerRoom: bool): Sys {
    if s.rev.inserts != [] then s.(rev := Record(s.rev))
    else if s.io.release != [] && deleteRoom then Release(s)
    else if s.io.revQuery != [] && answerRoom then
      s.(io := s.io.(revQuery := s.io.revQuery[1..],
                     revRsp := s.io.revRsp + [ToTx(s.rev.table[s.io.revQuery[0]])]))
    else s
  }

  /** The stub's lookup; a miss carries session 0. */
  function CamLookupStep(s: Sys): Sys {
    if s.front.lupReq == [] then s
    else
      var q := s.front.lupReq[0];
      var r := if q.tuple in s.cam then LookupReply(true, s.cam[q.tuple], q.source)
               else LookupReply(false, 0, q.source);
      s.(front := s.front.(lupReq := s.front.lupReq[1..], lupRsp := s.front.lupRsp + [r]))
  }

  function Applied(cam: Cam, u: Update): Cam {
    if u.op == INSERT then cam[u.pair.tuple := u.pair.id] else cam - {u.pair.tuple}
  }

  /** The stub's update. */
  function CamUpdateStep(s: Sys): Sys {
    if s.pipe.updReq == [] then s
    else
      var u := s.pipe.updReq[0];
      s.(cam := Applied(s.cam, u),
         pipe := s.pipe.(updReq := s.pipe.updReq[1..],
                         updRsp := s.pipe.updRsp + [UpdateReply(u.pair.id, u.op, u.source)]))
  }

  function Step(s: Sys, a: Action): Sys {
    match a
    case IssueId => s.(pool := Issue(s.pool))
    case Lookup => LookupStep(s)
    case SendUpdate(finRoom) => SendStep(s, finRoom)
    case HandleReply => s.(pipe := ReplyStep(s.pipe))
    case Reverse(deleteRoom, answerRoom) => ReverseStep(s, deleteRoom, answerRoom)
    case CamLookup => CamLookupStep(s)
    case CamUpdate => CamUpdateStep(s)
    case TxQuery(t) => s.(io := s.io.(txQuery := s.io.txQuery + [t]))
    case RxQuery(t, allow) => s.(io := s.io.(rxQuery := s.io.rxQuery + [(t, allow)]))
    case ReleaseSession(id) => s.(io := s.io.(release := s.io.release + [id]))
    case ReverseQuery(id) => s.(io := s.io.(revQuery := s.io.revQuery + [id]))
  }

  function Run(s: Sys, actions: seq<Action>): Sys
    decreases |actions|
  {
    if actions == [] then s else Run(Step(s, actions[0]), actions[1..])
  }

  predicate Init(s: Sys) {
    && s.pool == Pool(0, [], [])
    && s.front == Front(LUP_REQ, [], [], [], [])
    && s.pipe == Pipe([], [], [], [], [], 0)
    && (forall i :: 0 <= i < MAX_SESSIONS ==> !s.rev.valid[i]) && s.rev.inserts == []
    && s.cam == map[]
  }

  // ---------------------------------------------------------------- where an ID is

  /** The pairs of the updates of one kind, in order. */
  function Pairs(q: seq<Update>, op: Op): seq<Pair> {
    if q == [] then [] else (if q[0].op == op then [q[0].pair] else []) + Pairs(q[1..], op)
  }

  function Ids(q: seq<Pair>): seq<SessionId> {
    seq(|q|, k requires 0 <= k < |q| => q[k].id)
  }

  /** The sessions of the insertion replies, in order. */
  function Replied(q: seq<UpdateReply>): seq<SessionId> {
    if q == [] then [] else (if q[0].op == INSERT then [q[0].id] else []) + Replied(q[1..])
  }

  /** The insertions on their way to the lookup table. */
  function Flight(p: Pipe): seq<Pair> {
    Pairs(p.insertReq, INSERT) + Pairs(p.updReq, INSERT)
  }

  /** The insertions on their way back. */
  function Landing(p: Pipe): seq<SessionId> {
    Replied(p.updRsp) + Replied(p.insertRsp)
  }

  function One(b: bool): nat {
    if b then 1 else 0
  }

  function InPool(p: Pool, i: SessionId): nat {
    One(i >= p.counter) + multiset(p.free)[i] + multiset(p.fin)[i]
  }

  function InPipe(p: Pipe, i: SessionId): nat {
    multiset(Ids(Flight(p)))[i] + multiset(Landing(p))[i] + multiset(Ids(Pairs(p.deleteReq, DELETE)))[i]
  }

  function InRev(r: Rev, i: SessionId): nat {
    One(r.valid[i]) + multiset(Ids(r.inserts))[i]
  }

  /** How often an ID is somewhere on its way: unissued, on the free list, in the fin FIFO,
      in an insertion or its reply, valid, about to become valid, or in the delete queue. */
  function Places(s: Sys, i: SessionId): nat {
    InPool(s.pool, i) + InPipe(s.pipe, i) + InRev(s.rev, i)
  }

  /** The insertion whose reply is on the way, as a pair. */
  function Landed(f: Front, p: Pipe): seq<Pair> {
    if Landing(p) != [] && f.tuples != [] then [Pair(Landing(p)[0], f.tuples[0])] else []
  }

  function RevEntries(r: Rev, p: Pair): nat {
    One(r.valid[p.id] && r.table[p.id] == p.tuple) + multiset(r.inserts)[p]
  }

  /** How often a pair is between its insertion and its deletion. */
  function Entries(s: Sys, p: Pair): nat {
    multiset(Landed(s.front, s.pipe))[p] + RevEntries(s.rev, p)
    + multiset(Pairs(s.pipe.deleteReq, DELETE))[p] + multiset(Pairs(s.pipe.updReq, DELETE))[p]
  }

  predicate CamHas(cam: Cam, p: Pair) {
    p.tuple in cam && cam[p.tuple] == p.id
  }

  predicate Injective(cam: Cam) {
    forall t, u :: t in cam && u in cam && cam[t] == cam[u] ==> t == u
  }

  // ---------------------------------------------------------------- the invariant

  predicate Conserved(s: Sys) {
    forall i: SessionId :: Places(s, i) == 1
  }

  ghost predicate Agrees(s: Sys) {
    forall p: Pair :: Entries(s, p) == One(CamHas(s.cam, p))
  }

  /** There is one insertion under way exactly while the front end waits for its reply. */
  predicate FlightInv(f: Front, p: Pipe, cam: Cam) {
    var n := One(f.fsm == UPD_RSP);
    && |Flight(p)| + |Landing(p)| == n && |f.tuples| == n
    && (Flight(p) != [] ==> Flight(p)[0].tuple == f.tuples[0] && f.tuples[0] !in cam)
  }

  /** There is one lookup under way exactly while the front end waits for its reply. */
  predicate LookupInv(f: Front, cam: Cam) {
    var n := One(f.fsm == LUP_RSP);
    && |f.query| == n && |f.lupReq| + |f.lupRsp| == n
    && (f.lupReq != [] ==> f.lupReq[0] == f.query[0])
    && (f.lupRsp != [] ==> f.lupRsp[0].source == f.query[0].source)
    && (f.lupRsp != [] && !f.lupRsp[0].hit ==> f.query[0].tuple !in cam)
  }

  predicate Kinds(p: Pipe) {
    && (forall u <- p.insertReq :: u.op == INSERT)
    && (forall u <- p.deleteReq :: u.op == DELETE)
    && (forall u <- p.insertRsp :: u.op == INSERT)
  }

  /** No update behind an insertion is about the inserted ID. */
  predicate Ordered(q: seq<Update>) {
    forall k, l :: 0 <= k < l < |q| && q[k].op == INSERT ==> q[l].pair.id != q[k].pair.id
  }

  function Delta(q: seq<Update>): int {
    |Pairs(q, INSERT)| - |Pairs(q, DELETE)|
  }

  predicate Counted(p: Pipe, cam: Cam) {
    p.used == (|cam| + Delta(p.updReq)) % 0x1_0000
  }

  /** The part of the invariant that speaks of the FIFOs and the two state machines. */
  predicate Protocol(s: Sys) {
    && FlightInv(s.front, s.pipe, s.cam) && LookupInv(s.front, s.cam)
    && Kinds(s.pipe) && Ordered(s.pipe.updReq) && Counted(s.pipe, s.cam)
    && s.pool.counter <= MAX_SESSIONS
  }

  ghost predicate Inv(s: Sys) {
    Conserved(s) && Agrees(s) && Injective(s.cam) && Protocol(s)
  }

  // ---------------------------------------------------------------- counting

  lemma Pop<T>(q: seq<T>, x: T)
    requires q != []
    ensures multiset(q)[x] == One(q[0] == x) + multiset(q[1..])[x]
  {
    assert q == [q[0]] + q[1..];
  }

  lemma Push<T>(q: seq<T>, y: T, x: T)
    ensures multiset(q + [y])[x] == multiset(q)[x] + One(y == x)
  {
  }

  lemma IdsPop(q: seq<Pair>, i: SessionId)
    requires q != []
    ensures multiset(Ids(q))[i] == One(q[0].id == i) + multiset(Ids(q[1..]))[i]
  {
    assert Ids(q) == [q[0].id] + Ids(q[1..]);
  }

  lemma IdsPush(q: seq<Pair>, p: Pair, i: SessionId)
    ensures multiset(Ids(q + [p]))[i] == multiset(Ids(q))[i] + One(p.id == i)
  {
    assert Ids(q + [p]) == Ids(q) + [p.id];
  }

  /** A pair that is in a queue brings its ID into the queue. */
  lemma IdsHas(q: seq<Pair>, p: Pair)
    ensures multiset(q)[p] > 0 ==> multiset(Ids(q))[p.id] > 0
  {
    if p in q {
      var k :| 0 <= k < |q| && q[k] == p;
      assert Ids(q)[k] == p.id;
    }
  }

  lemma {:induction false} PairsPush(q: seq<Update>, u: Update, op: Op)
    ensures Pairs(q + [u], op) == Pairs(q, op) + if u.op == op then [u.pair] else []
  {
    if q == [] {
    } else {
      PairsPush(q[1..], u, op);
      assert (q + [u])[1..] == q[1..] + [u];
    }
  }

  lemma {:induction false} RepliedPush(q: seq<UpdateReply>, r: UpdateReply)
    ensures Replied(q + [r]) == Replied(q) + if r.op == INSERT then [r.id] else []
  {
    if q == [] {
    } else {
      RepliedPush(q[1..], r);
      assert (q + [r])[1..] == q[1..] + [r];
    }
  }

  lemma {:induction false} PairsAt(q: seq<Update>, k: nat)
    requires k < |q|
    ensures q[k].pair in Pairs(q, q[k].op)
  {
    if k > 0 { PairsAt(q[1..], k - 1); }
  }

  lemma {:induction false} PairsFrom(q: seq<Update>, op: Op, p: Pair) returns (k: nat)
    requires p in Pairs(q, op)
    ensures k < |q| && q[k] == Update(p, op, q[k].source)
  {
    if q[0].op == op && q[0].pair == p {
      k := 0;
    } else {
      k := PairsFrom(q[1..], op, p);
      k := k + 1;
    }
  }

  lemma {:induction false} PairsNone(q: seq<Update>, op: Op)
    requires forall u <- q :: u.op != op
    ensures Pairs(q, op) == []
  {
    if q != [] { PairsNone(q[1..], op); }
  }

  // ---------------------------------------------------------------- every step keeps it

  lemma IssueKeeps(p: Pool, i: SessionId)
    ensures InPool(Issue(p), i) == InPool(p, i)
  {
    if p.fin != [] {
      Pop(p.fin, i);
      Push(p.free, p.fin[0], i);
    } else if p.counter < MAX_SESSIONS {
      Push(p.free, p.counter, i);
    }
  }

  lemma IssueConserves(s: Sys)
    requires Conserved(s)
    ensures Conserved(s.(pool := Issue(s.pool)))
  {
    var r := s.(pool := Issue(s.pool));
    forall i: SessionId ensures Places(r, i) == 1 {
      IssueKeeps(s.pool, i);
      assert Places(s, i) == 1;
    }
  }

  lemma IssueInv(s: Sys)
    requires Inv(s)
    ensures Inv(s.(pool := Issue(s.pool)))
  {
    IssueConserves(s);
    var r := s.(pool := Issue(s.pool));
    forall p: Pair ensures Entries(r, p) == One(CamHas(r.cam, p)) {
      assert Entries(s, p) == One(CamHas(s.cam, p));
    }
  }

  /** Nothing but the front end and the client FIFOs may change freely. */
  lemma FrontInv(s: Sys, f: Front, io: Io)
    requires Inv(s) && f.tuples == s.front.tuples
    requires FlightInv(f, s.pipe, s.cam) && LookupInv(f, s.cam)
    ensures Inv(s.(front := f, io := io))
  {
    var r := s.(front := f, io := io);
    forall i: SessionId ensures Places(r, i) == 1 {
      assert Places(s, i) == 1;
    }
    forall p: Pair ensures Entries(r, p) == One(CamHas(r.cam, p)) {
      assert Entries(s, p) == One(CamHas(s.cam, p));
    }
  }

  lemma CreatePipe(p: Pipe, u: Update, i: SessionId)
    requires u.op == INSERT && Flight(p) == []
    ensures var q := p.(insertReq := p.insertReq + [u]);
            Flight(q) == [u.pair] && InPipe(q, i) == InPipe(p, i) + One(u.pair.id == i)
  {
    PairsPush(p.insertReq, u, INSERT);
    var q := p.(insertReq := p.insertReq + [u]);
    assert Flight(q) == [u.pair];
    assert Ids([u.pair]) == [u.pair.id];
    assert Ids([]) == [];
  }

  lemma CreateConserves(s: Sys)
    requires Conserved(s) && Flight(s.pipe) == []
    requires s.front.lupRsp != [] && s.front.query != [] && s.pool.free != []
    ensures Conserved(Create(s))
  {
    var r := Create(s);
    var u := Update(Pair(s.pool.free[0], s.front.query[0].tuple), INSERT, s.front.lupRsp[0].source);
    forall i: SessionId ensures Places(r, i) == 1 {
      CreatePipe(s.pipe, u, i);
      Pop(s.pool.free, i);
      assert Places(s, i) == 1;
    }
  }

  lemma CreateAgrees(s: Sys)
    requires Agrees(s) && Landing(s.pipe) == []
    requires s.front.lupRsp != [] && s.front.query != [] && s.pool.free != []
    ensures Agrees(Create(s))
  {
    var r := Create(s);
    forall p: Pair ensures Entries(r, p) == One(CamHas(r.cam, p)) {
      assert Entries(s, p) == One(CamHas(s.cam, p));
    }
  }

  lemma CreateProtocol(s: Sys)
    requires Protocol(s) && s.front.fsm == LUP_RSP
    requires s.front.lupRsp != [] && s.front.query != [] && Creates(s)
    ensures Protocol(Create(s))
  {
    var u := Update(Pair(s.pool.free[0], s.front.query[0].tuple), INSERT, s.front.lupRsp[0].source);
    CreatePipe(s.pipe, u, 0);
    assert Landing(Create(s).pipe) == Landing(s.pipe);
  }

  lemma CreateInv(s: Sys)
    requires Inv(s) && s.front.fsm == LUP_RSP
    requires s.front.lupRsp != [] && s.front.query != [] && Creates(s)
    ensures Inv(Create(s))
  {
    CreateConserves(s);
    CreateAgrees(s);
    CreateProtocol(s);
  }

  lemma AnswerPipe(p: Pipe, i: SessionId)
    requires p.insertRsp != [] && p.insertRsp[0].op == INSERT && |Landing(p)| == 1
    ensures var q := p.(insertRsp := p.insertRsp[1..]);
            && Landing(p) == [p.insertRsp[0].id] && Landing(q) == []
            && InPipe(q, i) == InPipe(p, i) - One(p.insertRsp[0].id == i)
  {
    assert Replied(p.insertRsp) == [p.insertRsp[0].id] + Replied(p.insertRsp[1..]);
    var q := p.(insertRsp := p.insertRsp[1..]);
    assert Landing(p) == [p.insertRsp[0].id];
    assert Landing(q) == [];
  }

  lemma AnswerConserves(s: Sys)
    requires Conserved(s) && s.pipe.insertRsp != [] && s.front.tuples != []
    requires s.pipe.insertRsp[0].op == INSERT && |Landing(s.pipe)| == 1
    ensures Conserved(TakeInsertReply(s))
  {
    var r := TakeInsertReply(s);
    var y := Pair(s.pipe.insertRsp[0].id, s.front.tuples[0]);
    forall i: SessionId ensures Places(r, i) == 1 {
      AnswerPipe(s.pipe, i);
      IdsPush(s.rev.inserts, y, i);
      assert Places(s, i) == 1;
    }
  }

  lemma AnsweredEntry(s: Sys, p: Pair)
    requires s.pipe.insertRsp != [] && s.front.tuples != []
    requires s.pipe.insertRsp[0].op == INSERT && |Landing(s.pipe)| == 1
    ensures Entries(TakeInsertReply(s), p) == Entries(s, p)
  {
    var y := Pair(s.pipe.insertRsp[0].id, s.front.tuples[0]);
    AnswerPipe(s.pipe, 0);
    Push(s.rev.inserts, y, p);
    assert Landed(s.front, s.pipe) == [y];
  }

  lemma AnswerAgrees(s: Sys)
    requires Agrees(s) && s.pipe.insertRsp != [] && s.front.tuples != []
    requires s.pipe.insertRsp[0].op == INSERT && |Landing(s.pipe)| == 1
    ensures Agrees(TakeInsertReply(s))
  {
    forall p: Pair ensures Entries(TakeInsertReply(s), p) == One(CamHas(TakeInsertReply(s).cam, p)) {
      AnsweredEntry(s, p);
    }
  }

  lemma AnswerKinds(p: Pipe)
    requires Kinds(p) && p.insertRsp != []
    ensures Kinds(p.(insertRsp := p.insertRsp[1..]))
  {
    assert forall u <- p.insertRsp[1..] :: u in p.insertRsp;
  }

  lemma AnswerProtocol(s: Sys)
    requires Protocol(s) && s.front.fsm == UPD_RSP && s.pipe.insertRsp != [] && s.front.tuples != []
    ensures s.pipe.insertRsp[0].op == INSERT && |Landing(s.pipe)| == 1
    ensures Protocol(TakeInsertReply(s))
  {
    assert s.pipe.insertRsp[0] in s.pipe.insertRsp;
    assert Replied(s.pipe.insertRsp) != [];
    AnswerPipe(s.pipe, 0);
    var p := s.pipe.(insertRsp := s.pipe.insertRsp[1..]);
    AnswerKinds(s.pipe);
    assert Flight(p) == Flight(s.pipe) == [];
    assert TakeInsertReply(s).pipe == p;
  }

  lemma AnswerInv(s: Sys)
    requires Inv(s) && s.front.fsm == UPD_RSP && s.pipe.insertRsp != [] && s.front.tuples != []
    ensures Inv(TakeInsertReply(s))
  {
    AnswerProtocol(s);
    AnswerConserves(s);
    AnswerAgrees(s);
  }

  lemma TakeQueryInv(s: Sys)
    requires Inv(s) && s.front.fsm == LUP_REQ
    ensures Inv(TakeQuery(s))
  {
    var r := TakeQuery(s);
    FrontInv(s, r.front, r.io);
    assert r == s.(front := r.front, io := r.io);
  }

  lemma LookupInvStep(s: Sys)
    requires Inv(s)
    ensures Inv(LookupStep(s))
  {
    match s.front.fsm
    case LUP_REQ => TakeQueryInv(s);
    case LUP_RSP =>
      if s.front.lupRsp != [] && s.front.query != [] {
        if Creates(s) {
          CreateInv(s);
        } else {
          var r := Pass(s);
          FrontInv(s, r.front, r.io);
          assert r == s.(front := r.front, io := r.io);
        }
      }
    case UPD_RSP => if s.pipe.insertRsp != [] && s.front.tuples != [] { AnswerInv(s); }
  }

  lemma SendInsertPipe(p: Pipe)
    requires p.insertReq != [] && p.insertReq[0].op == INSERT && |Flight(p)| <= 1
    ensures var q := SendInsert(p);
            && Flight(q) == Flight(p) == [p.insertReq[0].pair] && Landing(q) == Landing(p)
            && Pairs(p.updReq, INSERT) == []
            && Pairs(q.updReq, DELETE) == Pairs(p.updReq, DELETE)
            && Delta(q.updReq) == Delta(p.updReq) + 1
  {
    var u := p.insertReq[0];
    assert Pairs(p.insertReq, INSERT) == [u.pair] + Pairs(p.insertReq[1..], INSERT);
    assert |Pairs(p.insertReq[1..], INSERT)| == 0 == |Pairs(p.updReq, INSERT)|;
    PairsPush(p.updReq, u, INSERT);
    PairsPush(p.updReq, u, DELETE);
  }

  lemma OrderedInsert(q: seq<Update>, u: Update)
    requires Ordered(q) && Pairs(q, INSERT) == []
    ensures Ordered(q + [u])
  {
    forall k | 0 <= k < |q| ensures q[k].op != INSERT { PairsAt(q, k); }
  }

  /** What the places of the IDs and the entries depend on. */
  lemma SameViews(s: Sys, r: Sys)
    requires Conserved(s) && Agrees(s)
    requires r.pool == s.pool && r.front == s.front && r.rev == s.rev && r.cam == s.cam
    requires Flight(r.pipe) == Flight(s.pipe) && Landing(r.pipe) == Landing(s.pipe)
    requires r.pipe.deleteReq == s.pipe.deleteReq
    requires Pairs(r.pipe.updReq, DELETE) == Pairs(s.pipe.updReq, DELETE)
    ensures Conserved(r) && Agrees(r)
  {
    forall i: SessionId ensures Places(r, i) == 1 {
      assert Places(s, i) == 1;
    }
    forall p: Pair ensures Entries(r, p) == One(CamHas(r.cam, p)) {
      assert Entries(s, p) == One(CamHas(s.cam, p));
    }
  }

  lemma SendInsertCounted(p: Pipe, cam: Cam)
    requires Counted(p, cam) && Kinds(p) && Ordered(p.updReq)
    requires p.insertReq != [] && p.insertReq[0].op == INSERT && |Flight(p)| <= 1
    ensures var q := SendInsert(p); Counted(q, cam) && Kinds(q) && Ordered(q.updReq)
  {
    SendInsertPipe(p);
    OrderedInsert(p.updReq, p.insertReq[0]);
    assert forall u <- p.insertReq[1..] :: u in p.insertReq;
  }

  lemma SendInsertProtocol(s: Sys)
    requires Protocol(s) && s.pipe.insertReq != []
    ensures s.pipe.insertReq[0].op == INSERT && Protocol(s.(pipe := SendInsert(s.pipe)))
  {
    assert s.pipe.insertReq[0] in s.pipe.insertReq;
    SendInsertPipe(s.pipe);
    SendInsertCounted(s.pipe, s.cam);
  }

  lemma SendInsertInv(s: Sys)
    requires Inv(s) && s.pipe.insertReq != []
    ensures Inv(s.(pipe := SendInsert(s.pipe)))
  {
    SendInsertProtocol(s);
    SendInsertPipe(s.pipe);
    SameViews(s, s.(pipe := SendInsert(s.pipe)));
  }

  lemma SendDeletePipe(s: Sys)
    requires s.pipe.deleteReq != [] && s.pipe.deleteReq[0].op == DELETE
    ensures var p, q, u := s.pipe, SendDelete(s).pipe, s.pipe.deleteReq[0];
            && Flight(q) == Flight(p) && Landing(q) == Landing(p)
            && Pairs(p.deleteReq, DELETE) == [u.pair] + Pairs(q.deleteReq, DELETE)
            && Pairs(q.updReq, DELETE) == Pairs(p.updReq, DELETE) + [u.pair]
            && Delta(q.updReq) == Delta(p.updReq) - 1
  {
    PairsPush(s.pipe.updReq, s.pipe.deleteReq[0], INSERT);
    PairsPush(s.pipe.updReq, s.pipe.deleteReq[0], DELETE);
  }

  lemma SendDeleteConserves(s: Sys)
    requires Conserved(s) && s.pipe.deleteReq != [] && s.pipe.deleteReq[0].op == DELETE
    ensures Conserved(SendDelete(s))
  {
    var r, u := SendDelete(s), s.pipe.deleteReq[0];
    SendDeletePipe(s);
    forall i: SessionId ensures Places(r, i) == 1 {
      IdsPop(Pairs(s.pipe.deleteReq, DELETE), i);
      Push(s.pool.fin, u.pair.id, i);
      assert Places(s, i) == 1;
    }
  }

  lemma SendDeleteAgrees(s: Sys)
    requires Agrees(s) && s.pipe.deleteReq != [] && s.pipe.deleteReq[0].op == DELETE
    ensures Agrees(SendDelete(s))
  {
    var r := SendDelete(s);
    SendDeletePipe(s);
    forall p: Pair ensures Entries(r, p) == One(CamHas(r.cam, p)) {
      Pop(Pairs(s.pipe.deleteReq, DELETE), p);
      Push(Pairs(s.pipe.updReq, DELETE), s.pipe.deleteReq[0].pair, p);
      assert Entries(s, p) == One(CamHas(s.cam, p));
    }
  }

  /** A pair in flight and one to be deleted cannot have the same ID. */
  lemma FlightIsNotDeleted(s: Sys, k: nat)
    requires Conserved(s) && s.pipe.deleteReq != [] && s.pipe.deleteReq[0].op == DELETE
    requires k < |s.pipe.updReq| && s.pipe.updReq[k].op == INSERT
    ensures s.pipe.deleteReq[0].pair.id != s.pipe.updReq[k].pair.id
  {
    var p, d := s.pipe.updReq[k].pair, s.pipe.deleteReq[0].pair;
    PairsAt(s.pipe.updReq, k);
    PairsAt(s.pipe.deleteReq, 0);
    assert p in Flight(s.pipe);
    IdsHas(Flight(s.pipe), p);
    IdsHas(Pairs(s.pipe.deleteReq, DELETE), d);
    assert Places(s, p.id) == 1;
  }

  lemma SendDeleteOrdered(s: Sys)
    requires Conserved(s) && s.pipe.deleteReq != [] && s.pipe.deleteReq[0].op == DELETE
    requires Ordered(s.pipe.updReq)
    ensures Ordered(s.pipe.updReq + [s.pipe.deleteReq[0]])
  {
    forall k | 0 <= k < |s.pipe.updReq| && s.pipe.updReq[k].op == INSERT
      ensures s.pipe.deleteReq[0].pair.id != s.pipe.updReq[k].pair.id
    {
      FlightIsNotDeleted(s, k);
    }
  }

  lemma SendDeleteCounted(s: Sys)
    requires Counted(s.pipe, s.cam) && Kinds(s.pipe)
    requires s.pipe.deleteReq != [] && s.pipe.deleteReq[0].op == DELETE
    ensures Counted(SendDelete(s).pipe, s.cam) && Kinds(SendDelete(s).pipe)
  {
    SendDeletePipe(s);
    SendDeleteKinds(s);
  }

  lemma SendDeleteKinds(s: Sys)
    requires Kinds(s.pipe) && s.pipe.deleteReq != [] && s.pipe.deleteReq[0].op == DELETE
    ensures Kinds(SendDelete(s).pipe)
  {
    assert forall u <- s.pipe.deleteReq[1..] :: u in s.pipe.deleteReq;
  }

  lemma SendDeleteProtocol(s: Sys)
    requires Protocol(s) && s.pipe.deleteReq != [] && s.pipe.deleteReq[0].op == DELETE
    requires Ordered(s.pipe.updReq + [s.pipe.deleteReq[0]])
    ensures Protocol(SendDelete(s))
  {
    SendDeletePipe(s);
    SendDeleteCounted(s);
    assert SendDelete(s).front == s.front && SendDelete(s).cam == s.cam;
  }

  lemma SendDeleteInv(s: Sys)
    requires Inv(s) && s.pipe.deleteReq != []
    ensures Inv(SendDelete(s))
  {
    assert s.pipe.deleteReq[0] in s.pipe.deleteReq;
    SendDeleteOrdered(s);
    SendDeleteProtocol(s);
    SendDeleteConserves(s);
    SendDeleteAgrees(s);
  }

  lemma ReplyPipe(p: Pipe)
    requires |Landing(p)| <= 1
    ensures Landing(ReplyStep(p)) == Landing(p)
  {
    if p.updRsp != [] {
      var u := p.updRsp[0];
      RepliedPush(p.insertRsp, u);
      if u.op == INSERT {
        assert Replied(p.updRsp) == [u.id] + Replied(p.updRsp[1..]);
        assert Replied(p.updRsp[1..]) == [] == Replied(p.insertRsp);
      }
    }
  }

  lemma ReplyKinds(p: Pipe)
    requires Kinds(p)
    ensures Kinds(ReplyStep(p))
  {
  }

  lemma ReplyProtocol(s: Sys)
    requires Protocol(s)
    ensures Protocol(s.(pipe := ReplyStep(s.pipe))) && Landing(ReplyStep(s.pipe)) == Landing(s.pipe)
  {
    ReplyPipe(s.pipe);
    ReplyKinds(s.pipe);
    var q := ReplyStep(s.pipe);
    assert Flight(q) == Flight(s.pipe) && q.updReq == s.pipe.updReq && q.used == s.pipe.used;
  }

  lemma ReplyInv(s: Sys)
    requires Inv(s)
    ensures Inv(s.(pipe := ReplyStep(s.pipe)))
  {
    ReplyProtocol(s);
    SameViews(s, s.(pipe := ReplyStep(s.pipe)));
  }

  /** A session about to become valid is not valid yet. */
  lemma NotYetValid(s: Sys)
    requires Conserved(s) && s.rev.inserts != []
    ensures !s.rev.valid[s.rev.inserts[0].id]
  {
    var p := s.rev.inserts[0];
    IdsHas(s.rev.inserts, p);
    assert Places(s, p.id) == 1;
  }

  lemma RecordInv(s: Sys)
    requires Inv(s) && s.rev.inserts != []
    ensures Inv(s.(rev := Record(s.rev)))
  {
    RecordConserves(s);
    RecordAgrees(s);
  }

  lemma RecordConserves(s: Sys)
    requires Conserved(s) && s.rev.inserts != []
    ensures Conserved(s.(rev := Record(s.rev)))
  {
    NotYetValid(s);
    var r := s.(rev := Record(s.rev));
    forall i: SessionId ensures Places(r, i) == 1 {
      IdsPop(s.rev.inserts, i);
      assert Places(s, i) == 1;
    }
  }

  lemma RecordAgrees(s: Sys)
    requires Conserved(s) && Agrees(s) && s.rev.inserts != []
    ensures Agrees(s.(rev := Record(s.rev)))
  {
    NotYetValid(s);
    var r := s.(rev := Record(s.rev));
    forall p: Pair ensures Entries(r, p) == One(CamHas(r.cam, p)) {
      Pop(s.rev.inserts, p);
      assert Entries(s, p) == One(CamHas(s.cam, p));
    }
  }

  lemma ReleasePipe(s: Sys)
    requires s.io.release != [] && s.rev.valid[s.io.release[0]] && Kinds(s.pipe)
    ensures var p, q, id := s.pipe, Release(s).pipe, s.io.release[0];
            && Flight(q) == Flight(p) && Landing(q) == Landing(p) && Kinds(q)
            && Pairs(q.deleteReq, DELETE) == Pairs(p.deleteReq, DELETE) + [Pair(id, s.rev.table[id])]
  {
    PairsPush(s.pipe.deleteReq, Update(Pair(s.io.release[0], s.rev.table[s.io.release[0]]), DELETE, RX), DELETE);
  }

  lemma ReleaseConserves(s: Sys)
    requires Conserved(s) && Kinds(s.pipe) && s.io.release != [] && s.rev.valid[s.io.release[0]]
    ensures Conserved(Release(s))
  {
    var r, id := Release(s), s.io.release[0];
    ReleasePipe(s);
    forall i: SessionId ensures Places(r, i) == 1 {
      IdsPush(Pairs(s.pipe.deleteReq, DELETE), Pair(id, s.rev.table[id]), i);
      assert Places(s, i) == 1;
    }
  }

  lemma ReleasedRev(r: Rev, id: SessionId, p: Pair)
    requires r.valid[id]
    ensures RevEntries(r, p) ==
            RevEntries(r.(valid := r.valid[id := false]), p) + One(Pair(id, r.table[id]) == p)
  {
  }

  lemma ReleasedEntry(s: Sys, p: Pair)
    requires Kinds(s.pipe) && s.io.release != [] && s.rev.valid[s.io.release[0]]
    ensures Entries(Release(s), p) == Entries(s, p)
  {
    var r, id := Release(s), s.io.release[0];
    ReleasePipe(s);
    Push(Pairs(s.pipe.deleteReq, DELETE), Pair(id, s.rev.table[id]), p);
    ReleasedRev(s.rev, id, p);
    assert r.rev == s.rev.(valid := s.rev.valid[id := false]);
    assert r.pipe.updReq == s.pipe.updReq;
  }

  lemma ReleaseAgrees(s: Sys)
    requires Agrees(s) && Kinds(s.pipe) && s.io.release != [] && s.rev.valid[s.io.release[0]]
    ensures Agrees(Release(s))
  {
    forall p: Pair ensures Entries(Release(s), p) == One(CamHas(Release(s).cam, p)) {
      ReleasedEntry(s, p);
    }
  }

  lemma ReleaseInv(s: Sys)
    requires Inv(s) && s.io.release != []
    ensures Inv(Release(s))
  {
    if s.rev.valid[s.io.release[0]] {
      ReleasePipe(s);
      ReleaseConserves(s);
      ReleaseAgrees(s);
    } else {
      FrontInv(s, s.front, Release(s).io);
      assert Release(s) == s.(front := s.front, io := Release(s).io);
    }
  }

  lemma ReverseInv(s: Sys, deleteRoom: bool, answerRoom: bool)
    requires Inv(s)
    ensures Inv(ReverseStep(s, deleteRoom, answerRoom))
  {
    if s.rev.inserts != [] {
      RecordInv(s);
    } else if s.io.release != [] && deleteRoom {
      ReleaseInv(s);
    } else {
      var r := ReverseStep(s, deleteRoom, answerRoom);
      FrontInv(s, s.front, r.io);
      assert r == s.(front := s.front, io := r.io);
    }
  }

  lemma CamLookupInv(s: Sys)
    requires Inv(s)
    ensures Inv(CamLookupStep(s))
  {
    var r := CamLookupStep(s);
    FrontInv(s, r.front, s.io);
    assert r == s.(front := r.front, io := s.io);
  }

  lemma InsertPipe(p: Pipe)
    requires p.updReq != [] && p.updReq[0].op == INSERT && |Flight(p)| + |Landing(p)| == 1
    ensures var u := p.updReq[0];
            var q := p.(updReq := p.updReq[1..], updRsp := p.updRsp + [UpdateReply(u.pair.id, INSERT, u.source)]);
            && Flight(p) == [u.pair] && Landing(p) == [] && Flight(q) == [] && Landing(q) == [u.pair.id]
            && Pairs(q.updReq, DELETE) == Pairs(p.updReq, DELETE) && Delta(q.updReq) == Delta(p.updReq) - 1
  {
    var u := p.updReq[0];
    RepliedPush(p.updRsp, UpdateReply(u.pair.id, INSERT, u.source));
    assert Pairs(p.updReq, INSERT) == [u.pair] + Pairs(p.updReq[1..], INSERT);
    assert |Pairs(p.updReq[1..], INSERT)| == 0 == |Pairs(p.insertReq, INSERT)|;
    var q := p.(updReq := p.updReq[1..], updRsp := p.updRsp + [UpdateReply(u.pair.id, INSERT, u.source)]);
    assert Flight(p) == [u.pair];
    assert Landing(q) == [u.pair.id];
  }

  lemma InsertConserves(s: Sys)
    requires Conserved(s) && |Flight(s.pipe)| + |Landing(s.pipe)| == 1
    requires s.pipe.updReq != [] && s.pipe.updReq[0].op == INSERT
    ensures Conserved(CamUpdateStep(s))
  {
    var r := CamUpdateStep(s);
    InsertPipe(s.pipe);
    forall i: SessionId ensures Places(r, i) == 1 {
      assert Ids(Flight(s.pipe)) == Landing(r.pipe);
      assert Ids(Flight(r.pipe)) == Landing(s.pipe);
      assert Places(s, i) == 1;
    }
  }

  lemma InsertedEntry(s: Sys, p: Pair)
    requires |Flight(s.pipe)| + |Landing(s.pipe)| == 1
    requires s.pipe.updReq != [] && s.pipe.updReq[0].op == INSERT
    requires s.front.tuples == [s.pipe.updReq[0].pair.tuple]
    ensures Entries(CamUpdateStep(s), p) == Entries(s, p) + One(p == s.pipe.updReq[0].pair)
  {
    var r, y := CamUpdateStep(s), s.pipe.updReq[0].pair;
    InsertPipe(s.pipe);
    assert Landed(r.front, r.pipe) == [y];
    assert Landed(s.front, s.pipe) == [];
  }

  lemma InsertedCam(cam: Cam, y: Pair, p: Pair)
    requires y.tuple !in cam
    ensures One(CamHas(cam[y.tuple := y.id], p)) == One(CamHas(cam, p)) + One(p == y)
  {
  }

  lemma InsertAgrees(s: Sys)
    requires Agrees(s) && |Flight(s.pipe)| + |Landing(s.pipe)| == 1
    requires s.pipe.updReq != [] && s.pipe.updReq[0].op == INSERT
    requires var t := s.pipe.updReq[0].pair.tuple; t !in s.cam && s.front.tuples == [t]
    ensures Agrees(CamUpdateStep(s))
  {
    var r, y := CamUpdateStep(s), s.pipe.updReq[0].pair;
    forall p: Pair ensures Entries(r, p) == One(CamHas(r.cam, p)) {
      InsertedEntry(s, p);
      assert Entries(s, p) == One(CamHas(s.cam, p));
      InsertedCam(s.cam, y, p);
    }
  }

  lemma HeadIsTheFlight(p: Pipe)
    requires p.updReq != [] && p.updReq[0].op == INSERT && |Flight(p)| + |Landing(p)| == 1
    ensures Landing(p) == [] && Ids(Flight(p)) == [p.updReq[0].pair.id]
  {
    InsertPipe(p);
  }

  lemma NowhereElse(s: Sys, i: SessionId)
    requires Ids(Flight(s.pipe)) == [i] && Places(s, i) == 1
    ensures !s.rev.valid[i] && multiset(Ids(s.rev.inserts))[i] == 0
    ensures multiset(Ids(Pairs(s.pipe.deleteReq, DELETE)))[i] == 0
  {
    assert multiset([i])[i] == 1;
  }

  lemma OnlyToDeleteOf(s: Sys, p: Pair)
    requires Entries(s, p) == 1 && Landing(s.pipe) == []
    requires !s.rev.valid[p.id] && multiset(Ids(s.rev.inserts))[p.id] == 0
    requires multiset(Ids(Pairs(s.pipe.deleteReq, DELETE)))[p.id] == 0
    ensures p in Pairs(s.pipe.updReq, DELETE)
  {
    IdsHas(s.rev.inserts, p);
    IdsHas(Pairs(s.pipe.deleteReq, DELETE), p);
  }

  lemma OnlyToDelete(s: Sys, p: Pair)
    requires |Flight(s.pipe)| + |Landing(s.pipe)| == 1
    requires s.pipe.updReq != [] && s.pipe.updReq[0].op == INSERT && s.pipe.updReq[0].pair.id == p.id
    requires Entries(s, p) == 1 && Places(s, p.id) == 1
    ensures p in Pairs(s.pipe.updReq, DELETE)
  {
    HeadIsTheFlight(s.pipe);
    NowhereElse(s, p.id);
    OnlyToDeleteOf(s, p);
  }

  /** When an insertion reaches the table, its ID is in no line of the table. */
  lemma InsertedIdIsNew(s: Sys, t: Tuple)
    requires Conserved(s) && Agrees(s) && Ordered(s.pipe.updReq)
    requires |Flight(s.pipe)| + |Landing(s.pipe)| == 1
    requires s.pipe.updReq != [] && s.pipe.updReq[0].op == INSERT && t in s.cam
    ensures s.cam[t] != s.pipe.updReq[0].pair.id
  {
    var i := s.pipe.updReq[0].pair.id;
    if s.cam[t] == i {
      var p := Pair(i, t);
      assert Entries(s, p) == 1 && Places(s, i) == 1;
      OnlyToDelete(s, p);
      var k := PairsFrom(s.pipe.updReq, DELETE, p);
      assert false;
    }
  }

  lemma InsertInv(s: Sys)
    requires Inv(s) && s.pipe.updReq != [] && s.pipe.updReq[0].op == INSERT
    ensures Inv(CamUpdateStep(s))
  {
    var p := s.pipe.updReq[0].pair;
    PairsAt(s.pipe.updReq, 0);
    assert p in Flight(s.pipe);
    InsertPipe(s.pipe);
    InsertConserves(s);
    InsertAgrees(s);
    forall t | t in s.cam ensures s.cam[t] != p.id { InsertedIdIsNew(s, t); }
    InsertProtocol(s);
  }

  lemma InsertProtocol(s: Sys)
    requires Protocol(s) && s.pipe.updReq != [] && s.pipe.updReq[0].op == INSERT
    requires s.pipe.updReq[0].pair.tuple !in s.cam && s.front.fsm == UPD_RSP
    ensures Protocol(CamUpdateStep(s))
  {
    InsertPipe(s.pipe);
  }

  lemma DeletePipe(p: Pipe)
    requires p.updReq != [] && p.updReq[0].op == DELETE
    ensures var u := p.updReq[0];
            var q := p.(updReq := p.updReq[1..], updRsp := p.updRsp + [UpdateReply(u.pair.id, DELETE, u.source)]);
            && Flight(q) == Flight(p) && Landing(q) == Landing(p)
            && Pairs(p.updReq, DELETE) == [u.pair] + Pairs(q.updReq, DELETE)
            && Delta(q.updReq) == Delta(p.updReq) + 1
  {
    var u := p.updReq[0];
    RepliedPush(p.updRsp, UpdateReply(u.pair.id, DELETE, u.source));
  }

  lemma DeleteConserves(s: Sys)
    requires Conserved(s) && s.pipe.updReq != [] && s.pipe.updReq[0].op == DELETE
    ensures Conserved(CamUpdateStep(s))
  {
    var r := CamUpdateStep(s);
    DeletePipe(s.pipe);
    forall i: SessionId ensures Places(r, i) == 1 {
      assert Places(s, i) == 1;
    }
  }

  /** When a deletion reaches the table, the table has the pair that it deletes. */
  lemma DeleteAgrees(s: Sys)
    requires Agrees(s) && s.pipe.updReq != [] && s.pipe.updReq[0].op == DELETE
    ensures Agrees(CamUpdateStep(s)) && CamHas(s.cam, s.pipe.updReq[0].pair)
  {
    var r, y := CamUpdateStep(s), s.pipe.updReq[0].pair;
    DeletePipe(s.pipe);
    assert Entries(s, y) == One(CamHas(s.cam, y));
    forall p: Pair ensures Entries(r, p) == One(CamHas(r.cam, p)) {
      Pop(Pairs(s.pipe.updReq, DELETE), p);
      assert Entries(s, p) == One(CamHas(s.cam, p));
    }
  }

  lemma DeleteProtocol(s: Sys)
    requires Protocol(s) && s.pipe.updReq != [] && s.pipe.updReq[0].op == DELETE
    requires s.pipe.updReq[0].pair.tuple in s.cam
    ensures Protocol(CamUpdateStep(s))
  {
    DeletePipe(s.pipe);
    var t := s.pipe.updReq[0].pair.tuple;
    assert |s.cam - {t}| == |s.cam| - 1 by {
      assert (s.cam - {t}).Keys == s.cam.Keys - {t};
    }
  }

  lemma CamUpdateInv(s: Sys)
    requires Inv(s)
    ensures Inv(CamUpdateStep(s))
  {
    if s.pipe.updReq != [] {
      if s.pipe.updReq[0].op == INSERT {
        InsertInv(s);
      } else {
        DeleteConserves(s);
        DeleteAgrees(s);
        DeleteProtocol(s);
      }
    }
  }

  lemma StepInv(s: Sys, a: Action)
    requires Inv(s)
    ensures Inv(Step(s, a))
  {
    match a
    case IssueId => IssueInv(s);
    case Lookup => LookupInvStep(s);
    case SendUpdate(finRoom) =>
      if s.pipe.insertReq != [] {
        SendInsertInv(s);
      } else if s.pipe.deleteReq != [] && finRoom {
        SendDeleteInv(s);
      }
    case HandleReply => ReplyInv(s);
    case Reverse(deleteRoom, answerRoom) => ReverseInv(s, deleteRoom, answerRoom);
    case CamLookup => CamLookupInv(s);
    case CamUpdate => CamUpdateInv(s);
    case _ =>
      FrontInv(s, s.front, Step(s, a).io);
      assert Step(s, a) == s.(front := s.front, io := Step(s, a).io);
  }

  lemma InitInv(s: Sys)
    requires Init(s)
    ensures Inv(s)
  {
    assert Ids([]) == [];
  }

  lemma {:induction false} RunInv(s: Sys, actions: seq<Action>)
    requires Inv(s)
    ensures Inv(Run(s, actions))
    decreases |actions|
  {
    if actions != [] {
      StepInv(s, actions[0]);
      RunInv(Step(s, actions[0]), actions[1..]);
    }
  }

  // ---------------------------------------------------------------- over whole runs

  /** Conservation: every ID is always in exactly one place. */
  lemma EveryIdHasOnePlace(init: Sys, actions: seq<Action>, i: SessionId)
    requires Init(init)
    ensures Places(Run(init, actions), i) == 1
  {
    InitInv(init);
    RunInv(init, actions);
  }

  /** The lookup table never maps two connections to one ID. */
  lemma LookupTableIsInjective(init: Sys, actions: seq<Action>, t: Tuple, u: Tuple)
    requires Init(init)
    requires var cam := Run(init, actions).cam; t in cam && u in cam && cam[t] == cam[u]
    ensures t == u
  {
    InitInv(init);
    RunInv(init, actions);
  }

  /** The two tables agree: a valid session's reverse entry is the connection that the
      lookup table maps to the session, and to no other place does a pair of the lookup
      table belong than to a valid session, to an insertion on its way back or to a
      deletion on its way. */
  lemma TablesAgree(init: Sys, actions: seq<Action>, p: Pair)
    requires Init(init)
    ensures var s := Run(init, actions);
            && (s.rev.valid[p.id] && s.rev.table[p.id] == p.tuple ==> CamHas(s.cam, p))
            && (CamHas(s.cam, p) && !s.rev.valid[p.id] ==>
                  || p in Landed(s.front, s.pipe) || p in s.rev.inserts
                  || p in Pairs(s.pipe.deleteReq, DELETE) || p in Pairs(s.pipe.updReq, DELETE))
  {
    InitInv(init);
    RunInv(init, actions);
    var s := Run(init, actions);
    assert Entries(s, p) == One(CamHas(s.cam, p));
  }

  /** An ID that the counter or the free list gives out belongs to no connection that is
      valid, is being inserted or is about to become valid. */
  lemma FreeIdsAreUnused(init: Sys, actions: seq<Action>, i: SessionId)
    requires Init(init)
    requires var p := Run(init, actions).pool; i >= p.counter || i in p.free || i in p.fin
    ensures var s := Run(init, actions);
            !s.rev.valid[i] && i !in Ids(Flight(s.pipe)) && i !in Landing(s.pipe) && i !in Ids(s.rev.inserts)
  {
    EveryIdHasOnePlace(init, actions, i);
  }

  lemma {:induction false} InjectiveSize(cam: Cam, n: nat)
    requires Injective(cam) && n <= MAX_SESSIONS && forall t <- cam :: cam[t] < n
    ensures |cam| <= n
    decreases n
  {
    if n == 0 {
      assert forall t <- cam :: cam[t] < 0;
      assert cam == map[];
    } else if t :| t in cam && cam[t] == n - 1 {
      var rest := cam - {t};
      assert rest.Keys == cam.Keys - {t};
      InjectiveSize(rest, n - 1);
    } else {
      InjectiveSize(cam, n - 1);
    }
  }

  /** The state when the lookup table has applied the updates queued for it. */
  function Drain(s: Sys): Sys
    decreases |s.pipe.updReq|
  {
    if s.pipe.updReq == [] then s else Drain(CamUpdateStep(s))
  }

  lemma {:induction false} DrainInv(s: Sys)
    requires Inv(s)
    ensures Inv(Drain(s)) && Drain(s).pipe.updReq == [] && Drain(s).pipe.used == s.pipe.used
    decreases |s.pipe.updReq|
  {
    if s.pipe.updReq != [] {
      CamUpdateInv(s);
      DrainInv(CamUpdateStep(s));
    }
  }

  lemma CountedAtRest(s: Sys)
    requires Inv(s) && s.pipe.updReq == []
    ensures s.pipe.used == |s.cam| <= MAX_SESSIONS
  {
    InjectiveSize(s.cam, MAX_SESSIONS);
  }

  /** The session counter is the size of the lookup table once the queued updates are
      applied, in spite of its 16 bits. */
  lemma UsedCountsTheTable(init: Sys, actions: seq<Action>)
    requires Init(init)
    ensures var s := Run(init, actions);
            s.pipe.used == |Drain(s).cam| <= MAX_SESSIONS
  {
    InitInv(init);
    RunInv(init, actions);
    var s := Run(init, actions);
    DrainInv(s);
    CountedAtRest(Drain(s));
  }

  /** A reverse lookup answers with the connection whose lookup gives the session back. */
  lemma ReverseAnswerLooksUp(init: Sys, actions: seq<Action>, i: SessionId)
    requires Init(init) && Run(init, actions).rev.valid[i]
    ensures var s := Run(init, actions);
            var t := FromTx(ToTx(s.rev.table[i]));
            t in s.cam && s.cam[t] == i
  {
    TablesAgree(init, actions, Pair(i, Run(init, actions).rev.table[i]));
  }

  // ---------------------------------------------------------------- the hardware's form

  /** The static variables and FIFOs of session_lookup_controller.cpp, grouped by the
      function that owns them, with its two tables updated in place. */
  class LookupController {
    var pool: Pool
    var front: Front
    var pipe: Pipe
    const reverseLookupTable: array<Tuple>
    const tupleValid: array<bool>
    var revTableInserts: seq<Pair>
    var lookupTable: Cam
    var io: Io

    ghost predicate Valid() {
      reverseLookupTable.Length == MAX_SESSIONS && tupleValid.Length == MAX_SESSIONS
    }

    ghost function Abs(): Sys
      reads this, reverseLookupTable, tupleValid
      requires Valid()
    {
      Sys(pool, front, pipe, Rev(reverseLookupTable[..], tupleValid[..], revTableInserts), lookupTable, io)
    }

    constructor ()
      ensures Valid() && Init(Abs())
    {
      pool := Pool(0, [], []);
      front := Front(LUP_REQ, [], [], [], []);
      pipe := Pipe([], [], [], [], [], 0);
      reverseLookupTable := new Tuple[MAX_SESSIONS](_ => Tuple(0, 0, 0, 0));
      tupleValid := new bool[MAX_SESSIONS](_ => false);
      revTableInserts, lookupTable := [], map[];
      io := Io([], [], [], [], [], [], [], []);
    }

    method SessionIdManager()
      requires Valid()
      modifies this`pool
      ensures Abs() == Step(old(Abs()), IssueId)
    {
      if pool.fin != [] {
        pool := pool.(free := pool.free + [pool.fin[0]], fin := pool.fin[1..]);
      } else if pool.counter < MAX_SESSIONS {
        pool := pool.(free := pool.free + [pool.counter], counter := pool.counter + 1);
      }
    }

    method RequestLookup()
      requires Valid()
      modifies this`io, this`front
      ensures Abs() == TakeQuery(old(Abs()))
    {
      if io.txQuery != [] {
        var t := io.txQuery[0];
        var q := Query(Tuple(t.srcIp, t.dstIp, t.srcPort, t.dstPort), true, TX_APP);
        io := io.(txQuery := io.txQuery[1..]);
        front := front.(lupReq := front.lupReq + [q], query := front.query + [q], fsm := LUP_RSP);
      } else if io.rxQuery != [] {
        var (t, allowCreation) := io.rxQuery[0];
        var q := Query(Tuple(t.dstIp, t.srcIp, t.dstPort, t.srcPort), allowCreation, RX);
        io := io.(rxQuery := io.rxQuery[1..]);
        front := front.(lupReq := front.lupReq + [q], query := front.query + [q], fsm := LUP_RSP);
      }
    }

    method Reply(source: Source, a: Answer)
      modifies this`io
      ensures io == Tell(old(io), source, a)
    {
      if source == RX {
        io := io.(rxRsp := io.rxRsp + [a]);
      } else {
        io := io.(txRsp := io.txRsp + [a]);
      }
    }

    method CreateSession(lupReply: LookupReply, tuple: Tuple)
      requires Valid() && pool.free != []
      modifies this`pool, this`pipe, this`front
      ensures pool == old(pool).(free := old(pool).free[1..])
      ensures front == old(front).(fsm := UPD_RSP, tuples := old(front).tuples + [tuple])
      ensures pipe == old(pipe).(insertReq :=
                old(pipe).insertReq + [Update(Pair(old(pool).free[0], tuple), INSERT, lupReply.source)])
    {
      var freeID := pool.free[0];
      pool := pool.(free := pool.free[1..]);
      pipe := pipe.(insertReq := pipe.insertReq + [Update(Pair(freeID, tuple), INSERT, lupReply.source)]);
      front := front.(tuples := front.tuples + [tuple], fsm := UPD_RSP);
    }

    method HandleLookupReply()
      requires Valid()
      modifies this`pool, this`pipe, this`front, this`io
      ensures Abs() == TakeLookupReply(old(Abs()))
    {
      if front.lupRsp != [] && front.query != [] {
        var lupReply, intQuery := front.lupRsp[0], front.query[0];
        front := front.(lupRsp := front.lupRsp[1..], query := front.query[1..]);
        if !lupReply.hit && intQuery.allowCreation && pool.free != [] {
          CreateSession(lupReply, intQuery.tuple);
        } else {
          Reply(lupReply.source, Answer(lupReply.id, lupReply.hit));
          front := front.(fsm := LUP_REQ);
        }
      }
    }

    method HandleInsertReply()
      requires Valid()
      modifies this`pipe, this`front, this`io, this`revTableInserts
      ensures Abs() == TakeInsertReply(old(Abs()))
    {
      if pipe.insertRsp != [] && front.tuples != [] {
        var insertReply, tuple := pipe.insertRsp[0], front.tuples[0];
        pipe := pipe.(insertRsp := pipe.insertRsp[1..]);
        Reply(insertReply.source, Answer(insertReply.id, true));
        revTableInserts := revTableInserts + [Pair(insertReply.id, tuple)];
        front := front.(tuples := front.tuples[1..], fsm := LUP_REQ);
      }
    }

    method LookupReplyHandler()
      requires Valid()
      modifies this
      ensures Abs() == Step(old(Abs()), Lookup)
    {
      match front.fsm
      case LUP_REQ => RequestLookup();
      case LUP_RSP => HandleLookupReply();
      case UPD_RSP => HandleInsertReply();
    }

    method UpdateRequestSender(finRoom: bool)
      requires Valid()
      modifies this`pipe, this`pool
      ensures Abs() == Step(old(Abs()), SendUpdate(finRoom))
    {
      if pipe.insertReq != [] {
        pipe := pipe.(updReq := pipe.updReq + [pipe.insertReq[0]], insertReq := pipe.insertReq[1..],
                      used := (pipe.used + 1) % 0x1_0000);
      } else if pipe.deleteReq != [] && finRoom {
        var request := pipe.deleteReq[0];
        pipe := pipe.(deleteReq := pipe.deleteReq[1..], updReq := pipe.updReq + [request],
                      used := (pipe.used - 1) % 0x1_0000);
        pool := pool.(fin := pool.fin + [request.pair.id]);
      }
    }

    method UpdateReplyHandler()
      requires Valid()
      modifies this`pipe
      ensures Abs() == Step(old(Abs()), HandleReply)
    {
      if pipe.updRsp != [] {
        var upReply := pipe.updRsp[0];
        pipe := pipe.(updRsp := pipe.updRsp[1..]);
        if upReply.op == INSERT {
          pipe := pipe.(insertRsp := pipe.insertRsp + [upReply]);
        }
      }
    }

    method RecordInsert()
      requires Valid() && revTableInserts != []
      modifies this`revTableInserts, reverseLookupTable, tupleValid
      ensures Abs() == var s := old(Abs()); s.(rev := Record(s.rev))
    {
      var insert := revTableInserts[0];
      revTableInserts := revTableInserts[1..];
      reverseLookupTable[insert.id] := insert.tuple;
      tupleValid[insert.id] := true;
    }

    /** The flag is cleared either way; for an ID that is not valid that changes nothing. */
    method ClearValid(id: SessionId)
      requires Valid()
      modifies tupleValid
      ensures tupleValid[..] == old(tupleValid[..])[id := false]
      ensures !old(tupleValid[id]) ==> tupleValid[..] == old(tupleValid[..])
    {
      tupleValid[id] := false;
    }

    method ReleaseTuple()
      requires Valid() && io.release != []
      modifies this`io, this`pipe, tupleValid
      ensures Abs() == Release(old(Abs()))
    {
      var sessionID := io.release[0];
      var releaseTuple := reverseLookupTable[sessionID];
      io := io.(release := io.release[1..]);
      if tupleValid[sessionID] {
        io := io.(ports := io.ports + [releaseTuple.myPort]);
        pipe := pipe.(deleteReq := pipe.deleteReq + [Update(Pair(sessionID, releaseTuple), DELETE, RX)]);
      }
      ClearValid(sessionID);
    }

    method ReverseLookupTableInterface(deleteRoom: bool, answerRoom: bool)
      requires Valid()
      modifies this, reverseLookupTable, tupleValid
      ensures Abs() == Step(old(Abs()), Reverse(deleteRoom, answerRoom))
    {
      if revTableInserts != [] {
        RecordInsert();
      } else if io.release != [] && deleteRoom {
        ReleaseTuple();
      } else if io.revQuery != [] && answerRoom {
        var t := reverseLookupTable[io.revQuery[0]];
        io := io.(revQuery := io.revQuery[1..],
                  revRsp := io.revRsp + [FourTuple(t.myIp, t.theirIp, t.myPort, t.theirPort)]);
      }
    }
  }
}
