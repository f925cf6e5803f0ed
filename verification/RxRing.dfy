/** The receive path of one session, from the segments that `rxTcpFSM` accepts to the bytes
    that the application reads: the payload branches of `rxTcpFSM` (rx_engine.cpp),
    rx_sar_table.cpp, rx_app_stream_if.cpp, `rxAppNotificationDelayer` and the window that
    tx_engine.cpp advertises.

    The pointers of the table are the low 32 or 16 bits of unbounded stream offsets; the
    record `Aux` keeps the offsets. The memory executes the write and the read commands of a
    session in the order in which they are issued. What other sessions do shows here only as
    time that passes between two steps. */
module RxRing {
  import opened Toe
  import opened Ring

  /** A segment with its payload; `open` says whether the session's state lets it in. */
  datatype Segment = Segment(seqNumb: U32, data: seq<Byte>, fin: bool)

  datatype Entry = Entry(recvd: U32, appd: U16)

  /** Requests of `rxTcpFSM` and of `rx_app_stream_if` to the table. */
  datatype EngReq = EngRead | EngWrite(recvd: U32)
  datatype AppReq = AppRead | AppWrite(appd: U16)

  datatype Fsm = Load | Transition(segment: Segment)
  datatype Rasi = Ready | Waiting(readLength: U16)

  /** A memory command with the ring address in its low 16 bits; a write comes with its
      payload. */
  datatype Op = Write(at: U16, data: seq<Byte>) | Read(at: U16, len: nat)

  datatype Advert = Advert(ack: U32, window: U16)

  /** `rxTcpFSM`'s side: its phase, the table's FIFOs to it, and the segments to come. */
  datatype Eng = Eng(fsm: Fsm, req: seq<EngReq>, rsp: seq<Entry>)

  /** The application's side: the read requests, and the two-state machine. */
  datatype App = App(requests: seq<nat>, rasi: Rasi, req: seq<AppReq>, rsp: seq<U16>)

  /** The memory, its pending commands and write statuses, the notifications that wait for
      a status, and what was read. */
  datatype Mem = Mem(ops: seq<Op>, ring: Ring, statuses: nat, notifications: seq<nat>, emitted: seq<Byte>)

  /** History: the accepted payload and FIN, the bytes notified, the offsets behind the two
      pointers of the table and behind the pointer last given to `rxTcpFSM`, the bytes in
      issued read commands, the right edges advertised, and the furthest offset that an
      advertisement took for the application's pointer: a repeated SYN-ACK takes the receive
      pointer for it. */
  datatype Aux = Aux(
    base: U32, accepted: seq<Byte>, fin: bool, notified: nat,
    recvdOff: nat, appdOff: nat, seenOff: nat, issued: nat, edges: seq<nat>, claimed: nat)

  datatype Sess = Sess(entry: Entry, eng: Eng, app: App, mem: Mem, adverts: seq<Advert>, aux: Aux)

  datatype Action =
    | Receive(segment: Segment)
    | Accept(open: bool)
    | TableForApp
    | TableForEngine
    | Advertise
    | SynAckAgain
    | Request(length: U16)
    | AppTick
    | Memory
    | Notify

  // ---------------------------------------------------------------- the steps

  /** What `rxTcpFSM` and the TX engine compute from an entry: the ring space but one byte. */
  function FreeSpace(e: Entry): U16 {
    Low16(e.appd - Low16(e.recvd) - 1)
  }

  /** Case LOAD. */
  function ReceiveStep(e: Eng, segment: Segment): Eng {
    if e.fsm == Load then e.(fsm := Transition(segment), req := e.req + [EngRead]) else e
  }

  /** In order, and for a data segment, with enough free space. The branch for FIN does not
      look at the space. */
  predicate Accepts(segment: Segment, e: Entry) {
    && segment.seqNumb == e.recvd
    && (segment.fin || FreeSpace(e) > |segment.data|)
  }

  /** Taking the payload: the write command and the notification, unless there is none. */
  function StoreStep(m: Mem, segment: Segment): Mem {
    if segment.data == [] then m
    else m.(ops := m.ops + [Write(Low16(segment.seqNumb), segment.data)],
            notifications := m.notifications + [|segment.data|])
  }

  function NewRecvd(segment: Segment): U32 {
    Low32(segment.seqNumb + |segment.data| + if segment.fin then 1 else 0)
  }

  function Taken(x: Aux, segment: Segment): Aux {
    x.(accepted := x.accepted + segment.data, fin := x.fin || segment.fin)
  }

  /** Case TRANSITION of `rxTcpFSM` for a segment with ACK, with or without FIN. */
  function AcceptStep(s: Sess, open: bool): Sess {
    if !s.eng.fsm.Transition? || s.eng.rsp == [] then s
    else
      var g := s.eng.fsm.segment;
      var e := s.eng.(fsm := Load, rsp := s.eng.rsp[1..]);
      if open && (g.fin || g.data != []) && Accepts(g, s.eng.rsp[0]) then
        s.(eng := e.(req := e.req + [EngWrite(NewRecvd(g))]), mem := StoreStep(s.mem, g), aux := Taken(s.aux, g))
      else s.(eng := e)
  }

  /** `rx_sar_table` for the RX engine. */
  function EngineStep(s: Sess): Sess {
    if s.eng.req == [] then s
    else
      var e := s.eng.(req := s.eng.req[1..]);
      match s.eng.req[0]
      case EngWrite(recvd) =>
        s.(eng := e, entry := s.entry.(recvd := recvd),
           aux := s.aux.(recvdOff := |s.aux.accepted| + if s.aux.fin then 1 else 0))
      case EngRead =>
        s.(eng := e.(rsp := e.rsp + [s.entry]), aux := s.aux.(seenOff := s.aux.appdOff))
  }

  /** `rx_sar_table` for `rx_app_stream_if`. */
  function TableAppStep(s: Sess): Sess {
    if s.app.req == [] then s
    else
      var p := s.app.(req := s.app.req[1..]);
      match s.app.req[0]
      case AppWrite(appd) => s.(app := p, entry := s.entry.(appd := appd), aux := s.aux.(appdOff := s.aux.issued))
      case AppRead => s.(app := p.(rsp := p.rsp + [s.entry.appd]))
  }

  /** The receive pointer is a whole ring ahead, which 16 bits do not tell from no lead at all. */
  predicate Overrun(x: Aux) {
    x.appdOff + RING <= x.recvdOff
  }

  /** `rx_sar_table` for the TX engine, and the window it sends. */
  function AdvertiseStep(s: Sess): Sess {
    var x, window := s.aux, FreeSpace(s.entry);
    s.(adverts := s.adverts + [Advert(s.entry.recvd, window)],
       aux := x.(edges := x.edges + [x.recvdOff + window],
                 claimed := if Overrun(x) && x.claimed < x.appdOff + RING then x.appdOff + RING else x.claimed))
  }

  /** Case SYN_ACK of the TX engine for a SYN-ACK that is sent again: its window is fixed. */
  function SynAckStep(s: Sess): Sess {
    s.(adverts := s.adverts + [Advert(s.entry.recvd, 0xFFFF)],
       aux := s.aux.(edges := s.aux.edges + [s.aux.recvdOff + 0xFFFF], claimed := s.aux.recvdOff))
  }

  /** State 0 of `rx_app_stream_if`; a request of no bytes is taken and ignored. */
  function TakeRequest(p: App): App {
    if p.requests == [] then p
    else if p.requests[0] == 0 then p.(requests := p.requests[1..])
    else p.(requests := p.requests[1..], rasi := Waiting(Low16(p.requests[0])), req := p.req + [AppRead])
  }

  /** State 1 of `rx_app_stream_if`. */
  function IssueRead(s: Sess): Sess
    requires s.app.rasi.Waiting?
  {
    if s.app.rsp == [] then s
    else
      var appd, n := s.app.rsp[0], s.app.rasi.readLength;
      s.(app := s.app.(rsp := s.app.rsp[1..], rasi := Ready, req := s.app.req + [AppWrite(Low16(appd + n))]),
         mem := s.mem.(ops := s.mem.ops + [Read(appd, n)]),
         aux := s.aux.(issued := s.aux.issued + n))
  }

  function AppStep(s: Sess): Sess {
    if s.app.rasi == Ready then s.(app := TakeRequest(s.app)) else IssueRead(s)
  }

  /** The memory executes its oldest command; a write is answered with a status. */
  function MemoryStep(m: Mem): Mem {
    if m.ops == [] then m
    else
      var r := m.(ops := m.ops[1..]);
      match m.ops[0]
      case Write(at, data) =>
        if |data| <= RING then r.(ring := Stored(m.ring, at, data), statuses := m.statuses + 1) else r
      case Read(at, len) => r.(emitted := m.emitted + Loaded(m.ring, at, len))
  }

  /** `rxAppNotificationDelayer`: a notification leaves when its write is done. */
  function NotifyStep(s: Sess): Sess {
    if s.mem.statuses == 0 || s.mem.notifications == [] then s
    else s.(mem := s.mem.(statuses := s.mem.statuses - 1, notifications := s.mem.notifications[1..]),
            aux := s.aux.(notified := s.aux.notified + s.mem.notifications[0]))
  }

  /** The bytes that the application was told of and has not asked for. */
  function Credit(s: Sess): int {
    s.aux.notified - s.aux.issued - Sum(s.app.requests)
    - if s.app.rasi.Waiting? then s.app.rasi.readLength else 0
  }

  function Step(s: Sess, a: Action): Sess {
    match a
    case Receive(segment) => s.(eng := ReceiveStep(s.eng, segment))
    case Accept(open) => AcceptStep(s, open)
    case TableForApp => TableAppStep(s)
    case TableForEngine => EngineStep(s)
    case Advertise => AdvertiseStep(s)
    case SynAckAgain => SynAckStep(s)
    case Request(length) =>
      if length <= Credit(s) then s.(app := s.app.(requests := s.app.requests + [length])) else s
    case AppTick => AppStep(s)
    case Memory => s.(mem := MemoryStep(s.mem))
    case Notify => NotifyStep(s)
  }

  function Run(s: Sess, actions: seq<Action>): Sess
    decreases |actions|
  {
    if actions == [] then s else Run(Step(s, actions[0]), actions[1..])
  }

  /** A connection just initialised by a SYN: both pointers at the first payload byte, and
      the window 0xFFFF of the SYN or SYN-ACK sent. */
  predicate Init(s: Sess) {
    && s.entry == Entry(s.aux.base, Low16(s.aux.base))
    && s.eng == Eng(Load, [], []) && s.app == App([], Ready, [], [])
    && s.mem.ops == [] && s.mem.statuses == 0 && s.mem.notifications == [] && s.mem.emitted == []
    && s.adverts == [Advert(s.aux.base, 0xFFFF)]
    && s.aux == Aux(s.aux.base, [], false, 0, 0, 0, 0, 0, [0xFFFF], 0)
  }

  /** The start of a connection, whatever an earlier one left in the ring. */
  function Start(base: U32, ring: Ring): (s: Sess)
    ensures Init(s)
  {
    Sess(Entry(base, Low16(base)), Eng(Load, [], []), App([], Ready, [], []), Mem([], ring, 0, [], []),
         [Advert(base, 0xFFFF)], Aux(base, [], false, 0, 0, 0, 0, 0, [0xFFFF], 0))
  }

  /** The offset one past everything accepted, the FIN included. */
  function RecvEnd(x: Aux): nat {
    |x.accepted| + if x.fin then 1 else 0
  }

  function Length(g: Segment): nat {
    |g.data| + if g.fin then 1 else 0
  }

  /** The offset is inside a window that was advertised. */
  predicate Inside(edges: seq<nat>, n: nat) {
    exists e :: e in edges && n <= e
  }

  /** A segment with something new at the receive pointer lies inside an advertised window, and
      nothing new comes after a FIN. */
  predicate Fits(x: Aux, g: Segment) {
    g.seqNumb == Low32(x.base + RecvEnd(x)) && (g.fin || g.data != []) ==>
      !x.fin && Inside(x.edges, RecvEnd(x) + Length(g))
  }

  /** The peer stays inside what was advertised to it. */
  predicate Conforming(s: Sess, a: Action) {
    a.Receive? && s.eng.fsm == Load ==> Fits(s.aux, a.segment)
  }

  predicate ConformingRun(s: Sess, actions: seq<Action>)
    decreases |actions|
  {
    actions == [] || (Conforming(s, actions[0]) && ConformingRun(Step(s, actions[0]), actions[1..]))
  }

  // ---------------------------------------------------------------- the invariant

  /** The requests of `rxTcpFSM` alternate; `top` is the newest receive offset, and it is in
      the last write. */
  predicate EngInv(e: Eng, recvd: U32, base: U32, top: nat, recvdOff: nat, seenOff: nat, fin: bool) {
    var writes := if e.req != [] && e.req[0].EngWrite? then 1 else 0;
    && (writes == 1 ==> e.req[0] == EngWrite(Low32(base + top)))
    && (writes == 0 ==> recvdOff == top)
    && recvd == Low32(base + recvdOff)
    && (if e.fsm == Load then |e.req| == writes && e.rsp == []
        else if e.rsp == [] then |e.req| == writes + 1 && e.req[writes] == EngRead
        else && e.req == [] && e.rsp == [Entry(Low32(base + top), Low16(base + seenOff))]
             && (!fin ==> top <= seenOff + 0xFFFF))
  }

  /** The requests of `rx_app_stream_if` alternate in the same way. */
  predicate AppInv(p: App, appd: U16, base: U32, issued: nat, appdOff: nat) {
    var top := Low16(base + issued);
    var writes := if p.req != [] && p.req[0].AppWrite? then 1 else 0;
    && (writes == 1 ==> p.req[0] == AppWrite(top))
    && (writes == 0 ==> appdOff == issued)
    && appd == Low16(base + appdOff)
    && (if p.rasi == Ready then |p.req| == writes && p.rsp == []
        else if p.rsp == [] then |p.req| == writes + 1 && p.req[writes] == AppRead
        else p.req == [] && p.rsp == [top])
    && (p.rasi.Waiting? ==> p.rasi.readLength > 0)
    && (forall k :: 0 <= k < |p.requests| ==> p.requests[k] < 0x1_0000)
  }

  /** The commands from `w` bytes written and `r` bytes read on: writes and reads follow one
      another, a read finds its bytes written, and a write overwrites only what was read. */
  predicate OpsInv(ops: seq<Op>, base: U32, accepted: seq<Byte>, issued: nat, w: nat, r: nat) {
    if ops == [] then w == |accepted| && r == issued
    else match ops[0]
      case Write(at, data) =>
        && at == Low16(base + w) && w + |data| <= |accepted| && data == accepted[w..w + |data|]
        && 0 < |data| && w + |data| <= r + RING
        && OpsInv(ops[1..], base, accepted, issued, w + |data|, r)
      case Read(at, len) =>
        && at == Low16(base + r) && r + len <= w
        && OpsInv(ops[1..], base, accepted, issued, w, r + len)
  }

  /** The lengths of the pending writes. */
  function WriteLens(ops: seq<Op>): seq<nat> {
    if ops == [] then []
    else (if ops[0].Write? then [|ops[0].data|] else []) + WriteLens(ops[1..])
  }

  /** The bytes that are written. */
  function WrittenBytes(m: Mem, notified: nat): nat {
    notified + if m.statuses <= |m.notifications| then Sum(m.notifications[..m.statuses]) else 0
  }

  predicate MemInv(m: Mem, base: U32, accepted: seq<Byte>, issued: nat, notified: nat) {
    && m.statuses <= |m.notifications|
    && WriteLens(m.ops) == m.notifications[m.statuses..]
    && OpsInv(m.ops, base, accepted, issued, WrittenBytes(m, notified), |m.emitted|)
    && RingInv(m.ring, base, accepted, WrittenBytes(m, notified), |m.emitted|)
    && m.emitted == accepted[..|m.emitted|]
  }

  /** Every pending write has its notification, and every notification that did not leave yet is
      part of what was accepted. */
  predicate CountInv(m: Mem, accepted: nat, notified: nat) {
    && m.statuses <= |m.notifications| && WriteLens(m.ops) == m.notifications[m.statuses..]
    && notified + Sum(m.notifications) == accepted
    && forall n <- m.notifications :: n <= RING
  }

  /** The offsets are ordered. Before a FIN the free space keeps what is received within the
      ring. */
  predicate WindowInv(x: Aux, top: nat) {
    && x.seenOff <= x.appdOff <= x.issued <= x.notified
    && x.recvdOff <= top <= x.recvdOff + 0xFFFF && top <= x.appdOff + 0x1_FFFE
    && (!x.fin ==> top <= x.appdOff + 0xFFFF)
  }

  /** What the edges are bounded by. */
  predicate EdgesInv(x: Aux, top: nat) {
    && Inside(x.edges, top) && x.claimed <= x.recvdOff && x.claimed + 0xFFFF in x.edges
    && forall e <- x.edges :: e <= x.recvdOff + 0xFFFF && (e <= x.appdOff + 0xFFFF || e <= x.claimed + 0xFFFF)
  }

  /** An advertisement names its right edge modulo 2^32. */
  predicate AdvertInv(base: U32, edges: seq<nat>, adverts: seq<Advert>) {
    && |adverts| == |edges|
    && forall k :: 0 <= k < |adverts| ==> Low32(adverts[k].ack + adverts[k].window) == Low32(base + edges[k])
  }

  /** The pointers: kept by every step while the peer conforms. */
  predicate Inv(s: Sess) {
    var x := s.aux;
    && EngInv(s.eng, s.entry.recvd, x.base, RecvEnd(x), x.recvdOff, x.seenOff, x.fin)
    && (s.eng.fsm.Transition? ==> Fits(x, s.eng.fsm.segment))
    && AppInv(s.app, s.entry.appd, x.base, x.issued, x.appdOff)
    && CountInv(s.mem, |x.accepted|, x.notified)
    && WindowInv(x, RecvEnd(x)) && EdgesInv(x, RecvEnd(x)) && AdvertInv(x.base, x.edges, s.adverts)
    && Credit(s) >= 0
  }

  /** And the contents of the ring: kept while what is accepted finds room in it. */
  predicate Contents(s: Sess) {
    MemInv(s.mem, s.aux.base, s.aux.accepted, s.aux.issued, s.aux.notified)
  }

  lemma FreeSpaceIs(base: int, r: int, a: int)
    ensures a <= r <= a + 0xFFFF ==>
              FreeSpace(Entry(Low32(base + r), Low16(base + a))) == 0xFFFF - (r - a)
    ensures r < a <= r + 0x1_0000 ==>
              FreeSpace(Entry(Low32(base + r), Low16(base + a))) == a - r - 1
    ensures a + 0x1_0000 <= r <= a + 0x1_FFFF ==>
              FreeSpace(Entry(Low32(base + r), Low16(base + a))) == 0x1_FFFF - (r - a)
  {
    Distance(base, r, a);
  }

  // ---------------------------------------------------------------- the queues

  lemma Regroup(a: seq<nat>, b: seq<nat>, c: seq<nat>)
    ensures a + (b + c) == a + b + c
  {
  }

  lemma {:induction false} WriteLensPush(ops: seq<Op>, op: Op)
    ensures WriteLens(ops + [op]) == WriteLens(ops) + if op.Write? then [|op.data|] else []
  {
    if ops == [] {
    } else {
      assert (ops + [op])[1..] == ops[1..] + [op];
      WriteLensPush(ops[1..], op);
      Regroup(if ops[0].Write? then [|ops[0].data|] else [], WriteLens(ops[1..]), if op.Write?
          then [|op.data|] else []);
    }
  }

  /** The newly accepted payload fits behind everything that is asked for. */
  lemma {:induction false} OpsPushWrite(ops: seq<Op>, base: U32, accepted: seq<Byte>, issued: nat, w: nat, r: nat,
      data: seq<Byte>)
    requires OpsInv(ops, base, accepted, issued, w, r)
    requires 0 < |data| && |accepted| + |data| <= issued + RING
    ensures OpsInv(ops + [Write(Low16(base + |accepted|), data)], base, accepted + data, issued, w, r)
  {
    var op, all := Write(Low16(base + |accepted|), data), accepted + data;
    if ops == [] {
      assert all[w..w + |data|] == data;
      assert OpsInv([], base, all, issued, w + |data|, r);
      assert [op][1..] == [];
    } else {
      assert (ops + [op])[1..] == ops[1..] + [op];
      match ops[0]
      case Write(at, d) =>
        OpsPushWrite(ops[1..], base, accepted, issued, w + |d|, r, data);
        assert all[w..w + |d|] == accepted[w..w + |d|];
      case Read(at, len) =>
        OpsPushWrite(ops[1..], base, accepted, issued, w, r + len, data);
    }
  }

  /** A read of accepted bytes follows the writes of these bytes. */
  lemma {:induction false} OpsPushRead(ops: seq<Op>, base: U32, accepted: seq<Byte>, issued: nat, w: nat, r: nat,
      n: nat)
    requires OpsInv(ops, base, accepted, issued, w, r) && issued + n <= |accepted|
    ensures OpsInv(ops + [Read(Low16(base + issued), n)], base, accepted, issued + n, w, r)
  {
    var op := Read(Low16(base + issued), n);
    if ops == [] {
      assert OpsInv([], base, accepted, issued + n, w, r + n);
      assert [op][1..] == [];
    } else {
      assert (ops + [op])[1..] == ops[1..] + [op];
      match ops[0]
      case Write(at, d) => OpsPushRead(ops[1..], base, accepted, issued, w + |d|, r, n);
      case Read(at, len) => OpsPushRead(ops[1..], base, accepted, issued, w, r + len, n);
    }
  }

  /** What is issued is at least what is read, and what is accepted what is written. */
  lemma {:induction false} OpsGrow(ops: seq<Op>, base: U32, accepted: seq<Byte>, issued: nat, w: nat, r: nat)
    requires OpsInv(ops, base, accepted, issued, w, r)
    ensures w <= |accepted| && r <= issued
  {
    if ops != [] {
      match ops[0]
      case Write(at, d) => OpsGrow(ops[1..], base, accepted, issued, w + |d|, r);
      case Read(at, len) => OpsGrow(ops[1..], base, accepted, issued, w, r + len);
    }
  }

  // ---------------------------------------------------------------- the memory

  lemma WrittenNext(m: Mem, notified: nat)
    requires m.statuses <= |m.notifications| && WriteLens(m.ops) == m.notifications[m.statuses..]
    requires m.ops != [] && m.ops[0].Write?
    ensures m.statuses < |m.notifications|
    ensures notified + Sum(m.notifications[..m.statuses + 1]) == WrittenBytes(m, notified) + |m.ops[0].data|
    ensures WriteLens(m.ops[1..]) == m.notifications[m.statuses + 1..]
  {
    var n := m.statuses;
    assert m.notifications[n..][0] == m.notifications[n];
    assert m.notifications[..n + 1] == m.notifications[..n] + [m.notifications[n]];
    SumPush(m.notifications[..n], m.notifications[n]);
    assert m.notifications[n..][1..] == m.notifications[n + 1..];
  }

  lemma MemoryWrite(m: Mem, base: U32, accepted: seq<Byte>, issued: nat, notified: nat)
    requires MemInv(m, base, accepted, issued, notified) && m.ops != [] && m.ops[0].Write?
    ensures MemInv(MemoryStep(m), base, accepted, issued, notified)
  {
    WrittenNext(m, notified);
    var w, d := WrittenBytes(m, notified), m.ops[0].data;
    WriteRing(m.ring, base, accepted, w, |m.emitted|, d);
    assert WrittenBytes(MemoryStep(m), notified) == w + |d|;
  }

  lemma MemoryRead(m: Mem, base: U32, accepted: seq<Byte>, issued: nat, notified: nat)
    requires MemInv(m, base, accepted, issued, notified) && m.ops != [] && m.ops[0].Read?
    ensures MemInv(MemoryStep(m), base, accepted, issued, notified)
  {
    var e, n := |m.emitted|, m.ops[0].len;
    ReadRing(m.ring, base, accepted, WrittenBytes(m, notified), e, n);
    assert accepted[..e] + accepted[e..e + n] == accepted[..e + n];
  }

  lemma NotifyMem(m: Mem, base: U32, accepted: seq<Byte>, issued: nat, notified: nat)
    requires MemInv(m, base, accepted, issued, notified) && m.statuses > 0 && m.notifications != []
    ensures MemInv(m.(statuses := m.statuses - 1, notifications := m.notifications[1..]),
                   base, accepted, issued, notified + m.notifications[0])
  {
    var n := m.statuses;
    assert m.notifications[..n][1..] == m.notifications[1..][..n - 1];
    assert m.notifications[1..][n - 1..] == m.notifications[n..];
  }

  lemma {:induction false} CountWrite(m: Mem, accepted: nat, notified: nat)
    requires CountInv(m, accepted, notified) && m.ops != []
    ensures CountInv(MemoryStep(m), accepted, notified) && (m.ops[0].Write? ==> |m.ops[0].data| <= RING)
  {
    if m.ops[0].Write? {
      var n := m.statuses;
      assert WriteLens(m.ops)[0] == |m.ops[0].data| && WriteLens(m.ops)[1..] == WriteLens(m.ops[1..]);
      assert m.notifications[n..][0] == m.notifications[n] && m.notifications[n] in m.notifications;
      assert m.notifications[n..][1..] == m.notifications[n + 1..];
    }
  }

  lemma CountNotify(m: Mem, accepted: nat, notified: nat)
    requires CountInv(m, accepted, notified) && m.statuses > 0 && m.notifications != []
    ensures CountInv(m.(statuses := m.statuses - 1, notifications := m.notifications[1..]),
                     accepted, notified + m.notifications[0])
  {
    var rest := m.notifications[1..];
    assert rest[m.statuses - 1..] == m.notifications[m.statuses..];
    assert forall n <- rest :: n in m.notifications;
  }

  lemma CountStore(m: Mem, g: Segment, accepted: nat, notified: nat)
    requires CountInv(m, accepted, notified) && |g.data| <= RING
    ensures CountInv(StoreStep(m, g), accepted + |g.data|, notified)
  {
    if g.data != [] {
      StoreLens(m, g);
      SumPush(m.notifications, |g.data|);
    }
  }

  /** The bytes the application was told of are accepted. */
  lemma Bounds(s: Sess)
    requires Inv(s)
    ensures s.aux.issued <= s.aux.notified <= |s.aux.accepted|
    ensures s.app.rasi.Waiting? ==> s.aux.issued + s.app.rasi.readLength <= s.aux.notified
  {
  }

  // ---------------------------------------------------------------- every step keeps it

  lemma ReceiveInv(s: Sess, g: Segment)
    requires Inv(s) && Conforming(s, Receive(g))
    ensures Inv(Step(s, Receive(g)))
  {
  }

  predicate Deciding(e: Eng) {
    e.fsm.Transition? && e.rsp != []
  }

  /** An accepted segment starts at the receive pointer and, if the free space is checked,
      ends at most 0xFFFF bytes past the pointer that was seen. */
  lemma AcceptedFits(e: Eng, recvd: U32, base: U32, top: nat, recvdOff: nat, seenOff: nat)
    requires EngInv(e, recvd, base, top, recvdOff, seenOff, false) && Deciding(e)
    requires seenOff <= top && Accepts(e.fsm.segment, e.rsp[0])
    ensures !e.fsm.segment.fin ==> top + |e.fsm.segment.data| < seenOff + 0xFFFF
  {
    FreeSpaceIs(base, top, seenOff);
  }

  lemma StoreInv(m: Mem, g: Segment, base: U32, accepted: seq<Byte>, issued: nat, notified: nat)
    requires MemInv(m, base, accepted, issued, notified) && g.seqNumb == Low32(base + |accepted|)
    requires |accepted| + |g.data| <= issued + RING
    ensures MemInv(StoreStep(m, g), base, accepted + g.data, issued, notified)
  {
    var w, e := WrittenBytes(m, notified), |m.emitted|;
    OpsGrow(m.ops, base, accepted, issued, w, e);
    if g.data == [] {
      assert accepted + g.data == accepted;
    } else {
      Low16OfLow32(base + |accepted|);
      OpsPushWrite(m.ops, base, accepted, issued, w, e, g.data);
      StoreLens(m, g);
    }
  }

  lemma StoreLens(m: Mem, g: Segment)
    requires g.data != [] && m.statuses <= |m.notifications|
    requires WriteLens(m.ops) == m.notifications[m.statuses..]
    ensures var r := StoreStep(m, g);
            && WriteLens(r.ops) == r.notifications[r.statuses..]
            && r.notifications[..m.statuses] == m.notifications[..m.statuses]
  {
    WriteLensPush(m.ops, Write(Low16(g.seqNumb), g.data));
  }

  lemma AcceptEng(e: Eng, recvd: U32, base: U32, top: nat, recvdOff: nat, seenOff: nat, fin: bool, after: bool)
    requires EngInv(e, recvd, base, top, recvdOff, seenOff, fin) && Deciding(e)
    requires e.fsm.segment.seqNumb == Low32(base + top)
    ensures recvdOff == top
    ensures EngInv(e.(fsm := Load, rsp := e.rsp[1..], req := e.req + [EngWrite(NewRecvd(e.fsm.segment))]),
                   recvd, base, top + Length(e.fsm.segment), recvdOff, seenOff, after)
  {
    Low32Add(base + top, Length(e.fsm.segment));
  }

  predicate Taking(s: Sess, open: bool) {
    Deciding(s.eng) &&
      var g := s.eng.fsm.segment; open && (g.fin || g.data != []) && Accepts(g, s.eng.rsp[0])
  }

  /** What is taken is inside an advertised window, and data inside the ring. */
  lemma AcceptTaken(s: Sess, open: bool)
    requires Inv(s) && Taking(s, open)
    ensures var x, g := s.aux, s.eng.fsm.segment;
            && !x.fin && RecvEnd(x) == |x.accepted| == x.recvdOff && g.seqNumb == Low32(x.base + |x.accepted|)
            && Inside(x.edges, |x.accepted| + Length(g)) && |x.accepted| + Length(g) <= x.recvdOff + 0xFFFF
            && (!g.fin ==> |x.accepted| + |g.data| < x.appdOff + 0xFFFF)
  {
    Bounds(s);
    AcceptedFits(s.eng, s.entry.recvd, s.aux.base, RecvEnd(s.aux), s.aux.recvdOff, s.aux.seenOff);
  }

  lemma TakenWindow(x: Aux, g: Segment)
    requires WindowInv(x, |x.accepted|) && EdgesInv(x, |x.accepted|) && !x.fin && x.recvdOff == |x.accepted|
    requires Inside(x.edges, |x.accepted| + Length(g)) && |x.accepted| + Length(g) <= x.recvdOff + 0xFFFF
    requires !g.fin ==> |x.accepted| + |g.data| < x.appdOff + 0xFFFF
    ensures RecvEnd(Taken(x, g)) == |x.accepted| + Length(g)
    ensures WindowInv(Taken(x, g), |x.accepted| + Length(g)) && EdgesInv(Taken(x, g), |x.accepted| + Length(g))
  {
  }

  lemma AcceptInv(s: Sess, open: bool)
    requires Inv(s)
    ensures Inv(AcceptStep(s, open))
  {
    if Taking(s, open) {
      var g, x := s.eng.fsm.segment, s.aux;
      AcceptTaken(s, open);
      AcceptEng(s.eng, s.entry.recvd, x.base, RecvEnd(x), x.recvdOff, x.seenOff, x.fin, g.fin);
      CountStore(s.mem, g, |x.accepted|, x.notified);
      TakenWindow(x, g);
    }
  }

  /** The payload finds room in the ring; only a FIN's might not. */
  lemma AcceptContents(s: Sess, open: bool)
    requires Inv(s) && Contents(s)
    requires Taking(s, open) && s.eng.fsm.segment.fin ==>
               |s.aux.accepted| + |s.eng.fsm.segment.data| <= s.aux.issued + RING
    ensures Contents(AcceptStep(s, open))
  {
    if Taking(s, open) {
      AcceptTaken(s, open);
      StoreInv(s.mem, s.eng.fsm.segment, s.aux.base, s.aux.accepted, s.aux.issued, s.aux.notified);
    }
  }

  lemma EngineReadInv(s: Sess)
    requires Inv(s) && s.eng.req != [] && s.eng.req[0] == EngRead
    ensures Inv(EngineStep(s))
  {
    assert RecvEnd(EngineStep(s).aux) == RecvEnd(s.aux);
  }

  lemma EngineWriteInv(s: Sess)
    requires Inv(s) && s.eng.req != [] && s.eng.req[0].EngWrite?
    ensures Inv(EngineStep(s))
  {
    assert RecvEnd(EngineStep(s).aux) == RecvEnd(s.aux);
  }

  lemma TableApp(p: App, appd: U16, base: U32, issued: nat, appdOff: nat)
    requires AppInv(p, appd, base, issued, appdOff) && p.req != []
    ensures match p.req[0]
            case AppWrite(new_) => AppInv(p.(req := p.req[1..]), new_, base, issued, issued)
            case AppRead => AppInv(p.(req := p.req[1..], rsp := p.rsp + [appd]), appd, base, issued, appdOff)
  {
  }

  lemma TableAppInv(s: Sess)
    requires Inv(s)
    ensures Inv(TableAppStep(s))
  {
    if s.app.req != [] {
      var x, y := s.aux, TableAppStep(s).aux;
      TableApp(s.app, s.entry.appd, x.base, x.issued, x.appdOff);
      assert RecvEnd(y) == RecvEnd(x) && WindowInv(y, RecvEnd(y)) && EdgesInv(y, RecvEnd(y));
      assert Credit(TableAppStep(s)) == Credit(s);
    }
  }

  /** An advertised right edge lies 0xFFFF past the application's pointer in the table or,
      when that pointer is ahead of the receive pointer in the table, a ring short of it, or a
      ring further when it is a ring behind. */
  lemma AdvertisedEdge(s: Sess)
    requires Inv(s)
    ensures var x := s.aux;
            x.recvdOff + FreeSpace(s.entry) ==
            x.appdOff + if x.recvdOff < x.appdOff then -1 else if Overrun(x) then 0x1_FFFF else 0xFFFF
  {
    Bounds(s);
    FreeSpaceIs(s.aux.base, s.aux.recvdOff, s.aux.appdOff);
  }

  lemma AdvertPush(base: U32, edges: seq<nat>, adverts: seq<Advert>, recvdOff: nat, window: U16)
    requires AdvertInv(base, edges, adverts)
    ensures AdvertInv(base, edges + [recvdOff + window], adverts + [Advert(Low32(base + recvdOff), window)])
  {
    Low32Add(base + recvdOff, window);
  }

  lemma EdgesPush(x: Aux, top: nat, e: nat, y: Aux)
    requires EdgesInv(x, top) && x.claimed <= y.claimed <= x.recvdOff
    requires y == x.(edges := x.edges + [e], claimed := y.claimed)
    requires y.claimed == x.claimed || e == y.claimed + 0xFFFF
    requires e <= x.recvdOff + 0xFFFF && (e <= x.appdOff + 0xFFFF || e <= y.claimed + 0xFFFF)
    ensures EdgesInv(y, top)
  {
    var n := |x.edges|;
    assert y.edges[n] == e;
    assert forall k <- x.edges :: k in y.edges;
    assert forall k <- y.edges :: k in x.edges || k == e;
  }

  lemma AdvertiseInv(s: Sess)
    requires Inv(s)
    ensures Inv(AdvertiseStep(s))
  {
    Bounds(s);
    AdvertisedEdge(s);
    AdvertPush(s.aux.base, s.aux.edges, s.adverts, s.aux.recvdOff, FreeSpace(s.entry));
    EdgesPush(s.aux, RecvEnd(s.aux), s.aux.recvdOff + FreeSpace(s.entry), AdvertiseStep(s).aux);
    MoreEdges(s.aux, AdvertiseStep(s).aux, s.eng);
  }

  lemma SynAckInv(s: Sess)
    requires Inv(s)
    ensures Inv(SynAckStep(s))
  {
    AdvertPush(s.aux.base, s.aux.edges, s.adverts, s.aux.recvdOff, 0xFFFF);
    EdgesPush(s.aux, RecvEnd(s.aux), s.aux.recvdOff + 0xFFFF, SynAckStep(s).aux);
    MoreEdges(s.aux, SynAckStep(s).aux, s.eng);
  }

  lemma MoreEdges(x: Aux, y: Aux, e: Eng)
    requires x.edges <= y.edges && y == x.(edges := y.edges, claimed := y.claimed)
    ensures RecvEnd(y) == RecvEnd(x)
    ensures e.fsm.Transition? && Fits(x, e.fsm.segment) ==> Fits(y, e.fsm.segment)
  {
    assert forall k <- x.edges :: k in y.edges;
  }

  lemma RequestInv(s: Sess, length: U16)
    requires Inv(s)
    ensures Inv(Step(s, Request(length)))
  {
    SumPush(s.app.requests, length);
  }

  lemma TakeApp(p: App, appd: U16, base: U32, issued: nat, appdOff: nat)
    requires AppInv(p, appd, base, issued, appdOff) && p.rasi == Ready
    ensures AppInv(TakeRequest(p), appd, base, issued, appdOff)
  {
    if p.requests != [] {
      assert p.requests[0] < 0x1_0000;
      assert forall k :: 0 <= k < |p.requests[1..]| ==> p.requests[1..][k] == p.requests[k + 1];
    }
  }

  lemma TakeRequestInv(s: Sess)
    requires Inv(s) && s.app.rasi == Ready
    ensures Inv(AppStep(s))
  {
    var r := AppStep(s);
    TakeApp(s.app, s.entry.appd, s.aux.base, s.aux.issued, s.aux.appdOff);
    assert r.aux == s.aux && r.eng == s.eng && r.mem == s.mem && r.entry == s.entry;
    assert Credit(r) == Credit(s);
  }

  lemma IssueApp(p: App, appd: U16, base: U32, issued: nat, appdOff: nat)
    requires AppInv(p, appd, base, issued, appdOff) && p.rasi.Waiting? && p.rsp != []
    ensures p.rsp[0] == Low16(base + issued)
    ensures var n := p.rasi.readLength;
            AppInv(p.(rsp := p.rsp[1..], rasi := Ready, req := p.req + [AppWrite(Low16(p.rsp[0] + n))]),
                   appd, base, issued + n, appdOff)
  {
    Low16Add(base + issued, p.rasi.readLength);
  }

  lemma IssueMem(m: Mem, base: U32, accepted: seq<Byte>, issued: nat, notified: nat, n: nat)
    requires MemInv(m, base, accepted, issued, notified) && issued + n <= |accepted|
    ensures MemInv(m.(ops := m.ops + [Read(Low16(base + issued), n)]), base, accepted, issued + n, notified)
  {
    OpsPushRead(m.ops, base, accepted, issued, WrittenBytes(m, notified), |m.emitted|, n);
    WriteLensPush(m.ops, Read(Low16(base + issued), n));
  }

  lemma IssueInv(s: Sess)
    requires Inv(s) && s.app.rasi.Waiting?
    ensures Inv(IssueRead(s))
  {
    if s.app.rsp != [] {
      var x, y := s.aux, IssueRead(s).aux;
      Bounds(s);
      IssueApp(s.app, s.entry.appd, x.base, x.issued, x.appdOff);
      WriteLensPush(s.mem.ops, Read(s.app.rsp[0], s.app.rasi.readLength));
      assert CountInv(IssueRead(s).mem, |x.accepted|, x.notified);
      assert RecvEnd(y) == RecvEnd(x) && WindowInv(y, RecvEnd(y)) && EdgesInv(y, RecvEnd(y));
    }
  }

  lemma IssueContents(s: Sess)
    requires Inv(s) && Contents(s) && s.app.rasi.Waiting?
    ensures Contents(IssueRead(s))
  {
    if s.app.rsp != [] {
      var x := s.aux;
      Bounds(s);
      IssueApp(s.app, s.entry.appd, x.base, x.issued, x.appdOff);
      IssueMem(s.mem, x.base, x.accepted, x.issued, x.notified, s.app.rasi.readLength);
    }
  }

  lemma NotifyInv(s: Sess)
    requires Inv(s)
    ensures Inv(NotifyStep(s))
  {
    if s.mem.statuses > 0 && s.mem.notifications != [] {
      var x, y := s.aux, NotifyStep(s).aux;
      CountNotify(s.mem, |x.accepted|, x.notified);
      assert RecvEnd(y) == RecvEnd(x) && WindowInv(y, RecvEnd(y)) && EdgesInv(y, RecvEnd(y));
    }
  }

  lemma NotifyContents(s: Sess)
    requires Contents(s)
    ensures Contents(NotifyStep(s))
  {
    if s.mem.statuses > 0 && s.mem.notifications != [] {
      NotifyMem(s.mem, s.aux.base, s.aux.accepted, s.aux.issued, s.aux.notified);
    }
  }

  lemma MemoryInv(s: Sess)
    requires Inv(s)
    ensures Inv(Step(s, Memory))
    ensures Contents(s) ==> Contents(Step(s, Memory))
  {
    if s.mem.ops != [] {
      var x := s.aux;
      CountWrite(s.mem, |x.accepted|, x.notified);
      if Contents(s) {
        if s.mem.ops[0].Write? {
          MemoryWrite(s.mem, x.base, x.accepted, x.issued, x.notified);
        } else {
          MemoryRead(s.mem, x.base, x.accepted, x.issued, x.notified);
        }
      }
    }
  }

  lemma EngineInv(s: Sess)
    requires Inv(s)
    ensures Inv(EngineStep(s))
  {
    if s.eng.req != [] {
      if s.eng.req[0] == EngRead { EngineReadInv(s); } else { EngineWriteInv(s); }
    }
  }

  /** Every step keeps the pointers right while the peer stays inside what was advertised. */
  lemma StepInv(s: Sess, a: Action)
    requires Inv(s) && Conforming(s, a)
    ensures Inv(Step(s, a))
  {
    match a
    case Receive(segment) => ReceiveInv(s, segment);
    case Accept(open) => AcceptInv(s, open);
    case TableForApp => TableAppInv(s);
    case TableForEngine => EngineInv(s);
    case Advertise => AdvertiseInv(s);
    case SynAckAgain => SynAckInv(s);
    case Request(length) => RequestInv(s, length);
    case AppTick =>
      if s.app.rasi == Ready { TakeRequestInv(s); } else { IssueInv(s); }
    case Memory => MemoryInv(s);
    case Notify => NotifyInv(s);
  }

  /** A FIN's payload, if one is taken, finds room in the ring. */
  predicate FinFits(s: Sess, a: Action) {
    a.Accept? && Taking(s, a.open) && s.eng.fsm.segment.fin ==>
      |s.aux.accepted| + |s.eng.fsm.segment.data| <= s.aux.issued + RING
  }

  /** Then every step keeps the contents right. */
  lemma ContentsStep(s: Sess, a: Action)
    requires Inv(s) && Contents(s) && FinFits(s, a)
    ensures Contents(Step(s, a))
  {
    match a
    case Accept(open) => AcceptContents(s, open);
    case AppTick => if s.app.rasi == Ready { SameMemory(s, a); } else { IssueContents(s); }
    case Memory => MemoryInv(s);
    case Notify => NotifyContents(s);
    case _ => SameMemory(s, a);
  }

  lemma SameMemory(s: Sess, a: Action)
    requires !a.Accept? && a != Memory && a != Notify && (a == AppTick ==> s.app.rasi == Ready)
    ensures var x, y := s.aux, Step(s, a).aux;
            && Step(s, a).mem == s.mem && y.base == x.base && y.accepted == x.accepted
            && y.issued == x.issued && y.notified == x.notified
  {
  }

  lemma InitInv(s: Sess)
    requires Init(s)
    ensures Inv(s) && Contents(s)
  {
    assert 0xFFFF in s.aux.edges;
  }

  lemma {:induction false} RunInv(s: Sess, actions: seq<Action>)
    requires Inv(s) && ConformingRun(s, actions)
    ensures Inv(Run(s, actions))
    decreases |actions|
  {
    if actions != [] {
      StepInv(s, actions[0]);
      RunInv(Step(s, actions[0]), actions[1..]);
    }
  }

  lemma RunFirst(s: Sess, a: Action, rest: seq<Action>)
    ensures Run(s, [a] + rest) == Run(Step(s, a), rest)
    ensures ConformingRun(s, [a] + rest) == (Conforming(s, a) && ConformingRun(Step(s, a), rest))
  {
    assert ([a] + rest)[1..] == rest;
  }

  lemma {:induction false} RunConcat(s: Sess, a: seq<Action>, b: seq<Action>)
    ensures Run(s, a + b) == Run(Run(s, a), b)
    ensures ConformingRun(s, a + b) == (ConformingRun(s, a) && ConformingRun(Run(s, a), b))
    decreases |a|
  {
    if a == [] {
      assert a + b == b;
    } else {
      assert (a + b)[1..] == a[1..] + b;
      RunConcat(Step(s, a[0]), a[1..], b);
    }
  }

  // ---------------------------------------------------------------- the SYN-ACK that is sent again

  /** The window: what is received stays within a ring but one byte of the table's application
      pointer. The delivery: the application reads what was accepted. */
  datatype Aim = Window | Delivery

  predicate Kept(aim: Aim, s: Sess) {
    match aim
    case Window => RecvEnd(s.aux) <= s.aux.appdOff + 0xFFFF
    case Delivery => s.mem.emitted <= s.aux.accepted
  }

  /** A SYN-ACK that is sent again names a window that is too large if the application has not
      asked for what it acknowledges. The ring is a byte larger than the window, and a FIN takes
      a number but no byte, so that two bytes more do no harm to the delivery. */
  predicate Allows(aim: Aim, s: Sess, a: Action) {
    a == SynAckAgain ==>
      s.aux.fin || s.aux.recvdOff <= match aim case Window => s.aux.appdOff case Delivery => s.aux.issued + 2
  }

  predicate AllowedRun(aim: Aim, s: Sess, actions: seq<Action>)
    decreases |actions|
  {
    actions == [] || (Allows(aim, s, actions[0]) && AllowedRun(aim, Step(s, actions[0]), actions[1..]))
  }

  /** How far the window may be used before a FIN. */
  predicate AimInv(aim: Aim, s: Sess) {
    match aim
    case Window =>
      && RecvEnd(s.aux) <= s.aux.appdOff + 0xFFFF
      && (s.eng.rsp != [] ==> RecvEnd(s.aux) <= s.aux.seenOff + 0xFFFF)
      && (!s.aux.fin ==> forall e <- s.aux.edges :: e <= s.aux.appdOff + 0xFFFF)
    case Delivery =>
      && Contents(s)
      && (!s.aux.fin ==> forall e <- s.aux.edges :: e <= s.aux.issued + 0x1_0001)
  }

  lemma SameEdges(s: Sess, a: Action)
    requires Inv(s) && a != Advertise && a != SynAckAgain && !a.Accept?
    ensures var x, y := s.aux, Step(s, a).aux;
            && y.edges == x.edges && y.fin == x.fin && y.accepted == x.accepted && y.claimed == x.claimed
            && x.appdOff <= y.appdOff && x.issued <= y.issued && x.recvdOff <= y.recvdOff
            && (Step(s, a).eng.rsp != [] ==> y.seenOff == if s.eng.rsp == [] then x.appdOff else x.seenOff)
  {
  }

  lemma AcceptEdges(s: Sess, open: bool)
    requires Inv(s)
    ensures var x, y := s.aux, AcceptStep(s, open).aux;
            && y.edges == x.edges && y.appdOff == x.appdOff && y.issued == x.issued && (x.fin ==> y.fin)
            && y.claimed == x.claimed && y.recvdOff == x.recvdOff && y.notified == x.notified
            && (!Taking(s, open) ==> y == x) && (AcceptStep(s, open).eng.rsp == [] || AcceptStep(s, open) == s)
            && (Taking(s, open) ==> RecvEnd(y) == |x.accepted| + Length(s.eng.fsm.segment) && Inside(x.edges,
                RecvEnd(y)))
  {
    if Taking(s, open) { AcceptTaken(s, open); }
  }

  lemma EdgePushed(s: Sess, a: Action)
    requires Inv(s) && (a == Advertise || a == SynAckAgain)
    ensures var x, y := s.aux, Step(s, a).aux;
            var e := x.recvdOff + if a == Advertise then FreeSpace(s.entry) else 0xFFFF;
            && y == x.(edges := x.edges + [e], claimed := y.claimed) && RecvEnd(y) == RecvEnd(x)
            && Step(s, a).eng == s.eng
            && forall k <- y.edges :: k in x.edges || k == e
  {
  }

  lemma WindowStep(s: Sess, a: Action)
    requires Inv(s) && AimInv(Window, s) && Allows(Window, s, a)
    ensures AimInv(Window, Step(s, a))
  {
    if a == Advertise || a == SynAckAgain {
      EdgePushed(s, a);
      AdvertisedEdge(s);
    } else if a.Accept? {
      AcceptEdges(s, a.open);
    } else {
      SameEdges(s, a);
    }
  }

  lemma DeliveryStep(s: Sess, a: Action)
    requires Inv(s) && AimInv(Delivery, s) && Allows(Delivery, s, a)
    ensures AimInv(Delivery, Step(s, a))
  {
    if a == Advertise || a == SynAckAgain {
      EdgePushed(s, a);
      AdvertisedEdge(s);
      SameMemory(s, a);
    } else if a.Accept? {
      AcceptEdges(s, a.open);
      if Taking(s, a.open) { AcceptTaken(s, a.open); }
      ContentsStep(s, a);
    } else {
      SameEdges(s, a);
      ContentsStep(s, a);
    }
  }

  lemma AimStep(aim: Aim, s: Sess, a: Action)
    requires Inv(s) && AimInv(aim, s) && Allows(aim, s, a)
    ensures AimInv(aim, Step(s, a))
  {
    if aim == Window { WindowStep(s, a); } else { DeliveryStep(s, a); }
  }

  lemma {:induction false} AimRun(aim: Aim, s: Sess, actions: seq<Action>)
    requires Inv(s) && AimInv(aim, s) && ConformingRun(s, actions) && AllowedRun(aim, s, actions)
    ensures Inv(Run(s, actions)) && AimInv(aim, Run(s, actions))
    decreases |actions|
  {
    if actions != [] {
      StepInv(s, actions[0]);
      AimStep(aim, s, actions[0]);
      AimRun(aim, Step(s, actions[0]), actions[1..]);
    }
  }

  lemma Reached(aim: Aim, init: Sess, actions: seq<Action>)
    requires Init(init) && ConformingRun(init, actions) && AllowedRun(aim, init, actions)
    ensures var s := Run(init, actions); Inv(s) && AimInv(aim, s) && Kept(aim, s)
  {
    InitInv(init);
    AimRun(aim, init, actions);
  }

  // ---------------------------------------------------------------- over whole runs

  /** Delivery: in every interleaving, across any number of turns of the ring, the bytes
      given to the application are a prefix of the payload that `rxTcpFSM` accepted. */
  lemma DeliveredIsPrefix(init: Sess, actions: seq<Action>)
    requires Init(init) && ConformingRun(init, actions) && AllowedRun(Delivery, init, actions)
    ensures var s := Run(init, actions); s.mem.emitted <= s.aux.accepted
  {
    Reached(Delivery, init, actions);
  }

  /** No byte is read before it is written, nor after it is overwritten: when the memory
      executes a read, the ring holds exactly the accepted bytes that it asks for. */
  lemma ReadsFindTheirBytes(init: Sess, actions: seq<Action>)
    requires Init(init) && ConformingRun(init, actions) && AllowedRun(Delivery, init, actions)
    requires var m := Run(init, actions).mem; m.ops != [] && m.ops[0].Read?
    ensures var s := Run(init, actions);
            var e, n := |s.mem.emitted|, s.mem.ops[0].len;
            && e + n <= WrittenBytes(s.mem, s.aux.notified) <= |s.aux.accepted|
            && Loaded(s.mem.ring, s.mem.ops[0].at, n) == s.aux.accepted[e..e + n]
  {
    Reached(Delivery, init, actions);
    var s := Run(init, actions);
    ReadRing(s.mem.ring, s.aux.base, s.aux.accepted, WrittenBytes(s.mem, s.aux.notified), |s.mem.emitted|,
             s.mem.ops[0].len);
  }

  /** The distance of the two pointers fits 16 bits although the ring turns any number of
      times, and the free space that `rxTcpFSM` computes is the true one. */
  lemma FreeSpaceIsExact(init: Sess, actions: seq<Action>)
    requires Init(init) && ConformingRun(init, actions) && AllowedRun(Window, init, actions)
    ensures var s := Run(init, actions);
            && RecvEnd(s.aux) - s.aux.appdOff <= 0xFFFF
            && (s.eng.rsp != [] ==> FreeSpace(s.eng.rsp[0]) == 0xFFFF - (RecvEnd(s.aux) - s.aux.seenOff))
  {
    Reached(Window, init, actions);
    var s := Run(init, actions);
    Bounds(s);
    FreeSpaceIs(s.aux.base, RecvEnd(s.aux), s.aux.seenOff);
  }

  // ---------------------------------------------------------------- and only then

  predicate NoSynAck(actions: seq<Action>) {
    SynAckAgain !in actions
  }

  lemma {:induction false} AllowedConcat(aim: Aim, s: Sess, a: seq<Action>, b: seq<Action>)
    ensures AllowedRun(aim, s, a + b) == (AllowedRun(aim, s, a) && AllowedRun(aim, Run(s, a), b))
    decreases |a|
  {
    if a == [] {
      assert a + b == b;
    } else {
      assert (a + b)[1..] == a[1..] + b;
      AllowedConcat(aim, Step(s, a[0]), a[1..], b);
    }
  }

  lemma {:induction false} NoneIsAllowed(aim: Aim, s: Sess, actions: seq<Action>)
    requires NoSynAck(actions)
    ensures AllowedRun(aim, s, actions)
    decreases |actions|
  {
    if actions != [] {
      assert actions[0] in actions && forall a <- actions[1..] :: a in actions;
      NoneIsAllowed(aim, Step(s, actions[0]), actions[1..]);
    }
  }

  lemma {:induction false} FirstRefused(aim: Aim, s: Sess, actions: seq<Action>) returns (n: nat)
    requires !AllowedRun(aim, s, actions)
    ensures n < |actions| && AllowedRun(aim, s, actions[..n]) && actions[n] == SynAckAgain
    ensures !Allows(aim, Run(s, actions[..n]), SynAckAgain)
    decreases |actions|
  {
    if !Allows(aim, s, actions[0]) {
      n := 0;
    } else {
      var k := FirstRefused(aim, Step(s, actions[0]), actions[1..]);
      n := k + 1;
      assert actions[..n] == [actions[0]] + actions[1..][..k];
      RunFirst(s, actions[0], actions[1..][..k]);
      AllowedConcat(aim, s, [actions[0]], actions[1..][..k]);
    }
  }

  /** A run from `s` to `r` without a SYN-ACK in which the peer conforms and the application is
      given no more to ask for. */
  predicate Leads(s: Sess, actions: seq<Action>, r: Sess) {
    && r == Run(s, actions) && ConformingRun(s, actions) && NoSynAck(actions)
    && Inv(r) && Contents(r) && !r.aux.fin
    && r.aux.base == s.aux.base && r.aux.edges == s.aux.edges && s.aux.accepted <= r.aux.accepted
    && r.aux.issued == s.aux.issued && s.aux.appdOff <= r.aux.appdOff
  }

  lemma LeadsOn(s: Sess, a: seq<Action>, q: Sess, b: seq<Action>, r: Sess)
    requires Leads(s, a, q) && Leads(q, b, r)
    ensures Leads(s, a + b, r)
  {
    RunConcat(s, a, b);
    assert forall x <- a + b :: x in a || x in b;
  }

  lemma LeadsNowhere(s: Sess)
    requires Inv(s) && Contents(s) && !s.aux.fin
    ensures Leads(s, [], s)
  {
  }

  /** One step that takes nothing. */
  lemma LeadsOne(s: Sess, a: Action)
    requires Inv(s) && Contents(s) && !s.aux.fin && a != SynAckAgain && a != Advertise && !a.Receive?
    requires a.Accept? ==> !Taking(s, a.open)
    requires a == AppTick ==> s.app.rasi == Ready
    ensures Leads(s, [a], Step(s, a))
  {
    StepInv(s, a);
    ContentsStep(s, a);
    RunFirst(s, a, []);
    assert [a] + [] == [a];
    if a.Accept? { AcceptEdges(s, a.open); } else { SameEdges(s, a); }
  }

  /** The request of `rxTcpFSM` is served. */
  lemma ServesEngine(s: Sess)
    requires Inv(s) && Contents(s) && !s.aux.fin
    ensures var r := EngineStep(s);
            Leads(s, [TableForEngine], r) && r.aux.appdOff == s.aux.appdOff
            && |r.eng.req| == (if s.eng.req == [] then 0 else |s.eng.req| - 1) && r.eng.fsm == s.eng.fsm
            && r.aux.accepted == s.aux.accepted
  {
    LeadsOne(s, TableForEngine);
  }

  /** `rxTcpFSM` lets go of the segment that it has, and waits for the next one. */
  lemma Flush(s: Sess) returns (run: seq<Action>, r: Sess)
    requires Inv(s) && Contents(s) && !s.aux.fin
    ensures Leads(s, run, r) && r.aux.appdOff == s.aux.appdOff && r.eng == Eng(Load, [], [])
  {
    var s1, s2 := EngineStep(s), EngineStep(EngineStep(s));
    ServesEngine(s);
    ServesEngine(s1);
    LeadsOn(s, [TableForEngine], s1, [TableForEngine], s2);
    LeadsOne(s2, Accept(false));
    r := Step(s2, Accept(false));
    run := [TableForEngine] + [TableForEngine] + [Accept(false)];
    LeadsOn(s, [TableForEngine] + [TableForEngine], s2, [Accept(false)], r);
  }

  /** `s` with a segment that `rxTcpFSM` is about to decide on. */
  function Arrived(s: Sess, g: Segment): Sess {
    s.(eng := Eng(Transition(g), [], [s.entry]), aux := s.aux.(seenOff := s.aux.appdOff))
  }

  lemma Arrives(s: Sess, g: Segment)
    requires Inv(s) && s.eng == Eng(Load, [], []) && Fits(s.aux, g)
    ensures var run := [Receive(g)] + [TableForEngine];
            Run(s, run) == Arrived(s, g) && ConformingRun(s, run) && Inv(Arrived(s, g))
  {
    var s1 := s.(eng := Eng(Transition(g), [EngRead], []));
    assert Step(s, Receive(g)) == s1 && Step(s1, TableForEngine) == Arrived(s, g);
    StepInv(s, Receive(g));
    StepInv(s1, TableForEngine);
    RunFirst(s, Receive(g), [TableForEngine]);
    RunFirst(s1, TableForEngine, []);
    assert [TableForEngine] + [] == [TableForEngine];
  }

  /** The segment with `data` at the receive pointer. */
  function Next(x: Aux, data: seq<Byte>, fin: bool): Segment {
    Segment(Low32(x.base + |x.accepted|), data, fin)
  }

  function TakeOne(x: Aux): seq<Action> {
    ([Receive(Next(x, [0], false))] + [TableForEngine]) + ([Accept(true)] + [TableForEngine])
  }

  /** One byte more is received. */
  lemma FillOne(s: Sess) returns (r: Sess)
    requires Inv(s) && Contents(s) && !s.aux.fin && s.eng == Eng(Load, [], [])
    requires |s.aux.accepted| < s.aux.appdOff + 0xFFFE && Inside(s.aux.edges, |s.aux.accepted| + 1)
    ensures Leads(s, TakeOne(s.aux), r)
    ensures r.aux.appdOff == s.aux.appdOff && |r.aux.accepted| == |s.aux.accepted| + 1 && r.eng == Eng(Load, [], [])
  {
    var g := Next(s.aux, [0], false);
    var q := Arrived(s, g);
    Arrives(s, g);
    OneFits(s);
    r := TakesOne(q, s);
    RunConcat(s, [Receive(g)] + [TableForEngine], [Accept(true)] + [TableForEngine]);
  }

  lemma OneFits(s: Sess)
    requires Inv(s) && !s.aux.fin && s.eng == Eng(Load, [], []) && |s.aux.accepted| < s.aux.appdOff + 0xFFFE
    ensures Accepts(Next(s.aux, [0], false), s.entry)
  {
    Bounds(s);
    FreeSpaceIs(s.aux.base, |s.aux.accepted|, s.aux.appdOff);
  }

  lemma TakesOne(q: Sess, s: Sess) returns (r: Sess)
    requires Inv(q) && Contents(q) && !s.aux.fin && q == Arrived(s, Next(s.aux, [0], false))
    requires Accepts(Next(s.aux, [0], false), s.entry)
    ensures var run := [Accept(true)] + [TableForEngine];
            r == Run(q, run) && ConformingRun(q, run) && NoSynAck(run)
    ensures Inv(r) && Contents(r) && !r.aux.fin && r.eng == Eng(Load, [], [])
    ensures r.aux.base == s.aux.base && r.aux.edges == s.aux.edges && r.aux.accepted == s.aux.accepted + [0]
    ensures r.aux.issued == s.aux.issued && r.aux.appdOff == s.aux.appdOff
  {
    var t := AcceptStep(q, true);
    r := EngineStep(t);
    AcceptsOne(q, s, t);
    AcceptContents(q, true);
    EngineInv(t);
    SameMemory(t, TableForEngine);
    TwoSteps(q, Accept(true), TableForEngine);
  }

  lemma AcceptsOne(q: Sess, s: Sess, t: Sess)
    requires Inv(q) && !s.aux.fin && q == Arrived(s, Next(s.aux, [0], false)) && t == AcceptStep(q, true)
    requires Accepts(Next(s.aux, [0], false), s.entry)
    ensures Inv(t) && t.aux == q.aux.(accepted := s.aux.accepted + [0])
    ensures t.eng == Eng(Load, [EngWrite(NewRecvd(Next(s.aux, [0], false)))], [])
  {
    AcceptInv(q, true);
  }

  lemma TwoSteps(s: Sess, a: Action, b: Action)
    ensures Run(s, [a] + [b]) == Step(Step(s, a), b)
    ensures ConformingRun(s, [a] + [b]) == (Conforming(s, a) && Conforming(Step(s, a), b))
  {
    RunFirst(s, a, [b]);
    RunFirst(Step(s, a), b, []);
    assert [b] + [] == [b];
  }

  /** The peer sends on until no data segment is accepted any more. */
  lemma {:induction false} Fill(s: Sess) returns (run: seq<Action>, r: Sess)
    requires Inv(s) && Contents(s) && !s.aux.fin && s.eng == Eng(Load, [], [])
    requires Inside(s.aux.edges, s.aux.appdOff + 0xFFFE)
    ensures Leads(s, run, r) && r.aux.appdOff == s.aux.appdOff && r.eng == Eng(Load, [], [])
    ensures |r.aux.accepted| >= s.aux.appdOff + 0xFFFE
    decreases s.aux.appdOff + 0xFFFE - |s.aux.accepted|
  {
    if |s.aux.accepted| >= s.aux.appdOff + 0xFFFE {
      run, r := [], s;
      LeadsNowhere(s);
    } else {
      var q := FillOne(s);
      var a := TakeOne(s.aux);
      var rest;
      rest, r := Fill(q);
      run := a + rest;
      LeadsOn(s, a, q, rest, r);
    }
  }

  /** The memory executes what it was asked for. */
  lemma {:induction false} Drain(s: Sess) returns (run: seq<Action>, r: Sess)
    requires Inv(s) && Contents(s) && !s.aux.fin
    ensures Leads(s, run, r) && r.aux == s.aux && r.eng == s.eng && r.app == s.app && r.mem.ops == []
    decreases |s.mem.ops|
  {
    if s.mem.ops == [] {
      run, r := [], s;
      LeadsNowhere(s);
    } else {
      LeadsOne(s, Memory);
      CountWrite(s.mem, |s.aux.accepted|, s.aux.notified);
      var rest;
      rest, r := Drain(Step(s, Memory));
      run := [Memory] + rest;
      LeadsOn(s, [Memory], Step(s, Memory), rest, r);
    }
  }

  /** The application is told of everything. */
  lemma {:induction false} Tell(s: Sess) returns (run: seq<Action>, r: Sess)
    requires Inv(s) && Contents(s) && !s.aux.fin && s.mem.ops == []
    ensures Leads(s, run, r) && r.eng == s.eng && r.app == s.app && r.mem.ops == []
    ensures r.aux == s.aux.(notified := |s.aux.accepted|) && r.mem.notifications == []
    decreases |s.mem.notifications|
  {
    if s.mem.notifications == [] {
      run, r := [], s;
      LeadsNowhere(s);
    } else {
      assert s.mem.notifications[s.mem.statuses..] == [];
      LeadsOne(s, Notify);
      var rest;
      rest, r := Tell(Step(s, Notify));
      run := [Notify] + rest;
      LeadsOn(s, [Notify], Step(s, Notify), rest, r);
    }
  }

  /** The table has the application's pointer. */
  lemma Settle(s: Sess) returns (run: seq<Action>, r: Sess)
    requires Inv(s) && Contents(s) && !s.aux.fin
    ensures Leads(s, run, r) && r.aux.appdOff == r.aux.issued && r.eng == s.eng && r.mem == s.mem
    ensures r.aux == s.aux.(appdOff := s.aux.issued)
  {
    if s.app.req != [] && s.app.req[0].AppWrite? {
      LeadsOne(s, TableForApp);
      run, r := [TableForApp], Step(s, TableForApp);
    } else {
      LeadsNowhere(s);
      run, r := [], s;
    }
  }

  /** The application's next read command only needs one more tick. */
  predicate Asking(s: Sess) {
    s.app.rasi.Waiting? && s.app.rsp != []
  }

  lemma {:induction false} Ask(s: Sess) returns (run: seq<Action>, r: Sess)
    requires Inv(s) && Contents(s) && !s.aux.fin && s.aux.issued < s.aux.notified && s.aux.appdOff == s.aux.issued
    ensures Leads(s, run, r) && Asking(r) && r.eng == s.eng && r.mem == s.mem && r.aux == s.aux
    decreases if s.app.rasi == Ready then 1 else 0, |s.app.requests|, if s.app.rasi == Ready then 0 else |s.app.req|, 0
  {
    if Asking(s) {
      run, r := [], s;
      LeadsNowhere(s);
    } else {
      var a := AskFirst(s);
      run, r := AskOn(s, a, Run(s, a));
    }
  }

  predicate Nearer(q: App, p: App) {
    if p.rasi == Ready then q.rasi.Waiting? || |q.requests| < |p.requests|
    else q.rasi.Waiting? && q.requests == p.requests && |q.req| < |p.req|
  }

  /** A step nearer to the read command. */
  lemma AskFirst(s: Sess) returns (a: seq<Action>)
    requires Inv(s) && Contents(s) && !s.aux.fin && s.aux.issued < s.aux.notified && s.aux.appdOff == s.aux.issued
    requires !Asking(s)
    ensures var q := Run(s, a);
            && Leads(s, a, q) && q.eng == s.eng && q.mem == s.mem && q.aux == s.aux
            && Nearer(q.app, s.app)
  {
    if s.app.rasi == Ready && s.app.requests == [] {
      AskOne(s);
      a := [Request(1)] + [AppTick];
    } else {
      var b := if s.app.rasi == Ready then AppTick else TableForApp;
      LeadsOne(s, b);
      a := [b];
    }
  }

  lemma AskOne(s: Sess)
    requires Inv(s) && Contents(s) && !s.aux.fin && s.aux.issued < s.aux.notified
    requires s.app.rasi == Ready && s.app.requests == []
    ensures var a := [Request(1)] + [AppTick];
            var q := Run(s, a);
            Leads(s, a, q) && q.eng == s.eng && q.mem == s.mem && q.aux == s.aux && q.app.rasi.Waiting?
  {
    var t := Step(s, Request(1));
    LeadsOne(s, Request(1));
    LeadsOne(t, AppTick);
    LeadsOn(s, [Request(1)], t, [AppTick], Step(t, AppTick));
  }

  lemma {:induction false} AskOn(s: Sess, a: seq<Action>, q: Sess) returns (run: seq<Action>, r: Sess)
    requires Leads(s, a, q) && q.aux == s.aux && q.eng == s.eng && q.mem == s.mem
    requires q.aux.issued < q.aux.notified && q.aux.appdOff == q.aux.issued
    ensures Leads(s, run, r) && Asking(r) && r.eng == s.eng && r.mem == s.mem && r.aux == s.aux
    decreases if q.app.rasi == Ready then 1 else 0, |q.app.requests|,
              if q.app.rasi == Ready then 0 else |q.app.req|, 1
  {
    var rest;
    rest, r := Ask(q);
    run := a + rest;
    LeadsOn(s, a, q, rest, r);
  }

  // ---------------------------------------------------------------- a FIN beyond the window

  lemma FinFitsEdge(x: Aux, data: seq<Byte>, e: nat)
    requires !x.fin && e in x.edges && |x.accepted| + |data| + 1 <= e
    ensures Fits(x, Next(x, data, true))
  {
  }

  function TakeFin(x: Aux, data: seq<Byte>): seq<Action> {
    ([Receive(Next(x, data, true))] + [TableForEngine]) + [Accept(true)]
  }

  /** `rxTcpFSM` takes a FIN whatever the free space is. */
  lemma TakesFin(s: Sess, data: seq<Byte>)
    requires Inv(s) && s.eng == Eng(Load, [], []) && !s.aux.fin && Fits(s.aux, Next(s.aux, data, true))
    ensures var r := Run(s, TakeFin(s.aux, data));
            && ConformingRun(s, TakeFin(s.aux, data)) && NoSynAck(TakeFin(s.aux, data)) && Inv(r)
            && RecvEnd(r.aux) == |s.aux.accepted| + |data| + 1 && r.aux.accepted == s.aux.accepted + data
            && r.mem == StoreStep(s.mem, Next(s.aux, data, true)) && r.app == s.app
            && r.aux.base == s.aux.base && r.aux.issued == s.aux.issued && r.aux.appdOff == s.aux.appdOff
  {
    var g := Next(s.aux, data, true);
    Arrives(s, g);
    AcceptInv(Arrived(s, g), true);
    AcceptsFin(s, data);
    RunFirst(Arrived(s, g), Accept(true), []);
    assert [Accept(true)] + [] == [Accept(true)];
    RunConcat(s, [Receive(g)] + [TableForEngine], [Accept(true)]);
  }

  lemma AcceptsFin(s: Sess, data: seq<Byte>)
    requires Inv(s) && s.eng == Eng(Load, [], []) && !s.aux.fin
    ensures var g := Next(s.aux, data, true);
            var r := AcceptStep(Arrived(s, g), true);
            && r.mem == StoreStep(s.mem, g) && r.app == s.app && r.aux == Taken(Arrived(s, g).aux, g)
  {
  }

  lemma InTurn(s: Sess, a: seq<Action>, q: Sess, b: seq<Action>)
    requires Leads(s, a, q) && ConformingRun(q, b) && NoSynAck(b)
    ensures Run(s, a + b) == Run(q, b) && ConformingRun(s, a + b) && NoSynAck(a + b)
  {
    RunConcat(s, a, b);
    assert forall x <- a + b :: x in a || x in b;
  }

  /** With a window that is too large the peer fills the ring and sends a FIN behind it. */
  lemma WindowLost(s: Sess, e: nat) returns (run: seq<Action>)
    requires Inv(s) && Contents(s) && !s.aux.fin && e in s.aux.edges && e >= s.aux.appdOff + 0x1_0000
    ensures ConformingRun(s, run) && NoSynAck(run) && !Kept(Window, Run(s, run))
  {
    var a, q := Flush(s);
    assert Inside(q.aux.edges, q.aux.appdOff + 0xFFFE);
    var b, r := Fill(q);
    LeadsOn(s, a, q, b, r);
    var data: seq<Byte> := if |r.aux.accepted| == r.aux.appdOff + 0xFFFE then [0] else [];
    FinFitsEdge(r.aux, data, e);
    TakesFin(r, data);
    run := a + b + TakeFin(r.aux, data);
    InTurn(s, a + b, r, TakeFin(r.aux, data));
  }

  /** Everything accepted is written and notified, the table has the application's pointer, no
      more data fits, and the application's next read command is about to be issued. */
  lemma Prepare(s: Sess, e: nat) returns (run: seq<Action>, r: Sess)
    requires Inv(s) && Contents(s) && !s.aux.fin && e in s.aux.edges && e >= s.aux.issued + 0x1_0002
    ensures Leads(s, run, r) && r.eng == Eng(Load, [], []) && r.mem.ops == [] && Asking(r)
    ensures r.aux.appdOff == r.aux.issued && |r.aux.accepted| >= r.aux.issued + 0xFFFE
  {
    var a, q := Flush(s);
    var b, t := Settle(q);
    LeadsOn(s, a, q, b, t);
    assert Inside(t.aux.edges, t.aux.appdOff + 0xFFFE);
    var c, u := Fill(t);
    LeadsOn(s, a + b, t, c, u);
    var d, v := Drain(u);
    LeadsOn(s, a + b + c, u, d, v);
    var f, w := Tell(v);
    LeadsOn(s, a + b + c + d, v, f, w);
    var g;
    g, r := Ask(w);
    LeadsOn(s, a + b + c + d + f, w, g, r);
    run := a + b + c + d + f + g;
  }

  const READ_NEXT: seq<Action> := [Memory] + ([AppTick] + [Memory])

  lemma ThreeSteps(s: Sess)
    ensures Run(s, READ_NEXT) == Step(Step(Step(s, Memory), AppTick), Memory)
    ensures ConformingRun(s, READ_NEXT) && NoSynAck(READ_NEXT)
  {
    RunFirst(s, Memory, [AppTick] + [Memory]);
    RunFirst(Step(s, Memory), AppTick, [Memory]);
    RunFirst(Step(Step(s, Memory), AppTick), Memory, []);
    assert [Memory] + [] == [Memory];
  }

  /** The application's next byte is not the one that was accepted. */
  lemma ReadsWrong(m: Mem, base: U32, accepted: seq<Byte>, i: nat, data: seq<Byte>, n: nat, emitted: seq<Byte>)
    requires |m.emitted| == i < |accepted| && |accepted| + |data| == i + RING + 1 && 0 < |data| <= RING && n > 0
    requires data[|data| - 1] != accepted[i]
    requires emitted == m.emitted + Loaded(Stored(m.ring, Low16(base + |accepted|), data), Low16(base + i), n)
    ensures i < |emitted| && emitted[i] == data[|data| - 1] && (accepted + data)[i] == accepted[i]
  {
    StoredAt(m.ring, base, |accepted|, data, i + RING);
    RingShift(base, i, 0);
    assert (base + (i + RING)) % RING == (base + i) % RING;
  }

  /** A byte that was read is not the one that was accepted. */
  predicate WrongAt(s: Sess, i: nat) {
    i < |s.mem.emitted| && i < |s.aux.accepted| && s.mem.emitted[i] != s.aux.accepted[i]
  }

  lemma WrongIsLost(s: Sess, i: nat)
    requires WrongAt(s, i)
    ensures !Kept(Delivery, s)
  {
  }

  lemma FinOverwrites(s: Sess, r: Sess, data: seq<Byte>)
    requires Inv(s) && Contents(s) && !s.aux.fin && s.mem.ops == [] && Asking(s)
    requires 0 < |data| <= RING && |s.aux.accepted| + |data| == s.aux.issued + RING + 1
    requires data[|data| - 1] != s.aux.accepted[s.aux.issued] && s.aux.issued < |s.aux.accepted|
    requires r.mem == StoreStep(s.mem, Next(s.aux, data, true)) && r.app == s.app
    requires r.aux.accepted == s.aux.accepted + data
    ensures WrongAt(Run(r, READ_NEXT), s.aux.issued)
  {
    var base, i := s.aux.base, s.aux.issued;
    ThreeSteps(r);
    Low16OfLow32(base + |s.aux.accepted|);
    var t := Run(r, READ_NEXT);
    assert |s.mem.emitted| == i;
    assert r.mem.ops == [Write(Low16(base + |s.aux.accepted|), data)];
    var r1 := Step(r, Memory);
    assert r1.mem.ops == [] && r1.app == s.app;
    var r2 := Step(r1, AppTick);
    assert r2.mem.ops == [Read(Low16(base + i), s.app.rasi.readLength)];
    assert t == Step(r2, Memory) && t.aux.accepted == s.aux.accepted + data;
    ReadsWrong(s.mem, base, s.aux.accepted, i, data, s.app.rasi.readLength, t.mem.emitted);
  }

  lemma DeliveryLost(s: Sess, e: nat) returns (run: seq<Action>)
    requires Inv(s) && Contents(s) && !s.aux.fin && e in s.aux.edges && e >= s.aux.issued + 0x1_0002
    ensures ConformingRun(s, run) && NoSynAck(run) && WrongAt(Run(s, run), s.aux.issued)
  {
    var a, q := Prepare(s, e);
    Bounds(q);
    var i := q.aux.issued;
    var other: Byte := if q.aux.accepted[i] == 9 then 8 else 9;
    var k := i + RING + 1 - |q.aux.accepted|;
    var data: seq<Byte> := if k == 3 then [9, 9, other] else [9, other];
    FinFitsEdge(q.aux, data, e);
    TakesFin(q, data);
    var r := Run(q, TakeFin(q.aux, data));
    FinOverwrites(q, r, data);
    ThreeSteps(r);
    RunConcat(q, TakeFin(q.aux, data), READ_NEXT);
    var b := TakeFin(q.aux, data) + READ_NEXT;
    assert forall x <- b :: x in TakeFin(q.aux, data) || x in READ_NEXT;
    InTurn(s, a, q, b);
    run := a + b;
  }

  /** What a repeated SYN-ACK costs, exactly: whatever conforming steps follow any part of the
      run, the window, or the delivery, is kept if and only if every SYN-ACK that was sent again
      found a FIN taken, or the application close enough to what it acknowledged. */
  lemma SynAckIff(aim: Aim, init: Sess, actions: seq<Action>)
    requires Init(init) && ConformingRun(init, actions)
    ensures AllowedRun(aim, init, actions) <==>
            forall n: nat, rest: seq<Action> ::
              n <= |actions| && NoSynAck(rest) && ConformingRun(init, actions[..n] + rest) ==>
                Kept(aim, Run(init, actions[..n] + rest))
  {
    if AllowedRun(aim, init, actions) {
      forall n: nat, rest: seq<Action> | n <= |actions| && NoSynAck(rest) && ConformingRun(init, actions[..n] + rest)
        ensures Kept(aim, Run(init, actions[..n] + rest))
      {
        assert actions == actions[..n] + actions[n..];
        AllowedConcat(aim, init, actions[..n], actions[n..]);
        AllowedConcat(aim, init, actions[..n], rest);
        NoneIsAllowed(aim, Run(init, actions[..n]), rest);
        Reached(aim, init, actions[..n] + rest);
      }
    } else {
      var n, rest := Loses(aim, init, actions);
    }
  }

  /** The part of a run up to the first SYN-ACK that is too early, and how it goes on. */
  lemma Loses(aim: Aim, init: Sess, actions: seq<Action>) returns (n: nat, rest: seq<Action>)
    requires Init(init) && ConformingRun(init, actions) && !AllowedRun(aim, init, actions)
    ensures n <= |actions| && NoSynAck(rest) && ConformingRun(init, actions[..n] + rest)
    ensures !Kept(aim, Run(init, actions[..n] + rest))
  {
    var k := FirstRefused(aim, init, actions);
    assert actions == actions[..k] + actions[k..];
    RunConcat(init, actions[..k], actions[k..]);
    Reached(aim, init, actions[..k]);
    n := k + 1;
    rest := AfterSynAck(aim, init, actions[..k]);
    assert actions[..n] == actions[..k] + [SynAckAgain];
  }

  lemma {:induction false} ContentsBefore(s: Sess, actions: seq<Action>)
    requires Inv(s) && Contents(s) && ConformingRun(s, actions) && !Run(s, actions).aux.fin
    ensures Contents(Run(s, actions))
    decreases |actions|
  {
    if actions != [] {
      StepInv(s, actions[0]);
      FinStays(Step(s, actions[0]), actions[1..]);
      ContentsStep(s, actions[0]);
      ContentsBefore(Step(s, actions[0]), actions[1..]);
    }
  }

  lemma {:induction false} FinStays(s: Sess, actions: seq<Action>)
    ensures s.aux.fin ==> Run(s, actions).aux.fin
    decreases |actions|
  {
    if actions != [] { FinStays(Step(s, actions[0]), actions[1..]); }
  }

  lemma AfterSynAck(aim: Aim, init: Sess, before: seq<Action>) returns (rest: seq<Action>)
    requires Init(init) && ConformingRun(init, before) && !Allows(aim, Run(init, before), SynAckAgain)
    ensures NoSynAck(rest) && ConformingRun(init, before + [SynAckAgain] + rest)
    ensures !Kept(aim, Run(init, before + [SynAckAgain] + rest))
    ensures aim == Delivery ==> WrongAt(Run(init, before + [SynAckAgain] + rest), Run(init, before).aux.issued)
  {
    var s := Run(init, before);
    InitInv(init);
    RunInv(init, before);
    ContentsBefore(init, before);
    rest := Onwards(aim, s);
    RunFirst(s, SynAckAgain, rest);
    RunConcat(init, before, [SynAckAgain] + rest);
    assert before + [SynAckAgain] + rest == before + ([SynAckAgain] + rest);
  }

  lemma Onwards(aim: Aim, s: Sess) returns (rest: seq<Action>)
    requires Inv(s) && Contents(s) && !Allows(aim, s, SynAckAgain)
    ensures NoSynAck(rest) && ConformingRun(SynAckStep(s), rest) && !Kept(aim, Run(SynAckStep(s), rest))
    ensures aim == Delivery ==> WrongAt(Run(SynAckStep(s), rest), s.aux.issued)
  {
    SynAckInv(s);
    SameMemory(s, SynAckAgain);
    var q, e := SynAckStep(s), s.aux.recvdOff + 0xFFFF;
    assert q.aux.edges[|s.aux.edges|] == e;
    if aim == Window {
      rest := WindowLost(q, e);
    } else {
      rest := DeliveryLost(q, e);
      WrongIsLost(Run(q, rest), s.aux.issued);
    }
  }

  /** Three bytes are received and in the table. */
  function StoreThree(base: U32): seq<Action> {
    ([Receive(Segment(base, [1, 2, 3], false))] + [TableForEngine]) + ([Accept(true)] + [TableForEngine])
  }

  lemma StoresThree(s: Sess)
    requires Init(s)
    ensures ConformingRun(s, StoreThree(s.aux.base))
    ensures var r := Run(s, StoreThree(s.aux.base));
            r.aux.accepted == [1, 2, 3] && r.aux.recvdOff == 3 && r.aux.issued == 0 && !r.aux.fin
  {
    var g := Segment(s.aux.base, [1, 2, 3], false);
    InitInv(s);
    assert 0xFFFF in s.aux.edges;
    Arrives(s, g);
    FreeSpaceIs(s.aux.base, 0, 0);
    var q := Arrived(s, g);
    var t := AcceptStep(q, true);
    assert t.aux.accepted == [] + [1, 2, 3] && t.eng.req == [EngWrite(NewRecvd(g))];
    RunFirst(q, Accept(true), [TableForEngine]);
    RunFirst(t, TableForEngine, []);
    assert [TableForEngine] + [] == [TableForEngine];
    RunConcat(s, [Receive(g)] + [TableForEngine], [Accept(true)] + [TableForEngine]);
  }

  /** A run in which the application reads a wrong byte, whatever the sequence numbers and the ring
      are: three bytes are received, the SYN-ACK is sent again, and the peer uses its window up to
      a FIN whose payload overwrites the first byte, which was not read yet. */
  lemma LateSynAckOverwrites(init: Sess) returns (rest: seq<Action>)
    requires Init(init)
    ensures var run := StoreThree(init.aux.base) + [SynAckAgain] + rest;
            && NoSynAck(rest) && ConformingRun(init, run)
            && WrongAt(Run(init, run), 0) && Run(init, run).aux.accepted[0] == 1
  {
    var before := StoreThree(init.aux.base);
    StoresThree(init);
    rest := AfterSynAck(Delivery, init, before);
    AcceptedGrows(init, before, [SynAckAgain] + rest);
    assert before + [SynAckAgain] + rest == before + ([SynAckAgain] + rest);
  }

  lemma AcceptedGrows(s: Sess, a: seq<Action>, b: seq<Action>)
    ensures Run(s, a).aux.accepted <= Run(s, a + b).aux.accepted
  {
    RunConcat(s, a, b);
    AcceptedOnlyGrows(Run(s, a), b);
  }

  lemma {:induction false} AcceptedOnlyGrows(s: Sess, actions: seq<Action>)
    ensures s.aux.accepted <= Run(s, actions).aux.accepted
    decreases |actions|
  {
    if actions != [] { AcceptedOnlyGrows(Step(s, actions[0]), actions[1..]); }
  }

  // ---------------------------------------------------------------- the advertised window

  /** The advertised right edge is one ring minus one byte past the application's pointer if and
      only if that pointer is not ahead of the receive pointer in the table, nor a ring behind. */
  lemma WindowIsExact(init: Sess, actions: seq<Action>)
    requires Init(init) && ConformingRun(init, actions)
    ensures var s := Run(init, actions);
            s.aux.recvdOff + FreeSpace(s.entry) == s.aux.appdOff + 0xFFFF
            <==> s.aux.appdOff <= s.aux.recvdOff < s.aux.appdOff + RING
  {
    InitInv(init);
    RunInv(init, actions);
    AdvertisedEdge(Run(init, actions));
  }

  /** The offset that an advertised window takes for the application's pointer. */
  function Taken16(x: Aux): nat {
    if Overrun(x) then x.appdOff + RING else x.appdOff
  }

  /** An advertisement finds the table's receive pointer behind the application's, or the
      application's behind what an earlier advertisement took for it. */
  predicate MovesLeft(s: Sess, a: Action) {
    a == Advertise && (s.aux.recvdOff < s.aux.appdOff || Taken16(s.aux) < s.aux.claimed)
  }

  predicate Sorted(edges: seq<nat>) {
    forall j, k :: 0 <= j <= k < |edges| ==> edges[j] <= edges[k]
  }

  lemma SortedPush(edges: seq<nat>, e: nat)
    ensures Sorted(edges + [e]) <==> Sorted(edges) && forall x <- edges :: x <= e
  {
    var all := edges + [e];
    if Sorted(all) {
      forall j, k | 0 <= j <= k < |edges| ensures edges[j] <= edges[k] { assert all[j] == edges[j] && all[k]
          == edges[k]; }
      forall x | x in edges ensures x <= e {
        var j :| 0 <= j < |edges| && edges[j] == x;
        assert all[j] == x && all[|edges|] == e;
      }
    }
    if Sorted(edges) && forall x <- edges :: x <= e {
      forall j, k | 0 <= j <= k < |all| ensures all[j] <= all[k] {
        if j < |edges| { assert all[j] == edges[j] && edges[j] in edges; }
        if k < |edges| { assert all[k] == edges[k]; }
      }
    }
  }

  /** An advertisement keeps the edges in order if and only if it does not move left. */
  lemma AdvertSorted(s: Sess, a: Action)
    requires Inv(s) && (a == Advertise || a == SynAckAgain)
    ensures Sorted(Step(s, a).aux.edges) <==> Sorted(s.aux.edges) && !MovesLeft(s, a)
  {
    var x := s.aux;
    var e := x.recvdOff + if a == Advertise then FreeSpace(s.entry) else 0xFFFF;
    AdvertisedEdge(s);
    EdgePushed(s, a);
    SortedPush(x.edges, e);
    Bounds(s);
    if MovesLeft(s, a) { LeftOfOne(x, RecvEnd(x), e); }
  }

  lemma LeftOfOne(x: Aux, top: nat, e: int)
    requires EdgesInv(x, top) && (e < x.claimed + 0xFFFF || e < top)
    ensures exists k :: k in x.edges && e < k
  {
    var m :| m in x.edges && top <= m;
    assert x.claimed + 0xFFFF in x.edges;
  }

  lemma StepSorted(s: Sess, a: Action)
    requires Inv(s)
    ensures Sorted(Step(s, a).aux.edges) <==> Sorted(s.aux.edges) && !MovesLeft(s, a)
  {
    if a == Advertise || a == SynAckAgain {
      AdvertSorted(s, a);
    } else if a.Accept? {
      AcceptEdges(s, a.open);
    } else {
      SameEdges(s, a);
    }
  }

  /** No advertisement of the run moves left. */
  predicate NeverLeft(s: Sess, actions: seq<Action>)
    decreases |actions|
  {
    actions == [] || (!MovesLeft(s, actions[0]) && NeverLeft(Step(s, actions[0]), actions[1..]))
  }

  lemma {:induction false} EdgesGrow(s: Sess, actions: seq<Action>)
    ensures s.aux.edges <= Run(s, actions).aux.edges
    decreases |actions|
  {
    if actions != [] {
      EdgesGrow(Step(s, actions[0]), actions[1..]);
      StepEdges(s, actions[0]);
    }
  }

  lemma StepEdges(s: Sess, a: Action)
    ensures s.aux.edges <= Step(s, a).aux.edges
  {
  }

  lemma {:induction false} SortedIff(s: Sess, actions: seq<Action>)
    requires Inv(s) && ConformingRun(s, actions) && Sorted(s.aux.edges)
    ensures Sorted(Run(s, actions).aux.edges) <==> NeverLeft(s, actions)
    decreases |actions|
  {
    if actions != [] {
      var a, rest := actions[0], actions[1..];
      var r := Step(s, a);
      StepInv(s, a);
      StepSorted(s, a);
      if Sorted(r.aux.edges) {
        SortedIff(r, rest);
      } else {
        StaysUnsorted(r, rest);
      }
    }
  }

  lemma StaysUnsorted(s: Sess, actions: seq<Action>)
    requires !Sorted(s.aux.edges)
    ensures !Sorted(Run(s, actions).aux.edges)
  {
    EdgesGrow(s, actions);
    if Sorted(Run(s, actions).aux.edges) {
      PrefixSorted(s.aux.edges, Run(s, actions).aux.edges);
    }
  }

  lemma PrefixSorted(p: seq<nat>, q: seq<nat>)
    requires p <= q && Sorted(q)
    ensures Sorted(p)
  {
    forall j, k | 0 <= j <= k < |p| ensures p[j] <= p[k] { assert p[j] == q[j] && p[k] == q[k]; }
  }

  /** Section 3.8.6 of RFC 9293, exactly: over a whole run the advertised right edge never moves
      left if and only if no window is computed while the application's pointer is ahead of the
      receive pointer, or behind the pointer that a repeated SYN-ACK acknowledged. */
  lemma RightEdgeIff(init: Sess, actions: seq<Action>)
    requires Init(init) && ConformingRun(init, actions)
    ensures Sorted(Run(init, actions).aux.edges) <==> NeverLeft(init, actions)
  {
    InitInv(init);
    SortedIff(init, actions);
  }

  /** The table takes a receive pointer before the application is told of the bytes, and no
      SYN-ACK is sent again while the application has bytes to ask for. */
  predicate Prompt(s: Sess, a: Action) {
    && (a == Notify ==> s.eng.req == [] || s.eng.req[0] == EngRead)
    && (a == SynAckAgain ==> s.aux.recvdOff == s.aux.appdOff)
  }

  predicate PromptRun(s: Sess, actions: seq<Action>)
    decreases |actions|
  {
    actions == [] || (Prompt(s, actions[0]) && PromptRun(Step(s, actions[0]), actions[1..]))
  }

  predicate PromptInv(s: Sess) {
    s.aux.notified <= s.aux.recvdOff && s.aux.claimed <= s.aux.appdOff && AimInv(Window, s)
  }

  lemma NotifyOnly(s: Sess)
    requires Inv(s) && Prompt(s, Notify)
    ensures var x, y := s.aux, NotifyStep(s).aux;
            && (x.notified <= x.recvdOff ==> y.notified <= y.recvdOff)
            && y.claimed == x.claimed && y.appdOff == x.appdOff
  {
    NotifyInv(s);
    Bounds(NotifyStep(s));
  }

  lemma NotNotified(s: Sess, a: Action)
    requires Inv(s) && a != Notify && a != Advertise && a != SynAckAgain
    ensures var x, y := s.aux, Step(s, a).aux;
            y.notified == x.notified && x.recvdOff <= y.recvdOff && y.claimed == x.claimed && x.appdOff <= y.appdOff
  {
  }

  lemma PromptStep(s: Sess, a: Action)
    requires Inv(s) && PromptInv(s) && Prompt(s, a)
    ensures PromptInv(Step(s, a)) && !MovesLeft(s, a)
  {
    WindowStep(s, a);
    match a
    case Notify => NotifyOnly(s);
    case Advertise => Bounds(s);
    case SynAckAgain =>
    case _ => NotNotified(s, a);
  }

  lemma {:induction false} PromptNeverLeft(s: Sess, actions: seq<Action>)
    requires Inv(s) && PromptInv(s) && ConformingRun(s, actions) && PromptRun(s, actions)
    ensures NeverLeft(s, actions)
    decreases |actions|
  {
    if actions != [] {
      StepInv(s, actions[0]);
      PromptStep(s, actions[0]);
      PromptNeverLeft(Step(s, actions[0]), actions[1..]);
    }
  }

  /** Section 3.8.6 of RFC 9293: the advertised right edge never moves left, if the table
      takes every receive pointer before the application is told of the bytes and no late
      SYN-ACK is sent again. */
  lemma RightEdgeNeverMovesLeft(init: Sess, actions: seq<Action>, j: nat, k: nat)
    requires Init(init) && ConformingRun(init, actions) && PromptRun(init, actions)
    requires j <= k < |Run(init, actions).aux.edges|
    ensures var s := Run(init, actions);
            && s.aux.edges[j] <= s.aux.edges[k] && |s.adverts| == |s.aux.edges|
            && Low32(s.adverts[k].ack + s.adverts[k].window) == Low32(s.aux.base + s.aux.edges[k])
  {
    InitInv(init);
    RunInv(init, actions);
    PromptNeverLeft(init, actions);
    RightEdgeIff(init, actions);
  }

  /** A segment of one byte: received, its state read, and accepted. */
  function StoreOne(base: U32): seq<Action> {
    [Receive(Segment(base, [7], false)), TableForEngine, Accept(true)]
  }

  /** The byte is stored and notified, and the application asks for it. */
  const ASK_ONE: seq<Action> := [Memory, Notify, Request(1)]

  /** The application's request reaches the table, and its pointer is advanced. */
  const READ_ONE: seq<Action> := [AppTick, TableForApp, AppTick, TableForApp]

  /** `s` with one byte accepted whose receive pointer waits for the table. */
  function OneStored(s: Sess): Sess
    requires Init(s)
  {
    var base := s.aux.base;
    s.(eng := Eng(Load, [EngWrite(Low32(base + 1))], []),
       mem := s.mem.(ops := [Write(Low16(base), [7])], notifications := [1]),
       aux := s.aux.(accepted := [7]))
  }

  lemma StoresOne(s: Sess)
    requires Init(s)
    ensures Run(s, StoreOne(s.aux.base)) == OneStored(s) && ConformingRun(s, StoreOne(s.aux.base))
  {
    var g := Segment(s.aux.base, [7], false);
    var s1 := s.(eng := Eng(Transition(g), [EngRead], []));
    var s2 := s.(eng := Eng(Transition(g), [], [s.entry]));
    assert Step(s, Receive(g)) == s1 && Step(s1, TableForEngine) == s2;
    FreeSpaceIs(s.aux.base, 0, 0);
    assert 0xFFFF in s.aux.edges;
    assert Step(s2, Accept(true)) == OneStored(s);
    RunFirst(s2, Accept(true), []);
    assert [Accept(true)] + [] == [Accept(true)];
    RunFirst(s1, TableForEngine, [Accept(true)]);
    RunFirst(s, Receive(g), [TableForEngine, Accept(true)]);
    assert StoreOne(s.aux.base) == [Receive(g)] + [TableForEngine, Accept(true)];
    assert [TableForEngine, Accept(true)] == [TableForEngine] + [Accept(true)];
  }

  function OneAsked(s: Sess): Sess
    requires Init(s)
  {
    var r := OneStored(s);
    r.(mem := r.mem.(ops := [], ring := Stored(r.mem.ring, Low16(s.aux.base), [7]), notifications := []),
       app := r.app.(requests := [1]), aux := r.aux.(notified := 1))
  }

  function OneRead(s: Sess): Sess
    requires Init(s)
  {
    var r, base := OneAsked(s), s.aux.base;
    r.(app := s.app, entry := r.entry.(appd := Low16(base + 1)),
       mem := r.mem.(ops := [Read(Low16(base), 1)]), aux := r.aux.(issued := 1, appdOff := 1))
  }

  lemma AsksOne(s: Sess)
    requires Init(s)
    ensures Run(OneStored(s), ASK_ONE) == OneAsked(s) && ConformingRun(OneStored(s), ASK_ONE)
  {
    var r, base := OneStored(s), s.aux.base;
    var r1 := r.(mem := r.mem.(ops := [], ring := Stored(r.mem.ring, Low16(base), [7]), statuses := 1));
    var r2 := r1.(mem := r1.mem.(statuses := 0, notifications := []), aux := r1.aux.(notified := 1));
    assert Step(r, Memory) == r1 && Step(r1, Notify) == r2 && Step(r2, Request(1)) == OneAsked(s);
    assert Run(r2, [Request(1)]) == OneAsked(s) && ConformingRun(r2, [Request(1)]);
    RunFirst(r1, Notify, [Request(1)]);
    RunFirst(r, Memory, [Notify, Request(1)]);
    assert ASK_ONE == [Memory] + [Notify, Request(1)];
    assert [Notify, Request(1)] == [Notify] + [Request(1)];
  }

  lemma ReadsOne(s: Sess)
    requires Init(s)
    ensures Run(OneAsked(s), READ_ONE) == OneRead(s) && ConformingRun(OneAsked(s), READ_ONE)
  {
    var r := OneAsked(s);
    var base: int := s.aux.base;
    var r1 := r.(app := App([], Waiting(1), [AppRead], []));
    var r2 := r.(app := App([], Waiting(1), [], [Low16(base)]));
    var r3 := r.(app := App([], Ready, [AppWrite(Low16(base + 1))], []),
                 mem := r.mem.(ops := [Read(Low16(base), 1)]), aux := r.aux.(issued := 1));
    Low16Add(base, 1);
    assert Step(r, AppTick) == r1 && Step(r1, TableForApp) == r2;
    assert Step(r2, AppTick) == r3 && Step(r3, TableForApp) == OneRead(s);
    assert Run(r3, [TableForApp]) == OneRead(s) && ConformingRun(r3, [TableForApp]);
    RunFirst(r2, AppTick, [TableForApp]);
    RunFirst(r1, TableForApp, [AppTick, TableForApp]);
    RunFirst(r, AppTick, [TableForApp, AppTick, TableForApp]);
    assert READ_ONE == [AppTick] + [TableForApp, AppTick, TableForApp];
    assert [TableForApp, AppTick, TableForApp] == [TableForApp] + [AppTick, TableForApp];
    assert [AppTick, TableForApp] == [AppTick] + [TableForApp];
  }

  /** Without promptness the right edge can move left: the table's receive pointer is still
      behind when the application's pointer has passed it, and a window of 0 is advertised
      for an empty ring. */
  lemma OvertakenWindow(s: Sess)
    requires Init(s)
    ensures var run := StoreOne(s.aux.base) + ASK_ONE + READ_ONE + [Advertise];
            var r := Run(s, run);
            && ConformingRun(s, run) && !PromptRun(OneStored(s), ASK_ONE)
            && r.aux.edges == [0xFFFF, 0] && r.adverts == s.adverts + [Advert(s.aux.base, 0)]
  {
    StoresOne(s);
    AsksOne(s);
    ReadsOne(s);
    var a := StoreOne(s.aux.base);
    RunConcat(s, a, ASK_ONE);
    RunConcat(s, a + ASK_ONE, READ_ONE);
    RunConcat(s, a + ASK_ONE + READ_ONE, [Advertise]);
    NotPrompt(s);
    OneReadEdge(s);
  }

  /** A SYN-ACK that is sent again behind accepted data: it names an edge beyond the ring, and
      the next window is left of it. */
  lemma LateSynAck(s: Sess)
    requires Init(s)
    ensures var run := StoreOne(s.aux.base) + [TableForEngine, SynAckAgain, Advertise];
            ConformingRun(s, run) && Run(s, run).aux.edges == [0xFFFF, 0x1_0000, 0xFFFF]
  {
    var a := StoreOne(s.aux.base);
    StoresOne(s);
    RunConcat(s, a, [TableForEngine, SynAckAgain, Advertise]);
    LateEdges(OneStored(s));
  }

  lemma LateEdges(r: Sess)
    requires r.eng == Eng(Load, [EngWrite(Low32(r.aux.base + 1))], []) && r.aux.accepted == [7] && !r.aux.fin
    requires r.entry.appd == Low16(r.aux.base) && r.aux.edges == [0xFFFF]
    ensures var run := [TableForEngine, SynAckAgain, Advertise];
            ConformingRun(r, run) && Run(r, run).aux.edges == [0xFFFF, 0x1_0000, 0xFFFF]
  {
    var base: int := r.aux.base;
    var r1 := r.(eng := Eng(Load, [], []), entry := r.entry.(recvd := Low32(base + 1)), aux := r.aux.(recvdOff := 1));
    assert Step(r, TableForEngine) == r1;
    var r2 := Step(r1, SynAckAgain);
    FreeSpaceIs(base, 1, 0);
    assert r2.aux.edges == [0xFFFF, 0x1_0000] && r2.entry == r1.entry;
    assert Step(r2, Advertise).aux.edges == [0xFFFF, 0x1_0000, 0xFFFF];
    assert Run(r2, [Advertise]) == Step(r2, Advertise) && ConformingRun(r2, [Advertise]);
    RunFirst(r1, SynAckAgain, [Advertise]);
    RunFirst(r, TableForEngine, [SynAckAgain, Advertise]);
    assert [TableForEngine, SynAckAgain, Advertise] == [TableForEngine] + [SynAckAgain, Advertise];
    assert [SynAckAgain, Advertise] == [SynAckAgain] + [Advertise];
  }

  lemma NotPrompt(s: Sess)
    requires Init(s)
    ensures !PromptRun(OneStored(s), ASK_ONE)
  {
    assert !PromptRun(Step(OneStored(s), Memory), ASK_ONE[1..]);
  }

  lemma OneReadEdge(s: Sess)
    requires Init(s)
    ensures var r := Run(OneRead(s), [Advertise]);
            r.aux.edges == [0xFFFF, 0] && r.adverts == s.adverts + [Advert(s.aux.base, 0)]
    ensures ConformingRun(OneRead(s), [Advertise])
  {
    FreeSpaceIs(s.aux.base, 0, 1);
    assert Run(OneRead(s), [Advertise]) == AdvertiseStep(OneRead(s));
  }
}
