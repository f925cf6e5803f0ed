/** The transmit path of one session, from the bytes that the application hands over to the
    segments read from memory: `tasi_metaLoader` (tx_app_stream_if.cpp), `tx_app_table` and
    `txAppStatusHandler` (tx_app_interface.cpp), tx_sar_table.cpp, the pointers of
    `metaLoader` (tx_engine.cpp) and the acknowledgement test of `rxTcpFSM` (rx_engine.cpp).

    Every pointer in a table, a FIFO or a register is 16 or 32 bits wide; its record also
    keeps the unbounded stream offset that it stands for. Offset 0 is the SYN, so the
    application's bytes start at offset 1. The connection has sent no FIN. What a SYN and a FIN
    of the peer write, and the initialisation of the line for another number, are steps too. */
module TxRing {
  import opened Toe
  import opened Ring

  datatype P16 = P16(value: U16, off: nat)
  datatype P32 = P32(value: U32, off: nat)

  /** A line of `tx_sar_table`: acknowledged, sent, and handed over with its bytes written. */
  datatype Sar = Sar(ackd: P32, notAckd: P32, app: P16)

  /** A line of `tx_app_table`: acknowledged, and handed over. */
  datatype AppEntry = AppEntry(ackd: P16, mempt: P16)

  datatype AppReq = AppRead | AppWrite(mempt: P16)
  datatype EngReq = EngRead | EngWrite(notAckd: P32)
  /** `RxForced` is a write without the test: the number 0 for a SYN, and any number for a FIN. */
  datatype RxReq = RxRead | RxWrite(ackd: P32) | RxForced(value: U32)
  datatype RxReply = RxReply(prevAck: P32, nextByte: P32)

  /** The events that wait for a write status; `Other` ones come from `tx_app_if`. */
  datatype Event = TxEvent(address: P16, length: nat) | Other

  datatype Write = Write(at: U16, data: seq<Byte>)
  datatype Read = Read(at: P16, len: nat)

  datatype Answer = Accepted(length: nat) | NoConnection | NoSpace

  datatype Tasi = ReadRequest | ReadMeta(data: seq<Byte>)

  /** `tasi_metaLoader` and `tx_app_table`. */
  datatype Front = Front(
    requests: seq<seq<Byte>>, tasi: Tasi, req: seq<AppReq>, rsp: seq<AppEntry>,
    entry: AppEntry, acks: seq<P16>, answers: seq<Answer>)

  /** The memory with its pending writes and statuses, and `txAppStatusHandler`. */
  datatype Store = Store(
    writes: seq<Write>, ring: Ring, statuses: nat, events: seq<Event>, half: Option<Event>, pushes: seq<P16>)

  datatype Phase = NoEvent | Loading(rt: bool) | Sending(rt: bool, sar: Sar)

  /** `metaLoader` with a TX or an RT event, and the memory reads that it issued. */
  datatype Eng = Eng(phase: Phase, req: seq<EngReq>, rsp: seq<Sar>, cmds: seq<Read>)

  datatype RxPhase = Waiting | Checking(ackNumb: U32)

  /** `rxTcpFSM`, as far as acknowledgements go. */
  datatype Rx = Rx(phase: RxPhase, req: seq<RxReq>, rsp: seq<RxReply>)

  /** History: the stream handed over (with the SYN in front), how much of it is written and
      how much was handed on by `txAppStatusHandler`, and whether the session is still in
      SYN_SENT, where it takes a SYN. */
  datatype Aux = Aux(base: U32, stream: seq<Byte>, written: nat, handled: nat, synSent: bool)

  datatype Sess = Sess(sar: Sar, front: Front, store: Store, eng: Eng, rx: Rx, aux: Aux)

  datatype Action =
    | Submit(data: seq<Byte>)
    | TakeRequest
    | Decide(established: bool)
    | TableForApp
    | MemoryWrite
    | OtherEvent
    | HandleStatus
    | SarForEngine
    | SarForApp
    | SarForRx
    | LoadEvent(rt: bool)
    | StartEvent
    | Send(n: nat, last: bool)
    | MemoryRead
    | ReceiveAck(ackNumb: U32)
    | CheckAck(open: bool)
    | CheckFin(takes: bool)
    | TakeSyn
    | Restart(number: U32, synSent: bool)

  // ---------------------------------------------------------------- the application's side

  /** The space that `tasi_metaLoader` computes, in 16 bits. */
  function Space(e: AppEntry): U16 {
    Low16(e.ackd.value - e.mempt.value - 1)
  }

  function Advance(p: P16, n: nat): P16 {
    P16(Low16(p.value + n), p.off + n)
  }

  /** The memory writes of a packet: two if it runs over the end of the ring. */
  function Pieces(at: U16, data: seq<Byte>): seq<Write> {
    if at + |data| > RING then [Write(at, data[..RING - at]), Write(0, data[RING - at..])]
    else [Write(at, data)]
  }

  function DecideStep(s: Sess, established: bool): Sess {
    if !s.front.tasi.ReadMeta? || s.front.rsp == [] then s
    else
      var data, e := s.front.tasi.data, s.front.rsp[0];
      var f := s.front.(tasi := ReadRequest, rsp := s.front.rsp[1..]);
      if !established then s.(front := f.(answers := f.answers + [NoConnection]))
      else if |data| > Space(e) then s.(front := f.(answers := f.answers + [NoSpace]))
      else
        s.(front := f.(answers := f.answers + [Accepted(|data|)], req := f.req + [AppWrite(Advance(e.mempt, |data|))]),
           store := s.store.(writes := s.store.writes + Pieces(e.mempt.value, data),
                             events := s.store.events + [TxEvent(e.mempt, |data|)]),
           aux := s.aux.(stream := s.aux.stream + data))
  }

  function TakeStep(f: Front): Front {
    if f.tasi != ReadRequest || f.requests == [] then f
    else f.(requests := f.requests[1..], tasi := ReadMeta(f.requests[0]), req := f.req + [AppRead])
  }

  /** `tx_app_table`: acknowledgements first. */
  function AppTableStep(f: Front): Front {
    if f.acks != [] then f.(acks := f.acks[1..], entry := f.entry.(ackd := f.acks[0]))
    else if f.req == [] then f
    else match f.req[0]
      case AppWrite(mempt) => f.(req := f.req[1..], entry := f.entry.(mempt := mempt))
      case AppRead => f.(req := f.req[1..], rsp := f.rsp + [f.entry])
  }

  // ---------------------------------------------------------------- memory and statuses

  function MemoryWriteStep(s: Sess): Sess {
    if s.store.writes == [] || |s.store.writes[0].data| > RING then s
    else
      var w := s.store.writes[0];
      s.(store := s.store.(writes := s.store.writes[1..], ring := Stored(s.store.ring, w.at, w.data),
                           statuses := s.store.statuses + 1),
         aux := s.aux.(written := s.aux.written + |w.data|))
  }

  predicate NeedsTwo(ev: Event) {
    ev.TxEvent? && ev.address.value + ev.length > RING
  }

  /** Handing the event on moves the application pointer behind its bytes. */
  function HandOn(s: Sess, t: Store, ev: Event): Sess {
    if ev.Other? then s.(store := t)
    else s.(store := t.(pushes := t.pushes + [Advance(ev.address, ev.length)]),
            aux := s.aux.(handled := s.aux.handled + ev.length))
  }

  /** `txAppStatusHandler`: a status for every event, two for one that was split. */
  function StatusStep(s: Sess): Sess {
    var t := s.store;
    if t.statuses == 0 then s
    else if t.half.Some? then
      HandOn(s, t.(half := None, statuses := t.statuses - 1), t.half.value)
    else if t.events == [] then s
    else
      var r := t.(events := t.events[1..], statuses := t.statuses - 1);
      if NeedsTwo(t.events[0]) then s.(store := r.(half := Some(t.events[0]))) else HandOn(s, r, t.events[0])
  }

  // ---------------------------------------------------------------- tx_sar_table

  function SarEngineStep(s: Sess): Sess {
    if s.eng.req == [] then s
    else
      var e := s.eng.(req := s.eng.req[1..]);
      match s.eng.req[0]
      case EngWrite(notAckd) => s.(eng := e, sar := s.sar.(notAckd := notAckd))
      case EngRead => s.(eng := e.(rsp := e.rsp + [s.sar]))
  }

  function SarAppStep(s: Sess): Sess {
    if s.store.pushes == [] then s
    else s.(store := s.store.(pushes := s.store.pushes[1..]), sar := s.sar.(app := s.store.pushes[0]))
  }

  /** A new acknowledgement is also pushed to `tx_app_table`. */
  function SarRxStep(s: Sess): Sess {
    if s.rx.req == [] then s
    else
      var x := s.rx.(req := s.rx.req[1..]);
      match s.rx.req[0]
      case RxWrite(ackd) =>
        s.(rx := x, sar := s.sar.(ackd := ackd),
           front := s.front.(acks := s.front.acks + [P16(Low16(ackd.value), ackd.off)]))
      case RxForced(value) =>
        var ackd := Onward(s.sar.ackd, value);
        s.(rx := x, sar := s.sar.(ackd := ackd),
           front := s.front.(acks := s.front.acks + [P16(Low16(ackd.value), ackd.off)]))
      case RxRead => s.(rx := x.(rsp := x.rsp + [RxReply(s.sar.ackd, s.sar.notAckd)]))
  }

  /** The next offset behind `p` that a number stands for. */
  function Onward(p: P32, value: U32): P32 {
    P32(value, p.off + Low32(value - p.value))
  }

  // ---------------------------------------------------------------- rxTcpFSM

  /** The test of `rxTcpFSM` for an acknowledgement between `prev` and `next`. */
  predicate AckTest(prev: U32, ackNumb: U32, next: U32) {
    || (prev <= ackNumb && ackNumb <= next)
    || ((prev <= ackNumb || ackNumb <= next) && next < prev)
  }

  function CheckStep(x: Rx, open: bool): Rx {
    if !x.phase.Checking? || x.rsp == [] then x
    else
      var a, p, n := x.phase.ackNumb, x.rsp[0].prevAck, x.rsp[0].nextByte;
      var r := x.(phase := Waiting, rsp := x.rsp[1..]);
      if open && AckTest(p.value, a, n.value) then
        r.(req := r.req + [RxWrite(Onward(p, a))])
      else r
  }

  /** A FIN in order: what it acknowledges is written whatever it is. */
  function FinStep(x: Rx, takes: bool): Rx {
    if !x.phase.Checking? || x.rsp == [] then x
    else
      var r := x.(phase := Waiting, rsp := x.rsp[1..]);
      if takes then r.(req := r.req + [RxForced(x.phase.ackNumb)]) else r
  }

  /** A SYN in SYN_SENT: the acknowledged number 0. */
  function SynStep(x: Rx): Rx {
    if x.phase == Waiting then x.(req := x.req + [RxForced(0)]) else x
  }

  // ---------------------------------------------------------------- metaLoader

  /** What a TX event may still send. */
  function Unsent(sar: Sar): U16 {
    Low16(sar.app.value - Low16(sar.notAckd.value))
  }

  /** What an RT event may still send again. */
  function Outstanding(sar: Sar): U16 {
    Low16(Low16(sar.notAckd.value) - sar.ackd.value)
  }

  function Moved(p: P32, n: nat): P32 {
    P32(Low32(p.value + n), p.off + n)
  }

  function Issue(e: Eng, p: P32, n: nat): Eng {
    if n == 0 then e else e.(cmds := e.cmds + [Read(P16(Low16(p.value), p.off), n)])
  }

  /** One segment of `n` bytes, or none; after the last one a TX event stores its pointer. */
  function SendStep(e: Eng, n: nat, last: bool): Eng {
    if !e.phase.Sending? then e
    else
      var sar := e.phase.sar;
      if e.phase.rt then
        if n > Outstanding(sar) then e
        else
          var r := Issue(e, sar.ackd, n);
          r.(phase := if last then NoEvent else Sending(true, sar.(ackd := Moved(sar.ackd, n))))
      else if n > Unsent(sar) then e
      else
        var r, p := Issue(e, sar.notAckd, n), Moved(sar.notAckd, n);
        if last then r.(phase := NoEvent, req := r.req + [EngWrite(p)])
        else r.(phase := Sending(false, sar.(notAckd := p)))
  }

  function StartStep(e: Eng): Eng {
    if !e.phase.Loading? || e.rsp == [] then e
    else e.(phase := Sending(e.phase.rt, e.rsp[0]), rsp := e.rsp[1..])
  }

  function Step(s: Sess, a: Action): Sess {
    match a
    case Submit(data) => s.(front := s.front.(requests := s.front.requests + [data]))
    case TakeRequest => s.(front := TakeStep(s.front))
    case Decide(established) =>
      var r := DecideStep(s, established);
      if established then r.(aux := r.aux.(synSent := false)) else r
    case TableForApp => s.(front := AppTableStep(s.front))
    case MemoryWrite => MemoryWriteStep(s)
    case OtherEvent => s.(store := s.store.(events := s.store.events + [Other]))
    case HandleStatus => StatusStep(s)
    case SarForEngine => SarEngineStep(s)
    case SarForApp => SarAppStep(s)
    case SarForRx => SarRxStep(s)
    case LoadEvent(rt) =>
      if s.eng.phase != NoEvent then s
      else s.(eng := s.eng.(phase := Loading(rt), req := s.eng.req + [EngRead]))
    case StartEvent => s.(eng := StartStep(s.eng))
    case Send(n, last) => s.(eng := SendStep(s.eng, n, last))
    case MemoryRead => if s.eng.cmds == [] then s else s.(eng := s.eng.(cmds := s.eng.cmds[1..]))
    case ReceiveAck(ackNumb) =>
      if s.rx.phase != Waiting then s else s.(rx := s.rx.(phase := Checking(ackNumb), req := s.rx.req + [RxRead]))
    case CheckAck(open) =>
      s.(rx := CheckStep(s.rx, open), aux := if open then s.aux.(synSent := false) else s.aux)
    case CheckFin(takes) =>
      s.(rx := FinStep(s.rx, takes), aux := if takes then s.aux.(synSent := false) else s.aux)
    case TakeSyn =>
      if !s.aux.synSent || s.rx.phase != Waiting then s
      else s.(rx := SynStep(s.rx), aux := s.aux.(synSent := false))
    case Restart(number, synSent) => if Quiet(s) then Restarted(s, number, synSent) else s
  }

  /** Nothing was handed over and nothing is on its way, but for requests of the application, and
      events that are no writes. */
  predicate Quiet(s: Sess) {
    && s.rx == Rx(Waiting, [], []) && s.eng == Eng(NoEvent, [], [], [])
    && s.front.tasi == ReadRequest && s.front.req == [] && s.front.rsp == []
    && s.store.writes == [] && s.store.statuses == 0 && s.store.half == None && s.store.pushes == []
    && |s.aux.stream| == 1 && forall ev <- s.store.events :: ev.Other?
  }

  /** The TX engine sends a SYN or a SYN-ACK with a new number, `tx_sar_table` takes the
      initialising write, and `tx_app_table` its push behind all earlier ones. */
  function Restarted(s: Sess, number: U32, synSent: bool): Sess {
    var t := Start(number, s.store.ring, synSent);
    t.(front := t.front.(requests := s.front.requests, answers := s.front.answers),
       store := t.store.(events := s.store.events))
  }

  function Run(s: Sess, actions: seq<Action>): Sess
    decreases |actions|
  {
    if actions == [] then s else Run(Step(s, actions[0]), actions[1..])
  }

  /** The tables just after the SYN or SYN-ACK with sequence number `base` initialised them. */
  predicate Init(s: Sess) {
    var base := s.aux.base;
    && s.sar == Sar(P32(base, 0), P32(Low32(base + 1), 1), P16(Low16(base + 1), 1))
    && s.front == Front([], ReadRequest, [], [], AppEntry(P16(Low16(base), 0), P16(Low16(base + 1), 1)), [], [])
    && s.store.writes == [] && s.store.statuses == 0 && s.store.events == [] && s.store.half == None
    && s.store.pushes == []
    && s.eng == Eng(NoEvent, [], [], []) && s.rx == Rx(Waiting, [], [])
    && |s.aux.stream| == 1 && s.aux.written == 1 && s.aux.handled == 1
    && s.store.ring[base % RING] == s.aux.stream[0]
  }

  /** The start of a connection, whatever an earlier one left in the ring. */
  function Start(base: U32, ring: Ring, synSent: bool): (s: Sess)
    ensures Init(s)
  {
    Sess(Sar(P32(base, 0), P32(Low32(base + 1), 1), P16(Low16(base + 1), 1)),
         Front([], ReadRequest, [], [], AppEntry(P16(Low16(base), 0), P16(Low16(base + 1), 1)), [], []),
         Store([], ring, 0, [], None, []), Eng(NoEvent, [], [], []), Rx(Waiting, [], []),
         Aux(base, [ring[base % RING]], 1, 1, synSent))
  }

  // ---------------------------------------------------------------- the invariant

  predicate Is16(base: U32, p: P16) {
    p.value == Low16(base + p.off)
  }

  predicate Is32(base: U32, p: P32) {
    p.value == Low32(base + p.off)
  }

  /** Pointers on their way, none of them moving back, between `lo` and `hi`. */
  predicate Chain(q: seq<P16>, base: U32, lo: nat, hi: nat) {
    if q == [] then lo <= hi else Is16(base, q[0]) && lo <= q[0].off && Chain(q[1..], base, q[0].off, hi)
  }

  /** The requests of `tasi_metaLoader` alternate; `top` is what was handed over. */
  predicate FrontInv(f: Front, base: U32, top: nat) {
    var writes := if f.req != [] && f.req[0].AppWrite? then 1 else 0;
    && Is16(base, f.entry.ackd)
    && (writes == 1 ==> f.req[0] == AppWrite(P16(Low16(base + top), top)))
    && (writes == 0 ==> f.entry.mempt == P16(Low16(base + top), top))
    && f.entry.ackd.off <= top <= f.entry.ackd.off + 0xFFFF
    && (if f.tasi == ReadRequest then |f.req| == writes && f.rsp == []
        else if f.rsp == [] then |f.req| == writes + 1 && f.req[writes] == AppRead
        else f.req == [] && |f.rsp| == 1 && SnapInv(f.rsp[0], f.entry, base, top))
  }

  predicate SnapInv(e: AppEntry, entry: AppEntry, base: U32, top: nat) {
    && e.mempt == P16(Low16(base + top), top) && Is16(base, e.ackd)
    && e.ackd.off <= entry.ackd.off && top <= e.ackd.off + 0xFFFF
  }

  /** The pending writes, from offset `w` on, make up the stream. */
  predicate WritesInv(writes: seq<Write>, base: U32, stream: seq<Byte>, w: nat) {
    if writes == [] then w == |stream|
    else
      var n := |writes[0].data|;
      && writes[0].at == Low16(base + w) && n <= RING
      && w + n <= |stream| && writes[0].data == stream[w..w + n]
      && WritesInv(writes[1..], base, stream, w + n)
  }

  /** The pending events, from offset `h` on, cover the stream. */
  predicate EventsInv(events: seq<Event>, base: U32, h: nat, top: nat) {
    if events == [] then h == top
    else if events[0].Other? then EventsInv(events[1..], base, h, top)
    else
      && events[0].address == P16(Low16(base + h), h) && events[0].length <= 0xFFFF
      && EventsInv(events[1..], base, h + events[0].length, top)
  }

  /** The lengths of the memory writes that belong to an event. */
  function EventPieces(ev: Event): seq<nat> {
    if ev.Other? then []
    else if NeedsTwo(ev) && ev.address.value <= RING then
      [RING - ev.address.value, ev.address.value + ev.length - RING]
    else [ev.length]
  }

  function AllPieces(events: seq<Event>): seq<nat> {
    if events == [] then [] else EventPieces(events[0]) + AllPieces(events[1..])
  }

  /** The pieces that `txAppStatusHandler` still counts statuses for. */
  function Due(t: Store): seq<nat> {
    (if t.half.Some? && NeedsTwo(t.half.value) then EventPieces(t.half.value)[1..] else []) + AllPieces(t.events)
  }

  function Lens(writes: seq<Write>): seq<nat> {
    seq(|writes|, k requires 0 <= k < |writes| => |writes[k].data|)
  }

  /** The writes that are not done are the last ones that are due, and before them as many
      are due as there are statuses, at least. */
  predicate StatusInv(t: Store) {
    var due := Due(t);
    && |t.writes| + t.statuses <= |due|
    && Lens(t.writes) == due[|due| - |t.writes|..]
  }

  predicate StoreInv(t: Store, x: Aux) {
    && WritesInv(t.writes, x.base, x.stream, x.written)
    && (t.half.Some? ==> NeedsTwo(t.half.value))
    && EventsInv((if t.half.Some? then [t.half.value] else []) + t.events, x.base, x.handled, |x.stream|)
    && StatusInv(t)
  }

  predicate ReadsInv(cmds: seq<Read>, base: U32, app: nat) {
    forall r <- cmds :: Is16(base, r.at) && r.at.off + r.len <= app
  }

  /** A copy of the table's line in `metaLoader`. */
  predicate CopyInv(c: Sar, base: U32) {
    && Is32(base, c.ackd) && Is32(base, c.notAckd) && Is16(base, c.app)
    && c.ackd.off <= c.notAckd.off <= c.app.off <= c.ackd.off + 0xFFFF
  }

  predicate EngInv(e: Eng, sar: Sar, base: U32) {
    var writes := if e.req != [] && e.req[0].EngWrite? then 1 else 0;
    && (writes == 1 ==>
          var p := e.req[0].notAckd; Is32(base, p) && sar.notAckd.off <= p.off <= sar.app.off)
    && match e.phase
       case NoEvent => |e.req| == writes && e.rsp == []
       case Loading(rt) =>
         if e.rsp == [] then |e.req| == writes + 1 && e.req[writes] == EngRead
         else e.req == [] && |e.rsp| == 1 && CopyInv(e.rsp[0], base)
              && e.rsp[0].notAckd == sar.notAckd && e.rsp[0].app.off <= sar.app.off
       case Sending(rt, c) =>
         && e.req == [] && e.rsp == []
         && (if rt then CopyRtInv(c, base) else CopyTxInv(c, base))
         && sar.notAckd.off <= c.notAckd.off && c.app.off <= sar.app.off
  }

  predicate CopyTxInv(c: Sar, base: U32) {
    Is32(base, c.notAckd) && Is16(base, c.app) && c.notAckd.off <= c.app.off <= c.notAckd.off + 0xFFFF
  }

  predicate CopyRtInv(c: Sar, base: U32) {
    && Is32(base, c.ackd) && Is32(base, c.notAckd)
    && c.ackd.off <= c.notAckd.off <= c.ackd.off + 0xFFFF && c.notAckd.off <= c.app.off
  }

  predicate RxInv(x: Rx, sar: Sar, base: U32) {
    var writes := if x.req != [] && x.req[0] != RxRead then 1 else 0;
    && (writes == 1 && x.req[0].RxWrite? ==>
          var p := x.req[0].ackd; Is32(base, p) && sar.ackd.off <= p.off <= sar.notAckd.off)
    && (if x.phase == Waiting then |x.req| == writes && x.rsp == []
        else if x.rsp == [] then |x.req| == writes + 1 && x.req[writes] == RxRead
        else && x.req == [] && |x.rsp| == 1 && x.rsp[0].prevAck == sar.ackd
             && Is32(base, x.rsp[0].nextByte) && sar.ackd.off <= x.rsp[0].nextByte.off <= sar.notAckd.off)
  }

  /** In SYN_SENT nothing acknowledged is on its way. */
  predicate OpenInv(x: Rx, synSent: bool) {
    synSent ==> x.req == [] || x.req[0] == RxRead
  }

  /** The order of the offsets: acknowledged, sent, known to the table, handed on, written,
      handed over. */
  predicate SarInv(sar: Sar, x: Aux) {
    && Is32(x.base, sar.ackd) && Is32(x.base, sar.notAckd) && Is16(x.base, sar.app)
    && sar.ackd.off <= sar.notAckd.off <= sar.app.off <= x.handled <= x.written <= |x.stream|
  }

  predicate Inv(s: Sess) {
    var x := s.aux;
    && SarInv(s.sar, x) && FrontInv(s.front, x.base, |x.stream|)
    && Chain(s.front.acks, x.base, s.front.entry.ackd.off, s.sar.ackd.off)
    && StoreInv(s.store, x) && Chain(s.store.pushes, x.base, s.sar.app.off, x.handled)
    && EngInv(s.eng, s.sar, x.base) && ReadsInv(s.eng.cmds, x.base, s.sar.app.off)
    && RxInv(s.rx, s.sar, x.base) && OpenInv(s.rx, x.synSent)
    && RingInv(s.store.ring, x.base, x.stream, x.written, s.sar.ackd.off)
  }

  // ---------------------------------------------------------------- pointer arithmetic

  /** A circular interval: the test accepts exactly the numbers from `prev` up to `next`. */
  lemma AckTestIsCircular(prev: U32, ackNumb: U32, next: U32)
    ensures AckTest(prev, ackNumb, next) <==>
              Low32(ackNumb - prev) <= Low32(next - prev)
  {
  }

  lemma Low32Diff(a: int, b: int)
    ensures Low32(Low32(a) - Low32(b)) == Low32(a - b)
  {
  }

  lemma BackAgain(p: U32, a: U32)
    ensures Low32(p + Low32(a - p)) == a
  {
  }

  lemma Gap(base: U32, prev: P32, next: P32)
    requires Is32(base, prev) && Is32(base, next) && prev.off <= next.off < prev.off + 0x1_0000_0000
    ensures Low32(next.value - prev.value) == next.off - prev.off
  {
    Low32Diff(base + next.off, base + prev.off);
    var d: int := next.off - prev.off;
    assert (base + next.off) - (base + prev.off) == d;
    assert Low32(d) == d;
  }

  /** The test accepts a number iff it is the low half of an offset between the two. */
  lemma AckTestIsInterval(base: U32, prev: P32, ackNumb: U32, next: P32)
    requires Is32(base, prev) && Is32(base, next) && prev.off <= next.off < prev.off + 0x1_0000_0000
    ensures var off := prev.off + Low32(ackNumb - prev.value);
            && Is32(base, P32(ackNumb, off))
            && (AckTest(prev.value, ackNumb, next.value) <==> off <= next.off)
  {
    AckTestIsCircular(prev.value, ackNumb, next.value);
    BackAgain(prev.value, ackNumb);
    Low32Add(base + prev.off, Low32(ackNumb - prev.value));
    Gap(base, prev, next);
  }

  lemma Low16Diff(a: int, b: int)
    ensures Low16(Low16(a) - Low16(b)) == Low16(a - b)
  {
  }

  lemma SpaceIs(base: U32, e: AppEntry)
    requires Is16(base, e.ackd) && Is16(base, e.mempt)
    requires e.ackd.off <= e.mempt.off <= e.ackd.off + 0xFFFF
    ensures Space(e) == 0xFFFF - (e.mempt.off - e.ackd.off)
  {
    Low16Diff(base + e.ackd.off, base + e.mempt.off);
    Low16Add(base + e.ackd.off - (base + e.mempt.off), -1);
    Low16Add(e.ackd.value - e.mempt.value, -1);
  }

  lemma UnsentIs(base: U32, c: Sar)
    requires CopyTxInv(c, base)
    ensures Unsent(c) == c.app.off - c.notAckd.off
  {
    Low16OfLow32(base + c.notAckd.off);
    Low16Diff(base + c.app.off, base + c.notAckd.off);
  }

  lemma OutstandingIs(base: U32, c: Sar)
    requires CopyRtInv(c, base)
    ensures Outstanding(c) == c.notAckd.off - c.ackd.off
  {
    Gap16(base, c.ackd, c.notAckd);
  }

  lemma Low16OfSmall(n: int, p: U32, q: U32)
    requires 0 <= n <= 0xFFFF && Low32(q - p) == n
    ensures Low16(Low16(q) - p) == n
  {
  }

  lemma Gap16(base: U32, prev: P32, next: P32)
    requires Is32(base, prev) && Is32(base, next) && prev.off <= next.off <= prev.off + 0xFFFF
    ensures Low16(Low16(next.value) - prev.value) == next.off - prev.off
  {
    Gap(base, prev, next);
    Low16OfSmall(next.off - prev.off, prev.value, next.value);
  }

  lemma AdvanceIs(base: U32, p: P16, n: nat)
    requires Is16(base, p)
    ensures Advance(p, n) == P16(Low16(base + p.off + n), p.off + n)
  {
    Low16Add(base + p.off, n);
  }

  lemma MovedIs(base: U32, p: P32, n: nat)
    requires Is32(base, p)
    ensures Is32(base, Moved(p, n)) && Moved(p, n).off == p.off + n
  {
    Low32Add(base + p.off, n);
  }

  // ---------------------------------------------------------------- the queues

  lemma {:induction false} ChainPush(q: seq<P16>, base: U32, lo: nat, hi: nat, p: P16)
    requires Chain(q, base, lo, hi) && hi <= p.off && Is16(base, p)
    ensures Chain(q + [p], base, lo, p.off)
  {
    if q == [] {
      assert [p][1..] == [];
    } else {
      assert (q + [p])[1..] == q[1..] + [p];
      ChainPush(q[1..], base, q[0].off, hi, p);
    }
  }

  lemma {:induction false} ChainUpTo(q: seq<P16>, base: U32, lo: nat, hi: nat, up: nat)
    requires Chain(q, base, lo, hi) && hi <= up
    ensures Chain(q, base, lo, up) && lo <= hi
  {
    if q != [] { ChainUpTo(q[1..], base, q[0].off, hi, up); }
  }

  lemma {:induction false} WritesPush(writes: seq<Write>, base: U32, stream: seq<Byte>, w: nat, data: seq<Byte>)
    requires WritesInv(writes, base, stream, w) && |data| <= RING
    ensures WritesInv(writes + [Write(Low16(base + |stream|), data)], base, stream + data, w)
  {
    var x := Write(Low16(base + |stream|), data);
    if writes == [] {
      assert (stream + data)[w..w + |data|] == data;
      assert [x][1..] == [];
      assert WritesInv([], base, stream + data, w + |data|);
    } else {
      var n := |writes[0].data|;
      assert (writes + [x])[1..] == writes[1..] + [x];
      assert (stream + data)[w..w + n] == stream[w..w + n];
      WritesPush(writes[1..], base, stream, w + n, data);
    }
  }

  lemma {:induction false} WritesSum(writes: seq<Write>, base: U32, stream: seq<Byte>, w: nat)
    requires WritesInv(writes, base, stream, w)
    ensures w + Sum(Lens(writes)) == |stream|
  {
    if writes != [] {
      WritesSum(writes[1..], base, stream, w + |writes[0].data|);
      assert Lens(writes)[1..] == Lens(writes[1..]);
    }
  }

  lemma {:induction false} EventsPush(events: seq<Event>, base: U32, h: nat, top: nat, n: nat)
    requires EventsInv(events, base, h, top) && n <= 0xFFFF
    ensures EventsInv(events + [TxEvent(P16(Low16(base + top), top), n)], base, h, top + n)
  {
    var ev := TxEvent(P16(Low16(base + top), top), n);
    if events == [] {
      assert [ev][1..] == [];
      assert EventsInv([], base, h + n, top + n);
    } else {
      assert (events + [ev])[1..] == events[1..] + [ev];
      EventsPush(events[1..], base, if events[0].Other? then h else h + events[0].length, top, n);
    }
  }

  lemma {:induction false} EventsOther(events: seq<Event>, base: U32, h: nat, top: nat)
    requires EventsInv(events, base, h, top)
    ensures EventsInv(events + [Other], base, h, top)
  {
    if events == [] {
      assert [Other][1..] == [];
    } else {
      assert (events + [Other])[1..] == events[1..] + [Other];
      EventsOther(events[1..], base, if events[0].Other? then h else h + events[0].length, top);
    }
  }

  lemma {:induction false} EventsSum(events: seq<Event>, base: U32, h: nat, top: nat)
    requires EventsInv(events, base, h, top)
    ensures h + Sum(AllPieces(events)) == top
  {
    if events != [] {
      var n := if events[0].Other? then 0 else events[0].length;
      EventsSum(events[1..], base, h + n, top);
      SumConcat(EventPieces(events[0]), AllPieces(events[1..]));
      PiecesSum(events[0]);
    }
  }

  lemma PiecesSum(ev: Event)
    ensures Sum(EventPieces(ev)) == if ev.Other? then 0 else ev.length
  {
    if ev.TxEvent? && NeedsTwo(ev) && ev.address.value <= RING {
      var a, b: nat := RING - ev.address.value, ev.address.value + ev.length - RING;
      assert Sum([a, b]) == a + Sum([b]);
    }
  }

  lemma {:induction false} AllPiecesPush(events: seq<Event>, ev: Event)
    ensures AllPieces(events + [ev]) == AllPieces(events) + EventPieces(ev)
  {
    if events == [] {
      assert AllPieces([ev]) == EventPieces(ev) + AllPieces([]);
    } else {
      assert (events + [ev])[1..] == events[1..] + [ev];
      AllPiecesPush(events[1..], ev);
    }
  }

  // ---------------------------------------------------------------- handing over

  lemma PushAt(writes: seq<Write>, base: U32, stream: seq<Byte>, w: nat, at: U16, data: seq<Byte>)
    requires WritesInv(writes, base, stream, w) && |data| <= RING && at == Low16(base + |stream|)
    ensures WritesInv(writes + [Write(at, data)], base, stream + data, w)
  {
    WritesPush(writes, base, stream, w, data);
  }

  lemma TwoPush(writes: seq<Write>, base: U32, stream: seq<Byte>, w: nat, at: U16, a: seq<Byte>, b: seq<Byte>)
    requires WritesInv(writes, base, stream, w) && at == Low16(base + |stream|) && |a| == RING - at && |b| <= RING
    ensures WritesInv(writes + [Write(at, a)] + [Write(0, b)], base, stream + a + b, w)
  {
    PushAt(writes, base, stream, w, at, a);
    EndOfRing(base, |stream|, |stream + a|);
    PushAt(writes + [Write(at, a)], base, stream + a, w, 0, b);
  }

  lemma Joined(writes: seq<Write>, at: U16, data: seq<Byte>, stream: seq<Byte>)
    requires at + |data| > RING
    ensures writes + [Write(at, data[..RING - at])] + [Write(0, data[RING - at..])] == writes + Pieces(at, data)
    ensures stream + data[..RING - at] + data[RING - at..] == stream + data
  {
  }

  /** One or two writes: the stream grows by the data. */
  lemma PiecesPush(writes: seq<Write>, base: U32, stream: seq<Byte>, w: nat, data: seq<Byte>)
    requires WritesInv(writes, base, stream, w) && |data| <= 0xFFFF
    ensures WritesInv(writes + Pieces(Low16(base + |stream|), data), base, stream + data, w)
  {
    var at := Low16(base + |stream|);
    if at + |data| > RING {
      var a, b := data[..RING - at], data[RING - at..];
      TwoPush(writes, base, stream, w, at, a, b);
      Joined(writes, at, data, stream);
    } else {
      WritesPush(writes, base, stream, w, data);
    }
  }

  lemma EndOfRing(base: U32, n: nat, m: nat)
    requires m == n + RING - Low16(base + n)
    ensures Low16(base + m) == 0
  {
  }

  lemma PieceLens(p: P16, data: seq<Byte>)
    ensures Lens(Pieces(p.value, data)) == EventPieces(TxEvent(p, |data|))
  {
  }

  lemma LensConcat(a: seq<Write>, b: seq<Write>)
    ensures Lens(a + b) == Lens(a) + Lens(b)
  {
  }

  lemma SuffixGrows(due: seq<nat>, more: seq<nat>, k: nat)
    requires k <= |due|
    ensures (due + more)[|due + more| - (k + |more|)..] == due[|due| - k..] + more
  {
  }

  lemma DuePush(t: Store, writes: seq<Write>, ev: Event)
    ensures Due(t.(writes := writes, events := t.events + [ev])) == Due(t) + EventPieces(ev)
  {
    AllPiecesPush(t.events, ev);
  }

  lemma StatusIs(t: Store, due: seq<nat>, lens: seq<nat>)
    requires due == Due(t) && lens == Lens(t.writes)
    requires |lens| + t.statuses <= |due| && lens == due[|due| - |lens|..]
    ensures StatusInv(t)
  {
  }

  lemma StatusPush(t: Store, p: P16, data: seq<Byte>)
    requires StatusInv(t)
    ensures StatusInv(t.(writes := t.writes + Pieces(p.value, data), events := t.events + [TxEvent(p, |data|)]))
  {
    var writes, ev := t.writes + Pieces(p.value, data), TxEvent(p, |data|);
    PieceLens(p, data);
    LensConcat(t.writes, Pieces(p.value, data));
    DuePush(t, writes, ev);
    SuffixGrows(Due(t), EventPieces(ev), |t.writes|);
    StatusIs(t.(writes := writes, events := t.events + [ev]), Due(t) + EventPieces(ev), Lens(t.writes)
        + EventPieces(ev));
  }

  lemma StorePush(t: Store, x: Aux, data: seq<Byte>)
    requires StoreInv(t, x) && |data| <= 0xFFFF
    ensures var p := P16(Low16(x.base + |x.stream|), |x.stream|);
            StoreInv(t.(writes := t.writes + Pieces(p.value, data), events := t.events + [TxEvent(p, |data|)]),
                     x.(stream := x.stream + data))
  {
    var p := P16(Low16(x.base + |x.stream|), |x.stream|);
    PiecesPush(t.writes, x.base, x.stream, x.written, data);
    StatusPush(t, p, data);
    var h := if t.half.Some? then [t.half.value] else [];
    EventsPush(h + t.events, x.base, x.handled, |x.stream|, |data|);
    assert h + t.events + [TxEvent(p, |data|)] == h + (t.events + [TxEvent(p, |data|)]);
  }

  lemma FrontPush(f: Front, base: U32, top: nat, data: seq<Byte>)
    requires FrontInv(f, base, top) && f.tasi.ReadMeta? && f.rsp != [] && |data| <= Space(f.rsp[0])
    ensures f.rsp[0].mempt == P16(Low16(base + top), top) && |data| <= 0xFFFF
    ensures forall answers ::
              FrontInv(f.(tasi := ReadRequest, rsp := f.rsp[1..], answers := answers,
                          req := f.req + [AppWrite(Advance(f.rsp[0].mempt, |data|))]), base, top + |data|)
  {
    SpaceIs(base, f.rsp[0]);
    AdvanceIs(base, f.rsp[0].mempt, |data|);
  }

  lemma DecideInv(s: Sess, established: bool)
    requires Inv(s)
    ensures Inv(DecideStep(s, established))
  {
    if s.front.tasi.ReadMeta? && s.front.rsp != [] {
      var data, e := s.front.tasi.data, s.front.rsp[0];
      if established && |data| <= Space(e) {
        FrontPush(s.front, s.aux.base, |s.aux.stream|, data);
        StorePush(s.store, s.aux, data);
        StreamGrows(s.store.ring, s.aux, data, s.sar.ackd.off);
      }
    }
  }

  lemma StreamGrows(r: Ring, x: Aux, data: seq<Byte>, e: nat)
    requires RingInv(r, x.base, x.stream, x.written, e)
    ensures RingInv(r, x.base, x.stream + data, x.written, e)
  {
  }

  lemma TableAppInv(s: Sess)
    requires Inv(s)
    ensures Inv(s.(front := AppTableStep(s.front)))
  {
    if s.front.acks != [] {
      ChainUpTo(s.front.acks[1..], s.aux.base, s.front.acks[0].off, s.sar.ackd.off, s.sar.ackd.off);
    }
  }

  lemma TakeInv(s: Sess)
    requires Inv(s)
    ensures Inv(s.(front := TakeStep(s.front)))
  {
  }

  // ---------------------------------------------------------------- memory and statuses

  /** A write is done: it leaves the queue, and there is one more status. */
  function Done(t: Store, ring: Ring): Store
    requires t.writes != []
  {
    t.(writes := t.writes[1..], ring := ring, statuses := t.statuses + 1)
  }

  lemma StatusWrite(t: Store, ring: Ring)
    requires StatusInv(t) && t.writes != []
    ensures StatusInv(Done(t, ring))
  {
    var due := Due(t);
    assert Lens(t.writes[1..]) == Lens(t.writes)[1..];
    assert due[|due| - |t.writes|..][1..] == due[|due| - |t.writes[1..]|..];
  }

  lemma StoreWrite(t: Store, x: Aux, ring: Ring)
    requires StoreInv(t, x) && t.writes != []
    ensures StoreInv(Done(t, ring), x.(written := x.written + |t.writes[0].data|))
  {
    StatusWrite(t, ring);
  }

  lemma StoreOnly(s: Sess, t: Store, x: Aux)
    requires Inv(s) && StoreInv(t, x) && t.pushes == s.store.pushes
    requires x == s.aux.(written := x.written) && s.aux.written <= x.written <= |x.stream|
    requires RingInv(t.ring, x.base, x.stream, x.written, s.sar.ackd.off)
    ensures Inv(s.(store := t, aux := x))
  {
  }

  lemma WriteDone(s: Sess, ring: Ring)
    requires Inv(s) && s.store.writes != []
    requires RingInv(ring, s.aux.base, s.aux.stream, s.aux.written + |s.store.writes[0].data|, s.sar.ackd.off)
    ensures Inv(s.(store := Done(s.store, ring), aux := s.aux.(written := s.aux.written + |s.store.writes[0].data|)))
  {
    StoreWrite(s.store, s.aux, ring);
    StoreOnly(s, Done(s.store, ring), s.aux.(written := s.aux.written + |s.store.writes[0].data|));
  }

  lemma WriteFits(s: Sess)
    requires WritesInv(s.store.writes, s.aux.base, s.aux.stream, s.aux.written) && s.store.writes != []
    requires FrontInv(s.front, s.aux.base, |s.aux.stream|)
    requires Chain(s.front.acks, s.aux.base, s.front.entry.ackd.off, s.sar.ackd.off)
    ensures var w, n := s.store.writes[0], s.aux.written;
            && w.at == Low16(s.aux.base + n) && n + |w.data| <= |s.aux.stream|
            && w.data == s.aux.stream[n..n + |w.data|] && n + |w.data| <= s.sar.ackd.off + RING
  {
    ChainUpTo(s.front.acks, s.aux.base, s.front.entry.ackd.off, s.sar.ackd.off, s.sar.ackd.off);
  }

  lemma WriteKeepsRing(s: Sess)
    requires WritesInv(s.store.writes, s.aux.base, s.aux.stream, s.aux.written) && s.store.writes != []
    requires FrontInv(s.front, s.aux.base, |s.aux.stream|)
    requires Chain(s.front.acks, s.aux.base, s.front.entry.ackd.off, s.sar.ackd.off)
    requires RingInv(s.store.ring, s.aux.base, s.aux.stream, s.aux.written, s.sar.ackd.off)
    ensures var w := s.store.writes[0];
            |w.data| <= RING && RingInv(Stored(s.store.ring, w.at, w.data), s.aux.base, s.aux.stream,
                                        s.aux.written + |w.data|, s.sar.ackd.off)
  {
    WriteFits(s);
    RingWritten(s.store.ring, s.aux.base, s.aux.stream, s.aux.written, s.sar.ackd.off, s.store.writes[0]);
  }

  lemma RingWritten(ring: Ring, base: U32, stream: seq<Byte>, n: nat, ackd: nat, w: Write)
    requires w.at == Low16(base + n) && |w.data| <= RING && n + |w.data| <= |stream|
    requires w.data == stream[n..n + |w.data|] && n + |w.data| <= ackd + RING && RingInv(ring, base, stream, n, ackd)
    ensures RingInv(Stored(ring, w.at, w.data), base, stream, n + |w.data|, ackd)
  {
    WriteRing(ring, base, stream, n, ackd, w.data);
  }

  lemma MemoryWriteInv(s: Sess)
    requires Inv(s)
    ensures Inv(MemoryWriteStep(s))
  {
    if s.store.writes != [] && |s.store.writes[0].data| <= RING {
      WriteKeepsRing(s);
      WriteDone(s, Stored(s.store.ring, s.store.writes[0].at, s.store.writes[0].data));
    }
  }

  lemma SuffixSum(due: seq<nat>, k: nat)
    requires k <= |due|
    ensures Sum(due[k..]) <= Sum(due)
  {
    SumConcat(due[..k], due[k..]);
    assert due == due[..k] + due[k..];
  }

  /** All that was handed on by events is written. */
  lemma HandledIsWritten(t: Store, x: Aux, handled: nat)
    requires WritesInv(t.writes, x.base, x.stream, x.written) && StatusInv(t) && t.half.None?
    requires EventsInv(t.events, x.base, handled, |x.stream|)
    ensures handled <= x.written
  {
    WritesSum(t.writes, x.base, x.stream, x.written);
    EventsSum(t.events, x.base, handled, |x.stream|);
    assert Due(t) == AllPieces(t.events);
    SuffixSum(Due(t), |Due(t)| - |t.writes|);
  }

  lemma OneDueLess(t: Store, r: Store)
    requires StatusInv(t) && t.statuses > 0 && r.statuses == t.statuses - 1 && r.writes == t.writes
    requires Due(r) == Due(t) || (Due(t) != [] && Due(r) == Due(t)[1..])
    ensures StatusInv(r)
  {
  }

  /** The second status of a split write: the event is handed on. */
  lemma HalfInv(t: Store, x: Aux)
    requires StoreInv(t, x) && t.half.Some? && t.statuses > 0
    ensures var ev, r := t.half.value, t.(half := None, statuses := t.statuses - 1);
            && ev.TxEvent? && ev.address == P16(Low16(x.base + x.handled), x.handled)
            && StoreInv(r, x.(handled := x.handled + ev.length)) && x.handled + ev.length <= x.written
  {
    var ev, r := t.half.value, t.(half := None, statuses := t.statuses - 1);
    assert ([ev] + t.events)[1..] == t.events;
    assert EventsInv(t.events, x.base, x.handled + ev.length, |x.stream|);
    assert [] + t.events == t.events;
    OneDueLess(t, r);
    HandledIsWritten(r, x, x.handled + ev.length);
  }

  /** A status for an event that is not split, or not a write at all. */
  lemma WholeInv(t: Store, x: Aux)
    requires StoreInv(t, x) && t.half.None? && t.statuses > 0 && t.events != [] && !NeedsTwo(t.events[0])
    ensures var ev, r := t.events[0], t.(events := t.events[1..], statuses := t.statuses - 1);
            var n := if ev.Other? then 0 else ev.length;
            && (ev.TxEvent? ==> ev.address == P16(Low16(x.base + x.handled), x.handled))
            && StoreInv(r, x.(handled := x.handled + n)) && x.handled + n <= x.written
  {
    var ev, r := t.events[0], t.(events := t.events[1..], statuses := t.statuses - 1);
    var n := if ev.Other? then 0 else ev.length;
    assert [] + t.events == t.events && [] + r.events == r.events;
    assert EventsInv(r.events, x.base, x.handled + n, |x.stream|);
    OneDueLess(t, r);
    HandledIsWritten(r, x, x.handled + n);
  }

  /** The first status of a split write. */
  lemma FirstHalfInv(t: Store, x: Aux)
    requires StoreInv(t, x) && t.half.None? && t.statuses > 0 && t.events != [] && NeedsTwo(t.events[0])
    ensures StoreInv(t.(events := t.events[1..], statuses := t.statuses - 1, half := Some(t.events[0])), x)
  {
    var r := t.(events := t.events[1..], statuses := t.statuses - 1, half := Some(t.events[0]));
    assert [] + t.events == t.events && [t.events[0]] + t.events[1..] == t.events;
    OneDueLess(t, r);
  }

  lemma PushInv(s: Sess, t: Store, ev: Event)
    requires Inv(s) && t.ring == s.store.ring && t.pushes == s.store.pushes
    requires ev.TxEvent? ==> ev.address == P16(Low16(s.aux.base + s.aux.handled), s.aux.handled)
    requires var h := s.aux.handled + if ev.Other? then 0 else ev.length;
             h <= s.aux.written && StoreInv(t, s.aux.(handled := h))
    ensures Inv(HandOn(s, t, ev))
  {
    if ev.TxEvent? {
      AdvanceIs(s.aux.base, ev.address, ev.length);
      ChainPush(t.pushes, s.aux.base, s.sar.app.off, s.aux.handled, Advance(ev.address, ev.length));
    }
  }

  lemma HalfStepInv(s: Sess)
    requires Inv(s) && s.store.statuses > 0 && s.store.half.Some?
    ensures Inv(StatusStep(s))
  {
    var t := s.store;
    HalfInv(t, s.aux);
    PushInv(s, t.(half := None, statuses := t.statuses - 1), t.half.value);
  }

  lemma StatusStepInv(s: Sess)
    requires Inv(s)
    ensures Inv(StatusStep(s))
  {
    var t := s.store;
    if t.statuses > 0 && t.half.Some? {
      HalfStepInv(s);
    } else if t.statuses > 0 && t.events != [] {
      if NeedsTwo(t.events[0]) {
        FirstHalfInv(t, s.aux);
        StoreOnly(s, StatusStep(s).store, s.aux);
      } else {
        WholeStepInv(s);
      }
    }
  }

  lemma WholeStepInv(s: Sess)
    requires Inv(s) && s.store.statuses > 0 && s.store.half.None?
    requires s.store.events != [] && !NeedsTwo(s.store.events[0])
    ensures Inv(StatusStep(s))
  {
    var t := s.store;
    WholeInv(t, s.aux);
    PushInv(s, t.(events := t.events[1..], statuses := t.statuses - 1), t.events[0]);
  }

  lemma OtherInv(s: Sess)
    requires Inv(s)
    ensures Inv(Step(s, OtherEvent))
  {
    var t := s.store;
    var h := if t.half.Some? then [t.half.value] else [];
    EventsOther(h + t.events, s.aux.base, s.aux.handled, |s.aux.stream|);
    assert h + t.events + [Other] == h + (t.events + [Other]);
    AllPiecesPush(t.events, Other);
    assert Due(t.(events := t.events + [Other])) == Due(t);
  }

  // ---------------------------------------------------------------- the table and its users

  lemma SarEngineWrite(s: Sess)
    requires Inv(s) && s.eng.req != [] && s.eng.req[0].EngWrite?
    ensures Inv(SarEngineStep(s))
  {
  }

  lemma SarEngineRead(s: Sess)
    requires Inv(s) && s.eng.req != [] && s.eng.req[0] == EngRead
    ensures Inv(SarEngineStep(s))
  {
    ChainUpTo(s.front.acks, s.aux.base, s.front.entry.ackd.off, s.sar.ackd.off, s.sar.ackd.off);
    assert CopyInv(s.sar, s.aux.base);
  }

  lemma SarAppInv(s: Sess)
    requires Inv(s)
    ensures Inv(SarAppStep(s))
  {
    if s.store.pushes != [] {
      var p := s.store.pushes[0];
      ChainUpTo(s.store.pushes[1..], s.aux.base, p.off, s.aux.handled, s.aux.handled);
    }
  }

  lemma AckPushed(f: Front, base: U32, lo: nat, hi: nat, ackd: P32)
    requires Chain(f.acks, base, lo, hi) && hi <= ackd.off && Is32(base, ackd)
    ensures Chain(f.acks + [P16(Low16(ackd.value), ackd.off)], base, lo, ackd.off)
  {
    Low16OfLow32(base + ackd.off);
    ChainPush(f.acks, base, lo, hi, P16(Low16(ackd.value), ackd.off));
  }

  lemma SarRxWrite(s: Sess)
    requires Inv(s) && s.rx.req != [] && s.rx.req[0].RxWrite?
    ensures Inv(SarRxStep(s))
  {
    AckPushed(s.front, s.aux.base, s.front.entry.ackd.off, s.sar.ackd.off, s.rx.req[0].ackd);
  }

  lemma SentBound(s: Sess)
    requires Inv(s)
    ensures s.sar.notAckd.off <= s.sar.ackd.off + 0xFFFF
  {
    ChainUpTo(s.front.acks, s.aux.base, s.front.entry.ackd.off, s.sar.ackd.off, s.sar.ackd.off);
  }

  /** A number that the table takes without the test. Only if it could be acknowledged does it
      leave the pointers in order. */
  lemma ForcedIs(s: Sess, value: U32)
    requires Inv(s)
    ensures Is32(s.aux.base, Onward(s.sar.ackd, value)) && s.sar.ackd.off <= Onward(s.sar.ackd, value).off
    ensures AckTest(s.sar.ackd.value, value, s.sar.notAckd.value) <==>
              Onward(s.sar.ackd, value).off <= s.sar.notAckd.off
  {
    SentBound(s);
    AckTestIsInterval(s.aux.base, s.sar.ackd, value, s.sar.notAckd);
  }

  lemma SarRxForced(s: Sess)
    requires Inv(s) && s.rx.req != [] && s.rx.req[0].RxForced?
    requires AckTest(s.sar.ackd.value, s.rx.req[0].value, s.sar.notAckd.value)
    ensures Inv(SarRxStep(s))
  {
    var p := Onward(s.sar.ackd, s.rx.req[0].value);
    ForcedIs(s, s.rx.req[0].value);
    AckPushed(s.front, s.aux.base, s.front.entry.ackd.off, s.sar.ackd.off, p);
  }

  lemma SarRxRead(s: Sess)
    requires Inv(s) && s.rx.req != [] && s.rx.req[0] == RxRead
    ensures Inv(SarRxStep(s))
  {
  }

  lemma CheckInv(x: Rx, sar: Sar, base: U32, open: bool)
    requires RxInv(x, sar, base) && Is32(base, sar.ackd) && sar.notAckd.off <= sar.ackd.off + 0xFFFF
    ensures RxInv(CheckStep(x, open), sar, base)
  {
    if x.phase.Checking? && x.rsp != [] {
      AckTestIsInterval(base, x.rsp[0].prevAck, x.phase.ackNumb, x.rsp[0].nextByte);
    }
  }

  lemma CheckStepInv(s: Sess, open: bool)
    requires Inv(s)
    ensures Inv(Step(s, CheckAck(open)))
  {
    ChainUpTo(s.front.acks, s.aux.base, s.front.entry.ackd.off, s.sar.ackd.off, s.sar.ackd.off);
    CheckInv(s.rx, s.sar, s.aux.base, open);
    assert !open ==> CheckStep(s.rx, open).req == s.rx.req;
  }

  lemma SendInv(e: Eng, sar: Sar, base: U32, n: nat, last: bool)
    requires EngInv(e, sar, base) && ReadsInv(e.cmds, base, sar.app.off)
    ensures EngInv(SendStep(e, n, last), sar, base) && ReadsInv(SendStep(e, n, last).cmds, base, sar.app.off)
  {
    if e.phase.Sending? {
      var c := e.phase.sar;
      if e.phase.rt {
        SendRt(e, sar, base, n, last);
      } else {
        SendTx(e, sar, base, n, last);
      }
    }
  }

  lemma IssueInv(e: Eng, base: U32, app: nat, p: P32, n: nat)
    requires ReadsInv(e.cmds, base, app) && Is32(base, p) && p.off + n <= app
    ensures ReadsInv(Issue(e, p, n).cmds, base, app)
  {
    Low16OfLow32(base + p.off);
  }

  lemma SendRt(e: Eng, sar: Sar, base: U32, n: nat, last: bool)
    requires EngInv(e, sar, base) && ReadsInv(e.cmds, base, sar.app.off) && e.phase.Sending? && e.phase.rt
    ensures EngInv(SendStep(e, n, last), sar, base) && ReadsInv(SendStep(e, n, last).cmds, base, sar.app.off)
  {
    var c := e.phase.sar;
    OutstandingIs(base, c);
    if n <= Outstanding(c) {
      IssueInv(e, base, sar.app.off, c.ackd, n);
      MovedIs(base, c.ackd, n);
    }
  }

  lemma SendTx(e: Eng, sar: Sar, base: U32, n: nat, last: bool)
    requires EngInv(e, sar, base) && ReadsInv(e.cmds, base, sar.app.off) && e.phase.Sending? && !e.phase.rt
    ensures EngInv(SendStep(e, n, last), sar, base) && ReadsInv(SendStep(e, n, last).cmds, base, sar.app.off)
  {
    var c := e.phase.sar;
    UnsentIs(base, c);
    if n <= Unsent(c) {
      IssueInv(e, base, sar.app.off, c.notAckd, n);
      MovedIs(base, c.notAckd, n);
    }
  }

  lemma EngineOnly(s: Sess, e: Eng)
    requires Inv(s) && EngInv(e, s.sar, s.aux.base) && ReadsInv(e.cmds, s.aux.base, s.sar.app.off)
    ensures Inv(s.(eng := e))
  {
  }

  lemma EngineInv(s: Sess, a: Action)
    requires Inv(s) && (a.LoadEvent? || a.StartEvent? || a.Send? || a.MemoryRead?)
    ensures Inv(Step(s, a))
  {
    match a
    case Send(n, last) =>
      SendInv(s.eng, s.sar, s.aux.base, n, last);
      EngineOnly(s, SendStep(s.eng, n, last));
    case MemoryRead =>
      if s.eng.cmds != [] {
        assert forall r <- s.eng.cmds[1..] :: r in s.eng.cmds;
        EngineOnly(s, s.eng.(cmds := s.eng.cmds[1..]));
      }
    case StartEvent => EngineOnly(s, StartStep(s.eng));
    case LoadEvent(rt) => EngineOnly(s, Step(s, a).eng);
  }

  lemma SubmitInv(s: Sess, data: seq<Byte>)
    requires Inv(s)
    ensures Inv(Step(s, Submit(data)))
  {
  }

  lemma ReceiveInv(s: Sess, ackNumb: U32)
    requires Inv(s)
    ensures Inv(Step(s, ReceiveAck(ackNumb)))
  {
  }

  lemma CheckFinInv(s: Sess, takes: bool)
    requires Inv(s)
    ensures Inv(Step(s, CheckFin(takes)))
  {
  }

  lemma TakeSynInv(s: Sess)
    requires Inv(s)
    ensures Inv(Step(s, TakeSyn))
  {
  }

  lemma {:induction false} OnlyOthers(events: seq<Event>, base: U32, h: nat)
    requires forall ev <- events :: ev.Other?
    ensures EventsInv(events, base, h, h) && AllPieces(events) == []
  {
    if events != [] {
      assert events[0] in events && forall ev <- events[1..] :: ev in events;
      OnlyOthers(events[1..], base, h);
    }
  }

  /** Whatever the state of the earlier initialisation was. */
  lemma RestartInv(s: Sess, number: U32, synSent: bool)
    requires Quiet(s)
    ensures Inv(Restarted(s, number, synSent))
  {
    var events := s.store.events;
    InitInv(Start(number, s.store.ring, synSent));
    OnlyOthers(events, number, 1);
    assert [] + events == events;
  }

  /** A number that the table takes without the test would have passed it. */
  predicate Harmless(s: Sess, a: Action) {
    a == SarForRx && s.rx.req != [] && s.rx.req[0].RxForced? ==>
      AckTest(s.sar.ackd.value, s.rx.req[0].value, s.sar.notAckd.value)
  }

  lemma SarRxInv(s: Sess)
    requires Inv(s) && Harmless(s, SarForRx)
    ensures Inv(SarRxStep(s))
  {
    if s.rx.req != [] {
      match s.rx.req[0]
      case RxRead => SarRxRead(s);
      case RxWrite(_) => SarRxWrite(s);
      case RxForced(_) => SarRxForced(s);
    }
  }

  lemma StepInv(s: Sess, a: Action)
    requires Inv(s) && Harmless(s, a)
    ensures Inv(Step(s, a))
  {
    match a
    case Submit(data) => SubmitInv(s, data);
    case TakeRequest => TakeInv(s);
    case Decide(established) => DecideInv(s, established);
    case TableForApp => TableAppInv(s);
    case MemoryWrite => MemoryWriteInv(s);
    case OtherEvent => OtherInv(s);
    case HandleStatus => StatusStepInv(s);
    case SarForEngine => SarEngineInv(s);
    case SarForApp => SarAppInv(s);
    case SarForRx => SarRxInv(s);
    case ReceiveAck(ackNumb) => ReceiveInv(s, ackNumb);
    case CheckAck(open) => CheckStepInv(s, open);
    case CheckFin(takes) => CheckFinInv(s, takes);
    case TakeSyn => TakeSynInv(s);
    case Restart(number, synSent) => RestartStepInv(s, number, synSent);
    case _ => EngineInv(s, a);
  }

  lemma SarEngineInv(s: Sess)
    requires Inv(s)
    ensures Inv(SarEngineStep(s))
  {
    if s.eng.req != [] { if s.eng.req[0] == EngRead { SarEngineRead(s); } else { SarEngineWrite(s); } }
  }

  lemma RestartStepInv(s: Sess, number: U32, synSent: bool)
    requires Inv(s)
    ensures Inv(Step(s, Restart(number, synSent)))
  {
    if Quiet(s) { RestartInv(s, number, synSent); }
  }

  lemma InitInv(s: Sess)
    requires Init(s)
    ensures Inv(s)
  {
    assert Low16(s.aux.base) == Low16(s.aux.base + 0);
    Low16OfLow32(s.aux.base);
  }

  predicate HarmlessRun(s: Sess, actions: seq<Action>)
    decreases |actions|
  {
    actions == [] || (Harmless(s, actions[0]) && HarmlessRun(Step(s, actions[0]), actions[1..]))
  }

  lemma {:induction false} RunInv(s: Sess, actions: seq<Action>)
    requires Inv(s) && HarmlessRun(s, actions)
    ensures Inv(Run(s, actions))
    decreases |actions|
  {
    if actions != [] {
      StepInv(s, actions[0]);
      RunInv(Step(s, actions[0]), actions[1..]);
    }
  }

  // ---------------------------------------------------------------- over whole runs

  predicate Restarts(s: Sess, a: Action) {
    a.Restart? && Quiet(s)
  }

  /** Whether a number outside the interval spoilt the pointers, and they were not initialised
      again. */
  predicate Spoilt(before: bool, s: Sess, actions: seq<Action>)
    decreases |actions|
  {
    if actions == [] then before
    else
      var a := actions[0];
      Spoilt(!Restarts(s, a) && (before || !Harmless(s, a)), Step(s, a), actions[1..])
  }

  lemma {:induction false} SoundInv(before: bool, s: Sess, actions: seq<Action>)
    requires before || Inv(s)
    ensures !Spoilt(before, s, actions) ==> Inv(Run(s, actions))
    decreases |actions|
  {
    if actions != [] {
      var a := actions[0];
      if Restarts(s, a) {
        RestartInv(s, a.number, a.synSent);
      } else if !before && Harmless(s, a) {
        StepInv(s, a);
      }
      SoundInv(!Restarts(s, a) && (before || !Harmless(s, a)), Step(s, a), actions[1..]);
    }
  }

  /** The pointers were initialised after every write that spoilt them. */
  predicate Sound(init: Sess, actions: seq<Action>) {
    !Spoilt(false, init, actions)
  }

  lemma Reached(init: Sess, actions: seq<Action>) returns (s: Sess)
    requires Init(init) && Sound(init, actions)
    ensures s == Run(init, actions) && Inv(s)
  {
    InitInv(init);
    SoundInv(false, init, actions);
    s := Run(init, actions);
  }

  predicate InOrder(sar: Sar, x: Aux) {
    && sar.ackd.off <= sar.notAckd.off <= sar.app.off <= x.written <= |x.stream|
    && |x.stream| - sar.ackd.off <= 0xFFFF
    && Is32(x.base, sar.ackd) && Is32(x.base, sar.notAckd) && Is16(x.base, sar.app)
  }

  lemma OrderOf(s: Sess)
    requires SarInv(s.sar, s.aux) && FrontInv(s.front, s.aux.base, |s.aux.stream|)
    requires Chain(s.front.acks, s.aux.base, s.front.entry.ackd.off, s.sar.ackd.off)
    ensures InOrder(s.sar, s.aux)
  {
    ChainUpTo(s.front.acks, s.aux.base, s.front.entry.ackd.off, s.sar.ackd.off, s.sar.ackd.off);
  }

  /** The pointers are in order: acknowledged, sent, known to the table, written, handed over;
      never more than 0xFFFF bytes are unacknowledged, and the 16 and 32 bits in the table stand
      for these offsets. */
  lemma PointersInOrder(init: Sess, actions: seq<Action>)
    requires Init(init) && Sound(init, actions)
    ensures InOrder(Run(init, actions).sar, Run(init, actions).aux)
  {
    var s := Reached(init, actions);
    OrderOf(s);
  }

  lemma RunFirst(s: Sess, a: Action, rest: seq<Action>)
    ensures Run(s, [a] + rest) == Run(Step(s, a), rest)
    ensures HarmlessRun(s, [a] + rest) == (Harmless(s, a) && HarmlessRun(Step(s, a), rest))
  {
    assert ([a] + rest)[1..] == rest;
  }

  lemma {:induction false} HarmlessPrefix(s: Sess, actions: seq<Action>, n: nat)
    requires HarmlessRun(s, actions) && n <= |actions|
    ensures HarmlessRun(s, actions[..n])
    decreases |actions|
  {
    if n > 0 {
      HarmlessPrefix(Step(s, actions[0]), actions[1..], n - 1);
      assert actions[..n] == [actions[0]] + actions[1..][..n - 1];
      RunFirst(s, actions[0], actions[1..][..n - 1]);
    }
  }

  /** The table takes a number that could not be acknowledged. */
  lemma ForcedBreaksOrder(s: Sess)
    requires Inv(s) && !Harmless(s, SarForRx)
    ensures var r := SarRxStep(s); r.sar.ackd.value == s.rx.req[0].value && !InOrder(r.sar, r.aux)
  {
    ForcedIs(s, s.rx.req[0].value);
  }

  /** The first step at which the order is lost. */
  lemma {:induction false} OrderIsLost(s: Sess, actions: seq<Action>) returns (n: nat)
    requires Inv(s) && !HarmlessRun(s, actions)
    ensures n <= |actions| && var r := Run(s, actions[..n]); !InOrder(r.sar, r.aux)
    decreases |actions|
  {
    var a, rest := actions[0], actions[1..];
    if Harmless(s, a) {
      StepInv(s, a);
      var k := OrderIsLost(Step(s, a), rest);
      n := k + 1;
      assert actions[..n] == [a] + rest[..k];
      RunFirst(s, a, rest[..k]);
    } else {
      n := 1;
      ForcedBreaksOrder(s);
      assert actions[..1] == [a] + [];
      RunFirst(s, a, []);
    }
  }

  /** Exactly: the order is kept over a run if and only if every number that the table takes
      without the test, for a SYN or a FIN of the peer, would have passed it. */
  lemma OrderIff(init: Sess, actions: seq<Action>)
    requires Init(init)
    ensures HarmlessRun(init, actions) <==>
            forall n: nat :: n <= |actions| ==> InOrder(Run(init, actions[..n]).sar, Run(init, actions[..n]).aux)
  {
    InitInv(init);
    if HarmlessRun(init, actions) {
      forall n: nat | n <= |actions|
        ensures InOrder(Run(init, actions[..n]).sar, Run(init, actions[..n]).aux)
      {
        HarmlessPrefix(init, actions, n);
        RunInv(init, actions[..n]);
        OrderOf(Run(init, actions[..n]));
      }
    } else {
      var n := OrderIsLost(init, actions);
    }
  }

  /** Right after the SYN, 0 could be acknowledged for two sequence numbers only. */
  lemma TwoBases(base: U32)
    ensures AckTest(base, 0, Low32(base + 1)) <==> base == 0 || base == 0xFFFF_FFFF
  {
    AckTestIsCircular(base, 0, Low32(base + 1));
  }

  lemma ThreeSteps(s: Sess, a: Action, q: Sess, b: Action, r: Sess, c: Action)
    requires q == Step(s, a) && r == Step(q, b)
    ensures Run(s, [a] + [b]) == r && Run(s, [a] + [b] + [c]) == Step(r, c)
  {
    RunFirst(s, a, [b]);
    RunFirst(q, b, []);
    assert [b] + [] == [b] && [c] + [] == [c];
    RunFirst(s, a, [b] + [c]);
    RunFirst(q, b, [c]);
    RunFirst(r, c, []);
    assert [a] + [b] + [c] == [a] + ([b] + [c]);
  }

  /** The line after the table took the write for the peer's SYN. */
  function SynTaken(init: Sess): Sess {
    var zero := Onward(init.sar.ackd, 0);
    init.(sar := init.sar.(ackd := zero), front := init.front.(acks := [P16(0, zero.off)]),
          aux := init.aux.(synSent := false))
  }

  function SynQueued(init: Sess): Sess {
    init.(rx := Rx(Waiting, [RxForced(0)], []), aux := init.aux.(synSent := false))
  }

  lemma QueuesSyn(init: Sess)
    requires Init(init) && init.aux.synSent
    ensures Step(init, TakeSyn) == SynQueued(init) && Step(SynQueued(init), SarForRx) == SynTaken(init)
  {
    assert [] + [RxForced(0)] == [RxForced(0)] && [RxForced(0)][1..] == [];
  }

  lemma TakesSyn(init: Sess)
    requires Init(init) && init.aux.synSent
    ensures InOrder(SynTaken(init).sar, SynTaken(init).aux) <==> init.aux.base == 0 || init.aux.base == 0xFFFF_FFFF
  {
    QueuesSyn(init);
    InitInv(init);
    TakeSynInv(init);
    TwoBases(init.aux.base);
    ServesForced(SynQueued(init));
    assert SarRxStep(SynQueued(init)) == Step(SynQueued(init), SarForRx);
  }

  lemma ServesForced(q: Sess)
    requires Inv(q) && q.rx.req != [] && q.rx.req[0].RxForced?
    ensures var r := SarRxStep(q); InOrder(r.sar, r.aux) <==> Harmless(q, SarForRx)
  {
    if Harmless(q, SarForRx) {
      SarRxForced(q);
      OrderOf(SarRxStep(q));
    } else {
      ForcedBreaksOrder(q);
    }
  }

  /** A simultaneous open: our SYN is sent, the peer's SYN is taken, and the table has 0 for the
      acknowledged number until the SYN-ACK initialises the line again. */
  lemma SimultaneousOpen(init: Sess, number: U32)
    requires Init(init) && init.aux.synSent
    ensures var run := [TakeSyn] + [SarForRx];
            var r, t := Run(init, run), Run(init, run + [Restart(number, false)]);
            && r.sar.ackd.value == 0 && r.sar.notAckd.value == Low32(init.aux.base + 1)
            && (InOrder(r.sar, r.aux) <==> init.aux.base == 0 || init.aux.base == 0xFFFF_FFFF)
            && t.sar.ackd.value == number && InOrder(t.sar, t.aux)
  {
    var r := SynTaken(init);
    QueuesSyn(init);
    TakesSyn(init);
    ThreeSteps(init, TakeSyn, SynQueued(init), SarForRx, r, Restart(number, false));
    RestartOrders(r, number);
  }

  lemma RestartOrders(s: Sess, number: U32)
    requires Quiet(s)
    ensures var t := Restarted(s, number, false);
            Step(s, Restart(number, false)) == t && t.sar.ackd.value == number && InOrder(t.sar, t.aux)
  {
    RestartInv(s, number, false);
    OrderOf(Restarted(s, number, false));
  }

  function FinRun(ackNumb: U32): seq<Action> {
    [ReceiveAck(ackNumb)] + ([SarForRx] + ([CheckFin(true)] + [SarForRx]))
  }

  /** A FIN in order, in any reachable state: the number that it acknowledges is in the table, and
      the order is kept if and only if it is one between the last one acknowledged and the next
      one to send. A number that is late takes ackd back. */
  lemma FinAcknowledges(init: Sess, actions: seq<Action>, ackNumb: U32)
    requires Init(init) && Sound(init, actions) && Run(init, actions).rx == Rx(Waiting, [], [])
    ensures var s := Run(init, actions);
            var r := Run(s, FinRun(ackNumb));
            && r.sar == s.sar.(ackd := Onward(s.sar.ackd, ackNumb))
            && (InOrder(r.sar, r.aux) <==> AckTest(s.sar.ackd.value, ackNumb, s.sar.notAckd.value))
  {
    var s := Reached(init, actions);
    var q := FinChecked(s, ackNumb);
    ServesForced(q);
  }

  lemma FinChecked(s: Sess, ackNumb: U32) returns (q: Sess)
    requires Inv(s) && s.rx == Rx(Waiting, [], [])
    ensures Run(s, FinRun(ackNumb)) == Step(q, SarForRx) && Inv(q)
    ensures q.rx == Rx(Waiting, [RxForced(ackNumb)], []) && q.sar == s.sar
  {
    var s1 := s.(rx := Rx(Checking(ackNumb), [RxRead], []));
    var s2 := s.(rx := Rx(Checking(ackNumb), [], [RxReply(s.sar.ackd, s.sar.notAckd)]));
    q := Step(s2, CheckFin(true));
    assert Step(s, ReceiveAck(ackNumb)) == s1 && Step(s1, SarForRx) == s2;
    ReceiveInv(s, ackNumb);
    SarRxRead(s1);
    CheckFinInv(s2, true);
    RunFirst(s, ReceiveAck(ackNumb), [SarForRx] + ([CheckFin(true)] + [SarForRx]));
    RunFirst(s1, SarForRx, [CheckFin(true)] + [SarForRx]);
    RunFirst(s2, CheckFin(true), [SarForRx]);
    RunFirst(q, SarForRx, []);
    assert [SarForRx] + [] == [SarForRx];
  }

  /** No accepted write overwrites an unacknowledged byte: the ring holds all of them. */
  lemma UnackedBytesAreKept(init: Sess, actions: seq<Action>)
    requires Init(init) && Sound(init, actions)
    ensures var s := Run(init, actions);
            RingInv(s.store.ring, s.aux.base, s.aux.stream, s.aux.written, s.sar.ackd.off)
  {
    var s := Reached(init, actions);
  }

  /** `r` covers written bytes, and each of them that is not acknowledged is in the ring. */
  predicate Carries(r: Read, ring: Ring, stream: seq<Byte>, written: nat, ackd: nat) {
    && r.at.off + r.len <= written <= |stream|
    && forall k :: 0 <= k < r.len && ackd <= r.at.off + k ==>
         Loaded(ring, r.at.value, r.len)[k] == stream[r.at.off + k]
  }

  lemma CarriesOf(r: Read, ring: Ring, base: U32, stream: seq<Byte>, written: nat, ackd: nat)
    requires RingInv(ring, base, stream, written, ackd) && Is16(base, r.at) && r.at.off + r.len <= written
    ensures Carries(r, ring, stream, written, ackd)
  {
    forall k | 0 <= k < r.len && ackd <= r.at.off + k
      ensures Loaded(ring, r.at.value, r.len)[k] == stream[r.at.off + k]
    {
      RingShift(base, r.at.off, k);
    }
  }

  /** A segment, of a TX or an RT event, only covers bytes whose writes are done; whenever
      the memory reads it, every byte of it that is not yet acknowledged is right. */
  lemma SegmentsCarryTheStream(init: Sess, actions: seq<Action>, r: Read)
    requires Init(init) && Sound(init, actions) && r in Run(init, actions).eng.cmds
    ensures var s := Run(init, actions);
            Carries(r, s.store.ring, s.aux.stream, s.aux.written, s.sar.ackd.off)
  {
    var s := Reached(init, actions);
    CarriesOf(r, s.store.ring, s.aux.base, s.aux.stream, s.aux.written, s.sar.ackd.off);
  }

  /** What the application is told: its data is taken exactly when the connection is up and
      the ring has room for it beside all that `tx_app_table` holds for unacknowledged. */
  predicate Decides(s: Sess, established: bool)
    requires s.front.tasi.ReadMeta? && s.front.rsp != []
  {
    var data, r := s.front.tasi.data, Step(s, Decide(established));
    var fits := |s.aux.stream| + |data| - s.front.rsp[0].ackd.off <= 0xFFFF;
    && r.front.answers == s.front.answers +
         [if !established then NoConnection else if fits then Accepted(|data|) else NoSpace]
    && r.aux.stream == if established && fits then s.aux.stream + data else s.aux.stream
  }

  lemma DecidesOf(s: Sess, established: bool)
    requires FrontInv(s.front, s.aux.base, |s.aux.stream|) && s.front.tasi.ReadMeta? && s.front.rsp != []
    ensures Decides(s, established)
  {
    SpaceIs(s.aux.base, s.front.rsp[0]);
  }

  lemma AcceptedIffItFits(init: Sess, actions: seq<Action>, established: bool)
    requires Init(init) && Sound(init, actions)
    requires Run(init, actions).front.tasi.ReadMeta? && Run(init, actions).front.rsp != []
    ensures Decides(Run(init, actions), established)
  {
    var s := Reached(init, actions);
    DecidesOf(s, established);
  }

  predicate Forward(old_: Sar, new_: Sar) {
    old_.ackd.off <= new_.ackd.off <= new_.notAckd.off && old_.notAckd.off <= new_.notAckd.off
  }

  lemma StepsForward(s: Sess, a: Action)
    requires Inv(s) && Harmless(s, a) && !Restarts(s, a)
    ensures Forward(s.sar, Step(s, a).sar)
  {
    match a
    case SarForEngine =>
    case SarForRx => SarRxInv(s);
    case HandleStatus => assert StatusStep(s).sar == s.sar;
    case _ => assert Step(s, a).sar.(app := s.sar.app) == s.sar;
  }

  /** Neither an acknowledgement nor a segment moves a pointer of the table back, and the
      acknowledged offset never passes the sent one, exactly unless the step takes a number without
      the test that would not have passed it. */
  lemma AckMovesForward(init: Sess, actions: seq<Action>, a: Action)
    requires Init(init) && Sound(init, actions) && !Restarts(Run(init, actions), a)
    ensures var s := Run(init, actions); Forward(s.sar, Step(s, a).sar) <==> Harmless(s, a)
  {
    var s := Reached(init, actions);
    if Harmless(s, a) {
      StepsForward(s, a);
    } else {
      ForcedIs(s, s.rx.req[0].value);
    }
  }
}
