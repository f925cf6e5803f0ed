/** tx_sar_table.cpp, `tx_app_table`, `txAppStatusHandler` and `tasi_metaLoader` as the hardware
    runs them: the two tables for all sessions at once, 16 and 32 bits wide and without the
    offsets of TxRing, and why a session sees them as the steps of TxRing. */
module TxTables {
  import opened Toe
  import opened Ring
  import opened TxRing

  /** `txSarEntry`. */
  datatype Line = Line(
    ackd: U32, notAckd: U32, app: U16, recvWindow: U16, congWindow: U16, ssthresh: U16, count: nat,
    finReady: bool, finSent: bool)

  datatype AppLine = AppLine(ackd: U16, mempt: U16)

  /** The queries of the TX engine: `txTxSarQuery`, and `txTxSarRtQuery`, which writes the slow
      start threshold. */
  datatype EngQuery =
    | ReadLine
    | WriteNotAckd(notAckd: U32, init: bool, finReady: bool, finSent: bool)
    | WriteThreshold(ssthresh: U16)

  datatype EngReply = EngReply(ackd: U32, notAckd: U32, minWindow: U16, app: U16, finReady: bool, finSent: bool)

  datatype RxQuery = ReadAcks | WriteAckd(ackd: U32, recvWindow: U16, congWindow: U16, count: nat)
  datatype RxAnswer = RxAnswer(prevAck: U32, nextByte: U32, congWindow: U16, ssthresh: U16, count: nat)
  datatype AppQuery = ReadApp | WriteMempt(mempt: U16)
  datatype AckPush = AckPush(ackd: U16, init: bool)

  const NO_LINE := Line(0, 0, 0, 0, 0, 0, 0, false, false)

  /** Ten segments. */
  const FIRST_WINDOW: U16 := 0x3908

  type Lines = t: seq<Line> | |t| == MAX_SESSIONS witness seq(MAX_SESSIONS, _ => NO_LINE)
  type AppLines = t: seq<AppLine> | |t| == MAX_SESSIONS witness seq(MAX_SESSIONS, _ => AppLine(0, 0))

  /** The two tables and the FIFOs around them; `ackPush` leads from the first to the second. */
  datatype Tables = Tables(
    sar: Lines, app: AppLines,
    engReq: Shared<EngQuery>, engRsp: Shared<EngReply>, appPush: Shared<U16>,
    rxReq: Shared<RxQuery>, rxRsp: Shared<RxAnswer>, ackPush: Shared<AckPush>,
    updReq: Shared<AppQuery>, updRsp: Shared<AppLine>)

  /** Which output FIFOs have room. */
  datatype Room = Room(ack: bool, eng: bool, rx: bool, upd: bool)

  // ---------------------------------------------------------------- tx_sar_table

  /** What a write of the TX engine leaves in the line. */
  function Written(l: Line, q: EngQuery): Line
    requires q.WriteNotAckd?
  {
    var r := l.(notAckd := q.notAckd);
    if q.init then
      r.(app := Low16(q.notAckd), ackd := Low32(q.notAckd - 1), congWindow := FIRST_WINDOW, ssthresh := 0xFFFF,
         finReady := q.finReady, finSent := q.finSent)
    else r.(finReady := l.finReady || q.finReady, finSent := l.finSent || q.finSent)
  }

  function ReplyOf(l: Line): EngReply {
    EngReply(l.ackd, l.notAckd, if l.congWindow < l.recvWindow then l.congWindow else l.recvWindow,
             l.app, l.finReady, l.finSent)
  }

  function ServeEng(t: Tables): Tables
    requires t.engReq != []
  {
    var (id, q) := t.engReq[0];
    var r := t.(engReq := t.engReq[1..]);
    match q
    case ReadLine => r.(engRsp := t.engRsp + [(id, ReplyOf(t.sar[id]))])
    case WriteNotAckd(notAckd, init, _, _) =>
      r.(sar := t.sar[id := Written(t.sar[id], q)],
         ackPush := t.ackPush + if init then [(id, AckPush(Low16(notAckd), true))] else [])
    case WriteThreshold(ssthresh) =>
      r.(sar := t.sar[id := t.sar[id].(ssthresh := ssthresh, congWindow := FIRST_WINDOW)])
  }

  function ServePush(t: Tables): Tables
    requires t.appPush != []
  {
    var id := t.appPush[0].0;
    t.(appPush := t.appPush[1..], sar := t.sar[id := t.sar[id].(app := t.appPush[0].1)])
  }

  /** The acknowledgement is pushed on in 16 bits. */
  function ServeRx(t: Tables): Tables
    requires t.rxReq != []
  {
    var id := t.rxReq[0].0;
    var r := t.(rxReq := t.rxReq[1..]);
    match t.rxReq[0].1
    case WriteAckd(ackd, recvWindow, congWindow, count) =>
      r.(sar := t.sar[id := t.sar[id].(ackd := ackd, recvWindow := recvWindow, congWindow := congWindow,
          count := count)],
         ackPush := t.ackPush + [(id, AckPush(Low16(ackd), false))])
    case ReadAcks => r.(rxRsp := t.rxRsp + [(id, AnswerOf(t.sar[id]))])
  }

  function AnswerOf(l: Line): RxAnswer {
    RxAnswer(l.ackd, l.notAckd, l.congWindow, l.ssthresh, l.count)
  }

  /** One tick: the TX engine first, then the application, then the RX engine. */
  function SarTick(t: Tables, room: Room): Tables {
    if t.engReq != [] && room.ack && room.eng then ServeEng(t)
    else if t.appPush != [] then ServePush(t)
    else if t.rxReq != [] && room.ack && room.rx then ServeRx(t)
    else t
  }

  // ---------------------------------------------------------------- tx_app_table

  /** An initial push also sets the pointer to the free space. */
  function Taken(e: AppLine, p: AckPush): AppLine {
    if p.init then AppLine(Low16(p.ackd - 1), p.ackd) else e.(ackd := p.ackd)
  }

  function TakeAck(t: Tables): Tables
    requires t.ackPush != []
  {
    var (id, p) := t.ackPush[0];
    t.(ackPush := t.ackPush[1..], app := t.app[id := Taken(t.app[id], p)])
  }

  function ServeUpd(t: Tables): Tables
    requires t.updReq != []
  {
    var id := t.updReq[0].0;
    var r := t.(updReq := t.updReq[1..]);
    match t.updReq[0].1
    case WriteMempt(mempt) => r.(app := t.app[id := t.app[id].(mempt := mempt)])
    case ReadApp => r.(updRsp := t.updRsp + [(id, t.app[id])])
  }

  /** One tick: acknowledgements first. */
  function AppTick(t: Tables, room: Room): Tables {
    if t.ackPush != [] then TakeAck(t)
    else if t.updReq != [] && room.upd then ServeUpd(t)
    else t
  }

  // ---------------------------------------------------------------- one session

  /** The values of a FIFO of TxRing without their offsets. */
  function Map<S, T>(f: S -> T, q: seq<S>): seq<T> {
    seq(|q|, k requires 0 <= k < |q| => f(q[k]))
  }

  lemma MapTail<S, T>(f: S -> T, q: seq<S>)
    requires q != []
    ensures Map(f, q) == [f(q[0])] + Map(f, q[1..])
  {
  }

  lemma MapPush<S, T>(f: S -> T, q: seq<S>, x: S)
    ensures Map(f, q + [x]) == Map(f, q) + [f(x)]
  {
  }

  /** The pointers of a line, of a reply and of an answer; TxRing has no more of them. */
  datatype Pointers = Pointers(ackd: U32, notAckd: U32, app: U16)

  function PointersOf(l: Line): Pointers {
    Pointers(l.ackd, l.notAckd, l.app)
  }

  function LineOf(s: Sar): Pointers {
    Pointers(s.ackd.value, s.notAckd.value, s.app.value)
  }

  function RepliedOf(r: EngReply): Pointers {
    Pointers(r.ackd, r.notAckd, r.app)
  }

  function AnsweredOf(r: RxAnswer): (U32, U32) {
    (r.prevAck, r.nextByte)
  }

  function AppLineOf(e: AppEntry): AppLine {
    AppLine(e.ackd.value, e.mempt.value)
  }

  function Value(p: P16): U16 {
    p.value
  }

  function PushOf(p: P16): AckPush {
    AckPush(p.value, false)
  }

  /** A query of the TX engine that is about pointers. */
  datatype PointerQuery = PointerRead | PointerWrite(notAckd: U32, init: bool)

  /** Those in a queue, without the writes of the threshold. */
  function PointerQueries(q: seq<EngQuery>): seq<PointerQuery> {
    if q == [] then []
    else (match q[0]
          case ReadLine => [PointerRead]
          case WriteNotAckd(notAckd, init, _, _) => [PointerWrite(notAckd, init)]
          case WriteThreshold(_) => []) + PointerQueries(q[1..])
  }

  function EngQueryOf(r: EngReq): PointerQuery {
    match r
    case EngRead => PointerRead
    case EngWrite(p) => PointerWrite(p.value, false)
  }

  /** A query of the RX engine is about pointers in any case. */
  datatype AckQuery = AckRead | AckWrite(ackd: U32)

  function AckQueryOf(q: RxQuery): AckQuery {
    match q
    case ReadAcks => AckRead
    case WriteAckd(ackd, _, _, _) => AckWrite(ackd)
  }

  function RxQueryOf(r: RxReq): AckQuery {
    match r
    case RxRead => AckRead
    case RxWrite(p) => AckWrite(p.value)
    case RxForced(value) => AckWrite(value)
  }

  function RxReplyOf(r: RxReply): (U32, U32) {
    (r.prevAck.value, r.nextByte.value)
  }

  function AppQueryOf(r: AppReq): AppQuery {
    match r
    case AppRead => ReadApp
    case AppWrite(p) => WriteMempt(p.value)
  }

  /** Session `i`'s share of the tables and FIFOs is what the one-session machine has, as far as
      pointers go. No initialisation is pending. */
  predicate ShowsSar(t: Tables, i: SessionId, s: Sess) {
    && PointersOf(t.sar[i]) == LineOf(s.sar)
    && PointerQueries(Of(t.engReq, i)) == Map(EngQueryOf, s.eng.req)
    && Map(RepliedOf, Of(t.engRsp, i)) == Map(LineOf, s.eng.rsp)
    && Of(t.appPush, i) == Map(Value, s.store.pushes)
    && Map(AckQueryOf, Of(t.rxReq, i)) == Map(RxQueryOf, s.rx.req)
    && Map(AnsweredOf, Of(t.rxRsp, i)) == Map(RxReplyOf, s.rx.rsp)
    && Of(t.ackPush, i) == Map(PushOf, s.front.acks)
  }

  predicate ShowsApp(t: Tables, i: SessionId, s: Sess) {
    && t.app[i] == AppLineOf(s.front.entry) && Of(t.ackPush, i) == Map(PushOf, s.front.acks)
    && Of(t.updReq, i) == Map(AppQueryOf, s.front.req) && Of(t.updRsp, i) == Map(AppLineOf, s.front.rsp)
  }

  predicate Shows(t: Tables, i: SessionId, s: Sess) {
    ShowsSar(t, i, s) && ShowsApp(t, i, s)
  }

  /** The session's step that a tick of `tx_sar_table` is, if it serves the session at all. */
  function SarAction(t: Tables, room: Room, i: SessionId): Option<Action> {
    if t.engReq != [] && room.ack && room.eng then
      if t.engReq[0].0 == i && !t.engReq[0].1.WriteThreshold? then Some(SarForEngine) else None
    else if t.appPush != [] then
      if t.appPush[0].0 == i then Some(SarForApp) else None
    else if t.rxReq != [] && room.ack && room.rx then
      if t.rxReq[0].0 == i then Some(SarForRx) else None
    else None
  }

  function AppAction(t: Tables, room: Room, i: SessionId): Option<Action> {
    if t.ackPush != [] then
      if t.ackPush[0].0 == i then Some(TableForApp) else None
    else if t.updReq != [] && room.upd then
      // the session's acknowledgements are all in, so this is its request
      if t.updReq[0].0 == i then Some(TableForApp) else None
    else None
  }

  lemma OfHead<T>(q: Shared<T>, i: SessionId)
    requires q != []
    ensures Of(q, i) == (if q[0].0 == i then [q[0].1] else []) + Of(q[1..], i)
  {
  }

  lemma ConsSame<T>(a: T, x: seq<T>, b: T, y: seq<T>)
    requires [a] + x == [b] + y
    ensures a == b && x == y
  {
    assert a == ([a] + x)[0] && x == ([a] + x)[1..];
    assert b == ([b] + y)[0] && y == ([b] + y)[1..];
  }

  lemma PointerHead(q: seq<EngQuery>, x: EngQuery)
    ensures PointerQueries([x] + q) ==
            (match x
             case ReadLine => [PointerRead]
             case WriteNotAckd(notAckd, init, _, _) => [PointerWrite(notAckd, init)]
             case WriteThreshold(_) => []) + PointerQueries(q)
  {
    assert ([x] + q)[1..] == q;
  }

  lemma EngServesOther(t: Tables, i: SessionId, s: Sess)
    requires t.engReq != [] && Shows(t, i, s) && t.engReq[0].0 != i
    ensures Shows(ServeEng(t), i, s)
  {
    var (id, q) := t.engReq[0];
    OfHead(t.engReq, i);
    assert [] + Of(t.engReq[1..], i) == Of(t.engReq[1..], i);
    match q {
      case ReadLine => OfPush(t.engRsp, id, ReplyOf(t.sar[id]), i);
      case WriteNotAckd(notAckd, init, _, _) =>
        assert t.ackPush + [] == t.ackPush;
        if init { OfPush(t.ackPush, id, AckPush(Low16(notAckd), true), i); }
      case WriteThreshold(_) =>
    }
  }

  lemma EngServesOne(t: Tables, i: SessionId, s: Sess)
    requires t.engReq != [] && Shows(t, i, s) && t.engReq[0].0 == i
    ensures Shows(ServeEng(t), i, if t.engReq[0].1.WriteThreshold? then s else SarEngineStep(s))
  {
    var (id, q) := t.engReq[0];
    var rest := Of(t.engReq[1..], i);
    OfHead(t.engReq, i);
    PointerHead(rest, q);
    assert t.ackPush + [] == t.ackPush;
    if q.WriteThreshold? {
      assert [] + PointerQueries(rest) == PointerQueries(rest);
    } else {
      assert s.eng.req != [];
      MapTail(EngQueryOf, s.eng.req);
      ConsSame(if q.ReadLine? then PointerRead else PointerWrite(q.notAckd, q.init), PointerQueries(rest),
               EngQueryOf(s.eng.req[0]), Map(EngQueryOf, s.eng.req[1..]));
      if q.ReadLine? {
        OfPush(t.engRsp, id, ReplyOf(t.sar[id]), i);
        MapPush(RepliedOf, Of(t.engRsp, i), ReplyOf(t.sar[id]));
        MapPush(LineOf, s.eng.rsp, s.sar);
      }
    }
  }

  lemma PushServesOne(t: Tables, i: SessionId, s: Sess)
    requires t.appPush != [] && Shows(t, i, s)
    ensures Shows(ServePush(t), i, if t.appPush[0].0 == i then SarAppStep(s) else s)
  {
    if t.appPush[0].0 == i {
      assert s.store.pushes != [];
      MapTail(Value, s.store.pushes);
      assert Of(t.appPush, i)[1..] == Of(t.appPush[1..], i);
    }
  }

  lemma RxServesOther(t: Tables, i: SessionId, s: Sess)
    requires t.rxReq != [] && Shows(t, i, s) && t.rxReq[0].0 != i
    ensures Shows(ServeRx(t), i, s)
  {
    var (id, q) := t.rxReq[0];
    OfHead(t.rxReq, i);
    assert [] + Of(t.rxReq[1..], i) == Of(t.rxReq[1..], i);
    match q {
      case WriteAckd(ackd, _, _, _) => OfPush(t.ackPush, id, AckPush(Low16(ackd), false), i);
      case ReadAcks => OfPush(t.rxRsp, id, AnswerOf(t.sar[id]), i);
    }
  }

  lemma MapHead<S, T>(f: S -> T, x: S, q: seq<S>)
    ensures Map(f, [x] + q) == [f(x)] + Map(f, q)
  {
    MapTail(f, [x] + q);
    assert ([x] + q)[1..] == q;
  }

  lemma RxServesOne(t: Tables, i: SessionId, s: Sess)
    requires t.rxReq != [] && Shows(t, i, s) && t.rxReq[0].0 == i
    ensures Shows(ServeRx(t), i, SarRxStep(s))
  {
    var (id, q) := t.rxReq[0];
    var rest := Of(t.rxReq[1..], i);
    OfHead(t.rxReq, i);
    MapHead(AckQueryOf, q, rest);
    assert s.rx.req != [];
    MapTail(RxQueryOf, s.rx.req);
    ConsSame(AckQueryOf(q), Map(AckQueryOf, rest), RxQueryOf(s.rx.req[0]), Map(RxQueryOf, s.rx.req[1..]));
    match q {
      case WriteAckd(ackd, _, _, _) =>
        OfPush(t.ackPush, id, AckPush(Low16(ackd), false), i);
        var p := if s.rx.req[0].RxForced? then Onward(s.sar.ackd, ackd) else s.rx.req[0].ackd;
        MapPush(PushOf, s.front.acks, P16(Low16(p.value), p.off));
      case ReadAcks =>
        OfPush(t.rxRsp, id, AnswerOf(t.sar[id]), i);
        MapPush(AnsweredOf, Of(t.rxRsp, i), AnswerOf(t.sar[id]));
        MapPush(RxReplyOf, s.rx.rsp, RxReply(s.sar.ackd, s.sar.notAckd));
    }
  }

  /** Every tick of `tx_sar_table` is, for each session, one step of the one-session machine
      or no step at all. */
  lemma SarTickIsSessionStep(t: Tables, room: Room, i: SessionId, s: Sess)
    requires Shows(t, i, s)
    ensures var a := SarAction(t, room, i);
            Shows(SarTick(t, room), i, if a.None? then s else Step(s, a.value))
  {
    if t.engReq != [] && room.ack && room.eng {
      if t.engReq[0].0 == i { EngServesOne(t, i, s); } else { EngServesOther(t, i, s); }
    } else if t.appPush != [] {
      PushServesOne(t, i, s);
    } else if t.rxReq != [] && room.ack && room.rx {
      if t.rxReq[0].0 == i { RxServesOne(t, i, s); } else { RxServesOther(t, i, s); }
    }
  }

  lemma AckTakesOne(t: Tables, i: SessionId, s: Sess)
    requires t.ackPush != [] && Shows(t, i, s)
    ensures Shows(TakeAck(t), i, if t.ackPush[0].0 == i then s.(front := AppTableStep(s.front)) else s)
  {
    if t.ackPush[0].0 == i {
      assert s.front.acks != [];
      MapTail(PushOf, s.front.acks);
      assert Of(t.ackPush, i)[1..] == Of(t.ackPush[1..], i);
    }
  }

  lemma UpdServesOne(t: Tables, i: SessionId, s: Sess)
    requires t.updReq != [] && t.ackPush == [] && Shows(t, i, s)
    ensures Shows(ServeUpd(t), i, if t.updReq[0].0 == i then s.(front := AppTableStep(s.front)) else s)
  {
    var id := t.updReq[0].0;
    OfPush(t.updRsp, id, t.app[id], i);
    if id == i {
      assert s.front.acks == [] && s.front.req != [];
      MapTail(AppQueryOf, s.front.req);
      MapPush(AppLineOf, s.front.rsp, s.front.entry);
      assert Of(t.updReq, i)[1..] == Of(t.updReq[1..], i);
    }
  }

  /** The same for `tx_app_table`. */
  lemma AppTickIsSessionStep(t: Tables, room: Room, i: SessionId, s: Sess)
    requires Shows(t, i, s)
    ensures var a := AppAction(t, room, i);
            Shows(AppTick(t, room), i, if a.None? then s else Step(s, a.value))
  {
    if t.ackPush != [] {
      AckTakesOne(t, i, s);
    } else if t.updReq != [] && room.upd {
      UpdServesOne(t, i, s);
    }
  }

  // ---------------------------------------------------------------- initialisation

  /** Nothing of session `i` is in a FIFO, but for pushes to `tx_app_table`. */
  predicate Quiet(t: Tables, i: SessionId) {
    && PointerQueries(Of(t.engReq, i)) == [] && Of(t.engRsp, i) == [] && Of(t.appPush, i) == []
    && Of(t.rxReq, i) == [] && Of(t.rxRsp, i) == [] && Of(t.updReq, i) == [] && Of(t.updRsp, i) == []
  }

  /** The SYN with the number `base` was sent: the line is set, and `tx_app_table` is to be told,
      behind what is pushed to it already. */
  predicate Starting(t: Tables, i: SessionId, base: U32) {
    var pushes := Of(t.ackPush, i);
    && Quiet(t, i) && pushes != [] && pushes[|pushes| - 1] == AckPush(Low16(base + 1), true)
    && PointersOf(t.sar[i]) == Pointers(base, Low32(base + 1), Low16(base + 1))
  }

  /** The initialising write of the TX engine, with nothing of an earlier connection on its way
      but pushes to `tx_app_table`; whatever the line was. */
  lemma InitIsServed(t: Tables, i: SessionId, base: U32)
    requires t.engReq != [] && t.engReq[0].0 == i
    requires var q := t.engReq[0].1; q.WriteNotAckd? && q.init && q.notAckd == Low32(base + 1)
    requires Quiet(t.(engReq := t.engReq[1..]), i)
    ensures Starting(ServeEng(t), i, base)
    ensures var l := ServeEng(t).sar[i]; l.congWindow == FIRST_WINDOW && l.ssthresh == 0xFFFF
  {
    OfPush(t.ackPush, i, AckPush(Low16(Low32(base + 1)), true), i);
    if base == 0xFFFF_FFFF {
      assert Low32(base + 1) == 0;
    } else {
      assert Low32(base + 1) == base + 1;
    }
    Low16OfLow32(base + 1);
  }

  lemma Low16OfLow32(n: nat)
    ensures Low16(Low32(n)) == Low16(n)
  {
  }

  /** When `tx_app_table` has taken the last of the session's pushes, the session is at the start
      of the machine in TxRing, for which its invariants are proved; other ticks leave it waiting
      for that. */
  lemma StartIsShown(t: Tables, room: Room, i: SessionId, base: U32, ring: Ring, synSent: bool)
    requires Starting(t, i, base)
    ensures Starting(SarTick(t, room), i, base)
    ensures if t.ackPush != [] && t.ackPush[0].0 == i && |Of(t.ackPush, i)| == 1
            then Shows(AppTick(t, room), i, Start(base, ring, synSent)) else Starting(AppTick(t, room), i, base)
  {
    StartWaits(t, room, i, base);
    if t.ackPush != [] && t.ackPush[0].0 == i && |Of(t.ackPush, i)| == 1 {
      StartTakes(t, i, base, ring, synSent);
    } else {
      AppWaits(t, i, base);
    }
  }

  lemma AppWaits(t: Tables, i: SessionId, base: U32)
    requires Starting(t, i, base) && t.ackPush != [] && (t.ackPush[0].0 == i ==> |Of(t.ackPush, i)| > 1)
    ensures Starting(TakeAck(t), i, base)
  {
    OfHead(t.ackPush, i);
    if t.ackPush[0].0 == i {
      assert Of(t.ackPush, i)[1..] == Of(t.ackPush[1..], i);
    } else {
      assert [] + Of(t.ackPush[1..], i) == Of(t.ackPush[1..], i);
    }
  }

  lemma StartTakes(t: Tables, i: SessionId, base: U32, ring: Ring, synSent: bool)
    requires Starting(t, i, base) && t.ackPush != [] && t.ackPush[0].0 == i && |Of(t.ackPush, i)| == 1
    ensures Shows(TakeAck(t), i, Start(base, ring, synSent))
  {
    OfHead(t.ackPush, i);
    var a := t.ackPush[0].1;
    assert a == Of(t.ackPush, i)[0] && Of(t.ackPush[1..], i) == Of(t.ackPush, i)[1..] == [];
    assert Low16(Low16(base + 1) - 1) == Low16(base);
  }

  lemma StartWaits(t: Tables, room: Room, i: SessionId, base: U32)
    requires Starting(t, i, base)
    ensures Starting(SarTick(t, room), i, base)
  {
    if t.engReq != [] && room.ack && room.eng {
      StartWaitsEng(t, i, base);
    } else if t.appPush != [] {
      OfHead(t.appPush, i);
    } else if t.rxReq != [] && room.ack && room.rx {
      var (id, q) := t.rxReq[0];
      OfHead(t.rxReq, i);
      match q {
        case WriteAckd(ackd, _, _, _) => OfPush(t.ackPush, id, AckPush(Low16(ackd), false), i);
        case ReadAcks => OfPush(t.rxRsp, id, AnswerOf(t.sar[id]), i);
      }
    }
  }

  lemma StartWaitsEng(t: Tables, i: SessionId, base: U32)
    requires Starting(t, i, base) && t.engReq != []
    ensures Starting(ServeEng(t), i, base)
  {
    var (id, q) := t.engReq[0];
    OfHead(t.engReq, i);
    PointerHead(Of(t.engReq[1..], i), q);
    assert t.ackPush + [] == t.ackPush;
    assert [] + Of(t.engReq[1..], i) == Of(t.engReq[1..], i);
    if id == i {
      assert q.WriteThreshold?;
      assert [] + PointerQueries(Of(t.engReq[1..], i)) == PointerQueries(Of(t.engReq[1..], i));
    } else {
      match q {
        case ReadLine => OfPush(t.engRsp, id, ReplyOf(t.sar[id]), i);
        case WriteNotAckd(notAckd, init, _, _) =>
          if init { OfPush(t.ackPush, id, AckPush(Low16(notAckd), true), i); }
        case WriteThreshold(_) =>
      }
    }
  }

  // ---------------------------------------------------------------- the hardware's form

  /** The arrays `tx_table` and `app_table` and the FIFOs around them. */
  class TxTableArrays {
    const txTable: array<Line>
    const appTable: array<AppLine>
    var engReq: Shared<EngQuery>
    var engRsp: Shared<EngReply>
    var appPush: Shared<U16>
    var rxReq: Shared<RxQuery>
    var rxRsp: Shared<RxAnswer>
    var ackPush: Shared<AckPush>
    var updReq: Shared<AppQuery>
    var updRsp: Shared<AppLine>

    ghost predicate Valid() {
      txTable.Length == MAX_SESSIONS && appTable.Length == MAX_SESSIONS
    }

    ghost function Abs(): Tables
      reads this, txTable, appTable
      requires Valid()
    {
      Tables(txTable[..], appTable[..], engReq, engRsp, appPush, rxReq, rxRsp, ackPush, updReq, updRsp)
    }

    constructor ()
      ensures Valid() && fresh(txTable) && fresh(appTable)
      ensures engReq == [] && appPush == [] && rxReq == [] && ackPush == [] && updReq == []
    {
      txTable := new Line[MAX_SESSIONS](_ => NO_LINE);
      appTable := new AppLine[MAX_SESSIONS](_ => AppLine(0, 0));
      engReq, engRsp, appPush, rxReq, rxRsp, ackPush, updReq, updRsp := [], [], [], [], [], [], [], [];
    }

    method UpdateEngine()
      requires Valid() && engReq != []
      modifies this`engReq, this`engRsp, this`ackPush, txTable
      ensures Abs() == ServeEng(old(Abs()))
    {
      var (id, query) := engReq[0];
      engReq := engReq[1..];
      match query
      case ReadLine =>
        var entry := txTable[id];
        var minWindow := entry.recvWindow;
        if entry.congWindow < entry.recvWindow {
          minWindow := entry.congWindow;
        }
        engRsp := engRsp + [(id, EngReply(entry.ackd, entry.notAckd, minWindow, entry.app, entry.finReady,
            entry.finSent))];
      case WriteNotAckd(_, _, _, _) => WriteEntry(id, query);
      case WriteThreshold(threshold) =>
        txTable[id] := txTable[id].(ssthresh := threshold, congWindow := 0x3908);
    }

    method WriteEntry(id: SessionId, query: EngQuery)
      requires Valid() && query.WriteNotAckd?
      modifies this`ackPush, txTable
      ensures txTable[..] == old(txTable[..])[id := Written(old(txTable[id]), query)]
      ensures ackPush == old(ackPush) + if query.init then [(id, AckPush(Low16(query.notAckd), true))] else []
    {
      var number: int := query.notAckd;
      txTable[id] := txTable[id].(notAckd := query.notAckd);
      if query.init {
        txTable[id] := txTable[id].(app := number % 0x1_0000, ackd := (number - 1) % 0x1_0000_0000,
                                    congWindow := 0x3908, ssthresh := 0xFFFF,
                                    finReady := query.finReady, finSent := query.finSent);
        ackPush := ackPush + [(id, AckPush(number % 0x1_0000, true))];
      }
      if query.finReady {
        txTable[id] := txTable[id].(finReady := query.finReady);
      }
      if query.finSent {
        txTable[id] := txTable[id].(finSent := query.finSent);
      }
    }

    method UpdateRx()
      requires Valid() && rxReq != []
      modifies this`rxReq, this`rxRsp, this`ackPush, txTable
      ensures Abs() == ServeRx(old(Abs()))
    {
      var (id, query) := rxReq[0];
      rxReq := rxReq[1..];
      match query
      case WriteAckd(ackd, recvWindow, congWindow, count) =>
        txTable[id] := txTable[id].(ackd := ackd, recvWindow := recvWindow, congWindow := congWindow, count := count);
        ackPush := ackPush + [(id, AckPush(ackd % 0x1_0000, false))];
      case ReadAcks =>
        var entry := txTable[id];
        rxRsp := rxRsp + [(id, RxAnswer(entry.ackd, entry.notAckd, entry.congWindow, entry.ssthresh, entry.count))];
    }

    /** One clock cycle of `tx_sar_table`. */
    method TxSarTable(room: Room)
      requires Valid()
      modifies this, txTable
      ensures Abs() == SarTick(old(Abs()), room)
    {
      if engReq != [] && room.ack && room.eng {
        UpdateEngine();
      } else if appPush != [] {
        var (id, app) := appPush[0];
        appPush := appPush[1..];
        txTable[id] := txTable[id].(app := app);
      } else if rxReq != [] && room.ack && room.rx {
        UpdateRx();
      }
    }

    /** One clock cycle of `tx_app_table`. */
    method TxAppTable(room: Room)
      requires Valid()
      modifies this, appTable
      ensures Abs() == AppTick(old(Abs()), room)
    {
      if ackPush != [] {
        var (id, push) := ackPush[0];
        ackPush := ackPush[1..];
        if push.init {
          var number: int := push.ackd;
          appTable[id] := AppLine((number - 1) % 0x1_0000, push.ackd);
        } else {
          appTable[id] := appTable[id].(ackd := push.ackd);
        }
      } else if updReq != [] && room.upd {
        var (id, query) := updReq[0];
        updReq := updReq[1..];
        match query
        case WriteMempt(mempt) => appTable[id] := appTable[id].(mempt := mempt);
        case ReadApp => updRsp := updRsp + [(id, appTable[id])];
      }
    }
  }

  /** An event of the cache FIFO, and whether it is one of type TX. */
  datatype CachedEvent = CachedEvent(tx: bool, address: U16, length: nat)

  function CachedOf(ev: Event): CachedEvent {
    match ev
    case Other => CachedEvent(false, 0, 0)
    case TxEvent(address, length) => CachedEvent(true, address.value, length)
  }

  /** The static variables of `txAppStatusHandler`, with the FIFOs of one session. */
  class TxAppStatusHandler {
    var tashState: nat
    var ev: CachedEvent
    var writeStatus: nat
    var eventCache: seq<CachedEvent>
    var appPush: seq<U16>

    ghost predicate Shows(t: Store)
      reads this
    {
      && writeStatus == t.statuses && eventCache == Map(CachedOf, t.events) && appPush == Map(Value, t.pushes)
      && (if t.half.Some? then tashState == 1 && ev == CachedOf(t.half.value) && ev.tx else tashState == 0)
    }

    constructor ()
      ensures tashState == 0 && writeStatus == 0 && eventCache == [] && appPush == []
    {
      tashState, ev, writeStatus, eventCache, appPush := 0, CachedEvent(false, 0, 0), 0, [], [];
    }

    /** The pointer behind the event's bytes, truncated to 16 bits. */
    method Push()
      modifies this`appPush
      ensures appPush == old(appPush) + [Low16(ev.address + ev.length)]
    {
      appPush := appPush + [(ev.address + ev.length) % 0x1_0000];
    }

    /** One clock cycle with room in the outputs and a status that is okay. */
    method Cycle(ghost s: Sess)
      requires Shows(s.store)
      modifies this
      ensures Shows(StatusStep(s).store)
    {
      if writeStatus == 0 {
        return;
      }
      if tashState == 1 {
        writeStatus, tashState := writeStatus - 1, 0;
        Push();
        MapPush(Value, s.store.pushes, Advance(s.store.half.value.address, s.store.half.value.length));
      } else if eventCache != [] {
        MapTail(CachedOf, s.store.events);
        writeStatus, ev, eventCache := writeStatus - 1, eventCache[0], eventCache[1..];
        if ev.tx {
          if ev.address + ev.length > 65536 {
            tashState := 1;
          } else {
            Push();
            MapPush(Value, s.store.pushes, Advance(s.store.events[0].address, s.store.events[0].length));
          }
        }
      }
    }
  }

  /** The static variables of `tasi_metaLoader`, with the FIFOs of one session. */
  class TasiMetaLoader {
    var taiState: Tasi
    var metaData: seq<seq<Byte>>
    var updReq: seq<AppQuery>
    var updRsp: seq<AppLine>
    var appTxDataRsp: seq<Answer>
    var bufferWrites: seq<Write>
    var eventCache: seq<CachedEvent>

    ghost predicate Shows(s: Sess)
      reads this
    {
      && taiState == s.front.tasi && metaData == s.front.requests && appTxDataRsp == s.front.answers
      && updReq == Map(AppQueryOf, s.front.req) && updRsp == Map(AppLineOf, s.front.rsp)
      && bufferWrites == s.store.writes && eventCache == Map(CachedOf, s.store.events)
    }

    constructor ()
      ensures taiState == ReadRequest && metaData == [] && updReq == [] && updRsp == []
      ensures appTxDataRsp == [] && bufferWrites == [] && eventCache == []
    {
      taiState, metaData, updReq, updRsp := ReadRequest, [], [], [];
      appTxDataRsp, bufferWrites, eventCache := [], [], [];
    }

    /** State READ_REQUEST. */
    method TakeRequest(ghost s: Sess)
      requires Shows(s) && taiState == ReadRequest
      modifies this
      ensures Shows(s.(front := TakeStep(s.front)))
    {
      if metaData != [] {
        MapPush(AppQueryOf, s.front.req, AppRead);
        updReq := updReq + [ReadApp];
        taiState := ReadMeta(metaData[0]);
        metaData := metaData[1..];
      }
    }

    /** State READ_META with a reply of the table. */
    method DecideRequest(established: bool, ghost s: Sess)
      requires Shows(s) && taiState.ReadMeta? && updRsp != []
      modifies this
      ensures Shows(DecideStep(s, established))
    {
      MapTail(AppLineOf, s.front.rsp);
      var data, mempt: int, ackd: int := taiState.data, updRsp[0].mempt, updRsp[0].ackd;
      var maxWriteLength := (ackd - mempt - 1) % 0x1_0000;
      updRsp, taiState := updRsp[1..], ReadRequest;
      if !established {
        appTxDataRsp := appTxDataRsp + [NoConnection];
      } else if |data| > maxWriteLength {
        appTxDataRsp := appTxDataRsp + [NoSpace];
      } else {
        ghost var e := s.front.rsp[0];
        MapPush(AppQueryOf, s.front.req, AppWrite(Advance(e.mempt, |data|)));
        MapPush(CachedOf, s.store.events, TxEvent(e.mempt, |data|));
        appTxDataRsp := appTxDataRsp + [Accepted(|data|)];
        bufferWrites := bufferWrites + Pieces(mempt, data);
        eventCache := eventCache + [CachedEvent(true, mempt, |data|)];
        updReq := updReq + [WriteMempt((mempt + |data|) % 0x1_0000)];
      }
    }
  }
}
