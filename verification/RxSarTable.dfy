/** rx_sar_table.cpp and rx_app_stream_if.cpp as the hardware runs them, for all sessions at
    once, and why a session sees them as the steps of RxRing. */
module RxSarTable {
  import opened Toe
  import opened Ring
  import opened RxRing

  type Entries = t: seq<Entry> | |t| == MAX_SESSIONS witness seq(MAX_SESSIONS, _ => Entry(0, 0))

  /** `rxSarRecvd`: a read, or a write, which for the SYN of a connection initialises both
      pointers. */
  datatype EngQuery = ReadEntry | WriteRecvd(recvd: U32, init: bool)

  datatype Sar = Sar(
    table: Entries, txReq: seq<SessionId>, txRsp: Shared<Entry>,
    appReq: Shared<AppReq>, appRsp: Shared<U16>, engReq: Shared<EngQuery>, engRsp: Shared<Entry>)

  /** Which output FIFOs have room. */
  datatype Room = Room(tx: bool, app: bool, eng: bool)

  function ServeTx(t: Sar): Sar
    requires t.txReq != []
  {
    var id := t.txReq[0];
    t.(txReq := t.txReq[1..], txRsp := t.txRsp + [(id, t.table[id])])
  }

  function ServeApp(t: Sar): Sar
    requires t.appReq != []
  {
    var id := t.appReq[0].0;
    var r := t.(appReq := t.appReq[1..]);
    match t.appReq[0].1
    case AppWrite(appd) => r.(table := t.table[id := t.table[id].(appd := appd)])
    case AppRead => r.(appRsp := t.appRsp + [(id, t.table[id].appd)])
  }

  function Written(e: Entry, recvd: U32, init: bool): Entry {
    Entry(recvd, if init then Low16(recvd) else e.appd)
  }

  function ServeEng(t: Sar): Sar
    requires t.engReq != []
  {
    var id := t.engReq[0].0;
    var r := t.(engReq := t.engReq[1..]);
    match t.engReq[0].1
    case WriteRecvd(recvd, init) => r.(table := t.table[id := Written(t.table[id], recvd, init)])
    case ReadEntry => r.(engRsp := t.engRsp + [(id, t.table[id])])
  }

  /** One tick: the TX engine first, then the application, then `rxTcpFSM`. */
  function Tick(t: Sar, room: Room): Sar {
    if t.txReq != [] && room.tx then ServeTx(t)
    else if t.appReq != [] && room.app then ServeApp(t)
    else if t.engReq != [] && room.eng then ServeEng(t)
    else t
  }

  // ---------------------------------------------------------------- one session

  function QueryOf(r: EngReq): EngQuery {
    match r
    case EngRead => ReadEntry
    case EngWrite(recvd) => WriteRecvd(recvd, false)
  }

  function Queries(q: seq<EngReq>): seq<EngQuery> {
    seq(|q|, k requires 0 <= k < |q| => QueryOf(q[k]))
  }

  lemma QueriesTail(q: seq<EngReq>)
    requires q != []
    ensures Queries(q) == [QueryOf(q[0])] + Queries(q[1..])
  {
  }

  /** Session `i`'s share of the table is what the one-session machine has. No initialisation is
      pending. */
  predicate Shows(t: Sar, i: SessionId, s: Sess) {
    && t.table[i] == s.entry
    && Of(t.engReq, i) == Queries(s.eng.req) && Of(t.engRsp, i) == s.eng.rsp
    && Of(t.appReq, i) == s.app.req && Of(t.appRsp, i) == s.app.rsp
  }

  /** The session's step that a tick is, if it serves the session at all. The table does not know
      what the TX engine reads an entry for: the window of a segment, or only the receive pointer
      of a SYN-ACK that is sent again. */
  function TickAction(t: Sar, room: Room, i: SessionId, synAck: bool): Option<Action> {
    if t.txReq != [] && room.tx then
      if t.txReq[0] == i then Some(if synAck then SynAckAgain else Advertise) else None
    else if t.appReq != [] && room.app then
      if t.appReq[0].0 == i then Some(TableForApp) else None
    else if t.engReq != [] && room.eng then
      if t.engReq[0].0 == i then Some(TableForEngine) else None
    else None
  }

  /** The TX engine reads the entry from which the step computes what it advertises. */
  lemma TxReadsEntry(t: Sar, i: SessionId, s: Sess, synAck: bool)
    requires t.txReq != [] && t.txReq[0] == i && Shows(t, i, s)
    ensures var e := ServeTx(t).txRsp[|t.txRsp|].1;
            var r := Step(s, if synAck then SynAckAgain else Advertise);
            r.adverts == s.adverts + [Advert(e.recvd, if synAck then 0xFFFF else FreeSpace(e))]
  {
  }

  lemma AppServesOne(t: Sar, i: SessionId, s: Sess)
    requires t.appReq != [] && Shows(t, i, s)
    ensures Shows(ServeApp(t), i, if t.appReq[0].0 == i then TableAppStep(s) else s)
  {
    var id := t.appReq[0].0;
    OfPush(t.appRsp, id, t.table[id].appd, i);
    if id == i {
      assert s.app.req == [t.appReq[0].1] + Of(t.appReq[1..], i);
    }
  }

  lemma EngServesOne(t: Sar, i: SessionId, s: Sess)
    requires t.engReq != [] && Shows(t, i, s)
    ensures Shows(ServeEng(t), i, if t.engReq[0].0 == i then EngineStep(s) else s)
  {
    var (id, q) := t.engReq[0];
    OfPush(t.engRsp, id, t.table[id], i);
    if id == i {
      assert Of(t.engReq, i) == [q] + Of(t.engReq[1..], i);
      assert s.eng.req != [];
      QueriesTail(s.eng.req);
      assert q == QueryOf(s.eng.req[0]) by {
        assert q == ([q] + Of(t.engReq[1..], i))[0];
      }
      assert Of(t.engReq[1..], i) == ([q] + Of(t.engReq[1..], i))[1..];
      assert Queries(s.eng.req)[1..] == Queries(s.eng.req[1..]);
    }
  }

  /** Every tick of the shared table is, for each session, one step of the one-session
      machine or no step at all. */
  lemma TickIsSessionStep(t: Sar, room: Room, i: SessionId, s: Sess, synAck: bool)
    requires Shows(t, i, s)
    ensures var a := TickAction(t, room, i, synAck);
            Shows(Tick(t, room), i, if a.None? then s else Step(s, a.value))
  {
    if t.txReq != [] && room.tx {
    } else if t.appReq != [] && room.app {
      AppServesOne(t, i, s);
    } else if t.engReq != [] && room.eng {
      EngServesOne(t, i, s);
    }
  }

  /** The initialising write for a SYN, with nothing of an earlier connection on its way: the
      session is at the start of the machine in RxRing. */
  lemma InitIsServed(t: Sar, room: Room, i: SessionId, recvd: U32, ring: Ring)
    requires t.engReq != [] && t.engReq[0] == (i, WriteRecvd(recvd, true)) && room.eng
    requires (t.txReq == [] || !room.tx) && (t.appReq == [] || !room.app)
    requires Of(t.engReq[1..], i) == [] && Of(t.engRsp, i) == [] && Of(t.appReq, i) == [] && Of(t.appRsp, i) == []
    ensures Shows(Tick(t, room), i, Start(recvd, ring))
  {
  }

  // ---------------------------------------------------------------- the hardware's form

  class RxSar {
    const rxTable: array<Entry>
    var txReq: seq<SessionId>
    var txRsp: Shared<Entry>
    var appReq: Shared<AppReq>
    var appRsp: Shared<U16>
    var engReq: Shared<EngQuery>
    var engRsp: Shared<Entry>

    ghost predicate Valid() {
      rxTable.Length == MAX_SESSIONS
    }

    ghost function Abs(): Sar
      reads this, rxTable
      requires Valid()
    {
      Sar(rxTable[..], txReq, txRsp, appReq, appRsp, engReq, engRsp)
    }

    constructor ()
      ensures Valid() && forall i: SessionId :: Of(Abs().engReq, i) == [] && Of(Abs().appReq, i) == []
    {
      rxTable := new Entry[MAX_SESSIONS](_ => Entry(0, 0));
      txReq, txRsp, appReq, appRsp, engReq, engRsp := [], [], [], [], [], [];
    }

    method UpdateApp()
      requires Valid() && appReq != []
      modifies this`appReq, this`appRsp, rxTable
      ensures Abs() == ServeApp(old(Abs()))
    {
      var (id, req) := appReq[0];
      appReq := appReq[1..];
      match req
      case AppWrite(appd) => rxTable[id] := rxTable[id].(appd := appd);
      case AppRead => appRsp := appRsp + [(id, rxTable[id].appd)];
    }

    method UpdateEngine()
      requires Valid() && engReq != []
      modifies this`engReq, this`engRsp, rxTable
      ensures Abs() == ServeEng(old(Abs()))
    {
      var (id, req) := engReq[0];
      engReq := engReq[1..];
      match req
      case WriteRecvd(recvd, init) =>
        rxTable[id] := rxTable[id].(recvd := recvd);
        if init {
          var pointer: int := recvd;
          rxTable[id] := rxTable[id].(appd := pointer % 0x1_0000);
        }
      case ReadEntry => engRsp := engRsp + [(id, rxTable[id])];
    }

    /** One clock cycle of `rx_sar_table`. */
    method Cycle(room: Room)
      requires Valid()
      modifies this, rxTable
      ensures Abs() == Tick(old(Abs()), room)
    {
      if txReq != [] && room.tx {
        txRsp, txReq := txRsp + [(txReq[0], rxTable[txReq[0]])], txReq[1..];
      } else if appReq != [] && room.app {
        UpdateApp();
      } else if engReq != [] && room.eng {
        UpdateEngine();
      }
    }
  }

  /** The static variables of `rx_app_stream_if`, with the FIFOs of one session. */
  class RxAppStreamIf {
    var rasiFsmState: Rasi
    var appRxDataReq: seq<nat>
    var updReq: seq<AppReq>
    var updRsp: seq<U16>
    var rxBufferReadCmd: seq<Op>

    ghost function Abs(): App
      reads this
    {
      App(appRxDataReq, rasiFsmState, updReq, updRsp)
    }

    constructor ()
      ensures Abs() == App([], Ready, [], []) && rxBufferReadCmd == []
    {
      rasiFsmState, appRxDataReq, updReq, updRsp, rxBufferReadCmd := Ready, [], [], [], [];
    }

    /** One clock cycle, in terms of the whole session. */
    method Cycle(ghost s: Sess)
      requires Abs() == s.app && rxBufferReadCmd == s.mem.ops
      modifies this
      ensures Abs() == AppStep(s).app && rxBufferReadCmd == AppStep(s).mem.ops
    {
      match rasiFsmState
      case Ready =>
        if appRxDataReq != [] {
          var length := appRxDataReq[0];
          appRxDataReq := appRxDataReq[1..];
          if length != 0 {
            updReq := updReq + [AppRead];
            rasiFsmState := Waiting(length % 0x1_0000);
          }
        }
      case Waiting(readLength) =>
        if updRsp != [] {
          var appd: int := updRsp[0];
          updRsp := updRsp[1..];
          rxBufferReadCmd := rxBufferReadCmd + [Read(appd, readLength)];
          updReq := updReq + [AppWrite((appd + readLength) % 0x1_0000)];
          rasiFsmState := Ready;
        }
    }
  }
}
