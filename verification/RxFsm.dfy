/** `rxTcpFSM` of rx_engine.cpp: what case TRANSITION sends to every table, timer and FIFO for
    one segment, given the session's state and its lines of the RX and the TX SAR table. */
module RxFsm {
  import opened Toe
  import opened Ring
  import RxRing
  import StateTable
  import TxRing

  datatype Meta = Meta(
    seqNumb: U32, ackNumb: U32, winSize: U16, length: U16, ack: bool, rst: bool, syn: bool, fin: bool)

  datatype RxSar = RxSar(recvd: U32, appd: U16)

  datatype TxSar = TxSar(prevAck: U32, nextByte: U32, congWindow: U16, ssthresh: U16, count: nat)

  datatype RxSarWrite = RxSarWrite(recvd: U32, init: bool)

  /** The congestion window is missing where the source writes a register that it never read. */
  datatype TxSarWrite = TxSarWrite(ackd: U32, recvWindow: U16, congWindow: Option<U16>, count: nat)

  datatype Event = Plain(kind: EventType, rtCount: nat) | Reset(ackNumb: U32)

  datatype Notification = Notification(length: U16, closed: bool)

  /** The ring address and the byte count of a write to the session's ring. */
  datatype WriteCmd = WriteCmd(at: U16, len: U16)

  /** What is written to the FIFOs. */
  datatype Out = Out(
    state: seq<SessionState>, rxSar: seq<RxSarWrite>, txSar: seq<TxSarWrite>,
    clearRetransmit: seq<bool>, clearProbe: nat, setClose: nat,
    events: seq<Event>, drops: seq<bool>, cmds: seq<WriteCmd>,
    notifications: seq<Notification>, opened_: seq<bool>)

  const NOTHING: Out := Out([], [], [], [], 0, 0, [], [], [], [], [])

  /** The inputs of a transition, and the parameter of fast retransmit. */
  datatype In = In(g: Meta, state: SessionState, rx: RxSar, tx: TxSar, maxDupAcks: nat)

  /** The outputs, and the register that asks for a fast retransmit in the next LOAD. */
  datatype Result = Result(out: Out, fastRt: bool)

  // ---------------------------------------------------------------- congestion and acks

  /** A segment of new or repeated acknowledgement after `count` duplicates. */
  predicate Duplicate(i: In) {
    i.g.ackNumb == i.tx.prevAck && i.tx.prevAck != i.tx.nextByte
  }

  /** Slow start up to the threshold, then about one segment a round trip; the sums are
      truncated to 16 bits. */
  function Grow(cong: U16, ssthresh: U16): U16 {
    if cong <= ssthresh - MSS then Low16(cong + MSS)
    else if cong <= 0xF7FF then Low16(cong + 365)
    else cong
  }

  function NewCong(i: In): U16 {
    if Duplicate(i) then i.tx.congWindow else Grow(i.tx.congWindow, i.tx.ssthresh)
  }

  /** The 6-bit counter of duplicate acknowledgements. */
  function NewCount(i: In): nat {
    if !Duplicate(i) then 0
    else if i.g.length == 0 && i.tx.count <= i.maxDupAcks then (i.tx.count + 1) % 64
    else i.tx.count
  }

  predicate FastRetransmit(i: In) {
    Duplicate(i) && i.g.length == 0 && i.tx.count <= i.maxDupAcks && NewCount(i) == i.maxDupAcks
  }

  // ---------------------------------------------------------------- payload

  function FreeSpace(rx: RxSar): U16 {
    Low16(rx.appd - Low16(rx.recvd) - 1)
  }

  /** In order, and strictly less than the free space. */
  predicate TakesData(i: In) {
    i.g.seqNumb == i.rx.recvd && FreeSpace(i.rx) > i.g.length
  }

  function Cmd(i: In): WriteCmd {
    WriteCmd(Low16(i.g.seqNumb), i.g.length)
  }

  // ---------------------------------------------------------------- the branches

  /** The states in which acknowledgements and data are processed. */
  predicate Receiving(s: SessionState) {
    s == ESTABLISHED || s == SYN_RECEIVED || s == FIN_WAIT_1 || s == CLOSING || s == LAST_ACK
  }

  function Payload(o: Out, i: In): Out {
    if i.g.length == 0 then o
    else if TakesData(i) then
      o.(rxSar := [RxSarWrite(Low32(i.g.seqNumb + i.g.length), false)], cmds := [Cmd(i)],
         notifications := [Notification(i.g.length, false)], drops := [false])
    else o.(drops := [true])
  }

  predicate Late(i: In) {
    i.g.length != 0 && !TakesData(i)
  }

  /** The event, and whether a fast retransmit is still to be asked for. */
  function AckEvents(fast: bool, late: bool, data: bool): (seq<Event>, bool) {
    if fast && late then ([Plain(ACK_NODELAY, 0)], true)
    else if fast then ([Plain(RT, 0)], false)
    else if late then ([Plain(ACK_NODELAY, 0)], false)
    else if data then ([Plain(ACK, 0)], false)
    else ([], false)
  }

  function AckState(i: In): SessionState {
    if i.g.ackNumb != i.tx.nextByte then i.state
    else match i.state
      case SYN_RECEIVED => ESTABLISHED
      case CLOSING => TIME_WAIT
      case LAST_ACK => CLOSED
      case _ => i.state
  }

  /** Case 1: an acknowledgement, with or without data. */
  function OnAck(i: In): Result {
    var o := NOTHING.(clearRetransmit := if i.g.ackNumb == i.tx.nextByte then [true] else []);
    if Receiving(i.state) then
      var p, e := Payload(o, i), AckEvents(FastRetransmit(i), Late(i), i.g.length != 0);
      Result(p.(clearProbe := if Duplicate(i) then 0 else 1,
                txSar := if TxRing.AckTest(i.tx.prevAck, i.g.ackNumb, i.tx.nextByte) then
                           [TxSarWrite(i.g.ackNumb, i.g.winSize, Some(NewCong(i)), NewCount(i))] else [],
                events := e.0, state := [AckState(i)],
                setClose := if AckState(i) == TIME_WAIT then 1 else 0),
             e.1)
    else
      Result(o.(events := [Reset(Low32(i.g.seqNumb + i.g.length))],
                drops := if i.g.length != 0 then [true] else [], state := [i.state]),
             false)
  }

  /** Case 2: SYN. */
  function OnSyn(i: In): Out {
    if i.state == CLOSED || i.state == SYN_SENT then
      NOTHING.(rxSar := [RxSarWrite(Low32(i.g.seqNumb + 1), true)],
               txSar := [TxSarWrite(0, i.g.winSize, None, 0)],
               events := [Plain(SYN_ACK, 0)], state := [SYN_RECEIVED])
    else if i.state == SYN_RECEIVED then
      // the source compares a 33-bit sum with the 32-bit pointer
      if i.g.seqNumb + 1 == i.rx.recvd then NOTHING.(events := [Plain(SYN_ACK, 1)], state := [i.state])
      else NOTHING.(events := [Reset(Low32(i.g.seqNumb + 1))], state := [CLOSED])
    else NOTHING.(events := [Plain(ACK_NODELAY, 0)], state := [i.state])
  }

  /** Case 3: SYN and ACK. */
  function OnSynAck(i: In): Out {
    var o := NOTHING.(clearRetransmit := [i.g.ackNumb == i.tx.nextByte]);
    if i.state == SYN_SENT && i.g.ackNumb == i.tx.nextByte then
      o.(rxSar := [RxSarWrite(Low32(i.g.seqNumb + 1), true)],
         txSar := [TxSarWrite(i.g.ackNumb, i.g.winSize, Some(i.tx.congWindow), 0)],
         events := [Plain(ACK_NODELAY, 0)], state := [ESTABLISHED], opened_ := [true])
    else if i.state == SYN_SENT then
      o.(events := [Reset(Low32(i.g.seqNumb + i.g.length + 1))], state := [CLOSED])
    else o.(events := [Plain(ACK_NODELAY, 0)], state := [i.state])
  }

  predicate TakesFin(i: In) {
    && (i.state == ESTABLISHED || i.state == FIN_WAIT_1 || i.state == FIN_WAIT_2)
    && i.rx.recvd == i.g.seqNumb
  }

  function FinState(i: In): SessionState {
    if i.state == ESTABLISHED then LAST_ACK
    else if i.g.ackNumb == i.tx.nextByte then TIME_WAIT
    else CLOSING
  }

  /** Case 5: FIN and ACK. */
  function OnFin(i: In): Out {
    var o := NOTHING.(clearRetransmit := [i.g.ackNumb == i.tx.nextByte]);
    if TakesFin(i) then
      o.(txSar := [TxSarWrite(i.g.ackNumb, i.g.winSize, Some(i.tx.congWindow), i.tx.count)],
         rxSar := [RxSarWrite(Low32(i.g.seqNumb + i.g.length + 1), false)],
         clearProbe := 1,
         cmds := if i.g.length != 0 then [Cmd(i)] else [],
         drops := if i.g.length != 0 then [false] else [],
         notifications := if i.g.length != 0 || i.state == ESTABLISHED
                          then [Notification(i.g.length, true)] else [],
         events := [Plain(if i.state == ESTABLISHED then FIN else ACK, 0)],
         state := [FinState(i)], setClose := if FinState(i) == TIME_WAIT then 1 else 0)
    else
      o.(events := [Plain(ACK, 0)], state := [i.state], drops := if i.g.length != 0 then [true] else [])
  }

  /** Any other combination of flags: a reset, or a segment that is ignored. */
  function OnOther(i: In): Out {
    if !i.g.rst then NOTHING.(state := [i.state])
    else if i.state == SYN_SENT then
      if i.g.ackNumb == i.tx.nextByte then
        NOTHING.(opened_ := [false], state := [CLOSED], clearRetransmit := [true])
      else NOTHING.(state := [i.state])
    else if i.g.seqNumb == i.rx.recvd then
      NOTHING.(notifications := [Notification(0, true)], state := [CLOSED], clearRetransmit := [true])
    else NOTHING.(state := [i.state])
  }

  /** `control_bits`: ACK, SYN, FIN and RST from the lowest bit on. */
  function ControlBits(g: Meta): nat {
    (if g.ack then 1 else 0) + (if g.syn then 2 else 0) + (if g.fin then 4 else 0) + if g.rst then 8 else 0
  }

  function Transition(i: In): Result {
    match ControlBits(i.g)
    case 1 => OnAck(i)
    case 2 => Result(OnSyn(i), false)
    case 3 => Result(OnSynAck(i), false)
    case 5 => Result(OnFin(i), false)
    case _ => Result(OnOther(i), false)
  }

  // ---------------------------------------------------------------- one segment

  predicate IsAck(g: Meta) {
    ControlBits(g) == 1
  }

  predicate IsFin(g: Meta) {
    ControlBits(g) == 5
  }

  /** What every transition does to the session's state. It is written exactly once, which
      gives the lock back, along the diagram of section 3.3.2 of RFC 9293; ESTABLISHED is new
      only if the segment acknowledges our SYN; the close timer is set in the step that enters
      TIME_WAIT and in no other. The register that asks for a fast retransmit in the next LOAD
      is clear: duplicates count without data, and only a segment with data can be late. */
  lemma StateWrite(i: In)
    ensures var o := Transition(i).out;
            && |o.state| == 1 && RxEdge(i.state, o.state[0])
            && (o.state == [ESTABLISHED] && i.state != ESTABLISHED ==> AcksOurSyn(i))
            && o.setClose == (if o.state == [TIME_WAIT] && i.state != TIME_WAIT then 1 else 0)
            && !Transition(i).fastRt
  {
  }

  predicate AcksOurSyn(i: In) {
    i.g.ack && i.g.ackNumb == i.tx.nextByte && (i.state == SYN_RECEIVED || i.state == SYN_SENT)
  }

  /** A payload gets one drop verdict if the flags are ACK or ACK and FIN, and none otherwise. */
  lemma OneVerdict(i: In)
    ensures |Transition(i).out.drops| ==
            if i.g.length != 0 && (IsAck(i.g) || IsFin(i.g)) then 1 else 0
  {
  }

  /** A payload that is let through has one write command and one notification of its
      length, and the receive pointer moves behind it; a dropped one has none of these. */
  lemma ForwardedIsCommanded(i: In)
    ensures var o := Transition(i).out;
            && (o.drops == [false] ==>
                  && o.cmds == [WriteCmd(Low16(i.g.seqNumb), i.g.length)] && i.g.length > 0
                  && |o.notifications| == 1 && o.notifications[0].length == i.g.length
                  && o.rxSar == [RxSarWrite(Low32(i.rx.recvd + i.g.length + if i.g.fin then 1 else 0), false)])
            && (o.drops != [false] ==>
                  o.cmds == [] && forall n <- o.notifications :: n.length == 0)
  {
  }

  /** A repeated SYN is recognised, and answered again, unless its number is the last one
      before the wrap: the source compares a sum that is wider than the pointer. */
  lemma RepeatedSyn(i: In)
    requires ControlBits(i.g) == 2 && i.state == SYN_RECEIVED && i.rx.recvd == Low32(i.g.seqNumb + 1)
    ensures Transition(i).out.events == [Plain(SYN_ACK, 1)] <==> i.g.seqNumb != 0xFFFF_FFFF
    ensures Transition(i).out.state == [CLOSED] <==> i.g.seqNumb == 0xFFFF_FFFF
  {
  }

  /** On an acknowledgement the pointer in the TX SAR table is written exactly if the number
      is in the circular interval of what is sent and not acknowledged. */
  lemma AckedIsInInterval(i: In)
    requires IsAck(i.g) && Receiving(i.state)
    ensures var o := Transition(i).out;
            && (|o.txSar| == if Low32(i.g.ackNumb - i.tx.prevAck) <= Low32(i.tx.nextByte - i.tx.prevAck)
                             then 1 else 0)
            && forall w <- o.txSar :: w.ackd == i.g.ackNumb
  {
    TxRing.AckTestIsCircular(i.tx.prevAck, i.g.ackNumb, i.tx.nextByte);
  }

  /** The receive pointer is initialised, one past the SYN, exactly in the step in which a
      session leaves CLOSED or SYN_SENT for SYN_RECEIVED or ESTABLISHED. */
  lemma HandshakeSynchronises(i: In)
    ensures var o := Transition(i).out;
            && ((i.state == CLOSED || i.state == SYN_SENT) && (o.state == [SYN_RECEIVED] || o.state == [ESTABLISHED])
                <==> o.rxSar == [RxSarWrite(Low32(i.g.seqNumb + 1), true)])
            && forall w <- o.rxSar :: w.init ==> w.recvd == Low32(i.g.seqNumb + 1)
  {
  }

  /** A reset acknowledges the whole segment that it answers, as section 3.10.7.1 of RFC 9293
      asks, unless that is a SYN with data. */
  lemma ResetCoversSegment(i: In, a: U32)
    requires Transition(i).out.events == [Reset(a)]
    ensures a == Low32(i.g.seqNumb + i.g.length + if i.g.syn then 1 else 0)
            <==> !(ControlBits(i.g) == 2 && i.g.length != 0)
  {
    if ControlBits(i.g) == 2 {
      assert a == Low32(i.g.seqNumb + 1);
      SumIsZero(i.g.seqNumb + 1, i.g.length);
    }
  }

  lemma SumIsZero(x: nat, n: U16)
    ensures Low32(x + n) == Low32(x) <==> n == 0
  {
  }

  /** Whether the state lets the payload of a segment in. */
  predicate Open(i: In) {
    if i.g.fin then i.state == ESTABLISHED || i.state == FIN_WAIT_1 || i.state == FIN_WAIT_2
    else Receiving(i.state)
  }

  /** The payload branches are those of the machine in RxRing, for which delivery is proved. */
  lemma PayloadIsRxRing(i: In, data: seq<Byte>)
    requires (IsAck(i.g) || IsFin(i.g)) && |data| == i.g.length
    ensures var o := Transition(i).out;
            var g, e := RxRing.Segment(i.g.seqNumb, data, i.g.fin), RxRing.Entry(i.rx.recvd, i.rx.appd);
            if Open(i) && (g.fin || data != []) && RxRing.Accepts(g, e) then
              && o.rxSar == [RxSarWrite(RxRing.NewRecvd(g), false)]
              && o.cmds == if data == [] then [] else [WriteCmd(Low16(g.seqNumb), |data|)]
            else o.rxSar == [] && o.cmds == []
  {
  }

  /** `y` is `x` with the request that the writes to the TX SAR table are, or with none. */
  predicate Queued(y: TxRing.Rx, x: TxRing.Rx, writes: seq<TxSarWrite>, forced: bool) {
    if writes == [] then y.req == x.req
    else
      && |writes| == 1 && |y.req| == |x.req| + 1 && y.req[..|x.req|] == x.req
      && match y.req[|x.req|]
         case RxRead => false
         case RxWrite(p) => !forced && p.value == writes[0].ackd
         case RxForced(value) => forced && value == writes[0].ackd
  }

  /** What is acknowledged is written as the machine in TxRing says, which has got the two
      pointers from the table: after the test for an ACK and for a SYN and ACK, which has to
      acknowledge all that is sent, and without it for a FIN in order and for a SYN. */
  lemma AckIsTxRing(i: In, x: TxRing.Rx)
    requires x.phase == TxRing.Checking(i.g.ackNumb) && x.rsp != []
    requires x.rsp[0].prevAck.value == i.tx.prevAck && x.rsp[0].nextByte.value == i.tx.nextByte
    ensures var w := Transition(i).out.txSar;
            match ControlBits(i.g)
            case 1 => Queued(TxRing.CheckStep(x, Receiving(i.state)), x, w, false)
            case 2 =>
              if i.state == CLOSED || i.state == SYN_SENT
              then Queued(TxRing.SynStep(x.(phase := TxRing.Waiting)), x, w, true) else w == []
            case 3 =>
              Queued(TxRing.CheckStep(x, i.state == SYN_SENT && i.g.ackNumb == i.tx.nextByte), x, w, false)
            case 5 => Queued(TxRing.FinStep(x, TakesFin(i)), x, w, true)
            case _ => w == []
  {
    if i.state == SYN_SENT && i.g.ackNumb == i.tx.nextByte {
      TxRing.AckTestIsCircular(i.tx.prevAck, i.g.ackNumb, i.tx.nextByte);
    }
  }

  // ---------------------------------------------------------------- the life of a session

  /** What changes a session's state, in the order in which the state table commits it. */
  datatype Turn = Arrives(i: In) | Close | Expire | ActiveOpen

  function InState(i: In, state: SessionState): In {
    i.(state := state)
  }

  function After(state: SessionState, turn: Turn): SessionState {
    match turn
    case Arrives(i) => StateWrite(InState(i, state)); Transition(InState(i, state)).out.state[0]
    case Close => StateTable.CloseState(state)
    case Expire => CLOSED
    case ActiveOpen => SYN_SENT
  }

  function StateAfter(state: SessionState, turns: seq<Turn>): SessionState
    decreases |turns|
  {
    if turns == [] then state else StateAfter(After(state, turns[0]), turns[1..])
  }

  /** The close timers set, and the times that TIME_WAIT is entered. */
  function Timers(state: SessionState, turns: seq<Turn>): nat
    decreases |turns|
  {
    if turns == [] then 0
    else (if turns[0].Arrives? then Transition(InState(turns[0].i, state)).out.setClose else 0)
         + Timers(After(state, turns[0]), turns[1..])
  }

  function Entries(state: SessionState, turns: seq<Turn>): nat
    decreases |turns|
  {
    if turns == [] then 0
    else (if state != TIME_WAIT && After(state, turns[0]) == TIME_WAIT then 1 else 0)
         + Entries(After(state, turns[0]), turns[1..])
  }

  lemma OneEntry(state: SessionState, turn: Turn)
    ensures (if state != TIME_WAIT && After(state, turn) == TIME_WAIT then 1 else 0)
            == if turn.Arrives? then Transition(InState(turn.i, state)).out.setClose else 0
  {
    if turn.Arrives? { StateWrite(InState(turn.i, state)); }
  }

  /** Over the whole life of a session the close timer is set once for every entry to
      TIME_WAIT, whatever segments, requests and timers come. */
  lemma {:induction false} CloseTimerPerEntry(state: SessionState, turns: seq<Turn>)
    ensures Timers(state, turns) == Entries(state, turns)
    decreases |turns|
  {
    if turns != [] {
      OneEntry(state, turns[0]);
      CloseTimerPerEntry(After(state, turns[0]), turns[1..]);
    }
  }

  lemma OneAck(state: SessionState, turn: Turn)
    requires state != ESTABLISHED && After(state, turn) == ESTABLISHED
    ensures turn.Arrives? && AcksOurSyn(InState(turn.i, state))
  {
    if turn.Arrives? { StateWrite(InState(turn.i, state)); }
  }

  /** A session is never found ESTABLISHED before a segment has acknowledged our SYN. */
  lemma {:induction false} EstablishedIsAcked(state: SessionState, turns: seq<Turn>) returns (k: nat)
    requires state != ESTABLISHED && StateAfter(state, turns) == ESTABLISHED
    ensures k < |turns| && turns[k].Arrives? && AcksOurSyn(InState(turns[k].i, StateAfter(state, turns[..k])))
    decreases |turns|
  {
    var next := After(state, turns[0]);
    if next == ESTABLISHED {
      OneAck(state, turns[0]);
      k := 0;
    } else {
      var n := EstablishedIsAcked(next, turns[1..]);
      k := n + 1;
      assert turns[..k][1..] == turns[1..][..n] && turns[1..][n] == turns[k];
    }
  }

  // ---------------------------------------------------------------- the congestion window

  /** The congestion fields of a line of the TX SAR table, what `rxTcpFSM` last read of them,
      and the writes on their way from it. */
  datatype Cong = Cong(window: U16, ssthresh: U16, seen: Option<(U16, U16)>, writes: seq<U16>)

  /** `rxTcpFSM` reads, decides on a segment that was acknowledged or keeps the window, the
      table takes the write, and the TX engine reports a first retransmission. */
  datatype CongStep = ReadCong | Decide(i: In) | TakeWrite | Retransmit(flight: U16)

  /** tx_engine.cpp: half of the flight size, but at least two segments. */
  function Threshold(flight: U16): U16 {
    if flight > 4 * MSS then flight / 2 else 2 * MSS
  }

  /** What a decision writes, for the window and the threshold that were read. */
  function Written(i: In, window: U16, ssthresh: U16): seq<U16> {
    var o := Transition(i.(tx := i.tx.(congWindow := window, ssthresh := ssthresh))).out;
    if ControlBits(i.g) != 2 && o.txSar != [] && o.txSar[0].congWindow.Some?
    then [o.txSar[0].congWindow.value] else []
  }

  function CongNext(c: Cong, a: CongStep): Cong {
    match a
    case ReadCong => c.(seen := Some((c.window, c.ssthresh)))
    case Decide(i) =>
      if c.seen.None? then c
      else c.(seen := None, writes := c.writes + Written(i, c.seen.value.0, c.seen.value.1))
    case TakeWrite => if c.writes == [] then c else c.(window := c.writes[0], writes := c.writes[1..])
    case Retransmit(flight) => c.(window := 0x3908, ssthresh := Threshold(flight))
  }

  function CongRun(c: Cong, steps: seq<CongStep>): Cong
    decreases |steps|
  {
    if steps == [] then c else CongRun(CongNext(c, steps[0]), steps[1..])
  }

  predicate WindowOk(w: U16) {
    14600 <= w
  }

  predicate ThresholdOk(t: U16) {
    2920 <= t
  }

  predicate CongInv(c: Cong) {
    && WindowOk(c.window) && ThresholdOk(c.ssthresh)
    && (c.seen.Some? ==> WindowOk(c.seen.value.0) && ThresholdOk(c.seen.value.1))
    && forall k :: 0 <= k < |c.writes| ==> WindowOk(c.writes[k])
  }

  /** Growing neither wraps nor shrinks the window. */
  lemma GrowOk(w: U16, t: U16)
    requires WindowOk(w) && ThresholdOk(t)
    ensures w <= Grow(w, t) <= w + MSS && WindowOk(Grow(w, t))
  {
  }

  lemma WrittenOk(i: In, w: U16, t: U16)
    requires WindowOk(w) && ThresholdOk(t)
    ensures forall k :: 0 <= k < |Written(i, w, t)| ==> w <= Written(i, w, t)[k] <= w + MSS
  {
    GrowOk(w, t);
  }

  /** Section 3.1 of RFC 5681: the threshold after a loss is at least two segments, and half
      of the flight size where that is more. */
  lemma ThresholdIs(flight: U16)
    ensures Threshold(flight) == if flight / 2 > 2 * MSS then flight / 2 else 2 * MSS
  {
  }

  lemma CongStepInv(c: Cong, a: CongStep)
    requires CongInv(c)
    ensures CongInv(CongNext(c, a))
  {
    if a.Decide? && c.seen.Some? { WrittenOk(a.i, c.seen.value.0, c.seen.value.1); }
  }

  /** From the initialisation to the next SYN, for every interleaving of the two engines: the
      congestion window stays between 14600 and 65535 and the threshold between 2920 and
      65535, without wrapping. */
  lemma {:induction false} CongestionBounds(c: Cong, steps: seq<CongStep>)
    requires CongInv(c)
    ensures CongInv(CongRun(c, steps))
    decreases |steps|
  {
    if steps != [] {
      CongStepInv(c, steps[0]);
      CongestionBounds(CongNext(c, steps[0]), steps[1..]);
    }
  }

  lemma InitialCongestion()
    ensures CongInv(Cong(0x3908, 0xFFFF, None, []))
  {
  }

  // ---------------------------------------------------------------- fast retransmit

  /** An acknowledgement with the session's pointers of the receive window at its time. */
  datatype Arrival = Arrival(g: Meta, rx: RxSar)

  /** Acknowledgements that repeat the last one, with or without data. */
  predicate Repeats(i: In, arrivals: seq<Arrival>) {
    forall a <- arrivals :: IsAck(a.g) && a.g.ackNumb == i.tx.prevAck
  }

  /** The events of a run of arrivals, each of which leaves its count in the TX SAR table. */
  function Events(i: In, arrivals: seq<Arrival>): seq<Event>
    decreases |arrivals|
  {
    if arrivals == [] then []
    else
      var j := i.(g := arrivals[0].g, rx := arrivals[0].rx);
      var o := Transition(j).out;
      o.events + Events(if o.txSar == [] then i else i.(tx := i.tx.(count := o.txSar[0].count)), arrivals[1..])
  }

  function Retransmits(events: seq<Event>): nat {
    if events == [] then 0 else (if events[0].Plain? && events[0].kind == RT then 1 else 0) + Retransmits(events[1..])
  }

  /** The arrivals without data. */
  function Bare(arrivals: seq<Arrival>): nat {
    if arrivals == [] then 0 else (if arrivals[0].g.length == 0 then 1 else 0) + Bare(arrivals[1..])
  }

  lemma {:induction false} RetransmitsConcat(a: seq<Event>, b: seq<Event>)
    ensures Retransmits(a + b) == Retransmits(a) + Retransmits(b)
  {
    if a == [] {
      assert a + b == b;
    } else {
      assert (a + b)[1..] == a[1..] + b;
      RetransmitsConcat(a[1..], b);
    }
  }

  /** A repeated acknowledgement asks for a retransmission if its count reaches the limit. */
  lemma RepeatStep(i: In)
    requires IsAck(i.g) && Receiving(i.state) && Duplicate(i)
    ensures var o := Transition(i).out;
            && |o.txSar| == 1 && o.txSar[0].count == NewCount(i)
            && |o.events| <= 1 && Retransmits(o.events) == if FastRetransmit(i) then 1 else 0
  {
    var e := AckEvents(FastRetransmit(i), Late(i), i.g.length != 0).0;
    assert Transition(i).out.events == e;
    assert e != [] ==> e[1..] == [];
  }

  lemma CountStep(i: In)
    requires IsAck(i.g) && Duplicate(i) && i.tx.count <= i.maxDupAcks + 1 <= 63
    ensures var n := if i.g.length == 0 then 1 else 0;
            && NewCount(i) == (if i.tx.count <= i.maxDupAcks then i.tx.count + n else i.tx.count)
            && (FastRetransmit(i) <==> n == 1 && i.tx.count + 1 == i.maxDupAcks)
  {
  }

  /** With a limit of 63 the 6-bit count wraps, and a further 63 acknowledgements retransmit
      again; every lower limit keeps the count from wrapping. */
  lemma CountWraps(i: In)
    requires IsAck(i.g) && Duplicate(i) && i.g.length == 0 && i.tx.count < 64 && i.maxDupAcks < 64
    requires i.tx.count <= i.maxDupAcks + 1
    ensures NewCount(i) == 0 <==> i.tx.count == 63 && i.maxDupAcks == 63
  {
  }

  /** Section 3.2 of RFC 5681: however many acknowledgements repeat the last one, and whatever
      data some of them carry, there is one fast retransmit, when as many as the parameter
      says have come without data, and none before. */
  lemma {:induction false} FastRetransmitOnce(i: In, arrivals: seq<Arrival>)
    requires Receiving(i.state) && i.tx.prevAck != i.tx.nextByte && Repeats(i, arrivals)
    requires i.tx.count <= i.maxDupAcks + 1 <= 63
    ensures Retransmits(Events(i, arrivals)) ==
            if i.tx.count < i.maxDupAcks <= i.tx.count + Bare(arrivals) then 1 else 0
    decreases |arrivals|
  {
    if arrivals != [] {
      var j := i.(g := arrivals[0].g, rx := arrivals[0].rx);
      assert arrivals[0] in arrivals;
      RepeatStep(j);
      CountStep(j);
      var o := Transition(j).out;
      var r := i.(tx := i.tx.(count := NewCount(j)));
      FastRetransmitOnce(r, arrivals[1..]);
      RetransmitsConcat(o.events, Events(r, arrivals[1..]));
    }
  }

  // ---------------------------------------------------------------- the hardware's form

  /** What was written before, and then `o`. */
  function Append(p: Out, o: Out): Out {
    Out(p.state + o.state, p.rxSar + o.rxSar, p.txSar + o.txSar, p.clearRetransmit + o.clearRetransmit,
        p.clearProbe + o.clearProbe, p.setClose + o.setClose, p.events + o.events, p.drops + o.drops,
        p.cmds + o.cmds, p.notifications + o.notifications, p.opened_ + o.opened_)
  }

  /** `rxTcpFSM` in case TRANSITION, with the values it has read. */
  class RxTcpFsm {
    var out: Out
    var fastRtEn: bool
    var fastRtAckEn: bool

    constructor ()
      ensures out == NOTHING && !fastRtEn
    {
      out, fastRtEn, fastRtAckEn := NOTHING, false, false;
    }

    /** The duplicate counter, or a new acknowledgement that opens the window. */
    method CountAck(i: In) returns (cong: U16, count: nat)
      modifies this
      ensures cong == NewCong(i) && count == NewCount(i)
      ensures fastRtEn == FastRetransmit(i) && fastRtAckEn == old(fastRtAckEn)
      ensures out == old(out).(clearProbe := old(out).clearProbe + if Duplicate(i) then 0 else 1)
    {
      cong, count, fastRtEn := i.tx.congWindow, i.tx.count, false;
      if i.g.ackNumb == i.tx.prevAck && i.tx.prevAck != i.tx.nextByte {
        if i.g.length == 0 && count <= i.maxDupAcks {
          count := (count + 1) % 64;
          fastRtEn := count == i.maxDupAcks;
        }
      } else {
        out := out.(clearProbe := out.clearProbe + 1);
        if cong <= i.tx.ssthresh - MSS {
          cong := (cong + MSS) % 0x1_0000;
        } else if cong <= 0xF7FF {
          cong := (cong + 365) % 0x1_0000;
        }
        count := 0;
      }
    }

    method StoreData(i: In)
      modifies this
      ensures fastRtAckEn == Late(i) && fastRtEn == old(fastRtEn)
      ensures out == Append(old(out), Payload(NOTHING, i))
    {
      fastRtAckEn := false;
      if i.g.length != 0 {
        var recvd: int := i.rx.recvd;
        var freeSpace := (i.rx.appd - recvd % 0x1_0000 - 1) % 0x1_0000;
        if i.g.seqNumb == i.rx.recvd && freeSpace > i.g.length {
          out := out.(rxSar := out.rxSar + [RxSarWrite(Low32(i.g.seqNumb + i.g.length), false)],
                      cmds := out.cmds + [WriteCmd(Low16(i.g.seqNumb), i.g.length)],
                      notifications := out.notifications + [Notification(i.g.length, false)],
                      drops := out.drops + [false]);
        } else {
          out := out.(drops := out.drops + [true]);
          fastRtAckEn := true;
        }
      }
    }

    method SetEvent(data: bool)
      modifies this
      ensures var e := AckEvents(old(fastRtEn), old(fastRtAckEn), data);
              out == old(out).(events := old(out).events + e.0) && fastRtEn == e.1
    {
      if fastRtEn && fastRtAckEn {
        out := out.(events := out.events + [Plain(ACK_NODELAY, 0)]);
      } else if fastRtEn {
        out := out.(events := out.events + [Plain(RT, 0)]);
        fastRtEn := false;
      } else if fastRtAckEn {
        out := out.(events := out.events + [Plain(ACK_NODELAY, 0)]);
      } else if data {
        out := out.(events := out.events + [Plain(ACK, 0)]);
      }
      fastRtAckEn := false;
    }

    method WriteState(i: In)
      modifies this`out
      ensures out == old(out).(state := old(out).state + [AckState(i)],
                               setClose := old(out).setClose + if AckState(i) == TIME_WAIT then 1 else 0)
    {
      var next := i.state;
      if i.g.ackNumb == i.tx.nextByte {
        match i.state
        case SYN_RECEIVED => next := ESTABLISHED;
        case CLOSING => next := TIME_WAIT;
        case LAST_ACK => next := CLOSED;
        case _ =>
      }
      out := out.(state := out.state + [next]);
      if next == TIME_WAIT {
        out := out.(setClose := out.setClose + 1);
      }
    }

    /** Case 1 in a state that processes acknowledgements. */
    method ProcessAck(i: In)
      requires Receiving(i.state) && IsAck(i.g)
      modifies this
      ensures out == Append(old(out), Transition(i).out) && fastRtEn == Transition(i).fastRt
    {
      if i.g.ackNumb == i.tx.nextByte {
        out := out.(clearRetransmit := out.clearRetransmit + [true]);
      }
      var cong, count := CountAck(i);
      if (i.tx.prevAck <= i.g.ackNumb && i.g.ackNumb <= i.tx.nextByte) ||
         ((i.tx.prevAck <= i.g.ackNumb || i.g.ackNumb <= i.tx.nextByte) && i.tx.nextByte < i.tx.prevAck) {
        out := out.(txSar := out.txSar + [TxSarWrite(i.g.ackNumb, i.g.winSize, Some(cong), count)]);
      }
      StoreData(i);
      SetEvent(i.g.length != 0);
      WriteState(i);
    }

    /** Case 1 in any other state: a reset is sent and a payload dropped. */
    method RefuseAck(i: In)
      requires !Receiving(i.state) && IsAck(i.g)
      modifies this`out
      ensures out == Append(old(out), Transition(i).out)
    {
      if i.g.ackNumb == i.tx.nextByte {
        out := out.(clearRetransmit := out.clearRetransmit + [true]);
      }
      out := out.(events := out.events + [Reset(Low32(i.g.seqNumb + i.g.length))],
                  state := out.state + [i.state]);
      if i.g.length != 0 {
        out := out.(drops := out.drops + [true]);
      }
    }

    /** Case 2. */
    method ProcessSyn(i: In)
      modifies this`out
      ensures out == Append(old(out), OnSyn(i))
    {
      if i.state == CLOSED || i.state == SYN_SENT {
        out := out.(rxSar := out.rxSar + [RxSarWrite(Low32(i.g.seqNumb + 1), true)],
                    txSar := out.txSar + [TxSarWrite(0, i.g.winSize, None, 0)],
                    events := out.events + [Plain(SYN_ACK, 0)], state := out.state + [SYN_RECEIVED]);
      } else if i.state == SYN_RECEIVED {
        if i.g.seqNumb + 1 == i.rx.recvd {
          out := out.(events := out.events + [Plain(SYN_ACK, 1)], state := out.state + [i.state]);
        } else {
          out := out.(events := out.events + [Reset(Low32(i.g.seqNumb + 1))], state := out.state + [CLOSED]);
        }
      } else {
        out := out.(events := out.events + [Plain(ACK_NODELAY, 0)], state := out.state + [i.state]);
      }
    }

    /** Case 3. */
    method ProcessSynAck(i: In)
      modifies this`out
      ensures out == Append(old(out), OnSynAck(i))
    {
      out := out.(clearRetransmit := out.clearRetransmit + [i.g.ackNumb == i.tx.nextByte]);
      if i.state == SYN_SENT && i.g.ackNumb == i.tx.nextByte {
        out := out.(rxSar := out.rxSar + [RxSarWrite(Low32(i.g.seqNumb + 1), true)],
                    txSar := out.txSar + [TxSarWrite(i.g.ackNumb, i.g.winSize, Some(i.tx.congWindow), 0)],
                    events := out.events + [Plain(ACK_NODELAY, 0)], state := out.state + [ESTABLISHED],
                    opened_ := out.opened_ + [true]);
      } else if i.state == SYN_SENT {
        out := out.(events := out.events + [Reset(Low32(i.g.seqNumb + i.g.length + 1))],
                    state := out.state + [CLOSED]);
      } else {
        out := out.(events := out.events + [Plain(ACK_NODELAY, 0)], state := out.state + [i.state]);
      }
    }

    /** The state that a FIN in order leads to, with its event and timer. */
    method CloseByFin(i: In)
      requires TakesFin(i)
      modifies this`out
      ensures out == old(out).(
                state := old(out).state + [FinState(i)],
                setClose := old(out).setClose + if FinState(i) == TIME_WAIT then 1 else 0,
                events := old(out).events + [Plain(if i.state == ESTABLISHED then FIN else ACK, 0)])
    {
      if i.state == ESTABLISHED {
        out := out.(events := out.events + [Plain(FIN, 0)], state := out.state + [LAST_ACK]);
      } else {
        if i.g.ackNumb == i.tx.nextByte {
          out := out.(state := out.state + [TIME_WAIT], setClose := out.setClose + 1);
        } else {
          out := out.(state := out.state + [CLOSING]);
        }
        out := out.(events := out.events + [Plain(ACK, 0)]);
      }
    }

    /** Case 5. */
    method ProcessFin(i: In)
      modifies this`out
      ensures out == Append(old(out), OnFin(i))
    {
      out := out.(clearRetransmit := out.clearRetransmit + [i.g.ackNumb == i.tx.nextByte]);
      if (i.state == ESTABLISHED || i.state == FIN_WAIT_1 || i.state == FIN_WAIT_2) && i.rx.recvd == i.g.seqNumb {
        out := out.(txSar := out.txSar + [TxSarWrite(i.g.ackNumb, i.g.winSize, Some(i.tx.congWindow), i.tx.count)],
                    rxSar := out.rxSar + [RxSarWrite(Low32(i.g.seqNumb + i.g.length + 1), false)],
                    clearProbe := out.clearProbe + 1);
        if i.g.length != 0 {
          out := out.(cmds := out.cmds + [WriteCmd(Low16(i.g.seqNumb), i.g.length)],
                      notifications := out.notifications + [Notification(i.g.length, true)],
                      drops := out.drops + [false]);
        } else if i.state == ESTABLISHED {
          out := out.(notifications := out.notifications + [Notification(0, true)]);
        }
        CloseByFin(i);
      } else {
        out := out.(events := out.events + [Plain(ACK, 0)], state := out.state + [i.state]);
        if i.g.length != 0 {
          out := out.(drops := out.drops + [true]);
        }
      }
    }

    /** The default case. */
    method ProcessOther(i: In)
      modifies this`out
      ensures out == Append(old(out), OnOther(i))
    {
      var next := i.state;
      if i.g.rst {
        if i.state == SYN_SENT {
          if i.g.ackNumb == i.tx.nextByte {
            out := out.(opened_ := out.opened_ + [false], clearRetransmit := out.clearRetransmit + [true]);
            next := CLOSED;
          }
        } else if i.g.seqNumb == i.rx.recvd {
          out := out.(notifications := out.notifications + [Notification(0, true)],
                      clearRetransmit := out.clearRetransmit + [true]);
          next := CLOSED;
        }
      }
      out := out.(state := out.state + [next]);
    }

    /** One step of case TRANSITION. */
    method Step(i: In)
      modifies this
      ensures out == Append(old(out), Transition(i).out)
      ensures IsAck(i.g) && Receiving(i.state) ==> fastRtEn == Transition(i).fastRt
    {
      match ControlBits(i.g)
      case 1 => if Receiving(i.state) { ProcessAck(i); } else { RefuseAck(i); }
      case 2 => ProcessSyn(i);
      case 3 => ProcessSynAck(i);
      case 5 => ProcessFin(i);
      case _ => ProcessOther(i);
    }
  }
}
