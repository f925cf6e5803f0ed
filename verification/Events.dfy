/** The path of an event to the TX engine: event_engine.cpp, which arbitrates and counts what
    is under way in 8-bit counters, and ack_delay.cpp, which holds acknowledgements back.
    The FIFO between them has four places and the one that counts its reads two (toe.cpp). */
module Events {
  import opened Toe

  /** An event with what `hasSessionID` says of it, which counts for resets only. */
  datatype Signal = Signal(kind: EventType, id: SessionId, hasSession: bool)

  /** A reset for an unknown connection. */
  predicate Foreign(e: Signal) {
    e.kind == RST && !e.hasSession
  }

  /** toe.hpp, `rstEvent`: for want of a session it carries session 0. */
  type Ev = e: Signal | Foreign(e) ==> e.id == 0 witness Signal(ACK, 0, true)

  function Own(kind: EventType, id: SessionId): Ev {
    Signal(kind, id, true)
  }

  const FOREIGN_RESET: Ev := Signal(RST, 0, false)

  /** What `ack_delay` did, in order: an acknowledgement was absorbed, or an event sent. */
  datatype Note = Absorbed(id: SessionId) | Sent(ev: Ev)

  type Table = t: seq<nat> | |t| == MAX_SESSIONS witness seq(MAX_SESSIONS, _ => 0)

  /** `event_engine`: the three sources, and the four counters. */
  datatype Engine = Engine(
    rx: seq<Ev>, timer: seq<Ev>, app: seq<Ev>,
    written: Byte, adRead: Byte, adWritten: Byte, txRead: Byte)

  /** `ack_delay` with its table, its scan pointer and what it did. */
  datatype Delay = Delay(table: Table, pointer: nat, log: seq<Note>)

  /** The FIFO of events, and those of read and write marks, of which only the number counts. */
  datatype Sys = Sys(
    engine: Engine, delay: Delay, fifo: seq<Ev>, reads_: nat, writes: nat, txReads: nat)

  const FIFO_DEPTH: nat := 4
  const COUNT_DEPTH: nat := 2

  /** toe.hpp: the delay of an acknowledgement in ticks of the scan. */
  const TIME_64US: nat := 1

  datatype Action =
    | EngineTick
    | DelayTick(outRoom: bool, writeRoom: bool)
    | TxEngineReads
    | RxEvent(ev: Ev)
    | TimerEvent(ev: Ev)
    | AppEvent(ev: Ev)

  // ---------------------------------------------------------------- event_engine

  /** The source that a tick forwards an event from, if any. */
  datatype Source = FromRx | FromTimer | FromApp | Nobody

  function Chosen(s: Sys): (c: Source)
    ensures c == FromRx ==> s.engine.rx != []
    ensures c == FromTimer ==> s.engine.timer != []
    ensures c == FromApp ==> s.engine.app != []
  {
    var e, room := s.engine, |s.fifo| < FIFO_DEPTH;
    if e.rx != [] && room then FromRx
    else if e.written == e.adRead && e.adWritten == e.txRead then
      if e.timer != [] && room then FromTimer
      else if e.app != [] && room then FromApp
      else Nobody
    else Nobody
  }

  /** An 8-bit counter. */
  function Up(n: Byte): Byte {
    (n + 1) % 0x100
  }

  function Forward(s: Sys): Sys {
    var e := s.engine;
    match Chosen(s)
    case FromRx => s.(engine := e.(rx := e.rx[1..], written := Up(e.written)), fifo := s.fifo + [e.rx[0]])
    case FromTimer => s.(engine := e.(timer := e.timer[1..], written := Up(e.written)), fifo := s.fifo + [e.timer[0]])
    case FromApp => s.(engine := e.(app := e.app[1..], written := Up(e.written)), fifo := s.fifo + [e.app[0]])
    case Nobody => s
  }

  /** The marks are counted in the same tick, after the event is forwarded. */
  function Count(s: Sys): Sys {
    var e := s.engine;
    var a := if s.reads_ > 0 then e.(adRead := Up(e.adRead)) else e;
    var b := if s.writes > 0 then a.(adWritten := Up(a.adWritten)) else a;
    var c := if s.txReads > 0 then b.(txRead := Up(b.txRead)) else b;
    s.(engine := c, reads_ := if s.reads_ > 0 then s.reads_ - 1 else 0,
       writes := if s.writes > 0 then s.writes - 1 else 0, txReads := if s.txReads > 0 then s.txReads - 1 else 0)
  }

  function EngineStep(s: Sys): Sys {
    Count(Forward(s))
  }

  // ---------------------------------------------------------------- ack_delay

  /** An event: an acknowledgement is absorbed, anything else goes out and settles what is
      owed to its session. */
  function Take(d: Delay, ev: Ev): Delay {
    if ev.kind == ACK then
      d.(table := if d.table[ev.id] == 0 then d.table[ev.id := TIME_64US] else d.table,
         log := d.log + [Absorbed(ev.id)])
    else d.(table := d.table[ev.id := 0], log := d.log + [Sent(ev)])
  }

  function NextPointer(p: nat): nat {
    if p + 1 == MAX_SESSIONS then 0 else p + 1
  }

  /** A tick without an event: one line of the table counts down, or its acknowledgement
      leaves. */
  function Scan(d: Delay, room: bool): Delay {
    var p := d.pointer;
    var r := d.(pointer := NextPointer(p));
    if p >= MAX_SESSIONS then r
    else if d.table[p] > 1 then r.(table := d.table[p := d.table[p] - 1])
    else if d.table[p] == 1 && room then
      r.(table := d.table[p := 0], log := d.log + [Sent(Own(ACK, p))])
    else r
  }

  predicate Reads(s: Sys, outRoom: bool) {
    s.fifo != [] && outRoom && s.reads_ < COUNT_DEPTH
  }

  function DelayStep(s: Sys, outRoom: bool, writeRoom: bool): Sys {
    if Reads(s, outRoom) then
      s.(fifo := s.fifo[1..], reads_ := s.reads_ + 1, delay := Take(s.delay, s.fifo[0]),
         writes := if s.fifo[0].kind == ACK then s.writes else s.writes + 1)
    else
      var d := Scan(s.delay, outRoom && writeRoom);
      s.(delay := d, writes := if |d.log| > |s.delay.log| then s.writes + 1 else s.writes)
  }

  function Step(s: Sys, a: Action): Sys {
    match a
    case EngineTick => EngineStep(s)
    case DelayTick(outRoom, writeRoom) => DelayStep(s, outRoom, writeRoom)
    case TxEngineReads => s.(txReads := s.txReads + 1)
    case RxEvent(ev) => s.(engine := s.engine.(rx := s.engine.rx + [ev]))
    case TimerEvent(ev) => s.(engine := s.engine.(timer := s.engine.timer + [ev]))
    case AppEvent(ev) => s.(engine := s.engine.(app := s.engine.app + [ev]))
  }

  function Run(s: Sys, actions: seq<Action>): Sys
    decreases |actions|
  {
    if actions == [] then s else Run(Step(s, actions[0]), actions[1..])
  }

  predicate Init(s: Sys) {
    && s.engine == Engine([], [], [], 0, 0, 0, 0)
    && (forall i :: 0 <= i < MAX_SESSIONS ==> s.delay.table[i] == 0) && s.delay.pointer == 0 && s.delay.log == []
    && s.fifo == [] && s.reads_ == 0 && s.writes == 0 && s.txReads == 0
  }

  // ---------------------------------------------------------------- the invariant

  /** The counters differ by what is in the two FIFOs, and that is far below 256. */
  predicate CountInv(s: Sys) {
    && |s.fifo| <= FIFO_DEPTH && s.reads_ <= COUNT_DEPTH
    && (s.engine.written - s.engine.adRead) % 0x100 == |s.fifo| + s.reads_
  }

  /** Whether an acknowledgement was absorbed since the last event sent for the session. */
  predicate Owed(log: seq<Note>, id: SessionId) {
    log != [] &&
    match log[|log| - 1]
    case Absorbed(i) => i == id || Owed(log[..|log| - 1], id)
    case Sent(ev) => ev.id != id && Owed(log[..|log| - 1], id)
  }

  predicate DelayInv(d: Delay) {
    d.pointer < MAX_SESSIONS && forall i: SessionId :: d.table[i] == if Owed(d.log, i) then 1 else 0
  }

  predicate Inv(s: Sys) {
    CountInv(s) && DelayInv(s.delay)
  }

  lemma OwedLast(log: seq<Note>, n: Note, id: SessionId)
    ensures Owed(log + [n], id) == match n
            case Absorbed(i) => i == id || Owed(log, id)
            case Sent(ev) => ev.id != id && Owed(log, id)
  {
    assert (log + [n])[..|log|] == log;
  }

  lemma TakeInv(d: Delay, ev: Ev)
    requires DelayInv(d)
    ensures DelayInv(Take(d, ev))
  {
    var n := if ev.kind == ACK then Absorbed(ev.id) else Sent(ev);
    forall i: SessionId ensures Take(d, ev).table[i] == if Owed(Take(d, ev).log, i) then 1 else 0 {
      OwedLast(d.log, n, i);
    }
  }

  lemma ScanInv(d: Delay, room: bool)
    requires DelayInv(d)
    ensures DelayInv(Scan(d, room))
  {
    var r := Scan(d, room);
    forall i: SessionId ensures r.table[i] == if Owed(r.log, i) then 1 else 0 {
      OwedLast(d.log, Sent(Own(ACK, d.pointer)), i);
    }
  }

  lemma UpDiff(a: Byte, b: Byte, n: int)
    requires (a - b) % 0x100 == n
    ensures n < 0xFF ==> (Up(a) - b) % 0x100 == n + 1
    ensures n > 0 ==> (a - Up(b)) % 0x100 == n - 1
  {
  }

  lemma ForwardInv(s: Sys)
    requires CountInv(s)
    ensures CountInv(Forward(s)) && Forward(s).delay == s.delay && Forward(s).reads_ == s.reads_
  {
    UpDiff(s.engine.written, s.engine.adRead, |s.fifo| + s.reads_);
  }

  lemma EngineInv(s: Sys)
    requires CountInv(s)
    ensures CountInv(EngineStep(s)) && EngineStep(s).delay == s.delay
  {
    ForwardInv(s);
    var r := Forward(s);
    UpDiff(r.engine.written, r.engine.adRead, |r.fifo| + r.reads_);
  }

  lemma StepInv(s: Sys, a: Action)
    requires Inv(s)
    ensures Inv(Step(s, a))
  {
    match a
    case EngineTick => EngineInv(s);
    case DelayTick(outRoom, writeRoom) =>
      if Reads(s, outRoom) {
        TakeInv(s.delay, s.fifo[0]);
      } else {
        ScanInv(s.delay, outRoom && writeRoom);
      }
    case _ =>
  }

  lemma InitInv(s: Sys)
    requires Init(s)
    ensures Inv(s)
  {
  }

  lemma {:induction false} RunInv(s: Sys, actions: seq<Action>)
    requires Inv(s)
    ensures Inv(Run(s, actions))
    decreases |actions|
  {
    if actions != [] {
      StepInv(s, actions[0]);
      RunInv(Step(s, actions[0]), actions[1..]);
    }
  }

  // ---------------------------------------------------------------- over whole runs

  /** In spite of the 8-bit counters, an event of a timer or of the application is forwarded
      only when the event FIFO and the FIFO of read marks are both empty, so every event
      forwarded before it was taken by `ack_delay` and counted. */
  lemma LowPriorityWaits(init: Sys, actions: seq<Action>)
    requires Init(init)
    ensures var s := Run(init, actions);
            Chosen(s) == FromTimer || Chosen(s) == FromApp ==> s.fifo == [] && s.reads_ == 0 && s.engine.rx == []
  {
    InitInv(init);
    RunInv(init, actions);
  }

  /** The table has a session's bit exactly while an acknowledgement is owed to it. */
  lemma TableIsOwed(init: Sys, actions: seq<Action>, id: SessionId)
    requires Init(init)
    ensures var d := Run(init, actions).delay; d.table[id] != 0 <==> Owed(d.log, id)
  {
    InitInv(init);
    RunInv(init, actions);
  }

  // ---------------------------------------------------------------- owed acknowledgements leave

  /** How far the scan pointer is from a session. */
  function Distance(pointer: nat, id: SessionId): int {
    if pointer <= id then id - pointer else id + MAX_SESSIONS - pointer
  }

  /** A tick of `ack_delay` in which it reads no event. */
  predicate IdleTick(s: Sys, a: Action) {
    a.DelayTick? && !Reads(s, a.outRoom)
  }

  function IdleTicks(s: Sys, actions: seq<Action>): nat
    decreases |actions|
  {
    if actions == [] then 0
    else (if IdleTick(s, actions[0]) then 1 else 0) + IdleTicks(Step(s, actions[0]), actions[1..])
  }

  /** Every idle tick finds room in the outputs. */
  predicate Roomy(s: Sys, actions: seq<Action>)
    decreases |actions|
  {
    actions == [] ||
    (&& (IdleTick(s, actions[0]) ==> actions[0].outRoom && actions[0].writeRoom)
     && Roomy(Step(s, actions[0]), actions[1..]))
  }

  predicate SentFor(n: Note, id: SessionId) {
    n.Sent? && n.ev.id == id
  }

  /** A step adds at most one note, and settles what is owed only by an event that it sends. */
  lemma StepOwes(s: Sys, a: Action, id: SessionId)
    requires Inv(s) && Owed(s.delay.log, id)
    ensures var log, after := s.delay.log, Step(s, a).delay.log;
            log <= after && (Owed(after, id) || (|after| == |log| + 1 && SentFor(after[|log|], id)))
  {
    if a.DelayTick? {
      if Reads(s, a.outRoom) {
        var ev := s.fifo[0];
        OwedLast(s.delay.log, if ev.kind == ACK then Absorbed(ev.id) else Sent(ev), id);
      } else {
        OwedLast(s.delay.log, Sent(Own(ACK, s.delay.pointer)), id);
      }
    } else if a == EngineTick {
      EngineInv(s);
    }
  }

  /** While an acknowledgement stays owed, an idle tick brings the scan nearer and no other
      step moves it. */
  lemma StepNears(s: Sys, a: Action, id: SessionId)
    requires Inv(s) && Owed(s.delay.log, id) && Owed(Step(s, a).delay.log, id)
    requires IdleTick(s, a) ==> a.outRoom && a.writeRoom
    ensures var p, q := s.delay.pointer, Step(s, a).delay.pointer;
            && p < MAX_SESSIONS && q < MAX_SESSIONS
            && Distance(p, id) == Distance(q, id) + if IdleTick(s, a) then 1 else 0
  {
    if IdleTick(s, a) {
      assert s.delay.table[id] == 1;
      OwedLast(s.delay.log, Sent(Own(ACK, id)), id);
    } else if a == EngineTick {
      EngineInv(s);
    }
  }

  lemma {:induction false} LogGrows(s: Sys, actions: seq<Action>)
    ensures s.delay.log <= Run(s, actions).delay.log
    decreases |actions|
  {
    if actions != [] {
      LogGrows(Step(s, actions[0]), actions[1..]);
      StepGrows(s, actions[0]);
    }
  }

  lemma StepGrows(s: Sys, a: Action)
    ensures s.delay.log <= Step(s, a).delay.log
  {
  }

  lemma {:induction false} OwedAckLeaves(s: Sys, actions: seq<Action>, id: SessionId) returns (k: nat)
    requires Inv(s) && Owed(s.delay.log, id) && Roomy(s, actions)
    requires IdleTicks(s, actions) > Distance(s.delay.pointer, id)
    ensures var log := Run(s, actions).delay.log;
            s.delay.log <= log && |s.delay.log| <= k < |log| && SentFor(log[k], id)
    decreases |actions|
  {
    var a, rest := actions[0], actions[1..];
    var r := Step(s, a);
    StepInv(s, a);
    StepOwes(s, a, id);
    LogGrows(r, rest);
    if Owed(r.delay.log, id) {
      StepNears(s, a, id);
      k := OwedAckLeaves(r, rest, id);
    } else {
      k := |s.delay.log|;
    }
  }

  /** Liveness: whatever else happens in between, an owed acknowledgement leaves, by itself or
      with another event for its session, before more idle ticks have passed than the scan
      needs to reach the session, which are fewer than MAX_SESSIONS, if these find room. */
  lemma OwedAckLeavesSoon(init: Sys, before: seq<Action>, actions: seq<Action>, id: SessionId) returns (k: nat)
    requires Init(init) && Owed(Run(init, before).delay.log, id) && Roomy(Run(init, before), actions)
    requires IdleTicks(Run(init, before), actions) > Distance(Run(init, before).delay.pointer, id)
    ensures var s := Run(init, before);
            var log := Run(s, actions).delay.log;
            s.delay.log <= log && |s.delay.log| <= k < |log| && SentFor(log[k], id)
  {
    InitInv(init);
    RunInv(init, before);
    k := OwedAckLeaves(Run(init, before), actions, id);
  }

  // ---------------------------------------------------------------- whose event settles it

  /** The event is one of the session. */
  predicate Belongs(ev: Ev, id: SessionId) {
    ev.id == id && !Foreign(ev)
  }

  /** The step settles what is owed to the session with an event that is not its own. */
  predicate SettledByOther(s: Sys, a: Action, id: SessionId) {
    var log, after := s.delay.log, Step(s, a).delay.log;
    && Owed(log, id) && !Owed(after, id)
    && |after| == |log| + 1 && after[|log|].Sent? && !Belongs(after[|log|].ev, id)
  }

  /** What is owed to a session is settled by an event of another connection if and only if
      that event is a reset without a session and the session is number 0. */
  lemma ForeignResetSettles(init: Sys, actions: seq<Action>, a: Action, id: SessionId)
    requires Init(init) && Owed(Run(init, actions).delay.log, id)
    ensures var s := Run(init, actions);
            SettledByOther(s, a, id) <==> a.DelayTick? && Reads(s, a.outRoom) && Foreign(s.fifo[0]) && id == 0
  {
    InitInv(init);
    RunInv(init, actions);
    var s := Run(init, actions);
    if a.DelayTick? {
      if Reads(s, a.outRoom) {
        var ev := s.fifo[0];
        OwedLast(s.delay.log, if ev.kind == ACK then Absorbed(ev.id) else Sent(ev), id);
      } else {
        OwedLast(s.delay.log, Sent(Own(ACK, s.delay.pointer)), id);
      }
    } else if a == EngineTick {
      EngineInv(s);
    }
  }

  /** The event goes through the arbiter and is taken by `ack_delay`. */
  function Through(ev: Ev): seq<Action> {
    [RxEvent(ev)] + ([EngineTick] + [DelayTick(true, true)])
  }

  lemma ThreeSteps(s: Sys, a: Action, b: Action, c: Action)
    ensures Run(s, [a] + ([b] + [c])) == Step(Step(Step(s, a), b), c)
  {
    assert ([a] + ([b] + [c]))[1..] == [b] + [c] && ([b] + [c])[1..] == [c] && [c][1..] == [];
    var s1, s2 := Step(s, a), Step(Step(s, a), b);
    assert Run(s1, [b] + [c]) == Run(s2, [c]) == Run(Step(s2, c), []);
  }

  lemma GoesThrough(s: Sys, ev: Ev)
    requires s.engine.rx == [] && s.fifo == [] && s.reads_ < COUNT_DEPTH
    ensures var r := Run(s, Through(ev));
            r.delay == Take(s.delay, ev) && r.engine.rx == [] && r.fifo == [] && r.reads_ <= 1
  {
    var s1 := s.(engine := s.engine.(rx := [ev]));
    assert Step(s, RxEvent(ev)) == s1;
    var s2 := Step(s1, EngineTick);
    assert Forward(s1).fifo == [ev] && s2.fifo == [ev] && s2.engine.rx == [] && s2.delay == s.delay;
    ThreeSteps(s, RxEvent(ev), EngineTick, DelayTick(true, true));
  }

  lemma {:induction false} RunConcat(s: Sys, a: seq<Action>, b: seq<Action>)
    ensures Run(s, a + b) == Run(Run(s, a), b)
    decreases |a|
  {
    if a == [] {
      assert a + b == b;
    } else {
      assert (a + b)[1..] == a[1..] + b;
      RunConcat(Step(s, a[0]), a[1..], b);
    }
  }

  /** It does happen: session 0 is owed an acknowledgement, a reset for an unknown connection
      follows, and nothing is owed any more although nothing was sent for session 0. */
  lemma ForeignResetRun(init: Sys)
    requires Init(init)
    ensures var run := Through(Own(ACK, 0));
            && Owed(Run(init, run).delay.log, 0) && !Owed(Run(init, run + Through(FOREIGN_RESET)).delay.log, 0)
            && Run(init, run + Through(FOREIGN_RESET)).delay.log == [Absorbed(0), Sent(FOREIGN_RESET)]
  {
    var run := Through(Own(ACK, 0));
    GoesThrough(init, Own(ACK, 0));
    OwedLast([], Absorbed(0), 0);
    assert [] + [Absorbed(0)] == [Absorbed(0)];
    GoesThrough(Run(init, run), FOREIGN_RESET);
    RunConcat(init, run, Through(FOREIGN_RESET));
    OwedLast([Absorbed(0)], Sent(FOREIGN_RESET), 0);
    assert [Absorbed(0)] + [Sent(FOREIGN_RESET)] == [Absorbed(0), Sent(FOREIGN_RESET)];
  }

  // ---------------------------------------------------------------- the hardware's form

  /** `ack_delay` with its table in place. */
  class AckDelay {
    const ackTable: array<nat>
    var adPointer: nat
    ghost var log: seq<Note>

    ghost predicate Valid() {
      ackTable.Length == MAX_SESSIONS
    }

    ghost function Abs(): Delay
      reads this, ackTable
      requires Valid()
    {
      Delay(ackTable[..], adPointer, log)
    }

    constructor ()
      ensures Valid() && DelayInv(Abs()) && log == []
    {
      ackTable := new nat[MAX_SESSIONS](_ => 0);
      adPointer, log := 0, [];
    }

    method Accept(ev: Ev) returns (output: Option<Ev>)
      requires Valid()
      modifies this`log, ackTable
      ensures Abs() == Take(old(Abs()), ev) && output == if ev.kind == ACK then None else Some(ev)
    {
      if ev.kind == ACK {
        if ackTable[ev.id] == 0 {
          ackTable[ev.id] := TIME_64US;
        }
        output, log := None, log + [Absorbed(ev.id)];
      } else {
        ackTable[ev.id] := 0;
        output, log := Some(ev), log + [Sent(ev)];
      }
    }

    method Tick(room: bool) returns (output: Option<Ev>)
      requires Valid() && adPointer < MAX_SESSIONS
      modifies this, ackTable
      ensures Abs() == Scan(old(Abs()), room) && adPointer < MAX_SESSIONS
      ensures output == if |log| > |old(log)| then Some(Own(ACK, old(adPointer))) else None
    {
      output := None;
      if ackTable[adPointer] > 1 {
        ackTable[adPointer] := ackTable[adPointer] - 1;
      } else if ackTable[adPointer] == 1 && room {
        output, log := Some(Own(ACK, adPointer)), log + [Sent(Own(ACK, adPointer))];
        ackTable[adPointer] := 0;
      }
      adPointer := adPointer + 1;
      if adPointer == MAX_SESSIONS {
        adPointer := 0;
      }
    }
  }

  /** `event_engine` with its counters, and the FIFOs around it. */
  class EventEngine {
    var sources: Engine
    var fifo: seq<Ev>
    var ackDelayFifoReadCount: nat
    var ackDelayFifoWriteCount: nat
    var txEngFifoReadCount: nat

    ghost function Abs(d: Delay): Sys
      reads this
    {
      Sys(sources, d, fifo, ackDelayFifoReadCount, ackDelayFifoWriteCount, txEngFifoReadCount)
    }

    constructor ()
      ensures forall d :: CountInv(Abs(d))
    {
      sources, fifo := Engine([], [], [], 0, 0, 0, 0), [];
      ackDelayFifoReadCount, ackDelayFifoWriteCount, txEngFifoReadCount := 0, 0, 0;
    }

    method Arbitrate(ghost d: Delay)
      modifies this`sources, this`fifo
      ensures Abs(d) == Forward(old(Abs(d)))
    {
      if sources.rx != [] && |fifo| < FIFO_DEPTH {
        fifo := fifo + [sources.rx[0]];
        sources := sources.(rx := sources.rx[1..], written := (sources.written + 1) % 0x100);
      } else if sources.written == sources.adRead && sources.adWritten == sources.txRead {
        if sources.timer != [] && |fifo| < FIFO_DEPTH {
          fifo := fifo + [sources.timer[0]];
          sources := sources.(timer := sources.timer[1..], written := (sources.written + 1) % 0x100);
        } else if sources.app != [] && |fifo| < FIFO_DEPTH {
          fifo := fifo + [sources.app[0]];
          sources := sources.(app := sources.app[1..], written := (sources.written + 1) % 0x100);
        }
      }
    }

    method Cycle(ghost d: Delay)
      modifies this
      ensures Abs(d) == EngineStep(old(Abs(d)))
    {
      Arbitrate(d);
      if ackDelayFifoReadCount > 0 {
        ackDelayFifoReadCount := ackDelayFifoReadCount - 1;
        sources := sources.(adRead := (sources.adRead + 1) % 0x100);
      }
      if ackDelayFifoWriteCount > 0 {
        ackDelayFifoWriteCount := ackDelayFifoWriteCount - 1;
        sources := sources.(adWritten := (sources.adWritten + 1) % 0x100);
      }
      if txEngFifoReadCount > 0 {
        txEngFifoReadCount := txEngFifoReadCount - 1;
        sources := sources.(txRead := (sources.txRead + 1) % 0x100);
      }
    }
  }
}
