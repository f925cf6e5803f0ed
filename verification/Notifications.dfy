/** `rxAppNotificationDelayer` of rx_engine.cpp: a notification of data waits until the data is
    written to memory, and one without data, of a close or a reset, does not wait. */
module Notifications {
  import opened Toe
  import RxFsm

  type Note = RxFsm.Notification

  /** The FIFOs, the notification that waits for its second status, and the 5-bit count of those
      that wait; `heard` and `told` are what was read and what was passed on. Every status is
      okay. */
  datatype Delayer = Delayer(
    statuses: nat, notesIn: seq<Note>, doubleAccess: seq<bool>, buffer: seq<Note>,
    half: Option<Note>, count: nat, heard: seq<Note>, told: seq<Note>)

  /** What is read and not passed on. */
  function Waiting(s: Delayer): seq<Note> {
    (if s.half.Some? then [s.half.value] else []) + s.buffer
  }

  /** A status: of the second half of a write, or of the oldest write that waits. */
  function TakeStatus(s: Delayer): Delayer
    requires s.statuses > 0 && (s.half.Some? || (s.buffer != [] && s.doubleAccess != []))
  {
    var r := s.(statuses := s.statuses - 1);
    if s.half.Some? then r.(half := None, count := (s.count - 1) % 32, told := s.told + [s.half.value])
    else
      var q := r.(buffer := s.buffer[1..], doubleAccess := s.doubleAccess[1..]);
      if s.doubleAccess[0] then q.(half := Some(s.buffer[0]))
      else q.(count := (s.count - 1) % 32, told := s.told + [s.buffer[0]])
  }

  function TakeNote(s: Delayer): Delayer
    requires s.notesIn != []
  {
    var n := s.notesIn[0];
    var r := s.(notesIn := s.notesIn[1..], heard := s.heard + [n]);
    if n.length != 0 then r.(buffer := s.buffer + [n], count := (s.count + 1) % 32)
    else r.(told := s.told + [n])
  }

  datatype Turn = Status | Read | Stall

  /** What the cycle does. */
  function TurnOf(s: Delayer): Turn {
    if s.half.Some? then if s.statuses > 0 then Status else Stall
    else if s.statuses > 0 && s.buffer != [] && s.doubleAccess != [] then Status
    else if s.notesIn != [] && s.count < 31 && |s.buffer| < 32 then Read
    else Stall
  }

  /** One clock cycle with room in the output; without it nothing is read or written. */
  function Cycle(s: Delayer): Delayer {
    match TurnOf(s)
    case Status => TakeStatus(s)
    case Read => TakeNote(s)
    case Stall => s
  }

  /** Between two cycles the memory and `rxTcpFSM` add to the inputs. */
  datatype Action = Tick | Written | Accessed(double: bool) | Sent(note: Note)

  function Step(s: Delayer, a: Action): Delayer {
    match a
    case Tick => Cycle(s)
    case Written => s.(statuses := s.statuses + 1)
    case Accessed(double) => s.(doubleAccess := s.doubleAccess + [double])
    case Sent(note) => s.(notesIn := s.notesIn + [note])
  }

  function Run(s: Delayer, actions: seq<Action>): Delayer
    decreases |actions|
  {
    if actions == [] then s else Run(Step(s, actions[0]), actions[1..])
  }

  const START := Delayer(0, [], [], [], None, 0, [], [])

  /** The count is that of the notifications that wait, all of which have data. */
  predicate Inv(s: Delayer) {
    && s.count == |Waiting(s)| <= 31 && |s.told| + |Waiting(s)| == |s.heard|
    && forall n <- Waiting(s) :: n.length != 0
  }

  lemma StatusKeeps(s: Delayer)
    requires Inv(s) && TurnOf(s) == Status
    ensures Inv(Cycle(s)) && Cycle(s).told + Waiting(Cycle(s)) == s.told + Waiting(s) && Cycle(s).heard == s.heard
  {
    var r := Cycle(s);
    if s.half.Some? {
      assert Waiting(s) == [s.half.value] + Waiting(r);
    } else {
      assert Waiting(s) == [s.buffer[0]] + s.buffer[1..];
      assert s.doubleAccess[0] ==> Waiting(r) == Waiting(s);
      assert !s.doubleAccess[0] ==> Waiting(r) == s.buffer[1..];
    }
  }

  lemma ReadKeeps(s: Delayer)
    requires Inv(s) && TurnOf(s) == Read
    ensures var r, n := Cycle(s), s.notesIn[0];
            && Inv(r) && r.heard == s.heard + [n]
            && if n.length != 0 then r.told == s.told && Waiting(r) == Waiting(s) + [n]
               else r.told == s.told + [n] && Waiting(r) == Waiting(s)
  {
    var r, n := Cycle(s), s.notesIn[0];
    if n.length != 0 { assert Waiting(r) == Waiting(s) + [n]; }
  }

  lemma StepInv(s: Delayer, a: Action)
    requires Inv(s)
    ensures Inv(Step(s, a))
  {
    if a == Tick {
      match TurnOf(s)
      case Status => StatusKeeps(s);
      case Read => ReadKeeps(s);
      case Stall =>
    }
  }

  /** A notification without data is read while others wait. */
  predicate Overtakes(s: Delayer, a: Action) {
    a == Tick && TurnOf(s) == Read && s.notesIn[0].length == 0 && Waiting(s) != []
  }

  predicate NoneOvertakes(s: Delayer, actions: seq<Action>)
    decreases |actions|
  {
    actions == [] || (!Overtakes(s, actions[0]) && NoneOvertakes(Step(s, actions[0]), actions[1..]))
  }

  /** What is passed on, and then what waits, is what was read. */
  predicate InOrder(s: Delayer) {
    s.told + Waiting(s) == s.heard
  }

  lemma SameEnd(a: seq<Note>, w: seq<Note>, h: seq<Note>, n: Note)
    requires |a| + |w| == |h|
    ensures a + (w + [n]) == h + [n] <==> a + w == h
    ensures w == [] ==> (a + [n] + w == h + [n] <==> a + w == h)
    ensures w != [] && w[|w| - 1] != n ==> a + [n] + w != h + [n]
  {
    assert a + (w + [n]) == (a + w) + [n];
    assert ((a + w) + [n])[..|h|] == a + w && (h + [n])[..|h|] == h;
    if w == [] { assert a + [n] + w == a + [n] && a + w == a; }
    if w != [] && a + [n] + w == h + [n] {
      assert (a + [n] + w)[|h|] == w[|w| - 1] && (h + [n])[|h|] == n;
    }
  }

  lemma StepOrder(s: Delayer, a: Action)
    requires Inv(s)
    ensures InOrder(Step(s, a)) <==> InOrder(s) && !Overtakes(s, a)
  {
    if a == Tick && TurnOf(s) == Status {
      StatusKeeps(s);
    } else if a == Tick && TurnOf(s) == Read {
      ReadKeeps(s);
      var w := Waiting(s);
      SameEnd(s.told, w, s.heard, s.notesIn[0]);
      if w != [] { assert w[|w| - 1] in w; }
    } else {
      assert Waiting(Step(s, a)) == Waiting(s);
    }
  }

  lemma {:induction false} OrderFrom(s: Delayer, actions: seq<Action>)
    requires Inv(s)
    ensures InOrder(Run(s, actions)) <==> InOrder(s) && NoneOvertakes(s, actions)
    ensures Inv(Run(s, actions))
    decreases |actions|
  {
    if actions != [] {
      StepInv(s, actions[0]);
      StepOrder(s, actions[0]);
      OrderFrom(Step(s, actions[0]), actions[1..]);
    }
  }

  /** The application hears of data and closes in the order of the segments if and only if no
      close or reset without data is read while data that came before it is being written. */
  lemma OrderIff(actions: seq<Action>)
    ensures var r := Run(START, actions);
            && (InOrder(r) <==> NoneOvertakes(START, actions))
            && (Waiting(r) == [] ==> (r.told == r.heard <==> NoneOvertakes(START, actions)))
  {
    OrderFrom(START, actions);
    var r := Run(START, actions);
    assert Waiting(r) == [] ==> r.told + Waiting(r) == r.told;
  }

  /** It happens: data is read, and a close behind it is passed on first. */
  lemma CloseOvertakes(data: Note)
    requires data.length != 0
    ensures var close := RxFsm.Notification(0, true);
            var r := Run(START, [Sent(data)] + ([Tick] + ([Sent(close)] + [Tick])));
            r.heard == [data] + [close] && r.told == [close] && Waiting(r) == [data]
  {
    var close := RxFsm.Notification(0, true);
    var s1 := START.(notesIn := [data]);
    var s2 := START.(buffer := [data], count := 1, heard := [data]);
    var s3 := s2.(notesIn := [close]);
    var s4 := s2.(heard := [data] + [close], told := [close]);
    assert Step(START, Sent(data)) == s1 && Step(s1, Tick) == s2 && Step(s2, Sent(close)) == s3 && Step(s3, Tick) == s4;
    RunFirst(START, Sent(data), [Tick] + ([Sent(close)] + [Tick]));
    RunFirst(s1, Tick, [Sent(close)] + [Tick]);
    RunFirst(s2, Sent(close), [Tick]);
    RunFirst(s3, Tick, []);
    assert [Tick] + [] == [Tick];
  }

  lemma RunFirst(s: Delayer, a: Action, rest: seq<Action>)
    ensures Run(s, [a] + rest) == Run(Step(s, a), rest)
  {
    assert ([a] + rest)[1..] == rest;
  }

  lemma {:induction false} OrderOfData(s: Delayer, actions: seq<Action>)
    requires Inv(s) && Data(s.told) + Waiting(s) == Data(s.heard)
    ensures var r := Run(s, actions); Data(r.told) + Waiting(r) == Data(r.heard)
    decreases |actions|
  {
    if actions != [] {
      StepInv(s, actions[0]);
      StepData(s, actions[0]);
      OrderOfData(Step(s, actions[0]), actions[1..]);
    }
  }

  /** The notifications of data. */
  function Data(ns: seq<Note>): seq<Note> {
    if ns == [] then []
    else Data(ns[..|ns| - 1]) + if ns[|ns| - 1].length != 0 then [ns[|ns| - 1]] else []
  }

  lemma DataPush(ns: seq<Note>, n: Note)
    ensures Data(ns + [n]) == Data(ns) + if n.length != 0 then [n] else []
  {
    assert (ns + [n])[..|ns|] == ns;
  }

  lemma StepData(s: Delayer, a: Action)
    requires Inv(s) && Data(s.told) + Waiting(s) == Data(s.heard)
    ensures var r := Step(s, a); Data(r.told) + Waiting(r) == Data(r.heard)
  {
    var r := Step(s, a);
    if a == Tick && TurnOf(s) == Status {
      StatusData(s);
    } else if a == Tick && TurnOf(s) == Read {
      ReadKeeps(s);
      DataPush(s.heard, s.notesIn[0]);
      DataPush(s.told, s.notesIn[0]);
      assert Data(s.told) + (Waiting(s) + [s.notesIn[0]]) == Data(s.told) + Waiting(s) + [s.notesIn[0]];
    } else {
      assert Waiting(r) == Waiting(s);
    }
  }

  lemma StatusData(s: Delayer)
    requires Inv(s) && TurnOf(s) == Status && Data(s.told) + Waiting(s) == Data(s.heard)
    ensures var r := Cycle(s); Data(r.told) + Waiting(r) == Data(r.heard)
  {
    var r := Cycle(s);
    if !s.half.Some? && s.doubleAccess[0] {
      assert Waiting(r) == Waiting(s);
    } else {
      var n := Waiting(s)[0];
      assert n in Waiting(s) && Waiting(s) == [n] + Waiting(r) && r.told == s.told + [n];
      DataPush(s.told, n);
      assert Data(s.told) + [n] + Waiting(r) == Data(s.told) + ([n] + Waiting(r));
    }
  }

  /** Among themselves the notifications of data stay in order, in every run, and none is lost. */
  lemma DataInOrder(actions: seq<Action>)
    ensures var r := Run(START, actions); Data(r.told) + Waiting(r) == Data(r.heard)
  {
    OrderOfData(START, actions);
  }

  // ---------------------------------------------------------------- the hardware's form

  /** The static variables of `rxAppNotificationDelayer` and its FIFOs. */
  class NotificationDelayer {
    var doubleAccessFlag: bool
    var fifoCount: nat
    var notification: Note
    var notificationBuffer: seq<Note>
    var rxWriteStatusIn: nat
    var internalNotificationFifoIn: seq<Note>
    var doubleAccess: seq<bool>
    var notificationOut: seq<Note>
    ghost var heard: seq<Note>

    ghost function Abs(): Delayer
      reads this
    {
      Delayer(rxWriteStatusIn, internalNotificationFifoIn, doubleAccess, notificationBuffer,
              if doubleAccessFlag then Some(notification) else None, fifoCount, heard, notificationOut)
    }

    constructor ()
      ensures Abs() == START
    {
      doubleAccessFlag, fifoCount, notification := false, 0, RxFsm.Notification(0, false);
      notificationBuffer, rxWriteStatusIn, internalNotificationFifoIn := [], 0, [];
      doubleAccess, notificationOut, heard := [], [], [];
    }

    method PassOn()
      modifies this`fifoCount, this`notificationOut
      ensures fifoCount == (old(fifoCount) - 1) % 32 && notificationOut == old(notificationOut) + [notification]
    {
      fifoCount := (fifoCount - 1) % 32;
      notificationOut := notificationOut + [notification];
    }

    method ReadNotification()
      requires internalNotificationFifoIn != [] && !doubleAccessFlag
      modifies this
      ensures Abs() == TakeNote(old(Abs()))
    {
      notification := internalNotificationFifoIn[0];
      internalNotificationFifoIn, heard := internalNotificationFifoIn[1..], heard + [notification];
      if notification.length != 0 {
        notificationBuffer := notificationBuffer + [notification];
        fifoCount := (fifoCount + 1) % 32;
      } else {
        notificationOut := notificationOut + [notification];
      }
    }

    /** One clock cycle with room in the output and okay statuses. */
    method ClockCycle()
      modifies this
      ensures Abs() == Cycle(old(Abs()))
    {
      if doubleAccessFlag {
        if rxWriteStatusIn > 0 {
          rxWriteStatusIn, doubleAccessFlag := rxWriteStatusIn - 1, false;
          PassOn();
        }
      } else if rxWriteStatusIn > 0 && notificationBuffer != [] && doubleAccess != [] {
        rxWriteStatusIn, notification := rxWriteStatusIn - 1, notificationBuffer[0];
        doubleAccessFlag := doubleAccess[0];
        notificationBuffer, doubleAccess := notificationBuffer[1..], doubleAccess[1..];
        if !doubleAccessFlag {
          PassOn();
        }
      } else if internalNotificationFifoIn != [] && fifoCount < 31 && |notificationBuffer| < 32 {
        ReadNotification();
      }
    }
  }
}
