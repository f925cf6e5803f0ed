/** retransmit_timer.cpp: the scan over the timer table, the back-off and the abort after the
    fourth retransmission.

    A set request near the scan position moves the position on by five without a look at the
    end of the table, so a session at the end of the table can push it out. `fault` notes an
    access behind the table; what such an access does is not modelled. */
module RetransmitTimer {
  import opened Toe

  datatype Entry = Entry(time: nat, retries: nat, active: bool, kind: EventType)

  datatype Clear = Clear(id: SessionId, stop: bool)
  datatype Set = Set(id: SessionId, kind: EventType)

  /** Everything that the module tells others or applies, in order. */
  datatype Note =
    | Fired(id: SessionId, kind: EventType, retries: nat)
    | Released(id: SessionId)
    | ToTxApp(id: SessionId)
    | ToRxApp(id: SessionId)
    | Cleared(id: SessionId)

  type Table = t: seq<Entry> | |t| == MAX_SESSIONS witness seq(MAX_SESSIONS, _ => Entry(0, 0, false, RT))

  datatype Timer = Timer(
    table: Table, position: nat, waitForWrite: bool, prevPosition: nat, update: Clear,
    clears: seq<Clear>, sets: seq<Set>, log: seq<Note>, fault: bool)

  /** toe.hpp: the time-outs in scans; their order is all that counts here. */
  const TIME_1S: nat := 15150
  const TIME_5S: nat := 75075
  const TIME_10S: nat := 150150
  const TIME_15S: nat := 225225
  const TIME_30S: nat := 450450

  datatype Action = Tick(room: bool) | ClearTimer(c: Clear) | SetTimer(s: Set)

  // ---------------------------------------------------------------- the steps

  /** A clear request: a new acknowledgement restarts or stops the timer. */
  function Apply(t: Timer): Timer {
    var u, e := t.update, t.table[t.update.id];
    t.(waitForWrite := false, log := t.log + [Cleared(u.id)],
       table := t.table[u.id := if u.stop then e.(time := 0, active := false, retries := 0)
                                else e.(time := TIME_1S, retries := 0)])
  }

  function Timeout(retries: nat): nat {
    match retries
    case 0 => TIME_1S
    case 1 => TIME_5S
    case 2 => TIME_10S
    case 3 => TIME_15S
    case _ => TIME_30S
  }

  function Armed(e: Entry, kind: EventType): Entry {
    Entry(if e.active then e.time else Timeout(e.retries), e.retries, true, kind)
  }

  /** The position moves out of the way of a set request close behind it; 16 bits. */
  function Jump(position: nat, id: SessionId): nat {
    if id - 3 < position && position <= id then (position + 5) % 0x1_0000 else position
  }

  function TakeSet(t: Timer): Timer
    requires t.sets != []
  {
    var s := t.sets[0];
    t.(sets := t.sets[1..], position := Jump(t.position, s.id), prevPosition := s.id,
       table := t.table[s.id := Armed(t.table[s.id], s.kind)])
  }

  function NextPosition(p: nat): nat {
    var q := (p + 1) % 0x1_0000;
    if q >= MAX_SESSIONS then 0 else q
  }

  predicate Expires(e: Entry, room: bool) {
    e.active && e.time == 0 && room
  }

  /** The line that the scan writes back. */
  function Scanned(e: Entry, room: bool): Entry {
    if !e.active then e
    else if e.time > 0 then e.(time := e.time - 1)
    else if !room then e
    else e.(time := 0, active := false, retries := if e.retries < 4 then (e.retries + 1) % 8 else 0)
  }

  /** What an expiry tells: the event again, or the release and one notification. */
  function Told(e: Entry, id: SessionId, room: bool): seq<Note> {
    if !Expires(e, room) then []
    else if e.retries < 4 then [Fired(id, e.kind, e.retries + 1)]
    else [Released(id), if e.kind == SYN then ToTxApp(id) else ToRxApp(id)]
  }

  /** A scan step; the position may lie behind the table. */
  function Scan(t: Timer, room: bool): Timer {
    var p := t.position;
    var r := t.(position := NextPosition(p), prevPosition := p);
    if p >= MAX_SESSIONS then r.(fault := true)
    else r.(table := t.table[p := Scanned(t.table[p], room)], log := t.log + Told(t.table[p], p, room))
  }

  function TickStep(t: Timer, room: bool): Timer {
    if t.waitForWrite && t.update.id != t.prevPosition then Apply(t)
    else if t.clears != [] && !t.waitForWrite then
      t.(update := t.clears[0], clears := t.clears[1..], waitForWrite := true)
    else if t.sets != [] then TakeSet(t)
    else Scan(t, room)
  }

  function Step(t: Timer, a: Action): Timer {
    match a
    case Tick(room) => TickStep(t, room)
    case ClearTimer(c) => t.(clears := t.clears + [c])
    case SetTimer(s) => t.(sets := t.sets + [s])
  }

  function Run(t: Timer, actions: seq<Action>): Timer
    decreases |actions|
  {
    if actions == [] then t else Run(Step(t, actions[0]), actions[1..])
  }

  predicate Init(t: Timer) {
    && (forall i :: 0 <= i < MAX_SESSIONS ==> t.table[i] == Entry(0, 0, false, t.table[i].kind))
    && t.position == 0 && !t.waitForWrite && t.prevPosition == 0
    && t.clears == [] && t.sets == [] && t.log == [] && !t.fault
  }

  // ---------------------------------------------------------------- retries and events

  /** The events fired for a session since its timer was last cleared or aborted. */
  function FiredSince(log: seq<Note>, id: SessionId): nat {
    if log == [] then 0
    else
      var rest := log[..|log| - 1];
      match log[|log| - 1]
      case Fired(i, _, _) => FiredSince(rest, id) + if i == id then 1 else 0
      case Released(i) => if i == id then 0 else FiredSince(rest, id)
      case Cleared(i) => if i == id then 0 else FiredSince(rest, id)
      case _ => FiredSince(rest, id)
  }

  lemma FiredLast(log: seq<Note>, n: Note, id: SessionId)
    ensures FiredSince(log + [n], id) == match n
            case Fired(i, _, _) => FiredSince(log, id) + if i == id then 1 else 0
            case Released(i) => if i == id then 0 else FiredSince(log, id)
            case Cleared(i) => if i == id then 0 else FiredSince(log, id)
            case _ => FiredSince(log, id)
  {
    assert (log + [n])[..|log|] == log;
  }

  /** The counter is the number of events, and never more than four. */
  predicate RetryInv(t: Timer) {
    forall i: SessionId :: t.table[i].retries == FiredSince(t.log, i) <= 4
  }

  lemma ApplyInv(t: Timer)
    requires RetryInv(t)
    ensures RetryInv(Apply(t))
  {
    forall i: SessionId ensures Apply(t).table[i].retries == FiredSince(Apply(t).log, i) <= 4 {
      FiredLast(t.log, Cleared(t.update.id), i);
    }
  }

  lemma ToldFired(log: seq<Note>, e: Entry, p: SessionId, room: bool, i: SessionId)
    requires p == i ==> e.retries == FiredSince(log, i) <= 4
    ensures FiredSince(log + Told(e, p, room), i) ==
            if i == p then Scanned(e, room).retries else FiredSince(log, i)
  {
    if !Expires(e, room) {
      assert log + [] == log;
    } else if e.retries < 4 {
      FiredLast(log, Fired(p, e.kind, e.retries + 1), i);
    } else {
      var n := if e.kind == SYN then ToTxApp(p) else ToRxApp(p);
      FiredLast(log, Released(p), i);
      FiredLast(log + [Released(p)], n, i);
      assert log + [Released(p), n] == log + [Released(p)] + [n];
    }
  }

  lemma ScanInv(t: Timer, room: bool)
    requires RetryInv(t)
    ensures RetryInv(Scan(t, room))
  {
    var p := t.position;
    if p < MAX_SESSIONS {
      forall i: SessionId ensures Scan(t, room).table[i].retries == FiredSince(Scan(t, room).log, i) <= 4 {
        ToldFired(t.log, t.table[p], p, room, i);
      }
    }
  }

  lemma StepInv(t: Timer, a: Action)
    requires RetryInv(t)
    ensures RetryInv(Step(t, a))
  {
    if a.Tick? {
      if t.waitForWrite && t.update.id != t.prevPosition {
        ApplyInv(t);
      } else if (t.clears == [] || t.waitForWrite) && t.sets == [] {
        ScanInv(t, a.room);
      }
    }
  }

  lemma {:induction false} RunInv(t: Timer, actions: seq<Action>)
    requires RetryInv(t)
    ensures RetryInv(Run(t, actions))
    decreases |actions|
  {
    if actions != [] {
      StepInv(t, actions[0]);
      RunInv(Step(t, actions[0]), actions[1..]);
    }
  }

  /** In every run that stays inside the table the retry counter is the number of events fired
      since the last clear or abort, and it is at most four. `SafeIffLow` says which do. */
  lemma RetriesAreEvents(init: Timer, actions: seq<Action>, id: SessionId)
    requires Init(init) && !Run(init, actions).fault
    ensures var t := Run(init, actions); t.table[id].retries == FiredSince(t.log, id) <= 4
  {
    RunInv(init, actions);
  }

  /** Bounded retransmission: after four events without an acknowledgement the next expiry
      fires none; it releases the session and notifies exactly one side of the application,
      the one that opens connections if it was a SYN. */
  lemma FifthExpiryAborts(init: Timer, actions: seq<Action>, room: bool)
    requires Init(init) && !Run(init, actions).fault
    requires var t := Run(init, actions);
             && t.position < MAX_SESSIONS && Expires(t.table[t.position], room)
             && FiredSince(t.log, t.position) == 4
    ensures var t := Run(init, actions);
            var p := t.position;
            Scan(t, room).log == t.log + [Released(p)] + [if t.table[p].kind == SYN then ToTxApp(p) else ToRxApp(p)]
            && FiredSince(Scan(t, room).log, p) == 0 && !Scan(t, room).table[p].active
  {
    RunInv(init, actions);
    var t := Run(init, actions);
    ScanInv(t, room);
    assert t.table[t.position].retries == 4;
  }

  // ---------------------------------------------------------------- staying in the table

  /** No set request is for a session behind 9994. */
  predicate Low(a: Action) {
    a.SetTimer? ==> a.s.id <= MAX_SESSIONS - 6
  }

  predicate PositionInv(t: Timer) {
    && t.position < MAX_SESSIONS && !t.fault
    && forall k :: 0 <= k < |t.sets| ==> t.sets[k].id <= MAX_SESSIONS - 6
  }

  lemma PositionStep(t: Timer, a: Action)
    requires PositionInv(t) && Low(a)
    ensures PositionInv(Step(t, a))
  {
  }

  /** Sessions up to 9994: no run accesses anything behind the table. */
  lemma {:induction false} LowSessionsAreSafe(t: Timer, actions: seq<Action>)
    requires PositionInv(t) && forall a <- actions :: Low(a)
    ensures PositionInv(Run(t, actions))
    decreases |actions|
  {
    if actions != [] {
      assert actions[0] in actions;
      PositionStep(t, actions[0]);
      LowSessionsAreSafe(Step(t, actions[0]), actions[1..]);
    }
  }

  function Ticks(n: nat): seq<Action> {
    seq(n, _ => Tick(true))
  }

  predicate Quiet(t: Timer) {
    !t.waitForWrite && t.clears == [] && t.sets == [] && !t.fault
    && forall i: SessionId :: !t.table[i].active
  }

  lemma QuietTick(t: Timer)
    requires Quiet(t) && t.position < MAX_SESSIONS - 1
    ensures Quiet(Step(t, Tick(true))) && Step(t, Tick(true)).position == t.position + 1
  {
    var p := t.position;
    assert t.table[p := Scanned(t.table[p], true)] == t.table;
  }

  lemma {:induction false} QuietTicks(t: Timer, n: nat)
    requires Quiet(t) && t.position + n < MAX_SESSIONS
    ensures Quiet(Run(t, Ticks(n))) && Run(t, Ticks(n)).position == t.position + n
    decreases n
  {
    if n > 0 {
      QuietTick(t);
      QuietTicks(Step(t, Tick(true)), n - 1);
      assert Ticks(n)[1..] == Ticks(n - 1);
    }
  }

  lemma {:induction false} RunConcat(t: Timer, a: seq<Action>, b: seq<Action>)
    ensures Run(t, a + b) == Run(Run(t, a), b)
    decreases |a|
  {
    if a == [] {
      assert a + b == b;
    } else {
      assert (a + b)[1..] == a[1..] + b;
      RunConcat(Step(t, a[0]), a[1..], b);
    }
  }

  /** The scan reaches the session, its timer is set, and the scan goes on. */
  function Overrun(id: SessionId): seq<Action> {
    Ticks(id) + [SetTimer(Set(id, RT)), Tick(true), Tick(true)]
  }

  lemma LastSteps(t: Timer, id: SessionId)
    requires Quiet(t) && t.position == id > MAX_SESSIONS - 6
    ensures Run(t, [SetTimer(Set(id, RT)), Tick(true), Tick(true)]).fault
  {
    var a := [SetTimer(Set(id, RT)), Tick(true), Tick(true)];
    var t1 := Step(t, a[0]);
    var t2 := Step(t1, Tick(true));
    assert t1.sets == [Set(id, RT)];
    assert t2.position == id + 5 && t2.sets == [];
    assert Run(t, a) == Run(t1, a[1..]) == Run(t2, a[2..]);
    assert Run(t2, a[2..]) == Step(t2, Tick(true));
  }

  /** The bound is exact: any one session behind 9994 can drive the scan out of the table. */
  lemma HighSessionOverruns(init: Timer, id: SessionId)
    requires Init(init) && id > MAX_SESSIONS - 6
    ensures Run(init, Overrun(id)).fault
    ensures forall a <- Overrun(id) :: a.SetTimer? ==> a.s.id == id
  {
    QuietTicks(init, id);
    RunConcat(init, Ticks(id), [SetTimer(Set(id, RT)), Tick(true), Tick(true)]);
    LastSteps(Run(init, Ticks(id)), id);
  }

  /** Every access of every run is inside the table if and only if no session behind 9994 is
      used. */
  lemma SafeIffLow(init: Timer, n: SessionId)
    requires Init(init)
    ensures (forall actions: seq<Action> :: (forall a <- actions :: a.SetTimer? ==> a.s.id <= n)
               ==> !Run(init, actions).fault)
            <==> n <= MAX_SESSIONS - 6
  {
    if n <= MAX_SESSIONS - 6 {
      forall actions: seq<Action> | forall a <- actions :: a.SetTimer? ==> a.s.id <= n
        ensures !Run(init, actions).fault
      {
        assert forall a <- actions :: Low(a);
        LowSessionsAreSafe(init, actions);
      }
    } else {
      HighSessionOverruns(init, n);
      assert forall a <- Overrun(n) :: a.SetTimer? ==> a.s.id <= n;
    }
  }

  // ---------------------------------------------------------------- the hardware's form

  /** The static variables of `retransmit_timer`. */
  class Registers {
    const timerTable: array<Entry>
    var rtPosition: nat
    var rtWaitForWrite: bool
    var rtPrevPosition: nat
    var rtUpdate: Clear
    var clears: seq<Clear>
    var sets: seq<Set>
    var log: seq<Note>

    ghost predicate Valid() {
      timerTable.Length == MAX_SESSIONS
    }

    ghost function Abs(): Timer
      reads this, timerTable
      requires Valid()
    {
      Timer(timerTable[..], rtPosition, rtWaitForWrite, rtPrevPosition, rtUpdate, clears, sets, log, false)
    }

    constructor ()
      ensures Valid() && Init(Abs())
    {
      timerTable := new Entry[MAX_SESSIONS](_ => Entry(0, 0, false, RT));
      rtPosition, rtWaitForWrite, rtPrevPosition, rtUpdate := 0, false, 0, Clear(0, false);
      clears, sets, log := [], [], [];
    }

    method ApplyUpdate()
      requires Valid()
      modifies this`rtWaitForWrite, this`log, timerTable
      ensures Abs() == Apply(old(Abs()))
    {
      var id := rtUpdate.id;
      if !rtUpdate.stop {
        timerTable[id] := timerTable[id].(time := TIME_1S);
      } else {
        timerTable[id] := timerTable[id].(time := 0, active := false);
      }
      timerTable[id] := timerTable[id].(retries := 0);
      rtWaitForWrite, log := false, log + [Cleared(id)];
    }

    method SetEntry()
      requires Valid() && sets != []
      modifies this`sets, this`rtPosition, this`rtPrevPosition, timerTable
      ensures Abs() == TakeSet(old(Abs()))
    {
      var set_ := sets[0];
      sets := sets[1..];
      if set_.id - 3 < rtPosition && rtPosition <= set_.id {
        rtPosition := (rtPosition + 5) % 0x1_0000;
      }
      var currEntry := timerTable[set_.id].(kind := set_.kind);
      if !currEntry.active {
        currEntry := currEntry.(time := Timeout(currEntry.retries));
      }
      timerTable[set_.id] := currEntry.(active := true);
      rtPrevPosition := set_.id;
    }

    method ScanEntry(room: bool)
      requires Valid() && rtPosition < MAX_SESSIONS
      modifies this`rtPosition, this`rtPrevPosition, this`log, timerTable
      ensures Abs() == Scan(old(Abs()), room)
    {
      var currID := rtPosition;
      rtPosition := rtPosition + 1;
      if rtPosition >= MAX_SESSIONS {
        rtPosition := 0;
      }
      var currEntry := timerTable[currID];
      if currEntry.active {
        if currEntry.time > 0 {
          currEntry := currEntry.(time := currEntry.time - 1);
        } else if room {
          currEntry := currEntry.(active := false);
          if currEntry.retries < 4 {
            currEntry := currEntry.(retries := currEntry.retries + 1);
            log := log + [Fired(currID, currEntry.kind, currEntry.retries)];
          } else {
            currEntry := currEntry.(retries := 0);
            log := log + [Released(currID), if currEntry.kind == SYN then ToTxApp(currID) else ToRxApp(currID)];
          }
        }
      }
      timerTable[currID] := currEntry;
      rtPrevPosition := currID;
    }

    /** One tick, with the scan inside the table. */
    method Cycle(room: bool)
      requires Valid() && rtPosition < MAX_SESSIONS
      modifies this, timerTable
      ensures Abs() == TickStep(old(Abs()), room)
    {
      if rtWaitForWrite && rtUpdate.id != rtPrevPosition {
        ApplyUpdate();
      } else if clears != [] && !rtWaitForWrite {
        rtUpdate, clears, rtWaitForWrite := clears[0], clears[1..], true;
      } else if sets != [] {
        SetEntry();
      } else {
        ScanEntry(room);
      }
    }
  }
}
