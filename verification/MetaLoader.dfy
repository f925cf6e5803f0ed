/** The self-loops of `metaLoader` in tx_engine.cpp: how a TX event cuts the queued data into
    segments, and how an RT event cuts the outstanding data. No FIN has been sent. */
module MetaLoader {
  import opened Toe
  import opened Ring
  import TxRing

  /** The copy of the TX SAR table's line; `minWindow` is the smaller of the receive and the
      congestion window. */
  datatype Sar = Sar(ackd: U32, notAckd: U32, minWindow: U16, app: U16, finReady: bool)

  datatype Segment = Segment(seqNumb: U32, length: nat)

  /** Where the state machine goes: the same event again, idle, or the FIN case. */
  datatype Next = Again | Done | Fin

  /** The loop's registers, the segments and the pointers stored so far, and the number of
      probe timers set. */
  datatype Loader = Loader(
    sar: Sar, next: Next, segmentCount: nat, segments: seq<Segment>, stored: seq<U32>, probes: nat)

  /** `currLength`: what is handed over and not sent. */
  function Unsent(sar: Sar): U16 {
    Low16(sar.app - Low16(sar.notAckd))
  }

  /** `usedLength`: what is sent and not acknowledged. */
  function Used(sar: Sar): U16 {
    Low16(Low16(sar.notAckd) - sar.ackd)
  }

  function Usable(sar: Sar): nat {
    if sar.minWindow > Used(sar) then sar.minWindow - Used(sar) else 0
  }

  /** Nothing is outstanding. */
  predicate Idle(sar: Sar) {
    sar.ackd == sar.notAckd
  }

  /** A packet is sent only if it has data. */
  function Emit(l: Loader, seqNumb: U32, n: nat): Loader {
    if n == 0 then l else l.(segments := l.segments + [Segment(seqNumb, n)])
  }

  function Sent(l: Loader, n: nat): Loader {
    Emit(l, l.sar.notAckd, n).(sar := l.sar.(notAckd := Low32(l.sar.notAckd + n)))
  }

  /** One cycle of case TX. */
  function TxTick(l: Loader): Loader {
    var sar, length, window := l.sar, Unsent(l.sar), Usable(l.sar);
    if length <= window then
      if length >= MSS then Sent(l, MSS)
      else
        var next := if sar.finReady && (Idle(sar) || length == 0) then Fin else Done;
        var r := if Idle(sar) then Sent(l, length) else l.(probes := l.probes + 1);
        r.(next := next, stored := l.stored + [r.sar.notAckd])
    else if window >= MSS then Sent(l, MSS)
    else
      var r := if Idle(sar) then Sent(l, window) else l;
      r.(next := Done, probes := l.probes + 1, stored := l.stored + [r.sar.notAckd])
  }

  lemma TxTickShrinks(l: Loader)
    requires TxTick(l).next == Again && l.next == Again
    ensures Unsent(TxTick(l).sar) == Unsent(l.sar) - MSS && Usable(l.sar) >= MSS
    ensures TxTick(l) == Sent(l, MSS)
  {
    var a, n: int := l.sar.app, l.sar.notAckd;
    Low16OfLow32(n + MSS);
    MinusLow16(a, n + MSS);
    MinusLow16(a, n);
    LessMss(a - n);
  }

  lemma MinusLow16(a: int, b: int)
    ensures Low16(a - Low16(b)) == Low16(a - b)
  {
  }

  lemma MinusLow32(a: int, b: int)
    ensures Low16(a - Low32(b)) == Low16(a - b)
  {
  }

  lemma LessMss(x: int)
    requires Low16(x) >= MSS
    ensures Low16(x - MSS) == Low16(x) - MSS
  {
  }

  /** The whole TX event; the self-loop ends because every turn takes queued data. */
  function TxRun(l: Loader): Loader
    decreases Unsent(l.sar)
  {
    if l.next != Again then l
    else
      var r := TxTick(l);
      if r.next != Again then r
      else
        TxTickShrinks(l);
        TxRun(r)
  }

  // ---------------------------------------------------------------- the plan

  function Min(a: nat, b: nat): nat {
    if a < b then a else b
  }

  /** The segments for `n` bytes from `seqNumb` on: full ones, and a short one only if nothing
      is outstanding. */
  function Plan(seqNumb: U32, n: nat, idle: bool): seq<Segment>
    decreases n
  {
    if n >= MSS then [Segment(seqNumb, MSS)] + Plan(Low32(seqNumb + MSS), n - MSS, false)
    else if idle && n > 0 then [Segment(seqNumb, n)]
    else []
  }

  function Total(s: seq<Segment>): nat {
    if s == [] then 0 else s[0].length + Total(s[1..])
  }

  /** Each segment starts where the one before it ends. */
  predicate Contiguous(s: seq<Segment>, seqNumb: U32) {
    s == [] || (s[0].seqNumb == seqNumb && Contiguous(s[1..], Low32(seqNumb + s[0].length)))
  }

  /** The window of the table's line is not overdrawn, and the 16-bit difference of the two
      pointers is the true one; TxRing proves this of every copy. */
  predicate Copied(sar: Sar) {
    Low32(sar.notAckd - sar.ackd) <= 0xFFFF
  }

  lemma UsedIs(sar: Sar)
    requires Copied(sar)
    ensures Used(sar) == Low32(sar.notAckd - sar.ackd) && (Idle(sar) <==> Used(sar) == 0)
  {
    TxRing.Low16OfSmall(Low32(sar.notAckd - sar.ackd), sar.ackd, sar.notAckd);
  }

  lemma SentUsed(sar: Sar, n: nat)
    requires Copied(sar) && Used(sar) + n <= 0xFFFF
    ensures var r := sar.(notAckd := Low32(sar.notAckd + n));
            Copied(r) && Used(r) == Used(sar) + n
  {
    UsedIs(sar);
    GapGrows(sar.notAckd, sar.ackd, n);
    UsedIs(sar.(notAckd := Low32(sar.notAckd + n)));
  }

  lemma GapGrows(next: int, prev: int, n: nat)
    requires Low32(next - prev) + n <= 0xFFFF
    ensures Low32(Low32(next + n) - prev) == Low32(next - prev) + n
  {
    Low32Add(next + n, -prev);
    Low32Add(next - prev, n);
  }

  /** From `l` to `r` the segments `plan` were sent, of `length` queued bytes. */
  predicate Planned(l: Loader, r: Loader, plan: seq<Segment>, length: nat) {
    && r.segments == l.segments + plan
    && r.stored == l.stored + [Low32(l.sar.notAckd + Total(plan))]
    && (r.next == Done || r.next == Fin)
    && (r.next == Fin ==> l.sar.finReady && Total(plan) == length)
    && r.probes >= l.probes && (Total(plan) < length ==> r.probes > l.probes)
  }

  /** What the loop does with the queued bytes and the usable window. */
  predicate Outcome(l: Loader, r: Loader) {
    var length := Unsent(l.sar);
    Planned(l, r, Plan(l.sar.notAckd, Min(length, Usable(l.sar)), Idle(l.sar)), length)
  }

  lemma LastTick(l: Loader)
    requires l.next == Again && TxTick(l).next != Again
    ensures Outcome(l, TxTick(l))
  {
    var n := Min(Unsent(l.sar), Usable(l.sar));
    assert n < MSS;
    var plan := Plan(l.sar.notAckd, n, Idle(l.sar));
    assert Total(plan) == if Idle(l.sar) then n else 0;
    Low32Add(l.sar.notAckd, 0);
  }

  lemma {:induction false} TxRunIsPlan(l: Loader)
    requires l.next == Again && Copied(l.sar)
    ensures Outcome(l, TxRun(l))
    decreases Unsent(l.sar)
  {
    var m := TxTick(l);
    if m.next != Again {
      LastTick(l);
    } else {
      MoreCopied(l);
      TxTickShrinks(l);
      TxRunIsPlan(m);
      MorePlanned(l, TxRun(m));
    }
  }

  lemma MoreCopied(l: Loader)
    requires l.next == Again && Copied(l.sar) && TxTick(l).next == Again
    ensures TxTick(l) == Sent(l, MSS) && Copied(TxTick(l).sar) && !Idle(TxTick(l).sar)
    ensures Used(TxTick(l).sar) == Used(l.sar) + MSS
  {
    TxTickShrinks(l);
    UsedIs(l.sar);
    SentUsed(l.sar, MSS);
    UsedIs(TxTick(l).sar);
  }

  lemma MorePlanned(l: Loader, r: Loader)
    requires l.next == Again && Copied(l.sar) && TxTick(l).next == Again && Outcome(TxTick(l), r)
    ensures Outcome(l, r)
  {
    var m := TxTick(l);
    MoreCopied(l);
    TxTickShrinks(l);
    var n := Min(Unsent(l.sar), Usable(l.sar));
    var rest := Plan(m.sar.notAckd, n - MSS, false);
    MoreFull(l, m, r, rest, Unsent(l.sar));
    assert Plan(l.sar.notAckd, n, Idle(l.sar)) == [Segment(l.sar.notAckd, MSS)] + rest;
  }

  lemma MoreFull(l: Loader, m: Loader, r: Loader, rest: seq<Segment>, length: nat)
    requires m == Sent(l, MSS) && length >= MSS && Planned(m, r, rest, length - MSS)
    ensures Planned(l, r, [Segment(l.sar.notAckd, MSS)] + rest, length)
  {
    var first := Segment(l.sar.notAckd, MSS);
    TotalFirst(first, rest);
    Low32Add(l.sar.notAckd + MSS, Total(rest));
    assert l.segments + [first] + rest == l.segments + ([first] + rest);
  }

  lemma TotalFirst(first: Segment, rest: seq<Segment>)
    ensures Total([first] + rest) == first.length + Total(rest)
  {
    assert ([first] + rest)[1..] == rest;
  }

  /** Contiguous from `seqNumb` on, at most one MSS each, and a short segment only if nothing
      is outstanding, and then alone (section 3.7.4 of RFC 9293). */
  predicate Sound(p: seq<Segment>, seqNumb: U32, idle: bool) {
    && Contiguous(p, seqNumb)
    && (forall k :: 0 <= k < |p| ==> 1 <= p[k].length <= MSS)
    && (forall k :: 0 <= k < |p| && p[k].length < MSS ==> idle && |p| == 1)
  }

  /** The plan is sound and takes all full segments that fit. */
  lemma {:induction false} PlanIsSound(seqNumb: U32, n: nat, idle: bool)
    ensures var p := Plan(seqNumb, n, idle);
            Sound(p, seqNumb, idle)
            && Total(p) == if n >= MSS then n - n % MSS else if idle then n else 0
    decreases n
  {
    if n >= MSS {
      PlanIsSound(Low32(seqNumb + MSS), n - MSS, false);
      assert (n - MSS) % MSS == n % MSS;
    }
  }

  /** One TX event: contiguous segments from the sent pointer on, each at most one MSS, in
      total at most the queued data and the usable window, under Nagle's rule. Queued data
      that stays behind has the probe timer running, and no FIN follows it. */
  lemma TxEvent(l: Loader)
    requires l.next == Again && l.segments == [] && l.stored == [] && Copied(l.sar)
    ensures var r := TxRun(l);
            var total := Total(r.segments);
            && Sound(r.segments, l.sar.notAckd, Idle(l.sar))
            && total <= Unsent(l.sar) && total <= Usable(l.sar)
            && r.stored == [Low32(l.sar.notAckd + total)]
            && (total < Unsent(l.sar) ==> r.probes > l.probes && r.next == Done)
  {
    TxRunIsPlan(l);
    var n := Min(Unsent(l.sar), Usable(l.sar));
    PlanIsSound(l.sar.notAckd, n, Idle(l.sar));
    assert TxRun(l).segments == Plan(l.sar.notAckd, n, Idle(l.sar));
  }

  // ---------------------------------------------------------------- retransmission

  /** One cycle of case RT: at most four segments, the last of them perhaps not the end. */
  function RtTick(l: Loader): Loader {
    var length := Used(l.sar);
    if length > MSS then
      Emit(l, l.sar.ackd, MSS).(sar := l.sar.(ackd := Low32(l.sar.ackd + MSS)),
                                next := if l.segmentCount == 3 then Done else Again,
                                segmentCount := (l.segmentCount + 1) % 4)
    else Emit(l, l.sar.ackd, length).(next := Done)
  }

  lemma RtTickShrinks(l: Loader)
    requires l.next == Again && RtTick(l).next == Again
    ensures Used(RtTick(l).sar) == Used(l.sar) - MSS
  {
    var n, a: int := Low16(l.sar.notAckd), l.sar.ackd;
    MinusLow32(n, a + MSS);
    LessMss(n - a);
  }

  function RtRun(l: Loader): Loader
    decreases Used(l.sar)
  {
    if l.next != Again then l
    else
      var r := RtTick(l);
      if r.next != Again then r
      else
        RtTickShrinks(l);
        RtRun(r)
  }

  /** The segments that send `n` bytes again. */
  function Chop(seqNumb: U32, n: nat): seq<Segment>
    decreases n
  {
    if n > MSS then [Segment(seqNumb, MSS)] + Chop(Low32(seqNumb + MSS), n - MSS)
    else if n > 0 then [Segment(seqNumb, n)]
    else []
  }

  lemma {:induction false} ChopIsSound(seqNumb: U32, n: nat)
    ensures var p := Chop(seqNumb, n);
            && Contiguous(p, seqNumb) && Total(p) == n && |p| == (n + MSS - 1) / MSS
            && forall k :: 0 <= k < |p| ==> 1 <= p[k].length <= MSS
    decreases n
  {
    if n > MSS {
      ChopIsSound(Low32(seqNumb + MSS), n - MSS);
      assert (n - MSS + MSS - 1) / MSS + 1 == (n + MSS - 1) / MSS;
    }
  }

  lemma {:induction false} RtRunIsChop(l: Loader)
    requires l.next == Again && l.segmentCount <= 3
    ensures RtRun(l).segments ==
            l.segments + Chop(l.sar.ackd, Min(Used(l.sar), (4 - l.segmentCount) * MSS))
    ensures RtRun(l).next == Done && RtRun(l).stored == l.stored
    decreases Used(l.sar)
  {
    var m := RtTick(l);
    var first := Segment(l.sar.ackd, MSS);
    if m.next != Again {
      if Used(l.sar) > MSS {
        assert Chop(l.sar.ackd, MSS) == [first];
      }
    } else {
      RtTickShrinks(l);
      RtRunIsChop(m);
      var n := Min(Used(l.sar), (4 - l.segmentCount) * MSS);
      assert Chop(l.sar.ackd, n) == [first] + Chop(m.sar.ackd, n - MSS);
    }
  }

  /** One RT event sends what is outstanding again, up to four segments, from the oldest
      unacknowledged byte on. */
  lemma RtEvent(l: Loader)
    requires l.next == Again && l.segmentCount == 0 && l.segments == []
    ensures var r := RtRun(l);
            && Contiguous(r.segments, l.sar.ackd)
            && Total(r.segments) == Min(Used(l.sar), 4 * MSS) && |r.segments| <= 4
            && (forall k :: 0 <= k < |r.segments| ==> 1 <= r.segments[k].length <= MSS)
            && r.stored == l.stored
  {
    RtRunIsChop(l);
    var n := Min(Used(l.sar), 4 * MSS);
    ChopIsSound(l.sar.ackd, n);
    assert RtRun(l).segments == Chop(l.sar.ackd, n);
    assert (n + MSS - 1) / MSS <= 4;
  }

  // ---------------------------------------------------------------- as steps of TxRing

  /** The bytes of the segment that a tick sends. */
  function Bytes(l: Loader, r: Loader): nat {
    if |r.segments| > |l.segments| then r.segments[|l.segments|].length else 0
  }

  /** The copy has the values of TxRing's copy. */
  predicate Same(sar: Sar, c: TxRing.Sar) {
    sar.ackd == c.ackd.value && sar.notAckd == c.notAckd.value && sar.app == c.app.value
  }

  /** A cycle of case TX is a `Send` step of TxRing, for which the order of the pointers and
      the contents of the segments are proved. */
  lemma TxTickIsSend(l: Loader, e: TxRing.Eng)
    requires e.phase.Sending? && !e.phase.rt && Same(l.sar, e.phase.sar) && l.next == Again
    ensures var r := TxTick(l);
            var s := TxRing.SendStep(e, Bytes(l, r), r.next != Again);
            if r.next == Again then s.phase.Sending? && !s.phase.rt && Same(r.sar, s.phase.sar)
            else s.phase == TxRing.NoEvent && |s.req| == |e.req| + 1
                 && s.req[|e.req|].EngWrite? && r.stored == l.stored + [s.req[|e.req|].notAckd.value]
  {
    Low32Add(l.sar.notAckd, 0);
  }

  lemma RtTickIsSend(l: Loader, e: TxRing.Eng)
    requires e.phase.Sending? && e.phase.rt && Same(l.sar, e.phase.sar) && l.next == Again
    ensures var r := RtTick(l);
            var s := TxRing.SendStep(e, Bytes(l, r), r.next != Again);
            if r.next == Again then s.phase.Sending? && s.phase.rt && Same(r.sar, s.phase.sar)
            else s.phase == TxRing.NoEvent && s.req == e.req
  {
  }

  // ---------------------------------------------------------------- the hardware's form

  class Registers {
    var txSar: Sar
    var next: Next
    var mlSegmentCount: nat
    var segments: seq<Segment>
    var stored: seq<U32>
    var probes: nat

    ghost function Abs(): Loader
      reads this
    {
      Loader(txSar, next, mlSegmentCount, segments, stored, probes)
    }

    constructor (sar: Sar)
      ensures Abs() == Loader(sar, Again, 0, [], [], 0)
    {
      txSar, next, mlSegmentCount, segments, stored, probes := sar, Again, 0, [], [], 0;
    }

    /** One cycle of case TX with nothing left to send in this event. */
    method Finish(n: nat, all: bool)
      requires n == Min(Unsent(txSar), Usable(txSar)) < MSS && all == (Unsent(txSar) <= Usable(txSar))
      requires next == Again
      modifies this
      ensures Abs() == TxTick(old(Abs()))
    {
      if all && txSar.finReady && (txSar.ackd == txSar.notAckd || n == 0) {
        next := Fin;
      } else {
        next := Done;
      }
      if !all || txSar.ackd != txSar.notAckd {
        probes := probes + 1;
      }
      if txSar.ackd == txSar.notAckd {
        if n != 0 {
          segments := segments + [Segment(txSar.notAckd, n)];
        }
        txSar := txSar.(notAckd := Low32(txSar.notAckd + n));
      }
      stored := stored + [txSar.notAckd];
    }

    method TransmitCycle()
      requires next == Again
      modifies this
      ensures Abs() == TxTick(old(Abs()))
    {
      var currLength: nat := (txSar.app - txSar.notAckd % 0x1_0000) % 0x1_0000;
      var usedLength: nat := (txSar.notAckd % 0x1_0000 - txSar.ackd) % 0x1_0000;
      var usableWindow := 0;
      if txSar.minWindow > usedLength {
        usableWindow := txSar.minWindow - usedLength;
      }
      if (currLength <= usableWindow && currLength >= MSS) || (currLength > usableWindow && usableWindow >= MSS) {
        segments := segments + [Segment(txSar.notAckd, MSS)];
        txSar := txSar.(notAckd := Low32(txSar.notAckd + MSS));
      } else {
        Finish(Min(currLength, usableWindow), currLength <= usableWindow);
      }
    }

    method RetransmitCycle()
      requires next == Again
      modifies this
      ensures Abs() == RtTick(old(Abs()))
    {
      var currLength: nat := (txSar.notAckd % 0x1_0000 - txSar.ackd) % 0x1_0000;
      if currLength > MSS {
        segments := segments + [Segment(txSar.ackd, MSS)];
        txSar := txSar.(ackd := Low32(txSar.ackd + MSS));
        if mlSegmentCount == 3 {
          next := Done;
        }
        mlSegmentCount := (mlSegmentCount + 1) % 4;
      } else {
        if currLength != 0 {
          segments := segments + [Segment(txSar.ackd, currLength)];
        }
        next := Done;
      }
    }
  }
}
