/** The TCP packets of the two engines: `ipHeaderConstruction`, `pseudoHeaderConstruction` and
    `pkgStitcher` of tx_engine.cpp print a segment, and `rxCheckTCPchecksum` of rx_engine.cpp,
    behind the stages of TcpStrip, parses it. Addresses and ports keep the
    byte order of the wire. */
module TcpCodec {
  import opened Toe
  import opened Axi
  import Checksum
  import Strip = TcpStrip

  type B2 = b: seq<Byte> | |b| == 2 witness [0, 0]
  type B4 = b: seq<Byte> | |b| == 4 witness [0, 0, 0, 0]

  datatype Tuple = Tuple(srcIp: B4, dstIp: B4, srcPort: B2, dstPort: B2)

  datatype Meta = Meta(
    seqNumb: U32, ackNumb: U32, winSize: U16, length: U16, ack: bool, rst: bool, syn: bool, fin: bool)

  function Be16(n: U16): B2 {
    [n / 0x100, n % 0x100]
  }

  function Be32(n: U32): B4 {
    [n / 0x100_0000, n / 0x1_0000 % 0x100, n / 0x100 % 0x100, n % 0x100]
  }

  function Get16(b: seq<Byte>, at: nat): U16
    requires at + 2 <= |b|
  {
    var high: int, low: int := b[at], b[at + 1];
    high * 0x100 + low
  }

  function Get32(b: seq<Byte>, at: nat): U32
    requires at + 4 <= |b|
  {
    var high: int, low: int := Get16(b, at), Get16(b, at + 2);
    high * 0x1_0000 + low
  }

  lemma Get16Of(b: seq<Byte>, at: nat, n: U16)
    requires at + 2 <= |b| && b[at..at + 2] == Be16(n)
    ensures Get16(b, at) == n
  {
    assert b[at] == b[at..at + 2][0] && b[at + 1] == b[at..at + 2][1];
  }

  lemma Get32Of(b: seq<Byte>, at: nat, n: U32)
    requires at + 4 <= |b| && b[at..at + 4] == Be32(n)
    ensures Get32(b, at) == n
  {
    var c := b[at..at + 4];
    assert b[at] == c[0] && b[at + 1] == c[1] && b[at + 2] == c[2] && b[at + 3] == c[3];
    var high: int := n / 0x1_0000;
    assert high / 0x100 * 0x100 + high % 0x100 == high;
    assert n / 0x100_0000 == high / 0x100;
  }

  // ---------------------------------------------------------------- printing

  function Full(data: seq<Byte>): AxiWord
    requires |data| == 8
  {
    Word(data, 0xFF, false)
  }

  /** The length fields are sums truncated to 16 bits. */
  function IpLength(m: Meta): U16 {
    (m.length + 40) % 0x1_0000
  }

  function TcpLength(m: Meta): U16 {
    (m.length + 20) % 0x1_0000
  }

  function Bit(b: bool): nat {
    if b then 1 else 0
  }

  function Flags(m: Meta): Byte {
    Bit(m.fin) + 2 * Bit(m.syn) + 4 * Bit(m.rst) + 16 * Bit(m.ack)
  }

  /** The data offset with its reserved bits; a SYN has one word of options. */
  function OffsetByte(m: Meta): Byte {
    (5 + Bit(m.syn)) * 16
  }

  /** The segment size of 1460 bytes, which every SYN announces. */
  const MSS_OPTION: seq<Byte> := [2, 4, 5, 0xB4]
  const MSS_WORD: AxiWord := Word([2, 4, 5, 0xB4, 0, 0, 0, 0], 0x0F, true)

  /** The pseudo header with the segment's header; the checksum is left zero. */
  function PseudoHeader(m: Meta, t: Tuple): seq<seq<Byte>> {
    [t.srcIp + t.dstIp,
     [0, 6] + Be16(TcpLength(m)) + t.srcPort + t.dstPort,
     Be32(m.seqNumb) + Be32(m.ackNumb),
     [OffsetByte(m), Flags(m)] + Be16(m.winSize) + [0, 0, 0, 0]]
  }

  /** The words that the checksum is computed of: the header, and the payload if there is
      one. */
  function Summed(m: Meta, t: Tuple, payload: seq<AxiWord>): seq<AxiWord> {
    var p := PseudoHeader(m, t);
    [Full(p[0])] + ([Full(p[1])] + ([Full(p[2])] + LastHeader(p[3], payload)))
  }

  function LastHeader(data: seq<Byte>, payload: seq<AxiWord>): seq<AxiWord>
    requires |data| == 8
  {
    if payload == [] then [Word(data, 0xFF, true)] else [Full(data)] + payload
  }

  function Checked(data: seq<Byte>, checksum: U16): seq<Byte>
    requires |data| == 8
  {
    data[..4] + Be16(checksum) + data[6..]
  }

  /** The first three words of the packet that leaves: the IP header, with the ports behind
      the destination address; its checksum is filled in by another module. */
  function Ip0(m: Meta): AxiWord {
    Full([0x45, 0] + Be16(IpLength(m)) + [0, 0, 0, 0])
  }

  function Ip1(t: Tuple): AxiWord {
    Full([0x40, 6, 0, 0] + t.srcIp)
  }

  function Ip2(t: Tuple): AxiWord {
    Full(t.dstIp + (t.srcPort + t.dstPort))
  }

  /** The words behind them, with the checksum in place. */
  function Segment(m: Meta, t: Tuple, payload: seq<AxiWord>): seq<AxiWord> {
    var p := PseudoHeader(m, t);
    [Full(p[2])] + LastHeader(Checked(p[3], Checksum.TxChecksum(Summed(m, t, payload))), payload)
  }

  // ---------------------------------------------------------------- parsing

  datatype Rx = Rx(data: seq<AxiWord>, valid: seq<bool>, metas: seq<Meta>, tuples: seq<Tuple>, ports: seq<B2>)

  /** The registers of `rxCheckTCPchecksum`; `half` is the word whose upper half waits. */
  datatype Csa = Csa(
    sums: Checksum.Lanes, dataOffset: nat, wordCount: nat, tuple: Tuple, shift: bool, wasLast: bool,
    checkChecksum: bool, half: AxiWord, meta: Meta, port: B2, ccState: nat,
    dataIn: seq<AxiWord>, out: Rx)

  /** A bit of a byte. */
  predicate BitOf(b: Byte, weight: nat)
    requires weight > 0
  {
    b / weight % 2 == 1
  }

  function Offset(w: AxiWord): nat {
    w.data[0] / 16
  }

  /** The header field of the first four words. */
  function Field(s: Csa, w: AxiWord): Csa {
    match s.wordCount
    case 0 =>
      s.(dataOffset := 0xFF, shift := false, tuple := s.tuple.(srcIp := w.data[..4], dstIp := w.data[4..]))
    case 1 =>
      s.(meta := s.meta.(length := Get16(w.data, 2)),
         tuple := s.tuple.(srcPort := w.data[4..6], dstPort := w.data[6..]), port := w.data[6..])
    case 2 => s.(meta := s.meta.(seqNumb := Get32(w.data, 0), ackNumb := Get32(w.data, 4)))
    case _ =>
      s.(dataOffset := Offset(w),
         meta := s.meta.(length := (s.meta.length - Offset(w) * 4) % 0x1_0000,
                         ack := BitOf(w.data[1], 16), rst := BitOf(w.data[1], 4), syn := BitOf(w.data[1], 2),
                         fin := BitOf(w.data[1], 1), winSize := Get16(w.data, 2)))
  }

  /** A word behind the fourth one: options that are skipped, or payload. The flag tells
      whether the word that is sent is the last one. */
  function Body(s: Csa, w: AxiWord): (Csa, bool) {
    if s.dataOffset > 6 then (s.(dataOffset := s.dataOffset - 2), false)
    else if s.dataOffset == 6 then (s.(dataOffset := 5, shift := true, half := w), !Strip.KeepBit4(w.keep))
    else if !s.shift || s.half.keep != 0xFF then (s.(out := s.out.(data := s.out.data + [w])), w.last)
    else (s.(out := s.out.(data := s.out.data + [Strip.Half(s.half, w)]), half := w), !Strip.KeepBit4(w.keep))
  }

  function CsaWord(s: Csa): Csa
    requires s.dataIn != []
  {
    var w := s.dataIn[0];
    var (r, sent) := if s.wordCount < 4 then (Field(s, w), w.last) else Body(s, w);
    Ended(r, w, sent)
  }

  /** The word's share of the sums, and the end of the packet. */
  function Ended(s: Csa, w: AxiWord, sent: bool): Csa
    requires s.dataIn != []
  {
    var q := s.(dataIn := s.dataIn[1..], sums := Checksum.SumWord(s.sums, w), wordCount := (s.wordCount
        + 1) % 0x1_0000);
    if w.last then q.(wordCount := 0, wasLast := !sent, checkChecksum := true) else q
  }

  /** The verdict: a good packet is announced, and one with data gets its flag either way. */
  function Verdict(s: Csa, valid: bool): Csa {
    var o := s.out;
    var p := if valid then o.(metas := o.metas + [s.meta], ports := o.ports + [s.port], tuples := o.tuples
        + [s.tuple]) else o;
    s.(checkChecksum := false, out := if s.meta.length != 0 then p.(valid := p.valid + [valid]) else p)
  }

  function CheckStep(s: Csa): Csa {
    var (c, v) := Checksum.CheckTick(Checksum.Checker(s.sums, s.ccState));
    var r := s.(sums := c.sums, ccState := c.state);
    if v.None? then r else Verdict(r, v.value)
  }

  /** One clock cycle with room in the outputs. */
  function CsaStep(s: Csa): Csa {
    if s.dataIn != [] && !s.checkChecksum then CsaWord(s)
    else if s.wasLast then
      if s.meta.length != 0 && Strip.KeepBit4(s.half.keep)
      then s.(out := s.out.(data := s.out.data + [Strip.Flush(s.half)]), wasLast := false)
      else s.(wasLast := false)
    else if s.checkChecksum then CheckStep(s)
    else s
  }

  /** `n` cycles that are not held up. */
  function CsaRun(s: Csa, n: nat): Csa {
    Iterate(CsaStep, s, n)
  }

  predicate CsaIdle(s: Csa) {
    s.sums == Checksum.ZERO_LANES && s.wordCount == 0 && !s.wasLast && !s.checkChecksum && s.ccState == 0
  }

  /** What the header of a packet says, read from its bytes. */
  function MetaOf(b: seq<Byte>): Meta
    requires |b| >= 32
  {
    Meta(Get32(b, 16), Get32(b, 20), Get16(b, 26), (Get16(b, 10) - b[24] / 16 * 4) % 0x1_0000,
         BitOf(b[25], 16), BitOf(b[25], 4), BitOf(b[25], 2), BitOf(b[25], 1))
  }

  function TupleOf(b: seq<Byte>): Tuple
    requires |b| >= 32
  {
    Tuple(b[..4], b[4..8], b[12..14], b[14..16])
  }

  // ---------------------------------------------------------------- where the payload starts

  /** The words behind the fourth that hold nothing but options. */
  function Skip(offset: nat): nat {
    if offset <= 6 then 0 else (offset - 5) / 2
  }

  /** The payload starts in the middle of a word. */
  predicate Shifted(offset: nat) {
    offset >= 6 && offset % 2 == 0
  }

  /** Each word's upper half with the next one's lower half. */
  function Halves(t: seq<AxiWord>): seq<AxiWord>
    requires t != []
    decreases |t|
  {
    if |t| == 1 then [] else [Shift(4, t[0], t[1])] + Halves(t[1..])
  }

  /** The upper half of the last word, which leaves only if the length is not zero. */
  function Leftover(w: AxiWord, length: nat): seq<AxiWord> {
    if Strip.KeepBit4(w.keep) && length != 0 then [Strip.Flush(w)] else []
  }

  /** The payload's words: `ws` are the words behind the fourth, and `length` is what the length
      field and the offset make it. */
  function PayloadOf(offset: nat, length: nat, ws: seq<AxiWord>): seq<AxiWord> {
    if |ws| <= Skip(offset) then []
    else
      var t := ws[Skip(offset)..];
      if Shifted(offset) then Halves(t) + Leftover(t[|t| - 1], length) else t
  }

  /** What the parser hands on for a packet with the bytes `b`. */
  function Parsed(o: Rx, b: seq<Byte>, payload: seq<AxiWord>, valid: bool): Rx
    requires |b| >= 32
  {
    var m, t := MetaOf(b), TupleOf(b);
    Rx(o.data + payload,
       o.valid + if m.length != 0 then [valid] else [],
       o.metas + if valid then [m] else [],
       o.tuples + if valid then [t] else [],
       o.ports + if valid then [t.dstPort] else [])
  }

  // ---------------------------------------------------------------- the parser on one packet

  /** The sums after more words. */
  function SumAll(l: Checksum.Lanes, ws: seq<AxiWord>): Checksum.Lanes
    decreases |ws|
  {
    if ws == [] then l else SumAll(Checksum.SumWord(l, ws[0]), ws[1..])
  }

  lemma {:induction false} SumAllIs(a: seq<AxiWord>, b: seq<AxiWord>)
    ensures SumAll(Checksum.LaneSums(a), b) == Checksum.LaneSums(a + b)
    decreases |b|
  {
    if b == [] {
      assert a + b == a;
    } else {
      assert (a + [b[0]])[..|a|] == a;
      SumAllIs(a + [b[0]], b[1..]);
      assert a + [b[0]] + b[1..] == a + b;
    }
  }

  /** A header word that is read: its fields and its share of the sums. */
  function Fed(s: Csa, w: AxiWord): Csa {
    Field(s, w).(sums := Checksum.SumWord(s.sums, w), wordCount := s.wordCount + 1)
  }

  lemma StepFed(s: Csa, w: AxiWord, t: seq<AxiWord>)
    requires s.dataIn == [w] + t && s.wordCount < 4 && !s.checkChecksum && FullWord(w)
    ensures CsaStep(s) == Fed(s, w).(dataIn := t)
  {
    assert s.dataIn[0] == w && s.dataIn[1..] == t;
  }

  /** The fourth word, which is the last one if there is no payload. */
  lemma StepFourth(s: Csa, w: AxiWord, t: seq<AxiWord>)
    requires s.dataIn == [w] + t && s.wordCount == 3 && !s.checkChecksum && !s.wasLast
    ensures var r := Fed(s, w).(dataIn := t);
            CsaStep(s) == if w.last then r.(wordCount := 0, checkChecksum := true) else r
  {
    assert s.dataIn[0] == w && s.dataIn[1..] == t;
  }

  lemma OneStep(s: Csa)
    ensures CsaRun(s, 1) == CsaStep(s)
  {
    assert CsaRun(CsaStep(s), 0) == CsaStep(s);
  }

  lemma MoreSteps(s: Csa, q: Csa, n: nat, r: Csa)
    requires CsaStep(s) == q && CsaRun(q, n) == r
    ensures CsaRun(s, n + 1) == r
  {
  }

  /** Runs one after the other. */
  lemma InTurn(s: Csa, m: nat, a: Csa, n: nat, b: Csa)
    requires CsaRun(s, m) == a && CsaRun(a, n) == b
    ensures CsaRun(s, m + n) == b
  {
    IterateAdd(CsaStep, s, m, n);
  }

  /** A word in the middle of the body, and what `CsaStep` makes of the last one. */
  function Counted(s: Csa, w: AxiWord, t: seq<AxiWord>): Csa {
    s.(dataIn := t, sums := Checksum.SumWord(s.sums, w), wordCount := s.wordCount + 1)
  }

  function LastCounted(s: Csa, w: AxiWord, t: seq<AxiWord>, more: bool): Csa {
    s.(dataIn := t, sums := Checksum.SumWord(s.sums, w), wordCount := 0, checkChecksum := true, wasLast := more)
  }

  predicate InBody(s: Csa) {
    4 <= s.wordCount < 0xFFFF && !s.checkChecksum && !s.wasLast
  }

  lemma StepBody(s: Csa, w: AxiWord, t: seq<AxiWord>)
    requires s.dataIn == [w] + t && InBody(s) && s.dataOffset <= 5 && !s.shift
    ensures var r := s.(out := s.out.(data := s.out.data + [w]));
            CsaStep(s) == if w.last then LastCounted(r, w, t, false) else Counted(r, w, t)
  {
    assert s.dataIn[0] == w && s.dataIn[1..] == t;
  }

  lemma StepSkip(s: Csa, w: AxiWord, t: seq<AxiWord>)
    requires s.dataIn == [w] + t && InBody(s) && s.dataOffset > 6
    ensures var r := s.(dataOffset := s.dataOffset - 2);
            CsaStep(s) == if w.last then LastCounted(r, w, t, true) else Counted(r, w, t)
  {
    assert s.dataIn[0] == w && s.dataIn[1..] == t;
  }

  lemma StepBegin(s: Csa, w: AxiWord, t: seq<AxiWord>)
    requires s.dataIn == [w] + t && InBody(s) && s.dataOffset == 6
    ensures var r := s.(dataOffset := 5, shift := true, half := w);
            CsaStep(s) == if w.last then LastCounted(r, w, t, Strip.KeepBit4(w.keep)) else Counted(r, w, t)
  {
    assert s.dataIn[0] == w && s.dataIn[1..] == t;
  }

  lemma StepShift(s: Csa, w: AxiWord, t: seq<AxiWord>)
    requires s.dataIn == [w] + t && InBody(s) && s.dataOffset <= 5 && s.shift && s.half.keep == 0xFF
    ensures var r := s.(half := w, out := s.out.(data := s.out.data + [Shift(4, s.half, w)]));
            CsaStep(s) == if w.last then LastCounted(r, w, t, Strip.KeepBit4(w.keep)) else Counted(r, w, t)
  {
    assert s.dataIn[0] == w && s.dataIn[1..] == t;
  }

  /** The state when the last word of a packet was read in `s`: the checksum is due, behind what
      is left of the last word if `more` says so. */
  function ReadTo(s: Csa, sums: Checksum.Lanes, rest: seq<AxiWord>, sent: seq<AxiWord>, more: bool): Csa {
    s.(dataIn := rest, sums := sums, wordCount := 0, checkChecksum := true, wasLast := more,
       out := s.out.(data := s.out.data + sent))
  }

  function AllRead(s: Csa, ws: seq<AxiWord>, rest: seq<AxiWord>, sent: seq<AxiWord>, more: bool): Csa {
    ReadTo(s, SumAll(s.sums, ws), rest, sent, more)
  }

  lemma {:induction false} BodyRuns(s: Csa, ws: seq<AxiWord>, rest: seq<AxiWord>)
    requires s.dataIn == ws + rest && Packed(ws) && InBody(s) && s.wordCount + |ws| < 0x1_0000
    requires s.dataOffset <= 5 && !s.shift
    ensures CsaRun(s, |ws|) == AllRead(s, ws, rest, ws, false)
    decreases |ws|
  {
    var w, t := ws[0], ws[1..];
    assert s.dataIn == [w] + (t + rest);
    StepBody(s, w, t + rest);
    if |ws| == 1 {
      assert ws == [w] && t + rest == rest;
      assert SumAll(s.sums, ws) == SumAll(Checksum.SumWord(s.sums, w), []);
      OneStep(s);
    } else {
      Next(ws);
      BodyRuns(CsaStep(s), t, rest);
      assert s.out.data + [w] + t == s.out.data + ws;
    }
  }

  lemma {:induction false} ShiftRuns(s: Csa, ws: seq<AxiWord>, rest: seq<AxiWord>)
    requires s.dataIn == ws + rest && Packed(ws) && InBody(s) && s.wordCount + |ws| < 0x1_0000
    requires s.dataOffset <= 5 && s.shift && s.half.keep == 0xFF
    ensures var z := ws[|ws| - 1];
            CsaRun(s, |ws|) == AllRead(s.(half := z), ws, rest, Halves([s.half] + ws), Strip.KeepBit4(z.keep))
    decreases |ws|
  {
    var w, t := ws[0], ws[1..];
    assert s.dataIn == [w] + (t + rest);
    StepShift(s, w, t + rest);
    HalvesCons(s.half, w, t);
    if |ws| == 1 {
      assert ws == [w] && t + rest == rest;
      assert SumAll(s.sums, ws) == SumAll(Checksum.SumWord(s.sums, w), []);
      OneStep(s);
    } else {
      Next(ws);
      ShiftRuns(CsaStep(s), t, rest);
      Assoc(s.out.data, Shift(4, s.half, w), Halves([w] + t));
    }
  }

  lemma HalvesCons(prev: AxiWord, w: AxiWord, t: seq<AxiWord>)
    ensures Halves([prev] + ([w] + t)) == [Shift(4, prev, w)] + Halves([w] + t)
    ensures t == [] ==> Halves([w] + t) == []
  {
    assert ([prev] + ([w] + t))[1..] == [w] + t;
  }

  lemma {:induction false} SkipRuns(s: Csa, ws: seq<AxiWord>, rest: seq<AxiWord>)
    requires s.dataIn == ws + rest && AllFull(ws) && InBody(s) && s.wordCount + |ws| < 0xFFFF
    requires ws == [] || s.dataOffset >= 5 + 2 * |ws|
    ensures CsaRun(s, |ws|) == s.(dataIn := rest, sums := SumAll(s.sums, ws), wordCount := s.wordCount + |ws|,
                                  dataOffset := s.dataOffset - 2 * |ws|)
    decreases |ws|
  {
    if ws == [] {
      assert ws + rest == rest;
    } else {
      var w, t := ws[0], ws[1..];
      assert s.dataIn == [w] + (t + rest);
      StepSkip(s, w, t + rest);
      assert forall k :: 0 <= k < |t| ==> t[k] == ws[k + 1];
      SkipRuns(CsaStep(s), t, rest);
    }
  }

  lemma ThreeSteps(s: Csa)
    ensures CsaRun(s, 3) == CsaStep(CsaStep(CsaStep(s)))
  {
    var s1, s2 := CsaStep(s), CsaStep(CsaStep(s));
    assert CsaRun(s, 3) == CsaRun(s1, 2) == CsaRun(s2, 1);
    OneStep(s2);
  }

  /** The registers after the four header words. */
  function HeaderRead(s: Csa, r0: AxiWord, r1: AxiWord, r2: AxiWord, r3: AxiWord): Csa {
    Fed(Fed(Fed(Fed(s, r0), r1), r2), r3)
  }

  lemma HeaderRuns(s: Csa, r0: AxiWord, r1: AxiWord, r2: AxiWord, t: seq<AxiWord>)
    requires CsaIdle(s) && FullWord(r0) && FullWord(r1) && FullWord(r2) && s.dataIn == [r0] + ([r1] + ([r2] + t))
    ensures CsaRun(s, 3) == Fed(Fed(Fed(s, r0), r1), r2).(dataIn := t)
  {
    StepFed(s, r0, [r1] + ([r2] + t));
    var s1 := CsaStep(s);
    StepFed(s1, r1, [r2] + t);
    StepFed(CsaStep(s1), r2, t);
    ThreeSteps(s);
  }

  lemma FedKeeps(s: Csa, r0: AxiWord, r1: AxiWord, r2: AxiWord, r3: AxiWord)
    requires CsaIdle(s)
    ensures var h := HeaderRead(s, r0, r1, r2, r3);
            && h.wordCount == 4 && h.dataOffset == Offset(r3) && !h.shift && !h.wasLast && !h.checkChecksum
                && h.ccState == 0
            && h.out == s.out && h.sums == SumAll(s.sums, [r0] + ([r1] + ([r2] + [r3])))
    ensures var h := Fed(Fed(Fed(s, r0), r1), r2);
            h.wordCount == 3 && !h.wasLast && !h.checkChecksum
  {
    SumFirst(s.sums, r0, [r1] + ([r2] + [r3]));
    SumFirst(Fed(s, r0).sums, r1, [r2] + [r3]);
    SumFirst(Fed(Fed(s, r0), r1).sums, r2, [r3]);
    SumFirst(Fed(Fed(Fed(s, r0), r1), r2).sums, r3, []);
    assert [r3] + [] == [r3];
  }

  lemma SumFirst(l: Checksum.Lanes, w: AxiWord, t: seq<AxiWord>)
    ensures SumAll(l, [w] + t) == SumAll(Checksum.SumWord(l, w), t)
  {
    assert ([w] + t)[1..] == t;
  }

  lemma FourRead(s: Csa, r0: AxiWord, r1: AxiWord, r2: AxiWord, r3: AxiWord, t: seq<AxiWord>)
    requires CsaIdle(s) && FullWord(r0) && FullWord(r1) && FullWord(r2)
    requires s.dataIn == [r0] + ([r1] + ([r2] + ([r3] + t)))
    ensures var h := HeaderRead(s, r0, r1, r2, r3).(dataIn := t);
            CsaRun(s, 4) == if r3.last then h.(wordCount := 0, checkChecksum := true) else h
  {
    HeaderRuns(s, r0, r1, r2, [r3] + t);
    FedKeeps(s, r0, r1, r2, r3);
    var s3 := CsaRun(s, 3);
    StepFourth(s3, r3, t);
    OneStep(s3);
    InTurn(s, 3, s3, 1, CsaStep(s3));
  }

  // ---------------------------------------------------------------- options and payload

  lemma {:induction false} SumAllSplit(l: Checksum.Lanes, a: seq<AxiWord>, b: seq<AxiWord>)
    ensures SumAll(l, a + b) == SumAll(SumAll(l, a), b)
    decreases |a|
  {
    if a == [] {
      assert a + b == b;
    } else {
      assert (a + b)[0] == a[0] && (a + b)[1..] == a[1..] + b;
      SumAllSplit(Checksum.SumWord(l, a[0]), a[1..], b);
    }
  }

  /** The words that are sent before what is left of the last one, and whether a cycle is spent
      on that. */
  function SentOf(offset: nat, ws: seq<AxiWord>): seq<AxiWord> {
    if |ws| <= Skip(offset) then []
    else if Shifted(offset) then Halves(ws[Skip(offset)..])
    else ws[Skip(offset)..]
  }

  predicate MoreOf(offset: nat, ws: seq<AxiWord>) {
    ws != [] && (|ws| <= Skip(offset) || (Shifted(offset) && Strip.KeepBit4(ws[|ws| - 1].keep)))
  }

  /** `r` is `h` when it has read the words `ws` behind the header, whose sums are `sums`. */
  predicate BodyRead(h: Csa, ws: seq<AxiWord>, sums: Checksum.Lanes, rest: seq<AxiWord>, r: Csa) {
    && r == ReadTo(h.(dataOffset := r.dataOffset, shift := r.shift, half := r.half), sums, rest,
                   SentOf(h.dataOffset, ws), MoreOf(h.dataOffset, ws))
    && (Shifted(h.dataOffset) && |ws| > Skip(h.dataOffset) ==> r.half == ws[|ws| - 1])
  }

  lemma Cut(ws: seq<AxiWord>, rest: seq<AxiWord>, k: nat)
    requires Packed(ws) && k < |ws|
    ensures AllFull(ws[..k]) && Packed(ws[k..]) && ws == ws[..k] + ws[k..]
    ensures ws + rest == ws[..k] + (ws[k..] + rest)
  {
    PackedTail(ws, k);
    assert forall i :: 0 <= i < k ==> ws[..k][i] == ws[..|ws| - 1][i];
  }

  /** The packet ends in its options. */
  lemma SkippedRuns(h: Csa, ws: seq<AxiWord>, rest: seq<AxiWord>)
    requires h.dataIn == ws + rest && Packed(ws) && InBody(h) && h.wordCount == 4 && |ws| < 0x8000
    requires |ws| <= Skip(h.dataOffset)
    ensures BodyRead(h, ws, SumAll(h.sums, ws), rest, CsaRun(h, |ws|))
  {
    var n := |ws| - 1;
    Cut(ws, rest, n);
    assert ws[n..] == [ws[n]];
    SkipRuns(h, ws[..n], [ws[n]] + rest);
    var q := CsaRun(h, n);
    StepSkip(q, ws[n], rest);
    OneStep(q);
    InTurn(h, n, q, 1, CsaStep(q));
    SumAllSplit(h.sums, ws[..n], [ws[n]]);
    SumFirst(q.sums, ws[n], []);
    assert [ws[n]] + [] == [ws[n]];
    assert h.out.data + [] == h.out.data;
  }

  lemma HalvedRuns(h: Csa, ws: seq<AxiWord>, rest: seq<AxiWord>)
    requires h.dataIn == ws + rest && Packed(ws) && InBody(h) && h.wordCount + |ws| < 0x1_0000 && h.dataOffset == 6
    ensures var z := ws[|ws| - 1];
            CsaRun(h, |ws|) == AllRead(h.(dataOffset := 5, shift := true, half := z), ws, rest, Halves(ws),
                Strip.KeepBit4(z.keep))
  {
    var r := CsaRun(h, |ws|);
    if |ws| == 1 {
      FirstOf(ws, rest);
      HalvedOne(h, ws[0], rest);
    } else {
      Next(ws);
      FirstOf(ws, rest);
      r := HalvedMore(h, ws[0], ws[1..], rest);
    }
  }

  lemma FirstOf(ws: seq<AxiWord>, rest: seq<AxiWord>)
    requires ws != []
    ensures ws == [ws[0]] + ws[1..] && ws + rest == [ws[0]] + (ws[1..] + rest)
    ensures |ws| == 1 ==> ws == [ws[0]] && ws + rest == [ws[0]] + rest
  {
    var w, t := ws[0], ws[1..];
    assert ws == [w] + t;
    assert ([w] + t) + rest == [w] + (t + rest);
    if |ws| == 1 { assert t == [] && t + rest == rest && [w] + t == [w]; }
  }

  lemma HalvedMore(h: Csa, w: AxiWord, t: seq<AxiWord>, rest: seq<AxiWord>) returns (r: Csa)
    requires h.dataIn == [w] + (t + rest) && FullWord(w) && Packed(t) && InBody(h) && h.dataOffset == 6
    requires h.wordCount + |t| + 1 < 0x1_0000
    ensures r == CsaRun(h, |t| + 1) && var z := ([w] + t)[|t|];
            r == AllRead(h.(dataOffset := 5, shift := true, half := z), [w] + t, rest, Halves([w] + t),
                Strip.KeepBit4(z.keep))
  {
    var q := h.(dataOffset := 5, shift := true, half := w);
    var c := Counted(q, w, t + rest);
    StepBegin(h, w, t + rest);
    ShiftRuns(c, t, rest);
    r := CsaRun(c, |t|);
    HalvedRead(q, w, t, rest, r);
    MoreSteps(h, c, |t|, r);
  }

  lemma HalvedOne(h: Csa, w: AxiWord, rest: seq<AxiWord>)
    requires h.dataIn == [w] + rest && w.last && InBody(h) && h.dataOffset == 6
    ensures CsaRun(h, 1) == AllRead(h.(dataOffset := 5, shift := true, half := w), [w], rest, [],
        Strip.KeepBit4(w.keep))
  {
    StepBegin(h, w, rest);
    OneStep(h);
    SumFirst(h.sums, w, []);
    assert [w] + [] == [w];
    assert h.out.data + [] == h.out.data;
  }

  lemma HalvedRead(q: Csa, w: AxiWord, t: seq<AxiWord>, rest: seq<AxiWord>, r: Csa)
    requires t != [] && var z := t[|t| - 1];
             r == AllRead(Counted(q, w, t + rest).(half := z), t, rest, Halves([w] + t), Strip.KeepBit4(z.keep))
    ensures var z := ([w] + t)[|t|];
            r == AllRead(q.(half := z), [w] + t, rest, Halves([w] + t), Strip.KeepBit4(z.keep))
  {
    SumFirst(q.sums, w, t);
  }

  lemma OptionsRuns(h: Csa, ws: seq<AxiWord>, rest: seq<AxiWord>)
    requires h.dataIn == ws + rest && Packed(ws) && InBody(h) && h.wordCount == 4 && |ws| < 0x8000
    requires !h.shift && |ws| > Skip(h.dataOffset)
    ensures BodyRead(h, ws, SumAll(h.sums, ws), rest, CsaRun(h, |ws|))
  {
    var k := Skip(h.dataOffset);
    Cut(ws, rest, k);
    SkipRuns(h, ws[..k], ws[k..] + rest);
    var q := h.(dataIn := ws[k..] + rest, sums := SumAll(h.sums, ws[..k]), wordCount := 4 + k,
        dataOffset := h.dataOffset - 2 * k);
    var r := BehindOptions(q, ws[k..], rest);
    SumAllSplit(h.sums, ws[..k], ws[k..]);
    OptionsRead(h, k, q, ws, SumAll(h.sums, ws), rest, r);
    InTurn(h, k, q, |ws| - k, r);
  }

  lemma OptionsRead(h: Csa, k: nat, q: Csa, ws: seq<AxiWord>, sums: Checksum.Lanes, rest: seq<AxiWord>, r: Csa)
    requires k == Skip(h.dataOffset) < |ws| && BehindRead(q, ws[k..], sums, rest, r) && !h.shift
    requires q == h.(dataIn := ws[k..] + rest, sums := q.sums, wordCount := 4 + k, dataOffset := h.dataOffset - 2 * k)
    ensures BodyRead(h, ws, sums, rest, r)
  {
    assert ws[k..][|ws| - k - 1] == ws[|ws| - 1];
  }

  /** `r` is `q` when it has read a payload that starts in front of it or in its middle. */
  predicate BehindRead(q: Csa, ws: seq<AxiWord>, sums: Checksum.Lanes, rest: seq<AxiWord>, r: Csa)
    requires ws != []
  {
    var z := ws[|ws| - 1];
    if q.dataOffset == 6
    then r == ReadTo(q.(dataOffset := 5, shift := true, half := z), sums, rest, Halves(ws), Strip.KeepBit4(z.keep))
    else r == ReadTo(q, sums, rest, ws, false)
  }

  lemma BehindOptions(q: Csa, ws: seq<AxiWord>, rest: seq<AxiWord>) returns (r: Csa)
    requires q.dataIn == ws + rest && Packed(ws) && InBody(q) && q.wordCount + |ws| < 0x1_0000
    requires q.dataOffset <= 6 && !q.shift
    ensures r == CsaRun(q, |ws|) && BehindRead(q, ws, SumAll(q.sums, ws), rest, r)
  {
    r := CsaRun(q, |ws|);
    if q.dataOffset == 6 {
      HalvedRuns(q, ws, rest);
    } else {
      BodyRuns(q, ws, rest);
    }
  }

  /** All words of a packet are read. */
  lemma PacketRead(s: Csa, r0: AxiWord, r1: AxiWord, r2: AxiWord, r3: AxiWord, ws: seq<AxiWord>, rest: seq<AxiWord>)
    requires CsaIdle(s) && FullWord(r0) && FullWord(r1) && FullWord(r2) && |ws| < 0x8000
    requires if ws == [] then r3.last else FullWord(r3) && Packed(ws)
    requires s.dataIn == [r0] + ([r1] + ([r2] + ([r3] + (ws + rest))))
    ensures var h := HeaderRead(s, r0, r1, r2, r3);
            BodyRead(h, ws, SumAll(h.sums, ws), rest, CsaRun(s, 4 + |ws|))
  {
    FourRead(s, r0, r1, r2, r3, ws + rest);
    FedKeeps(s, r0, r1, r2, r3);
    if ws == [] { assert ws + rest == rest; }
    var r := ReadsBody(HeaderRead(s, r0, r1, r2, r3), CsaRun(s, 4), ws, rest);
    InTurn(s, 4, CsaRun(s, 4), |ws|, r);
  }

  lemma ReadsBody(h: Csa, c: Csa, ws: seq<AxiWord>, rest: seq<AxiWord>) returns (r: Csa)
    requires h.wordCount == 4 && !h.checkChecksum && !h.wasLast && !h.shift && |ws| < 0x8000
    requires if ws == [] then c == h.(dataIn := rest, wordCount := 0, checkChecksum := true)
             else Packed(ws) && c == h.(dataIn := ws + rest)
    ensures r == CsaRun(c, |ws|) && BodyRead(h, ws, SumAll(h.sums, ws), rest, r)
  {
    r := CsaRun(c, |ws|);
    if ws == [] {
      assert h.out.data + [] == h.out.data;
    } else if |ws| <= Skip(h.dataOffset) {
      SkippedRuns(c, ws, rest);
    } else {
      OptionsRuns(c, ws, rest);
    }
  }

  /** What is left of the last word leaves, if the length says that there is a payload. */
  function LeftoverRead(a: Csa, z: AxiWord): Csa {
    a.(wasLast := false, out := a.out.(data := a.out.data + if a.wasLast then Leftover(z, a.meta.length) else []))
  }

  lemma LeftoverRuns(a: Csa, z: AxiWord)
    requires a.checkChecksum && (a.meta.length != 0 && a.wasLast ==> a.half == z && Strip.KeepBit4(z.keep))
    ensures CsaRun(a, if a.wasLast then 1 else 0) == LeftoverRead(a, z)
  {
    assert a.out.data + [] == a.out.data;
    if a.wasLast {
      OneStep(a);
    }
  }

  // ---------------------------------------------------------------- the verdict

  lemma CheckCycle(s: Csa, c: Checksum.Checker)
    requires s.checkChecksum && !s.wasLast && Checksum.CheckTick(Checksum.Checker(s.sums, s.ccState)) == (c, None)
    ensures CsaStep(s) == s.(sums := c.sums, ccState := c.state)
  {
  }

  lemma FiveSteps(s: Csa, s1: Csa, s2: Csa, s3: Csa, s4: Csa)
    requires CsaStep(s) == s1 && CsaStep(s1) == s2 && CsaStep(s2) == s3 && CsaStep(s3) == s4
    ensures CsaRun(s, 5) == CsaStep(s4)
  {
    assert CsaRun(s, 5) == CsaRun(s1, 4) && CsaRun(s2, 3) == CsaRun(s3, 2);
    OneStep(s4);
  }

  lemma CheckRuns(s: Csa)
    requires s.checkChecksum && !s.wasLast && s.ccState == 0
    requires s.sums[0] < 0x1_0000 && s.sums[1] < 0x1_0000 && s.sums[2] < 0x1_0000 && s.sums[3] < 0x1_0000
    ensures CsaRun(s, 5) == Verdict(s.(sums := Checksum.ZERO_LANES), Checksum.Combine(s.sums) == 0xFFFF)
  {
    var c1, c2, c3, c4 := CheckTicks(s.sums);
    var s1, s2 := s.(sums := c1.sums, ccState := 1), s.(sums := c2.sums, ccState := 2);
    var s3, s4 := s.(sums := c3.sums, ccState := 3), s.(sums := c4.sums, ccState := 4);
    CheckCycle(s, c1);
    CheckCycle(s1, c2);
    CheckCycle(s2, c3);
    CheckCycle(s3, c4);
    FiveSteps(s, s1, s2, s3, s4);
    VerdictCycle(s4, Checksum.Combine(s.sums) == 0xFFFF);
  }

  lemma VerdictCycle(s: Csa, valid: bool)
    requires s.checkChecksum && !s.wasLast
    requires Checksum.CheckTick(Checksum.Checker(s.sums, s.ccState)) == (Checksum.Checker(Checksum.ZERO_LANES, 0),
        Some(valid))
    ensures CsaStep(s) == Verdict(s.(sums := Checksum.ZERO_LANES, ccState := 0), valid)
  {
  }

  lemma CheckTicks(sums: Checksum.Lanes)
    returns (c1: Checksum.Checker, c2: Checksum.Checker, c3: Checksum.Checker, c4: Checksum.Checker)
    requires sums[0] < 0x1_0000 && sums[1] < 0x1_0000 && sums[2] < 0x1_0000 && sums[3] < 0x1_0000
    ensures Checksum.CheckTick(Checksum.Checker(sums, 0)) == (c1, None) && c1.state == 1
    ensures Checksum.CheckTick(c1) == (c2, None) && c2.state == 2
    ensures Checksum.CheckTick(c2) == (c3, None) && c3.state == 3
    ensures Checksum.CheckTick(c3) == (c4, None) && c4.state == 4
    ensures Checksum.CheckTick(c4) == (Checksum.Checker(Checksum.ZERO_LANES, 0), Some(Checksum.Combine(sums) == 0xFFFF))
  {
    Checksum.TickFolds(sums);
    Checksum.TicksCombine(sums);
    c1 := Checksum.Checker(sums, 1);
    c2 := Checksum.CheckTick(c1).0;
    c3 := Checksum.CheckTick(c2).0;
    c4 := Checksum.CheckTick(c3).0;
    Checksum.TicksDecide(c3);
  }

  /** The four header words and the payload as one packet. */
  function Packet(r0: AxiWord, r1: AxiWord, r2: AxiWord, r3: AxiWord, ws: seq<AxiWord>): seq<AxiWord> {
    [r0] + ([r1] + ([r2] + ([r3] + ws)))
  }

  lemma PacketSums(s: Csa, r0: AxiWord, r1: AxiWord, r2: AxiWord, r3: AxiWord, ws: seq<AxiWord>)
    requires CsaIdle(s)
    ensures SumAll(HeaderRead(s, r0, r1, r2, r3).sums, ws) == Checksum.LaneSums(Packet(r0, r1, r2, r3, ws))
  {
    FedKeeps(s, r0, r1, r2, r3);
    var h := [r0] + ([r1] + ([r2] + [r3]));
    SumAllIs([], h);
    assert [] + h == h;
    SumAllIs(h, ws);
    PacketSplit(r0, r1, r2, r3, ws);
  }

  lemma PacketSplit(r0: AxiWord, r1: AxiWord, r2: AxiWord, r3: AxiWord, ws: seq<AxiWord>)
    ensures [r0] + ([r1] + ([r2] + [r3])) + ws == Packet(r0, r1, r2, r3, ws)
  {
  }

  /** The fields are read from their places in the packet. */
  lemma HeaderFields(s: Csa, r0: AxiWord, r1: AxiWord, r2: AxiWord, r3: AxiWord, b: seq<Byte>)
    requires CsaIdle(s) && |b| >= 32 && b[..32] == r0.data + r1.data + r2.data + r3.data
    ensures var h := HeaderRead(s, r0, r1, r2, r3);
            h.meta == MetaOf(b) && h.tuple == TupleOf(b) && h.port == TupleOf(b).dstPort
  {
    var c := b[..32];
    assert forall i :: 0 <= i < 32 ==> b[i] == c[i];
    assert b[..4] == r0.data[..4] && b[4..8] == r0.data[4..];
    assert b[12..14] == r1.data[4..6] && b[14..16] == r1.data[6..];
  }

  /** The words are those of a packet of at least 32 bytes. */
  predicate Framed(r0: AxiWord, r1: AxiWord, r2: AxiWord, r3: AxiWord, ws: seq<AxiWord>) {
    var b := Bytes(Packet(r0, r1, r2, r3, ws));
    && FullWord(r0) && FullWord(r1) && FullWord(r2) && |ws| < 0x8000
    && (if ws == [] then r3.last else FullWord(r3) && Packed(ws))
    && |b| >= 32 && b[..32] == r0.data + r1.data + r2.data + r3.data
  }

  /** The source uses a value it did not write if the packet ends in its options although the
      length says that there is a payload. */
  predicate Defined(offset: nat, length: nat, ws: seq<AxiWord>) {
    ws == [] || Skip(offset) < |ws| || length == 0
  }

  lemma SentIsPayload(offset: nat, length: nat, ws: seq<AxiWord>, z: AxiWord)
    requires Defined(offset, length, ws) && (ws != [] ==> z == ws[|ws| - 1])
    ensures SentOf(offset, ws) + (if MoreOf(offset, ws) then Leftover(z, length) else []) == PayloadOf(offset,
        length, ws)
  {
  }

  /** The parser on a whole packet, whatever its header says: the verdict is the checksum's,
      the header's fields and the payload behind the options are handed on, and a flag for the
      payload if the length is not zero. */
  lemma ParsesPacket(s: Csa, r0: AxiWord, r1: AxiWord, r2: AxiWord, r3: AxiWord, ws: seq<AxiWord>, rest: seq<AxiWord>)
    returns (n: nat)
    requires CsaIdle(s) && Framed(r0, r1, r2, r3, ws) && s.dataIn == [r0] + ([r1] + ([r2] + ([r3] + (ws + rest))))
    requires Defined(Offset(r3), MetaOf(Bytes(Packet(r0, r1, r2, r3, ws))).length, ws)
    ensures var p := Packet(r0, r1, r2, r3, ws);
            var b, r := Bytes(p), CsaRun(s, n);
            && CsaIdle(r) && r.dataIn == rest
            && r.out == Parsed(s.out, b, PayloadOf(Offset(r3), MetaOf(b).length, ws), Checksum.RxVerdict(p))
  {
    var p := Packet(r0, r1, r2, r3, ws);
    var o, m := Offset(r3), MetaOf(Bytes(p));
    PacketRead(s, r0, r1, r2, r3, ws, rest);
    FedKeeps(s, r0, r1, r2, r3);
    HeaderFields(s, r0, r1, r2, r3, Bytes(p));
    var a := CsaRun(s, 4 + |ws|);
    var z := if ws == [] then r3 else ws[|ws| - 1];
    var b := LeftoverRead(a, z);
    Judged(s, r0, r1, r2, r3, ws, b);
    n := HandsOn(s, HeaderRead(s, r0, r1, r2, r3), 4 + |ws|, a, ws, a.sums, rest, z, Bytes(p), Checksum.RxVerdict(p));
  }

  /** What is left of the last word, and then the verdict. */
  lemma HandsOn(s: Csa, h: Csa, k: nat, a: Csa, ws: seq<AxiWord>, sums: Checksum.Lanes, rest: seq<AxiWord>, z: AxiWord,
                b: seq<Byte>, valid: bool)
    returns (n: nat)
    requires CsaRun(s, k) == a && BodyRead(h, ws, sums, rest, a) && h.ccState == 0 && h.out == s.out
    requires |b| >= 32 && h.meta == MetaOf(b) && h.tuple == TupleOf(b) && h.port == TupleOf(b).dstPort
    requires Defined(h.dataOffset, h.meta.length, ws) && (ws != [] ==> z == ws[|ws| - 1])
    requires CsaRun(LeftoverRead(a, z), 5) == Verdict(LeftoverRead(a, z).(sums := Checksum.ZERO_LANES), valid)
    ensures var r := CsaRun(s, n);
            && CsaIdle(r) && r.dataIn == rest
            && r.out == Parsed(s.out, b, PayloadOf(h.dataOffset, MetaOf(b).length, ws), valid)
  {
    LeftoverRuns(a, z);
    SentIsPayload(h.dataOffset, h.meta.length, ws, z);
    var c := LeftoverRead(a, z);
    var j := if a.wasLast then 1 else 0;
    n := k + j + 5;
    InTurn(s, k, a, j, c);
    InTurn(s, k + j, c, 5, CsaRun(c, 5));
    Regroup(s.out.data, SentOf(h.dataOffset, ws), if a.wasLast then Leftover(z, a.meta.length) else []);
    VerdictIsParsed(s.out, c.(sums := Checksum.ZERO_LANES), b, PayloadOf(h.dataOffset, h.meta.length, ws), valid);
  }

  lemma Judged(s: Csa, r0: AxiWord, r1: AxiWord, r2: AxiWord, r3: AxiWord, ws: seq<AxiWord>, a: Csa)
    requires CsaIdle(s) && a.sums == SumAll(HeaderRead(s, r0, r1, r2, r3).sums, ws)
    requires a.checkChecksum && !a.wasLast && a.ccState == 0
    ensures CsaRun(a, 5) == Verdict(a.(sums := Checksum.ZERO_LANES), Checksum.RxVerdict(Packet(r0, r1, r2, r3, ws)))
  {
    var p := Packet(r0, r1, r2, r3, ws);
    PacketSums(s, r0, r1, r2, r3, ws);
    Checksum.LaneSumsAreOnes(p);
    Checksum.FiveTicks(a.sums);
    CheckRuns(a);
  }

  lemma VerdictIsParsed(o: Rx, a: Csa, b: seq<Byte>, ws: seq<AxiWord>, valid: bool)
    requires |b| >= 32 && a.meta == MetaOf(b) && a.tuple == TupleOf(b) && a.port == TupleOf(b).dstPort
    requires a.out == o.(data := o.data + ws)
    ensures Verdict(a, valid).out == Parsed(o, b, ws, valid)
  {
  }

  // ---------------------------------------------------------------- length and payload

  /** Where the payload starts in the packet behind its pseudo header; a data offset below five
      is taken for five. */
  function Start(offset: nat): nat {
    12 + 4 * if offset < 5 then 5 else offset
  }

  /** The bytes behind the header that the data offset names. */
  function Behind(b: seq<Byte>): nat
    requires |b| >= 32
  {
    var start := Start(b[24] / 16);
    if |b| <= start then 0 else |b| - start
  }

  lemma TailBytes(ws: seq<AxiWord>, k: nat)
    requires Packed(ws) && k < |ws|
    ensures 8 * k < |Bytes(ws)| <= 8 * |ws| && Bytes(ws[k..]) == Bytes(ws)[8 * k..]
  {
    Cut(ws, [], k);
    BytesConcat(ws[..k], ws[k..]);
    FullBytes(ws[..k]);
    Cut(ws, [], |ws| - 1);
    FullBytes(ws[..|ws| - 1]);
    assert |Bytes(ws)| == |Bytes(ws[..|ws| - 1])| + |Kept(ws[|ws| - 1])|;
  }

  lemma {:induction false} HalvesIs(t: seq<AxiWord>)
    requires Packed(t) && |t| > 1
    ensures Halves(t) + (if Strip.KeepBit4(t[|t| - 1].keep) then [Strip.Flush(t[|t| - 1])] else [])
            == ShiftBy(4, t[0], t[1..])
    decreases |t|
  {
    Next(t);
    var h := Shift(4, t[0], t[1]);
    if |t| > 2 {
      Next(t[1..]);
      HalvesIs(t[1..]);
    } else {
      assert Halves(t[1..]) == [];
    }
  }

  /** The last of the half-shifted words ends the packet if nothing is left over. */
  lemma {:induction false} HalvesEnd(t: seq<AxiWord>)
    requires Packed(t)
    ensures |Halves(t)| == |t| - 1
    ensures |t| > 1 ==> if Strip.KeepBit4(t[|t| - 1].keep) then AllFull(Halves(t)) else Packed(Halves(t))
    decreases |t|
  {
    if |t| > 1 {
      Next(t);
      HalvesEnd(t[1..]);
      var h := Shift(4, t[0], t[1]);
      if |t| > 2 {
        Next(t[1..]);
        ShiftFull(4, t[0], t[1]);
        if !Strip.KeepBit4(t[|t| - 1].keep) { PackedCons(h, Halves(t[1..])); }
      }
    }
  }

  lemma FlushBytes(w: AxiWord)
    requires w.last && Strip.KeepBit4(w.keep)
    ensures Burst([Strip.Flush(w)], Kept(w)[4..])
  {
    BytesOne(Strip.Flush(w));
    assert Kept(Strip.Flush(w)) == Kept(w)[4..];
  }

  lemma DropFour(d: seq<Byte>, b: seq<Byte>)
    requires |d| == 8
    ensures (d + b)[4..] == d[4..] + b
  {
  }

  lemma HalvedWord(z: AxiWord)
    requires z.last
    ensures var p := if Strip.KeepBit4(z.keep) then [Strip.Flush(z)] else [];
            if |Kept(z)| > 4 then Burst(p, Kept(z)[4..]) else p == []
  {
    if Strip.KeepBit4(z.keep) { FlushBytes(z); }
  }

  lemma HalvedWords(t: seq<AxiWord>)
    requires Packed(t) && |t| > 1
    ensures |Bytes(t)| > 8
    ensures Burst(Halves(t) + if Strip.KeepBit4(t[|t| - 1].keep) then [Strip.Flush(t[|t| - 1])] else [], Bytes(t)[4..])
  {
    HalvesIs(t);
    Next(t);
    ShiftByBytes(4, t[0], t[1..]);
    FullCons(t[0], t[1..]);
    DropFour(t[0].data, Bytes(t[1..]));
    TailBytes(t[1..], 0);
  }

  /** Behind skipped words the shifted payload is what the last four bytes of the first word and
      the other words carry. */
  lemma HalvedBytes(t: seq<AxiWord>, length: nat)
    requires Packed(t) && length != 0
    ensures var p := Halves(t) + Leftover(t[|t| - 1], length);
            if |Bytes(t)| > 4 then Burst(p, Bytes(t)[4..]) else p == []
  {
    var z := t[|t| - 1];
    if |t| == 1 {
      assert t == [z];
      BytesOne(z);
      HalvedWord(z);
      assert Halves(t) + Leftover(z, length) == Leftover(z, length);
    } else {
      HalvedWords(t);
    }
  }

  /** Behind the header: the bytes of the words `ws`. */
  lemma PacketBytes(r0: AxiWord, r1: AxiWord, r2: AxiWord, r3: AxiWord, ws: seq<AxiWord>)
    requires Framed(r0, r1, r2, r3, ws)
    ensures Bytes(ws) == Bytes(Packet(r0, r1, r2, r3, ws))[32..] && Bytes(Packet(r0, r1, r2, r3, ws))[24] == r3.data[0]
  {
    var b := Bytes(Packet(r0, r1, r2, r3, ws));
    FullCons(r0, [r1] + ([r2] + ([r3] + ws)));
    FullCons(r1, [r2] + ([r3] + ws));
    FullCons(r2, [r3] + ws);
    BytesCons(r3, ws);
    assert b[..32][24] == r3.data[0];
    assert b == r0.data + (r1.data + (r2.data + (Kept(r3) + Bytes(ws))));
  }

  /** With a length that is not zero the parser hands on what is behind the header that the data
      offset names, densely packed. */
  lemma PayloadIs(r0: AxiWord, r1: AxiWord, r2: AxiWord, r3: AxiWord, ws: seq<AxiWord>, length: nat)
    requires Framed(r0, r1, r2, r3, ws) && length != 0 && Defined(Offset(r3), length, ws)
    ensures var b, p := Bytes(Packet(r0, r1, r2, r3, ws)), PayloadOf(Offset(r3), length, ws);
            if Behind(b) > 0 then Burst(p, b[Start(Offset(r3))..]) else p == []
  {
    var b, o := Bytes(Packet(r0, r1, r2, r3, ws)), Offset(r3);
    PacketBytes(r0, r1, r2, r3, ws);
    StartIs(o);
    if ws != [] {
      var k := Skip(o);
      TailBytes(ws, k);
      PackedTail(ws, k);
      if Shifted(o) {
        HalvedBytes(ws[k..], length);
        if |b| > Start(o) { assert b[32..][8 * k..][4..] == b[Start(o)..]; }
      } else {
        assert b[32..][8 * k..] == b[Start(o)..];
      }
    }
  }

  lemma StartIs(offset: nat)
    requires offset < 16
    ensures Start(offset) == 32 + 8 * Skip(offset) + if Shifted(offset) then 4 else 0
  {
  }

  /** With the length zero the parser forwards the words behind the header all the same; only
      up to four bytes that wait in the upper half of a word stay behind. */
  lemma EmptyIff(r0: AxiWord, r1: AxiWord, r2: AxiWord, r3: AxiWord, ws: seq<AxiWord>)
    requires Framed(r0, r1, r2, r3, ws)
    ensures var b, p := Bytes(Packet(r0, r1, r2, r3, ws)), PayloadOf(Offset(r3), 0, ws);
            && (p == [] <==> Behind(b) == 0 || (Shifted(Offset(r3)) && Behind(b) <= 4))
            && (p == [] || Packed(p) || AllFull(p))
  {
    var b, o := Bytes(Packet(r0, r1, r2, r3, ws)), Offset(r3);
    PacketBytes(r0, r1, r2, r3, ws);
    StartIs(o);
    if ws != [] {
      TailBytes(ws, |ws| - 1);
    }
    if |ws| > Skip(o) {
      var t := ws[Skip(o)..];
      TailBytes(ws, Skip(o));
      PackedTail(ws, Skip(o));
      TailBytes(t, |t| - 1);
      HalvesEnd(t);
      assert Halves(t) + [] == Halves(t);
    }
  }

  /** The payload's words are those that the length announces: a packet of as many bytes, and
      none for the length zero. */
  predicate Announced(words: seq<AxiWord>, length: nat) {
    if length == 0 then words == [] else Packed(words) && |Bytes(words)| == length
  }

  lemma AnnouncedIs(r0: AxiWord, r1: AxiWord, r2: AxiWord, r3: AxiWord, ws: seq<AxiWord>, length: nat)
    requires Framed(r0, r1, r2, r3, ws) && Defined(Offset(r3), length, ws)
    ensures var n := Behind(Bytes(Packet(r0, r1, r2, r3, ws)));
            Announced(PayloadOf(Offset(r3), length, ws), length) <==>
            length == n || (length == 0 && Shifted(Offset(r3)) && n <= 4)
  {
    PacketBytes(r0, r1, r2, r3, ws);
    if length == 0 {
      EmptyIff(r0, r1, r2, r3, ws);
    } else {
      PayloadIs(r0, r1, r2, r3, ws, length);
    }
  }

  /** Exactly when: the length field is that of the header and of the bytes that are behind it,
      or says that there are none where at most four are left in a half word. */
  lemma AnnouncedIff(r0: AxiWord, r1: AxiWord, r2: AxiWord, r3: AxiWord, ws: seq<AxiWord>)
    requires Framed(r0, r1, r2, r3, ws)
    requires Defined(Offset(r3), MetaOf(Bytes(Packet(r0, r1, r2, r3, ws))).length, ws)
    ensures var b, o := Bytes(Packet(r0, r1, r2, r3, ws)), Offset(r3);
            var length, field := MetaOf(b).length, Get16(b, 10);
            Announced(PayloadOf(o, length, ws), length) <==>
            || (Behind(b) < 0x1_0000 && field == (4 * o + Behind(b)) % 0x1_0000)
            || (field == 4 * o && Shifted(o) && Behind(b) <= 4)
  {
    var b, o := Bytes(Packet(r0, r1, r2, r3, ws)), Offset(r3);
    PacketBytes(r0, r1, r2, r3, ws);
    AnnouncedIs(r0, r1, r2, r3, ws, MetaOf(b).length);
    FieldIff(Get16(b, 10), o, MetaOf(b).length, Behind(b), Shifted(o) && Behind(b) <= 4);
  }

  lemma FieldIff(field: U16, offset: nat, length: int, n: nat, small: bool)
    requires offset < 16 && length == (field - offset * 4) % 0x1_0000
    ensures length == n || (length == 0 && small) <==>
            (n < 0x1_0000 && field == (4 * offset + n) % 0x1_0000) || (field == 4 * offset && small)
  {
    LengthIff(field, offset, n);
    LengthIff(field, offset, 0);
  }

  lemma LengthIff(field: U16, offset: nat, n: nat)
    requires offset < 16
    ensures (field - offset * 4) % 0x1_0000 == n <==> n < 0x1_0000 && field == (4 * offset + n) % 0x1_0000
  {
    var f: int := field;
    if f >= 4 * offset {
      assert (f - offset * 4) % 0x1_0000 == f - offset * 4;
    } else {
      assert (f - offset * 4) % 0x1_0000 == f - offset * 4 + 0x1_0000;
    }
  }

  /** A segment whose header is inside it and whose length field is right: the payload's words
      carry what is behind the header, options or not. */
  lemma OptionsAreSkipped(r0: AxiWord, r1: AxiWord, r2: AxiWord, r3: AxiWord, ws: seq<AxiWord>)
    requires Framed(r0, r1, r2, r3, ws)
    requires var b := Bytes(Packet(r0, r1, r2, r3, ws));
             5 <= Offset(r3) && 12 + 4 * Offset(r3) <= |b| && Get16(b, 10) == |b| - 12
    ensures var b, o := Bytes(Packet(r0, r1, r2, r3, ws)), Offset(r3);
            var length := MetaOf(b).length;
            && length == |b| - 12 - 4 * o && Defined(o, length, ws)
            && Announced(PayloadOf(o, length, ws), length) && Bytes(PayloadOf(o, length, ws)) == b[12 + 4 * o..]
  {
    var b, o := Bytes(Packet(r0, r1, r2, r3, ws)), Offset(r3);
    PacketBytes(r0, r1, r2, r3, ws);
    var length: nat := MetaOf(b).length;
    RightLength(Get16(b, 10), o, |b|);
    InsideWords(o, ws, |b|);
    AnnouncedIff(r0, r1, r2, r3, ws);
    if length != 0 { PayloadIs(r0, r1, r2, r3, ws, length); }
  }

  lemma RightLength(field: U16, offset: nat, n: nat)
    requires 5 <= offset < 16 && 12 + 4 * offset <= n && field == n - 12
    ensures (field - offset * 4) % 0x1_0000 == n - 12 - 4 * offset
    ensures field == (4 * offset + (n - 12 - 4 * offset)) % 0x1_0000
  {
    LengthIff(field, offset, n - 12 - 4 * offset);
  }

  lemma InsideWords(offset: nat, ws: seq<AxiWord>, n: nat)
    requires 5 <= offset < 16 && n >= 12 + 4 * offset && (ws == [] || (Packed(ws) && |Bytes(ws)| == n - 32))
    ensures n > 12 + 4 * offset ==> ws == [] || Skip(offset) < |ws|
  {
    StartIs(offset);
    if ws != [] { TailBytes(ws, |ws| - 1); }
  }

  // ---------------------------------------------------------------- the round trip

  /** A segment as the TX engine makes it: what is behind the header of 20 bytes has the length
      of the metadata, whatever that is; behind a SYN there is one option and no payload. */
  predicate Segmented(m: Meta, payload: seq<AxiWord>, p: seq<Byte>) {
    && |p| == m.length && (if p == [] then payload == [] else Burst(payload, p))
    && (m.syn ==> payload == [MSS_WORD] && p == MSS_OPTION)
  }

  /** Its payload, and what the receiver is to make of its metadata: the option counts in the
      sender's length only. */
  function Carried(m: Meta, p: seq<Byte>): seq<Byte> {
    if m.syn then [] else p
  }

  function Announces(m: Meta): Meta {
    m.(length := if m.syn then 0 else m.length)
  }

  /** There are such SYN segments. */
  lemma SynIsSegmented(m: Meta)
    requires m.syn && m.length == 4
    ensures Segmented(m, [MSS_WORD], MSS_OPTION)
  {
    BytesOne(MSS_WORD);
    assert [MSS_WORD][..0] == [];
  }

  lemma LastHeaderBytes(data: seq<Byte>, payload: seq<AxiWord>, p: seq<Byte>)
    requires |data| == 8 && if p == [] then payload == [] else Burst(payload, p)
    ensures Burst(LastHeader(data, payload), data + p)
  {
    if payload == [] {
      BytesOne(Word(data, 0xFF, true));
      assert data + p == data;
    } else {
      PackedCons(Full(data), payload);
      FullCons(Full(data), payload);
    }
  }

  lemma FullFront(data: seq<Byte>, ws: seq<AxiWord>, p: seq<Byte>)
    requires |data| == 8 && Burst(ws, p)
    ensures Burst([Full(data)] + ws, data + p)
  {
    PackedCons(Full(data), ws);
    FullCons(Full(data), ws);
  }

  lemma SummedBytes(m: Meta, t: Tuple, payload: seq<AxiWord>, p: seq<Byte>)
    requires Segmented(m, payload, p)
    ensures var h := PseudoHeader(m, t);
            Burst(Summed(m, t, payload), h[0] + (h[1] + (h[2] + (h[3] + p))))
  {
    var h := PseudoHeader(m, t);
    LastHeaderBytes(h[3], payload, p);
    FullFront(h[2], LastHeader(h[3], payload), h[3] + p);
    FullFront(h[1], [Full(h[2])] + LastHeader(h[3], payload), h[2] + (h[3] + p));
    FullFront(h[0], [Full(h[1])] + ([Full(h[2])] + LastHeader(h[3], payload)), h[1] + (h[2] + (h[3] + p)));
  }

  lemma SegmentBytes(m: Meta, t: Tuple, payload: seq<AxiWord>, p: seq<Byte>)
    requires Segmented(m, payload, p)
    ensures var h, c := PseudoHeader(m, t), Checksum.TxChecksum(Summed(m, t, payload));
            Burst(Segment(m, t, payload), h[2] + (Checked(h[3], c) + p)) && |Segment(m, t, payload)| > 1
  {
    var h, c := PseudoHeader(m, t), Checksum.TxChecksum(Summed(m, t, payload));
    LastHeaderBytes(Checked(h[3], c), payload, p);
    FullFront(h[2], LastHeader(Checked(h[3], c), payload), Checked(h[3], c) + p);
  }

  lemma PrintedIsIpPacket(m: Meta, t: Tuple, payload: seq<AxiWord>, p: seq<Byte>)
    requires Segmented(m, payload, p)
    ensures Strip.IpPacket(Ip0(m), Ip1(t), Ip2(t), [], Segment(m, t, payload)) && Strip.Before(Ip2(t), []).keep == 0xFF
    ensures Strip.SegmentLength(Ip0(m)) == TcpLength(m)
  {
    SegmentBytes(m, t, payload, p);
    LengthTwice(m);
    FiveWords(m);
  }

  lemma FiveWords(m: Meta)
    ensures Strip.HeaderWords(Ip0(m)) == 5
  {
    assert Ip0(m).data[0] == 0x45;
    assert 0x45 % 16 == 5;
  }

  /** Both truncated lengths wrap alike. */
  lemma LengthTwice(m: Meta)
    ensures Strip.SegmentLength(Ip0(m)) == TcpLength(m)
  {
    var n: int := IpLength(m);
    var d := Ip0(m).data;
    FiveWords(m);
    TwoBytes(n);
    Truncated(m.length);
    assert d[2] == n / 0x100 && d[3] == n % 0x100;
    assert Strip.BigEndian(d[2], d[3]) == n;
  }

  lemma TwoBytes(n: int)
    ensures n / 0x100 * 0x100 + n % 0x100 == n
  {
  }

  lemma Truncated(n: int)
    requires 0 <= n < 0x1_0000
    ensures ((n + 40) % 0x1_0000 - 20) % 0x1_0000 == (n + 20) % 0x1_0000
  {
    if n + 40 >= 0x1_0000 {
      assert (n + 40) % 0x1_0000 == n + 40 - 0x1_0000;
    }
  }

  /** What the first stripping stage leaves behind the header of the printed packet. */
  function BehindHeader(m: Meta, t: Tuple, payload: seq<AxiWord>, p: seq<Byte>): (x: seq<AxiWord>)
    requires Segmented(m, payload, p)
    ensures Packed(x) && |x| > 1
  {
    StrippedSegment(m, t, payload, p);
    Strip.Segment(Ip0(m), Ip2(t), [], Segment(m, t, payload))
  }

  lemma StrippedSegment(m: Meta, t: Tuple, payload: seq<AxiWord>, p: seq<Byte>)
    requires Segmented(m, payload, p)
    ensures Strip.Before(Ip2(t), []).keep == 0xFF && Packed(Segment(m, t, payload))
    ensures var ws := Segment(m, t, payload);
            var x := Strip.Segment(Ip0(m), Ip2(t), [], ws);
            |x| > 1 && Burst(x, Ip2(t).data[4..] + Bytes(ws))
  {
    PrintedIsIpPacket(m, t, payload, p);
    SegmentBytes(m, t, payload, p);
    FiveWords(m);
    ShiftByBytes(4, Ip2(t), Segment(m, t, payload));
    Next(Segment(m, t, payload));
  }

  /** What both stages make of it. */
  function Received(m: Meta, t: Tuple, payload: seq<AxiWord>, p: seq<Byte>): seq<AxiWord>
    requires Segmented(m, payload, p)
  {
    Strip.Stripped(Ip0(m), Ip1(t), Ip2(t), BehindHeader(m, t, payload, p))
  }

  lemma ReceivedBytes(m: Meta, t: Tuple, payload: seq<AxiWord>, p: seq<Byte>)
    requires Segmented(m, payload, p)
    ensures var h, c := PseudoHeader(m, t), Checksum.TxChecksum(Summed(m, t, payload));
            Burst(Received(m, t, payload, p), h[0] + (h[1] + (h[2] + (Checked(h[3], c) + p))))
  {
    var h, c := PseudoHeader(m, t), Checksum.TxChecksum(Summed(m, t, payload));
    PrintedIsIpPacket(m, t, payload, p);
    SegmentBytes(m, t, payload, p);
    StrippedSegment(m, t, payload, p);
    Strip.StrippedBytes(Ip0(m), Ip1(t), Ip2(t), BehindHeader(m, t, payload, p));
    HeaderPieces(m, t);
    Regroup(Strip.LengthBytes(TcpLength(m)), Ip2(t).data[4..], h[2] + (Checked(h[3], c) + p));
  }

  lemma Regroup<T>(a: seq<T>, b: seq<T>, c: seq<T>)
    ensures a + (b + c) == (a + b) + c
  {
  }

  lemma HeaderPieces(m: Meta, t: Tuple)
    ensures var h := PseudoHeader(m, t);
            && Ip1(t).data[4..] + Ip2(t).data[..4] == h[0]
            && Strip.LengthBytes(TcpLength(m)) + Ip2(t).data[4..] == h[1]
  {
    assert Ip2(t).data[4..] == t.srcPort + t.dstPort;
    assert [0, 6] + Be16(TcpLength(m)) == Strip.LengthBytes(TcpLength(m));
  }

  lemma InsertedAt28(a: seq<Byte>, b: seq<Byte>, d: seq<Byte>, e: seq<Byte>, p: seq<Byte>, c: U16)
    requires |a| == |b| == |d| == |e| == 8 && e[4] == 0 && e[5] == 0
    ensures var x := a + (b + (d + (e + p)));
            && Checksum.GetWord(x, 28) == 0
            && a + (b + (d + (Checked(e, c) + p))) == Checksum.PutWord(x, 28, c)
  {
    var x := a + (b + (d + (e + p)));
    assert x[28] == e[4] && x[29] == e[5];
  }

  /** The receiver's checksum test accepts every printed packet. */
  lemma ReceivedIsValid(m: Meta, t: Tuple, payload: seq<AxiWord>, p: seq<Byte>)
    requires Segmented(m, payload, p)
    ensures Checksum.RxVerdict(Received(m, t, payload, p))
  {
    var h, c := PseudoHeader(m, t), Checksum.TxChecksum(Summed(m, t, payload));
    SummedBytes(m, t, payload, p);
    ReceivedBytes(m, t, payload, p);
    InsertedAt28(h[0], h[1], h[2], h[3], p, c);
    Checksum.SentPacketIsAccepted(Summed(m, t, payload), Received(m, t, payload, p), 28);
  }

  /** The first words of a packet of at least 32 bytes. */
  lemma SplitFour(r: seq<AxiWord>, b: seq<Byte>)
    requires Burst(r, b) && |b| >= 32
    ensures |r| >= 4 && 8 * |r| <= |b| + 7
    ensures r == Packet(r[0], r[1], r[2], r[3], r[4..]) && FullWord(r[0]) && FullWord(r[1]) && FullWord(r[2])
    ensures if r[4..] == [] then r[3].last else FullWord(r[3]) && Packed(r[4..])
    ensures r[0].data == b[..8] && r[1].data == b[8..16] && r[2].data == b[16..24] && r[3].data == b[24..32]
  {
    PackedAt(r, b, |r| - 1);
    forall i | 0 <= i < 4 ensures i < |r| && r[i].data == b[8 * i..8 * i + 8] {
      PackedAt(r, b, i);
    }
    PackedAt(r, b, 0);
    PackedAt(r, b, 1);
    PackedAt(r, b, 2);
    PackedAt(r, b, 3);
    if |r| > 4 { PackedTail(r, 4); }
  }

  lemma PackedTail(r: seq<AxiWord>, k: nat)
    requires Packed(r) && k < |r|
    ensures Packed(r[k..])
  {
    assert r[k..][..|r[k..]| - 1] == r[..|r| - 1][k..];
  }

  lemma RestBytes(r: seq<AxiWord>, b: seq<Byte>)
    requires Burst(r, b) && |b| >= 32 && |r| >= 4
    ensures Bytes(r[4..]) == b[32..]
  {
    assert r == r[..4] + r[4..];
    BytesConcat(r[..4], r[4..]);
    SplitFour(r, b);
    assert |Bytes(r[..4])| == 32 by {
      assert r[..4] == r[..3] + [r[3]];
      BytesSnoc(r[..3], r[3]);
      FullBytes(r[..3]);
      PackedAt(r, b, 3);
    }
  }

  /** The header fields of the printed bytes are those that were printed. */
  lemma PrintedFields(m: Meta, t: Tuple, c: U16, p: seq<Byte>)
    requires m.syn ==> m.length == 4
    ensures var h := PseudoHeader(m, t);
            var b := h[0] + (h[1] + (h[2] + (Checked(h[3], c) + p)));
            MetaOf(b) == Announces(m) && TupleOf(b) == t && b[24] / 16 == 5 + Bit(m.syn)
            && b[..32] == h[0] + h[1] + h[2] + Checked(h[3], c) && b[32..] == p
  {
    var h := PseudoHeader(m, t);
    var b := h[0] + (h[1] + (h[2] + (Checked(h[3], c) + p)));
    assert b[..32] == h[0] + h[1] + h[2] + Checked(h[3], c);
    FieldBytes(m, t, h, c, p);
    Get16Of(b, 10, TcpLength(m));
    Get32Of(b, 16, m.seqNumb);
    Get32Of(b, 20, m.ackNumb);
    Get16Of(b, 26, m.winSize);
    FlagBits(m);
    AnnouncedLength(m);
  }

  lemma AnnouncedLength(m: Meta)
    requires m.syn ==> m.length == 4
    ensures OffsetByte(m) / 16 == 5 + Bit(m.syn)
    ensures (TcpLength(m) - (5 + Bit(m.syn)) * 4) % 0x1_0000 == Announces(m).length
  {
    if !m.syn {
      LengthIff(TcpLength(m), 5, m.length);
    }
  }

  lemma FieldBytes(m: Meta, t: Tuple, h: seq<seq<Byte>>, c: U16, p: seq<Byte>)
    requires h == PseudoHeader(m, t)
    ensures var b := h[0] + (h[1] + (h[2] + (Checked(h[3], c) + p)));
            && b[10..12] == Be16(TcpLength(m)) && b[16..20] == Be32(m.seqNumb) && b[20..24] == Be32(m.ackNumb)
            && b[26..28] == Be16(m.winSize) && b[24] == OffsetByte(m) && b[25] == Flags(m)
            && b[..4] == t.srcIp && b[4..8] == t.dstIp && b[12..14] == t.srcPort && b[14..16] == t.dstPort
  {
  }

  lemma FlagBits(m: Meta)
    ensures BitOf(Flags(m), 16) == m.ack && BitOf(Flags(m), 4) == m.rst
         && BitOf(Flags(m), 2) == m.syn && BitOf(Flags(m), 1) == m.fin
  {
  }

  /** Print and parse undo each other: whatever the flags, the numbers, the addresses and the
      payload, the packet that the TX engine builds is accepted by the RX engine and yields
      the same metadata, addresses, ports and payload bytes. The option of a SYN is skipped. */
  lemma RoundTrip(s: Csa, m: Meta, t: Tuple, payload: seq<AxiWord>, p: seq<Byte>) returns (n: nat)
    requires Segmented(m, payload, p) && CsaIdle(s) && s.dataIn == Received(m, t, payload, p)
    ensures var r := CsaRun(s, n);
            && CsaIdle(r) && r.dataIn == []
            && r.out.metas == s.out.metas + [Announces(m)] && r.out.tuples == s.out.tuples + [t]
            && r.out.ports == s.out.ports + [t.dstPort]
            && r.out.valid == s.out.valid + (if Carried(m, p) != [] then [true] else [])
            && |r.out.data| >= |s.out.data| && Bytes(r.out.data[|s.out.data|..]) == Carried(m, p)
  {
    var r, h, c := Received(m, t, payload, p), PseudoHeader(m, t), Checksum.TxChecksum(Summed(m, t, payload));
    var b := h[0] + (h[1] + (h[2] + (Checked(h[3], c) + p)));
    ReceivedBytes(m, t, payload, p);
    PrintedFields(m, t, c, p);
    SplitFour(r, b);
    RestBytes(r, b);
    ReceivedIsValid(m, t, payload, p);
    FourWords(r, b);
    assert Offset(r[3]) == 5 + Bit(m.syn);
    var w := PayloadOf(Offset(r[3]), Announces(m).length, r[4..]);
    PrintedPayload(m, p, r[4..]);
    n := ParsesPacket(s, r[0], r[1], r[2], r[3], r[4..], []);
    assert (s.out.data + w)[|s.out.data|..] == w;
  }

  lemma PrintedPayload(m: Meta, p: seq<Byte>, ws: seq<AxiWord>)
    requires Bytes(ws) == p && |p| == m.length && (ws == [] || Packed(ws)) && (m.syn ==> |p| == 4)
    ensures var o, n := 5 + Bit(m.syn), Announces(m).length;
            Defined(o, n, ws) && Bytes(PayloadOf(o, n, ws)) == Carried(m, p)
  {
    assert ws[0..] == ws;
    if m.syn {
      SkippedOption(ws);
    }
  }

  lemma SkippedOption(ws: seq<AxiWord>)
    requires Packed(ws) && |Bytes(ws)| == 4
    ensures Defined(6, 0, ws) && PayloadOf(6, 0, ws) == []
  {
    TailBytes(ws, |ws| - 1);
    assert |ws| == 1 && ws[0..] == ws;
    assert Halves(ws) == [];
  }

  lemma FourWords(r: seq<AxiWord>, b: seq<Byte>)
    requires |r| >= 4 && r == Packet(r[0], r[1], r[2], r[3], r[4..]) && |b| >= 32
    requires r[0].data == b[..8] && r[1].data == b[8..16] && r[2].data == b[16..24] && r[3].data == b[24..32]
    ensures r == [r[0]] + ([r[1]] + ([r[2]] + ([r[3]] + (r[4..] + []))))
    ensures b[..32] == r[0].data + r[1].data + r[2].data + r[3].data && r[3].data[0] == b[24]
  {
    assert r[4..] + [] == r[4..];
  }

  // ---------------------------------------------------------------- pkgStitcher

  /** The IP header's words, the summed words but the first, and the checksum. */
  datatype Stitcher = Stitcher(
    wordCount: nat, headIn: seq<AxiWord>, dataIn: seq<AxiWord>, checksumIn: seq<U16>, dataOut: seq<AxiWord>)

  function StitchStep(s: Stitcher): Stitcher {
    match s.wordCount
    case 0 => if s.headIn == [] then s
              else s.(headIn := s.headIn[1..], dataOut := s.dataOut + [s.headIn[0]], wordCount := 1)
    case 1 => if s.headIn == [] then s
              else s.(headIn := s.headIn[1..], dataOut := s.dataOut + [s.headIn[0]], wordCount := 2)
    case 2 =>
      if s.headIn == [] || s.dataIn == [] then s
      else s.(headIn := s.headIn[1..], dataIn := s.dataIn[1..], wordCount := 3,
              dataOut := s.dataOut + [Full(s.headIn[0].data[..4] + s.dataIn[0].data[4..])])
    case 3 => if s.dataIn == [] then s
              else s.(dataIn := s.dataIn[1..], dataOut := s.dataOut + [s.dataIn[0]], wordCount := 4)
    case 4 =>
      if s.dataIn == [] || s.checksumIn == [] then s
      else s.(dataIn := s.dataIn[1..], checksumIn := s.checksumIn[1..],
              dataOut := s.dataOut + [s.dataIn[0].(data := Checked(s.dataIn[0].data, s.checksumIn[0]))],
              wordCount := if s.dataIn[0].last then 0 else 5)
    case _ =>
      if s.dataIn == [] then s
      else s.(dataIn := s.dataIn[1..], dataOut := s.dataOut + [s.dataIn[0]],
              wordCount := if s.dataIn[0].last then 0 else s.wordCount)
  }

  function StitchRun(s: Stitcher, n: nat): Stitcher
    decreases n, s
  {
    if n == 0 then s else StitchRun(StitchStep(s), n - 1)
  }

  lemma {:induction false} StitchAdd(s: Stitcher, m: nat, n: nat)
    ensures StitchRun(s, m + n) == StitchRun(StitchRun(s, m), n)
    decreases m
  {
    if m > 0 { StitchAdd(StitchStep(s), m - 1, n); }
  }

  lemma {:induction false} StitchPayload(s: Stitcher, ws: seq<AxiWord>, rest: seq<AxiWord>)
    requires s.wordCount == 5 && Packed(ws) && s.dataIn == ws + rest
    ensures StitchRun(s, |ws|) == s.(wordCount := 0, dataIn := rest, dataOut := s.dataOut + ws)
    decreases |ws|
  {
    var w, t := ws[0], ws[1..];
    assert s.dataIn[0] == w && s.dataIn[1..] == t + rest;
    var m := StitchStep(s);
    if |ws| == 1 {
      assert ws == [w] && t + rest == rest;
      assert StitchRun(s, 1) == m;
    } else {
      Next(ws);
      StitchPayload(m, t, rest);
      Assoc(s.dataOut, w, t);
    }
  }

  lemma StitchHead(s: Stitcher, h0: AxiWord, h1: AxiWord, h2: AxiWord, d1: AxiWord, t: seq<AxiWord>)
    requires s.wordCount == 0 && s.headIn == [h0] + ([h1] + [h2]) && s.dataIn == [d1] + t
    ensures StitchRun(s, 3) == s.(wordCount := 3, headIn := [], dataIn := t,
                                  dataOut := s.dataOut + [h0] + [h1] + [Full(h2.data[..4] + d1.data[4..])])
  {
    assert s.headIn[0] == h0 && s.headIn[1..] == [h1] + [h2];
    var s1 := s.(headIn := [h1] + [h2], dataOut := s.dataOut + [h0], wordCount := 1);
    var s2 := s.(headIn := [h2], dataOut := s.dataOut + [h0] + [h1], wordCount := 2);
    assert StitchStep(s) == s1;
    assert s1.headIn[1..] == [h2] && StitchStep(s1) == s2;
    assert s2.dataIn[1..] == t && s2.headIn[1..] == [];
    assert StitchRun(s, 3) == StitchRun(s1, 2) == StitchRun(s2, 1) == StitchStep(s2);
  }

  lemma StitchTwo(s: Stitcher, d2: AxiWord, d3: AxiWord, t: seq<AxiWord>, c: U16)
    requires s.wordCount == 3 && s.dataIn == [d2] + ([d3] + t) && s.checksumIn == [c]
    ensures StitchRun(s, 2) ==
            s.(wordCount := if d3.last then 0 else 5, dataIn := t, checksumIn := [],
               dataOut := s.dataOut + [d2] + [d3.(data := Checked(d3.data, c))])
  {
    assert s.dataIn[0] == d2 && s.dataIn[1..] == [d3] + t;
    var s1 := s.(dataIn := [d3] + t, dataOut := s.dataOut + [d2], wordCount := 4);
    assert StitchStep(s) == s1;
    assert s1.dataIn[0] == d3 && s1.dataIn[1..] == t && s1.checksumIn[1..] == [];
    assert StitchRun(s, 2) == StitchRun(s1, 1) == StitchStep(s1);
  }

  lemma StitchFive(s: Stitcher, h0: AxiWord, h1: AxiWord, h2: AxiWord,
                   d1: AxiWord, d2: AxiWord, d3: AxiWord, t: seq<AxiWord>, c: U16)
    requires s.wordCount == 0 && s.headIn == [h0] + ([h1] + [h2]) && s.checksumIn == [c]
    requires s.dataIn == [d1] + ([d2] + ([d3] + t))
    ensures StitchRun(s, 5) ==
            s.(wordCount := if d3.last then 0 else 5, headIn := [], dataIn := t, checksumIn := [],
               dataOut := s.dataOut + [h0] + [h1] + [Full(h2.data[..4] + d1.data[4..])] + [d2]
                          + [d3.(data := Checked(d3.data, c))])
  {
    StitchHead(s, h0, h1, h2, d1, [d2] + ([d3] + t));
    StitchTwo(StitchRun(s, 3), d2, d3, t, c);
    StitchAdd(s, 3, 2);
  }

  /** The words of a packet and what becomes of them. */
  lemma StitchWhole(s: Stitcher, h0: AxiWord, h1: AxiWord, h2: AxiWord,
                    d1: AxiWord, d2: AxiWord, d3: AxiWord, ws: seq<AxiWord>, rest: seq<AxiWord>, c: U16)
    requires s.wordCount == 0 && s.headIn == [h0] + ([h1] + [h2]) && s.checksumIn == [c] && s.dataOut == []
    requires s.dataIn == [d1] + ([d2] + ([d3] + (ws + rest)))
    requires if ws == [] then d3.last else !d3.last && Packed(ws)
    ensures StitchRun(s, 5 + |ws|).dataOut ==
            [h0] + [h1] + [Full(h2.data[..4] + d1.data[4..])] + ([d2] + ([d3.(data := Checked(d3.data, c))] + ws))
  {
    StitchFive(s, h0, h1, h2, d1, d2, d3, ws + rest, c);
    StitchAdd(s, 5, |ws|);
    StitchEnds(StitchRun(s, 5), ws, rest);
    StitchedOut([h0] + [h1] + [Full(h2.data[..4] + d1.data[4..])], d2, d3.(data := Checked(d3.data, c)), ws);
  }

  lemma StitchEnds(s: Stitcher, ws: seq<AxiWord>, rest: seq<AxiWord>)
    requires ws == [] || (s.wordCount == 5 && Packed(ws) && s.dataIn == ws + rest)
    ensures StitchRun(s, |ws|).dataOut == s.dataOut + ws
  {
    if ws != [] {
      StitchPayload(s, ws, rest);
    }
  }

  lemma StitchedOut(a: seq<AxiWord>, x: AxiWord, y: AxiWord, ws: seq<AxiWord>)
    ensures a + [x] + [y] + ws == a + ([x] + ([y] + ws))
  {
  }

  /** `pkgStitcher` puts the packet together that `RoundTrip` is about: from the IP header, of
      whose third word only the address counts, all but the first of the summed words, and
      the checksum. */
  lemma StitchesPacket(s: Stitcher, m: Meta, t: Tuple, payload: seq<AxiWord>, p: seq<Byte>, h2: AxiWord)
    requires Segmented(m, payload, p) && s.wordCount == 0 && s.dataOut == []
    requires h2.data[..4] == t.dstIp && s.headIn == [Ip0(m)] + ([Ip1(t)] + [h2])
    requires s.dataIn == Summed(m, t, payload)[1..] && s.checksumIn == [Checksum.TxChecksum(Summed(m, t, payload))]
    ensures StitchRun(s, 5 + |payload|).dataOut == [Ip0(m)] + [Ip1(t)] + [Ip2(t)] + Segment(m, t, payload)
  {
    var h, c := PseudoHeader(m, t), Checksum.TxChecksum(Summed(m, t, payload));
    var d3: AxiWord := Word(h[3], 0xFF, payload == []);
    SummedTail(m, t, payload, d3, c);
    StitchWhole(s, Ip0(m), Ip1(t), h2, Full(h[1]), Full(h[2]), d3, payload, [], c);
    PortsInPlace(m, t, h2);
  }

  lemma PortsInPlace(m: Meta, t: Tuple, h2: AxiWord)
    requires h2.data[..4] == t.dstIp
    ensures Full(h2.data[..4] + Full(PseudoHeader(m, t)[1]).data[4..]) == Ip2(t)
  {
    assert PseudoHeader(m, t)[1][4..] == t.srcPort + t.dstPort;
  }

  lemma SummedTail(m: Meta, t: Tuple, payload: seq<AxiWord>, d3: AxiWord, c: U16)
    requires d3 == Word(PseudoHeader(m, t)[3], 0xFF, payload == [])
    requires c == Checksum.TxChecksum(Summed(m, t, payload))
    ensures var h := PseudoHeader(m, t);
            && Summed(m, t, payload)[1..] == [Full(h[1])] + ([Full(h[2])] + ([d3] + (payload + [])))
            && Segment(m, t, payload) == [Full(h[2])] + ([d3.(data := Checked(d3.data, c))] + payload)
  {
    assert payload + [] == payload;
    assert LastHeader(PseudoHeader(m, t)[3], payload) == [d3] + payload;
    var x := Checked(PseudoHeader(m, t)[3], c);
    assert LastHeader(x, payload) == [d3.(data := x)] + payload;
  }

  // ---------------------------------------------------------------- the hardware's form

  /** The word counters of `ipHeaderConstruction` and `pseudoHeaderConstruction`, and what
      they send for one segment after the other. */
  class HeaderPrinter {
    var ihcCurrWord: nat
    var phcCurrWord: nat
    var meta: Meta
    var tuple: Tuple
    var ipHeader: seq<AxiWord>
    var tcpHeader: seq<AxiWord>

    ghost predicate Valid()
      reads this
    {
      ihcCurrWord < 3 && phcCurrWord < 5 && (phcCurrWord == 4 ==> meta.syn)
    }

    constructor (m: Meta, t: Tuple)
      ensures Valid() && ipHeader == [] && tcpHeader == [] && ihcCurrWord == 0 && phcCurrWord == 0
      ensures meta == m && tuple == t
    {
      ihcCurrWord, phcCurrWord, meta, tuple, ipHeader, tcpHeader := 0, 0, m, t, [], [];
    }

    /** One cycle of `ipHeaderConstruction`; of the third word only the address is used. */
    method IpHeaderCycle()
      requires Valid()
      modifies this`ihcCurrWord, this`ipHeader
      ensures Valid() && ihcCurrWord == (old(ihcCurrWord) + 1) % 3
      ensures |ipHeader| == |old(ipHeader)| + 1 && ipHeader[..|old(ipHeader)|] == old(ipHeader)
      ensures var w := ipHeader[|old(ipHeader)|];
              match old(ihcCurrWord)
              case 0 => w == Ip0(meta)
              case 1 => w == Ip1(tuple)
              case _ => w.data[..4] == Ip2(tuple).data[..4] && w.last
    {
      var length: int := meta.length;
      var w: AxiWord;
      match ihcCurrWord {
        case 0 =>
          length := (length + 40) % 0x1_0000;
          w := Word([0x45, 0, length / 0x100, length % 0x100, 0, 0, 0, 0], 0xFF, false);
        case 1 =>
          w := Word([0x40, 6, 0, 0] + tuple.srcIp, 0xFF, false);
        case _ =>
          w := Word(tuple.dstIp + [0, 0, 0, 0], 0x0F, true);
      }
      ipHeader := ipHeader + [w];
      ihcCurrWord := if ihcCurrWord == 2 then 0 else ihcCurrWord + 1;
    }

    /** One cycle of `pseudoHeaderConstruction`; the fifth word is that of a SYN. */
    method PseudoHeaderCycle()
      requires Valid()
      modifies this`phcCurrWord, this`tcpHeader
      ensures Valid() && phcCurrWord == (old(phcCurrWord) + 1) % (if meta.syn then 5 else 4)
      ensures tcpHeader == old(tcpHeader) +
                [if old(phcCurrWord) == 4 then MSS_WORD
                 else Word(PseudoHeader(meta, tuple)[old(phcCurrWord)], 0xFF, old(phcCurrWord) == 3 && meta.length
                     == 0)]
    {
      var w: AxiWord;
      match phcCurrWord {
        case 0 =>
          w := Word(tuple.srcIp + tuple.dstIp, 0xFF, false);
        case 1 =>
          var length: int := (meta.length + 0x14) % 0x1_0000;
          w := Word([0, 6, length / 0x100, length % 0x100] + tuple.srcPort + tuple.dstPort, 0xFF, false);
        case 2 =>
          w := Word(Be32(meta.seqNumb) + Be32(meta.ackNumb), 0xFF, false);
        case 3 =>
          w := LastWord();
        case _ =>
          w := Word([0x02, 0x04, 0x05, 0xB4, 0, 0, 0, 0], 0x0F, true);
      }
      assert phcCurrWord < 4 ==> w.data == PseudoHeader(meta, tuple)[phcCurrWord];
      tcpHeader := tcpHeader + [w];
      phcCurrWord := if phcCurrWord == 4 || (phcCurrWord == 3 && !meta.syn) then 0 else phcCurrWord + 1;
    }

    /** The word with the data offset, the flags and the window. */
    method LastWord() returns (w: AxiWord)
      ensures w == Word(PseudoHeader(meta, tuple)[3], 0xFF, meta.length == 0)
    {
      var window: int := meta.winSize;
      var flags: Byte := Bit(meta.fin) + 2 * Bit(meta.syn) + 4 * Bit(meta.rst) + 16 * Bit(meta.ack);
      w := Word([(5 + Bit(meta.syn)) * 16, flags, window / 0x100, window % 0x100, 0, 0, 0, 0], 0xFF,
                meta.length == 0);
      assert w.data == PseudoHeader(meta, tuple)[3];
    }
  }

  /** The registers of `rxCheckTCPchecksum`, with the four lanes in place. */
  class TcpChecker {
    const lanes: Checksum.LaneRegisters
    var csaDataOffset: nat
    var csaWordCount: nat
    var csaSessionTuple: Tuple
    var csaShift: bool
    var csaWasLast: bool
    var csaCheckChecksum: bool
    var halfWord: AxiWord
    var csaMeta: Meta
    var csaPort: B2
    var dataIn: seq<AxiWord>
    var out: Rx

    ghost predicate Valid() {
      lanes.Valid()
    }

    ghost function Abs(): Csa
      reads this, lanes, lanes.sums
      requires Valid()
    {
      Csa(lanes.Abs().sums, csaDataOffset, csaWordCount, csaSessionTuple, csaShift, csaWasLast,
          csaCheckChecksum, halfWord, csaMeta, csaPort, lanes.Abs().state, dataIn, out)
    }

    constructor ()
      ensures Valid() && CsaIdle(Abs()) && dataIn == [] && out == Rx([], [], [], [], [])
    {
      lanes := new Checksum.LaneRegisters();
      csaDataOffset, csaWordCount := 0xFF, 0;
      csaSessionTuple := Tuple([0, 0, 0, 0], [0, 0, 0, 0], [0, 0], [0, 0]);
      csaShift, csaWasLast, csaCheckChecksum := false, false, false;
      halfWord, csaPort := ZERO_WORD, [0, 0];
      csaMeta := Meta(0, 0, 0, 0, false, false, false, false);
      dataIn, out := [], Rx([], [], [], [], []);
    }

    /** The fields of a header word. */
    method ReadField(w: AxiWord)
      requires Valid() && csaWordCount < 4
      modifies this`csaDataOffset, this`csaShift, this`csaSessionTuple, this`csaMeta, this`csaPort
      ensures Abs() == Field(old(Abs()), w)
    {
      match csaWordCount
      case 0 =>
        csaDataOffset, csaShift := 0xFF, false;
        csaSessionTuple := csaSessionTuple.(srcIp := w.data[..4], dstIp := w.data[4..]);
      case 1 =>
        csaMeta := csaMeta.(length := Get16(w.data, 2));
        csaSessionTuple := csaSessionTuple.(srcPort := w.data[4..6], dstPort := w.data[6..]);
        csaPort := w.data[6..];
      case 2 =>
        csaMeta := csaMeta.(seqNumb := Get32(w.data, 0), ackNumb := Get32(w.data, 4));
      case _ =>
        csaDataOffset := w.data[0] / 16;
        var length: int := csaMeta.length;
        csaMeta := csaMeta.(length := (length - csaDataOffset * 4) % 0x1_0000,
                            ack := BitOf(w.data[1], 16), rst := BitOf(w.data[1], 4), syn := BitOf(w.data[1], 2),
                            fin := BitOf(w.data[1], 1), winSize := Get16(w.data, 2));
    }

    /** Options and payload. */
    method ReadBody(w: AxiWord) returns (sent: bool)
      requires Valid()
      modifies this`csaDataOffset, this`csaShift, this`halfWord, this`out
      ensures (Abs(), sent) == Body(old(Abs()), w)
    {
      sent := false;
      if csaDataOffset > 6 {
        csaDataOffset := csaDataOffset - 2;
      } else if csaDataOffset == 6 {
        csaDataOffset, csaShift, halfWord := 5, true, w;
        sent := !Strip.KeepBit4(w.keep);
      } else if !csaShift || halfWord.keep != 0xFF {
        out := out.(data := out.data + [w]);
        sent := w.last;
      } else {
        out := out.(data := out.data + [Strip.Half(halfWord, w)]);
        halfWord := w;
        sent := !Strip.KeepBit4(w.keep);
      }
    }

    method ReadWord()
      requires Valid() && dataIn != []
      modifies this, lanes.sums
      ensures Abs() == CsaWord(old(Abs()))
    {
      var w := dataIn[0];
      var sent := w.last;
      if csaWordCount < 4 {
        ReadField(w);
      } else {
        sent := ReadBody(w);
      }
      SumWord(w, sent);
    }

    method SumWord(w: AxiWord, sent: bool)
      requires Valid() && dataIn != []
      modifies this`dataIn, this`csaWordCount, this`csaWasLast, this`csaCheckChecksum, lanes.sums
      ensures Abs() == Ended(old(Abs()), w, sent)
    {
      dataIn := dataIn[1..];
      lanes.AddWord(w);
      csaWordCount := (csaWordCount + 1) % 0x1_0000;
      if w.last {
        csaWordCount, csaWasLast, csaCheckChecksum := 0, !sent, true;
      }
    }

    /** One cycle of the checking states. */
    method Check()
      requires Valid()
      modifies this, lanes`ccState, lanes.sums
      ensures Abs() == CheckStep(old(Abs()))
    {
      var verdict := lanes.CheckState();
      match verdict
      case None =>
      case Some(valid) =>
        if valid {
          out := out.(metas := out.metas + [csaMeta], ports := out.ports + [csaPort],
                      tuples := out.tuples + [csaSessionTuple]);
        }
        if csaMeta.length != 0 {
          out := out.(valid := out.valid + [valid]);
        }
        csaCheckChecksum := false;
    }

    /** One clock cycle. */
    method Cycle()
      requires Valid()
      modifies this, lanes`ccState, lanes.sums
      ensures Abs() == CsaStep(old(Abs()))
    {
      if dataIn != [] && !csaCheckChecksum {
        ReadWord();
      } else if csaWasLast {
        if csaMeta.length != 0 && Strip.KeepBit4(halfWord.keep) {
          out := out.(data := out.data + [Strip.Flush(halfWord)]);
        }
        csaWasLast := false;
      } else if csaCheckChecksum {
        Check();
      }
    }
  }
}
