/** Reading a packet back out of the ring: `rxAppMemAccessBreakdown` and `rxAppMemDataRead`
    of toe.cpp. A read that runs over the end of the ring comes back as two bursts, which
    are joined into one densely packed packet. */
module RingJoin {
  import opened Toe
  import opened Axi
  import opened RingSplit

  // ---------------------------------------------------------------- rxAppMemAccessBreakdown

  datatype Breaker = Breaker(
    breakdown: bool, tempCmd: Cmd, accLength: U16,
    cmdIn: seq<Cmd>, cmdOut: seq<Cmd>, doubleAccess: seq<bool>)

  /** One clock cycle of `rxAppMemAccessBreakdown`. */
  function BreakStep(s: Breaker, room: Room): Breaker {
    if !s.breakdown then
      if s.cmdIn != [] && room.cmd && room.flag then
        var c := s.cmdIn[0];
        var r := s.(cmdIn := s.cmdIn[1..], tempCmd := c);
        if Offset(c.addr) + c.len > RING then
          var n := (RING - c.addr) % RING;
          r.(accLength := n, cmdOut := s.cmdOut + [Cmd(c.addr, n)], breakdown := true,
             doubleAccess := s.doubleAccess + [true])
        else
          r.(cmdOut := s.cmdOut + [c], doubleAccess := s.doubleAccess + [false])
      else s
    else if room.cmd then
      var c := Cmd(s.tempCmd.addr - Offset(s.tempCmd.addr), s.tempCmd.len);
      var n := (c.len - s.accLength) % RING;
      s.(tempCmd := c, accLength := n, cmdOut := s.cmdOut + [Cmd(c.addr, n)], breakdown := false)
    else s
  }

  predicate CommandOk(c: Cmd) {
    1 <= c.len < RING
  }

  /** The commands and flags that a list of read commands has to be turned into. */
  function AllCommands(cs: seq<Cmd>): seq<Cmd> {
    if cs == [] then [] else AllCommands(cs[..|cs| - 1]) + Commands(cs[|cs| - 1])
  }

  function AllFlags(cs: seq<Cmd>): seq<bool> {
    seq(|cs|, i requires 0 <= i < |cs| => Split(cs[i]))
  }

  /** After the commands `done` were taken, one second half may be outstanding. */
  predicate BreakInv(s: Breaker, done: seq<Cmd>) {
    && (forall i :: 0 <= i < |done| ==> CommandOk(done[i]))
    && (forall i :: 0 <= i < |s.cmdIn| ==> CommandOk(s.cmdIn[i]))
    && s.doubleAccess == AllFlags(done)
    && if s.breakdown then
         && done != [] && s.tempCmd == done[|done| - 1] && Split(s.tempCmd)
         && s.accLength == FirstLen(s.tempCmd)
         && s.cmdOut == AllCommands(done[..|done| - 1]) + Commands(s.tempCmd)[..1]
       else
         s.cmdOut == AllCommands(done)
  }

  /** Breaking up reads, for every stall pattern: what is issued is always the commands of
      the reads taken so far, at most their very last second half missing. */
  lemma BreakStepInv(s: Breaker, done: seq<Cmd>, room: Room)
    requires BreakInv(s, done)
    ensures var r := BreakStep(s, room);
            if |r.cmdIn| < |s.cmdIn| then r.cmdIn == s.cmdIn[1..] && BreakInv(r, done + [s.cmdIn[0]])
            else r.cmdIn == s.cmdIn && BreakInv(r, done)
  {
    var r := BreakStep(s, room);
    if |r.cmdIn| < |s.cmdIn| {
      var c := s.cmdIn[0];
      assert (done + [c])[..|done|] == done;
      assert AllFlags(done + [c]) == AllFlags(done) + [Split(c)];
    } else if s.breakdown && room.cmd {
      var c := s.tempCmd;
      assert Commands(c) == Commands(c)[..1] + [Cmd(c.addr - Offset(c.addr), c.len - FirstLen(c))];
    }
  }

  // ---------------------------------------------------------------- rxAppMemDataRead

  datatype Phase = Ready | Stream | Join | StreamMerged | StreamUnmerged | JoinResidue

  datatype Joiner = Joiner(
    phase: Phase, flag: bool, word: AxiWord, offset: Len8, offsetBuffer: int,
    flags: seq<bool>, dataIn: seq<AxiWord>, dataOut: seq<AxiWord>)

  /** `prev`'s first `k` bytes, filled up with the first bytes of `next`. */
  function JoinWords(prev: AxiWord, next: AxiWord, k: Len8): AxiWord {
    Word(prev.data[..k] + next.data[..8 - k], 0xFF, false)
  }

  /** `prev`'s last `k` bytes, filled up with the first bytes of `next`. */
  function MergeWords(prev: AxiWord, next: AxiWord, k: Len8): AxiWord {
    Word(prev.data[8 - k..] + next.data[..8 - k], 0xFF, false)
  }

  /** A word of the first burst: passed on, unless it is a partial word before a second burst. */
  function HeadWord(s: Joiner): Joiner
    requires s.dataIn != []
  {
    var w := s.dataIn[0];
    var r := s.(dataIn := s.dataIn[1..], word := w, offset := KeepToLen(w.keep));
    if w.last && s.flag then
      var v: AxiWord := w.(last := false);
      if r.offset == 8 then r.(word := v, dataOut := s.dataOut + [v], phase := StreamUnmerged)
      else r.(word := v, phase := Join)
    else
      r.(dataOut := s.dataOut + [w], phase := if w.last then Ready else Stream)
  }

  /** A realigned word of the second burst, which may be the last one. */
  function TailWord(s: Joiner, out: AxiWord): Joiner
    requires s.dataIn != []
  {
    var w := s.dataIn[0];
    var n := KeepToLen(w.keep);
    var r := s.(dataIn := s.dataIn[1..], word := w, offsetBuffer := (n - (8 - s.offset)) % 0x100);
    if w.last && n + s.offset <= 8 then
      r.(phase := Ready, dataOut := s.dataOut + [out.(keep := LenToKeep(n + s.offset), last := true)])
    else
      r.(phase := if w.last then JoinResidue else StreamMerged, dataOut := s.dataOut + [out])
  }

  /** One clock cycle of `rxAppMemDataRead`. */
  function JoinStep(s: Joiner, room: bool): Joiner {
    if !room then s
    else match s.phase
    case Ready =>
      if s.flags == [] || s.dataIn == [] then s
      else HeadWord(s.(flag := s.flags[0], flags := s.flags[1..]))
    case Stream => if s.dataIn == [] then s else HeadWord(s)
    case StreamUnmerged =>
      if s.dataIn == [] then s
      else s.(dataIn := s.dataIn[1..], dataOut := s.dataOut + [s.dataIn[0]],
              phase := if s.dataIn[0].last then Ready else StreamUnmerged)
    case Join => if s.dataIn == [] then s else TailWord(s, JoinWords(s.word, s.dataIn[0], s.offset))
    case StreamMerged => if s.dataIn == [] then s else TailWord(s, MergeWords(s.word, s.dataIn[0], s.offset))
    case JoinResidue =>
      s.(phase := Ready,
         dataOut := s.dataOut + [Word(s.word.data[8 - s.offset..] + ZERO_WORD.data[..8 - s.offset],
                                      LenToKeep(s.offsetBuffer), true)])
  }

  function JoinRun(s: Joiner, rooms: seq<bool>): Joiner
    decreases |rooms|
  {
    if rooms == [] then s else JoinRun(JoinStep(s, rooms[0]), rooms[1..])
  }

  /** One read: the burst or the two bursts that come back, and what follows them. */
  datatype Read = Read(
    b: seq<AxiWord>, p1: seq<Byte>, two: bool, q: seq<AxiWord>, p2: seq<Byte>,
    flags: seq<bool>, rest: seq<AxiWord>, out: seq<AxiWord>)

  predicate ValidRead(j: Read) {
    && Burst(j.b, j.p1)
    && if j.two then Burst(j.q, j.p2) else j.q == [] && j.p2 == []
  }

  /** The number of valid bytes in the first burst's last word. */
  function Tail(j: Read): nat
    requires j.b != []
  {
    KeepToLen(j.b[|j.b| - 1].keep)
  }

  predicate HeadInv(s: Joiner, j: Read) {
    var k := |j.b| + |j.q| + |j.rest| - |s.dataIn|;
    && 0 <= k < |j.b| && s.dataIn == j.b[k..] + j.q + j.rest && s.dataOut == j.out + j.b[..k]
    && if k == 0 then s.phase == Ready && s.flags == [j.two] + j.flags
       else s.phase == Stream && s.flags == j.flags && s.flag == j.two
  }

  /** `e` is what is out of the packet after `i` words of the second burst. */
  predicate TailInv(s: Joiner, j: Read, i: int, e: seq<AxiWord>) {
    && j.b != [] && j.two && 0 <= i <= |j.q| && s.flags == j.flags
    && s.dataIn == j.q[i..] + j.rest && s.dataOut == j.out + e
    && BurstPrefix(e, j.p1 + j.p2)
    && s.offset == Tail(j)
    && match s.phase
       case StreamUnmerged => Tail(j) == 8 && |e| == |j.b| + i && i < |j.q|
       case Join => Tail(j) < 8 && i == 0 && |e| == |j.b| - 1 && s.word == j.b[|j.b| - 1].(last := false)
       case StreamMerged => Tail(j) < 8 && 0 < i < |j.q| && |e| == |j.b| - 1 + i && s.word == j.q[i - 1]
       case JoinResidue =>
         && Tail(j) < 8 && 0 < i == |j.q| && |e| == |j.b| - 1 + i && s.word == j.q[i - 1]
         && s.offsetBuffer == KeepToLen(s.word.keep) + Tail(j) - 8 > 0
       case _ => false
  }

  /** The outcome: one packet with the bytes of both bursts. */
  predicate Joined(s: Joiner, j: Read, e: seq<AxiWord>) {
    && s.phase == Ready && s.flags == j.flags && s.dataIn == j.rest && s.dataOut == j.out + e
    && Burst(e, j.p1 + j.p2)
  }

  predicate HeadTaken(s: Joiner, j: Read, k: int) {
    && 0 <= k < |j.b| && s.dataIn == j.b[k..] + j.q + j.rest && s.dataOut == j.out + j.b[..k]
    && s.flags == j.flags && s.flag == j.two
  }

  lemma HeadStepMore(s: Joiner, j: Read, k: int)
    requires ValidRead(j) && HeadTaken(s, j, k) && k < |j.b| - 1
    ensures s.dataIn != [] && HeadInv(HeadWord(s), j)
  {
    HeadPop(j, k);
    assert j.b[..k + 1] == j.b[..k] + [j.b[k]];
    PackedAt(j.b, j.p1, k);
  }

  lemma HeadPop(j: Read, k: nat)
    requires k < |j.b|
    ensures var d := j.b[k..] + j.q + j.rest; d[0] == j.b[k] && d[1..] == j.b[k + 1..] + j.q + j.rest
  {
  }

  lemma HeadStepSingle(s: Joiner, j: Read)
    requires ValidRead(j) && HeadTaken(s, j, |j.b| - 1) && !j.two
    ensures s.dataIn != [] && Joined(HeadWord(s), j, j.b)
  {
    var n := |j.b| - 1;
    assert j.b[n..] == [j.b[n]];
    assert j.b == j.b[..n] + [j.b[n]];
    assert j.p1 + [] == j.p1;
  }

  /** What is out of the packet when the first of two bursts ends. */
  function HeadOut(j: Read): seq<AxiWord>
    requires j.b != []
  {
    var n := |j.b| - 1;
    if Tail(j) == 8 then j.b[..n] + [j.b[n].(last := false)] else j.b[..n]
  }

  lemma HeadStepDouble(s: Joiner, j: Read)
    requires ValidRead(j) && HeadTaken(s, j, |j.b| - 1) && j.two
    ensures s.dataIn != [] && TailInv(HeadWord(s), j, 0, HeadOut(j))
  {
    var n := |j.b| - 1;
    assert j.b[n..] == [j.b[n]];
    HeadEnds(j);
    assert HeadWord(s).dataIn == j.q + j.rest;
    if Tail(j) == 8 {
      assert s.dataOut + [j.b[n].(last := false)] == j.out + HeadOut(j);
    }
  }

  /** What of the joined packet is out when the first burst ends. */
  lemma HeadEnds(j: Read)
    requires ValidRead(j) && j.two
    ensures var n, p := |j.b| - 1, j.p1 + j.p2;
            && |j.p1| == 8 * n + Tail(j) && j.b[n].data[..Tail(j)] == j.p1[8 * n..]
            && BurstPrefix(j.b[..n], p)
            && (Tail(j) == 8 ==> BurstPrefix(j.b[..n] + [j.b[n].(last := false)], p))
            && |j.q| >= 1 && j.q[0..] == j.q
  {
    var n, p := |j.b| - 1, j.p1 + j.p2;
    PackedAt(j.b, j.p1, n);
    assert p[..8 * n] == j.p1[..8 * n];
    if Tail(j) == 8 {
      assert p[8 * n..8 * n + 8] == j.p1[8 * n..];
      PrefixGrows(j.b[..n], p, j.b[n].(last := false));
    }
  }

  lemma TakeSecond(s: Joiner, j: Read, i: int, e: seq<AxiWord>)
    requires ValidRead(j) && TailInv(s, j, i, e) && i < |j.q|
    ensures s.dataIn != [] && s.dataIn[0] == j.q[i] && s.dataIn[1..] == j.q[i + 1..] + j.rest
  {
    assert j.q[i..] == [j.q[i]] + j.q[i + 1..];
  }

  lemma UnmergedStep(s: Joiner, j: Read, i: int, e: seq<AxiWord>)
    requires ValidRead(j) && TailInv(s, j, i, e) && s.phase == StreamUnmerged
    ensures s.dataIn != []
    ensures var r := JoinStep(s, true);
            TailInv(r, j, i + 1, e + [j.q[i]]) || Joined(r, j, e + [j.q[i]])
  {
    TakeSecond(s, j, i, e);
    HeadEnds(j);
    PackedAt(j.q, j.p2, i);
    var w, p := j.q[i], j.p1 + j.p2;
    assert j.out + e + [w] == j.out + (e + [w]);
    assert p[8 * |e|..8 * |e| + KeepToLen(w.keep)] == j.p2[8 * i..8 * i + KeepToLen(w.keep)];
    if i < |j.q| - 1 {
      assert Kept(w) == w.data;
      PrefixGrows(e, p, w);
    } else {
      PrefixEnds(e, p, w);
    }
  }

  /** The carried-over bytes in front of the `i`-th word of the second burst. */
  function Carried(j: Read, i: nat): seq<Byte>
    requires j.b != [] && i <= |j.q|
  {
    if i == 0 then j.b[|j.b| - 1].data[..Tail(j)] else j.q[i - 1].data[8 - Tail(j)..]
  }

  lemma CarriedBytes(j: Read, i: nat)
    requires ValidRead(j) && j.two && Tail(j) < 8 && i < |j.q|
    ensures var at, p := 8 * (|j.b| - 1 + i), j.p1 + j.p2;
            at + Tail(j) <= |p| && Carried(j, i) == p[at..at + Tail(j)]
  {
    HeadEnds(j);
    var t, at, p := Tail(j), 8 * (|j.b| - 1 + i), j.p1 + j.p2;
    PackedAt(j.q, j.p2, i);
    if i > 0 {
      PackedAt(j.q, j.p2, i - 1);
      assert j.q[i - 1].data == j.p2[8 * (i - 1)..8 * i];
      assert Carried(j, i) == j.p2[8 * i - t..8 * i];
    }
  }

  lemma SecondHalf(p1: seq<Byte>, p2: seq<Byte>, a: nat, b: nat)
    requires a <= b <= |p2|
    ensures (p1 + p2)[|p1| + a..|p1| + b] == p2[a..b]
  {
  }

  /** A word that joins the `i`-th word of the second burst to the bytes carried over. */
  lemma MergedBytes(j: Read, i: nat, m: nat)
    requires ValidRead(j) && j.two && Tail(j) < 8 && i < |j.q|
    requires Tail(j) <= m <= 8 && m - Tail(j) <= KeepToLen(j.q[i].keep)
    ensures var at, p := 8 * (|j.b| - 1 + i), j.p1 + j.p2;
            && at + m <= |p| && Carried(j, i) + j.q[i].data[..m - Tail(j)] == p[at..at + m]
            && (i == |j.q| - 1 ==> |p| == at + Tail(j) + KeepToLen(j.q[i].keep))
  {
    HeadEnds(j);
    CarriedBytes(j, i);
    PackedAt(j.q, j.p2, i);
    var t, at := Tail(j), 8 * (|j.b| - 1 + i);
    SecondHalf(j.p1, j.p2, 8 * i, 8 * i + m - t);
    KeptTake(j.q[i], j.p2, 8 * i, m - t);
    Adjacent(j.p1 + j.p2, at, at + t, at + m);
  }

  /** The word that `Join` or `StreamMerged` puts together. */
  function MergedWord(s: Joiner, next: AxiWord): AxiWord {
    if s.phase == Join then JoinWords(s.word, next, s.offset) else MergeWords(s.word, next, s.offset)
  }

  predicate Merging(s: Joiner, j: Read, i: int, e: seq<AxiWord>) {
    ValidRead(j) && TailInv(s, j, i, e) && (s.phase == Join || s.phase == StreamMerged)
  }

  lemma MergedWordIs(s: Joiner, j: Read, i: int, e: seq<AxiWord>, m: nat)
    requires Merging(s, j, i, e) && i < |j.q| && Tail(j) <= m <= 8
    ensures MergedWord(s, j.q[i]).data[..m] == Carried(j, i) + j.q[i].data[..m - Tail(j)]
  {
  }

  lemma MergedGrows(s: Joiner, j: Read, i: int, e: seq<AxiWord>)
    requires Merging(s, j, i, e) && i < |j.q| && !(j.q[i].last && KeepToLen(j.q[i].keep) + s.offset <= 8)
    ensures BurstPrefix(e + [MergedWord(s, j.q[i])], j.p1 + j.p2)
    ensures KeepToLen(j.q[i].keep) + s.offset > 8 || i < |j.q| - 1
  {
    PackedAt(j.q, j.p2, i);
    MergedBytes(j, i, 8);
    MergedWordIs(s, j, i, e, 8);
    var out := MergedWord(s, j.q[i]);
    assert out.data[..8] == out.data;
    PrefixGrows(e, j.p1 + j.p2, out);
  }

  lemma MergedStepMore(s: Joiner, j: Read, i: int, e: seq<AxiWord>)
    requires Merging(s, j, i, e) && i < |j.q| && !(j.q[i].last && KeepToLen(j.q[i].keep) + s.offset <= 8)
    ensures s.dataIn != [] && TailInv(JoinStep(s, true), j, i + 1, e + [MergedWord(s, j.q[i])])
  {
    TakeSecond(s, j, i, e);
    PackedAt(j.q, j.p2, i);
    MergedGrows(s, j, i, e);
    var r, out := JoinStep(s, true), MergedWord(s, j.q[i]);
    assert r == TailWord(s, out);
    assert r.dataOut == j.out + (e + [out]);
  }

  lemma MergedStepEnds(s: Joiner, j: Read, i: int, e: seq<AxiWord>)
    requires Merging(s, j, i, e) && i < |j.q| && j.q[i].last && KeepToLen(j.q[i].keep) + s.offset <= 8
    ensures s.dataIn != []
    ensures Joined(JoinStep(s, true), j,
                   e + [MergedWord(s, j.q[i]).(keep := LenToKeep(KeepToLen(j.q[i].keep) + s.offset), last := true)])
  {
    HeadEnds(j);
    TakeSecond(s, j, i, e);
    PackedAt(j.q, j.p2, i);
    var m := KeepToLen(j.q[i].keep) + s.offset;
    MergedBytes(j, i, m);
    MergedWordIs(s, j, i, e, m);
    MergedEnds(j, e, MergedWord(s, j.q[i]), m);
  }

  lemma MergedEnds(j: Read, e: seq<AxiWord>, out: AxiWord, m: nat)
    requires BurstPrefix(e, j.p1 + j.p2) && 1 <= m <= 8 && |j.p1 + j.p2| == 8 * |e| + m
    requires out.data[..m] == (j.p1 + j.p2)[8 * |e|..]
    ensures Burst(e + [out.(keep := LenToKeep(m), last := true)], j.p1 + j.p2)
  {
    PrefixEnds(e, j.p1 + j.p2, out.(keep := LenToKeep(m), last := true));
  }

  /** The bytes of `w` that the merged words left over. */
  function Leftover(w: AxiWord, t: nat): AxiWord
    requires t <= 8
  {
    Word(w.data[8 - t..] + ZERO_WORD.data[..8 - t], 0xFF, false)
  }

  lemma LeftoverBytes(w: AxiWord, p: seq<Byte>, at: nat, t: nat)
    requires t <= 8 < KeepToLen(w.keep) + t && at + KeepToLen(w.keep) == |p|
    requires Kept(w) == p[at..at + KeepToLen(w.keep)]
    ensures Leftover(w, t).data[..KeepToLen(w.keep) + t - 8] == p[at + 8 - t..]
  {
    LeftoverSlice(w.data, ZERO_WORD.data, p, at, KeepToLen(w.keep), t);
  }

  lemma LeftoverSlice(d: seq<Byte>, z: seq<Byte>, p: seq<Byte>, at: nat, n: nat, t: nat)
    requires |d| == |z| == 8 && t <= 8 < n + t && n <= 8 && at + n == |p| && d[..n] == p[at..]
    ensures (d[8 - t..] + z[..8 - t])[..n + t - 8] == p[at + 8 - t..]
  {
    assert (d[8 - t..] + z[..8 - t])[..n + t - 8] == d[8 - t..n] == d[..n][8 - t..];
  }

  lemma LeftoverEnds(j: Read, e: seq<AxiWord>)
    requires ValidRead(j) && j.two && j.q != [] && Tail(j) < 8
    requires BurstPrefix(e, j.p1 + j.p2) && |e| == |j.b| - 1 + |j.q|
    requires KeepToLen(j.q[|j.q| - 1].keep) + Tail(j) > 8
    ensures var m := KeepToLen(j.q[|j.q| - 1].keep) + Tail(j) - 8;
            Burst(e + [Leftover(j.q[|j.q| - 1], Tail(j)).(keep := LenToKeep(m), last := true)], j.p1 + j.p2)
  {
    HeadEnds(j);
    var t, i := Tail(j), |j.q|;
    PackedAt(j.q, j.p2, i - 1);
    LeftoverBytes(j.q[i - 1], j.p2, 8 * (i - 1), t);
    SecondHalf(j.p1, j.p2, 8 * i - t, |j.p2|);
    MergedEnds(j, e, Leftover(j.q[i - 1], t), KeepToLen(j.q[i - 1].keep) + t - 8);
  }

  lemma JoinResidueStep(s: Joiner, j: Read, i: int, e: seq<AxiWord>)
    requires ValidRead(j) && TailInv(s, j, i, e) && s.phase == JoinResidue
    ensures var r := JoinStep(s, true);
            r.dataOut != [] && Joined(r, j, e + [r.dataOut[|r.dataOut| - 1]])
  {
    LeftoverEnds(j, e);
    var r := JoinStep(s, true);
    var out := Leftover(s.word, s.offset).(keep := LenToKeep(s.offsetBuffer), last := true);
    assert r.dataOut == (j.out + e) + [out];
    assert j.q[i..] == [];
  }

  // ---------------------------------------------------------------- every schedule

  function Out(s: Joiner, j: Read): seq<AxiWord>
    requires |s.dataOut| >= |j.out|
  {
    s.dataOut[|j.out|..]
  }

  /** The number of words of the second burst that were taken. */
  function TakenSecond(s: Joiner, j: Read): int {
    |j.q| + |j.rest| - |s.dataIn|
  }

  predicate InProgress(s: Joiner, j: Read) {
    ValidRead(j) &&
    (HeadInv(s, j) || (|s.dataOut| >= |j.out| && TailInv(s, j, TakenSecond(s, j), Out(s, j))))
  }

  /** The read is finished: one packet with exactly the bytes of the bursts. */
  predicate Finished(s: Joiner, j: Read) {
    ValidRead(j) && |s.dataOut| >= |j.out| && Joined(s, j, Out(s, j))
  }

  function Work(s: Joiner, j: Read): int {
    |s.dataIn| - |j.rest| + 1
  }

  lemma TailIs(s: Joiner, j: Read, i: int, e: seq<AxiWord>)
    requires ValidRead(j) && (TailInv(s, j, i, e) || Joined(s, j, e))
    ensures |s.dataOut| >= |j.out| && Out(s, j) == e
    ensures TailInv(s, j, i, e) ==> TakenSecond(s, j) == i && InProgress(s, j)
    ensures Joined(s, j, e) ==> Finished(s, j)
  {
  }

  lemma HeadProgress(s: Joiner, j: Read)
    requires ValidRead(j) && HeadInv(s, j)
    ensures s.dataIn != []
    ensures var r := JoinStep(s, true); Finished(r, j) || (InProgress(r, j) && Work(r, j) < Work(s, j))
  {
    var k := |j.b| + |j.q| + |j.rest| - |s.dataIn|;
    var h := if s.phase == Ready then s.(flag := j.two, flags := j.flags) else s;
    assert HeadTaken(h, j, k);
    if k < |j.b| - 1 {
      HeadStepMore(h, j, k);
    } else if j.two {
      HeadStepDouble(h, j);
      TailIs(HeadWord(h), j, 0, HeadOut(j));
    } else {
      HeadStepSingle(h, j);
      TailIs(HeadWord(h), j, 0, j.b);
    }
  }

  lemma MergeProgress(s: Joiner, j: Read)
    requires ValidRead(j) && |s.dataOut| >= |j.out| && Merging(s, j, TakenSecond(s, j), Out(s, j))
    ensures s.dataIn != []
    ensures var r := JoinStep(s, true); Finished(r, j) || (InProgress(r, j) && Work(r, j) < Work(s, j))
  {
    var i, e := TakenSecond(s, j), Out(s, j);
    HeadEnds(j);
    var out := MergedWord(s, j.q[i]);
    if j.q[i].last && KeepToLen(j.q[i].keep) + s.offset <= 8 {
      MergedStepEnds(s, j, i, e);
      TailIs(JoinStep(s, true), j, i, e + [out.(keep := LenToKeep(KeepToLen(j.q[i].keep) + s.offset), last := true)]);
    } else {
      MergedStepMore(s, j, i, e);
      TailIs(JoinStep(s, true), j, i + 1, e + [out]);
    }
  }

  lemma OtherProgress(s: Joiner, j: Read)
    requires ValidRead(j) && |s.dataOut| >= |j.out| && TailInv(s, j, TakenSecond(s, j), Out(s, j))
    requires s.phase == StreamUnmerged || s.phase == JoinResidue
    ensures s.phase == StreamUnmerged ==> s.dataIn != []
    ensures var r := JoinStep(s, true); Finished(r, j) || (InProgress(r, j) && Work(r, j) < Work(s, j))
  {
    var i, e, r := TakenSecond(s, j), Out(s, j), JoinStep(s, true);
    if s.phase == StreamUnmerged {
      UnmergedStep(s, j, i, e);
      TailIs(r, j, i + 1, e + [j.q[i]]);
    } else {
      JoinResidueStep(s, j, i, e);
      TailIs(r, j, i, e + [r.dataOut[|r.dataOut| - 1]]);
    }
  }

  lemma JoinProgress(s: Joiner, j: Read, room: bool)
    requires InProgress(s, j)
    ensures Work(s, j) >= 1
    ensures var r := JoinStep(s, room);
            (r == s && !room) || Finished(r, j) || (InProgress(r, j) && Work(r, j) < Work(s, j))
  {
    if room {
      if HeadInv(s, j) { HeadProgress(s, j); }
      else if s.phase == Join || s.phase == StreamMerged { MergeProgress(s, j); }
      else { OtherProgress(s, j); }
    }
  }

  lemma JoinRunPrefix(s: Joiner, rooms: seq<bool>, n: nat)
    requires 0 < n <= |rooms|
    ensures JoinRun(s, rooms[..n]) == JoinRun(JoinStep(s, rooms[0]), rooms[1..][..n - 1])
  {
    assert rooms[..n][1..] == rooms[1..][..n - 1];
  }

  /** For every pair of bursts and every stall pattern, a run of the reader is still busy or
      has put out one packet, densely packed, with the bytes of both bursts in order. */
  lemma {:induction false} JoinIsExact(s: Joiner, j: Read, rooms: seq<bool>) returns (n: nat)
    requires InProgress(s, j)
    ensures n <= |rooms|
    ensures Finished(JoinRun(s, rooms[..n]), j) || (n == |rooms| && InProgress(JoinRun(s, rooms), j))
    ensures (forall i :: 0 <= i < |rooms| ==> rooms[i]) && |rooms| >= Work(s, j) ==> Finished(JoinRun(s, rooms[..n]), j)
    decreases |rooms|
  {
    if rooms == [] {
      n := 0;
      JoinProgress(s, j, true);
    } else {
      JoinProgress(s, j, rooms[0]);
      var r := JoinStep(s, rooms[0]);
      if Finished(r, j) {
        n := 1;
        JoinRunPrefix(s, rooms, 1);
      } else {
        n := JoinIsExact(r, j, rooms[1..]);
        n := n + 1;
        JoinRunPrefix(s, rooms, n);
        assert rooms[..|rooms|] == rooms;
      }
    }
  }

  /** Splitting and joining undo each other: what the reader puts out for the bursts that the
      writer wrote for a packet is a packet with the same bytes. */
  lemma SplitThenJoin(s: Splitter, job: Job, r: Joiner, j: Read)
    requires Done(s, job) && Finished(r, j)
    requires j.two == Split(job.cmd)
    requires j.p1 == Bytes(FirstOut(job)) && (j.two ==> j.p2 == Bytes(SecondOut(s, job)))
    ensures Burst(Out(r, j), Bytes(job.words))
  {
    var n := FirstLen(job.cmd);
    assert job.p[..n] + job.p[n..] == job.p;
  }

  // ---------------------------------------------------------------- the hardware's form

  /** The static variables of `rxAppMemAccessBreakdown` and `rxAppMemDataRead`. */
  class MemReader {
    var rxAppBreakdown: bool
    var rxAppTempCmd: Cmd
    var rxAppAccLength: U16
    var inputMemAccess: seq<Cmd>
    var outputMemAccess: seq<Cmd>
    var doubleAccessOut: seq<bool>

    var rxAppState: Phase
    var rxAppDoubleAccessFlag: bool
    var rxAppMemRdRxWord: AxiWord
    var rxAppMemRdOffset: Len8
    var rxAppOffsetBuffer: int
    var rxAppDoubleAccess: seq<bool>
    var rxBufferReadData: seq<AxiWord>
    var rxDataRsp: seq<AxiWord>

    ghost function Commander(): Breaker
      reads this
    {
      Breaker(rxAppBreakdown, rxAppTempCmd, rxAppAccLength, inputMemAccess, outputMemAccess, doubleAccessOut)
    }

    ghost function Reader(): Joiner
      reads this
    {
      Joiner(rxAppState, rxAppDoubleAccessFlag, rxAppMemRdRxWord, rxAppMemRdOffset, rxAppOffsetBuffer,
             rxAppDoubleAccess, rxBufferReadData, rxDataRsp)
    }

    constructor ()
      ensures BreakInv(Commander(), []) && Reader().phase == Ready
      ensures Reader().flags == [] && Reader().dataIn == [] && Reader().dataOut == []
    {
      rxAppBreakdown, rxAppTempCmd, rxAppAccLength := false, Cmd(0, 0), 0;
      inputMemAccess, outputMemAccess, doubleAccessOut := [], [], [];
      rxAppState, rxAppDoubleAccessFlag, rxAppMemRdRxWord := Ready, false, ZERO_WORD;
      rxAppMemRdOffset, rxAppOffsetBuffer := 0, 0;
      rxAppDoubleAccess, rxBufferReadData, rxDataRsp := [], [], [];
    }

    method RxAppMemAccessBreakdown(room: Room)
      modifies this
      ensures Commander() == BreakStep(old(Commander()), room) && Reader() == old(Reader())
    {
      if !rxAppBreakdown {
        if inputMemAccess != [] && room.cmd && room.flag {
          rxAppTempCmd, inputMemAccess := inputMemAccess[0], inputMemAccess[1..];
          if Offset(rxAppTempCmd.addr) + rxAppTempCmd.len > RING {
            rxAppAccLength := (RING - rxAppTempCmd.addr) % RING;
            outputMemAccess := outputMemAccess + [Cmd(rxAppTempCmd.addr, rxAppAccLength)];
            rxAppBreakdown := true;
          } else {
            outputMemAccess := outputMemAccess + [rxAppTempCmd];
          }
          doubleAccessOut := doubleAccessOut + [rxAppBreakdown];
        }
      } else if room.cmd {
        rxAppTempCmd := Cmd(rxAppTempCmd.addr - Offset(rxAppTempCmd.addr), rxAppTempCmd.len);
        rxAppAccLength := (rxAppTempCmd.len - rxAppAccLength) % RING;
        outputMemAccess := outputMemAccess + [Cmd(rxAppTempCmd.addr, rxAppAccLength)];
        rxAppBreakdown := false;
      }
    }

    method ReadHeadWord()
      requires rxBufferReadData != []
      modifies this
      ensures Reader() == HeadWord(old(Reader())) && Commander() == old(Commander())
    {
      rxAppMemRdRxWord, rxBufferReadData := rxBufferReadData[0], rxBufferReadData[1..];
      rxAppMemRdOffset := KeepToLen(rxAppMemRdRxWord.keep);
      if rxAppMemRdRxWord.last && rxAppDoubleAccessFlag {
        rxAppMemRdRxWord := rxAppMemRdRxWord.(last := false);
        if rxAppMemRdOffset == 8 {
          rxDataRsp := rxDataRsp + [rxAppMemRdRxWord];
          rxAppState := StreamUnmerged;
        } else {
          rxAppState := Join;
        }
      } else {
        rxDataRsp := rxDataRsp + [rxAppMemRdRxWord];
        if rxAppMemRdRxWord.last { rxAppState := Ready; } else { rxAppState := Stream; }
      }
    }

    method ReadTailWord()
      requires rxBufferReadData != [] && (rxAppState == Join || rxAppState == StreamMerged)
      modifies this
      ensures var s := old(Reader());
              Reader() == TailWord(s, MergedWord(s, s.dataIn[0])) && Commander() == old(Commander())
    {
      var next := rxBufferReadData[0];
      var temp := if rxAppState == Join then JoinWords(rxAppMemRdRxWord, next, rxAppMemRdOffset)
                  else MergeWords(rxAppMemRdRxWord, next, rxAppMemRdOffset);
      rxAppMemRdRxWord, rxBufferReadData := next, rxBufferReadData[1..];
      var tempCounter := KeepToLen(next.keep);
      rxAppOffsetBuffer := (tempCounter - (8 - rxAppMemRdOffset)) % 0x100;
      if !next.last {
        rxAppState := StreamMerged;
      } else if tempCounter + rxAppMemRdOffset <= 8 {
        temp := temp.(keep := LenToKeep(tempCounter + rxAppMemRdOffset), last := true);
        rxAppState := Ready;
      } else {
        rxAppState := JoinResidue;
      }
      rxDataRsp := rxDataRsp + [temp];
    }

    /** One clock cycle of `rxAppMemDataRead`. */
    method RxAppMemDataRead(room: bool)
      modifies this
      ensures Reader() == JoinStep(old(Reader()), room) && Commander() == old(Commander())
    {
      if room {
        match rxAppState
        case Ready =>
          if rxAppDoubleAccess != [] && rxBufferReadData != [] {
            rxAppDoubleAccessFlag, rxAppDoubleAccess := rxAppDoubleAccess[0], rxAppDoubleAccess[1..];
            ReadHeadWord();
          }
        case Stream =>
          if rxBufferReadData != [] { ReadHeadWord(); }
        case StreamUnmerged =>
          if rxBufferReadData != [] {
            var temp := rxBufferReadData[0];
            rxBufferReadData := rxBufferReadData[1..];
            if temp.last { rxAppState := Ready; }
            rxDataRsp := rxDataRsp + [temp];
          }
        case Join =>
          if rxBufferReadData != [] { ReadTailWord(); }
        case StreamMerged =>
          if rxBufferReadData != [] { ReadTailWord(); }
        case JoinResidue =>
          rxDataRsp := rxDataRsp + [Word(rxAppMemRdRxWord.data[8 - rxAppMemRdOffset..]
              + ZERO_WORD.data[..8 - rxAppMemRdOffset],
                                         LenToKeep(rxAppOffsetBuffer), true)];
          rxAppState := Ready;
      }
    }
  }
}
