/** Writing a packet into a 64 KiB ring: `rxEngMemWrite` of rx_engine.cpp and
    `tasi_pkg_pusher` of tx_app_stream_if.cpp, which share their state machine.

    A packet that runs over the end of the ring is written as two bursts; the second one is
    realigned byte by byte. `tasi_pkg_pusher` can also be told to drop a packet. */
module RingSplit {
  import opened Toe
  import opened Axi

  /** A memory command: 16 bits of session and ring address in `addr`, and a byte count. */
  datatype Cmd = Cmd(addr: nat, len: nat)

  /** What the front end asks for: a packet to write or, only on the TX side, to drop. */
  datatype Push = Write(cmd: Cmd) | Drop

  datatype Phase = Idle | WriteFirst | EvalSecond | Aligned | WriteSecond | Residue

  type Len8 = x: nat | x <= 8

  datatype Splitter = Splitter(
    phase: Phase, drop: bool, cmd: Cmd, breakTemp: U16, lengthBuffer: Len8, residue: nat,
    breakdown: bool, pushWord: AxiWord,
    cmdIn: seq<Push>, dataIn: seq<AxiWord>,
    cmdOut: seq<Cmd>, dataOut: seq<AxiWord>, doubleAccess: seq<bool>)

  /** Which output FIFOs have room in this clock cycle. */
  datatype Room = Room(cmd: bool, data: bool, flag: bool)

  function Offset(addr: nat): nat {
    addr % RING
  }

  /** The bytes of the first burst. */
  function FirstLen(c: Cmd): nat {
    if Offset(c.addr) + c.len > RING then RING - Offset(c.addr) else c.len
  }

  /** `prev` without its first `k` bytes, filled up with the first `k` bytes of `next`. */
  function Realign(prev: AxiWord, next: AxiWord, k: Len8): AxiWord {
    Word(prev.data[k..] + next.data[..k], 0xFF, false)
  }

  /** The rest of `prev` after its first `k` bytes, as the last word of a burst. */
  function Rest(prev: AxiWord, k: Len8, keep: int): AxiWord
    requires Contiguous(keep)
  {
    Word(prev.data[k..] + ZERO_WORD.data[..k], keep, true)
  }

  /** The first command of a packet, with the bytes that do not fit left for a second one. */
  function Begin(s: Splitter, c: Cmd): Splitter {
    if Offset(c.addr) + c.len > RING then
      var n := (RING - c.addr) % RING;
      s.(cmd := Cmd(c.addr, c.len - n), breakTemp := n, breakdown := true,
         cmdOut := s.cmdOut + [Cmd(c.addr, n)], doubleAccess := s.doubleAccess + [true])
    else
      s.(cmd := c, breakTemp := c.len % RING,
         cmdOut := s.cmdOut + [c], doubleAccess := s.doubleAccess + [s.breakdown])
  }

  function StepIdle(s: Splitter): Splitter
    requires s.cmdIn != []
  {
    var r := s.(phase := WriteFirst, cmdIn := s.cmdIn[1..], drop := s.cmdIn[0].Drop?);
    if s.cmdIn[0].Drop? then r else Begin(r, s.cmdIn[0].cmd)
  }

  function StepFirst(s: Splitter): Splitter
    requires s.dataIn != []
  {
    var w := s.dataIn[0];
    var r := s.(dataIn := s.dataIn[1..], pushWord := w);
    if s.drop then
      if w.last then r.(phase := Idle) else r
    else if s.breakTemp > 8 then
      r.(breakTemp := s.breakTemp - 8, dataOut := s.dataOut + [w])
    else if s.breakdown then
      var keep := if Offset(s.cmd.addr) % 8 != 0 then LenToKeep(s.breakTemp) else w.keep;
      r.(phase := EvalSecond, residue := (KeepToLen(w.keep) - s.breakTemp) % 8,
         lengthBuffer := s.breakTemp, dataOut := s.dataOut + [w.(keep := keep, last := true)])
    else
      r.(phase := Idle, dataOut := s.dataOut + [w])
  }

  function StepEval(s: Splitter): Splitter {
    var next := if Offset(s.cmd.addr) % 8 == 0 then Aligned
                else if s.cmd.len - s.residue > 0 then WriteSecond else Residue;
    var c := Cmd(s.cmd.addr - Offset(s.cmd.addr), s.cmd.len);
    s.(phase := next, cmd := c, breakTemp := c.len % RING, breakdown := false,
       cmdOut := s.cmdOut + [Cmd(c.addr, c.len % RING)])
  }

  function StepAligned(s: Splitter): Splitter
    requires s.dataIn != []
  {
    var w := s.dataIn[0];
    s.(dataIn := s.dataIn[1..], pushWord := w, dataOut := s.dataOut + [w],
       phase := if w.last then Idle else Aligned)
  }

  function StepSecond(s: Splitter): Splitter
    requires s.dataIn != []
  {
    var w := s.dataIn[0];
    var r := s.(dataIn := s.dataIn[1..], pushWord := w);
    var out := Realign(s.pushWord, w, s.lengthBuffer);
    if w.last && s.breakTemp - s.residue <= s.lengthBuffer then
      r.(phase := Idle, dataOut := s.dataOut + [out.(keep := LenToKeep(s.breakTemp), last := true)])
    else
      r.(phase := if w.last then Residue else WriteSecond,
         breakTemp := (s.breakTemp - 8) % RING, dataOut := s.dataOut + [out])
  }

  function StepResidue(s: Splitter): Splitter {
    s.(phase := Idle,
       dataOut := s.dataOut + [Rest(s.pushWord, s.lengthBuffer, LenToKeep(s.breakTemp))])
  }

  /** One clock cycle: nothing happens when an input is empty or an output is full. */
  function Step(s: Splitter, room: Room): Splitter {
    match s.phase
    case Idle => if s.cmdIn != [] && room.cmd && room.flag then StepIdle(s) else s
    case WriteFirst => if s.dataIn != [] && room.data then StepFirst(s) else s
    case EvalSecond => if room.cmd then StepEval(s) else s
    case Aligned => if s.dataIn != [] && room.data then StepAligned(s) else s
    case WriteSecond => if s.dataIn != [] && room.data then StepSecond(s) else s
    case Residue => if room.data then StepResidue(s) else s
  }

  function Run(s: Splitter, rooms: seq<Room>): Splitter
    decreases |rooms|
  {
    if rooms == [] then s else Run(Step(s, rooms[0]), rooms[1..])
  }

  // ---------------------------------------------------------------- one packet

  /** A packet to write, what follows it in the input FIFOs, and what was written before. */
  datatype Job = Job(
    cmd: Cmd, words: seq<AxiWord>, p: seq<Byte>,
    cmds: seq<Push>, rest: seq<AxiWord>, cmdOut: seq<Cmd>, dataOut: seq<AxiWord>)

  /** The job is what the callers issue: a non-empty packet of the commanded length. */
  predicate ValidJob(j: Job) {
    && Burst(j.words, j.p) && |j.p| == j.cmd.len && 1 <= j.cmd.len < RING
  }

  predicate Split(c: Cmd) {
    FirstLen(c) < c.len
  }

  /** The commands that have to be issued for a packet: none crosses the end of the ring. */
  function Commands(c: Cmd): seq<Cmd> {
    if Split(c) then [Cmd(c.addr, FirstLen(c)), Cmd(c.addr - Offset(c.addr), c.len - FirstLen(c))]
    else [c]
  }

  /** The number of words of the first burst. */
  function FirstWords(c: Cmd): nat {
    (FirstLen(c) + 7) / 8
  }

  /** How many words of the job the splitter has taken. */
  function Taken(s: Splitter, j: Job): int {
    |j.words| + |j.rest| - |s.dataIn|
  }

  predicate Inputs(s: Splitter, j: Job) {
    && 0 <= Taken(s, j) <= |j.words|
    && s.cmdIn == j.cmds && s.dataIn == j.words[Taken(s, j)..] + j.rest && !s.drop
  }

  predicate StartInv(s: Splitter, j: Job) {
    && s.phase == Idle && !s.breakdown
    && s.cmdIn == [Write(j.cmd)] + j.cmds && s.dataIn == j.words + j.rest
    && s.cmdOut == j.cmdOut && s.dataOut == j.dataOut
  }

  predicate FirstInv(s: Splitter, j: Job) {
    var k := Taken(s, j);
    && s.phase == WriteFirst && Inputs(s, j)
    && s.breakdown == Split(j.cmd)
    && s.cmd == Cmd(j.cmd.addr, if Split(j.cmd) then j.cmd.len - FirstLen(j.cmd) else j.cmd.len)
    && s.cmdOut == j.cmdOut + Commands(j.cmd)[..1]
    && s.dataOut == j.dataOut + j.words[..k]
    && 8 * k < FirstLen(j.cmd) && s.breakTemp == FirstLen(j.cmd) - 8 * k
  }

  /** The first burst is out, and `lengthBuffer` bytes of its last word were used. */
  predicate FirstDone(s: Splitter, j: Job, b: seq<AxiWord>) {
    && ValidJob(j) && Split(j.cmd) && Burst(b, j.p[..FirstLen(j.cmd)]) && |b| == FirstWords(j.cmd)
    && s.lengthBuffer == FirstLen(j.cmd) - 8 * (FirstWords(j.cmd) - 1)
  }

  predicate EvalInv(s: Splitter, j: Job, b: seq<AxiWord>) {
    && s.phase == EvalSecond && Inputs(s, j) && FirstDone(s, j, b)
    && Taken(s, j) == FirstWords(j.cmd)
    && s.pushWord == j.words[FirstWords(j.cmd) - 1]
    && s.residue == KeepToLen(s.pushWord.keep) - s.lengthBuffer
    && s.cmd == Cmd(j.cmd.addr, j.cmd.len - FirstLen(j.cmd))
    && s.cmdOut == j.cmdOut + Commands(j.cmd)[..1] && s.dataOut == j.dataOut + b
  }

  predicate AlignedInv(s: Splitter, j: Job, b: seq<AxiWord>) {
    var k := Taken(s, j);
    && s.phase == Aligned && Inputs(s, j) && !s.breakdown && FirstDone(s, j, b)
    && s.lengthBuffer == 8 && FirstWords(j.cmd) <= k < |j.words|
    && s.cmdOut == j.cmdOut + Commands(j.cmd)
    && s.dataOut == j.dataOut + b + j.words[FirstWords(j.cmd)..k]
  }

  /** `q` is the part of the second burst that is out; the unused bytes of `pushWord` and
      the words to come hold the rest. */
  predicate SecondInv(s: Splitter, j: Job, b: seq<AxiWord>, q: seq<AxiWord>) {
    var k := Taken(s, j);
    && FirstDone(s, j, b) && Inputs(s, j) && !s.breakdown && s.lengthBuffer < 8
    && k == FirstWords(j.cmd) + |q|
    && s.pushWord == j.words[k - 1]
    && s.cmdOut == j.cmdOut + Commands(j.cmd) && s.dataOut == j.dataOut + b + q
    && BurstPrefix(q, j.p[FirstLen(j.cmd)..])
    && s.breakTemp == j.cmd.len - FirstLen(j.cmd) - 8 * |q|
    && (s.phase == WriteSecond ==> k < |j.words| && s.residue == 8 - s.lengthBuffer)
    && (s.phase == Residue ==> k == |j.words| && s.breakTemp > 0)
    && (s.phase == WriteSecond || s.phase == Residue)
  }

  /** The outcome of a job: the commanded bursts, byte for byte the packet. */
  predicate Written(s: Splitter, j: Job, b: seq<AxiWord>, q: seq<AxiWord>) {
    && ValidJob(j) && s.phase == Idle && !s.breakdown
    && s.cmdIn == j.cmds && s.dataIn == j.rest
    && s.cmdOut == j.cmdOut + Commands(j.cmd)
    && s.dataOut == j.dataOut + b + q
    && Burst(b, j.p[..FirstLen(j.cmd)])
    && if Split(j.cmd) then Burst(q, j.p[FirstLen(j.cmd)..]) else q == []
  }

  lemma JobWords(j: Job)
    requires ValidJob(j)
    ensures |j.p| <= 8 * |j.words| <= |j.p| + 7
    ensures FirstLen(j.cmd) >= 1 && FirstLen(j.cmd) <= j.cmd.len
    ensures 8 * FirstWords(j.cmd) >= FirstLen(j.cmd) > 8 * (FirstWords(j.cmd) - 1)
    ensures FirstWords(j.cmd) <= |j.words|
  {
    PackedAt(j.words, j.p, |j.words| - 1);
  }

  lemma IdleStep(s: Splitter, j: Job)
    requires ValidJob(j) && StartInv(s, j)
    ensures FirstInv(StepIdle(s), j)
  {
    JobWords(j);
    var r := StepIdle(s);
    assert r.cmdIn == j.cmds;
    assert Taken(r, j) == 0;
    assert j.words[0..] == j.words;
  }

  lemma TakeWord(s: Splitter, j: Job)
    requires Inputs(s, j) && Taken(s, j) < |j.words|
    ensures s.dataIn != [] && s.dataIn[0] == j.words[Taken(s, j)]
    ensures s.dataIn[1..] == j.words[Taken(s, j) + 1..] + j.rest
  {
    var k := Taken(s, j);
    assert j.words[k..] == [j.words[k]] + j.words[k + 1..];
  }

  /** A word in the middle of the first burst is passed on. */
  lemma FirstStepMore(s: Splitter, j: Job)
    requires ValidJob(j) && FirstInv(s, j) && s.breakTemp > 8
    ensures s.dataIn != [] && FirstInv(StepFirst(s), j)
  {
    JobWords(j);
    TakeWord(s, j);
    var k := Taken(s, j);
    assert j.words[..k + 1] == j.words[..k] + [j.words[k]];
  }

  /** The last word of a packet that fits before the end of the ring. */
  lemma FirstStepEnds(s: Splitter, j: Job)
    requires ValidJob(j) && FirstInv(s, j) && s.breakTemp <= 8 && !Split(j.cmd)
    ensures s.dataIn != [] && Written(StepFirst(s), j, j.words, [])
  {
    JobWords(j);
    TakeWord(s, j);
    var k := Taken(s, j);
    assert k == |j.words| - 1;
    assert j.words == j.words[..k] + [j.words[k]];
    assert j.p[..FirstLen(j.cmd)] == j.p;
  }

  /** The last word of the first burst, cut to the bytes before the end of the ring. */
  function CutWord(j: Job): AxiWord
    requires ValidJob(j) && Split(j.cmd) && 0 < FirstWords(j.cmd) <= |j.words|
  {
    var k := FirstWords(j.cmd) - 1;
    j.words[k].(keep := LenToKeep(FirstLen(j.cmd) - 8 * k), last := true)
  }

  lemma FirstBurst(j: Job)
    requires ValidJob(j) && Split(j.cmd)
    ensures 0 < FirstWords(j.cmd) <= |j.words|
    ensures Burst(j.words[..FirstWords(j.cmd) - 1] + [CutWord(j)], j.p[..FirstLen(j.cmd)])
  {
    JobWords(j);
    var n, k := FirstLen(j.cmd), FirstWords(j.cmd) - 1;
    PackedAt(j.words, j.p, k);
    var w, p := CutWord(j), j.p[..n];
    assert BurstPrefix(j.words[..k], p) by {
      assert p[..8 * k] == j.p[..8 * k];
    }
    assert Kept(w) == p[8 * k..] by {
      assert w.data == j.words[k].data;
      assert j.words[k].data[..n - 8 * k] == Kept(j.words[k])[..n - 8 * k];
    }
    PrefixEnds(j.words[..k], p, w);
  }

  lemma FirstStepCuts(s: Splitter, j: Job)
    requires ValidJob(j) && FirstInv(s, j) && s.breakTemp <= 8 && Split(j.cmd)
    ensures s.dataIn != [] && 0 < FirstWords(j.cmd) <= |j.words|
    ensures EvalInv(StepFirst(s), j, j.words[..FirstWords(j.cmd) - 1] + [CutWord(j)])
  {
    JobWords(j);
    TakeWord(s, j);
    FirstBurst(j);
    var k := Taken(s, j);
    assert k == FirstWords(j.cmd) - 1;
    PackedAt(j.words, j.p, k);
    var w := j.words[k];
    if Offset(j.cmd.addr) % 8 == 0 {
      assert FirstLen(j.cmd) % 8 == 0 && s.breakTemp == 8;
      assert KeepToLen(w.keep) == 8;
    }
    assert StepFirst(s).dataOut == s.dataOut + [CutWord(j)];
    assert s.dataOut + [CutWord(j)] == j.dataOut + (j.words[..k] + [CutWord(j)]);
  }

  /** Where a realigned word stands in the second burst's bytes. */
  lemma SecondBytes(j: Job, i: nat)
    requires ValidJob(j) && Split(j.cmd) && FirstWords(j.cmd) + i <= |j.words|
    ensures var n, k, lb := FirstLen(j.cmd), FirstWords(j.cmd) + i, FirstLen(j.cmd) - 8 * (FirstWords(j.cmd) - 1);
            && 0 < k && 0 < lb <= 8 && 8 * (k - 1) + lb == n + 8 * i
            && (k < |j.words| ==>
                  (KeepToLen(j.words[k - 1].keep) == 8 && |j.p| > 8 * k
                  && j.words[k - 1].data[lb..] == j.p[n + 8 * i..8 * k]))
            && (k == |j.words| ==> KeepToLen(j.words[k - 1].keep) == |j.p| - 8 * (k - 1))
  {
    JobWords(j);
    var k := FirstWords(j.cmd) + i;
    PackedAt(j.words, j.p, k - 1);
    if k < |j.words| { PackedAt(j.words, j.p, k); }
  }

  lemma EvalStep(s: Splitter, j: Job, b: seq<AxiWord>)
    requires EvalInv(s, j, b)
    ensures AlignedInv(StepEval(s), j, b) || SecondInv(StepEval(s), j, b, [])
  {
    JobWords(j);
    SecondBytes(j, 0);
    var r := StepEval(s);
    assert Commands(j.cmd) == Commands(j.cmd)[..1] + [Cmd(j.cmd.addr - Offset(j.cmd.addr),
        j.cmd.len - FirstLen(j.cmd))];
    assert r.cmdOut == j.cmdOut + Commands(j.cmd);
    assert j.words[FirstWords(j.cmd)..FirstWords(j.cmd)] == [];
    assert Taken(r, j) == Taken(s, j);
    if Offset(j.cmd.addr) % 8 == 0 {
      assert FirstLen(j.cmd) == 8 * FirstWords(j.cmd);
    } else {
      assert s.lengthBuffer < 8;
      assert j.p[FirstLen(j.cmd)..][..0] == [];
    }
  }

  lemma AlignedStep(s: Splitter, j: Job, b: seq<AxiWord>)
    requires AlignedInv(s, j, b)
    ensures s.dataIn != []
    ensures AlignedInv(StepAligned(s), j, b) || Written(StepAligned(s), j, b, j.words[FirstWords(j.cmd)..])
  {
    JobWords(j);
    TakeWord(s, j);
    var k, f := Taken(s, j), FirstWords(j.cmd);
    PackedAt(j.words, j.p, k);
    assert j.words[f..k + 1] == j.words[f..k] + [j.words[k]];
    if k == |j.words| - 1 {
      assert j.words[f..k + 1] == j.words[f..];
      AlignedTail(j);
    }
  }

  /** When the ring ends between two words, the second burst is the rest of the packet. */
  lemma AlignedTail(j: Job)
    requires ValidJob(j) && Split(j.cmd) && FirstLen(j.cmd) == 8 * FirstWords(j.cmd) && FirstWords(j.cmd) < |j.words|
    ensures Burst(j.words[FirstWords(j.cmd)..], j.p[FirstLen(j.cmd)..])
  {
    var f := FirstWords(j.cmd);
    PackedAt(j.words, j.p, f);
    assert j.words == j.words[..f] + j.words[f..];
    BytesConcat(j.words[..f], j.words[f..]);
    FullBytes(j.words[..f]);
    var t := j.words[f..];
    forall i | 0 <= i < |t| - 1 ensures FullWord(t[i]) { assert t[i] == j.words[..|j.words| - 1][f + i]; }
  }

  /** A realigned word carries the next eight bytes of the second burst. */
  lemma RealignedWord(j: Job, i: nat, lb: Len8)
    requires ValidJob(j) && Split(j.cmd) && FirstWords(j.cmd) + i < |j.words|
    requires lb == FirstLen(j.cmd) - 8 * (FirstWords(j.cmd) - 1) && lb < 8
    ensures var n, k, p2 := FirstLen(j.cmd), FirstWords(j.cmd) + i, j.p[FirstLen(j.cmd)..];
            var m := if KeepToLen(j.words[k].keep) < lb then KeepToLen(j.words[k].keep) + 8 - lb else 8;
            && 0 < k && 8 * i + m <= |p2|
            && Realign(j.words[k - 1], j.words[k], lb).data[..m] == p2[8 * i..8 * i + m]
  {
    SecondBytes(j, i);
    var n, k := FirstLen(j.cmd), FirstWords(j.cmd) + i;
    PackedAt(j.words, j.p, k);
    var c := KeepToLen(j.words[k].keep);
    var m := if c < lb then c + 8 - lb else 8;
    var t := m - (8 - lb);
    KeptTake(j.words[k], j.p, 8 * k, t);
    RealignTake(j.words[k - 1], j.words[k], lb, t);
    SlicesMeet(j.words[k - 1].data[lb..], j.words[k].data[..t], j.p, n, 8 * i, 8 * k, 8 * i + m);
  }

  /** Two adjacent slices of `p`, seen from `n` on. */
  lemma SlicesMeet(a: seq<Byte>, b: seq<Byte>, p: seq<Byte>, n: nat, lo: nat, mid: nat, hi: nat)
    requires n + lo <= mid <= n + hi <= |p| && a == p[n + lo..mid] && b == p[mid..n + hi]
    ensures a + b == p[n..][lo..hi]
  {
    DropSlice(p, n, lo, hi);
    Adjacent(p, n + lo, mid, n + hi);
  }

  lemma RealignTake(prev: AxiWord, next: AxiWord, k: Len8, t: nat)
    requires t <= k
    ensures Realign(prev, next, k).data[..8 - k + t] == prev.data[k..] + next.data[..t]
  {
  }

  lemma SecondStepMore(s: Splitter, j: Job, b: seq<AxiWord>, q: seq<AxiWord>)
    requires SecondInv(s, j, b, q) && s.phase == WriteSecond
    requires var w := j.words[Taken(s, j)]; !w.last || s.breakTemp - s.residue > s.lengthBuffer
    ensures s.dataIn != [] && SecondInv(StepSecond(s), j, b, q + [Realign(s.pushWord, s.dataIn[0], s.lengthBuffer)])
  {
    JobWords(j);
    TakeWord(s, j);
    SecondBytes(j, |q|);
    RealignedWord(j, |q|, s.lengthBuffer);
    var k, p2 := Taken(s, j), j.p[FirstLen(j.cmd)..];
    PackedAt(j.words, j.p, k);
    var out := Realign(s.pushWord, s.dataIn[0], s.lengthBuffer);
    assert out.data[..8] == out.data;
    PrefixGrows(q, p2, out);
    assert StepSecond(s).dataOut == j.dataOut + b + (q + [out]);
    assert StepSecond(s).breakTemp == s.breakTemp - 8;
  }

  lemma Whole(p: seq<Byte>, a: nat, b: nat)
    requires a <= b == |p|
    ensures p[a..b] == p[a..]
  {
  }

  lemma SecondStepEnds(s: Splitter, j: Job, b: seq<AxiWord>, q: seq<AxiWord>)
    requires SecondInv(s, j, b, q) && s.phase == WriteSecond
    requires var w := j.words[Taken(s, j)]; w.last && s.breakTemp - s.residue <= s.lengthBuffer
    ensures s.dataIn != []
    ensures var out := Realign(s.pushWord, s.dataIn[0], s.lengthBuffer).(keep := LenToKeep(s.breakTemp), last := true);
            Written(StepSecond(s), j, b, q + [out])
  {
    JobWords(j);
    TakeWord(s, j);
    RealignedWord(j, |q|, s.lengthBuffer);
    var k, p2 := Taken(s, j), j.p[FirstLen(j.cmd)..];
    PackedAt(j.words, j.p, k);
    assert k == |j.words| - 1;
    var out := Realign(s.pushWord, s.dataIn[0], s.lengthBuffer).(keep := LenToKeep(s.breakTemp), last := true);
    assert Kept(out) == p2[8 * |q|..8 * |q| + s.breakTemp];
    Whole(p2, 8 * |q|, 8 * |q| + s.breakTemp);
    PrefixEnds(q, p2, out);
    assert StepSecond(s).dataOut == j.dataOut + b + (q + [out]);
  }

  /** The bytes left over in the packet's last word. */
  lemma ResidueWord(j: Job, i: nat, lb: Len8)
    requires ValidJob(j) && Split(j.cmd) && FirstWords(j.cmd) + i == |j.words|
    requires lb == FirstLen(j.cmd) - 8 * (FirstWords(j.cmd) - 1)
    requires FirstLen(j.cmd) + 8 * i < j.cmd.len
    ensures var p2, m := j.p[FirstLen(j.cmd)..], j.cmd.len - FirstLen(j.cmd) - 8 * i;
            && lb + m <= 8 && j.words[|j.words| - 1].data[lb..lb + m] == p2[8 * i..]
  {
    SecondBytes(j, i);
    var k := |j.words| - 1;
    PackedAt(j.words, j.p, k);
    var w, m := j.words[k], j.cmd.len - FirstLen(j.cmd) - 8 * i;
    assert w.data[lb..lb + m] == Kept(w)[lb..] == j.p[8 * k..][lb..];
  }

  lemma ResidueStep(s: Splitter, j: Job, b: seq<AxiWord>, q: seq<AxiWord>)
    requires SecondInv(s, j, b, q) && s.phase == Residue
    ensures Written(StepResidue(s), j, b, q + [Rest(s.pushWord, s.lengthBuffer, LenToKeep(s.breakTemp))])
  {
    ResidueWord(j, |q|, s.lengthBuffer);
    var out := Rest(s.pushWord, s.lengthBuffer, LenToKeep(s.breakTemp));
    assert Kept(out) == s.pushWord.data[s.lengthBuffer..s.lengthBuffer + s.breakTemp];
    PrefixEnds(q, j.p[FirstLen(j.cmd)..], out);
    assert StepResidue(s).dataOut == j.dataOut + b + (q + [out]);
    assert s.dataIn == j.rest;
  }

  // ---------------------------------------------------------------- every schedule

  function FirstOut(j: Job): seq<AxiWord>
    requires ValidJob(j)
  {
    JobWords(j);
    if Split(j.cmd) then j.words[..FirstWords(j.cmd) - 1] + [CutWord(j)] else j.words
  }

  /** The words of the second burst that are out. */
  function SecondOut(s: Splitter, j: Job): seq<AxiWord>
    requires ValidJob(j) && |s.dataOut| >= |j.dataOut| + |FirstOut(j)|
  {
    s.dataOut[|j.dataOut| + |FirstOut(j)|..]
  }

  predicate InSecond(s: Splitter, j: Job) {
    && ValidJob(j) && |s.dataOut| >= |j.dataOut| + |FirstOut(j)|
    && SecondInv(s, j, FirstOut(j), SecondOut(s, j))
  }

  /** The job is finished: the bursts in the output are exactly the commanded ones. */
  predicate Done(s: Splitter, j: Job) {
    && ValidJob(j) && |s.dataOut| >= |j.dataOut| + |FirstOut(j)|
    && Written(s, j, FirstOut(j), SecondOut(s, j))
  }

  predicate InProgress(s: Splitter, j: Job) {
    ValidJob(j) &&
    (StartInv(s, j) || FirstInv(s, j) || EvalInv(s, j, FirstOut(j)) || AlignedInv(s, j, FirstOut(j)) || InSecond(s, j))
  }

  /** Clock cycles left when nothing blocks. */
  function Work(s: Splitter, j: Job): int {
    var rem := |s.dataIn| - |j.rest|;
    match s.phase
    case Idle => rem + 4
    case WriteFirst => rem + 3
    case EvalSecond => rem + 2
    case _ => rem + 1
  }

  predicate Open(room: Room) {
    room.cmd && room.data && room.flag
  }

  lemma SecondOutIs(s: Splitter, j: Job, q: seq<AxiWord>)
    requires ValidJob(j) && s.dataOut == j.dataOut + FirstOut(j) + q
    ensures SecondOut(s, j) == q
  {
  }

  lemma FirstStepProgress(s: Splitter, j: Job)
    requires ValidJob(j) && FirstInv(s, j)
    ensures s.dataIn != []
    ensures var r := StepFirst(s); Done(r, j) || (InProgress(r, j) && Work(r, j) < Work(s, j))
  {
    if s.breakTemp > 8 {
      FirstStepMore(s, j);
    } else if Split(j.cmd) {
      FirstStepCuts(s, j);
    } else {
      FirstStepEnds(s, j);
      SecondOutIs(StepFirst(s), j, []);
    }
  }

  lemma LastStepsProgress(s: Splitter, j: Job)
    requires InSecond(s, j)
    ensures s.phase == WriteSecond ==> s.dataIn != []
    ensures var r := if s.phase == WriteSecond then StepSecond(s) else StepResidue(s);
            Done(r, j) || (InProgress(r, j) && Work(r, j) < Work(s, j))
  {
    var b, q := FirstOut(j), SecondOut(s, j);
    if s.phase == Residue {
      ResidueStep(s, j, b, q);
      SecondOutIs(StepResidue(s), j, q + [Rest(s.pushWord, s.lengthBuffer, LenToKeep(s.breakTemp))]);
    } else {
      TakeWord(s, j);
      var out := Realign(s.pushWord, s.dataIn[0], s.lengthBuffer);
      if s.dataIn[0].last && s.breakTemp - s.residue <= s.lengthBuffer {
        SecondStepEnds(s, j, b, q);
        SecondOutIs(StepSecond(s), j, q + [out.(keep := LenToKeep(s.breakTemp), last := true)]);
      } else {
        SecondStepMore(s, j, b, q);
        SecondOutIs(StepSecond(s), j, q + [out]);
      }
    }
  }

  lemma EvalProgress(s: Splitter, j: Job)
    requires ValidJob(j) && EvalInv(s, j, FirstOut(j))
    ensures var r := StepEval(s); InProgress(r, j) && Work(r, j) < Work(s, j)
  {
    EvalStep(s, j, FirstOut(j));
    SecondOutIs(StepEval(s), j, []);
  }

  lemma AlignedProgress(s: Splitter, j: Job)
    requires ValidJob(j) && AlignedInv(s, j, FirstOut(j))
    ensures s.dataIn != []
    ensures var r := StepAligned(s); Done(r, j) || (InProgress(r, j) && Work(r, j) < Work(s, j))
  {
    AlignedStep(s, j, FirstOut(j));
    if Written(StepAligned(s), j, FirstOut(j), j.words[FirstWords(j.cmd)..]) {
      SecondOutIs(StepAligned(s), j, j.words[FirstWords(j.cmd)..]);
    }
  }

  /** Every clock cycle either stalls or brings the job nearer to its end, and an open cycle
      never stalls. */
  lemma StepProgress(s: Splitter, j: Job, room: Room)
    requires InProgress(s, j)
    ensures var r := Step(s, room);
            (r == s && !Open(room)) || Done(r, j) || (InProgress(r, j) && Work(r, j) < Work(s, j))
  {
    match s.phase
    case Idle => IdleStep(s, j);
    case WriteFirst => FirstStepProgress(s, j);
    case EvalSecond => EvalProgress(s, j);
    case Aligned => AlignedProgress(s, j);
    case _ => LastStepsProgress(s, j);
  }

  lemma WorkIsPositive(s: Splitter, j: Job)
    requires InProgress(s, j)
    ensures Work(s, j) >= 1
  {
  }

  lemma RunPrefix(s: Splitter, rooms: seq<Room>, n: nat)
    requires 0 < n <= |rooms|
    ensures Run(s, rooms[..n]) == Run(Step(s, rooms[0]), rooms[1..][..n - 1])
  {
    assert rooms[..n][1..] == rooms[1..][..n - 1];
  }

  predicate AllOpen(rooms: seq<Room>) {
    forall i :: 0 <= i < |rooms| ==> Open(rooms[i])
  }

  /** For every start address, length, payload and stall pattern: a run of the splitter is
      either still busy with the packet, or has reached a state in which the bursts in the
      output have the commanded lengths, do not cross the end of the ring and carry exactly
      the packet. A packet of n words needs at most n + 4 open cycles. */
  lemma {:induction false} SplitIsExact(s: Splitter, j: Job, rooms: seq<Room>) returns (n: nat)
    requires InProgress(s, j)
    ensures n <= |rooms|
    ensures Done(Run(s, rooms[..n]), j) || (n == |rooms| && InProgress(Run(s, rooms), j))
    ensures AllOpen(rooms) && |rooms| >= Work(s, j) ==> Done(Run(s, rooms[..n]), j)
    decreases |rooms|
  {
    WorkIsPositive(s, j);
    if rooms == [] {
      n := 0;
    } else {
      StepProgress(s, j, rooms[0]);
      var r := Step(s, rooms[0]);
      if Done(r, j) {
        n := 1;
        RunPrefix(s, rooms, 1);
      } else {
        n := SplitIsExact(r, j, rooms[1..]);
        n := n + 1;
        RunPrefix(s, rooms, n);
        assert rooms[..|rooms|] == rooms;
      }
    }
  }

  /** The commanded bursts stay inside the ring and add up to the packet. */
  lemma CommandsFitTheRing(c: Cmd)
    requires 1 <= c.len < RING
    ensures forall i :: 0 <= i < |Commands(c)| ==>
              Commands(c)[i].len >= 1 && Offset(Commands(c)[i].addr) + Commands(c)[i].len <= RING
    ensures Split(c) <==> Offset(c.addr) + c.len > RING
    ensures Split(c) ==> Commands(c)[0].len + Commands(c)[1].len == c.len && Offset(Commands(c)[1].addr) == 0
  {
  }

  /** A finished splitter is ready for the next packet in its input. */
  lemma NextJob(s: Splitter, j: Job, next: Job)
    requires Done(s, j) && j.cmds == [Write(next.cmd)] + next.cmds && j.rest == next.words + next.rest
    requires next.cmdOut == s.cmdOut && next.dataOut == s.dataOut && ValidJob(next)
    ensures InProgress(s, next)
  {
  }

  // ---------------------------------------------------------------- dropping a packet

  /** Dropping: the words of the packet are taken and nothing is written. */
  predicate Dropping(s: Splitter, words: seq<AxiWord>, rest: seq<AxiWord>, cmdOut: seq<Cmd>, dataOut: seq<AxiWord>) {
    && s.cmdOut == cmdOut && s.dataOut == dataOut && !s.breakdown
    && Packed(words)
    && var k := |words| + |rest| - |s.dataIn|;
       0 <= k < |words| && s.dataIn == words[k..] + rest
       && if s.phase == Idle then k == 0 && s.cmdIn != [] && s.cmdIn[0].Drop? else s.phase == WriteFirst && s.drop
  }

  lemma DropStep(s: Splitter, words: seq<AxiWord>, rest: seq<AxiWord>, cmdOut: seq<Cmd>, dataOut: seq<AxiWord>,
      room: Room)
    requires Dropping(s, words, rest, cmdOut, dataOut)
    ensures var r := Step(s, room);
            || Dropping(r, words, rest, cmdOut, dataOut)
            || (r.phase == Idle && r.dataIn == rest && r.cmdOut == cmdOut && r.dataOut == dataOut)
  {
    if s.phase == WriteFirst && room.data {
      DropWord(s, words, rest, |words| + |rest| - |s.dataIn|);
    }
  }

  lemma DropWord(s: Splitter, words: seq<AxiWord>, rest: seq<AxiWord>, k: nat)
    requires Packed(words) && k < |words| && s.dataIn == words[k..] + rest && s.phase == WriteFirst && s.drop
    ensures var r := StepFirst(s);
            && r.dataIn == words[k + 1..] + rest && r.cmdOut == s.cmdOut && r.dataOut == s.dataOut
            && r.breakdown == s.breakdown && r.drop
            && (if k == |words| - 1 then r.phase == Idle else r.phase == WriteFirst)
  {
    assert words[k..] == [words[k]] + words[k + 1..];
    if k < |words| - 1 { assert words[k] == words[..|words| - 1][k]; }
  }

  // ---------------------------------------------------------------- the hardware's form

  /** The static variables of `rxEngMemWrite` and `tasi_pkg_pusher` and their FIFOs. */
  class MemWriter {
    var rxMemWrState: Phase
    var dropPacket: bool
    var rxMemWriterCmd: Cmd
    var rxEngBreakTemp: U16
    var lengthBuffer: Len8
    var rxEngAccessResidue: nat
    var txAppBreakdown: bool
    var pushWord: AxiWord
    var cmdIn: seq<Push>
    var dataIn: seq<AxiWord>
    var cmdOut: seq<Cmd>
    var dataOut: seq<AxiWord>
    var doubleAccess: seq<bool>

    ghost function Abs(): Splitter
      reads this
    {
      Splitter(rxMemWrState, dropPacket, rxMemWriterCmd, rxEngBreakTemp, lengthBuffer, rxEngAccessResidue,
               txAppBreakdown, pushWord, cmdIn, dataIn, cmdOut, dataOut, doubleAccess)
    }

    constructor ()
      ensures var s := Abs();
              && s.phase == Idle && !s.breakdown && s.cmdIn == [] && s.dataIn == []
              && s.cmdOut == [] && s.dataOut == [] && s.doubleAccess == []
    {
      rxMemWrState, dropPacket, rxMemWriterCmd := Idle, false, Cmd(0, 0);
      rxEngBreakTemp, lengthBuffer, rxEngAccessResidue, txAppBreakdown := 0, 0, 0, false;
      pushWord := ZERO_WORD;
      cmdIn, dataIn, cmdOut, dataOut, doubleAccess := [], [], [], [], [];
    }

    method BeginPacket(c: Cmd)
      modifies this
      ensures Abs() == Begin(old(Abs()), c)
    {
      if Offset(c.addr) + c.len > RING {
        rxEngBreakTemp := (RING - c.addr) % RING;
        rxMemWriterCmd := Cmd(c.addr, c.len - rxEngBreakTemp);
        cmdOut := cmdOut + [Cmd(c.addr, rxEngBreakTemp)];
        txAppBreakdown := true;
      } else {
        rxEngBreakTemp := c.len % RING;
        rxMemWriterCmd := c;
        cmdOut := cmdOut + [c];
      }
      doubleAccess := doubleAccess + [txAppBreakdown];
    }

    method TakeCommand()
      requires cmdIn != []
      modifies this
      ensures Abs() == StepIdle(old(Abs()))
    {
      var push := cmdIn[0];
      cmdIn, dropPacket, rxMemWrState := cmdIn[1..], push.Drop?, WriteFirst;
      if push.Write? {
        BeginPacket(push.cmd);
      }
    }

    method WriteFirstWord()
      requires dataIn != []
      modifies this
      ensures Abs() == StepFirst(old(Abs()))
    {
      pushWord, dataIn := dataIn[0], dataIn[1..];
      if dropPacket {
        if pushWord.last { rxMemWrState := Idle; }
      } else {
        var outputWord: AxiWord := pushWord;
        if rxEngBreakTemp > 8 {
          rxEngBreakTemp := rxEngBreakTemp - 8;
        } else if txAppBreakdown {
          if Offset(rxMemWriterCmd.addr) % 8 != 0 {
            outputWord := outputWord.(keep := LenToKeep(rxEngBreakTemp));
          }
          outputWord := outputWord.(last := true);
          rxMemWrState := EvalSecond;
          rxEngAccessResidue := (KeepToLen(pushWord.keep) - rxEngBreakTemp) % 8;
          lengthBuffer := rxEngBreakTemp;
        } else {
          rxMemWrState := Idle;
        }
        dataOut := dataOut + [outputWord];
      }
    }

    method StartSecond()
      modifies this
      ensures Abs() == StepEval(old(Abs()))
    {
      if Offset(rxMemWriterCmd.addr) % 8 == 0 {
        rxMemWrState := Aligned;
      } else if rxMemWriterCmd.len - rxEngAccessResidue > 0 {
        rxMemWrState := WriteSecond;
      } else {
        rxMemWrState := Residue;
      }
      rxMemWriterCmd := Cmd(rxMemWriterCmd.addr - Offset(rxMemWriterCmd.addr), rxMemWriterCmd.len);
      rxEngBreakTemp := rxMemWriterCmd.len % RING;
      cmdOut := cmdOut + [Cmd(rxMemWriterCmd.addr, rxEngBreakTemp)];
      txAppBreakdown := false;
    }

    method WriteSecondWord()
      requires dataIn != []
      modifies this
      ensures Abs() == StepSecond(old(Abs()))
    {
      var next := dataIn[0];
      var outputWord := Realign(pushWord, next, lengthBuffer);
      pushWord, dataIn := next, dataIn[1..];
      if pushWord.last && rxEngBreakTemp - rxEngAccessResidue <= lengthBuffer {
        outputWord := outputWord.(keep := LenToKeep(rxEngBreakTemp), last := true);
        rxMemWrState := Idle;
      } else {
        if pushWord.last { rxMemWrState := Residue; }
        else { rxMemWrState := WriteSecond; }
        rxEngBreakTemp := (rxEngBreakTemp - 8) % RING;
      }
      dataOut := dataOut + [outputWord];
    }

    /** One clock cycle of `rxEngMemWrite`. */
    method RxEngMemWrite(room: Room)
      modifies this
      ensures Abs() == Step(old(Abs()), room)
    {
      match rxMemWrState
      case Idle =>
        if cmdIn != [] && room.cmd && room.flag { TakeCommand(); }
      case WriteFirst =>
        if dataIn != [] && room.data { WriteFirstWord(); }
      case EvalSecond =>
        if room.cmd { StartSecond(); }
      case Aligned =>
        if dataIn != [] && room.data {
          pushWord, dataIn := dataIn[0], dataIn[1..];
          dataOut := dataOut + [pushWord];
          if pushWord.last { rxMemWrState := Idle; }
        }
      case WriteSecond =>
        if dataIn != [] && room.data { WriteSecondWord(); }
      case Residue =>
        if room.data {
          dataOut := dataOut + [Rest(pushWord, lengthBuffer, LenToKeep(rxEngBreakTemp))];
          rxMemWrState := Idle;
        }
    }
  }
}
