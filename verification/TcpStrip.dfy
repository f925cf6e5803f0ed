/** `rxTcpLengthExtract` and `rxInsertPseudoHeader` of rx_engine.cpp: the IP header of a packet
    is turned into the TCP pseudo header. Options are dropped; each stage shifts the stream by
    half a word or not, so that every byte behind the IP header gets to its place. */
module TcpStrip {
  import opened Toe
  import opened Axi

  // ---------------------------------------------------------------- shifting by half a word

  /** Bit 4 of a mask: the upper half has a byte. */
  predicate KeepBit4(keep: int)
    requires Contiguous(keep)
  {
    KeepToLen(keep) > 4
  }

  /** The upper half of a full word and the lower half of the next one. */
  function Half(prev: AxiWord, w: AxiWord): AxiWord
    requires prev.keep == 0xFF
  {
    Shift(4, prev, w)
  }

  /** What the lower half of the last word leaves over. */
  function Flush(prev: AxiWord): AxiWord
    requires KeepBit4(prev.keep)
  {
    ShiftOut(4, prev)
  }

  /** The words that a half-word shift makes of the packet `ws` behind the full word `prev`. */
  function HalfShift(prev: AxiWord, ws: seq<AxiWord>): seq<AxiWord>
    requires prev.keep == 0xFF && Packed(ws)
  {
    ShiftBy(4, prev, ws)
  }

  /** The shift of masks as the source writes it. */
  lemma HalfMask(keep: int)
    requires Contiguous(keep)
    ensures 0x0F + keep % 16 * 16 == ShiftKeep(4, keep)
    ensures KeepBit4(keep) == (keep / 16 % 2 == 1)
  {
  }

  // ---------------------------------------------------------------- rxTcpLengthExtract

  datatype Tle = Tle(
    headerLen: nat, totalLen: U16, wordCount: nat, insertWord: bool, wasLast: bool, shift: bool, prev: AxiWord,
    dataIn: seq<AxiWord>, dataOut: seq<AxiWord>, lenOut: seq<U16>)

  function BigEndian(high: int, low: int): int {
    high * 0x100 + low
  }

  /** The registers after a word is read. Words other than the last of a packet are full, so
      the branches for a `prev` that is not are never taken; `sent` tells whether the word that was sent with it
      is the last one. */
  function TleRead(s: Tle, w: AxiWord, sent: bool): Tle {
    if w.last then s.(prev := w, wordCount := 0, wasLast := !sent) else s.(prev := w)
  }

  function TleWord(s: Tle): Tle
    requires s.dataIn != []
  {
    var w := s.dataIn[0];
    var r := s.(dataIn := s.dataIn[1..]);
    match s.wordCount
    case 0 =>
      var n: int := w.data[0] % 16;
      TleRead(r.(headerLen := (n - 2) % 0x100, wordCount := 1,
                 totalLen := (BigEndian(w.data[2], w.data[3]) - n * 4) % 0x1_0000), w, false)
    case 1 =>
      TleRead(r.(lenOut := s.lenOut + [s.totalLen], headerLen := (s.headerLen - 2) % 0x100, wordCount := 2), w, false)
    case 2 =>
      if s.prev.keep != 0xFF then TleRead(r, w, false)
      else TleRead(r.(dataOut := s.dataOut + [Half(s.prev, w)], headerLen := (s.headerLen - 1) % 0x100,
                      insertWord := true, wordCount := 3), w, !KeepBit4(w.keep))
    case 3 =>
      if s.headerLen == 0 && s.prev.keep == 0xFF then
        TleRead(r.(dataOut := s.dataOut + [Half(s.prev, w)], shift := true, wordCount := 4), w, !KeepBit4(w.keep))
      else if s.headerLen == 1 then
        TleRead(r.(dataOut := s.dataOut + [w], shift := false, headerLen := 0, wordCount := 4), w, w.last)
      else TleRead(r.(headerLen := (s.headerLen - 2) % 0x100), w, false)
    case _ =>
      if !s.shift then TleRead(r.(dataOut := s.dataOut + [w]), w, w.last)
      else if s.prev.keep != 0xFF then TleRead(r, w, false)
      else TleRead(r.(dataOut := s.dataOut + [Half(s.prev, w)]), w, !KeepBit4(w.keep))
  }

  /** One clock cycle with room in the outputs. */
  function TleStep(s: Tle): Tle {
    if s.insertWord then s.(dataOut := s.dataOut + [ZERO_WORD], insertWord := false)
    else if s.dataIn != [] && !s.wasLast then TleWord(s)
    else if s.wasLast && KeepBit4(s.prev.keep) then s.(dataOut := s.dataOut + [Flush(s.prev)], wasLast := false)
    else s
  }

  /** `n` cycles that are not held up; one that is held up changes nothing. */
  function TleRun(s: Tle, n: nat): Tle {
    Iterate(TleStep, s, n)
  }

  /** Runs one after the other. */
  lemma TleInTurn(s: Tle, m: nat, q: Tle, n: nat, r: Tle)
    requires TleRun(s, m) == q && TleRun(q, n) == r
    ensures TleRun(s, m + n) == r
  {
    IterateAdd(TleStep, s, m, n);
  }

  lemma TleOne(s: Tle)
    ensures TleRun(s, 1) == TleStep(s)
  {
    assert TleRun(TleStep(s), 0) == TleStep(s);
  }

  predicate TleIdle(s: Tle) {
    s.wordCount == 0 && !s.insertWord && !s.wasLast
  }

  /** The length of the IP header in words of four bytes. */
  function HeaderWords(h0: AxiWord): nat {
    h0.data[0] % 16
  }

  /** An IP packet: `h0` and `h1`, the destination address in the first half of `h2`, the words
      `os` that hold nothing but options, and more words than these. */
  predicate IpPacket(h0: AxiWord, h1: AxiWord, h2: AxiWord, os: seq<AxiWord>, ws: seq<AxiWord>) {
    && FullWord(h0) && FullWord(h1) && FullWord(h2) && AllFull(os) && Packed(ws)
    && HeaderWords(h0) >= 5 && |os| == (HeaderWords(h0) - 5) / 2
  }

  function IpWords(h0: AxiWord, h1: AxiWord, h2: AxiWord, os: seq<AxiWord>, ws: seq<AxiWord>): seq<AxiWord> {
    [h0] + ([h1] + ([h2] + (os + ws)))
  }

  function SegmentLength(h0: AxiWord): U16 {
    (BigEndian(h0.data[2], h0.data[3]) - HeaderWords(h0) * 4) % 0x1_0000
  }

  /** The word in front of the last part of the packet. */
  function Before(h2: AxiWord, os: seq<AxiWord>): AxiWord {
    if os == [] then h2 else os[|os| - 1]
  }

  /** What is behind the IP header, packed from its first byte on: an odd header ends in the
      middle of a word. */
  function Segment(h0: AxiWord, h2: AxiWord, os: seq<AxiWord>, ws: seq<AxiWord>): seq<AxiWord>
    requires Packed(ws) && Before(h2, os).keep == 0xFF
  {
    if HeaderWords(h0) % 2 == 1 then HalfShift(Before(h2, os), ws) else ws
  }

  /** The rest of the packet: `s` has read everything up to `prev`. */
  predicate TleTail(s: Tle, prev: AxiWord, ws: seq<AxiWord>, rest: seq<AxiWord>) {
    && (if s.wordCount == 3 then s.headerLen == 0 else s.wordCount == 4 && s.shift)
    && !s.insertWord && !s.wasLast && s.prev == prev && prev.keep == 0xFF
    && Packed(ws) && s.dataIn == ws + rest
  }

  /** The state after a packet of which `out` was sent since `s`. */
  predicate TleDone(s: Tle, r: Tle, out: seq<AxiWord>, rest: seq<AxiWord>) {
    TleIdle(r) && r.dataIn == rest && r.dataOut == s.dataOut + out && r.lenOut == s.lenOut
  }

  lemma TleLast(s: Tle, prev: AxiWord, w: AxiWord, rest: seq<AxiWord>) returns (n: nat)
    requires TleTail(s, prev, [w], rest)
    ensures TleDone(s, TleRun(s, n), HalfShift(prev, [w]), rest)
  {
    assert s.dataIn[0] == w && s.dataIn[1..] == rest;
    var m := TleStep(s);
    if KeepBit4(w.keep) {
      n := 2;
      assert m.wasLast && m.prev == w && m.wordCount == 0;
      TleOne(s);
      TleOne(m);
      TleInTurn(s, 1, m, 1, TleStep(m));
      assert m.dataOut + [Flush(w)] == s.dataOut + ([Half(prev, w)] + [Flush(w)]);
    } else {
      n := 1;
      TleOne(s);
    }
  }

  lemma TleMore(s: Tle, prev: AxiWord, ws: seq<AxiWord>, rest: seq<AxiWord>)
    requires TleTail(s, prev, ws, rest) && |ws| > 1
    ensures var m := TleStep(s);
            TleTail(m, ws[0], ws[1..], rest) && m.dataOut == s.dataOut + [Half(prev, ws[0])] && m.lenOut == s.lenOut
  {
    Next(ws);
    assert s.dataIn[0] == ws[0] && s.dataIn[1..] == ws[1..] + rest;
  }

  lemma {:induction false} TleTailRuns(s: Tle, prev: AxiWord, ws: seq<AxiWord>, rest: seq<AxiWord>) returns (n: nat)
    requires TleTail(s, prev, ws, rest)
    ensures TleDone(s, TleRun(s, n), HalfShift(prev, ws), rest)
    decreases |ws|
  {
    if |ws| == 1 {
      assert ws == [ws[0]];
      n := TleLast(s, prev, ws[0], rest);
    } else {
      Next(ws);
      TleMore(s, prev, ws, rest);
      var k := TleTailRuns(TleStep(s), ws[0], ws[1..], rest);
      n := k + 1;
      Assoc(s.dataOut, Half(prev, ws[0]), HalfShift(ws[0], ws[1..]));
    }
  }

  // ---------------------------------------------------------------- options

  lemma {:induction false} TleSkips(s: Tle, os: seq<AxiWord>, rest: seq<AxiWord>)
    requires s.wordCount == 3 && !s.insertWord && !s.wasLast && AllFull(os) && s.dataIn == os + rest
    requires 2 * |os| <= s.headerLen < 0x100
    ensures TleRun(s, |os|) == s.(dataIn := rest, headerLen := s.headerLen - 2 * |os|, prev := Before(s.prev, os))
    decreases |os|
  {
    if os == [] {
      assert os + rest == rest;
    } else {
      var w, t := os[0], os[1..];
      assert s.dataIn[0] == w && s.dataIn[1..] == t + rest;
      assert forall k :: 0 <= k < |t| ==> t[k] == os[k + 1];
      TleSkips(TleStep(s), t, rest);
    }
  }

  /** Behind an even header the words pass as they are. */
  predicate TlePlain(s: Tle, ws: seq<AxiWord>, rest: seq<AxiWord>) {
    && (if s.wordCount == 3 then s.headerLen == 1 else s.wordCount == 4 && !s.shift)
    && !s.insertWord && !s.wasLast && Packed(ws) && s.dataIn == ws + rest
  }

  lemma {:induction false} TlePlainRuns(s: Tle, ws: seq<AxiWord>, rest: seq<AxiWord>) returns (n: nat)
    requires TlePlain(s, ws, rest)
    ensures TleDone(s, TleRun(s, n), ws, rest)
    decreases |ws|
  {
    var w, t := ws[0], ws[1..];
    assert s.dataIn[0] == w && s.dataIn[1..] == t + rest;
    var m := TleStep(s);
    if |ws| == 1 {
      n := 1;
      assert ws == [w] && t + rest == rest;
      TleOne(s);
    } else {
      Next(ws);
      var k := TlePlainRuns(m, t, rest);
      n := k + 1;
      Assoc(s.dataOut, w, t);
    }
  }

  // ---------------------------------------------------------------- the header

  lemma TleFirst(s: Tle, h0: AxiWord, t: seq<AxiWord>)
    requires TleIdle(s) && FullWord(h0) && HeaderWords(h0) >= 5 && s.dataIn == [h0] + t
    ensures TleStep(s) == s.(dataIn := t, prev := h0, wordCount := 1, headerLen := HeaderWords(h0) - 2,
                             totalLen := SegmentLength(h0))
  {
    assert s.dataIn[0] == h0 && s.dataIn[1..] == t;
  }

  lemma TleSecond(s: Tle, h1: AxiWord, t: seq<AxiWord>)
    requires s.wordCount == 1 && 3 <= s.headerLen < 16 && !s.insertWord && !s.wasLast && FullWord(h1) && s.dataIn
        == [h1] + t
    ensures TleStep(s) == s.(dataIn := t, prev := h1, wordCount := 2, headerLen := s.headerLen - 2,
                             lenOut := s.lenOut + [s.totalLen])
  {
    assert s.dataIn[0] == h1 && s.dataIn[1..] == t;
  }

  lemma TleThird(s: Tle, h1: AxiWord, h2: AxiWord, t: seq<AxiWord>)
    requires s.wordCount == 2 && 1 <= s.headerLen < 16 && !s.insertWord && !s.wasLast && s.prev == h1
    requires FullWord(h1) && FullWord(h2) && s.dataIn == [h2] + t
    ensures TleStep(TleStep(s)) ==
            s.(dataIn := t, prev := h2, wordCount := 3, headerLen := s.headerLen - 1,
               dataOut := s.dataOut + [Half(h1, h2)] + [ZERO_WORD])
  {
    assert s.dataIn[0] == h2 && s.dataIn[1..] == t;
    var m := s.(dataIn := t, prev := h2, wordCount := 3, headerLen := s.headerLen - 1, insertWord := true,
                dataOut := s.dataOut + [Half(h1, h2)]);
    assert TleStep(s) == m;
  }

  lemma TleFour(s: Tle)
    ensures TleRun(s, 4) == TleStep(TleStep(TleStep(TleStep(s))))
  {
    var s1, s2, s3 := TleStep(s), TleStep(TleStep(s)), TleStep(TleStep(TleStep(s)));
    assert TleRun(s, 4) == TleRun(s1, 3) && TleRun(s1, 3) == TleRun(s2, 2) && TleRun(s2, 2) == TleRun(s3, 1);
    TleOne(s3);
  }

  /** The header: the addresses, a gap for the protocol and the length, and the length. */
  lemma TleHead(s: Tle, h0: AxiWord, h1: AxiWord, h2: AxiWord, t: seq<AxiWord>)
    requires TleIdle(s) && FullWord(h0) && FullWord(h1) && FullWord(h2) && HeaderWords(h0) >= 5
    requires s.dataIn == [h0] + ([h1] + ([h2] + t))
    ensures TleRun(s, 4) == s.(dataIn := t, prev := h2, wordCount := 3, headerLen := HeaderWords(h0) - 5,
                               totalLen := SegmentLength(h0), lenOut := s.lenOut + [SegmentLength(h0)],
                               dataOut := s.dataOut + [Half(h1, h2)] + [ZERO_WORD])
  {
    TleFirst(s, h0, [h1] + ([h2] + t));
    TleSecond(TleStep(s), h1, [h2] + t);
    TleThird(TleStep(TleStep(s)), h1, h2, t);
    TleFour(s);
  }

  /** Behind the three words of the header: options are dropped, and the segment passes. */
  lemma TleBody(s: Tle, h0: AxiWord, h2: AxiWord, os: seq<AxiWord>, ws: seq<AxiWord>, rest: seq<AxiWord>)
    returns (n: nat)
    requires s.wordCount == 3 && !s.insertWord && !s.wasLast && s.prev == h2 && FullWord(h2) && HeaderWords(h0) >= 5
    requires s.headerLen == HeaderWords(h0) - 5 && AllFull(os) && |os| == s.headerLen / 2 && Packed(ws)
    requires s.dataIn == os + (ws + rest)
    ensures TleDone(s, TleRun(s, n), Segment(h0, h2, os, ws), rest)
  {
    TleSkips(s, os, ws + rest);
    var q, k := TleRun(s, |os|), 0;
    if HeaderWords(h0) % 2 == 1 {
      k := TleTailRuns(q, Before(h2, os), ws, rest);
    } else {
      k := TlePlainRuns(q, ws, rest);
    }
    TleInTurn(s, |os|, q, k, TleRun(q, k));
    n := |os| + k;
  }

  /** `rxTcpLengthExtract` on a whole packet, with options or without. */
  lemma Extracted(s: Tle, h0: AxiWord, h1: AxiWord, h2: AxiWord, os: seq<AxiWord>, ws: seq<AxiWord>, rest: seq<AxiWord>)
    returns (n: nat)
    requires TleIdle(s) && IpPacket(h0, h1, h2, os, ws) && s.dataIn == [h0] + ([h1] + ([h2] + (os + (ws + rest))))
    ensures var r := TleRun(s, n);
            && TleIdle(r) && r.dataIn == rest
            && r.dataOut == s.dataOut + [Half(h1, h2)] + [ZERO_WORD] + Segment(h0, h2, os, ws)
            && r.lenOut == s.lenOut + [SegmentLength(h0)]
  {
    TleHead(s, h0, h1, h2, os + (ws + rest));
    var q := TleRun(s, 4);
    var k := TleBody(q, h0, h2, os, ws, rest);
    TleInTurn(s, 4, q, k, TleRun(q, k));
    n := 4 + k;
  }

  // ---------------------------------------------------------------- rxInsertPseudoHeader

  datatype Iph = Iph(
    wordCount: nat, wasLast: bool, prev: AxiWord,
    dataIn: seq<AxiWord>, lenIn: seq<U16>, dataOut: seq<AxiWord>)

  /** Zero, the protocol and the length of the segment. */
  function LengthBytes(length: U16): seq<Byte> {
    [0, 6, length / 0x100, length % 0x100]
  }

  /** These and the first half of `w`. */
  function PseudoWord(length: U16, w: AxiWord): AxiWord {
    Word(LengthBytes(length) + w.data[..4], 0xFF, false)
  }

  function IphRead(s: Iph, w: AxiWord, sent: bool): Iph {
    if w.last then s.(prev := w, wordCount := 0, wasLast := !sent) else s.(prev := w)
  }

  function IphWord(s: Iph): Iph
    requires s.dataIn != []
  {
    var w := s.dataIn[0];
    var r := s.(dataIn := s.dataIn[1..]);
    match s.wordCount
    case 0 => IphRead(r.(wordCount := 1), w, false)
    case 1 => IphRead(r.(dataOut := s.dataOut + [s.prev], wordCount := 2), w, s.prev.last)
    case 2 =>
      if s.lenIn == [] then s
      else IphRead(r.(lenIn := s.lenIn[1..], dataOut := s.dataOut + [PseudoWord(s.lenIn[0], w)], wordCount := 3), w,
          false)
    case _ =>
      if s.prev.keep != 0xFF then IphRead(r, w, false)
      else IphRead(r.(dataOut := s.dataOut + [Half(s.prev, w)]), w, !KeepBit4(w.keep))
  }

  function IphStep(s: Iph): Iph {
    if s.wasLast && KeepBit4(s.prev.keep) then s.(dataOut := s.dataOut + [Flush(s.prev)], wasLast := false)
    else if s.dataIn != [] then IphWord(s)
    else s
  }

  function IphRun(s: Iph, n: nat): Iph {
    Iterate(IphStep, s, n)
  }

  /** Runs one after the other. */
  lemma IphInTurn(s: Iph, m: nat, q: Iph, n: nat, r: Iph)
    requires IphRun(s, m) == q && IphRun(q, n) == r
    ensures IphRun(s, m + n) == r
  {
    IterateAdd(IphStep, s, m, n);
  }

  lemma IphOne(s: Iph)
    ensures IphRun(s, 1) == IphStep(s)
  {
    assert IphRun(IphStep(s), 0) == IphStep(s);
  }

  predicate IphIdle(s: Iph) {
    s.wordCount == 0 && !s.wasLast
  }

  predicate IphTail(s: Iph, prev: AxiWord, ws: seq<AxiWord>, rest: seq<AxiWord>) {
    && s.wordCount == 3 && !s.wasLast && s.prev == prev && prev.keep == 0xFF
    && Packed(ws) && s.dataIn == ws + rest
  }

  predicate IphDone(s: Iph, r: Iph, out: seq<AxiWord>, rest: seq<AxiWord>) {
    IphIdle(r) && r.dataIn == rest && r.dataOut == s.dataOut + out && r.lenIn == s.lenIn
  }

  lemma IphLast(s: Iph, prev: AxiWord, w: AxiWord, rest: seq<AxiWord>) returns (n: nat)
    requires IphTail(s, prev, [w], rest)
    ensures IphDone(s, IphRun(s, n), HalfShift(prev, [w]), rest)
  {
    assert s.dataIn[0] == w && s.dataIn[1..] == rest;
    var m := IphStep(s);
    if KeepBit4(w.keep) {
      n := 2;
      assert m.wasLast && m.prev == w && m.wordCount == 0;
      IphOne(s);
      IphOne(m);
      IphInTurn(s, 1, m, 1, IphStep(m));
      assert m.dataOut + [Flush(w)] == s.dataOut + ([Half(prev, w)] + [Flush(w)]);
    } else {
      n := 1;
      IphOne(s);
    }
  }

  lemma IphMore(s: Iph, prev: AxiWord, ws: seq<AxiWord>, rest: seq<AxiWord>)
    requires IphTail(s, prev, ws, rest) && |ws| > 1
    ensures var m := IphStep(s);
            IphTail(m, ws[0], ws[1..], rest) && m.dataOut == s.dataOut + [Half(prev, ws[0])] && m.lenIn == s.lenIn
  {
    Next(ws);
    assert s.dataIn[0] == ws[0] && s.dataIn[1..] == ws[1..] + rest;
  }

  lemma {:induction false} IphTailRuns(s: Iph, prev: AxiWord, ws: seq<AxiWord>, rest: seq<AxiWord>) returns (n: nat)
    requires IphTail(s, prev, ws, rest)
    ensures IphDone(s, IphRun(s, n), HalfShift(prev, ws), rest)
    decreases |ws|
  {
    if |ws| == 1 {
      assert ws == [ws[0]];
      n := IphLast(s, prev, ws[0], rest);
    } else {
      Next(ws);
      IphMore(s, prev, ws, rest);
      var k := IphTailRuns(IphStep(s), ws[0], ws[1..], rest);
      n := k + 1;
      Assoc(s.dataOut, Half(prev, ws[0]), HalfShift(ws[0], ws[1..]));
    }
  }

  lemma IphFirst(s: Iph, q0: AxiWord, q1: AxiWord, t: seq<AxiWord>)
    requires IphIdle(s) && FullWord(q0) && FullWord(q1) && s.dataIn == [q0] + ([q1] + t)
    ensures IphStep(IphStep(s)) == s.(dataIn := t, prev := q1, wordCount := 2, dataOut := s.dataOut + [q0])
  {
    assert s.dataIn[0] == q0 && s.dataIn[1..] == [q1] + t;
    var m := s.(dataIn := [q1] + t, prev := q0, wordCount := 1);
    assert IphStep(s) == m;
    assert m.dataIn[0] == q1 && m.dataIn[1..] == t;
  }

  lemma IphThird(s: Iph, q2: AxiWord, t: seq<AxiWord>)
    requires s.wordCount == 2 && !s.wasLast && FullWord(q2) && s.dataIn == [q2] + t && s.lenIn != []
    ensures IphStep(s) == s.(dataIn := t, prev := q2, wordCount := 3, lenIn := s.lenIn[1..],
                             dataOut := s.dataOut + [PseudoWord(s.lenIn[0], q2)])
  {
    assert s.dataIn[0] == q2 && s.dataIn[1..] == t;
  }

  lemma IphThree(s: Iph)
    ensures IphRun(s, 3) == IphStep(IphStep(IphStep(s)))
  {
    var s1, s2 := IphStep(s), IphStep(IphStep(s));
    assert IphRun(s, 3) == IphRun(s1, 2) && IphRun(s1, 2) == IphRun(s2, 1);
    IphOne(s2);
  }

  lemma IphHead(s: Iph, q0: AxiWord, q1: AxiWord, q2: AxiWord, t: seq<AxiWord>)
    requires IphIdle(s) && FullWord(q0) && FullWord(q1) && FullWord(q2) && s.lenIn != []
    requires s.dataIn == [q0] + ([q1] + ([q2] + t))
    ensures IphRun(s, 3) == s.(dataIn := t, prev := q2, wordCount := 3, lenIn := s.lenIn[1..],
                               dataOut := s.dataOut + [q0] + [PseudoWord(s.lenIn[0], q2)])
  {
    IphFirst(s, q0, q1, [q2] + t);
    IphThird(IphStep(IphStep(s)), q2, t);
    IphThree(s);
  }

  /** `rxInsertPseudoHeader` on a whole packet. */
  lemma Inserted(s: Iph, q0: AxiWord, q1: AxiWord, q2: AxiWord, ws: seq<AxiWord>, rest: seq<AxiWord>) returns (n: nat)
    requires IphIdle(s) && FullWord(q0) && FullWord(q1) && FullWord(q2) && Packed(ws) && s.lenIn != []
    requires s.dataIn == [q0] + ([q1] + ([q2] + (ws + rest)))
    ensures var r := IphRun(s, n);
            && IphIdle(r) && r.dataIn == rest && r.lenIn == s.lenIn[1..]
            && r.dataOut == s.dataOut + [q0] + [PseudoWord(s.lenIn[0], q2)] + HalfShift(q2, ws)
  {
    IphHead(s, q0, q1, q2, ws + rest);
    var q := IphRun(s, 3);
    var k := IphTailRuns(q, q2, ws, rest);
    IphInTurn(s, 3, q, k, IphRun(q, k));
    n := 3 + k;
  }

  // ---------------------------------------------------------------- both stages

  /** What the two stages make of the segment `x` behind the header. */
  function Stripped(h0: AxiWord, h1: AxiWord, h2: AxiWord, x: seq<AxiWord>): seq<AxiWord>
    requires h1.keep == 0xFF && Packed(x) && |x| > 1
  {
    Next(x);
    [Half(h1, h2)] + [PseudoWord(SegmentLength(h0), x[0])] + HalfShift(x[0], x[1..])
  }

  lemma SegmentIsPacked(h0: AxiWord, h2: AxiWord, os: seq<AxiWord>, ws: seq<AxiWord>)
    requires Packed(ws) && FullWord(h2) && AllFull(os)
    ensures Before(h2, os).keep == 0xFF && Packed(Segment(h0, h2, os, ws))
  {
    ShiftByBytes(4, Before(h2, os), ws);
  }

  lemma FirstOut(a: AxiWord, x: seq<AxiWord>)
    requires x != []
    ensures [] + [a] + [ZERO_WORD] + x == [a] + ([ZERO_WORD] + ([x[0]] + (x[1..] + [])))
  {
  }

  /** The stages in sequence: the second one gets exactly the words and the length of the
      first one. */
  lemma StripsPacket(s: Tle, i: Iph, h0: AxiWord, h1: AxiWord, h2: AxiWord, os: seq<AxiWord>, ws: seq<AxiWord>)
    returns (m: nat, n: nat)
    requires TleIdle(s) && IphIdle(i) && IpPacket(h0, h1, h2, os, ws) && i.dataOut == []
    requires Before(h2, os).keep == 0xFF && |Segment(h0, h2, os, ws)| > 1
    requires s.dataIn == IpWords(h0, h1, h2, os, ws) && s.dataOut == [] && s.lenOut == []
    ensures var r := TleRun(s, m);
            var t := IphRun(i.(dataIn := r.dataOut, lenIn := r.lenOut), n);
            && TleIdle(r) && r.dataIn == [] && IphIdle(t) && t.dataIn == [] && t.lenIn == []
            && Packed(Segment(h0, h2, os, ws)) && t.dataOut == Stripped(h0, h1, h2, Segment(h0, h2, os, ws))
  {
    assert os + (ws + []) == os + ws;
    m := Extracted(s, h0, h1, h2, os, ws, []);
    var r := TleRun(s, m);
    assert r.lenOut == [SegmentLength(h0)];
    SegmentIsPacked(h0, h2, os, ws);
    n := SecondStage(i, h0, h1, h2, Segment(h0, h2, os, ws), r.dataOut, r.lenOut);
  }

  lemma SecondStage(i: Iph, h0: AxiWord, h1: AxiWord, h2: AxiWord, x: seq<AxiWord>, d: seq<AxiWord>, l: seq<U16>)
    returns (n: nat)
    requires IphIdle(i) && FullWord(h1) && FullWord(h2) && Packed(x) && |x| > 1 && i.dataOut == []
    requires d == [] + [Half(h1, h2)] + [ZERO_WORD] + x && l == [SegmentLength(h0)]
    ensures var t := IphRun(i.(dataIn := d, lenIn := l), n);
            IphIdle(t) && t.dataIn == [] && t.lenIn == [] && t.dataOut == Stripped(h0, h1, h2, x)
  {
    Next(x);
    ShiftFull(4, h1, h2);
    FirstOut(Half(h1, h2), x);
    n := Inserted(i.(dataIn := d, lenIn := l), Half(h1, h2), ZERO_WORD, x[0], x[1..], []);
  }

  lemma HalfData(h: AxiWord, w: AxiWord)
    requires h.keep == 0xFF
    ensures Half(h, w).data[..4] == h.data[4..] && Half(h, w).data[4..] == w.data[..4]
  {
  }

  lemma Halves(d: seq<Byte>, t: seq<Byte>)
    requires |d| == 8
    ensures d[..4] + (d[4..] + t) == d + t
  {
  }

  /** The two half-word shifts undo each other. */
  lemma ShiftTwice(h: AxiWord, w: AxiWord, ws: seq<AxiWord>, q: seq<AxiWord>)
    requires h.keep == 0xFF && FullWord(w) && Packed(ws) && Burst(q, w.data[4..] + Bytes(ws))
    ensures Half(h, w).keep == 0xFF && Burst(HalfShift(Half(h, w), q), w.data + Bytes(ws))
  {
    ShiftFull(4, h, w);
    HalfData(h, w);
    ShiftByBytes(4, Half(h, w), q);
    Halves(w.data, Bytes(ws));
  }

  lemma TwoInFront(a: AxiWord, b: AxiWord, ws: seq<AxiWord>, p: seq<Byte>)
    requires FullWord(a) && FullWord(b) && Burst(ws, p)
    ensures Burst([a] + [b] + ws, a.data + (b.data + p))
  {
    PackedCons(b, ws);
    BytesCons(b, ws);
    PackedCons(a, [b] + ws);
    BytesCons(a, [b] + ws);
    assert [a] + [b] + ws == [a] + ([b] + ws);
  }

  /** The addresses, the pseudo header's protocol and length, and then the bytes of the
      segment. */
  lemma StrippedBytes(h0: AxiWord, h1: AxiWord, h2: AxiWord, x: seq<AxiWord>)
    requires FullWord(h1) && FullWord(h2) && Packed(x) && |x| > 1
    ensures Burst(Stripped(h0, h1, h2, x), (h1.data[4..] + h2.data[..4]) + (LengthBytes(SegmentLength(h0)) + Bytes(x)))
  {
    var pre := LengthBytes(SegmentLength(h0));
    ShiftFull(4, h1, h2);
    assert Kept(Half(h1, h2)) == Half(h1, h2).data;
    Next(x);
    AddressesFirst(Half(h1, h2), PseudoWord(SegmentLength(h0), x[0]), pre, x);
  }

  lemma AddressesFirst(a: AxiWord, b: AxiWord, pre: seq<Byte>, x: seq<AxiWord>)
    requires Packed(x) && |x| > 1 && FullWord(x[0]) && Packed(x[1..])
    requires FullWord(a) && FullWord(b) && b.data == pre + x[0].data[..4]
    ensures Burst([a] + [b] + HalfShift(x[0], x[1..]), a.data + (pre + Bytes(x)))
  {
    Next(x);
    ShiftByBytes(4, x[0], x[1..]);
    FullCons(x[0], x[1..]);
    TwoInFront(a, b, HalfShift(x[0], x[1..]), x[0].data[4..] + Bytes(x[1..]));
    Joined(pre, x[0].data, Bytes(x[1..]));
  }

  lemma Joined(a: seq<Byte>, d: seq<Byte>, t: seq<Byte>)
    requires |d| == 8
    ensures (a + d[..4]) + (d[4..] + t) == a + (d + t)
  {
  }

  lemma Places(h0: seq<Byte>, h1: seq<Byte>, h2: seq<Byte>, o: seq<Byte>, w: seq<Byte>)
    requires |h0| == |h1| == |h2| == 8
    ensures var b := h0 + (h1 + (h2 + (o + w)));
            && b[12..20] == h1[4..] + h2[..4] && |b| == 24 + |o| + |w|
            && b[24 + |o|..] == w && b[16..24 + |o|] == h2 + o
  {
  }

  lemma IpBytes(h0: AxiWord, h1: AxiWord, h2: AxiWord, os: seq<AxiWord>, ws: seq<AxiWord>)
    requires IpPacket(h0, h1, h2, os, ws)
    ensures Bytes(IpWords(h0, h1, h2, os, ws)) == h0.data + (h1.data + (h2.data + (Bytes(os) + Bytes(ws))))
    ensures |Bytes(os)| == 8 * |os|
  {
    FullCons(h0, [h1] + ([h2] + (os + ws)));
    FullCons(h1, [h2] + (os + ws));
    FullCons(h2, os + ws);
    BytesConcat(os, ws);
    FullBytes(os);
  }

  /** Where the segment's bytes are in the packet. */
  lemma SegmentBytes(h0: AxiWord, h1: AxiWord, h2: AxiWord, os: seq<AxiWord>, ws: seq<AxiWord>)
    requires IpPacket(h0, h1, h2, os, ws)
    ensures var b, n := Bytes(IpWords(h0, h1, h2, os, ws)), 4 * HeaderWords(h0);
            && Before(h2, os).keep == 0xFF && n <= |b|
            && Burst(Segment(h0, h2, os, ws), b[n..])
            && b[12..20] == h1.data[4..] + h2.data[..4]
  {
    SegmentIsPacked(h0, h2, os, ws);
    IpBytes(h0, h1, h2, os, ws);
    Places(h0.data, h1.data, h2.data, Bytes(os), Bytes(ws));
    if HeaderWords(h0) % 2 == 1 {
      ShiftByBytes(4, Before(h2, os), ws);
      BeforeBytes(h2, os);
      UpperHalf(Bytes(IpWords(h0, h1, h2, os, ws)), 24 + 8 * |os|, h2.data + Bytes(os), Before(h2, os).data, Bytes(ws));
    }
  }

  lemma BeforeBytes(h2: AxiWord, os: seq<AxiWord>)
    requires FullWord(h2) && AllFull(os)
    ensures var c := h2.data + Bytes(os); |c| == 8 + 8 * |os| && c[8 * |os|..] == Before(h2, os).data
  {
    FullBytes(os);
    if os != [] {
      var k := |os| - 1;
      FullAt(os, k);
      LastEight(h2.data, Bytes(os), k);
    } else {
      assert h2.data + [] == h2.data;
    }
  }

  lemma LastEight(d: seq<Byte>, o: seq<Byte>, k: nat)
    requires |d| == 8 && |o| == 8 * k + 8
    ensures (d + o)[8 * k + 8..] == o[8 * k..8 * k + 8]
  {
  }

  lemma UpperHalf(b: seq<Byte>, n: nat, c: seq<Byte>, d: seq<Byte>, t: seq<Byte>)
    requires 24 <= n <= |b| && b[16..n] == c && |d| == 8 && c[n - 24..] == d && b[n..] == t
    ensures b[n - 4..] == d[4..] + t
  {
    assert b[n - 8..n] == c[n - 24..];
    assert b[n - 4..n] == b[n - 8..n][4..];
    assert b[n - 4..] == b[n - 4..n] + b[n..];
  }

  /** The two stages on a packet with the bytes `b`: the addresses, the pseudo header's protocol
      and length, and every byte behind the IP header, options or not. */
  lemma PacketIsStripped(h0: AxiWord, h1: AxiWord, h2: AxiWord, os: seq<AxiWord>, ws: seq<AxiWord>)
    requires IpPacket(h0, h1, h2, os, ws) && Before(h2, os).keep == 0xFF && |Segment(h0, h2, os, ws)| > 1
    ensures var b := Bytes(IpWords(h0, h1, h2, os, ws));
            && 4 * HeaderWords(h0) <= |b| && Packed(Segment(h0, h2, os, ws))
            && Burst(Stripped(h0, h1, h2, Segment(h0, h2, os, ws)),
                     b[12..20] + (LengthBytes(SegmentLength(h0)) + b[4 * HeaderWords(h0)..]))
  {
    SegmentBytes(h0, h1, h2, os, ws);
    StrippedBytes(h0, h1, h2, Segment(h0, h2, os, ws));
  }

  // ---------------------------------------------------------------- the hardware's form

  /** The static variables of `rxTcpLengthExtract` and its FIFOs. */
  class LengthExtractor {
    var tleIpHeaderLen: nat
    var tleIpTotalLen: U16
    var tleWordCount: nat
    var tleInsertWord: bool
    var tleWasLast: bool
    var tleShift: bool
    var tlePrevWord: AxiWord
    var dataIn: seq<AxiWord>
    var dataOut: seq<AxiWord>
    var tcpLenOut: seq<U16>

    ghost function Abs(): Tle
      reads this
    {
      Tle(tleIpHeaderLen, tleIpTotalLen, tleWordCount, tleInsertWord, tleWasLast, tleShift, tlePrevWord,
          dataIn, dataOut, tcpLenOut)
    }

    constructor ()
      ensures TleIdle(Abs()) && dataIn == [] && dataOut == [] && tcpLenOut == []
    {
      tleIpHeaderLen, tleIpTotalLen, tleWordCount := 0, 0, 0;
      tleInsertWord, tleWasLast, tleShift, tlePrevWord := false, false, true, ZERO_WORD;
      dataIn, dataOut, tcpLenOut := [], [], [];
    }

    /** The halves of two words, when the previous one has both. */
    method SendHalf(w: AxiWord) returns (sent: bool)
      requires tlePrevWord.keep == 0xFF
      modifies this`dataOut
      ensures dataOut == old(dataOut) + [Half(tlePrevWord, w)] && sent == !KeepBit4(w.keep)
    {
      HalfMask(w.keep);
      sent := w.keep / 16 % 2 == 0;
      dataOut := dataOut + [Word(tlePrevWord.data[4..] + w.data[..4], 0x0F + w.keep % 16 * 16, sent)];
    }

    /** The first three words: the lengths and the addresses. */
    method ReadHeader(w: AxiWord) returns (sent: bool)
      requires tleWordCount < 3
      modifies this
      ensures dataIn == old(dataIn) && tlePrevWord == old(tlePrevWord) && tleWasLast == old(tleWasLast)
      ensures tleShift == old(tleShift)
      ensures var s := old(Abs()).(dataIn := [w] + old(dataIn));
              TleWord(s) == TleRead(Abs(), w, sent)
    {
      sent := false;
      assert ([w] + dataIn)[1..] == dataIn;
      match tleWordCount {
        case 0 =>
          var n: int := w.data[0] % 16;
          var high: int, low: int := w.data[2], w.data[3];
          tleIpHeaderLen, tleIpTotalLen := (n - 2) % 0x100, (high * 0x100 + low - n * 4) % 0x1_0000;
          tleWordCount := 1;
        case 1 =>
          tcpLenOut := tcpLenOut + [tleIpTotalLen];
          tleIpHeaderLen := (tleIpHeaderLen - 2) % 0x100;
          tleWordCount := 2;
        case _ =>
          if tlePrevWord.keep == 0xFF {
            sent := SendHalf(w);
            tleIpHeaderLen := (tleIpHeaderLen - 1) % 0x100;
            tleInsertWord, tleWordCount := true, 3;
          }
      }
    }

    /** The words behind: options are skipped, and the rest is shifted or passed on. */
    method ReadRest(w: AxiWord) returns (sent: bool)
      requires tleWordCount >= 3
      modifies this
      ensures dataIn == old(dataIn) && tlePrevWord == old(tlePrevWord) && tleWasLast == old(tleWasLast)
      ensures var s := old(Abs()).(dataIn := [w] + old(dataIn));
              TleWord(s) == TleRead(Abs(), w, sent)
    {
      sent := false;
      assert ([w] + dataIn)[1..] == dataIn;
      if tleWordCount == 3 {
        if tleIpHeaderLen == 0 && tlePrevWord.keep == 0xFF {
          sent := SendHalf(w);
          tleShift, tleWordCount := true, 4;
        } else if tleIpHeaderLen == 1 {
          dataOut, sent := dataOut + [w], w.last;
          tleShift, tleIpHeaderLen, tleWordCount := false, 0, 4;
        } else {
          tleIpHeaderLen := (tleIpHeaderLen - 2) % 0x100;
        }
      } else if !tleShift {
        dataOut, sent := dataOut + [w], w.last;
      } else if tlePrevWord.keep == 0xFF {
        sent := SendHalf(w);
      }
    }

    /** One clock cycle. */
    method Cycle()
      modifies this
      ensures Abs() == TleStep(old(Abs()))
    {
      if tleInsertWord {
        dataOut := dataOut + [ZERO_WORD];
        tleInsertWord := false;
      } else if dataIn != [] && !tleWasLast {
        ReadWord();
      } else if tleWasLast && KeepBit4(tlePrevWord.keep) {
        dataOut := dataOut + [Flush(tlePrevWord)];
        tleWasLast := false;
      }
    }

    method ReadWord()
      requires dataIn != [] && !tleWasLast
      modifies this
      ensures Abs() == TleWord(old(Abs()))
    {
      ghost var s := Abs();
      var w, sent := dataIn[0], false;
      dataIn := dataIn[1..];
      assert s == Abs().(dataIn := [w] + dataIn);
      if tleWordCount < 3 {
        sent := ReadHeader(w);
      } else {
        sent := ReadRest(w);
      }
      tlePrevWord := w;
      if w.last {
        tleWordCount, tleWasLast := 0, !sent;
      }
    }
  }
}
