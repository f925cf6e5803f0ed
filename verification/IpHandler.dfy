/** ip_handler.cpp: `check_ip_checksum` takes the Ethernet header off an IPv4 packet, sums its IP
    header and looks at its destination, `iph_check_ip_checksum` decides, `ip_invalid_dropper`
    drops, and `cut_length` cuts what is behind the packet's length. */
module IpHandler {
  import opened Toe
  import opened Axi
  import opened Checksum
  import Droppers
  import opened IpSums
  import opened MacIpEncode

  /** An IP address, the first byte on the wire first. */
  type Address = b: seq<Byte> | |b| == 4 witness [0, 0, 0, 0]

  const BROADCAST: Address := [0xFF, 0xFF, 0xFF, 0xFF]

  // ---------------------------------------------------------------- the header

  /** The registers of `check_ip_checksum` that look at the header, and its output. */
  datatype Head = Head(sums: Lanes, headerLen: nat, wordCount: nat, dst: Address, subSums: seq<(Lanes, bool)>)

  /** A packet is for us if it is sent to our address or to all. */
  predicate ForUs(my: Address, dst: Address) {
    dst == my || dst == BROADCAST
  }

  /** The last word of the header, of which `hi` lanes belong to it. */
  function HeadEnd(my: Address, s: Head, w: AxiWord, hi: nat): Head
    requires hi <= 4
  {
    var n := SumPick(s.sums, w.data, 0, hi);
    s.(sums := n, headerLen := 0, subSums := s.subSums + [(n, ForUs(my, s.dst))])
  }

  function HeadAdd(my: Address, s: Head, w: AxiWord): Head {
    match s.wordCount
    case 0 => s.(sums := ZERO_LANES, wordCount := 1)
    case 1 => s.(sums := SumPick(s.sums, w.data, 3, 4), headerLen := w.data[6] % 16, wordCount := 2)
    case 2 => s.(sums := SumPick(s.sums, w.data, 0, 4), headerLen := (s.headerLen - 2) % 0x100, wordCount := 3)
    case 3 =>
      s.(sums := SumPick(s.sums, w.data, 0, 4), headerLen := (s.headerLen - 2) % 0x100, wordCount := 4,
         dst := w.data[6..] + s.dst[2..])
    case _ =>
      // the word counter stays at 4, so every further word gives the second half of the address
      var r := s.(dst := s.dst[..2] + w.data[..2]);
      if s.headerLen == 0 then r
      else if s.headerLen == 1 then HeadEnd(my, r, w, 1)
      else if s.headerLen == 2 then HeadEnd(my, r, w, 3)
      else r.(sums := SumPick(s.sums, w.data, 0, 4), headerLen := (s.headerLen - 2) % 0x100)
  }

  function HeadWord(my: Address, s: Head, w: AxiWord): Head {
    if w.last then HeadAdd(my, s, w).(wordCount := 0) else HeadAdd(my, s, w)
  }

  predicate HeadStep(my: Address, s: Head, w: AxiWord, r: Head) {
    r == HeadWord(my, s, w)
  }

  /** The registers before each word of a frame and after the last one. */
  function HeadRun(my: Address, s: Head, ws: seq<AxiWord>): (t: seq<Head>)
    ensures |t| == |ws| + 1 && t[0] == s
    ensures forall k {:trigger ws[k]} :: 0 <= k < |ws| ==> HeadStep(my, t[k], ws[k], t[k + 1])
    decreases |ws|
  {
    if ws == [] then [s] else [s] + HeadRun(my, HeadWord(my, s, ws[0]), ws[1..])
  }

  /** iph_check_ip_checksum. */
  predicate Accepts(x: (Lanes, bool)) {
    Invert(Combine(x.0)) == 0 && x.1
  }

  /** Where the last word of the header starts that brings two bytes of an address. */
  function SeenAt(b: seq<Byte>): nat
    requires Ipv4(b)
  {
    4 * HeaderWords(b) - if HeaderWords(b) % 2 == 1 then 2 else 6
  }

  /** The address that the handler compares with its own. */
  function Seen(b: seq<Byte>): Address
    requires Ipv4(b)
  {
    b[16..18] + b[SeenAt(b)..SeenAt(b) + 2]
  }

  function Destination(b: seq<Byte>): Address
    requires Ipv4(b)
  {
    b[16..20]
  }

  /** A frame with the IPv4 packet `p`. */
  predicate FrameOf(f: seq<AxiWord>, e: seq<Byte>, p: seq<Byte>) {
    Burst(f, e + p) && |e| == 14 && Ipv4(p)
  }

  lemma FrameWord(f: seq<AxiWord>, e: seq<Byte>, p: seq<Byte>, k: nat, n: nat)
    requires FrameOf(f, e, p) && k >= 2 && 1 <= n <= 8 && 8 * k - 14 + n <= |p|
    ensures k < |f| && f[k].data[0..n] == p[8 * k - 14..8 * k - 14 + n]
  {
    WordAt(f, e + p, k, n);
    assert (e + p)[8 * k..8 * k + n] == p[8 * k - 14..8 * k - 14 + n];
    assert f[k].data[0..n] == f[k].data[..n];
  }

  lemma FrameStart(f: seq<AxiWord>, e: seq<Byte>, p: seq<Byte>)
    requires FrameOf(f, e, p)
    ensures |f| > 4 && FullWord(f[0]) && FullWord(f[1]) && FullWord(f[2]) && FullWord(f[3])
    ensures f[1].data[6..8] == p[0..2] && f[1].data[6] == p[0]
  {
    FrameWord(f, e, p, 4, 1);
    PackedAt(f, e + p, 0);
    PackedAt(f, e + p, 1);
    PackedAt(f, e + p, 2);
    PackedAt(f, e + p, 3);
    WordAt(f, e + p, 1, 8);
    SubSlice(f[1].data, e + p, 8, 6, 8, 8);
    assert (e + p)[14..16] == p[0..2];
    assert f[1].data[6..8][0] == p[0..2][0];
  }

  /** While a header of `h` words is read, the lanes hold the sum of what was read of `p`. */
  ghost predicate HeadReading(s: Head, q: seq<(Lanes, bool)>, p: seq<Byte>, h: nat, k: nat) {
    && s.wordCount == 4 && s.subSums == q && 4 <= k && h < 16 && 8 * k - 12 <= 4 * h <= |p|
    && s.headerLen == h + 4 - 2 * k && s.dst[..2] == p[16..18]
    && Sums(s.sums, WordSum(p[..8 * k - 14]))
  }

  /** The header is read: one verdict for the address `a`. */
  predicate HeadRead(my: Address, s: Head, q: seq<(Lanes, bool)>, sum: nat, a: Address) {
    && s.wordCount == 4 && s.headerLen == 0 && |s.subSums| == |q| + 1 && s.subSums[..|q|] == q
    && Combine(s.subSums[|q|].0) == sum && s.subSums[|q|].1 == ForUs(my, a)
  }

  ghost predicate HeadGoing(my: Address, s: Head, q: seq<(Lanes, bool)>, p: seq<Byte>, k: nat) {
    Ipv4(p) && (HeadReading(s, q, p, HeaderWords(p), k)
                || HeadRead(my, s, q, Rfc1071(p[..4 * HeaderWords(p)]), Seen(p)))
  }

  lemma ThreeSummed(d1: seq<Byte>, d2: seq<Byte>, d3: seq<Byte>, p: seq<Byte>)
    requires |d1| == |d2| == |d3| == 8 && |p| >= 18
    requires d1[6..8] == p[0..2] && d2[0..8] == p[2..10] && d3[0..8] == p[10..18]
    ensures Sums(SumPick(SumPick(SumPick(ZERO_LANES, d1, 3, 4), d2, 0, 4), d3, 0, 4), WordSum(p[..18]))
  {
    assert p[..0] == [];
    NoneAdded();
    PickPrefix(ZERO_LANES, d1, p, 0, 3, 4);
    PickPrefix(SumPick(ZERO_LANES, d1, 3, 4), d2, p, 2, 0, 4);
    PickPrefix(SumPick(SumPick(ZERO_LANES, d1, 3, 4), d2, 0, 4), d3, p, 10, 0, 4);
  }

  lemma HeadSecond(my: Address, s: Head, w0: AxiWord, w1: AxiWord)
    requires s.wordCount == 0 && !w0.last && !w1.last
    ensures HeadWord(my, HeadWord(my, s, w0), w1) ==
            Head(SumPick(ZERO_LANES, w1.data, 3, 4), w1.data[6] % 16, 2, s.dst, s.subSums)
  {
    assert HeadWord(my, s, w0) == s.(sums := ZERO_LANES, wordCount := 1);
  }

  lemma HeadFourth(my: Address, s: Head, w2: AxiWord, w3: AxiWord)
    requires s.wordCount == 2 && 5 <= s.headerLen < 16 && !w2.last && !w3.last
    ensures HeadWord(my, HeadWord(my, s, w2), w3) ==
            Head(SumPick(SumPick(s.sums, w2.data, 0, 4), w3.data, 0, 4), s.headerLen - 4, 4,
                 w3.data[6..] + s.dst[2..], s.subSums)
  {
    assert HeadWord(my, s, w2) == s.(sums := SumPick(s.sums, w2.data, 0, 4), headerLen := s.headerLen - 2,
        wordCount := 3);
  }

  /** The Ethernet header and the first 18 bytes of the packet. */
  lemma FourWords(my: Address, s: Head, f: seq<AxiWord>, e: seq<Byte>, p: seq<Byte>)
    requires FrameOf(f, e, p) && s.wordCount == 0
    ensures |f| > 4 &&
            HeadReading(HeadWord(my, HeadWord(my, HeadWord(my, HeadWord(my, s, f[0]), f[1]), f[2]), f[3]),
                        s.subSums, p, HeaderWords(p), 4)
  {
    FrameStart(f, e, p);
    FrameWord(f, e, p, 2, 8);
    FrameWord(f, e, p, 3, 8);
    SubSlice(f[3].data, p, 10, 6, 8, 8);
    ThreeSummed(f[1].data, f[2].data, f[3].data, p);
    HeadSecond(my, s, f[0], f[1]);
    HeadFourth(my, HeadWord(my, HeadWord(my, s, f[0]), f[1]), f[2], f[3]);
  }

  lemma HeadEnds(my: Address, s: Head, w: AxiWord, hi: nat, q: seq<(Lanes, bool)>, p: seq<Byte>, h: nat)
    requires hi <= 4 && 4 * h <= |p| && s.wordCount == 4 && s.subSums == q
    requires Sums(SumPick(s.sums, w.data, 0, hi), WordSum(p[..4 * h]))
    ensures HeadRead(my, HeadEnd(my, s, w, hi), q, Rfc1071(p[..4 * h]), s.dst)
  {
    SumsCombine(SumPick(s.sums, w.data, 0, hi), WordSum(p[..4 * h]));
    Rfc1071IsOnes(p[..4 * h]);
  }

  lemma HeadEndIs(my: Address, s: Head, w: AxiWord, hi: nat)
    requires s.wordCount == 4 && 1 <= s.headerLen <= 2 && hi == 2 * s.headerLen - 1
    ensures HeadAdd(my, s, w) == HeadEnd(my, s.(dst := s.dst[..2] + w.data[..2]), w, hi)
  {
  }

  lemma HeadLast(my: Address, s: Head, w: AxiWord, q: seq<(Lanes, bool)>, p: seq<Byte>, k: nat, hi: nat)
    requires Ipv4(p) && HeadReading(s, q, p, HeaderWords(p), k) && s.headerLen <= 2 && hi == 2 * s.headerLen - 1
    requires w.data[0..2 * hi] == p[8 * k - 14..8 * k - 14 + 2 * hi]
    ensures HeadRead(my, HeadAdd(my, s, w), q, Rfc1071(p[..4 * HeaderWords(p)]), Seen(p))
  {
    var h, at := HeaderWords(p), 8 * k - 14;
    assert at + 2 * hi == 4 * h && at == SeenAt(p);
    PickPrefix(s.sums, w.data, p, at, 0, hi);
    SubSlice(w.data, p, at, 0, 2, 2 * hi);
    assert w.data[..2] == p[at..at + 2];
    var r := s.(dst := s.dst[..2] + w.data[..2]);
    assert r.dst == Seen(p);
    HeadEndIs(my, s, w, hi);
    HeadEnds(my, r, w, hi, q, p, h);
  }

  lemma HeadMoreIs(my: Address, s: Head, w: AxiWord)
    requires s.wordCount == 4 && 3 <= s.headerLen < 0x100
    ensures HeadAdd(my, s, w) ==
            s.(dst := s.dst[..2] + w.data[..2], sums := SumPick(s.sums, w.data, 0, 4), headerLen := s.headerLen - 2)
  {
  }

  lemma HeadMore(my: Address, s: Head, w: AxiWord, q: seq<(Lanes, bool)>, p: seq<Byte>, h: nat, k: nat)
    requires HeadReading(s, q, p, h, k) && s.headerLen > 2 && w.data[0..8] == p[8 * k - 14..8 * k - 6]
    ensures HeadReading(HeadAdd(my, s, w), q, p, h, k + 1)
  {
    PickPrefix(s.sums, w.data, p, 8 * k - 14, 0, 4);
    HeadMoreIs(my, s, w);
    assert 8 * (k + 1) - 14 == 8 * k - 6;
    assert (s.dst[..2] + w.data[..2])[..2] == s.dst[..2];
  }

  lemma HeadAfter(my: Address, s: Head, w: AxiWord, q: seq<(Lanes, bool)>, sum: nat, a: Address)
    requires HeadRead(my, s, q, sum, a)
    ensures HeadRead(my, HeadAdd(my, s, w), q, sum, a)
  {
  }

  lemma NextHead(my: Address, s: Head, f: seq<AxiWord>, e: seq<Byte>, p: seq<Byte>, q: seq<(Lanes, bool)>, k: nat)
    requires FrameOf(f, e, p) && 4 <= k < |f| && HeadGoing(my, s, q, p, k)
    ensures HeadGoing(my, HeadAdd(my, s, f[k]), q, p, k + 1)
  {
    if HeadReading(s, q, p, HeaderWords(p), k) {
      if s.headerLen <= 2 {
        var hi := 2 * s.headerLen - 1;
        FrameWord(f, e, p, k, 2 * hi);
        HeadLast(my, s, f[k], q, p, k, hi);
      } else {
        FrameWord(f, e, p, k, 8);
        HeadMore(my, s, f[k], q, p, HeaderWords(p), k);
      }
    } else {
      HeadAfter(my, s, f[k], q, Rfc1071(p[..4 * HeaderWords(p)]), Seen(p));
    }
  }

  predicate HeadTrace(my: Address, t: seq<Head>, ws: seq<AxiWord>) {
    |t| == |ws| + 1 && forall k {:trigger ws[k]} :: 0 <= k < |ws| ==> HeadStep(my, t[k], ws[k], t[k + 1])
  }

  lemma AtFour(my: Address, t: seq<Head>, f: seq<AxiWord>, e: seq<Byte>, p: seq<Byte>)
    requires FrameOf(f, e, p) && HeadTrace(my, t, f) && t[0].wordCount == 0
    ensures |f| > 4 && HeadGoing(my, t[4], t[0].subSums, p, 4)
  {
    FourWords(my, t[0], f, e, p);
    assert HeadStep(my, t[0], f[0], t[1]) && HeadStep(my, t[1], f[1], t[2]);
    assert HeadStep(my, t[2], f[2], t[3]) && HeadStep(my, t[3], f[3], t[4]);
  }

  lemma HeadOneMore(my: Address, s: Head, r: Head, f: seq<AxiWord>, e: seq<Byte>, p: seq<Byte>, q: seq<(Lanes,
      bool)>, k: nat)
    requires FrameOf(f, e, p) && 4 <= k < |f| - 1 && HeadStep(my, s, f[k], r) && HeadGoing(my, s, q, p, k)
    ensures HeadGoing(my, r, q, p, k + 1)
  {
    PackedAt(f, e + p, k);
    NextHead(my, s, f, e, p, q, k);
  }

  lemma {:induction false} HeadRuns(my: Address, t: seq<Head>, f: seq<AxiWord>, e: seq<Byte>, p: seq<Byte>,
                                    q: seq<(Lanes, bool)>, k: nat)
    requires FrameOf(f, e, p) && HeadTrace(my, t, f) && t[0].wordCount == 0 && t[0].subSums == q && 4 <= k < |f|
    ensures HeadGoing(my, t[k], q, p, k)
    decreases k
  {
    if k == 4 {
      AtFour(my, t, f, e, p);
    } else {
      HeadRuns(my, t, f, e, p, q, k - 1);
      HeadOneMore(my, t[k - 1], t[k], f, e, p, q, k - 1);
    }
  }

  lemma HeadOver(my: Address, s: Head, r: Head, f: seq<AxiWord>, e: seq<Byte>, p: seq<Byte>, q: seq<(Lanes, bool)>)
    requires FrameOf(f, e, p) && |f| > 4 && HeadStep(my, s, f[|f| - 1], r) && HeadGoing(my, s, q, p, |f| - 1)
    ensures r.wordCount == 0 && |r.subSums| == |q| + 1 && r.subSums[..|q|] == q
    ensures Combine(r.subSums[|q|].0) == Rfc1071(p[..4 * HeaderWords(p)]) && r.subSums[|q|].1 == ForUs(my, Seen(p))
  {
    var n := |f| - 1;
    NextHead(my, s, f, e, p, q, n);
    PackedAt(f, e + p, n);
  }

  lemma AcceptsIs(x: (Lanes, bool), sum: U16)
    requires Combine(x.0) == sum
    ensures Accepts(x) <==> sum == 0xFFFF && x.1
  {
    InvertIs(sum);
  }

  /** Every frame gives one verdict: the header's sum is all ones and the address that the
      handler has seen is ours. The next frame starts afresh. */
  lemma OneVerdict(my: Address, s: Head, f: seq<AxiWord>, e: seq<Byte>, p: seq<Byte>)
    requires FrameOf(f, e, p) && s.wordCount == 0
    ensures var r, n := HeadRun(my, s, f)[|f|], |s.subSums|;
            && r.wordCount == 0 && |r.subSums| == n + 1 && r.subSums[..n] == s.subSums
            && (Accepts(r.subSums[n]) <==> Rfc1071(p[..4 * HeaderWords(p)]) == 0xFFFF && ForUs(my, Seen(p)))
  {
    var t, n := HeadRun(my, s, f), |f| - 1;
    FrameStart(f, e, p);
    HeadRuns(my, t, f, e, p, s.subSums, n);
    HeadOver(my, t[n], t[n + 1], f, e, p, s.subSums);
    AcceptsIs(t[n + 1].subSums[|s.subSums|], Rfc1071(p[..4 * HeaderWords(p)]));
  }

  // ---------------------------------------------------------------- which address is seen

  /** With at most one word of options the address is the destination. */
  lemma ShortHeadersAreSeen(b: seq<Byte>)
    requires Ipv4(b) && HeaderWords(b) <= 6
    ensures Seen(b) == Destination(b)
  {
    assert SeenAt(b) == 18;
    assert b[16..18] + b[18..20] == b[16..20];
  }

  /** The handler looks at the destination of a packet, whatever its own address is, exactly
      when the two bytes at the end of the header repeat those of the destination. */
  lemma SeenIffRepeated(b: seq<Byte>)
    requires Ipv4(b)
    ensures (forall my: Address :: ForUs(my, Seen(b)) <==> ForUs(my, Destination(b)))
            <==> b[SeenAt(b)..SeenAt(b) + 2] == b[18..20]
  {
    var s, d := Seen(b), Destination(b);
    assert s[2..4] == b[SeenAt(b)..SeenAt(b) + 2] && d[2..4] == b[18..20] && s[..2] == d[..2];
    if s == d {
      assert s[2..4] == d[2..4];
    } else {
      assert s[..2] + s[2..4] != d[..2] + d[2..4];
      var my := Other(s, d);
      assert ForUs(my, s) != ForUs(my, d);
    }
  }

  /** An address that tells `s` from `d`. */
  function Other(s: Address, d: Address): (my: Address)
    requires s != d
    ensures ForUs(my, s) != ForUs(my, d)
  {
    if d != BROADCAST && s != BROADCAST then s
    else
      var x: Address := [0, 0, 0, 0];
      var y: Address := [0, 0, 0, 1];
      var t := if s == BROADCAST then d else s;
      if t == x then y else x
  }

  /** A packet with seven header words, sent to 10.1.212.1, of which 10.1.9.9 is seen. */
  predicate Misleading(b: seq<Byte>) {
    |b| >= 28 && b[0] == 0x47 && b[16..20] == [10, 1, 212, 1] && b[26..28] == [9, 9]
  }

  lemma SeenInOptions(b: seq<Byte>)
    requires Misleading(b)
    ensures Ipv4(b) && Destination(b) == [10, 1, 212, 1] && Seen(b) == [10, 1, 9, 9]
  {
    assert SeenAt(b) == 26;
    assert b[16..18] == b[16..20][..2] == [10, 1];
  }

  // ---------------------------------------------------------------- the data

  /** The registers of `check_ip_checksum` that pass the packet on. */
  datatype Cut = Cut(wordCount: nat, prev: AxiWord, last: bool, dataOut: seq<AxiWord>)

  /** A frame of one or two words, for which the source tests a word that was not sent, is
      taken to leave nothing over. */
  function CutWord(s: Cut, w: AxiWord): Cut {
    var r := if s.wordCount < 2 then s else s.(dataOut := s.dataOut + [Shift(6, s.prev, w)]);
    var n := if s.wordCount < 4 then s.wordCount + 1 else s.wordCount;
    if w.last then r.(wordCount := 0, prev := w, last := s.wordCount >= 2 && KeepToLen(w.keep) > 6)
    else r.(wordCount := n, prev := w)
  }

  /** The cycle in state LAST. */
  function CutLast(s: Cut): Cut {
    if s.last && KeepToLen(s.prev.keep) > 6 then s.(dataOut := s.dataOut + [ShiftOut(6, s.prev)], last := false) else s
  }

  function CutRun(s: Cut, ws: seq<AxiWord>): Cut
    decreases |ws|
  {
    if ws == [] then s else CutRun(CutLast(CutWord(s, ws[0])), ws[1..])
  }

  lemma CutMiddle(s: Cut, w: AxiWord)
    requires s.wordCount >= 2 && !s.last && FullWord(w)
    ensures CutLast(CutWord(s, w)) ==
            Cut(if s.wordCount < 4 then s.wordCount + 1 else s.wordCount, w, false, s.dataOut + [Shift(6, s.prev, w)])
  {
  }

  lemma CutEnd(s: Cut, w: AxiWord)
    requires s.wordCount >= 2 && !s.last && w.last
    ensures CutLast(CutWord(s, w)) == Cut(0, w, false, s.dataOut + ShiftBy(6, s.prev, [w]))
  {
    if KeepToLen(w.keep) > 6 {
      Assoc(s.dataOut, Shift(6, s.prev, w), [ShiftOut(6, w)]);
    }
  }

  lemma {:induction false} CutTail(s: Cut, ws: seq<AxiWord>)
    requires s.wordCount >= 2 && !s.last && Packed(ws)
    ensures CutRun(s, ws) == Cut(0, ws[|ws| - 1], false, s.dataOut + ShiftBy(6, s.prev, ws))
    decreases |ws|
  {
    var r := CutLast(CutWord(s, ws[0]));
    assert CutRun(s, ws) == CutRun(r, ws[1..]);
    if |ws| == 1 {
      assert ws == [ws[0]];
      CutEnd(s, ws[0]);
    } else {
      Next(ws);
      CutMiddle(s, ws[0]);
      CutTail(r, ws[1..]);
      Assoc(s.dataOut, Shift(6, s.prev, ws[0]), ShiftBy(6, ws[0], ws[1..]));
    }
  }

  lemma CutTwo(s: Cut, w0: AxiWord, w1: AxiWord, t: seq<AxiWord>)
    requires s.wordCount == 0 && !s.last && FullWord(w0) && FullWord(w1)
    ensures CutRun(s, [w0] + ([w1] + t)) == CutRun(Cut(2, w1, false, s.dataOut), t)
  {
    var ws := [w0] + ([w1] + t);
    assert ws[1..] == [w1] + t && ([w1] + t)[1..] == t;
    var m := Cut(1, w0, false, s.dataOut);
    assert CutLast(CutWord(s, w0)) == m && CutLast(CutWord(m, w1)) == Cut(2, w1, false, s.dataOut);
    assert CutRun(s, ws) == CutRun(m, [w1] + t);
  }

  lemma BehindHeader(d0: seq<Byte>, d1: seq<Byte>, t: seq<Byte>, e: seq<Byte>, p: seq<Byte>)
    requires |d0| == |d1| == 8 && |e| == 14 && e + p == d0 + (d1 + t)
    ensures d1[6..] + t == p
  {
    var x := e + p;
    assert p == x[14..];
    assert d1[6..] + t == x[14..];
  }

  /** The packet leaves without the Ethernet header, byte for byte. */
  lemma PassesPacket(s: Cut, f: seq<AxiWord>, e: seq<Byte>, p: seq<Byte>)
    requires FrameOf(f, e, p) && s.wordCount == 0 && !s.last
    ensures var r := CutRun(s, f);
            r.wordCount == 0 && !r.last && |r.dataOut| >= |s.dataOut|
            && r.dataOut[..|s.dataOut|] == s.dataOut && Burst(r.dataOut[|s.dataOut|..], p)
  {
    FrameStart(f, e, p);
    Next(f);
    Next(f[1..]);
    var t := f[1..][1..];
    assert f == [f[0]] + ([f[1]] + t);
    CutTwo(s, f[0], f[1], t);
    CutTail(Cut(2, f[1], false, s.dataOut), t);
    ShiftByBytes(6, f[1], t);
    FullCons(f[1], t);
    FullCons(f[0], f[1..]);
    BehindHeader(f[0].data, f[1].data, Bytes(t), e, p);
    var o := ShiftBy(6, f[1], t);
    assert (s.dataOut + o)[..|s.dataOut|] == s.dataOut && (s.dataOut + o)[|s.dataOut|..] == o;
  }

  // ---------------------------------------------------------------- cut_length

  datatype ClState = PKG | DROP_REST

  datatype Cl = Cl(state: ClState, wordCount: nat, totalLength: U16, dataOut: seq<AxiWord>)

  /** The last word of a packet of which `n` bytes are left, on four bits. */
  function LastOf(w: AxiWord, n: int): AxiWord {
    Word(w.data, LenToKeep(n % 16), true)
  }

  function ClWord(s: Cl, w: AxiWord): Cl {
    if s.state == DROP_REST then
      if w.last then s.(state := PKG) else s
    else if s.wordCount == 0 then
      s.(totalLength := GetWord(w.data, 2), wordCount := if w.last then 0 else 1, dataOut := s.dataOut + [w])
    else if (s.wordCount + 1) * 8 >= s.totalLength then
      s.(state := if w.last then PKG else DROP_REST, wordCount := 0,
         dataOut := s.dataOut + [LastOf(w, s.totalLength - s.wordCount * 8)])
    else
      s.(wordCount := if w.last then 0 else (s.wordCount + 1) % 0x1_0000, dataOut := s.dataOut + [w])
  }

  function ClRun(s: Cl, ws: seq<AxiWord>): Cl
    decreases |ws|
  {
    if ws == [] then s else ClRun(ClWord(s, ws[0]), ws[1..])
  }

  /** A packet cut behind `n` bytes, if it has more words than those. */
  function Trim(ws: seq<AxiWord>, n: nat): seq<AxiWord>
    requires n > 0
    decreases |ws|
  {
    if ws == [] then []
    else if n <= 8 then [Word(ws[0].data, LenToKeep(n), true)]
    else [ws[0]] + Trim(ws[1..], n - 8)
  }

  /** All bytes on the wire, those behind the end of the packet included. */
  function Wire(ws: seq<AxiWord>): seq<Byte> {
    if ws == [] then [] else ws[0].data + Wire(ws[1..])
  }

  lemma {:induction false} ClDrops(s: Cl, ws: seq<AxiWord>)
    requires s.state == DROP_REST && Packed(ws)
    ensures ClRun(s, ws) == s.(state := PKG)
    decreases |ws|
  {
    if |ws| == 1 {
      assert ClRun(s.(state := PKG), ws[1..]) == s.(state := PKG);
    } else {
      Next(ws);
      ClDrops(s, ws[1..]);
    }
  }

  lemma ClKeeps(s: Cl, w: AxiWord)
    requires s.state == PKG && 0 < s.wordCount < 0xFFFF && (s.wordCount + 1) * 8 < s.totalLength
    ensures ClWord(s, w) == s.(wordCount := if w.last then 0 else s.wordCount + 1, dataOut := s.dataOut + [w])
  {
  }

  lemma ClCuts(s: Cl, w: AxiWord, n: nat)
    requires s.state == PKG && s.wordCount > 0 && s.totalLength == 8 * s.wordCount + n && 1 <= n <= 8
    ensures ClWord(s, w) == s.(state := if w.last then PKG else DROP_REST, wordCount := 0,
                               dataOut := s.dataOut + [Word(w.data, LenToKeep(n), true)])
  {
  }

  lemma ClCutsRest(s: Cl, ws: seq<AxiWord>, n: nat)
    requires s.state == PKG && s.wordCount > 0 && Packed(ws) && s.totalLength == 8 * s.wordCount + n && 1 <= n <= 8
    ensures ClRun(s, ws) == s.(wordCount := 0, dataOut := s.dataOut + Trim(ws, n))
  {
    ClCuts(s, ws[0], n);
    if |ws| == 1 {
      assert ws[1..] == [];
    } else {
      Next(ws);
      ClDrops(ClWord(s, ws[0]), ws[1..]);
    }
  }

  lemma {:induction false} ClTail(s: Cl, ws: seq<AxiWord>, n: nat)
    requires s.state == PKG && s.wordCount > 0 && Packed(ws) && s.totalLength == 8 * s.wordCount + n && n > 0
    ensures ClRun(s, ws) == s.(wordCount := 0, dataOut := s.dataOut + Trim(ws, n))
    decreases |ws|
  {
    if n <= 8 {
      ClCutsRest(s, ws, n);
    } else {
      ClKeeps(s, ws[0]);
      if |ws| == 1 {
        assert ws[1..] == [] && Trim(ws[1..], n - 8) == [];
      } else {
        Next(ws);
        ClTail(ClWord(s, ws[0]), ws[1..], n - 8);
        Assoc(s.dataOut, ws[0], Trim(ws[1..], n - 8));
      }
    }
  }

  /** The length of a packet in its IP header. */
  function TotalLength(b: seq<Byte>): U16
    requires Ipv4(b)
  {
    GetWord(b, 2)
  }

  /** Where a packet is cut: the length 0 leaves the second word whole. For the lengths 1 to 8
      the source asks `lenToKeep` for a mask that it does not have. */
  function CutAt(b: seq<Byte>): (n: nat)
    requires Ipv4(b)
    ensures TotalLength(b) == 0 || TotalLength(b) > 8 ==> n > 8
  {
    if TotalLength(b) == 0 then 16 else TotalLength(b)
  }

  predicate HasMask(b: seq<Byte>) {
    Ipv4(b) && (TotalLength(b) == 0 || TotalLength(b) > 8)
  }

  /** A packet is cut behind its total length. */
  lemma CutsPacket(s: Cl, ws: seq<AxiWord>, b: seq<Byte>)
    requires s.state == PKG && s.wordCount == 0 && Burst(ws, b) && HasMask(b)
    ensures ClRun(s, ws) == Cl(PKG, 0, TotalLength(b), s.dataOut + Trim(ws, CutAt(b)))
  {
    WordAt(ws, b, 2, 1);
    WordAt(ws, b, 0, 8);
    Next(ws);
    assert ws[0].data[..8][2] == b[0..8][2] && ws[0].data[..8][3] == b[0..8][3];
    var r := ClWord(s, ws[0]);
    assert r == Cl(PKG, 1, TotalLength(b), s.dataOut + [ws[0]]);
    if TotalLength(b) == 0 {
      ClZero(r, ws[1..]);
    } else {
      ClTail(r, ws[1..], TotalLength(b) - 8);
    }
    Assoc(s.dataOut, ws[0], Trim(ws[1..], CutAt(b) - 8));
  }

  /** The length 0: what is left of it, -8 on four bits, is 8. */
  lemma ClZero(s: Cl, ws: seq<AxiWord>)
    requires s.state == PKG && s.wordCount == 1 && s.totalLength == 0 && Packed(ws)
    ensures ClRun(s, ws) == s.(wordCount := 0, dataOut := s.dataOut + Trim(ws, 8))
  {
    assert LastOf(ws[0], -8) == Word(ws[0].data, LenToKeep(8), true);
    if |ws| == 1 {
      assert ws[1..] == [];
    } else {
      Next(ws);
      ClDrops(ClWord(s, ws[0]), ws[1..]);
    }
  }

  lemma CutData(d: seq<Byte>, t: seq<Byte>, n: nat)
    requires |d| == 8 && 8 < n <= 8 + |t|
    ensures (d + t)[..n] == d + t[..n - 8]
  {
  }

  /** What is left is a packet of `n` bytes, if there are words for them. */
  lemma {:induction false} TrimIs(ws: seq<AxiWord>, n: nat)
    requires Packed(ws) && 0 < n <= 8 * |ws|
    ensures |Wire(ws)| == 8 * |ws| && Burst(Trim(ws, n), Wire(ws)[..n])
    decreases |ws|
  {
    WireSize(ws);
    if n <= 8 {
      TrimLast(ws, n);
    } else {
      Next(ws);
      TrimIs(ws[1..], n - 8);
      TrimMore(ws[0], Trim(ws[1..], n - 8), Wire(ws[1..]), n);
    }
  }

  lemma TrimLast(ws: seq<AxiWord>, n: nat)
    requires ws != [] && 0 < n <= 8
    ensures |Wire(ws)| >= 8 && Burst(Trim(ws, n), Wire(ws)[..n])
  {
    BytesOne(Word(ws[0].data, LenToKeep(n), true));
    assert Wire(ws)[..n] == ws[0].data[..n];
  }

  lemma TrimMore(w: AxiWord, rest: seq<AxiWord>, t: seq<Byte>, n: nat)
    requires FullWord(w) && 8 < n <= 8 + |t| && Burst(rest, t[..n - 8])
    ensures Burst([w] + rest, (w.data + t)[..n])
  {
    PackedCons(w, rest);
    FullCons(w, rest);
    CutData(w.data, t, n);
  }

  lemma {:induction false} WireSize(ws: seq<AxiWord>)
    ensures |Wire(ws)| == 8 * |ws|
    decreases |ws|
  {
    if ws != [] {
      WireSize(ws[1..]);
    }
  }

  lemma {:induction false} WireStarts(ws: seq<AxiWord>)
    requires Packed(ws)
    ensures |Wire(ws)| == 8 * |ws| && 8 * (|ws| - 1) < |Bytes(ws)| <= 8 * |ws| && Bytes(ws) == Wire(ws)[..|Bytes(ws)|]
    decreases |ws|
  {
    WireSize(ws);
    if |ws| == 1 {
      BytesOne(ws[0]);
      assert ws == [ws[0]] && Wire(ws[1..]) == [];
    } else {
      Next(ws);
      WireStarts(ws[1..]);
      FullCons(ws[0], ws[1..]);
      CutData(ws[0].data, Wire(ws[1..]), 8 + |Bytes(ws[1..])|);
    }
  }

  /** Padding is cut, byte for byte: what is left is the packet of its total length. */
  lemma PaddingIsCut(ws: seq<AxiWord>, b: seq<Byte>)
    requires Burst(ws, b) && HasMask(b) && CutAt(b) <= |b|
    ensures Burst(Trim(ws, CutAt(b)), b[..CutAt(b)])
  {
    WireStarts(ws);
    TrimIs(ws, CutAt(b));
    assert Wire(ws)[..CutAt(b)] == Wire(ws)[..|b|][..CutAt(b)];
  }

  /** A packet that is shorter than its total length, but has a word for the last byte of it,
      is lengthened by what stands in that word. */
  lemma TruncatedGrows(ws: seq<AxiWord>, b: seq<Byte>)
    requires Burst(ws, b) && HasMask(b) && |b| < CutAt(b) <= 8 * |ws|
    ensures |Wire(ws)| == 8 * |ws| && Burst(Trim(ws, CutAt(b)), b + Wire(ws)[|b|..CutAt(b)])
  {
    WireStarts(ws);
    TrimIs(ws, CutAt(b));
    assert Wire(ws)[..CutAt(b)] == Wire(ws)[..|b|] + Wire(ws)[|b|..CutAt(b)];
  }

  /** A packet without a word for its last byte passes as it is. */
  lemma {:induction false} ShortPasses(ws: seq<AxiWord>, n: nat)
    requires n > 8 * |ws|
    ensures Trim(ws, n) == ws
    decreases |ws|
  {
    if ws != [] {
      ShortPasses(ws[1..], n - 8);
      assert [ws[0]] + ws[1..] == ws;
    }
  }

  /** What leaves `cut_length` for a packet, with the bytes on the wire behind its end. */
  function CutBytes(ws: seq<AxiWord>, b: seq<Byte>): seq<Byte>
    requires Burst(ws, b) && HasMask(b)
  {
    WireSize(ws);
    if CutAt(b) <= |b| then b[..CutAt(b)]
    else if CutAt(b) <= 8 * |ws| then (WireStarts(ws); b + Wire(ws)[|b|..CutAt(b)])
    else b
  }

  /** `cut_length` on any packet, padded, whole or truncated, and ready for the next one. */
  lemma CutLengthIs(s: Cl, ws: seq<AxiWord>, b: seq<Byte>)
    requires s.state == PKG && s.wordCount == 0 && s.dataOut == [] && Burst(ws, b) && HasMask(b)
    ensures var r := ClRun(s, ws);
            r.state == PKG && r.wordCount == 0 && Burst(r.dataOut, CutBytes(ws, b))
  {
    CutsPacket(s, ws, b);
    var out := Trim(ws, CutAt(b));
    assert [] + out == out;
    if CutAt(b) <= |b| {
      PaddingIsCut(ws, b);
    } else if CutAt(b) <= 8 * |ws| {
      TruncatedGrows(ws, b);
    } else {
      ShortPasses(ws, CutAt(b));
    }
  }

  /** Nothing is added to a packet if and only if it does not end inside the word that holds the
      last byte of its total length. */
  lemma NothingAddedIff(s: Cl, ws: seq<AxiWord>, b: seq<Byte>)
    requires s.state == PKG && s.wordCount == 0 && s.dataOut == [] && Burst(ws, b) && HasMask(b)
    ensures Bytes(ClRun(s, ws).dataOut) <= b <==> !(|b| < TotalLength(b) <= 8 * |ws|)
  {
    CutLengthIs(s, ws, b);
    WireStarts(ws);
  }

  // ---------------------------------------------------------------- the handler as a whole

  /** What `ip_invalid_dropper` and `cut_length` make of a packet and its verdict. */
  lemma Judges(d: seq<AxiWord>, p: seq<Byte>, accepted: bool) returns (m: nat)
    requires Burst(d, p) && HasMask(p)
    ensures var o := Droppers.DropRun(Droppers.Dropper(false, Droppers.ReadDrop1, d, [accepted], [], []), m).dataOut;
            var r := ClRun(Cl(PKG, 0, 0, []), o);
            && r.wordCount == 0 && r.state == PKG
            && if accepted then o == d && Burst(r.dataOut, CutBytes(d, p)) else r.dataOut == []
  {
    var s := Droppers.Dropper(false, Droppers.ReadDrop1, d, [accepted], [], []);
    m := Droppers.DropperIsPass(s);
    Droppers.ValidFirst(d, [], accepted, []);
    assert d + [] == d && [accepted] + [] == [accepted];
    assert Droppers.PassValid([], []) == [];
    var o := Droppers.DropRun(s, m).dataOut;
    assert o == if accepted then d else [];
    if accepted {
      CutLengthIs(Cl(PKG, 0, 0, []), d, p);
    } else {
      assert ClRun(Cl(PKG, 0, 0, []), []) == Cl(PKG, 0, 0, []);
    }
  }

  /** What leaves the handler of `my` for the frame `f`, after `m` cycles of the dropper. */
  function Passed(my: Address, s: Head, c: Cut, f: seq<AxiWord>, m: nat): Cl {
    var h := HeadRun(my, s, f)[|f|];
    var verdicts := if h.subSums == [] then [] else [Accepts(h.subSums[0])];
    var d := Droppers.Dropper(false, Droppers.ReadDrop1, CutRun(c, f).dataOut, verdicts, [], []);
    ClRun(Cl(PKG, 0, 0, []), Droppers.DropRun(d, m).dataOut)
  }

  /** The stages wait for a frame. */
  predicate Idle(s: Head, c: Cut) {
    s.wordCount == 0 && s.subSums == [] && c.wordCount == 0 && !c.last && c.dataOut == []
  }

  /** From the frame to what the handler passes on: nothing, unless the header's sum is right and
      the address that is seen is the own one or the broadcast; then the packet, cut. */
  lemma Handles(my: Address, s: Head, c: Cut, f: seq<AxiWord>, e: seq<Byte>, p: seq<Byte>) returns (m: nat)
    requires FrameOf(f, e, p) && HasMask(p) && Idle(s, c)
    ensures var d, r := CutRun(c, f).dataOut, Passed(my, s, c, f, m);
            && Burst(d, p) && r.wordCount == 0 && r.state == PKG
            && if Rfc1071(p[..4 * HeaderWords(p)]) == 0xFFFF && ForUs(my, Seen(p))
               then Burst(r.dataOut, CutBytes(d, p)) else r.dataOut == []
  {
    OneVerdict(my, s, f, e, p);
    PassesPacket(c, f, e, p);
    var d := CutRun(c, f).dataOut;
    assert d[0..] == d;
    m := Judges(d, p, Accepts(HeadRun(my, s, f)[|f|].subSums[0]));
  }

  /** A frame with seven header words and a right sum, sent to 10.1.212.1: the handler of that
      address passes nothing, while that of 10.1.9.9 passes the packet. */
  lemma OptionsMisdirect(s: Head, c: Cut, f: seq<AxiWord>, e: seq<Byte>, b: seq<Byte>) returns (m: nat, n: nat)
    requires FrameOf(f, e, b) && HasMask(b) && Idle(s, c) && Misleading(b) && Rfc1071(b[..28]) == 0xFFFF
    ensures Destination(b) == [10, 1, 212, 1] && Passed([10, 1, 212, 1], s, c, f, m).dataOut == []
    ensures var d := CutRun(c, f).dataOut;
            Burst(d, b) && Burst(Passed([10, 1, 9, 9], s, c, f, n).dataOut, CutBytes(d, b))
  {
    SeenInOptions(b);
    assert HeaderWords(b) == 7;
    m := Handles([10, 1, 212, 1], s, c, f, e, b);
    n := Handles([10, 1, 9, 9], s, c, f, e, b);
  }

  // ---------------------------------------------------------------- encoder and handler

  lemma ValidHeader(b: seq<Byte>)
    requires Ipv4(b)
    ensures Ipv4(WithChecksum(b)) && HeaderWords(WithChecksum(b)) == HeaderWords(b)
    ensures Seen(WithChecksum(b)) == Seen(b) && TotalLength(WithChecksum(b)) == TotalLength(b)
    ensures Rfc1071(WithChecksum(b)[..4 * HeaderWords(b)]) == 0xFFFF
  {
    var n := 4 * HeaderWords(b);
    var z := Blank(b)[..n];
    assert z[10] == 0 && z[11] == 0;
    InsertedChecksumIsValid(z, 10);
    assert WithChecksum(b)[..n] == PutWord(z, 10, 0xFFFF - Rfc1071(z));
  }

  /** The handler on a frame of the encoder: the packet passes with its checksum inserted and
      nothing else changed, and is accepted exactly when the address seen is ours. */
  lemma RoundTrip(mac: Mac, src: Mac, my: Address, s: Head, c: Cut, f: seq<AxiWord>, b: seq<Byte>)
    requires Ipv4(b) && Burst(f, Ethernet(mac, src) + WithChecksum(b))
    requires s.wordCount == 0 && c.wordCount == 0 && !c.last && c.dataOut == []
    ensures var h, d := HeadRun(my, s, f)[|f|], CutRun(c, f);
            && h.wordCount == 0 && d.wordCount == 0 && !d.last && |h.subSums| == |s.subSums| + 1
            && Burst(d.dataOut, WithChecksum(b))
            && (Accepts(h.subSums[|s.subSums|]) <==> ForUs(my, Seen(b)))
  {
    ValidHeader(b);
    OneVerdict(my, s, f, Ethernet(mac, src), WithChecksum(b));
    PassesPacket(c, f, Ethernet(mac, src), WithChecksum(b));
    var d := CutRun(c, f).dataOut;
    assert d[0..] == d;
  }

  /** From the words that enter the encoder to those that leave the handler: the packet with its
      checksum if the address that the handler sees is its own or the broadcast, and nothing
      otherwise. */
  lemma EncodeThenHandle(x: Cics, i: Ici, m: Mw, src: Mac, mac: Mac, my: Address, s: Head, c: Cut,
                         ws: seq<AxiWord>, b: seq<Byte>) returns (f: seq<AxiWord>, n: nat, k: nat)
    requires Burst(ws, b) && Ipv4(b) && TotalLength(b) == |b|
    requires CicsIdle(x) && x.checksumOut == [] && i.wordCount == 0 && i.dataOut == [] && MwIdle(m) && m.dataOut == []
    requires Idle(s, c)
    ensures var y := IciAfter(i.(checksumIn := CicsRun(x, ws)[|ws|].checksumOut), ws, |ws|);
            f == MwRun(src, m.(arpIn := [Some(mac)], dataIn := y.dataOut), n).dataOut
    ensures var r := Passed(my, s, c, f, k);
            && r.state == PKG && r.wordCount == 0
            && if ForUs(my, Seen(b)) then Burst(r.dataOut, WithChecksum(b)) else r.dataOut == []
  {
    n := EncodesPacket(x, i, m, src, mac, ws, b);
    var y := IciAfter(i.(checksumIn := CicsRun(x, ws)[|ws|].checksumOut), ws, |ws|);
    f := MwRun(src, m.(arpIn := [Some(mac)], dataIn := y.dataOut), n).dataOut;
    ValidHeader(b);
    k := Handles(my, s, c, f, Ethernet(mac, src), WithChecksum(b));
    WholeIsKept(CutRun(c, f).dataOut, WithChecksum(b));
  }

  lemma WholeIsKept(d: seq<AxiWord>, p: seq<Byte>)
    requires Ipv4(p) && TotalLength(p) == |p| && Burst(d, p)
    ensures HasMask(p) && CutBytes(d, p) == p
  {
    assert p[..|p|] == p;
  }

  // ---------------------------------------------------------------- the hardware's form

  /** The static variables of `check_ip_checksum` and its outputs. */
  class CheckIpChecksum {
    const myIpAddress: Address
    const cicsIpSums: SumRegisters
    var cicsIpHeaderLen: nat
    var cicsPrevWord: AxiWord
    var cicsLast: bool
    var cicsWordCount: nat
    var cicsDstIpAddress: Address
    var dataOut: seq<AxiWord>
    var subSumsFifo: seq<(Lanes, bool)>

    ghost predicate Valid() {
      cicsIpSums.Valid()
    }

    ghost function HeadAbs(): Head
      reads this, cicsIpSums.sums
      requires Valid()
    {
      Head(cicsIpSums.Abs(), cicsIpHeaderLen, cicsWordCount, cicsDstIpAddress, subSumsFifo)
    }

    ghost function CutAbs(): Cut
      reads this
    {
      Cut(cicsWordCount, cicsPrevWord, cicsLast, dataOut)
    }

    constructor (my: Address)
      ensures Valid() && fresh(cicsIpSums.sums) && myIpAddress == my && subSumsFifo == [] && dataOut == []
      ensures cicsWordCount == 0 && !cicsLast
    {
      myIpAddress := my;
      cicsIpSums := new SumRegisters();
      cicsIpHeaderLen, cicsPrevWord, cicsLast, cicsWordCount := 0, ZERO_WORD, false, 0;
      cicsDstIpAddress, dataOut, subSumsFifo := [0, 0, 0, 0], [], [];
    }

    /** The last lanes of a header and the verdict on its address. */
    method EndHeader(w: AxiWord, hi: nat)
      requires Valid() && hi <= 4
      modifies this`cicsIpHeaderLen, this`subSumsFifo, cicsIpSums.sums
      ensures HeadAbs() == HeadEnd(myIpAddress, old(HeadAbs()), w, hi)
    {
      cicsIpSums.AddLanes(w.data, 0, hi);
      cicsIpHeaderLen := 0;
      var match_ := cicsDstIpAddress == myIpAddress || cicsDstIpAddress == BROADCAST;
      subSumsFifo := subSumsFifo + [(cicsIpSums.sums[..], match_)];
    }

    /** The words behind the fourth. */
    method ReadRest(w: AxiWord)
      requires Valid() && cicsWordCount >= 4
      modifies this`cicsIpHeaderLen, this`subSumsFifo, this`cicsDstIpAddress, cicsIpSums.sums
      ensures HeadAbs() == HeadAdd(myIpAddress, old(HeadAbs()), w)
    {
      cicsDstIpAddress := cicsDstIpAddress[..2] + w.data[..2];
      if cicsIpHeaderLen == 1 {
        EndHeader(w, 1);
      } else if cicsIpHeaderLen == 2 {
        EndHeader(w, 3);
      } else if cicsIpHeaderLen != 0 {
        cicsIpSums.AddLanes(w.data, 0, 4);
        cicsIpHeaderLen := (cicsIpHeaderLen - 2) % 0x100;
      }
    }

    method ReadHeader(w: AxiWord)
      requires Valid()
      modifies this`cicsIpHeaderLen, this`subSumsFifo, this`cicsDstIpAddress, this`cicsWordCount, cicsIpSums.sums
      ensures HeadAbs() == HeadAdd(myIpAddress, old(HeadAbs()), w)
      ensures cicsWordCount == if old(cicsWordCount) < 4 then old(cicsWordCount) + 1 else old(cicsWordCount)
    {
      match cicsWordCount {
        case 0 =>
          cicsIpSums.Clear();
          cicsWordCount := 1;
        case 1 =>
          cicsIpSums.AddLanes(w.data, 3, 4);
          cicsIpHeaderLen, cicsWordCount := w.data[6] % 16, 2;
        case 2 =>
          cicsIpSums.AddLanes(w.data, 0, 4);
          cicsIpHeaderLen, cicsWordCount := (cicsIpHeaderLen - 2) % 0x100, 3;
        case 3 =>
          cicsDstIpAddress := w.data[6..] + cicsDstIpAddress[2..];
          cicsIpSums.AddLanes(w.data, 0, 4);
          cicsIpHeaderLen, cicsWordCount := (cicsIpHeaderLen - 2) % 0x100, 4;
        case _ =>
          ReadRest(w);
      }
    }

    /** State PACKET. */
    method ReadWord(w: AxiWord)
      requires Valid() && !cicsLast
      modifies this, cicsIpSums.sums
      ensures HeadAbs() == HeadWord(myIpAddress, old(HeadAbs()), w)
      ensures CutAbs() == CutWord(old(CutAbs()), w)
    {
      var sent, count := true, cicsWordCount;
      ReadHeader(w);
      if count >= 2 {
        sent := KeepToLen(w.keep) <= 6;
        dataOut := dataOut + [Word(cicsPrevWord.data[6..] + w.data[..6], ShiftKeep(6, w.keep), sent)];
      }
      cicsPrevWord := w;
      if w.last {
        cicsWordCount := 0;
        cicsLast := !sent;
      }
    }

    /** State LAST. */
    method SendLast()
      requires Valid() && cicsLast && KeepToLen(cicsPrevWord.keep) > 6
      modifies this
      ensures HeadAbs() == old(HeadAbs()) && CutAbs() == CutLast(old(CutAbs()))
    {
      dataOut := dataOut + [ShiftOut(6, cicsPrevWord)];
      cicsLast := false;
    }
  }

  /** The static variables of `cut_length` and its output. */
  class CutLength {
    var clState: ClState
    var clWordCount: nat
    var clTotalLength: U16
    var dataOut: seq<AxiWord>

    ghost function Abs(): Cl
      reads this
    {
      Cl(clState, clWordCount, clTotalLength, dataOut)
    }

    constructor ()
      ensures Abs() == Cl(PKG, 0, 0, [])
    {
      clState, clWordCount, clTotalLength, dataOut := PKG, 0, 0, [];
    }

    method ReadWord(word: AxiWord)
      modifies this
      ensures Abs() == ClWord(old(Abs()), word)
    {
      var currWord := word;
      if clState == DROP_REST {
        if currWord.last {
          clState := PKG;
        }
        return;
      }
      if clWordCount == 0 {
        var high: int, low: int := currWord.data[2], currWord.data[3];
        clTotalLength := high * 0x100 + low;
      } else if (clWordCount + 1) * 8 >= clTotalLength {
        if !currWord.last {
          clState := DROP_REST;
        }
        var leftLength := (clTotalLength - clWordCount * 8) % 16;
        currWord := Word(currWord.data, LenToKeep(leftLength), true);
      }
      dataOut := dataOut + [currWord];
      clWordCount := (clWordCount + 1) % 0x1_0000;
      if currWord.last {
        clWordCount := 0;
      }
    }
  }
}
