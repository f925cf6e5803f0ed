/** mac_ip_encode.cpp: `compute_ip_checksum` sums the header of every packet, `ip_checksum_insert`
    writes the checksum into its place and `handle_arp_reply` puts the Ethernet header in front.
    The first two state machines are folded over the words of a packet. */
module MacIpEncode {
  import opened Toe
  import opened Axi
  import opened Checksum
  import opened IpSums

  // ---------------------------------------------------------------- compute_ip_checksum

  /** The registers and the checksum output; every word that is read goes to `dataOut` as it is. */
  datatype Cics = Cics(
    sums: Lanes, headerLen: nat, written: bool, state: nat, wordCount: nat, checksumOut: seq<U16>)

  function CicsAdd(s: Cics, w: AxiWord): Cics {
    match s.wordCount
    case 0 => s.(headerLen := w.data[0] % 16, sums := SumPick(s.sums, w.data, 0, 4), wordCount := 1)
    case 1 =>
      // lane 1 is the checksum's own place
      s.(sums := SumPick(SumPick(s.sums, w.data, 0, 1), w.data, 2, 4), headerLen := (s.headerLen - 2) % 16,
          wordCount := 2)
    case _ =>
      if s.headerLen == 0 then s
      else if s.headerLen == 3 then s.(sums := SumPick(s.sums, w.data, 0, 2), headerLen := 0, written := false)
      else if s.headerLen == 4 then s.(sums := SumPick(s.sums, w.data, 0, 4), headerLen := 0, written := false)
      else s.(sums := SumPick(s.sums, w.data, 0, 4), headerLen := (s.headerLen - 2) % 16)
  }

  function CicsWord(s: Cics, w: AxiWord): Cics {
    if w.last then CicsAdd(s, w).(wordCount := 0) else CicsAdd(s, w)
  }

  /** One of the four cycles after the last word of a header, in which no word is read. */
  function CicsTick(s: Cics): Cics {
    var n := s.sums;
    match s.state
    case 0 => s.(sums := [AddLane17(n[0], n[2]), AddLane17(n[1], n[3]), n[2], n[3]], state := 1)
    case 1 => s.(sums := n[0 := AddLane17(n[0], n[1])], state := 2)
    case 2 => s.(sums := n[0 := 0x1_FFFF - n[0]], checksumOut := s.checksumOut + [Invert(n[0])], state := 3)
    case _ => s.(sums := ZERO_LANES, written := true, state := 0)
  }

  function CicsTicks(s: Cics, n: nat): Cics
    decreases n, s
  {
    if n == 0 then s else CicsTicks(CicsTick(s), n - 1)
  }

  function Settled(s: Cics): Cics {
    if s.written then s else CicsTicks(s, 4)
  }

  /** `r` is ready for the word behind `w`. */
  predicate CicsStep(s: Cics, w: AxiWord, r: Cics) {
    r == Settled(CicsWord(s, w))
  }

  /** The states before each word of a packet and after the last one. */
  function CicsRun(s: Cics, ws: seq<AxiWord>): (t: seq<Cics>)
    ensures |t| == |ws| + 1 && t[0] == s
    ensures forall k {:trigger ws[k]} :: 0 <= k < |ws| ==> CicsStep(t[k], ws[k], t[k + 1])
    decreases |ws|
  {
    if ws == [] then [s] else [s] + CicsRun(Settled(CicsWord(s, ws[0])), ws[1..])
  }

  predicate CicsIdle(s: Cics) {
    s.sums == ZERO_LANES && s.headerLen == 0 && s.wordCount == 0 && s.written && s.state == 0
  }

  /** The checksum is written and the lanes are cleared. */
  function Complete(s: Cics): Cics {
    s.(checksumOut := s.checksumOut + [Invert(Combine(s.sums))], sums := ZERO_LANES, written := true)
  }

  lemma TwoTicks(s: Cics)
    requires s.state == 0
    ensures CicsTick(CicsTick(s)) ==
            s.(sums := [Combine(s.sums), AddLane17(s.sums[1], s.sums[3]), s.sums[2], s.sums[3]], state := 2)
  {
    var n := s.sums;
    var a, b := AddLane17(n[0], n[2]), AddLane17(n[1], n[3]);
    assert CicsTick(s) == s.(sums := [a, b, n[2], n[3]], state := 1);
    assert [a, b, n[2], n[3]][0 := AddLane17(a, b)] == [Combine(n), b, n[2], n[3]];
  }

  lemma MoreTicks(s: Cics, c: U17)
    requires s.state == 2 && s.sums[0] == c
    ensures CicsTick(CicsTick(s)) == s.(sums := ZERO_LANES, checksumOut := s.checksumOut + [Invert(c)],
        written := true, state := 0)
  {
  }

  lemma FourTicks(s: Cics)
    ensures CicsTicks(s, 4) == CicsTick(CicsTick(CicsTick(CicsTick(s))))
  {
    var s1, s2, s3 := CicsTick(s), CicsTick(CicsTick(s)), CicsTick(CicsTick(CicsTick(s)));
    assert CicsTicks(s, 4) == CicsTicks(s1, 3) && CicsTicks(s2, 2) == CicsTicks(s3, 1);
  }

  /** The four cycles together. */
  lemma SettledIs(s: Cics)
    requires s.state == 0
    ensures Settled(s) == if s.written then s else Complete(s)
  {
    if !s.written {
      FourTicks(s);
      TwoTicks(s);
      MoreTicks(CicsTick(CicsTick(s)), Combine(s.sums));
    }
  }

  lemma NextIs(s: Cics, w: AxiWord)
    requires s.state == 0
    ensures var r := Settled(CicsAdd(s, w));
            r.state == 0 && Settled(CicsWord(s, w)) == if w.last then r.(wordCount := 0) else r
  {
    SettledIs(CicsAdd(s, w));
    SettledIs(CicsWord(s, w));
  }

  /** The header with a zero checksum. */
  function Blank(b: seq<Byte>): seq<Byte>
    requires |b| >= 12
  {
    PutWord(b, 10, 0)
  }

  /** The checksum of a header of `h` words. */
  function HeaderSum(z: seq<Byte>, h: nat): U16
    requires 4 * h <= |z|
  {
    0xFFFF - Rfc1071(z[..4 * h])
  }

  /** The header checksum of section 3.1 of RFC 791. */
  function IpChecksum(b: seq<Byte>): U16
    requires Ipv4(b)
  {
    HeaderSum(Blank(b), HeaderWords(b))
  }

  /** `b` with its header checksum. */
  function WithChecksum(b: seq<Byte>): seq<Byte>
    requires Ipv4(b)
  {
    PutWord(b, 10, IpChecksum(b))
  }

  /** A slice of a word is the slice of the packet; outside the checksum it is unchanged. */
  lemma PickSlice(w: AxiWord, b: seq<Byte>, at: nat, lo: nat, hi: nat, n: nat)
    requires lo <= hi <= n <= 8 && at + n <= |b| && w.data[..n] == b[at..at + n] && |b| >= 12
    requires at + hi <= 10 || at + lo >= 12
    ensures w.data[lo..hi] == Blank(b)[at + lo..at + hi]
  {
    SubSlice(w.data, b, at, lo, hi, n);
    assert b[at + lo..at + hi] == Blank(b)[at + lo..at + hi];
  }

  /** While a header of `h` words is read, the lanes hold the sum of the `8 * k` bytes of `z`
      that were read; `q` are the earlier checksums. */
  ghost predicate Reading(s: Cics, q: seq<U16>, z: seq<Byte>, h: nat, k: nat) {
    && s.wordCount == 2 && s.written && s.state == 0 && s.checksumOut == q && 8 * k + 4 <= 4 * h <= |z| && h < 16
    && s.headerLen == h + 2 - 2 * k && s.headerLen >= 3
    && Sums(s.sums, WordSum(z[..8 * k]))
  }

  predicate Summed(s: Cics, q: seq<U16>, c: U16) {
    && s.wordCount == 2 && s.written && s.state == 0 && s.headerLen == 0 && s.sums == ZERO_LANES
    && s.checksumOut == q + [c]
  }

  /** The second word of the header, whose second lane is left out. */
  lemma PickSecond(s: Lanes, d: seq<Byte>, z: seq<Byte>)
    requires |d| == 8 && |z| >= 16 && Sums(s, WordSum(z[..8]))
    requires d[0..2] == z[8..10] && d[4..8] == z[12..16] && z[10] == 0 && z[11] == 0
    ensures Sums(SumPick(SumPick(s, d, 0, 1), d, 2, 4), WordSum(z[..16]))
  {
    PickPrefix(s, d, z, 8, 0, 1);
    SumGrows(z, 10, 12);
    assert z[10..12] == [0, 0] && WordSum([0, 0]) == 0;
    PickPrefix(SumPick(s, d, 0, 1), d, z, 12, 2, 4);
  }

  lemma HeaderBytes(ws: seq<AxiWord>, b: seq<Byte>)
    requires Burst(ws, b) && Ipv4(b)
    ensures |ws| > 2 && FullWord(ws[0]) && FullWord(ws[1])
    ensures ws[0].data[0] == b[0] && ws[0].data[0..8] == Blank(b)[0..8]
    ensures ws[1].data[0..2] == Blank(b)[8..10] && ws[1].data[4..8] == Blank(b)[12..16]
  {
    WordAt(ws, b, 2, 1);
    WordAt(ws, b, 0, 8);
    WordAt(ws, b, 1, 8);
    PackedAt(ws, b, 0);
    PackedAt(ws, b, 1);
    assert ws[0].data[..8][0] == b[0..8][0];
    PickSlice(ws[0], b, 0, 0, 8, 8);
    PickSlice(ws[1], b, 8, 0, 2, 8);
    PickSlice(ws[1], b, 8, 4, 8, 8);
  }

  lemma FirstIs(s: Cics, w: AxiWord)
    requires CicsIdle(s) && !w.last
    ensures CicsWord(s, w) ==
            Cics(SumPick(ZERO_LANES, w.data, 0, 4), w.data[0] % 16, true, 0, 1, s.checksumOut)
  {
  }

  lemma SecondIs(s: Cics, w: AxiWord)
    requires s.wordCount == 1 && 5 <= s.headerLen < 16 && !w.last && s.written && s.state == 0
    ensures CicsWord(s, w) ==
            Cics(SumPick(SumPick(s.sums, w.data, 0, 1), w.data, 2, 4), s.headerLen - 2, true, 0, 2, s.checksumOut)
  {
  }

  lemma AfterTwo(s: Cics, w0: AxiWord, x: Cics, w1: AxiWord, r: Cics)
    requires CicsStep(s, w0, x) && CicsStep(x, w1, r) && CicsIdle(s) && !w0.last && !w1.last && 5 <= w0.data[0] % 16
    ensures r == Cics(SumPick(SumPick(SumPick(ZERO_LANES, w0.data, 0, 4), w1.data, 0, 1), w1.data, 2, 4),
                      w0.data[0] % 16 - 2, true, 0, 2, s.checksumOut)
  {
    FirstIs(s, w0);
    SecondIs(CicsWord(s, w0), w1);
  }

  lemma TwoWordsSummed(d0: seq<Byte>, d1: seq<Byte>, z: seq<Byte>)
    requires |d0| == |d1| == 8 && |z| >= 16 && d0[0..8] == z[0..8] && z[10] == 0 && z[11] == 0
    requires d1[0..2] == z[8..10] && d1[4..8] == z[12..16]
    ensures Sums(SumPick(SumPick(SumPick(ZERO_LANES, d0, 0, 4), d1, 0, 1), d1, 2, 4), WordSum(z[..16]))
  {
    assert z[..0] == [];
    NoneAdded();
    PickPrefix(ZERO_LANES, d0, z, 0, 0, 4);
    PickSecond(SumPick(ZERO_LANES, d0, 0, 4), d1, z);
  }

  /** After `k` words. */
  ghost predicate Going(s: Cics, q: seq<U16>, b: seq<Byte>, k: nat) {
    Ipv4(b) && (Reading(s, q, Blank(b), HeaderWords(b), k) || Summed(s, q, IpChecksum(b)))
  }

  lemma FirstTwo(t: seq<Cics>, ws: seq<AxiWord>, b: seq<Byte>)
    requires Burst(ws, b) && Ipv4(b) && Trace(t, ws) && CicsIdle(t[0])
    ensures |ws| > 2 && Going(t[2], t[0].checksumOut, b, 2)
  {
    HeaderBytes(ws, b);
    TwoWordsSummed(ws[0].data, ws[1].data, Blank(b));
    AfterTwo(t[0], ws[0], t[1], ws[1], t[2]);
  }

  predicate Trace(t: seq<Cics>, ws: seq<AxiWord>) {
    |t| == |ws| + 1 && forall k {:trigger ws[k]} :: 0 <= k < |ws| ==> CicsStep(t[k], ws[k], t[k + 1])
  }

  lemma Completed(s: Cics, q: seq<U16>, z: seq<Byte>, h: nat)
    requires 4 * h <= |z| && s.checksumOut == q && s.wordCount == 2 && s.headerLen == 0 && s.state == 0
    requires Sums(s.sums, WordSum(z[..4 * h]))
    ensures Summed(Complete(s), q, HeaderSum(z, h))
  {
    SumsCombine(s.sums, WordSum(z[..4 * h]));
    Rfc1071IsOnes(z[..4 * h]);
    InvertIs(Combine(s.sums));
  }

  lemma LastIs(s: Cics, w: AxiWord, hi: nat)
    requires s.wordCount == 2 && 3 <= s.headerLen <= 4 && hi == 2 * (s.headerLen - 2)
    ensures CicsAdd(s, w) ==
            s.(sums := SumPick(s.sums, w.data, 0, hi), headerLen := 0, written := false)
  {
  }

  /** The last word of the header: two lanes or four. */
  lemma LastStep(r: Cics, s: Lanes, d: seq<Byte>, q: seq<U16>, z: seq<Byte>, h: nat, at: nat, hi: nat)
    requires r.checksumOut == q && r.wordCount == 2 && r.headerLen == 0 && r.state == 0 && !r.written
    requires |d| == 8 && hi <= 4 && r.sums == SumPick(s, d, 0, hi)
    requires at % 2 == 0 && at + 2 * hi == 4 * h <= |z| && Sums(s, WordSum(z[..at])) && d[0..2 * hi] == z[at..at
        + 2 * hi]
    ensures Summed(Settled(r), q, HeaderSum(z, h))
  {
    PickPrefix(s, d, z, at, 0, hi);
    LastSettles(r, q, z, h);
  }

  lemma LastSettles(r: Cics, q: seq<U16>, z: seq<Byte>, h: nat)
    requires 4 * h <= |z| && r.checksumOut == q && r.wordCount == 2 && r.headerLen == 0 && r.state == 0 && !r.written
    requires Sums(r.sums, WordSum(z[..4 * h]))
    ensures Summed(Settled(r), q, HeaderSum(z, h))
  {
    SettledIs(r);
    Completed(r, q, z, h);
  }

  lemma MoreIs(s: Cics, w: AxiWord)
    requires s.wordCount == 2 && 4 < s.headerLen < 16
    ensures CicsAdd(s, w) == s.(sums := SumPick(s.sums, w.data, 0, 4), headerLen := s.headerLen - 2)
  {
  }

  lemma MoreStep(s: Cics, r: Cics, d: seq<Byte>, q: seq<U16>, z: seq<Byte>, h: nat, k: nat)
    requires Reading(s, q, z, h, k) && s.headerLen > 4 && |d| == 8 && d[0..8] == z[8 * k..8 * k + 8]
    requires r == s.(sums := SumPick(s.sums, d, 0, 4), headerLen := s.headerLen - 2)
    ensures Reading(r, q, z, h, k + 1)
  {
    PickPrefix(s.sums, d, z, 8 * k, 0, 4);
    ReadOn(s, r, SumPick(s.sums, d, 0, 4), q, z, h, k);
  }

  lemma ReadOn(s: Cics, r: Cics, n: Lanes, q: seq<U16>, z: seq<Byte>, h: nat, k: nat)
    requires Reading(s, q, z, h, k) && s.headerLen > 4 && r == s.(sums := n, headerLen := s.headerLen - 2)
    requires Sums(n, WordSum(z[..8 * k + 8]))
    ensures Reading(r, q, z, h, k + 1)
  {
    assert 8 * (k + 1) == 8 * k + 8;
  }

  lemma HeaderWordIs(ws: seq<AxiWord>, b: seq<Byte>, k: nat, hi: nat)
    requires Burst(ws, b) && Ipv4(b) && 2 <= k && 1 <= hi <= 4 && 8 * k + 2 * hi <= |b|
    ensures k < |ws| && ws[k].data[0..2 * hi] == Blank(b)[8 * k..8 * k + 2 * hi]
  {
    WordAt(ws, b, k, 2 * hi);
    PickSlice(ws[k], b, 8 * k, 0, 2 * hi, 2 * hi);
  }

  lemma NextWord(s: Cics, ws: seq<AxiWord>, b: seq<Byte>, q: seq<U16>, k: nat)
    requires Burst(ws, b) && Ipv4(b) && 2 <= k < |ws|
    requires Going(s, q, b, k)
    ensures Going(Settled(CicsAdd(s, ws[k])), q, b, k + 1)
  {
    if Reading(s, q, Blank(b), HeaderWords(b), k) {
      if s.headerLen <= 4 {
        var hi := 2 * (s.headerLen - 2);
        HeaderWordIs(ws, b, k, hi);
        LastIs(s, ws[k], hi);
        LastStep(CicsAdd(s, ws[k]), s.sums, ws[k].data, q, Blank(b), HeaderWords(b), 8 * k, hi);
      } else {
        HeaderWordIs(ws, b, k, 4);
        MoreIs(s, ws[k]);
        MoreStep(s, CicsAdd(s, ws[k]), ws[k].data, q, Blank(b), HeaderWords(b), k);
      }
    }
  }

  lemma {:induction false} ChecksumComputed(t: seq<Cics>, ws: seq<AxiWord>, b: seq<Byte>, q: seq<U16>, k: nat)
    requires Burst(ws, b) && Ipv4(b) && Trace(t, ws) && CicsIdle(t[0]) && t[0].checksumOut == q && 2 <= k < |ws|
    ensures Going(t[k], q, b, k)
    decreases k
  {
    if k == 2 {
      FirstTwo(t, ws, b);
    } else {
      ChecksumComputed(t, ws, b, q, k - 1);
      OneMore(t[k - 1], t[k], ws, b, q, k - 1);
    }
  }

  lemma OneMore(s: Cics, r: Cics, ws: seq<AxiWord>, b: seq<Byte>, q: seq<U16>, k: nat)
    requires Burst(ws, b) && Ipv4(b) && 2 <= k < |ws| - 1 && CicsStep(s, ws[k], r)
    requires Going(s, q, b, k)
    ensures Going(r, q, b, k + 1)
  {
    NotLast(ws, b, k);
    NextIs(s, ws[k]);
    NextWord(s, ws, b, q, k);
  }

  lemma NotLast(ws: seq<AxiWord>, b: seq<Byte>, k: nat)
    requires Burst(ws, b) && k < |ws| - 1
    ensures FullWord(ws[k])
  {
    PackedAt(ws, b, k);
  }

  lemma LastWord(s: Cics, r: Cics, ws: seq<AxiWord>, b: seq<Byte>, q: seq<U16>)
    requires Burst(ws, b) && Ipv4(b) && |ws| > 2 && CicsStep(s, ws[|ws| - 1], r)
    requires Going(s, q, b, |ws| - 1)
    ensures CicsIdle(r) && r.checksumOut == q + [IpChecksum(b)]
  {
    var n := |ws| - 1;
    NextWord(s, ws, b, q, n);
    NextIs(s, ws[n]);
    PackedAt(ws, b, n);
  }

  /** Every packet gets exactly one checksum, that of its header, whatever its header length;
      the registers are then as they were. */
  lemma ChecksumIsRfc791(s: Cics, ws: seq<AxiWord>, b: seq<Byte>)
    requires Burst(ws, b) && Ipv4(b) && CicsIdle(s)
    ensures var r := CicsRun(s, ws)[|ws|];
            CicsIdle(r) && r.checksumOut == s.checksumOut + [IpChecksum(b)]
  {
    var t, n := CicsRun(s, ws), |ws| - 1;
    HeaderBytes(ws, b);
    ChecksumComputed(t, ws, b, s.checksumOut, n);
    LastWord(t[n], t[n + 1], ws, b, s.checksumOut);
  }

  // ---------------------------------------------------------------- ip_checksum_insert

  datatype Ici = Ici(wordCount: nat, checksumIn: seq<U16>, dataOut: seq<AxiWord>)

  /** Bytes 10 and 11 of the packet are bytes 2 and 3 of its second word. */
  function PutSum(w: AxiWord, c: U16): AxiWord {
    w.(data := PutWord(w.data, 2, c))
  }

  /** A word that waits for its checksum is not read. */
  function IciWord(s: Ici, w: AxiWord): Ici {
    if s.wordCount == 1 && s.checksumIn == [] then s
    else
      var r := match s.wordCount
        case 0 => s.(dataOut := s.dataOut + [w], wordCount := 1)
        case 1 => Ici(2, s.checksumIn[1..], s.dataOut + [PutSum(w, s.checksumIn[0])])
        case _ => s.(dataOut := s.dataOut + [w]);
      if w.last then r.(wordCount := 0) else r
  }

  function IciAfter(s: Ici, ws: seq<AxiWord>, k: nat): Ici
    requires k <= |ws|
    decreases k
  {
    if k == 0 then s else IciWord(IciAfter(s, ws, k - 1), ws[k - 1])
  }

  /** The packet with the checksum in its second word. */
  function Inserted(ws: seq<AxiWord>, c: U16): seq<AxiWord>
    requires |ws| > 1
  {
    ws[1 := PutSum(ws[1], c)]
  }

  lemma IciOne(s: Ici, ws: seq<AxiWord>, k: nat)
    requires k < |ws|
    ensures IciAfter(s, ws, k + 1) == IciWord(IciAfter(s, ws, k), ws[k])
  {
  }

  lemma IciTwo(s: Ici, ws: seq<AxiWord>, c: U16, q: seq<U16>)
    requires |ws| > 2 && s.wordCount == 0 && s.checksumIn == [c] + q && !ws[0].last && !ws[1].last
    ensures IciAfter(s, ws, 2) == Ici(2, q, s.dataOut + Inserted(ws, c)[..2])
  {
    IciOne(s, ws, 0);
    IciOne(s, ws, 1);
    assert s.checksumIn[0] == c && s.checksumIn[1..] == q;
    assert s.dataOut + Inserted(ws, c)[..2] == s.dataOut + [ws[0]] + [PutSum(ws[1], c)];
  }

  lemma {:induction false} IciInserts(s: Ici, ws: seq<AxiWord>, c: U16, q: seq<U16>, k: nat)
    requires Packed(ws) && 2 <= k <= |ws| && |ws| > 2 && s.wordCount == 0 && s.checksumIn == [c] + q
    ensures IciAfter(s, ws, k) == Ici(if k < |ws| then 2 else 0, q, s.dataOut + Inserted(ws, c)[..k])
    decreases k
  {
    var f := ws[..|ws| - 1];
    assert FullWord(f[0]) && FullWord(f[1]);
    if k == 2 {
      IciTwo(s, ws, c, q);
    } else {
      IciInserts(s, ws, c, q, k - 1);
      IciOne(s, ws, k - 1);
      assert k < |ws| ==> FullWord(f[k - 1]);
      assert s.dataOut + Inserted(ws, c)[..k] == s.dataOut + Inserted(ws, c)[..k - 1] + [ws[k - 1]];
    }
  }

  lemma PutInSecond(d0: seq<Byte>, d1: seq<Byte>, t: seq<Byte>, c: U16)
    requires |d0| == |d1| == 8
    ensures PutWord(d0 + (d1 + t), 10, c) == d0 + (PutWord(d1, 2, c) + t)
  {
  }

  lemma TwoInFront(w0: AxiWord, w1: AxiWord, t: seq<AxiWord>)
    requires FullWord(w0) && FullWord(w1) && Packed(t)
    ensures Burst([w0] + ([w1] + t), w0.data + (w1.data + Bytes(t)))
  {
    PackedCons(w1, t);
    FullCons(w1, t);
    PackedCons(w0, [w1] + t);
    FullCons(w0, [w1] + t);
  }

  lemma InsertedBytes(ws: seq<AxiWord>, b: seq<Byte>, c: U16)
    requires Burst(ws, b) && |ws| > 2
    ensures |b| > 16 && Burst(Inserted(ws, c), PutWord(b, 10, c))
  {
    Next(ws);
    Next(ws[1..]);
    var t := ws[1..][1..];
    assert ws == [ws[0]] + ([ws[1]] + t) && Inserted(ws, c) == [ws[0]] + ([PutSum(ws[1], c)] + t);
    NotEmpty(t);
    TwoInFront(ws[0], ws[1], t);
    TwoInFront(ws[0], PutSum(ws[1], c), t);
    PutInSecond(ws[0].data, ws[1].data, Bytes(t), c);
  }

  lemma NotEmpty(ws: seq<AxiWord>)
    requires Packed(ws)
    ensures |Bytes(ws)| > 0
  {
  }

  // ---------------------------------------------------------------- handle_arp_reply

  /** A MAC address, the first byte on the wire first. */
  type Mac = b: seq<Byte> | |b| == 6 witness [0, 0, 0, 0, 0, 0]

  datatype MwState = WAIT_LOOKUP | DROP | WRITE_FIRST | WRITE

  /** An address in `arpIn` is a hit. */
  datatype Mw = Mw(
    state: MwState, prev: AxiWord, writeLast: bool,
    arpIn: seq<Option<Mac>>, dataIn: seq<AxiWord>, dataOut: seq<AxiWord>)

  /** The destination address and the first third of our own. */
  function AddressWord(mac: Mac, my: Mac): AxiWord {
    Word(mac + my[..2], 0xFF, false)
  }

  /** The rest of our address, the type of IPv4 and the first two bytes of the packet. */
  function TypeWord(my: Mac, w: AxiWord): AxiWord {
    Word(my[2..] + [0x08, 0x00] + w.data[..2], 0xFF, false)
  }

  /** `sent` tells whether the word that was sent with `w`, if any, ends the frame. */
  function MwRead(s: Mw, w: AxiWord, sent: bool): Mw {
    if w.last then s.(state := WAIT_LOOKUP, writeLast := !sent) else s
  }

  /** One clock cycle with room in the output. A packet of one or two bytes, which would leave
      an empty last word, does not arise. */
  function MwStep(my: Mac, s: Mw): Mw {
    if s.writeLast then
      if KeepToLen(s.prev.keep) <= 2 then s
      else s.(dataOut := s.dataOut + [ShiftOut(2, s.prev)], writeLast := false)
    else match s.state
    case WAIT_LOOKUP =>
      if s.arpIn == [] then s
      else if s.arpIn[0].None? then s.(arpIn := s.arpIn[1..], state := DROP)
      else s.(arpIn := s.arpIn[1..], dataOut := s.dataOut + [AddressWord(s.arpIn[0].value, my)], state := WRITE_FIRST)
    case WRITE_FIRST =>
      if s.dataIn == [] then s
      else
        var w := s.dataIn[0];
        MwRead(s.(dataIn := s.dataIn[1..], dataOut := s.dataOut + [TypeWord(my, w)], prev := w, state := WRITE), w,
            false)
    case WRITE =>
      if s.dataIn == [] then s
      else
        var w := s.dataIn[0];
        MwRead(s.(dataIn := s.dataIn[1..], dataOut := s.dataOut + [Shift(2, s.prev, w)], prev := w), w,
               KeepToLen(w.keep) <= 2)
    case DROP =>
      if s.dataIn == [] then s
      else MwRead(s.(dataIn := s.dataIn[1..]), s.dataIn[0], true)
  }

  function MwRun(my: Mac, s: Mw, n: nat): Mw
    decreases n
  {
    if n == 0 then s else MwRun(my, MwStep(my, s), n - 1)
  }

  predicate MwIdle(s: Mw) {
    s.state == WAIT_LOOKUP && !s.writeLast
  }

  lemma MwTwo(my: Mac, s: Mw, k: nat)
    ensures MwRun(my, s, k + 2) == MwRun(my, MwStep(my, MwStep(my, s)), k)
  {
    var m := MwStep(my, s);
    assert MwRun(my, s, k + 2) == MwRun(my, m, k + 1);
  }

  predicate MwTail(s: Mw, prev: AxiWord, ws: seq<AxiWord>, rest: seq<AxiWord>) {
    s.state == WRITE && !s.writeLast && s.prev == prev && Packed(ws) && s.dataIn == ws + rest
  }

  /** A packet is through, and `out` was sent since `s`. */
  predicate MwDone(s: Mw, r: Mw, out: seq<AxiWord>, rest: seq<AxiWord>) {
    MwIdle(r) && r.dataIn == rest && r.dataOut == s.dataOut + out && r.arpIn == s.arpIn
  }

  lemma MwLast(my: Mac, s: Mw, prev: AxiWord, w: AxiWord, rest: seq<AxiWord>) returns (n: nat)
    requires MwTail(s, prev, [w], rest)
    ensures MwDone(s, MwRun(my, s, n), ShiftBy(2, prev, [w]), rest)
  {
    assert s.dataIn[0] == w && s.dataIn[1..] == rest;
    var m := MwStep(my, s);
    if KeepToLen(w.keep) > 2 {
      n := 2;
      assert m.writeLast && m.prev == w && m.state == WAIT_LOOKUP;
      assert MwRun(my, m, 1) == MwStep(my, m);
      assert m.dataOut + [ShiftOut(2, w)] == s.dataOut + ([Shift(2, prev, w)] + [ShiftOut(2, w)]);
    } else {
      n := 1;
      assert MwRun(my, s, 1) == m;
    }
  }

  lemma MwMore(my: Mac, s: Mw, prev: AxiWord, ws: seq<AxiWord>, rest: seq<AxiWord>)
    requires MwTail(s, prev, ws, rest) && |ws| > 1
    ensures var m := MwStep(my, s);
            MwTail(m, ws[0], ws[1..], rest) && m.dataOut == s.dataOut + [Shift(2, prev, ws[0])] && m.arpIn == s.arpIn
  {
    Next(ws);
    assert s.dataIn[0] == ws[0] && s.dataIn[1..] == ws[1..] + rest;
  }

  lemma {:induction false} MwTailRuns(my: Mac, s: Mw, prev: AxiWord, ws: seq<AxiWord>, rest: seq<AxiWord>)
    returns (n: nat)
    requires MwTail(s, prev, ws, rest)
    ensures MwDone(s, MwRun(my, s, n), ShiftBy(2, prev, ws), rest)
    decreases |ws|
  {
    if |ws| == 1 {
      assert ws == [ws[0]];
      n := MwLast(my, s, prev, ws[0], rest);
    } else {
      Next(ws);
      MwMore(my, s, prev, ws, rest);
      var k := MwTailRuns(my, MwStep(my, s), ws[0], ws[1..], rest);
      n := k + 1;
      Assoc(s.dataOut, Shift(2, prev, ws[0]), ShiftBy(2, ws[0], ws[1..]));
    }
  }

  lemma MwHead(my: Mac, s: Mw, mac: Mac, a: seq<Option<Mac>>, w: AxiWord, t: seq<AxiWord>)
    requires MwIdle(s) && s.arpIn == [Some(mac)] + a && s.dataIn == [w] + t && !w.last
    ensures MwStep(my, MwStep(my, s)) == s.(state := WRITE, prev := w, arpIn := a, dataIn := t,
                                            dataOut := s.dataOut + [AddressWord(mac, my)] + [TypeWord(my, w)])
  {
    assert s.arpIn[0] == Some(mac) && s.arpIn[1..] == a && s.dataIn[0] == w && s.dataIn[1..] == t;
    var m := MwStep(my, s);
    assert m == s.(state := WRITE_FIRST, arpIn := a, dataOut := s.dataOut + [AddressWord(mac, my)]);
  }

  /** The words of the frame around a packet. */
  function Frame(my: Mac, mac: Mac, ws: seq<AxiWord>): seq<AxiWord>
    requires Packed(ws) && |ws| > 1
  {
    Next(ws);
    [AddressWord(mac, my)] + ([TypeWord(my, ws[0])] + ShiftBy(2, ws[0], ws[1..]))
  }

  /** A hit: the packet leaves in a frame. */
  lemma Wrapped(my: Mac, s: Mw, mac: Mac, a: seq<Option<Mac>>, ws: seq<AxiWord>, rest: seq<AxiWord>) returns (n: nat)
    requires MwIdle(s) && s.arpIn == [Some(mac)] + a && s.dataIn == ws + rest && Packed(ws) && |ws| > 1
    ensures var r := MwRun(my, s, n);
            MwIdle(r) && r.arpIn == a && r.dataIn == rest && r.dataOut == s.dataOut + Frame(my, mac, ws)
  {
    Next(ws);
    assert s.dataIn == [ws[0]] + (ws[1..] + rest);
    MwHead(my, s, mac, a, ws[0], ws[1..] + rest);
    var k := MwTailRuns(my, MwStep(my, MwStep(my, s)), ws[0], ws[1..], rest);
    MwTwo(my, s, k);
    n := k + 2;
    Assoc(s.dataOut + [AddressWord(mac, my)], TypeWord(my, ws[0]), ShiftBy(2, ws[0], ws[1..]));
    Assoc(s.dataOut, AddressWord(mac, my), [TypeWord(my, ws[0])] + ShiftBy(2, ws[0], ws[1..]));
  }

  lemma {:induction false} DropRuns(my: Mac, s: Mw, ws: seq<AxiWord>, rest: seq<AxiWord>)
    requires s.state == DROP && !s.writeLast && Packed(ws) && s.dataIn == ws + rest
    ensures MwRun(my, s, |ws|) == s.(state := WAIT_LOOKUP, dataIn := rest)
    decreases |ws|
  {
    assert s.dataIn[0] == ws[0] && s.dataIn[1..] == ws[1..] + rest;
    if |ws| > 1 {
      Next(ws);
      DropRuns(my, MwStep(my, s), ws[1..], rest);
    } else {
      assert ws[1..] + rest == rest;
      assert MwRun(my, s, 1) == MwStep(my, s);
    }
  }

  /** A miss: the whole packet is dropped, and nothing else. */
  lemma Missed(my: Mac, s: Mw, a: seq<Option<Mac>>, ws: seq<AxiWord>, rest: seq<AxiWord>)
    requires MwIdle(s) && s.arpIn == [None] + a && s.dataIn == ws + rest && Packed(ws)
    ensures MwRun(my, s, 1 + |ws|) == s.(arpIn := a, dataIn := rest)
  {
    assert s.arpIn[0] == None && s.arpIn[1..] == a;
    DropRuns(my, MwStep(my, s), ws, rest);
  }

  /** The Ethernet header in front of an IPv4 packet. */
  function Ethernet(mac: Mac, my: Mac): seq<Byte> {
    mac + my + [0x08, 0x00]
  }

  lemma AroundHeader(mac: Mac, my: Mac, d: seq<Byte>, t: seq<Byte>)
    requires |d| == 8
    ensures (mac + my[..2]) + ((my[2..] + [0x08, 0x00] + d[..2]) + (d[2..] + t)) == Ethernet(mac, my) + (d + t)
  {
    assert my == my[..2] + my[2..];
    assert d == d[..2] + d[2..];
  }

  lemma FrameBytes(my: Mac, mac: Mac, ws: seq<AxiWord>)
    requires Packed(ws) && |ws| > 1
    ensures Burst(Frame(my, mac, ws), Ethernet(mac, my) + Bytes(ws))
  {
    Next(ws);
    FullCons(ws[0], ws[1..]);
    var q := ShiftBy(2, ws[0], ws[1..]);
    ShiftByBytes(2, ws[0], ws[1..]);
    PackedCons(TypeWord(my, ws[0]), q);
    FullCons(TypeWord(my, ws[0]), q);
    PackedCons(AddressWord(mac, my), [TypeWord(my, ws[0])] + q);
    FullCons(AddressWord(mac, my), [TypeWord(my, ws[0])] + q);
    AroundHeader(mac, my, ws[0].data, Bytes(ws[1..]));
  }

  // ---------------------------------------------------------------- all three stages

  /** The second and the third stage. */
  lemma InsertsAndWraps(i: Ici, m: Mw, my: Mac, mac: Mac, ws: seq<AxiWord>, b: seq<Byte>) returns (n: nat)
    requires Burst(ws, b) && Ipv4(b) && i.checksumIn == [IpChecksum(b)]
    requires i.wordCount == 0 && i.dataOut == [] && MwIdle(m) && m.dataOut == []
    ensures var y := IciAfter(i, ws, |ws|);
            var z := MwRun(my, m.(arpIn := [Some(mac)], dataIn := y.dataOut), n);
            && y.wordCount == 0 && y.checksumIn == [] && MwIdle(z) && z.arpIn == [] && z.dataIn == []
            && Burst(z.dataOut, Ethernet(mac, my) + WithChecksum(b))
  {
    HeaderBytes(ws, b);
    assert i.checksumIn == [IpChecksum(b)] + [];
    IciInserts(i, ws, IpChecksum(b), [], |ws|);
    var f := Inserted(ws, IpChecksum(b));
    assert [] + f[..|ws|] == f;
    InsertedBytes(ws, b, IpChecksum(b));
    assert [Some(mac)] == [Some(mac)] + [] && f == f + [];
    n := Wrapped(my, m.(arpIn := [Some(mac)], dataIn := f), mac, [], f, []);
    FrameBytes(my, mac, f);
    assert [] + Frame(my, mac, f) == Frame(my, mac, f);
  }

  /** The stages in sequence: a packet leaves in one frame, with its checksum and otherwise
      unchanged, and every stage is ready for the next packet. */
  lemma EncodesPacket(c: Cics, i: Ici, m: Mw, my: Mac, mac: Mac, ws: seq<AxiWord>, b: seq<Byte>) returns (n: nat)
    requires Burst(ws, b) && Ipv4(b)
    requires CicsIdle(c) && c.checksumOut == []
    requires i.wordCount == 0 && i.dataOut == [] && MwIdle(m) && m.dataOut == []
    ensures var x := CicsRun(c, ws)[|ws|];
            var y := IciAfter(i.(checksumIn := x.checksumOut), ws, |ws|);
            var z := MwRun(my, m.(arpIn := [Some(mac)], dataIn := y.dataOut), n);
            && CicsIdle(x) && y.wordCount == 0 && y.checksumIn == [] && MwIdle(z) && z.arpIn == [] && z.dataIn == []
            && Burst(z.dataOut, Ethernet(mac, my) + WithChecksum(b))
  {
    ChecksumIsRfc791(c, ws, b);
    n := InsertsAndWraps(i.(checksumIn := CicsRun(c, ws)[|ws|].checksumOut), m, my, mac, ws, b);
  }

  // ---------------------------------------------------------------- the hardware's form

  /** The static variables of `compute_ip_checksum` and its outputs. */
  class ComputeIpChecksum {
    const cicsIpSums: SumRegisters
    var cicsIpHeaderLen: nat
    var cicsChecksumWritten: bool
    var cicsWordCount: nat
    var cicsState: nat
    var dataOut: seq<AxiWord>
    var checksumFifoOut: seq<U16>

    ghost predicate Valid() {
      cicsIpSums.Valid()
    }

    ghost function Abs(): Cics
      reads this, cicsIpSums.sums
      requires Valid()
    {
      Cics(cicsIpSums.Abs(), cicsIpHeaderLen, cicsChecksumWritten, cicsState, cicsWordCount, checksumFifoOut)
    }

    constructor ()
      ensures Valid() && fresh(cicsIpSums.sums) && CicsIdle(Abs()) && dataOut == [] && checksumFifoOut == []
    {
      cicsIpSums := new SumRegisters();
      cicsIpHeaderLen, cicsChecksumWritten, cicsWordCount, cicsState := 0, true, 0, 0;
      dataOut, checksumFifoOut := [], [];
    }

    /** A cycle in which the sums are combined. */
    method Combining()
      requires Valid() && !cicsChecksumWritten
      modifies this, cicsIpSums.sums
      ensures Abs() == CicsTick(old(Abs())) && dataOut == old(dataOut)
    {
      match cicsState {
        case 0 =>
          cicsIpSums.AddTo(0, 2);
          cicsIpSums.AddTo(1, 3);
          cicsState := 1;
        case 1 =>
          cicsIpSums.AddTo(0, 1);
          cicsState := 2;
        case 2 =>
          var checksum := cicsIpSums.Complement();
          checksumFifoOut := checksumFifoOut + [checksum];
          cicsState := 3;
        case _ =>
          cicsIpSums.Clear();
          cicsChecksumWritten, cicsState := true, 0;
      }
    }

    /** The words behind the second one. */
    method ReadRest(currWord: AxiWord)
      requires Valid() && cicsWordCount >= 2
      modifies this, cicsIpSums.sums
      ensures Abs() == CicsAdd(old(Abs()), currWord) && dataOut == old(dataOut) + [currWord]
    {
      dataOut := dataOut + [currWord];
      if cicsIpHeaderLen == 3 {
        cicsIpSums.AddLanes(currWord.data, 0, 2);
        cicsIpHeaderLen, cicsChecksumWritten := 0, false;
      } else if cicsIpHeaderLen == 4 {
        cicsIpSums.AddLanes(currWord.data, 0, 4);
        cicsIpHeaderLen, cicsChecksumWritten := 0, false;
      } else if cicsIpHeaderLen != 0 {
        cicsIpSums.AddLanes(currWord.data, 0, 4);
        cicsIpHeaderLen := (cicsIpHeaderLen - 2) % 16;
      }
    }

    /** A cycle in which a word is read. */
    method ReadWord(currWord: AxiWord)
      requires Valid() && cicsChecksumWritten
      modifies this, cicsIpSums.sums
      ensures Abs() == CicsWord(old(Abs()), currWord) && dataOut == old(dataOut) + [currWord]
    {
      match cicsWordCount {
        case 0 =>
          dataOut := dataOut + [currWord];
          cicsIpHeaderLen := currWord.data[0] % 16;
          cicsIpSums.AddLanes(currWord.data, 0, 4);
          cicsWordCount := 1;
        case 1 =>
          dataOut := dataOut + [currWord];
          cicsIpSums.AddLanes(currWord.data, 0, 1);
          cicsIpSums.AddLanes(currWord.data, 2, 4);
          cicsIpHeaderLen := (cicsIpHeaderLen - 2) % 16;
          cicsWordCount := 2;
        case _ => ReadRest(currWord);
      }
      if currWord.last {
        cicsWordCount := 0;
      }
    }
  }

  /** The static variable of `ip_checksum_insert` and its FIFOs. */
  class ChecksumInsert {
    var iciWordCount: nat
    var checksumFifoIn: seq<U16>
    var dataOut: seq<AxiWord>

    ghost function Abs(): Ici
      reads this
    {
      Ici(iciWordCount, checksumFifoIn, dataOut)
    }

    constructor ()
      ensures Abs() == Ici(0, [], [])
    {
      iciWordCount, checksumFifoIn, dataOut := 0, [], [];
    }

    /** `read` tells whether the word was taken. */
    method ReadWord(currWord: AxiWord) returns (read: bool)
      modifies this
      ensures Abs() == IciWord(old(Abs()), currWord)
      ensures read == !(old(iciWordCount) == 1 && old(checksumFifoIn) == [])
    {
      read := iciWordCount != 1 || checksumFifoIn != [];
      if !read {
        return;
      }
      match iciWordCount {
        case 0 =>
          dataOut, iciWordCount := dataOut + [currWord], 1;
        case 1 =>
          var checksum := checksumFifoIn[0];
          checksumFifoIn := checksumFifoIn[1..];
          dataOut := dataOut + [currWord.(data := currWord.data[2 := checksum / 0x100][3 := checksum % 0x100])];
          iciWordCount := 2;
        case _ =>
          dataOut := dataOut + [currWord];
      }
      if currWord.last {
        iciWordCount := 0;
      }
    }
  }

  /** The static variables of `handle_arp_reply` and its FIFOs. */
  class MacWrapper {
    const myMacAddress: Mac
    var mwState: MwState
    var mwPrevWord: AxiWord
    var mwWriteLast: bool
    var arpTableIn: seq<Option<Mac>>
    var dataIn: seq<AxiWord>
    var dataOut: seq<AxiWord>

    ghost function Abs(): Mw
      reads this
    {
      Mw(mwState, mwPrevWord, mwWriteLast, arpTableIn, dataIn, dataOut)
    }

    constructor (my: Mac)
      ensures myMacAddress == my && MwIdle(Abs()) && arpTableIn == [] && dataIn == [] && dataOut == []
    {
      myMacAddress := my;
      mwState, mwPrevWord, mwWriteLast := WAIT_LOOKUP, ZERO_WORD, false;
      arpTableIn, dataIn, dataOut := [], [], [];
    }

    /** The lookup of a new packet. */
    method WaitLookup()
      requires mwState == WAIT_LOOKUP && !mwWriteLast
      modifies this
      ensures Abs() == MwStep(myMacAddress, old(Abs()))
    {
      if arpTableIn != [] {
        var reply := arpTableIn[0];
        arpTableIn := arpTableIn[1..];
        if reply.Some? {
          dataOut := dataOut + [Word(reply.value + myMacAddress[..2], 0xFF, false)];
          mwState := WRITE_FIRST;
        } else {
          mwState := DROP;
        }
      }
    }

    /** A word of the packet: `last` is what `sendWord.last` holds afterwards. */
    method TakeWord(currWord: AxiWord) returns (last: bool)
      requires mwState != WAIT_LOOKUP && !mwWriteLast
      modifies this
      ensures dataIn == old(dataIn)
      ensures var s := old(Abs()).(dataIn := [currWord] + old(dataIn));
              MwStep(myMacAddress, s) == MwRead(Abs(), currWord, last)
    {
      assert ([currWord] + dataIn)[1..] == dataIn;
      match mwState {
        case WRITE_FIRST =>
          dataOut := dataOut + [Word(myMacAddress[2..] + [0x08, 0x00] + currWord.data[..2], 0xFF, false)];
          last, mwPrevWord, mwState := false, currWord, WRITE;
        case WRITE =>
          last := KeepToLen(currWord.keep) <= 2;
          dataOut := dataOut + [Word(mwPrevWord.data[2..] + currWord.data[..2], ShiftKeep(2, currWord.keep), last)];
          mwPrevWord := currWord;
        case _ =>
          last := true;
      }
    }

    /** One clock cycle. */
    method Cycle()
      modifies this
      ensures Abs() == MwStep(myMacAddress, old(Abs()))
    {
      if mwWriteLast && KeepToLen(mwPrevWord.keep) > 2 {
        dataOut := dataOut + [ShiftOut(2, mwPrevWord)];
        mwWriteLast := false;
      } else if !mwWriteLast {
        Advance();
      }
    }

    method Advance()
      requires !mwWriteLast
      modifies this
      ensures Abs() == MwStep(myMacAddress, old(Abs()))
    {
      ghost var s := Abs();
      if mwState == WAIT_LOOKUP {
        WaitLookup();
      } else if dataIn != [] {
        var currWord := dataIn[0];
        dataIn := dataIn[1..];
        assert s == Abs().(dataIn := [currWord] + dataIn);
        var last := TakeWord(currWord);
        if currWord.last {
          mwState, mwWriteLast := WAIT_LOOKUP, !last;
        }
      }
    }
  }
}
