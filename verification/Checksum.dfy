/** The four-lane one's-complement checksums: `tx_compute_tcp_subchecksums` and
    `tx_compute_tcp_checksum` of tx_engine.cpp, and the summing and checking half of
    `rxCheckTCPchecksum` of rx_engine.cpp. The reference is section 1 of RFC 1071. */
module Checksum {
  import opened Toe
  import opened Axi

  // ---------------------------------------------------------------- RFC 1071

  /** The sum of the 16-bit big-endian words of `b`, an odd last byte padded with a zero. */
  function WordSum(b: seq<Byte>): nat {
    if b == [] then 0
    else if |b| == 1 then b[0] * 0x100
    else b[0] * 0x100 + b[1] + WordSum(b[2..])
  }

  /** Folding the carries into the sum until none is left. */
  function FoldCarries(n: nat): (r: nat)
    ensures r < 0x1_0000
    decreases n
  {
    if n < 0x1_0000 then n else FoldCarries(n / 0x1_0000 + n % 0x1_0000)
  }

  /** The one's-complement sum of the 16-bit words of `b`. */
  function Rfc1071(b: seq<Byte>): U16 {
    FoldCarries(WordSum(b))
  }

  // ---------------------------------------------------------------- the hardware

  /** `ap_uint<17>`. */
  type U17 = x: int | 0 <= x < 0x2_0000

  type Lanes = s: seq<U17> | |s| == 4 witness [0, 0, 0, 0]

  const ZERO_LANES: Lanes := [0, 0, 0, 0]

  /** `(s + (s >> 16)) & 0xFFFF` on a 17-bit register. */
  function Fold(s: U17): (r: U17)
    ensures r < 0x1_0000
  {
    (s + s / 0x1_0000) % 0x1_0000
  }

  /** Whether bit `i` of a mask is set. */
  predicate KeepBit(keep: int, i: nat)
    requires i < 8
  {
    (keep / [1, 2, 4, 8, 16, 32, 64, 128][i]) % 2 == 1
  }

  /** The 16-bit word that lane `i` takes from a word: two kept bytes, or one and a zero. */
  function LaneValue(w: AxiWord, i: nat): (v: U16)
    requires i < 4
  {
    var high: int, low: int := w.data[2 * i], w.data[2 * i + 1];
    if KeepBit(w.keep, 2 * i) && KeepBit(w.keep, 2 * i + 1) then high * 0x100 + low
    else if KeepBit(w.keep, 2 * i) then high * 0x100
    else 0
  }

  /** `sum += temp`, truncated to the 17-bit register, and the fold. */
  function AddLane(s: U17, v: U16): U17 {
    Fold((s + v) % 0x2_0000)
  }

  /** All four lanes; a lane without a kept byte is left alone. */
  function SumWord(s: Lanes, w: AxiWord): Lanes {
    seq(4, i requires 0 <= i < 4 =>
      if KeepBit(w.keep, 2 * i) then AddLane(s[i], LaneValue(w, i)) else s[i])
  }

  /** The lanes after a run of words. */
  function LaneSums(ws: seq<AxiWord>): Lanes {
    if ws == [] then ZERO_LANES else SumWord(LaneSums(ws[..|ws| - 1]), ws[|ws| - 1])
  }

  /** The lanes folded into one, as in `tx_compute_tcp_checksum`. */
  function Combine(s: Lanes): U17 {
    AddLane17(AddLane17(s[0], s[2]), AddLane17(s[1], s[3]))
  }

  function AddLane17(a: U17, b: U17): U17 {
    Fold((a + b) % 0x2_0000)
  }

  /** `~x` on a 17-bit register, of which 16 bits are kept. */
  function Invert(x: U17): U16 {
    (0x1_FFFF - x) % 0x1_0000
  }

  /** The checksum that the TX engine sends for the words of a pseudo header and segment. */
  function TxChecksum(ws: seq<AxiWord>): U16 {
    Invert(Combine(LaneSums(ws)))
  }

  // ---------------------------------------------------------------- one's-complement sums

  /** The representative of `n` modulo 65535, with 65535 and not 0 for a positive multiple. */
  function Ones(n: nat): (r: nat)
    ensures r < 0x1_0000
    ensures r == 0 <==> n == 0
  {
    if n == 0 then 0 else (n - 1) % 0xFFFF + 1
  }

  lemma {:induction false} AddMultiple(x: nat, k: nat)
    ensures (x + 0xFFFF * k) % 0xFFFF == x % 0xFFFF
  {
    if k > 0 {
      AddMultiple(x, k - 1);
      var y := x + 0xFFFF * (k - 1);
      assert x + 0xFFFF * k == y + 0xFFFF;
      assert (y + 0xFFFF) % 0xFFFF == y % 0xFFFF;
    }
  }

  lemma OnesMultiple(n: nat, k: nat)
    requires n > 0
    ensures Ones(n + 0xFFFF * k) == Ones(n)
  {
    AddMultiple(n - 1, k);
  }

  lemma OnesAdd(a: nat, v: nat)
    ensures Ones(Ones(a) + v) == Ones(a + v)
  {
    if a > 0 {
      var k := (a - 1) / 0xFFFF;
      assert a == Ones(a) + 0xFFFF * k;
      OnesMultiple(Ones(a) + v, k);
    }
  }

  lemma FoldIsOnes(x: U17)
    requires x < 0x1_FFFF
    ensures Fold(x) == Ones(x)
  {
  }

  lemma {:induction false} FoldCarriesIsOnes(n: nat)
    ensures FoldCarries(n) == Ones(n)
    decreases n
  {
    if n >= 0x1_0000 {
      var a, b := n / 0x1_0000, n % 0x1_0000;
      FoldCarriesIsOnes(a + b);
      assert n == a + b + 0xFFFF * a;
      OnesMultiple(a + b, a);
    }
  }

  /** Adding two folded lanes never overflows their 17 bits and stays a one's-complement sum. */
  lemma AddLaneIsOnes(a: nat, b: nat)
    ensures Ones(a) + Ones(b) < 0x2_0000
    ensures AddLane17(Ones(a), Ones(b)) == Ones(a + b)
  {
    FoldIsOnes(Ones(a) + Ones(b));
    OnesAdd(a, Ones(b));
    OnesAdd(b, a);
  }

  // ---------------------------------------------------------------- lanes and bytes

  lemma KeepBitIs(keep: int, i: nat)
    requires Contiguous(keep) && i < 8
    ensures KeepBit(keep, i) <==> i < KeepToLen(keep)
  {
  }

  function LaneTotal(ws: seq<AxiWord>, i: nat): nat
    requires i < 4
  {
    if ws == [] then 0 else LaneTotal(ws[..|ws| - 1], i) + LaneValue(ws[|ws| - 1], i)
  }

  lemma LaneStepIsOnes(w: AxiWord, n: nat, i: nat)
    requires i < 4
    ensures Ones(n + LaneValue(w, i)) == if KeepBit(w.keep, 2 * i) then AddLane(Ones(n), LaneValue(w, i)) else Ones(n)
  {
    AddLaneIsOnes(n, LaneValue(w, i));
    assert Ones(LaneValue(w, i)) == LaneValue(w, i);
  }

  lemma {:induction false} LaneSumsAreOnes(ws: seq<AxiWord>)
    ensures forall i: nat :: i < 4 ==> LaneSums(ws)[i] == Ones(LaneTotal(ws, i))
  {
    if ws != [] {
      var f, w := ws[..|ws| - 1], ws[|ws| - 1];
      LaneSumsAreOnes(f);
      forall i: nat | i < 4 ensures LaneSums(ws)[i] == Ones(LaneTotal(ws, i)) {
        LaneStepIsOnes(w, LaneTotal(f, i), i);
      }
    }
  }

  lemma {:induction false} WordSumConcat(a: seq<Byte>, b: seq<Byte>)
    requires |a| % 2 == 0
    ensures WordSum(a + b) == WordSum(a) + WordSum(b)
  {
    if a == [] {
      assert a + b == b;
    } else {
      WordSumConcat(a[2..], b);
      assert (a + b)[2..] == a[2..] + b;
    }
  }

  lemma WordSumOfKept(w: AxiWord)
    ensures WordSum(Kept(w)) == LaneValue(w, 0) + LaneValue(w, 1) + LaneValue(w, 2) + LaneValue(w, 3)
  {
    var k, n := Kept(w), KeepToLen(w.keep);
    forall i: nat | i < 8 ensures KeepBit(w.keep, i) <==> i < n { KeepBitIs(w.keep, i); }
    WordSumUpToEight(k);
  }

  lemma WordSumUpToEight(k: seq<Byte>)
    requires |k| <= 8
    ensures WordSum(k) == PairAt(k, 0) + PairAt(k, 2) + PairAt(k, 4) + PairAt(k, 6)
  {
    if |k| > 2 {
      var k2 := k[2..];
      if |k2| > 2 {
        var k4 := k2[2..];
        if |k4| > 2 {
          assert WordSum(k4) == PairAt(k4, 0) + WordSum(k4[2..]);
        }
        assert WordSum(k2) == PairAt(k2, 0) + WordSum(k4);
      }
      assert WordSum(k) == PairAt(k, 0) + WordSum(k2);
    }
  }

  /** The 16-bit word at position `i`, a missing byte counted as zero. */
  function PairAt(k: seq<Byte>, i: nat): nat {
    var high: int, low: int := if i < |k| then k[i] else 0, if i + 1 < |k| then k[i + 1] else 0;
    high * 0x100 + low
  }

  lemma LaneTotalSnoc(f: seq<AxiWord>, w: AxiWord, i: nat)
    requires i < 4
    ensures LaneTotal(f + [w], i) == LaneTotal(f, i) + LaneValue(w, i)
  {
    assert (f + [w])[..|f|] == f;
  }

  /** The words of all four lanes together. */
  function Totals(ws: seq<AxiWord>): nat {
    LaneTotal(ws, 0) + LaneTotal(ws, 1) + LaneTotal(ws, 2) + LaneTotal(ws, 3)
  }

  lemma TotalsSnoc(f: seq<AxiWord>, w: AxiWord)
    ensures Totals(f + [w]) == Totals(f) + WordSum(Kept(w))
  {
    WordSumOfKept(w);
    LaneTotalSnoc(f, w, 0);
    LaneTotalSnoc(f, w, 1);
    LaneTotalSnoc(f, w, 2);
    LaneTotalSnoc(f, w, 3);
  }

  lemma WordSumSnoc(f: seq<AxiWord>, w: AxiWord)
    requires AllFull(f)
    ensures WordSum(Bytes(f + [w])) == WordSum(Bytes(f)) + WordSum(Kept(w))
  {
    BytesSnoc(f, w);
    FullBytes(f);
    WordSumConcat(Bytes(f), Kept(w));
  }

  lemma {:induction false} FullTotals(ws: seq<AxiWord>)
    requires AllFull(ws)
    ensures WordSum(Bytes(ws)) == Totals(ws)
  {
    if ws != [] {
      var n := |ws| - 1;
      FullTotals(ws[..n]);
      TotalsSnoc(ws[..n], ws[n]);
      WordSumSnoc(ws[..n], ws[n]);
      assert ws == ws[..n] + [ws[n]];
    }
  }

  /** The lanes' words are the 16-bit words of the packet. */
  lemma PacketTotals(ws: seq<AxiWord>)
    requires Packed(ws)
    ensures WordSum(Bytes(ws)) == Totals(ws)
  {
    var n := |ws| - 1;
    FullTotals(ws[..n]);
    TotalsSnoc(ws[..n], ws[n]);
    WordSumSnoc(ws[..n], ws[n]);
    assert ws == ws[..n] + [ws[n]];
  }

  lemma CombineIsOnes(s: Lanes, t0: nat, t1: nat, t2: nat, t3: nat)
    requires s[0] == Ones(t0) && s[1] == Ones(t1) && s[2] == Ones(t2) && s[3] == Ones(t3)
    ensures Combine(s) == Ones(t0 + t1 + t2 + t3)
  {
    AddLaneIsOnes(t0, t2);
    AddLaneIsOnes(t1, t3);
    AddLaneIsOnes(t0 + t2, t1 + t3);
  }

  lemma Rfc1071IsOnes(b: seq<Byte>)
    ensures Rfc1071(b) == Ones(WordSum(b))
  {
    FoldCarriesIsOnes(WordSum(b));
  }

  lemma InvertIs(x: U16)
    ensures Invert(x) == 0xFFFF - x
  {
  }

  lemma CombinedLanes(ws: seq<AxiWord>)
    ensures Combine(LaneSums(ws)) == Ones(Totals(ws))
  {
    LaneSumsAreOnes(ws);
    CombineIsOnes(LaneSums(ws), LaneTotal(ws, 0), LaneTotal(ws, 1), LaneTotal(ws, 2), LaneTotal(ws, 3));
  }

  /** Refinement: the four 17-bit lanes of a packet combine to its RFC 1071 sum. */
  lemma LanesRefineRfc1071(ws: seq<AxiWord>)
    requires Packed(ws)
    ensures Combine(LaneSums(ws)) == Rfc1071(Bytes(ws))
    ensures TxChecksum(ws) == 0xFFFF - Rfc1071(Bytes(ws))
  {
    CombinedLanes(ws);
    PacketTotals(ws);
    Rfc1071IsOnes(Bytes(ws));
    InvertIs(Rfc1071(Bytes(ws)));
  }

  // ---------------------------------------------------------------- the receiver's test

  /** The registers of `rxCheckTCPchecksum` that hold the sums and the checking state. */
  datatype Checker = Checker(sums: Lanes, state: nat)

  /** One clock cycle after the last word: five states, the last of which gives a verdict. */
  function CheckTick(c: Checker): (Checker, Option<bool>) {
    var s := c.sums;
    match c.state
    case 0 => (Checker([Fold(s[0]), Fold(s[1]), Fold(s[2]), Fold(s[3])], 1), None)
    case 1 => (Checker([AddLane17(s[0], s[2]), AddLane17(s[1], s[3]), s[2], s[3]], 2), None)
    case 2 => (Checker(s[0 := AddLane17(s[0], s[1])], 3), None)
    case 3 => (Checker(s[0 := 0x1_FFFF - s[0]], 4), None)
    case _ => (Checker(ZERO_LANES, 0), Some(s[0] % 0x1_0000 == 0))
  }

  /** `n` clock cycles. */
  function CheckTicks(c: Checker, n: nat): (Checker, Option<bool>)
    requires n > 0
    decreases n
  {
    if n == 1 then CheckTick(c) else CheckTicks(CheckTick(c).0, n - 1)
  }

  /** The verdict on a packet, five cycles after its last word. */
  function RxVerdict(ws: seq<AxiWord>): bool {
    CheckTicks(Checker(LaneSums(ws), 0), 5).1 == Some(true)
  }

  lemma FirstTick(c: Checker, n: nat)
    requires n > 1
    ensures CheckTicks(c, n) == CheckTicks(CheckTick(c).0, n - 1)
  {
  }

  lemma TickFolds(s: Lanes)
    requires s[0] < 0x1_0000 && s[1] < 0x1_0000 && s[2] < 0x1_0000 && s[3] < 0x1_0000
    ensures CheckTick(Checker(s, 0)) == (Checker(s, 1), None)
  {
    assert [s[0], s[1], s[2], s[3]] == s;
  }

  lemma TicksCombine(s: Lanes)
    ensures var c := CheckTick(CheckTick(Checker(s, 1)).0).0; c.state == 3 && c.sums[0] == Combine(s)
  {
  }

  lemma TicksDecide(c: Checker)
    requires c.state == 3 && c.sums[0] < 0x1_0000
    ensures CheckTick(CheckTick(c).0) == (Checker(ZERO_LANES, 0), Some(c.sums[0] == 0xFFFF))
  {
    var d := CheckTick(c).0;
    assert d.state == 4 && d.sums[0] == 0x1_FFFF - c.sums[0];
  }

  lemma FiveTicks(s: Lanes)
    requires s[0] < 0x1_0000 && s[1] < 0x1_0000 && s[2] < 0x1_0000 && s[3] < 0x1_0000
    ensures CheckTicks(Checker(s, 0), 5) == (Checker(ZERO_LANES, 0), Some(Combine(s) == 0xFFFF))
  {
    var c1, c2 := Checker(s, 1), CheckTick(Checker(s, 1)).0;
    var c3 := CheckTick(c2).0;
    FirstTick(Checker(s, 0), 5);
    FirstTick(c1, 4);
    FirstTick(c2, 3);
    FirstTick(c3, 2);
    TickFolds(s);
    TicksCombine(s);
    TicksDecide(c3);
  }

  /** The receiver accepts a packet exactly when its one's-complement sum is all ones, and
      its registers are clear for the next packet either way. */
  lemma RxAcceptsAllOnes(ws: seq<AxiWord>)
    requires Packed(ws)
    ensures RxVerdict(ws) <==> Rfc1071(Bytes(ws)) == 0xFFFF
    ensures CheckTicks(Checker(LaneSums(ws), 0), 5).0 == Checker(ZERO_LANES, 0)
  {
    LaneSumsAreOnes(ws);
    FiveTicks(LaneSums(ws));
    LanesRefineRfc1071(ws);
  }

  // ---------------------------------------------------------------- sending and receiving

  /** `b` with the 16-bit big-endian word `v` at the even position `at`. */
  function PutWord(b: seq<Byte>, at: nat, v: U16): seq<Byte>
    requires at + 1 < |b|
  {
    b[at := v / 0x100][at + 1 := v % 0x100]
  }

  function GetWord(b: seq<Byte>, at: nat): U16
    requires at + 1 < |b|
  {
    var high: int, low: int := b[at], b[at + 1];
    high * 0x100 + low
  }

  lemma {:induction false} WordSumPut(b: seq<Byte>, at: nat, v: U16)
    requires at % 2 == 0 && at + 1 < |b|
    ensures WordSum(PutWord(b, at, v)) == WordSum(b) - GetWord(b, at) + v
    ensures GetWord(b, at) <= WordSum(b)
    decreases at
  {
    var p := PutWord(b, at, v);
    if at == 0 {
      assert p[2..] == b[2..];
    } else {
      WordSumPut(b[2..], at - 2, v);
      assert p[2..] == PutWord(b[2..], at - 2, v);
    }
  }

  lemma OnesIsAllOnes(n: nat)
    ensures Ones(n) == 0xFFFF <==> n > 0 && n % 0xFFFF == 0
  {
  }

  /** A checksum written into a zeroed field, complemented, makes the sum all ones. */
  lemma InsertedChecksumIsValid(b: seq<Byte>, at: nat)
    requires at % 2 == 0 && at + 1 < |b| && GetWord(b, at) == 0
    ensures Rfc1071(PutWord(b, at, 0xFFFF - Rfc1071(b))) == 0xFFFF
  {
    var n := WordSum(b);
    FoldCarriesIsOnes(n);
    WordSumPut(b, at, 0xFFFF - Rfc1071(b));
    FoldCarriesIsOnes(n + (0xFFFF - Ones(n)));
    if n > 0 {
      var k := (n - 1) / 0xFFFF;
      assert n + (0xFFFF - Ones(n)) == 0xFFFF + 0xFFFF * k;
      OnesMultiple(0xFFFF, k);
    }
  }

  /** Sender and receiver agree: whatever packet carries the bytes with the sender's checksum
      in its zeroed field is accepted by the receiver. */
  lemma SentPacketIsAccepted(sent: seq<AxiWord>, received: seq<AxiWord>, at: nat)
    requires Packed(sent) && Packed(received)
    requires at % 2 == 0 && at + 1 < |Bytes(sent)| && GetWord(Bytes(sent), at) == 0
    requires Bytes(received) == PutWord(Bytes(sent), at, TxChecksum(sent))
    ensures RxVerdict(received)
  {
    LanesRefineRfc1071(sent);
    InsertedChecksumIsValid(Bytes(sent), at);
    RxAcceptsAllOnes(received);
  }

  /** What the checksum can and cannot see: of an accepted packet, a change of one aligned
      16-bit word is overlooked exactly when it swaps 0x0000 and 0xFFFF and leaves a
      non-zero sum. */
  lemma OneWordChange(b: seq<Byte>, at: nat, v: U16)
    requires at % 2 == 0 && at + 1 < |b| && Rfc1071(b) == 0xFFFF
    ensures Rfc1071(PutWord(b, at, v)) == 0xFFFF <==>
              (v - GetWord(b, at)) % 0xFFFF == 0 && WordSum(PutWord(b, at, v)) > 0
  {
    var n, d := WordSum(b), v - GetWord(b, at);
    FoldCarriesIsOnes(n);
    OnesIsAllOnes(n);
    WordSumPut(b, at, v);
    FoldCarriesIsOnes(n + d);
    OnesIsAllOnes(n + d);
    var k := n / 0xFFFF;
    assert n == 0xFFFF * k;
    if d >= 0 { AddMultiple(d, k); } else { AddMultiple(0xFFFF + d, k - 1); }
  }

  // ---------------------------------------------------------------- the hardware's form

  /** The four 17-bit registers and the checking state of the two engines. */
  class LaneRegisters {
    const sums: array<U17>
    var ccState: nat

    ghost predicate Valid() {
      sums.Length == 4
    }

    ghost function Abs(): Checker
      reads this, sums
      requires Valid()
    {
      Checker(sums[..], ccState)
    }

    constructor ()
      ensures Valid() && fresh(sums) && Abs() == Checker(ZERO_LANES, 0)
    {
      sums := new U17[4](_ => 0);
      ccState := 0;
      new;
      assert sums[..] == ZERO_LANES;
    }

    /** `sums[i] += temp` and the fold, in place. */
    method Accumulate(i: nat, temp: U16)
      requires Valid() && i < 4
      modifies sums
      ensures sums[i] == AddLane(old(sums[i]), temp)
      ensures forall k :: 0 <= k < 4 && k != i ==> sums[k] == old(sums[k])
    {
      sums[i] := (sums[i] + temp) % 0x2_0000;
      var s: int := sums[i];
      sums[i] := (s + s / 0x1_0000) % 0x1_0000;
    }

    /** The lane loop, run for every word of a packet. */
    method AddWord(w: AxiWord)
      requires Valid()
      modifies sums
      ensures Abs() == old(Abs()).(sums := SumWord(old(Abs()).sums, w))
    {
      for i := 0 to 4
        invariant forall k :: 0 <= k < i ==>
                    sums[k] == if KeepBit(w.keep, 2 * k) then AddLane(old(sums[k]), LaneValue(w, k)) else old(sums[k])
        invariant forall k :: i <= k < 4 ==> sums[k] == old(sums[k])
      {
        var high: int, low: int := w.data[2 * i], w.data[2 * i + 1];
        if KeepBit(w.keep, 2 * i) && KeepBit(w.keep, 2 * i + 1) {
          Accumulate(i, high * 0x100 + low);
        } else if KeepBit(w.keep, 2 * i) {
          Accumulate(i, high * 0x100);
        }
      }
    }

    /** The checking states of `rxCheckTCPchecksum` after the last word. */
    method CheckState() returns (verdict: Option<bool>)
      requires Valid()
      modifies this`ccState, sums
      ensures (Abs(), verdict) == CheckTick(old(Abs()))
    {
      verdict := None;
      ghost var s := sums[..];
      match ccState
      case 0 =>
        sums[0], sums[1], sums[2], sums[3] := Fold(sums[0]), Fold(sums[1]), Fold(sums[2]), Fold(sums[3]);
        ccState := 1;
        assert sums[..] == [Fold(s[0]), Fold(s[1]), Fold(s[2]), Fold(s[3])];
      case 1 =>
        sums[0], sums[1] := AddLane17(sums[0], sums[2]), AddLane17(sums[1], sums[3]);
        ccState := 2;
        assert sums[..] == [AddLane17(s[0], s[2]), AddLane17(s[1], s[3]), s[2], s[3]];
      case 2 =>
        sums[0] := AddLane17(sums[0], sums[1]);
        ccState := 3;
      case 3 =>
        sums[0] := 0x1_FFFF - sums[0];
        ccState := 4;
      case _ =>
        verdict := Some(sums[0] % 0x1_0000 == 0);
        sums[0], sums[1], sums[2], sums[3] := 0, 0, 0, 0;
        ccState := 0;
        assert sums[..] == ZERO_LANES;
    }
  }
}
