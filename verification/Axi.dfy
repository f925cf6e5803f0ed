/** The 64-bit AXI words that every packet travels in: eight bytes, a byte mask and a last
    flag. Byte `i` stands for the data bits `8 * i` to `8 * i + 7`. */
module Axi {
  import opened Toe

  datatype Word = Word(data: seq<Byte>, keep: int, last: bool)

  /** The masks that name 1 to 8 low-order bytes; the source produces no others. */
  predicate Contiguous(keep: int) {
    || keep == 0x01 || keep == 0x03 || keep == 0x07 || keep == 0x0F
    || keep == 0x1F || keep == 0x3F || keep == 0x7F || keep == 0xFF
  }

  type AxiWord = w: Word | |w.data| == 8 && Contiguous(w.keep)
    witness Word([0, 0, 0, 0, 0, 0, 0, 0], 0xFF, false)

  const ZERO_WORD: AxiWord := Word([0, 0, 0, 0, 0, 0, 0, 0], 0xFF, false)

  /** toe.cpp, `lenToKeep`. The source has no result outside 1 to 8. */
  function LenToKeep(length: int): (keep: int)
    ensures Contiguous(keep)
    ensures 1 <= length <= 8 ==> KeepToLen(keep) == length
  {
    match length
    case 1 => 0x01
    case 2 => 0x03
    case 3 => 0x07
    case 4 => 0x0F
    case 5 => 0x1F
    case 6 => 0x3F
    case 7 => 0x7F
    case _ => 0xFF
  }

  /** toe.cpp, `keepToLen`. */
  function KeepToLen(keep: int): (length: nat)
    requires Contiguous(keep)
    ensures 1 <= length <= 8
  {
    match keep
    case 0x01 => 1
    case 0x03 => 2
    case 0x07 => 3
    case 0x0F => 4
    case 0x1F => 5
    case 0x3F => 6
    case 0x7F => 7
    case _ => 8
  }

  /** The bytes of a word that its mask keeps. */
  function Kept(w: AxiWord): (b: seq<Byte>)
    ensures |b| == KeepToLen(w.keep)
  {
    w.data[..KeepToLen(w.keep)]
  }

  /** The bytes that a run of words carries. */
  function Bytes(ws: seq<AxiWord>): seq<Byte> {
    if ws == [] then [] else Bytes(ws[..|ws| - 1]) + Kept(ws[|ws| - 1])
  }

  predicate FullWord(w: AxiWord) {
    w.keep == 0xFF && !w.last
  }

  predicate AllFull(ws: seq<AxiWord>) {
    forall i :: 0 <= i < |ws| ==> FullWord(ws[i])
  }

  /** A packet: full words, then one last word with 1 to 8 bytes. */
  predicate Packed(ws: seq<AxiWord>) {
    ws != [] && AllFull(ws[..|ws| - 1]) && ws[|ws| - 1].last
  }

  /** A packet that carries exactly the bytes `p`. */
  predicate Burst(ws: seq<AxiWord>, p: seq<Byte>) {
    Packed(ws) && Bytes(ws) == p
  }

  /** The full words at the start of a packet that carries `p`. */
  predicate BurstPrefix(ws: seq<AxiWord>, p: seq<Byte>) {
    AllFull(ws) && 8 * |ws| <= |p| && Bytes(ws) == p[..8 * |ws|]
  }

  lemma BytesSnoc(ws: seq<AxiWord>, w: AxiWord)
    ensures Bytes(ws + [w]) == Bytes(ws) + Kept(w)
  {
    assert (ws + [w])[..|ws|] == ws;
  }

  lemma {:induction false} FullBytes(ws: seq<AxiWord>)
    requires AllFull(ws)
    ensures |Bytes(ws)| == 8 * |ws|
  {
    if ws != [] {
      FullBytes(ws[..|ws| - 1]);
    }
  }

  lemma Adjacent(p: seq<Byte>, a: nat, b: nat, c: nat)
    requires a <= b <= c <= |p|
    ensures p[a..b] + p[b..c] == p[a..c]
  {
  }

  lemma DropSlice(p: seq<Byte>, n: nat, a: nat, b: nat)
    requires a <= b && n + b <= |p|
    ensures p[n..][a..b] == p[n + a..n + b]
  {
  }

  /** The first `t` kept bytes of a word that carries `p[at..]`. */
  lemma KeptTake(w: AxiWord, p: seq<Byte>, at: nat, t: nat)
    requires t <= KeepToLen(w.keep) && at + KeepToLen(w.keep) <= |p| && Kept(w) == p[at..at + KeepToLen(w.keep)]
    ensures w.data[..t] == p[at..at + t]
  {
    assert w.data[..t] == Kept(w)[..t];
  }

  lemma SliceOfFirst(a: seq<Byte>, b: seq<Byte>, i: nat, j: nat)
    requires i <= j <= |a|
    ensures (a + b)[i..j] == a[i..j]
  {
  }

  lemma {:induction false} FullAt(ws: seq<AxiWord>, i: nat)
    requires AllFull(ws) && i < |ws|
    ensures |Bytes(ws)| == 8 * |ws| && Bytes(ws)[8 * i..8 * i + 8] == ws[i].data
  {
    var n := |ws| - 1;
    FullBytes(ws[..n]);
    assert Kept(ws[n]) == ws[n].data;
    if i < n {
      FullAt(ws[..n], i);
      SliceOfFirst(Bytes(ws[..n]), ws[n].data, 8 * i, 8 * i + 8);
    }
  }

  /** Where the bytes of a packet's `i`-th word are in the packet. */
  lemma PackedAt(ws: seq<AxiWord>, p: seq<Byte>, i: nat)
    requires Burst(ws, p) && i < |ws|
    ensures var n := KeepToLen(ws[i].keep);
            && 8 * i + n <= |p| && Kept(ws[i]) == p[8 * i..8 * i + n]
            && (i < |ws| - 1 ==> n == 8 && FullWord(ws[i])) && (i == |ws| - 1 ==> |p| == 8 * i + n)
    ensures BurstPrefix(ws[..i], p)
  {
    var f := ws[..|ws| - 1];
    FullBytes(f);
    assert Bytes(ws) == Bytes(f) + Kept(ws[|ws| - 1]);
    if i < |ws| - 1 {
      FullAt(f, i);
      assert ws[i] == f[i];
      SliceOfFirst(Bytes(f), Kept(ws[|ws| - 1]), 8 * i, 8 * i + 8);
    }
    PrefixOf(f, p, i);
    assert f[..i] == ws[..i];
  }

  lemma {:induction false} PrefixOf(f: seq<AxiWord>, p: seq<Byte>, i: nat)
    requires AllFull(f) && 8 * |f| <= |p| && Bytes(f) == p[..8 * |f|] && i <= |f|
    ensures BurstPrefix(f[..i], p)
    decreases |f|
  {
    FullBytes(f);
    if i == |f| {
      assert f[..i] == f;
    } else {
      var g := f[..|f| - 1];
      FullBytes(g);
      assert Bytes(g) == p[..8 * |g|];
      PrefixOf(g, p, i);
      assert g[..i] == f[..i];
    }
  }

  lemma PrefixGrows(ws: seq<AxiWord>, p: seq<Byte>, w: AxiWord)
    requires BurstPrefix(ws, p) && FullWord(w) && 8 * |ws| + 8 <= |p|
    requires w.data == p[8 * |ws|..8 * |ws| + 8]
    ensures BurstPrefix(ws + [w], p)
  {
    BytesSnoc(ws, w);
    assert Kept(w) == w.data;
    assert p[..8 * |ws|] + p[8 * |ws|..8 * |ws| + 8] == p[..8 * |ws| + 8];
  }

  lemma PrefixEnds(ws: seq<AxiWord>, p: seq<Byte>, w: AxiWord)
    requires BurstPrefix(ws, p) && w.last && Kept(w) == p[8 * |ws|..]
    ensures Burst(ws + [w], p)
  {
    BytesSnoc(ws, w);
    assert (ws + [w])[..|ws|] == ws;
    assert p[..8 * |ws|] + p[8 * |ws|..] == p;
  }

  lemma SplitLast(a: seq<AxiWord>, b: seq<AxiWord>)
    requires b != []
    ensures a + b == (a + b[..|b| - 1]) + [b[|b| - 1]]
  {
  }

  lemma Assoc(out: seq<AxiWord>, w: AxiWord, rest: seq<AxiWord>)
    ensures out + [w] + rest == out + ([w] + rest)
  {
  }

  lemma {:induction false} BytesConcat(a: seq<AxiWord>, b: seq<AxiWord>)
    ensures Bytes(a + b) == Bytes(a) + Bytes(b)
    decreases |b|
  {
    if b == [] {
      assert a + b == a;
    } else {
      var n := |b| - 1;
      BytesConcat(a, b[..n]);
      BytesSnoc(a + b[..n], b[n]);
      SplitLast(a, b);
    }
  }

  // ---------------------------------------------------------------- packets from the front

  lemma Next(ws: seq<AxiWord>)
    requires Packed(ws) && |ws| > 1
    ensures FullWord(ws[0]) && Packed(ws[1..]) && ws == [ws[0]] + ws[1..]
  {
    assert ws[..|ws| - 1][0] == ws[0];
    assert ws[1..][..|ws[1..]| - 1] == ws[..|ws| - 1][1..];
  }

  lemma BytesCons(w: AxiWord, ws: seq<AxiWord>)
    ensures Bytes([w] + ws) == Kept(w) + Bytes(ws)
  {
    BytesConcat([w], ws);
    BytesOne(w);
  }

  lemma BytesOne(w: AxiWord)
    ensures Bytes([w]) == Kept(w)
  {
    assert [w][..0] == [];
    assert Bytes([w]) == Bytes([]) + Kept(w);
  }

  lemma PackedCons(w: AxiWord, ws: seq<AxiWord>)
    requires FullWord(w) && Packed(ws)
    ensures Packed([w] + ws)
  {
    assert ([w] + ws)[..|ws|] == [w] + ws[..|ws| - 1];
  }

  lemma FullCons(w: AxiWord, ws: seq<AxiWord>)
    requires FullWord(w)
    ensures Bytes([w] + ws) == w.data + Bytes(ws)
  {
    BytesCons(w, ws);
  }

  lemma TwoWords(v: AxiWord, w: AxiWord)
    requires FullWord(v) && w.last
    ensures Burst([v] + [w], Kept(v) + Kept(w))
  {
    BytesCons(v, [w]);
    BytesOne(w);
  }

  // ---------------------------------------------------------------- shifting a packet

  type Shift8 = k: nat | 1 <= k <= 7 witness 1

  /** The mask of the last `8 - k` bytes of a full word and the first `k` bytes of the next. */
  function ShiftKeep(k: Shift8, keep: int): (r: int)
    requires Contiguous(keep)
    ensures Contiguous(r)
  {
    LenToKeep(8 - k + if KeepToLen(keep) < k then KeepToLen(keep) else k)
  }

  /** The word that holds these bytes; it is the last one if the next word has no more. */
  function Shift(k: Shift8, prev: AxiWord, w: AxiWord): AxiWord {
    Word(prev.data[k..] + w.data[..k], ShiftKeep(k, w.keep), KeepToLen(w.keep) <= k)
  }

  /** What the last word leaves over. */
  function ShiftOut(k: Shift8, w: AxiWord): AxiWord
    requires KeepToLen(w.keep) > k
  {
    Word(w.data[k..] + ZERO_WORD.data[..k], LenToKeep(KeepToLen(w.keep) - k), true)
  }

  /** The words that the shift makes of the packet `ws` behind the full word `prev`. */
  function ShiftBy(k: Shift8, prev: AxiWord, ws: seq<AxiWord>): seq<AxiWord>
    requires Packed(ws)
    decreases |ws|
  {
    [Shift(k, prev, ws[0])] +
    if |ws| > 1 then (Next(ws); ShiftBy(k, ws[0], ws[1..]))
    else if KeepToLen(ws[0].keep) > k then [ShiftOut(k, ws[0])] else []
  }

  /** A word that reaches beyond the cut: its two parts. */
  lemma ShiftFull(k: Shift8, prev: AxiWord, w: AxiWord)
    requires KeepToLen(w.keep) > k
    ensures FullWord(Shift(k, prev, w)) && Kept(Shift(k, prev, w)) == prev.data[k..] + w.data[..k]
    ensures Kept(w) == w.data[..k] + Kept(ShiftOut(k, w)) && ShiftOut(k, w).last
  {
  }

  lemma ShiftShort(k: Shift8, prev: AxiWord, w: AxiWord)
    requires KeepToLen(w.keep) <= k
    ensures Shift(k, prev, w).last && Kept(Shift(k, prev, w)) == prev.data[k..] + Kept(w)
  {
  }

  lemma ShiftLast(k: Shift8, prev: AxiWord, w: AxiWord)
    requires w.last && Packed([w])
    ensures Burst(ShiftBy(k, prev, [w]), prev.data[k..] + Kept(w))
  {
    var h := Shift(k, prev, w);
    if KeepToLen(w.keep) > k {
      ShiftFull(k, prev, w);
      TwoWords(h, ShiftOut(k, w));
      assert prev.data[k..] + w.data[..k] + Kept(ShiftOut(k, w)) == prev.data[k..] + (w.data[..k] + Kept(ShiftOut(k,
          w)));
    } else {
      ShiftShort(k, prev, w);
      BytesOne(h);
    }
  }

  lemma Split8(a: seq<Byte>, d: seq<Byte>, k: Shift8, b: seq<Byte>)
    requires |d| == 8
    ensures (a + d[..k]) + (d[k..] + b) == a + (d + b)
  {
  }

  lemma ShiftCons(k: Shift8, prev: AxiWord, w: AxiWord, ws: seq<AxiWord>, rest: seq<AxiWord>)
    requires FullWord(w) && Burst(rest, w.data[k..] + Bytes(ws))
    ensures Burst([Shift(k, prev, w)] + rest, prev.data[k..] + Bytes([w] + ws))
  {
    ShiftFull(k, prev, w);
    PackedCons(Shift(k, prev, w), rest);
    BytesCons(Shift(k, prev, w), rest);
    FullCons(w, ws);
    Split8(prev.data[k..], w.data, k, Bytes(ws));
  }

  /** The shift carries the same bytes, densely packed. */
  lemma {:induction false} ShiftByBytes(k: Shift8, prev: AxiWord, ws: seq<AxiWord>)
    requires Packed(ws)
    ensures Burst(ShiftBy(k, prev, ws), prev.data[k..] + Bytes(ws))
    decreases |ws|
  {
    var w := ws[0];
    if |ws| == 1 {
      assert ws == [w];
      ShiftLast(k, prev, w);
      BytesOne(w);
    } else {
      Next(ws);
      ShiftByBytes(k, w, ws[1..]);
      ShiftCons(k, prev, w, ws[1..], ShiftBy(k, w, ws[1..]));
    }
  }
}
