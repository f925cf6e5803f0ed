/** The four-lane sums of IP headers that mac_ip_encode.cpp and ip_handler.cpp share: a word
    contributes some of its lanes, and the lanes hold the one's-complement sum of a prefix of
    the header. */
module IpSums {
  import opened Toe
  import opened Axi
  import opened Checksum

  /** The 16-bit word of lane `i`, whatever the mask. */
  function Lane(d: seq<Byte>, i: nat): U16
    requires |d| == 8 && i < 4
  {
    GetWord(d, 2 * i)
  }

  /** The lanes `lo` to `hi - 1` take their words. */
  function SumPick(s: Lanes, d: seq<Byte>, lo: nat, hi: nat): Lanes
    requires |d| == 8 && lo <= hi <= 4
  {
    seq(4, i requires 0 <= i < 4 => if lo <= i < hi then AddLane(s[i], Lane(d, i)) else s[i])
  }

  function Total4(s: Lanes): nat {
    var a: int, b: int, c: int, d: int := s[0], s[1], s[2], s[3];
    a + b + c + d
  }

  /** The lanes are folded, and `c` carries were folded in on the way to the sum `n`. */
  predicate Carries(s: Lanes, n: nat, c: nat) {
    && s[0] < 0x1_0000 && s[1] < 0x1_0000 && s[2] < 0x1_0000 && s[3] < 0x1_0000
    && n == Total4(s) + 0xFFFF * c && (n > 0 ==> Total4(s) > 0)
  }

  /** Together the lanes make the one's-complement sum of words that add up to `n`. */
  ghost predicate Sums(s: Lanes, n: nat) {
    exists c: nat :: Carries(s, n, c)
  }

  /** The number of 32-bit words of an IP header. */
  function HeaderWords(b: seq<Byte>): nat
    requires b != []
  {
    b[0] % 16
  }

  /** An IPv4 packet of which the header is all there. */
  predicate Ipv4(b: seq<Byte>) {
    |b| >= 20 && 5 <= HeaderWords(b) && 4 * HeaderWords(b) <= |b|
  }

  lemma NoneAdded()
    ensures Sums(ZERO_LANES, 0)
  {
    assert Carries(ZERO_LANES, 0, 0);
  }

  lemma AddedLane(x: U16, v: U16)
    ensures AddLane(x, v) == if x + v < 0x1_0000 then x + v else x + v - 0xFFFF
  {
    var a: int := x;
    assert (a + v) % 0x2_0000 == a + v;
  }

  lemma AddOne(s: Lanes, i: nat, v: U16, n: nat)
    requires Sums(s, n) && i < 4
    ensures Sums(s[i := AddLane(s[i], v)], n + v)
  {
    var c: nat :| Carries(s, n, c);
    var x: int := s[i];
    AddedLane(x, v);
    Replaced(s, i, AddLane(x, v));
    assert Carries(s[i := AddLane(x, v)], n + v, if x + v < 0x1_0000 then c else c + 1);
  }

  lemma Replaced(s: Lanes, i: nat, y: U17)
    requires i < 4
    ensures var x: int, z: int := s[i], y; Total4(s[i := y]) == Total4(s) - x + z
  {
  }

  lemma PickFirst(s: Lanes, d: seq<Byte>, lo: nat, hi: nat, n: nat) returns (r: Lanes)
    requires |d| == 8 && lo < hi <= 4 && Sums(s, n)
    ensures SumPick(s, d, lo, hi) == SumPick(r, d, lo + 1, hi) && Sums(r, n + Lane(d, lo))
  {
    r := s[lo := AddLane(s[lo], Lane(d, lo))];
    AddOne(s, lo, Lane(d, lo), n);
    PickRest(s, r, d, lo, hi);
  }

  lemma PickRest(s: Lanes, r: Lanes, d: seq<Byte>, lo: nat, hi: nat)
    requires |d| == 8 && lo < hi <= 4 && r == s[lo := AddLane(s[lo], Lane(d, lo))]
    ensures SumPick(s, d, lo, hi) == SumPick(r, d, lo + 1, hi)
  {
  }

  lemma FirstPair(d: seq<Byte>, lo: nat, hi: nat)
    requires |d| == 8 && lo < hi <= 4
    ensures WordSum(d[2 * lo..2 * hi]) == Lane(d, lo) + WordSum(d[2 * (lo + 1)..2 * hi])
  {
    var p := d[2 * lo..2 * hi];
    assert p[2..] == d[2 * (lo + 1)..2 * hi] && p[0] == d[2 * lo] && p[1] == d[2 * lo + 1];
  }

  /** The lanes that a word contributes add the 16-bit words of those bytes. */
  lemma {:induction false} PickSums(s: Lanes, d: seq<Byte>, lo: nat, hi: nat, n: nat)
    requires |d| == 8 && lo <= hi <= 4 && Sums(s, n)
    ensures Sums(SumPick(s, d, lo, hi), n + WordSum(d[2 * lo..2 * hi]))
    decreases hi - lo
  {
    if lo == hi {
      assert d[2 * lo..2 * hi] == [] && SumPick(s, d, lo, hi) == s;
    } else {
      var v := Lane(d, lo);
      var r := PickFirst(s, d, lo, hi, n);
      PickSums(r, d, lo + 1, hi, n + v);
      FirstPair(d, lo, hi);
      Same(SumPick(s, d, lo, hi), n + v + WordSum(d[2 * (lo + 1)..2 * hi]), n + WordSum(d[2 * lo..2 * hi]));
    }
  }

  lemma Same(s: Lanes, m: nat, n: nat)
    requires Sums(s, m) && m == n
    ensures Sums(s, n)
  {
  }

  lemma SumsCombine(s: Lanes, n: nat)
    requires Sums(s, n)
    ensures Combine(s) == Ones(n)
  {
    var c: nat :| Carries(s, n, c);
    var a: int, b: int, d: int, e: int := s[0], s[1], s[2], s[3];
    assert Ones(a) == a && Ones(b) == b && Ones(d) == d && Ones(e) == e;
    CombineIsOnes(s, a, b, d, e);
    if n > 0 {
      OnesMultiple(Total4(s), c);
    }
  }

  lemma SumGrows(z: seq<Byte>, i: nat, j: nat)
    requires i % 2 == 0 && i <= j <= |z|
    ensures WordSum(z[..j]) == WordSum(z[..i]) + WordSum(z[i..j])
  {
    WordSumConcat(z[..i], z[i..j]);
    assert z[..i] + z[i..j] == z[..j];
  }

  /** A word's lanes up to `hi` continue the sum of the prefix `z[..at]`. */
  lemma PickPrefix(s: Lanes, d: seq<Byte>, z: seq<Byte>, at: nat, lo: nat, hi: nat)
    requires |d| == 8 && lo <= hi <= 4 && at % 2 == 0 && at + 2 * (hi - lo) <= |z|
    requires Sums(s, WordSum(z[..at])) && d[2 * lo..2 * hi] == z[at..at + 2 * (hi - lo)]
    ensures Sums(SumPick(s, d, lo, hi), WordSum(z[..at + 2 * (hi - lo)]))
  {
    PickSums(s, d, lo, hi, WordSum(z[..at]));
    SumGrows(z, at, at + 2 * (hi - lo));
    Same(SumPick(s, d, lo, hi), WordSum(z[..at]) + WordSum(d[2 * lo..2 * hi]), WordSum(z[..at + 2 * (hi - lo)]));
  }

  /** The first `n` bytes of the `i`-th word are the packet's, if it has that many. */
  lemma WordAt(ws: seq<AxiWord>, b: seq<Byte>, i: nat, n: nat)
    requires Burst(ws, b) && 8 * i + n <= |b| && n <= 8 && 8 * i < |b|
    ensures i < |ws| && ws[i].data[..n] == b[8 * i..8 * i + n]
  {
    PackedAt(ws, b, |ws| - 1);
    PackedAt(ws, b, i);
    var k := KeepToLen(ws[i].keep);
    if n <= k {
      KeptTake(ws[i], b, 8 * i, n);
    } else {
      assert false;
    }
  }

  lemma SubSlice(d: seq<Byte>, b: seq<Byte>, at: nat, lo: nat, hi: nat, n: nat)
    requires lo <= hi <= n <= |d| && at + n <= |b| && d[..n] == b[at..at + n]
    ensures d[lo..hi] == b[at + lo..at + hi]
  {
    var x, y := d[..n], b[at..at + n];
    forall i | lo <= i < hi ensures d[i] == b[at + i] {
      assert x[i] == y[i];
    }
  }

  /** The register array of both checksum functions. */
  class SumRegisters {
    const sums: array<U17>

    ghost predicate Valid() {
      sums.Length == 4
    }

    ghost function Abs(): Lanes
      reads sums
      requires Valid()
    {
      sums[..]
    }

    constructor ()
      ensures Valid() && fresh(sums) && Abs() == ZERO_LANES
    {
      sums := new U17[4](_ => 0);
      new;
      assert sums[..] == ZERO_LANES;
    }

    /** The lane loop over a word. */
    method AddLanes(d: seq<Byte>, lo: nat, hi: nat)
      requires Valid() && |d| == 8 && lo <= hi <= 4
      modifies sums
      ensures Abs() == SumPick(old(Abs()), d, lo, hi)
    {
      ghost var was := sums[..];
      for i := lo to hi
        invariant forall k :: lo <= k < i ==> sums[k] == AddLane(was[k], Lane(d, k))
        invariant forall k :: 0 <= k < 4 && !(lo <= k < i) ==> sums[k] == was[k]
      {
        var high: int, low: int, x: int := d[2 * i], d[2 * i + 1], sums[i];
        sums[i] := (x + (high * 0x100 + low)) % 0x2_0000;
        x := sums[i];
        sums[i] := (x + x / 0x1_0000) % 0x1_0000;
      }
      assert sums[..] == SumPick(was, d, lo, hi);
    }

    /** `sums[i] += sums[j]` and the fold. */
    method AddTo(i: nat, j: nat)
      requires Valid() && i < 4 && j < 4
      modifies sums
      ensures Abs() == old(Abs())[i := AddLane17(old(Abs())[i], old(Abs())[j])]
    {
      ghost var was := sums[..];
      var x: int, y: int := sums[i], sums[j];
      sums[i] := (x + y) % 0x2_0000;
      x := sums[i];
      sums[i] := (x + x / 0x1_0000) % 0x1_0000;
      assert sums[..] == was[i := AddLane17(was[i], was[j])];
    }

    /** `sums[0] = ~sums[0]`, of which 16 bits are the checksum. */
    method Complement() returns (checksum: U16)
      requires Valid()
      modifies sums
      ensures Abs() == old(Abs())[0 := 0x1_FFFF - old(Abs())[0]] && checksum == Invert(old(Abs())[0])
    {
      sums[0] := 0x1_FFFF - sums[0];
      checksum := sums[0] % 0x1_0000;
    }

    method Clear()
      requires Valid()
      modifies sums
      ensures Abs() == ZERO_LANES
    {
      sums[0], sums[1], sums[2], sums[3] := 0, 0, 0, 0;
    }
  }
}
