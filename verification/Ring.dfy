/** Rings and pointers: a ring of 64 KiB addressed by the low 16 bits of an unbounded stream
    offset, and sequence numbers that are its low 32 bits. */
module Ring {
  import opened Toe

  function Low32(n: int): U32 {
    n % 0x1_0000_0000
  }

  function Low16(n: int): U16 {
    n % 0x1_0000
  }

  // ---------------------------------------------------------------- pointers

  lemma Low16OfLow32(n: int)
    ensures Low16(Low32(n)) == Low16(n)
  {
  }

  /** 16-bit differences recover the distance of two unbounded offsets. */
  lemma Distance(base: int, r: int, a: int)
    ensures Low16(Low16(base + a) - Low16(Low32(base + r)) - 1) == Low16(a - r - 1)
  {
    Low16OfLow32(base + r);
  }

  lemma Low32Add(a: int, b: int)
    ensures Low32(Low32(a) + b) == Low32(a + b)
  {
  }

  lemma Low16Add(a: int, b: int)
    ensures Low16(Low16(a) + b) == Low16(a + b)
  {
  }

  // ---------------------------------------------------------------- the memory

  type Ring = r: seq<Byte> | |r| == RING witness seq(RING, _ => 0)

  /** The ring with `data` stored from address `at` on, over the end of the ring if need be. */
  function Stored(r: Ring, at: U16, data: seq<Byte>): Ring
    requires |data| <= RING
  {
    seq(RING, i requires 0 <= i < RING =>
      var k := (i - at) % RING;
      if k < |data| then data[k] else r[i])
  }

  function Loaded(r: Ring, at: U16, len: nat): seq<Byte> {
    seq(len, k requires 0 <= k => r[(at + k) % RING])
  }

  /** The ring holds every byte that is written and not yet read. */
  predicate RingInv(r: Ring, base: U32, accepted: seq<Byte>, w: nat, e: nat) {
    e <= w <= |accepted| && forall k :: e <= k < w ==> r[(base + k) % RING] == accepted[k]
  }

  lemma StoredAt(r: Ring, base: U32, w: nat, data: seq<Byte>, k: nat)
    requires |data| <= RING && k < w + |data| && w + |data| <= k + RING
    ensures var r' := Stored(r, Low16(base + w), data);
            r'[(base + k) % RING] == if w <= k then data[k - w] else r[(base + k) % RING]
  {
    var i := (base + k) % RING;
    assert (i - Low16(base + w)) % RING == (k - w) % RING;
    if w <= k {
      assert (k - w) % RING == k - w;
    } else {
      assert (k - w) % RING == k - w + RING;
    }
  }

  /** A write that overwrites only what was read leaves the rest of the ring intact. */
  lemma WriteRing(r: Ring, base: U32, accepted: seq<Byte>, w: nat, e: nat, data: seq<Byte>)
    requires RingInv(r, base, accepted, w, e)
    requires w + |data| <= |accepted| && data == accepted[w..w + |data|] && w + |data| <= e + RING
    ensures RingInv(Stored(r, Low16(base + w), data), base, accepted, w + |data|, e)
  {
    forall k | e <= k < w + |data|
      ensures Stored(r, Low16(base + w), data)[(base + k) % RING] == accepted[k]
    {
      StoredAt(r, base, w, data, k);
      if w <= k {
        assert data[k - w] == accepted[k];
      }
    }
  }

  lemma RingShift(base: U32, e: nat, k: nat)
    ensures (Low16(base + e) + k) % RING == (base + (e + k)) % RING
  {
  }

  /** A read of written bytes yields the accepted bytes. */
  lemma ReadRing(r: Ring, base: U32, accepted: seq<Byte>, w: nat, e: nat, len: nat)
    requires RingInv(r, base, accepted, w, e) && e + len <= w
    ensures Loaded(r, Low16(base + e), len) == accepted[e..e + len]
    ensures RingInv(r, base, accepted, w, e + len)
  {
    var loaded := Loaded(r, Low16(base + e), len);
    forall k | 0 <= k < len ensures loaded[k] == accepted[e + k] {
      RingShift(base, e, k);
    }
    assert loaded == accepted[e..e + len];
  }

  // ---------------------------------------------------------------- lengths

  function Sum(s: seq<nat>): nat {
    if s == [] then 0 else s[0] + Sum(s[1..])
  }

  lemma {:induction false} SumPush(s: seq<nat>, n: nat)
    ensures Sum(s + [n]) == Sum(s) + n
  {
    if s == [] {
    } else {
      assert (s + [n])[1..] == s[1..] + [n];
      SumPush(s[1..], n);
    }
  }

  lemma {:induction false} SumConcat(a: seq<nat>, b: seq<nat>)
    ensures Sum(a + b) == Sum(a) + Sum(b)
    decreases |a|
  {
    if a == [] {
      assert a + b == b;
    } else {
      assert (a + b)[1..] == a[1..] + b;
      SumConcat(a[1..], b);
    }
  }
}
