/** How payloads meet their verdicts in rx_engine.cpp. The payloads travel in one FIFO, and
    the verdicts on them in three others: the checksum's from `rxCheckTCPchecksum`, the first
    drop verdict from `rxMetadataHandler` and the second from `rxTcpFSM`. Nothing but the order
    ties them together. A verdict is sent if the length that the header makes is not zero, and
    words are sent if there are any behind the header; nothing makes the two agree. */
module Verdicts {
  import opened Toe
  import opened Axi
  import opened Droppers
  import RxFsm
  import Codec = TcpCodec
  import Checksum

  /** A packet as the RX engine sees it: what `rxTcpFSM` has when it gets to it, the words that
      the parser forwards, and whether its checksum, its port and its session are good. */
  datatype Packet = Packet(i: RxFsm.In, words: seq<AxiWord>, valid: bool, portIsOpen: bool, hit: bool)

  /** The length that the header makes is not zero. */
  predicate HasLength(p: Packet) {
    p.i.g.length != 0
  }

  /** `rxMetadataHandler` hands the packet to `rxTcpFSM`. */
  predicate Reaches(p: Packet) {
    p.valid && p.portIsOpen && p.hit
  }

  // ---------------------------------------------------------------- what the stages send

  /** The checksum verdict. */
  function ValidFlag(p: Packet): seq<bool> {
    if HasLength(p) then [p.valid] else []
  }

  /** `rxMetadataHandler`: dropped if the port is closed or the session unknown. */
  function FirstDrop(p: Packet): seq<bool> {
    if p.valid && HasLength(p) then [!(p.portIsOpen && p.hit)] else []
  }

  /** `rxTcpFSM`. */
  function SecondDrop(p: Packet): seq<bool> {
    if Reaches(p) then RxFsm.Transition(p.i).out.drops else []
  }

  function Command(p: Packet): seq<RxFsm.WriteCmd> {
    if Reaches(p) then RxFsm.Transition(p.i).out.cmds else []
  }

  function Words(ps: seq<Packet>): seq<AxiWord> {
    if ps == [] then [] else ps[0].words + Words(ps[1..])
  }

  function Valids(ps: seq<Packet>): seq<bool> {
    if ps == [] then [] else ValidFlag(ps[0]) + Valids(ps[1..])
  }

  function FirstDrops(ps: seq<Packet>): seq<bool> {
    if ps == [] then [] else FirstDrop(ps[0]) + FirstDrops(ps[1..])
  }

  function SecondDrops(ps: seq<Packet>): seq<bool> {
    if ps == [] then [] else SecondDrop(ps[0]) + SecondDrops(ps[1..])
  }

  function Commands(ps: seq<Packet>): seq<RxFsm.WriteCmd> {
    if ps == [] then [] else Command(ps[0]) + Commands(ps[1..])
  }

  /** The words that go to memory. */
  function Forwarded(ps: seq<Packet>): seq<AxiWord> {
    PassDrops(PassValid(Words(ps), Valids(ps)), FirstDrops(ps), SecondDrops(ps))
  }

  // ---------------------------------------------------------------- alignment

  /** The packet's own verdicts let its payload through. */
  predicate Passes(p: Packet) {
    SecondDrop(p) == [false]
  }

  function Wanted(ps: seq<Packet>): seq<Packet> {
    if ps == [] then [] else (if Passes(ps[0]) then [ps[0]] else []) + Wanted(ps[1..])
  }

  /** What the verdicts are for: the words that go to memory are those of the packets whose own
      verdicts let them through, and each of these packets has one write command, for as many
      bytes as its words carry. */
  predicate Meets(ps: seq<Packet>) {
    && Forwarded(ps) == Words(Wanted(ps))
    && |Commands(ps)| == |Wanted(ps)|
    && forall k :: 0 <= k < |Wanted(ps)| ==>
         Commands(ps)[k] == RxFsm.Cmd(Wanted(ps)[k].i) && Commands(ps)[k].len == |Bytes(Wanted(ps)[k].words)|
  }

  /** A length on a segment for which `rxTcpFSM` gives no verdict: flags other than ACK, or ACK
      and FIN. */
  predicate Stray(p: Packet) {
    Reaches(p) && HasLength(p) && !RxFsm.IsAck(p.i.g) && !RxFsm.IsFin(p.i.g)
  }

  /** The packet's words are one unit if its length is not zero and none otherwise, it gets its
      verdicts, and if it passes the length is that of its words. */
  predicate Fit(p: Packet) {
    && !Stray(p)
    && (if HasLength(p) then Packed(p.words) else p.words == [])
    && (Passes(p) ==> |Bytes(p.words)| == p.i.g.length)
  }

  predicate AllFit(ps: seq<Packet>) {
    forall p <- ps :: Fit(p)
  }

  lemma OwnVerdict(p: Packet)
    ensures |SecondDrop(p)| == if Reaches(p) && HasLength(p) && !Stray(p) then 1 else 0
  {
    RxFsm.OneVerdict(p.i);
  }

  /** What the first dropper should let through of a packet. */
  function ValidWords(p: Packet): seq<AxiWord> {
    if HasLength(p) && p.valid then p.words else []
  }

  lemma FitThroughValid(p: Packet, ws: seq<AxiWord>, vs: seq<bool>)
    requires Fit(p)
    ensures PassValid(p.words + ws, ValidFlag(p) + vs) == ValidWords(p) + PassValid(ws, vs)
  {
    if HasLength(p) {
      ValidFirst(p.words, ws, p.valid, vs);
    } else {
      Empty(ws);
      Empty(vs);
      Empty(PassValid(ws, vs));
    }
  }

  lemma FitThroughDrops(p: Packet, ws: seq<AxiWord>, f: seq<bool>, s: seq<bool>)
    requires Fit(p)
    ensures PassDrops(ValidWords(p) + ws, FirstDrop(p) + f, SecondDrop(p) + s)
            == (if Passes(p) then p.words else []) + PassDrops(ws, f, s)
  {
    OwnVerdict(p);
    if HasLength(p) && p.valid {
      DropFirst(p.words, ws, !(p.portIsOpen && p.hit), f, SecondDrop(p), s);
    } else {
      Empty(ws);
      Empty(f);
      Empty(s);
      Empty(PassDrops(ws, f, s));
    }
  }

  lemma {:induction false} WordsConcat(ps: seq<Packet>, qs: seq<Packet>)
    ensures Words(ps + qs) == Words(ps) + Words(qs)
  {
    if ps == [] {
      assert ps + qs == qs;
    } else {
      assert (ps + qs)[1..] == ps[1..] + qs;
      WordsConcat(ps[1..], qs);
      Regroup(ps[0].words, Words(ps[1..]), Words(qs));
    }
  }

  lemma {:induction false} WantedConcat(ps: seq<Packet>, qs: seq<Packet>)
    ensures Wanted(ps + qs) == Wanted(ps) + Wanted(qs)
  {
    if ps == [] {
      assert ps + qs == qs;
    } else {
      assert (ps + qs)[1..] == ps[1..] + qs;
      WantedConcat(ps[1..], qs);
      Regroup(if Passes(ps[0]) then [ps[0]] else [], Wanted(ps[1..]), Wanted(qs));
    }
  }

  /** Packets that fit leave the FIFOs in step: the next packets meet their verdicts as if they
      were the first ones. */
  lemma {:induction false} InStep(ps: seq<Packet>, qs: seq<Packet>)
    requires AllFit(ps)
    ensures Forwarded(ps + qs) == Words(Wanted(ps)) + Forwarded(qs)
  {
    if ps == [] {
      assert ps + qs == qs;
      Empty(Forwarded(qs));
    } else {
      var p, t := ps[0], ps[1..] + qs;
      assert (ps + qs)[1..] == t && ps[1..] + qs == t;
      InStep(ps[1..], qs);
      FitThroughValid(p, Words(t), Valids(t));
      FitThroughDrops(p, PassValid(Words(t), Valids(t)), FirstDrops(t), SecondDrops(t));
      WantedFirst(p, Wanted(ps[1..]), Forwarded(qs));
    }
  }

  lemma WantedFirst(p: Packet, ps: seq<Packet>, ws: seq<AxiWord>)
    ensures (if Passes(p) then p.words else []) + (Words(ps) + ws)
            == Words((if Passes(p) then [p] else []) + ps) + ws
  {
    Empty(ps);
    Empty(Words(ps) + ws);
    assert ([p] + ps)[1..] == ps;
    assert p.words + (Words(ps) + ws) == p.words + Words(ps) + ws;
  }

  lemma CommandOf(p: Packet)
    ensures Command(p) == if Passes(p) then [RxFsm.Cmd(p.i)] else []
  {
    if Reaches(p) { RxFsm.ForwardedIsCommanded(p.i); }
  }

  /** Every packet that passes has one write command of its own, in order, for as many bytes as
      its length says. */
  lemma {:induction false} CommandsMatch(ps: seq<Packet>)
    ensures |Commands(ps)| == |Wanted(ps)|
    ensures forall k :: 0 <= k < |Wanted(ps)| ==>
              Commands(ps)[k] == RxFsm.Cmd(Wanted(ps)[k].i) && Commands(ps)[k].len == Wanted(ps)[k].i.g.length
  {
    if ps != [] {
      var p, rest := ps[0], ps[1..];
      CommandsMatch(rest);
      CommandOf(p);
      var c, w := Commands(rest), Wanted(rest);
      assert Commands(ps) == Command(p) + c;
      forall k | 0 <= k < |Wanted(ps)|
        ensures Commands(ps)[k] == RxFsm.Cmd(Wanted(ps)[k].i) && Commands(ps)[k].len == Wanted(ps)[k].i.g.length
      {
        if Passes(p) && k > 0 { assert Commands(ps)[k] == c[k - 1] && Wanted(ps)[k] == w[k - 1]; }
      }
    }
  }

  lemma {:induction false} WantedFit(ps: seq<Packet>)
    requires AllFit(ps)
    ensures forall p <- Wanted(ps) :: Fit(p) && Passes(p)
  {
    if ps != [] { WantedFit(ps[1..]); }
  }

  /** If every packet fits, every payload meets its own verdicts, and each forwarded payload has
      one write command of its number of bytes, in order. */
  lemma VerdictsAlign(ps: seq<Packet>)
    requires AllFit(ps)
    ensures Meets(ps)
  {
    InStep(ps, []);
    assert ps + [] == ps && Words(Wanted(ps)) + [] == Words(Wanted(ps));
    CommandsMatch(ps);
    WantedFit(ps);
    forall k | 0 <= k < |Wanted(ps)|
      ensures Wanted(ps)[k].i.g.length == |Bytes(Wanted(ps)[k].words)|
    {
      assert Wanted(ps)[k] in Wanted(ps);
    }
  }

  // ---------------------------------------------------------------- and only then

  /** What the parser can send; TcpCodec.EmptyIff says so. */
  predicate Sent(p: Packet) {
    p.words == [] || Packed(p.words) || (!HasLength(p) && AllFull(p.words))
  }

  function Byte8(x: Byte): seq<AxiWord> {
    [Word([x, 0, 0, 0, 0, 0, 0, 0], 0xFF, true)]
  }

  /** A segment of eight bytes that an established session takes. */
  function Good(x: Byte): Packet {
    Packet(RxFsm.In(RxFsm.Meta(0, 0, 0, 8, true, false, false, true), ESTABLISHED, RxFsm.RxSar(0, 0),
                    RxFsm.TxSar(0, 0, 0, 0, 0), 0),
           Byte8(x), true, true, true)
  }

  /** The same with a wrong checksum. */
  function Bad(x: Byte): Packet {
    Good(x).(valid := false)
  }

  lemma GoodIsFit(x: Byte)
    ensures Fit(Good(x)) && Passes(Good(x)) && Packed(Byte8(x)) && |Byte8(x)| == 1
    ensures Fit(Bad(x)) && !Passes(Bad(x))
  {
    BytesOne(Byte8(x)[0]);
  }

  /** Words to spare: those of a packet that differ from `ws`. */
  lemma Another(ws: seq<AxiWord>) returns (x: Byte, y: Byte)
    ensures Byte8(x) != ws && Byte8(y) != Byte8(x)
  {
    x, y := 1, 0;
    if ws == Byte8(1) {
      x, y := 0, 1;
    }
    assert Byte8(0)[0].data[0] == 0 && Byte8(1)[0].data[0] == 1;
  }

  lemma ForwardedTwo(p: Packet, q: Packet)
    ensures Forwarded([p] + [q]) ==
            PassDrops(PassValid(p.words + q.words, ValidFlag(p) + ValidFlag(q)), FirstDrop(p) + FirstDrop(q),
                      SecondDrop(p) + SecondDrop(q))
  {
    var ps := [p] + [q];
    assert ps[1..] == [q] && [q][1..] == [];
    assert Words([q]) == q.words + [] == q.words && Valids([q]) == ValidFlag(q) + [] == ValidFlag(q);
    assert FirstDrops([q]) == FirstDrop(q) + [] == FirstDrop(q);
    assert SecondDrops([q]) == SecondDrop(q) + [] == SecondDrop(q);
  }

  lemma WantedTwo(p: Packet, q: Packet)
    requires !Passes(p) && Passes(q)
    ensures Words(Wanted([p] + [q])) == q.words
  {
    var ps := [p] + [q];
    assert ps[1..] == [q] && [q][1..] == [];
    assert Wanted([q]) == [q] + [] == [q];
    assert Wanted(ps) == [] + [q] == [q];
    assert Words([q]) == q.words + [] == q.words;
  }

  /** A verdict without words is taken for that of the next packet: a good payload is dropped. */
  lemma VerdictForNext(p: Packet, x: Byte)
    requires HasLength(p) && p.words == [] && !Passes(p) && !(Reaches(p) && SecondDrop(p) == [])
    ensures Forwarded([p] + [Good(x)]) == []
  {
    GoodIsFit(x);
    var q := Good(x);
    ForwardedTwo(p, q);
    OwnVerdict(p);
    Empty(q.words);
    Empty(ValidFlag(q));
    assert q.words + [] == q.words;
    ValidFirst(q.words, [], p.valid, ValidFlag(q));
    if p.valid {
      var first := !(p.portIsOpen && p.hit);
      assert FirstDrop(p) == [first];
      DropFirst(q.words, [], first, FirstDrop(q), SecondDrop(p), SecondDrop(q));
    } else {
      Empty(PassValid([], ValidFlag(q)));
    }
  }

  /** The words of a packet whose length is zero are forwarded with the verdicts of the next one,
      whose own words are stuck. */
  lemma WordsForNext(p: Packet, x: Byte)
    requires !HasLength(p) && Packed(p.words)
    ensures Forwarded([p] + [Good(x)]) == p.words
  {
    GoodIsFit(x);
    var q := Good(x);
    ForwardedTwo(p, q);
    OwnVerdict(p);
    Empty(ValidFlag(q));
    Empty(FirstDrop(q));
    Empty(SecondDrop(q));
    ValidFirst(p.words, q.words, true, []);
    assert [true] + [] == [true] && p.words + [] == p.words;
    DropFirst(p.words, [], false, [], [false], []);
    assert [false] + [] == [false];
  }

  lemma {:induction false} OpenUnit(ws: seq<AxiWord>, rest: seq<AxiWord>)
    requires AllFull(ws) && Packed(rest)
    ensures Packed(ws + rest)
  {
    if ws == [] {
      assert ws + rest == rest;
    } else {
      assert ws == [ws[0]] + ws[1..] && forall k :: 0 <= k < |ws[1..]| ==> ws[1..][k] == ws[k + 1];
      OpenUnit(ws[1..], rest);
      PackedCons(ws[0], ws[1..] + rest);
      assert ws + rest == [ws[0]] + (ws[1..] + rest);
    }
  }

  /** And those without a last word are taken for the start of the next payload. */
  lemma WordsBeforeNext(p: Packet, x: Byte)
    requires !HasLength(p) && AllFull(p.words) && p.words != []
    ensures Forwarded([p] + [Good(x)]) == p.words + Byte8(x)
  {
    GoodIsFit(x);
    var q := Good(x);
    OpenUnit(p.words, q.words);
    var u := p.words + q.words;
    ForwardedTwo(p, q);
    OwnVerdict(p);
    Empty(ValidFlag(q));
    Empty(FirstDrop(q));
    Empty(SecondDrop(q));
    assert u + [] == u;
    ValidFirst(u, [], true, []);
    assert [true] + [] == [true];
    DropFirst(u, [], false, [], [false], []);
    assert [false] + [] == [false];
  }

  /** A stray payload takes the second verdict of the next packet, whose payload is stuck. */
  lemma StrayMisaligns(p: Packet, x: Byte)
    requires Stray(p) && Packed(p.words)
    ensures Forwarded([p] + [Good(x)]) == p.words
  {
    GoodIsFit(x);
    var q := Good(x);
    ForwardedTwo(p, q);
    OwnVerdict(p);
    Empty(SecondDrop(q));
    ValidFirst(p.words, q.words, true, [true]);
    ValidFirst(q.words, [], true, []);
    assert [true] + [] == [true] && q.words + [] == q.words;
    DropFirst(p.words, q.words, false, [false], [false], []);
    assert [false] + [] == [false];
    assert PassDrops(q.words, [false], []) == [];
    assert p.words + [] == p.words;
  }

  /** A length without words and without a second verdict: the checksum verdicts are off by one,
      so that a packet with a wrong checksum is forwarded and a good one is not. */
  lemma BadForGood(p: Packet, x: Byte, y: Byte)
    requires Reaches(p) && HasLength(p) && p.words == [] && SecondDrop(p) == []
    ensures Forwarded([p] + ([Bad(y)] + [Good(x)])) == Byte8(y)
  {
    GoodIsFit(x);
    GoodIsFit(y);
    var r, q := Bad(y), Good(x);
    var t := [r] + [q];
    assert ([p] + t)[1..] == t;
    TwoPackets(r, q);
    Empty(Words(t));
    Empty(SecondDrops(t));
    assert FirstDrop(r) + FirstDrop(q) == [false] && SecondDrop(r) + SecondDrop(q) == [false];
    assert ValidFlag(p) == [true] && FirstDrop(p) == [false];
    var valids := [false] + [true];
    assert Valids(t) == valids && Valids([p] + t) == [true] + valids;
    assert FirstDrops([p] + t) == [false] + [false];
    assert Words([p] + t) == r.words + q.words && SecondDrops([p] + t) == [false];
    OffByOne(r.words, q.words);
  }

  lemma OffByOne(r: seq<AxiWord>, q: seq<AxiWord>)
    requires Packed(r) && Packed(q)
    ensures PassDrops(PassValid(r + q, [true] + ([false] + [true])), [false] + [false], [false]) == r
  {
    ValidFirst(r, q, true, [false] + [true]);
    assert q + [] == q && r + [] == r;
    ValidFirst(q, [], false, [true]);
    assert PassValid([], [true]) == [];
    assert [false] + [] == [false];
    DropFirst(r, [], false, [false], [false], []);
  }

  lemma TwoPackets(r: Packet, q: Packet)
    ensures var t := [r] + [q];
            && Words(t) == r.words + q.words && Valids(t) == ValidFlag(r) + ValidFlag(q)
            && FirstDrops(t) == FirstDrop(r) + FirstDrop(q) && SecondDrops(t) == SecondDrop(r) + SecondDrop(q)
  {
    assert ([r] + [q])[1..] == [q] && [q][1..] == [];
    assert Words([q]) == q.words + [] == q.words && Valids([q]) == ValidFlag(q) + [] == ValidFlag(q);
    assert FirstDrops([q]) == FirstDrop(q) + [] == FirstDrop(q);
    assert SecondDrops([q]) == SecondDrop(q) + [] == SecondDrop(q);
  }

  lemma WantedThree(p: Packet, y: Byte, x: Byte)
    requires !Passes(p)
    ensures Words(Wanted([p] + ([Bad(y)] + [Good(x)]))) == Byte8(x)
  {
    GoodIsFit(x);
    GoodIsFit(y);
    WantedTwo(Bad(y), Good(x));
    var t := [Bad(y)] + [Good(x)];
    assert ([p] + t)[1..] == t && [] + Wanted(t) == Wanted(t);
  }

  /** A packet that does not fit misaligns one of the next two packets, or has a write command
      for another number of bytes. */
  lemma UnfitMisaligns(p: Packet) returns (rest: seq<Packet>)
    requires Sent(p) && !Fit(p)
    ensures AllFit(rest)
    ensures Forwarded([p] + rest) != Words(Wanted([p] + rest)) || (Passes(p) && |Bytes(p.words)| != p.i.g.length)
  {
    var x, y := Another(p.words);
    GoodIsFit(x);
    GoodIsFit(y);
    OwnVerdict(p);
    rest := [Good(x)];
    if Passes(p) {
      BytesOfPassing(p);
    } else if HasLength(p) && p.words == [] && Reaches(p) && SecondDrop(p) == [] {
      rest := [Bad(y)] + [Good(x)];
      BadForGood(p, x, y);
      WantedThree(p, y, x);
    } else {
      WantedTwo(p, Good(x));
      if HasLength(p) && p.words == [] {
        VerdictForNext(p, x);
      } else if HasLength(p) {
        StrayMisaligns(p, x);
      } else if Packed(p.words) {
        WordsForNext(p, x);
      } else {
        WordsBeforeNext(p, x);
        assert |p.words + Byte8(x)| != |Byte8(x)|;
      }
    }
  }

  lemma BytesOfPassing(p: Packet)
    requires Passes(p) && Sent(p) && !Fit(p)
    ensures |Bytes(p.words)| != p.i.g.length
  {
    OwnVerdict(p);
  }

  lemma {:induction false} FirstUnfit(ps: seq<Packet>) returns (n: nat)
    requires !AllFit(ps)
    ensures n < |ps| && AllFit(ps[..n]) && !Fit(ps[n])
  {
    if !Fit(ps[0]) {
      n := 0;
    } else {
      assert forall p <- ps :: p == ps[0] || p in ps[1..];
      n := FirstUnfit(ps[1..]);
      assert forall p <- ps[..n + 1] :: p == ps[0] || p in ps[1..][..n];
      n := n + 1;
    }
  }

  /** The packets up to the first unfit one, and after it a continuation that does not meet its
      verdicts. */
  lemma Misaligns(ps: seq<Packet>) returns (n: nat, rest: seq<Packet>)
    requires (forall p <- ps :: Sent(p)) && !AllFit(ps)
    ensures n <= |ps| && AllFit(rest) && !Meets(ps[..n] + rest)
  {
    var k := FirstUnfit(ps);
    rest := UnfitMisaligns(ps[k]);
    n := k + 1;
    assert ps[..n] + rest == ps[..k] + ([ps[k]] + rest);
    NotMet(ps[..k], ps[k], rest);
  }

  lemma NotMet(ps: seq<Packet>, p: Packet, rest: seq<Packet>)
    requires AllFit(ps)
    requires Forwarded([p] + rest) != Words(Wanted([p] + rest)) || (Passes(p) && |Bytes(p.words)| != p.i.g.length)
    ensures !Meets(ps + ([p] + rest))
  {
    var all := ps + ([p] + rest);
    InStep(ps, [p] + rest);
    WantedConcat(ps, [p] + rest);
    WordsConcat(Wanted(ps), Wanted([p] + rest));
    if Forwarded([p] + rest) == Words(Wanted([p] + rest)) {
      CommandsMatch(all);
      WantedNext(ps, p, rest);
    } else {
      SamePrefix(Words(Wanted(ps)), Forwarded([p] + rest), Words(Wanted([p] + rest)));
    }
  }

  lemma WantedNext(ps: seq<Packet>, p: Packet, rest: seq<Packet>)
    requires Passes(p)
    ensures var w := Wanted(ps + ([p] + rest)); |Wanted(ps)| < |w| && w[|Wanted(ps)|] == p
  {
    WantedConcat(ps, [p] + rest);
    assert ([p] + rest)[1..] == rest;
  }

  lemma SamePrefix(a: seq<AxiWord>, b: seq<AxiWord>, c: seq<AxiWord>)
    ensures a + b == a + c ==> b == c
  {
    if a + b == a + c {
      assert b == (a + b)[|a|..] && c == (a + c)[|a|..];
    }
  }

  /** The condition is exact: for packets as the parser sends them, payloads and verdicts and
      commands meet after every part of the run, whatever fitting packets follow, if and only if
      every packet fits. */
  lemma AlignedIffFit(ps: seq<Packet>)
    requires forall p <- ps :: Sent(p)
    ensures AllFit(ps) <==> forall n: nat, rest: seq<Packet> :: n <= |ps| && AllFit(rest) ==> Meets(ps[..n] + rest)
  {
    if AllFit(ps) {
      forall n: nat, rest: seq<Packet> | n <= |ps| && AllFit(rest)
        ensures Meets(ps[..n] + rest)
      {
        assert forall p <- ps[..n] :: p in ps;
        VerdictsAlign(ps[..n] + rest);
      }
    } else {
      var n, rest := Misaligns(ps);
    }
  }

  // ---------------------------------------------------------------- what the parser sends

  /** `p` is what the parser makes of the packet. */
  predicate ParsedFrom(p: Packet, r0: AxiWord, r1: AxiWord, r2: AxiWord, r3: AxiWord, ws: seq<AxiWord>)
    requires Codec.Framed(r0, r1, r2, r3, ws)
  {
    var b := Bytes(Codec.Packet(r0, r1, r2, r3, ws));
    var m, o := Codec.MetaOf(b), Codec.Offset(r3);
    && p.i.g == RxFsm.Meta(m.seqNumb, m.ackNumb, m.winSize, m.length, m.ack, m.rst, m.syn, m.fin)
    && Codec.Defined(o, m.length, ws) && p.words == Codec.PayloadOf(o, m.length, ws)
    && p.valid == Checksum.RxVerdict(Codec.Packet(r0, r1, r2, r3, ws))
  }

  /** When a received packet fits, in terms of its bytes: words exist exactly if the length is
      not zero, the flags are ACK, or ACK and FIN, if it has a length, and if its payload is
      taken the length is the number of bytes behind the header. */
  lemma FitIff(p: Packet, r0: AxiWord, r1: AxiWord, r2: AxiWord, r3: AxiWord, ws: seq<AxiWord>)
    requires Codec.Framed(r0, r1, r2, r3, ws) && ParsedFrom(p, r0, r1, r2, r3, ws)
    ensures Sent(p)
    ensures var n := Codec.Behind(Bytes(Codec.Packet(r0, r1, r2, r3, ws)));
            Fit(p) <==>
            && !Stray(p)
            && (if p.i.g.length != 0 then n > 0 else n == 0 || (Codec.Shifted(Codec.Offset(r3)) && n <= 4))
            && (Passes(p) ==> n == p.i.g.length)
  {
    OwnVerdict(p);
    if HasLength(p) {
      Codec.PayloadIs(r0, r1, r2, r3, ws, p.i.g.length);
      Codec.PacketBytes(r0, r1, r2, r3, ws);
    } else {
      Codec.EmptyIff(r0, r1, r2, r3, ws);
    }
  }

  /** A segment whose header is inside it and whose length field is right fits unless it has a
      payload on flags other than ACK, or ACK and FIN. */
  lemma RightHeaderFits(p: Packet, r0: AxiWord, r1: AxiWord, r2: AxiWord, r3: AxiWord, ws: seq<AxiWord>)
    requires Codec.Framed(r0, r1, r2, r3, ws) && ParsedFrom(p, r0, r1, r2, r3, ws)
    requires var b := Bytes(Codec.Packet(r0, r1, r2, r3, ws));
             5 <= Codec.Offset(r3) && 12 + 4 * Codec.Offset(r3) <= |b| && Codec.Get16(b, 10) == |b| - 12
    ensures Fit(p) <==> !Stray(p)
  {
    FitIff(p, r0, r1, r2, r3, ws);
    Codec.OptionsAreSkipped(r0, r1, r2, r3, ws);
    Codec.PacketBytes(r0, r1, r2, r3, ws);
  }

  /** A plain acknowledgement of 20 bytes whose data offset was corrupted to more than five: the
      length wraps, no word is sent, and the verdict is taken for the next payload's. */
  lemma CorruptedOffset(p: Packet, r0: AxiWord, r1: AxiWord, r2: AxiWord, r3: AxiWord, x: Byte)
    requires Codec.Framed(r0, r1, r2, r3, []) && ParsedFrom(p, r0, r1, r2, r3, [])
    requires Codec.Get16(Bytes(Codec.Packet(r0, r1, r2, r3, [])), 10) == 20 && Codec.Offset(r3) > 5 && !p.valid
    ensures p.i.g.length == 0x1_0014 - 4 * Codec.Offset(r3) && p.words == [] && !Fit(p)
    ensures Forwarded([p] + [Good(x)]) == [] && Words(Wanted([p] + [Good(x)])) == Byte8(x)
  {
    var o := Codec.Offset(r3);
    Codec.PacketBytes(r0, r1, r2, r3, []);
    Codec.LengthIff(20, o, 0x1_0014 - 4 * o);
    GoodIsFit(x);
    VerdictForNext(p, x);
    WantedTwo(p, Good(x));
  }

  // ---------------------------------------------------------------- word by word

  /** Both droppers in sequence, word by word: what goes to memory. */
  lemma DroppersForward(s: Dropper, t: Dropper, ps: seq<Packet>) returns (m: nat, n: nat)
    requires s == Dropper(false, ReadDrop1, Words(ps), Valids(ps), [], [])
    requires t == Dropper(true, ReadDrop1, [], FirstDrops(ps), SecondDrops(ps), [])
    ensures DropRun(t.(dataIn := DropRun(s, m).dataOut), n).dataOut == Forwarded(ps)
  {
    m := DropperIsPass(s);
    Empty(Let(s));
    n := DropperIsPass(t.(dataIn := DropRun(s, m).dataOut));
    Empty(Forwarded(ps));
  }
}
