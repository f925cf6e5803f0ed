/** The stages that let packets through or drop them by verdicts that come in FIFOs of their own:
    `rxTcpInvalidDropper` and `rxPackageDropper` of rx_engine.cpp and `ip_invalid_dropper` of
    ip_handler.cpp. */
module Droppers {
  import opened Toe
  import opened Axi

  // ---------------------------------------------------------------- what is let through

  /** The words up to the first one that is marked as the last of its packet. */
  function Unit(ws: seq<AxiWord>): (n: nat)
    ensures n <= |ws| && (ws != [] ==> n > 0)
  {
    if ws == [] then 0 else if ws[0].last then 1 else 1 + Unit(ws[1..])
  }

  /** `rxTcpInvalidDropper` and `ip_invalid_dropper` on the words and verdicts that they have: one
      verdict for the words up to the next last one. */
  function PassValid(ws: seq<AxiWord>, valids: seq<bool>): seq<AxiWord>
    decreases |ws|
  {
    if ws == [] || valids == [] then []
    else (if valids[0] then ws[..Unit(ws)] else []) + PassValid(ws[Unit(ws)..], valids[1..])
  }

  /** `rxPackageDropper`: a second verdict is read only if the first one lets the words
      through. */
  function PassDrops(ws: seq<AxiWord>, first: seq<bool>, second: seq<bool>): seq<AxiWord>
    decreases |ws|
  {
    if ws == [] || first == [] then []
    else if first[0] then PassDrops(ws[Unit(ws)..], first[1..], second)
    else if second == [] then []
    else (if second[0] then [] else ws[..Unit(ws)]) + PassDrops(ws[Unit(ws)..], first[1..], second[1..])
  }

  lemma UnitOf(ws: seq<AxiWord>, rest: seq<AxiWord>)
    requires Packed(ws)
    ensures Unit(ws + rest) == |ws| && (ws + rest)[..|ws|] == ws && (ws + rest)[|ws|..] == rest
  {
    UnitLength(ws, rest);
  }

  lemma {:induction false} UnitLength(ws: seq<AxiWord>, rest: seq<AxiWord>)
    requires Packed(ws)
    ensures Unit(ws + rest) == |ws|
    decreases |ws|
  {
    assert (ws + rest)[0] == ws[0] && (ws + rest)[1..] == ws[1..] + rest;
    if |ws| > 1 {
      Next(ws);
      UnitLength(ws[1..], rest);
    }
  }

  lemma ConsBool(b: bool, s: seq<bool>)
    ensures ([b] + s)[0] == b && ([b] + s)[1..] == s
  {
  }

  lemma Empty<T>(s: seq<T>)
    ensures [] + s == s
  {
  }

  lemma Regroup<T>(a: seq<T>, b: seq<T>, c: seq<T>)
    ensures a + (b + c) == a + b + c
  {
  }

  /** One unit with its verdict in front. */
  lemma ValidFirst(ws: seq<AxiWord>, rest: seq<AxiWord>, v: bool, vs: seq<bool>)
    requires Packed(ws)
    ensures PassValid(ws + rest, [v] + vs) == (if v then ws else []) + PassValid(rest, vs)
  {
    UnitOf(ws, rest);
    ConsBool(v, vs);
  }

  lemma DropFirst(ws: seq<AxiWord>, rest: seq<AxiWord>, first: bool, f: seq<bool>, second: seq<bool>, s: seq<bool>)
    requires Packed(ws) && |second| == if first then 0 else 1
    ensures PassDrops(ws + rest, [first] + f, second + s) ==
            (if second == [false] then ws else []) + PassDrops(rest, f, s)
  {
    UnitOf(ws, rest);
    ConsBool(first, f);
    Empty(PassDrops(rest, f, s));
    if first {
      Empty(s);
      assert second + s == s;
    } else {
      ConsBool(second[0], s);
      assert second == [second[0]];
    }
  }

  // ---------------------------------------------------------------- cycle by cycle

  datatype Phase = ReadDrop1 | ReadDrop2 | Fwd | Drop

  /** `rxPackageDropper`, and the two that read one verdict of the opposite sense: valid
      instead of drop. */
  datatype Dropper = Dropper(
    two: bool, phase: Phase, dataIn: seq<AxiWord>, first: seq<bool>, second: seq<bool>, dataOut: seq<AxiWord>)

  function DropStep(s: Dropper): Dropper {
    match s.phase
    case ReadDrop1 =>
      if s.first == [] then s
      else s.(first := s.first[1..],
              phase := if s.first[0] == s.two then Drop else if s.two then ReadDrop2 else Fwd)
    case ReadDrop2 =>
      if s.second == [] then s else s.(second := s.second[1..], phase := if s.second[0] then Drop else Fwd)
    case Fwd =>
      if s.dataIn == [] then s
      else s.(dataIn := s.dataIn[1..], dataOut := s.dataOut + [s.dataIn[0]],
              phase := if s.dataIn[0].last then ReadDrop1 else Fwd)
    case Drop =>
      if s.dataIn == [] then s
      else s.(dataIn := s.dataIn[1..], phase := if s.dataIn[0].last then ReadDrop1 else Drop)
  }

  /** `n` cycles that are not held up. */
  function DropRun(s: Dropper, n: nat): Dropper {
    Iterate(DropStep, s, n)
  }

  /** Runs one after the other. */
  lemma InTurn(s: Dropper, m: nat, q: Dropper, n: nat, r: Dropper)
    requires DropRun(s, m) == q && DropRun(q, n) == r
    ensures DropRun(s, m + n) == r
  {
    IterateAdd(DropStep, s, m, n);
  }

  lemma OneStep(s: Dropper)
    ensures DropRun(s, 1) == DropStep(s)
  {
    assert DropRun(DropStep(s), 0) == DropStep(s);
  }

  /** `r` is `s` behind the first `k` words. */
  predicate UnitRead(s: Dropper, k: nat, r: Dropper) {
    && k <= |s.dataIn|
    && r == s.(phase := r.phase, dataIn := s.dataIn[k..],
               dataOut := s.dataOut + if s.phase == Fwd then s.dataIn[..k] else [])
    && (r.phase == ReadDrop1 || r.dataIn == [])
  }

  lemma UnitCons(ws: seq<AxiWord>)
    requires ws != []
    ensures ws[0].last ==> Unit(ws) == 1
    ensures !ws[0].last ==>
              var k := Unit(ws);
              k == 1 + Unit(ws[1..]) && ws[1..][k - 1..] == ws[k..] && [ws[0]] + ws[1..][..k - 1] == ws[..k]
  {
  }

  lemma WordRead(s: Dropper)
    requires (s.phase == Fwd || s.phase == Drop) && s.dataIn != []
    ensures DropStep(s) == s.(phase := if s.dataIn[0].last then ReadDrop1 else s.phase, dataIn := s.dataIn[1..],
                              dataOut := s.dataOut + if s.phase == Fwd then [s.dataIn[0]] else [])
  {
    assert s.dataOut + [] == s.dataOut;
  }

  lemma ThenRead(s: Dropper, q: Dropper, k: nat, r: Dropper)
    requires (s.phase == Fwd || s.phase == Drop) && s.dataIn != [] && q.phase == s.phase && k <= |s.dataIn| - 1
    requires q == s.(dataIn := s.dataIn[1..], dataOut := s.dataOut + if s.phase == Fwd then [s.dataIn[0]] else [])
    requires UnitRead(q, k, r) && s.dataIn[1..][k..] == s.dataIn[k + 1..]
    requires [s.dataIn[0]] + s.dataIn[1..][..k] == s.dataIn[..k + 1]
    ensures UnitRead(s, k + 1, r)
  {
    if s.phase == Fwd {
      Assoc(s.dataOut, s.dataIn[0], s.dataIn[1..][..k]);
    } else {
      assert s.dataOut + [] == s.dataOut;
    }
  }

  /** One unit is forwarded or dropped as a whole; a unit that has no last word yet keeps the
      dropper waiting. */
  lemma {:induction false} OneUnit(s: Dropper)
    requires s.phase == Fwd || s.phase == Drop
    ensures UnitRead(s, Unit(s.dataIn), DropRun(s, Unit(s.dataIn)))
    decreases |s.dataIn|
  {
    var ws := s.dataIn;
    if ws == [] {
      assert ws[0..] == ws && ws[..0] == [] && s.dataOut + [] == s.dataOut;
    } else {
      WordRead(s);
      UnitCons(ws);
      OneStep(s);
      var q := DropStep(s);
      if ws[0].last {
        assert ws[..1] == [ws[0]];
      } else {
        var k := Unit(ws[1..]);
        OneUnit(q);
        ThenRead(s, q, k, DropRun(q, k));
        InTurn(s, 1, q, k, DropRun(q, k));
      }
    }
  }

  /** What a dropper lets through, with one or with two verdicts. */
  function Let(s: Dropper): seq<AxiWord> {
    if s.two then PassDrops(s.dataIn, s.first, s.second) else PassValid(s.dataIn, s.first)
  }

  /** Reading the verdicts of the unit in front. */
  function Judged(s: Dropper): Option<Dropper> {
    if s.first == [] then None
    else
      var r := s.(first := s.first[1..]);
      if s.first[0] == s.two then Some(r.(phase := Drop))
      else if !s.two then Some(r.(phase := Fwd))
      else if s.second == [] then None
      else Some(r.(second := s.second[1..], phase := if s.second[0] then Drop else Fwd))
  }

  lemma Judges(s: Dropper) returns (n: nat)
    requires s.phase == ReadDrop1
    ensures Judged(s).Some? ==> DropRun(s, n) == Judged(s).value
    ensures Judged(s).None? ==> DropRun(s, n).dataOut == s.dataOut
  {
    if Judged(s).None? {
      n := 0;
    } else if s.two && !s.first[0] {
      n := 2;
      OneStep(s);
      OneStep(DropStep(s));
      InTurn(s, 1, DropStep(s), 1, DropStep(DropStep(s)));
    } else {
      n := 1;
      OneStep(s);
    }
  }

  lemma LetFirst(s: Dropper)
    requires s.phase == ReadDrop1 && s.dataIn != []
    ensures Let(s) == match Judged(s)
            case None => []
            case Some(r) =>
              var k := Unit(s.dataIn);
              (if r.phase == Fwd then s.dataIn[..k] else []) + Let(r.(dataIn := s.dataIn[k..]))
  {
    assert [] + Let(s) == Let(s);
  }

  /** Word by word a dropper lets through exactly what it should, whatever words and verdicts it
      is given. */
  lemma {:induction false} DropperIsPass(s: Dropper) returns (n: nat)
    requires s.phase == ReadDrop1
    ensures DropRun(s, n).dataOut == s.dataOut + Let(s)
    decreases |s.dataIn|
  {
    if s.dataIn == [] {
      n := 0;
      assert s.dataOut + [] == s.dataOut;
    } else {
      LetFirst(s);
      var j := Judges(s);
      if Judged(s).None? {
        n := j;
        assert s.dataOut + [] == s.dataOut;
      } else {
        var r, k := Judged(s).value, Unit(s.dataIn);
        var i := AfterJudging(r, k);
        InTurn(s, j, r, i, DropRun(r, i));
        n := j + i;
      }
    }
  }

  lemma {:induction false} AfterJudging(r: Dropper, k: nat) returns (n: nat)
    requires (r.phase == Fwd || r.phase == Drop) && r.dataIn != [] && k == Unit(r.dataIn)
    ensures DropRun(r, n).dataOut ==
            r.dataOut + ((if r.phase == Fwd then r.dataIn[..k] else []) + Let(r.(dataIn := r.dataIn[k..])))
    decreases |r.dataIn|, 0
  {
    OneUnit(r);
    var q, m := DropRun(r, k), 0;
    var rest := r.(dataIn := r.dataIn[k..]);
    assert Let(q) == Let(rest);
    if q.phase == ReadDrop1 {
      m := DropperIsPass(q);
    } else {
      assert Let(rest) == [] && q.dataOut + [] == q.dataOut;
    }
    InTurn(r, k, q, m, DropRun(q, m));
    n := k + m;
    Regroup(r.dataOut, if r.phase == Fwd then r.dataIn[..k] else [], Let(rest));
  }

  // ---------------------------------------------------------------- the hardware's form

  /** The state of `rxTcpInvalidDropper`, or of `ip_invalid_dropper`, and its FIFOs. */
  class InvalidDropper {
    var rtidState: Phase
    var dataIn: seq<AxiWord>
    var validFifoIn: seq<bool>
    var dataOut: seq<AxiWord>

    ghost predicate Valid()
      reads this
    {
      rtidState != ReadDrop2
    }

    ghost function Abs(): Dropper
      reads this
    {
      Dropper(false, rtidState, dataIn, validFifoIn, [], dataOut)
    }

    constructor ()
      ensures Valid() && Abs() == Dropper(false, ReadDrop1, [], [], [], [])
    {
      rtidState, dataIn, validFifoIn, dataOut := ReadDrop1, [], [], [];
    }

    /** One clock cycle with room in the output. */
    method Cycle()
      requires Valid()
      modifies this
      ensures Valid() && Abs() == DropStep(old(Abs()))
    {
      match rtidState
      case ReadDrop1 =>
        if validFifoIn != [] {
          rtidState := if validFifoIn[0] then Fwd else Drop;
          validFifoIn := validFifoIn[1..];
        }
      case Fwd =>
        if dataIn != [] {
          var currWord := dataIn[0];
          dataIn := dataIn[1..];
          dataOut := dataOut + [currWord];
          if currWord.last {
            rtidState := ReadDrop1;
          }
        }
      case Drop =>
        if dataIn != [] {
          if dataIn[0].last {
            rtidState := ReadDrop1;
          }
          dataIn := dataIn[1..];
        }
    }
  }

  /** The state of `rxPackageDropper` and its FIFOs. */
  class PackageDropper {
    var tpfState: Phase
    var dataIn: seq<AxiWord>
    var dropFifoIn1: seq<bool>
    var dropFifoIn2: seq<bool>
    var rxBufferDataOut: seq<AxiWord>

    ghost function Abs(): Dropper
      reads this
    {
      Dropper(true, tpfState, dataIn, dropFifoIn1, dropFifoIn2, rxBufferDataOut)
    }

    constructor ()
      ensures Abs() == Dropper(true, ReadDrop1, [], [], [], [])
    {
      tpfState, dataIn, dropFifoIn1, dropFifoIn2, rxBufferDataOut := ReadDrop1, [], [], [], [];
    }

    /** One clock cycle with room in the output. */
    method Cycle()
      modifies this
      ensures Abs() == DropStep(old(Abs()))
    {
      match tpfState
      case ReadDrop1 =>
        if dropFifoIn1 != [] {
          tpfState := if dropFifoIn1[0] then Drop else ReadDrop2;
          dropFifoIn1 := dropFifoIn1[1..];
        }
      case ReadDrop2 =>
        if dropFifoIn2 != [] {
          tpfState := if dropFifoIn2[0] then Drop else Fwd;
          dropFifoIn2 := dropFifoIn2[1..];
        }
      case Fwd =>
        if dataIn != [] {
          var currWord := dataIn[0];
          dataIn := dataIn[1..];
          if currWord.last {
            tpfState := ReadDrop1;
          }
          rxBufferDataOut := rxBufferDataOut + [currWord];
        }
      case Drop =>
        if dataIn != [] {
          if dataIn[0].last {
            tpfState := ReadDrop1;
          }
          dataIn := dataIn[1..];
        }
    }
  }
}
