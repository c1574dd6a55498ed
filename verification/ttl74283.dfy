/**
 The 74283 TTL part: a 4-bit binary full adder. Its fourteen signal pins
 (the sixteen pins of the package without supply and ground) are numbered
 0 .. 13 as in the pin-name table below; operand bits and sum bits sit at
 interleaved, non-sequential positions.

 Operands A and B and the carry-in are read from their pins, only TRUE
 counting as 1; their sum is written back as five known bits: the four sum
 bits and the carry-out C4.
 */
module Ttl74283 {
  import opened Signal

  /** Name of each signal pin, by port index. */
  const PortNames: seq<string> :=
    ["∑2", "B2", "A2", "∑1", "A1", "B1", "CIN", "C4", "∑4", "B4", "A4", "∑3", "A3", "B3"]

  const PortCount := 14

  /** The operand pins, least significant first. */
  const APins: seq<nat> := [4, 2, 12, 10]
  const BPins: seq<nat> := [5, 1, 13, 9]
  const CinPin: nat := 6
  /** Sum bits 0 .. 3, then the carry-out. */
  const SumPins: seq<nat> := [3, 0, 11, 8, 7]

  /** Every fixed index the adder uses is the pin of that name in the table, and no name is used twice. */
  lemma PinsMatchNames()
    ensures |PortNames| == PortCount
    ensures forall i :: 0 <= i < 4 ==> PortNames[APins[i]] == ["A1", "A2", "A3", "A4"][i]
    ensures forall i :: 0 <= i < 4 ==> PortNames[BPins[i]] == ["B1", "B2", "B3", "B4"][i]
    ensures PortNames[CinPin] == "CIN"
    ensures forall i :: 0 <= i < 5 ==> PortNames[SumPins[i]] == ["∑1", "∑2", "∑3", "∑4", "C4"][i]
    ensures forall k, l :: 0 <= k < l < PortCount ==> PortNames[k] != PortNames[l]
  {
  }

  predicate IsOutputPort(k: int) {
    k in SumPins
  }

  /** The value on the pins `pins`, read as a little-endian binary number. */
  function Read(ports: seq<Value>, pins: seq<nat>): nat
    requires forall i :: 0 <= i < |pins| ==> pins[i] < |ports|
  {
    BitsValue(seq(|pins|, i requires 0 <= i < |pins| => ports[pins[i]]))
  }

  /** The signed 8-bit narrowing of an int. */
  function ToByte(x: int): (b: int)
    ensures -128 <= b < 128
    ensures (x - b) % 256 == 0
  {
    (x + 128) % 256 - 128
  }

  /** What one pin contributes to the raw sum: its weight when TRUE, else nothing. */
  function Weight(v: Value, w: nat): nat {
    if v == TRUE then w else 0
  }

  /** The sum as the part adds it up, pin by pin, before narrowing to a byte. */
  function RawSum(ports: seq<Value>): int
    requires |ports| == PortCount
  {
    Weight(ports[4], 1) + Weight(ports[2], 2) + Weight(ports[12], 4) + Weight(ports[10], 8)
    + Weight(ports[5], 1) + Weight(ports[1], 2) + Weight(ports[13], 4) + Weight(ports[9], 8)
    + Weight(ports[6], 1)
  }

  /** Writes the five result bits to their output pins, leaving every other pin as it was. */
  function Scatter(ports: seq<Value>, output: seq<Value>): (r: seq<Value>)
    requires |ports| == PortCount && |output| == 5
    ensures |r| == PortCount
    ensures forall i :: 0 <= i < 5 ==> r[SumPins[i]] == output[i]
    ensures forall k :: 0 <= k < PortCount && !IsOutputPort(k) ==> r[k] == ports[k]
  {
    ports[3 := output[0]][0 := output[1]][11 := output[2]][8 := output[3]][7 := output[4]]
  }

  /**
   One propagation of the adder: the fourteen port values afterwards. The
   five output pins, read back as binary, spell out A + B + CIN.
   */
  function Propagate(ports: seq<Value>): (r: seq<Value>)
    requires |ports| == PortCount
    ensures |r| == PortCount
    ensures forall k :: 0 <= k < PortCount && !IsOutputPort(k) ==> r[k] == ports[k]
    ensures forall k :: 0 <= k < PortCount && IsOutputPort(k) ==> IsKnown(r[k])
    ensures Read(r, SumPins) == ExpectedSum(ports)
  {
    var sum := ToByte(RawSum(ports));
    var output := CreateKnown(sum, 5);
    RawSumIsOperands(ports);
    ByteCastExact(RawSum(ports));
    CreateKnownRoundTrip(sum, 5);
    ScatterReadsBack(ports, output);
    Scatter(ports, output)
  }

  /** The output pins of a scattered result read back as the scattered bits. */
  lemma ScatterReadsBack(ports: seq<Value>, output: seq<Value>)
    requires |ports| == PortCount && |output| == 5
    ensures Read(Scatter(ports, output), SumPins) == BitsValue(output)
  {
    var r := Scatter(ports, output);
    assert seq(5, i requires 0 <= i < 5 => r[SumPins[i]]) == output;
  }

  /** The sum the adder should produce: A + B + CIN. */
  function ExpectedSum(ports: seq<Value>): (s: nat)
    requires |ports| == PortCount
    ensures s <= 31
  {
    Read(ports, APins) + Read(ports, BPins) + ToBit(ports[CinPin])
  }

  /** The 8-bit narrowing leaves every possible sum alone: it lies in 0 .. 31. */
  lemma ByteCastExact(x: int)
    requires 0 <= x <= 31
    ensures ToByte(x) == x
  {
  }

  /** The raw sum the adder computes before narrowing is A + B + CIN. */
  lemma {:induction false} RawSumIsOperands(ports: seq<Value>)
    requires |ports| == PortCount
    ensures RawSum(ports) == ExpectedSum(ports)
  {
    ReadFour(ports, APins);
    ReadFour(ports, BPins);
  }

  lemma {:induction false} ReadFour(ports: seq<Value>, pins: seq<nat>)
    requires |pins| == 4 && forall i :: 0 <= i < 4 ==> pins[i] < |ports|
    ensures Read(ports, pins)
      == Weight(ports[pins[0]], 1) + Weight(ports[pins[1]], 2) + Weight(ports[pins[2]], 4) + Weight(ports[pins[3]], 8)
  {
    var bits := seq(4, i requires 0 <= i < 4 => ports[pins[i]]);
    assert BitsValue(bits[3..]) == ToBit(ports[pins[3]]) by {
      assert bits[3..][1..] == [];
    }
    assert BitsValue(bits[2..]) == ToBit(ports[pins[2]]) + 2 * BitsValue(bits[3..]) by {
      assert bits[2..][1..] == bits[3..];
    }
    assert BitsValue(bits[1..]) == ToBit(ports[pins[1]]) + 2 * BitsValue(bits[2..]) by {
      assert bits[1..][1..] == bits[2..];
    }
  }

  /** Output pin `SumPins[k]` carries bit `k` of A + B + CIN. */
  lemma {:induction false} OutputBits(ports: seq<Value>, k: nat)
    requires |ports| == PortCount && k < 5
    ensures Propagate(ports)[SumPins[k]] == FromBool((ExpectedSum(ports) / Pow2(k)) % 2 == 1)
  {
    var s := ExpectedSum(ports);
    RawSumIsOperands(ports);
    ByteCastExact(s);
    CreateKnownBit(s, 5, k);
  }

  /** Port vectors with the same raw sum drive the same value onto every output pin. */
  lemma SameRawSumSameOutputs(p: seq<Value>, q: seq<Value>)
    requires |p| == PortCount && |q| == PortCount && RawSum(p) == RawSum(q)
    ensures forall i :: 0 <= i < 5 ==> Propagate(p)[SumPins[i]] == Propagate(q)[SumPins[i]]
  {
    var output := CreateKnown(ToByte(RawSum(p)), 5);
    assert Propagate(p) == Scatter(p, output);
    assert Propagate(q) == Scatter(q, output);
  }

  /** The outputs depend on the operand and carry-in pins only, not on earlier outputs. */
  lemma {:induction false} OutputsDependOnInputsOnly(p: seq<Value>, q: seq<Value>)
    requires |p| == PortCount && |q| == PortCount
    requires forall k :: 0 <= k < PortCount && !IsOutputPort(k) ==> p[k] == q[k]
    ensures Propagate(p) == Propagate(q)
  {
    RawSumReadsInputsOnly(p, q);
    SameRawSumSameOutputs(p, q);
    var rp := Propagate(p);
    var rq := Propagate(q);
    forall k | 0 <= k < PortCount
      ensures rp[k] == rq[k]
    {
      if IsOutputPort(k) {
        var i :| 0 <= i < 5 && SumPins[i] == k;
        assert rp[SumPins[i]] == rq[SumPins[i]];
      } else {
        assert rp[k] == p[k] && rq[k] == q[k];
      }
    }
    assert rp == rq;
  }

  /** The raw sum reads no output pin. */
  lemma RawSumReadsInputsOnly(p: seq<Value>, q: seq<Value>)
    requires |p| == PortCount && |q| == PortCount
    requires forall k :: 0 <= k < PortCount && !IsOutputPort(k) ==> p[k] == q[k]
    ensures RawSum(p) == RawSum(q)
  {
    assert !IsOutputPort(1) && !IsOutputPort(2) && !IsOutputPort(4) && !IsOutputPort(5) && !IsOutputPort(6);
    assert !IsOutputPort(9) && !IsOutputPort(10) && !IsOutputPort(12) && !IsOutputPort(13);
    assert p[1] == q[1] && p[2] == q[2] && p[4] == q[4] && p[5] == q[5] && p[6] == q[6];
    assert p[9] == q[9] && p[10] == q[10] && p[12] == q[12] && p[13] == q[13];
  }

  /** Only TRUE counts: an input pin holding FALSE, UNKNOWN or ERROR yields the same outputs. */
  lemma {:induction false} NonTrueInputReadsAsZero(ports: seq<Value>, k: nat, v: Value)
    requires |ports| == PortCount && k < PortCount && !IsOutputPort(k) && v != TRUE
    ensures forall i :: 0 <= i < 5 ==> Propagate(ports[k := v])[SumPins[i]] == Propagate(ports[k := FALSE])[SumPins[i]]
  {
    var p1 := ports[k := v];
    var p2 := ports[k := FALSE];
    assert forall j, w: nat :: 0 <= j < PortCount ==> Weight(p1[j], w) == Weight(p2[j], w);
    assert RawSum(p1) == RawSum(p2);
    SameRawSumSameOutputs(p1, p2);
  }

  /** Exchanges the A and B operand values bit by bit. */
  function SwapOperands(ports: seq<Value>): (r: seq<Value>)
    requires |ports| == PortCount
    ensures |r| == PortCount
  {
    ports[4 := ports[5]][5 := ports[4]]
         [2 := ports[1]][1 := ports[2]]
         [12 := ports[13]][13 := ports[12]]
         [10 := ports[9]][9 := ports[10]]
  }

  /** Addition commutes: exchanging the operands changes no output pin. */
  lemma {:induction false} SwapOperandsSameOutputs(ports: seq<Value>)
    requires |ports| == PortCount
    ensures forall i :: 0 <= i < 5 ==> Propagate(SwapOperands(ports))[SumPins[i]] == Propagate(ports)[SumPins[i]]
  {
    var sw := SwapOperands(ports);
    assert RawSum(sw) == RawSum(ports);
    SameRawSumSameOutputs(sw, ports);
  }

  /** A = 9, B = 6, CIN = 1 gives 16: only the carry-out C4 is TRUE. */
  lemma NineAndSixAndCarryExample()
    ensures var ports := [FALSE, TRUE, FALSE, FALSE, TRUE, FALSE, TRUE, FALSE, FALSE, FALSE, TRUE, FALSE, FALSE, TRUE];
      var r := Propagate(ports);
      && ExpectedSum(ports) == 16
      && r[3] == FALSE && r[0] == FALSE && r[11] == FALSE && r[8] == FALSE && r[7] == TRUE
  {
    var ports := [FALSE, TRUE, FALSE, FALSE, TRUE, FALSE, TRUE, FALSE, FALSE, FALSE, TRUE, FALSE, FALSE, TRUE];
    assert RawSum(ports) == 16;
    RawSumIsOperands(ports);
    var output := CreateKnown(16, 5);
    assert output == [FALSE, FALSE, FALSE, FALSE, TRUE];
    assert Propagate(ports) == Scatter(ports, output);
  }
}
