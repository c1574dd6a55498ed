/**
 The digital oscilloscope component: its configuration ranges, the shape of
 its sample grid, its port list, and the rule by which one propagation
 updates the grid from the current port values.

 Port roles, as the propagation rule reads them (with `n` the configured
 number of inputs):
   0           clock, also recorded as channel 0
   1 .. n      data inputs, recorded as channels 1 .. n
   n + 1       enable: only FALSE stops sampling
   n + 2       clear: TRUE empties the grid
 */
module Oscilloscope {
  import opened Signal
  import opened Diagram

  /** The two configuration attributes that shape the component. */
  datatype Attributes = Attributes(inputs: int, nState: int)

  const MinInputs := 1
  const MaxInputs := 32
  const MinNState := 4
  const MaxNState := 35

  /** Gap between the component's outline and its drawing area; it also places the control ports. */
  const Border := 10

  predicate ValidAttributes(a: Attributes) {
    MinInputs <= a.inputs <= MaxInputs && MinNState <= a.nState <= MaxNState
  }

  // ---------------------------------------------------------------------
  // Sizing

  /** Number of recorded channels: the clock plus every data input. */
  function Channels(a: Attributes): (c: nat)
    requires ValidAttributes(a)
    ensures 2 <= c <= 33
    ensures c == a.inputs + 1
  {
    a.inputs + 1
  }

  /** Number of samples kept per channel: two per configured state. */
  function Depth(a: Attributes): (d: nat)
    requires ValidAttributes(a)
    ensures 8 <= d <= 70
    ensures d % 2 == 0
  {
    a.nState * 2
  }

  /** Memory of an already configured instance, or a fresh one on first use. */
  function GetDiagramState(a: Attributes, slot: Slot): (st: DiagramState)
    requires ValidAttributes(a)
    requires slot.Holding? ==> Shaped(slot.state, Channels(a), Depth(a))
    ensures Shaped(st, Channels(a), Depth(a))
    ensures slot.Holding? ==> st == slot.state
    ensures slot.Empty? ==> AllFalse(st.buf) && st.lastClock == UNKNOWN
  {
    match slot
    case Empty => New(Channels(a), Depth(a))
    case Holding(st) => st
  }

  // ---------------------------------------------------------------------
  // Ports

  datatype Direction = Input | Output

  /** A pin: offset from the component's anchor, direction and bit width. */
  datatype Port = Port(dx: int, dy: int, dir: Direction, width: nat)

  /**
   The port list for `inputs` data inputs: clock and data inputs stacked
   down the left edge, then the two control inputs side by side below them.
   */
  function UpdatePorts(inputs: int): (ports: seq<Port>)
    requires MinInputs <= inputs <= MaxInputs
    ensures |ports| == inputs + 3
    ensures forall k :: 0 <= k < |ports| ==> ports[k].dir == Input && ports[k].width == 1
    ensures forall k, l :: 0 <= k < l < |ports| ==> (ports[k].dx, ports[k].dy) != (ports[l].dx, ports[l].dy)
  {
    seq(inputs + 3, k =>
      if k <= inputs then Port(0, 30 * k, Input, 1)
      else if k == inputs + 1 then Port(20, 30 * inputs + 2 * Border, Input, 1)
      else Port(30, 30 * inputs + 2 * Border, Input, 1))
  }

  /** The port whose FALSE value stops sampling. */
  function EnablePort(a: Attributes): nat
    requires ValidAttributes(a)
  {
    Channels(a)
  }

  /** The port whose TRUE value empties the grid. */
  function ClearPort(a: Attributes): nat
    requires ValidAttributes(a)
  {
    Channels(a) + 1
  }

  /** Port values as delivered for a component configured with `a`. */
  predicate PortsFit(a: Attributes, ports: seq<Value>)
    requires ValidAttributes(a)
  {
    |ports| == |UpdatePorts(a.inputs)|
  }

  /**
   Every index the propagation rule reads is a port of the list: the
   recorded channels, enable and clear are the whole list, each once.
   Enable is the first of the two control ports, clear the second.
   */
  lemma PortRolesInRange(a: Attributes)
    requires ValidAttributes(a)
    ensures EnablePort(a) == a.inputs + 1
    ensures ClearPort(a) == a.inputs + 2 == |UpdatePorts(a.inputs)| - 1
    ensures UpdatePorts(a.inputs)[EnablePort(a)].dx == 20
    ensures UpdatePorts(a.inputs)[ClearPort(a)].dx == 30
    ensures forall k :: 0 <= k < Channels(a) ==> UpdatePorts(a.inputs)[k].dx == 0
  {
  }

  // ---------------------------------------------------------------------
  // Propagation

  /** Sampling is armed: both clocks known, clear not TRUE, enable not FALSE. */
  predicate Armed(a: Attributes, lastClock: Value, ports: seq<Value>)
    requires ValidAttributes(a) && PortsFit(a, ports)
  {
    lastClock != UNKNOWN && ports[0] != UNKNOWN
    && ports[ClearPort(a)] != TRUE && ports[EnablePort(a)] != FALSE
  }

  /** Drops the oldest sample of a channel and appends `b` as the newest. */
  function ShiftIn(row: seq<bool>, b: bool): (r: seq<bool>)
    requires |row| > 0
    ensures |r| == |row|
    ensures r[|r| - 1] == b
    ensures forall j :: 0 <= j < |r| - 1 ==> r[j] == row[j + 1]
  {
    row[1..] + [b]
  }

  /** A clock edge: every channel shifts in its port's current reading. */
  function Capture(buf: seq<seq<bool>>, ports: seq<Value>): seq<seq<bool>>
    requires |buf| <= |ports|
    requires forall i :: 0 <= i < |buf| ==> |buf[i]| > 0
  {
    seq(|buf|, i requires 0 <= i < |buf| => ShiftIn(buf[i], ports[i] == TRUE))
  }

  /** No edge: channels other than the clock's rewrite their newest sample. */
  function Refresh(buf: seq<seq<bool>>, ports: seq<Value>): seq<seq<bool>>
    requires |buf| <= |ports|
    requires forall i :: 0 <= i < |buf| ==> |buf[i]| > 0
  {
    seq(|buf|, i requires 0 <= i < |buf| =>
      if i == 0 then buf[i] else buf[i][|buf[i]| - 1 := ports[i] == TRUE])
  }

  /**
   One propagation. The clock is remembered first, whatever happens next;
   the decision uses the clock remembered by the previous call. Read in
   order of priority:
   - clear TRUE empties every slot of every channel;
   - otherwise, an unknown remembered clock, an unknown clock or enable
     FALSE leaves the grid as it was;
   - otherwise, a clock different from the remembered one is an edge: every
     channel, the clock's own included, moves one slot towards the oldest end
     and takes its port's reading (TRUE or not) as the newest sample;
   - otherwise the clock channel and all older slots stay, and only the
     newest slot of each data channel takes its port's reading.
   */
  function Propagate(a: Attributes, st: DiagramState, ports: seq<Value>): (r: DiagramState)
    requires ValidAttributes(a)
    requires Shaped(st, Channels(a), Depth(a))
    requires PortsFit(a, ports)
    ensures Shaped(r, Channels(a), Depth(a))
    ensures r.lastClock == ports[0]
    ensures ports[ClearPort(a)] == TRUE ==> AllFalse(r.buf)
    ensures ports[ClearPort(a)] != TRUE
      && (st.lastClock == UNKNOWN || ports[0] == UNKNOWN || ports[EnablePort(a)] == FALSE)
      ==> r.buf == st.buf
    ensures Armed(a, st.lastClock, ports) && st.lastClock != ports[0] ==>
      forall i, j :: 0 <= i < Channels(a) && 0 <= j < Depth(a) ==>
        r.buf[i][j] == if j < Depth(a) - 1 then st.buf[i][j + 1] else ports[i] == TRUE
    ensures Armed(a, st.lastClock, ports) && st.lastClock == ports[0] ==>
      && r.buf[0] == st.buf[0]
      && (forall i, j :: 0 <= i < Channels(a) && 0 <= j < Depth(a) - 1 ==> r.buf[i][j] == st.buf[i][j])
      && (forall i :: 1 <= i < Channels(a) ==> r.buf[i][Depth(a) - 1] == (ports[i] == TRUE))
  {
    var clock := ports[0];
    var (lastclock, s) := SetLastClock(st, clock);
    if Armed(a, lastclock, ports) then
      if lastclock != clock then s.(buf := Capture(s.buf, ports))
      else s.(buf := Refresh(s.buf, ports))
    else if ports[ClearPort(a)] == TRUE then Clear(s)
    else s
  }

  /** The propagation the simulator runs on an instance: fetch or create the memory, then update it. */
  function PropagateInstance(a: Attributes, slot: Slot, ports: seq<Value>): (r: DiagramState)
    requires ValidAttributes(a)
    requires slot.Holding? ==> Shaped(slot.state, Channels(a), Depth(a))
    requires PortsFit(a, ports)
    ensures Shaped(r, Channels(a), Depth(a))
    ensures r.lastClock == ports[0]
  {
    Propagate(a, GetDiagramState(a, slot), ports)
  }

  // ---------------------------------------------------------------------
  // Properties relating several propagations

  /** Only FALSE disables: an UNKNOWN or ERROR enable acts exactly like TRUE. */
  lemma UndrivenEnableSamples(a: Attributes, st: DiagramState, ports: seq<Value>, e: Value)
    requires ValidAttributes(a) && Shaped(st, Channels(a), Depth(a)) && PortsFit(a, ports)
    requires e != FALSE
    ensures Propagate(a, st, ports[EnablePort(a) := e]) == Propagate(a, st, ports[EnablePort(a) := TRUE])
  {
  }

  /**
   Calling twice with the same ports does what one call does, except in one
   situation: the memory had no known clock yet while sampling is otherwise
   armed. Then the first call only records the clock and the second refreshes
   the newest samples (see `SecondCallAfterUnknownClockRefreshes`).
   */
  lemma {:induction false} PropagateIdempotent(a: Attributes, st: DiagramState, ports: seq<Value>)
    requires ValidAttributes(a) && Shaped(st, Channels(a), Depth(a)) && PortsFit(a, ports)
    requires !(st.lastClock == UNKNOWN && Armed(a, TRUE, ports))
    ensures var r := Propagate(a, st, ports); Propagate(a, r, ports) == r
  {
    var r := Propagate(a, st, ports);
    var r2 := Propagate(a, r, ports);
    assert r2.lastClock == r.lastClock;
    if Armed(a, r.lastClock, ports) {
      assert Armed(a, st.lastClock, ports);
      var n := Depth(a);
      forall i | 0 <= i < Channels(a)
        ensures r2.buf[i] == r.buf[i]
      {
        if i > 0 {
          assert r2.buf[i] == r.buf[i][n - 1 := ports[i] == TRUE];
          assert r.buf[i][n - 1] == (ports[i] == TRUE);
        }
      }
    } else if ports[ClearPort(a)] == TRUE {
      assert AllFalse(r.buf) && AllFalse(r2.buf);
      forall i | 0 <= i < Channels(a)
        ensures r2.buf[i] == r.buf[i]
      {
        assert forall j :: 0 <= j < Depth(a) ==> !r2.buf[i][j] && !r.buf[i][j];
      }
    }
    assert r2.buf == r.buf;
  }

  /** In particular, with the remembered clock already equal to the current one, a repeat call changes nothing. */
  lemma {:induction false} SameClockIdempotent(a: Attributes, st: DiagramState, ports: seq<Value>)
    requires ValidAttributes(a) && Shaped(st, Channels(a), Depth(a)) && PortsFit(a, ports)
    requires st.lastClock == ports[0]
    ensures var r := Propagate(a, st, ports); Propagate(a, r, ports) == r
  {
    PropagateIdempotent(a, st, ports);
  }

  /** The exception to idempotence exists: a data input TRUE behind an unknown remembered clock. */
  lemma SecondCallAfterUnknownClockRefreshes()
    ensures var a := Attributes(1, 4);
      var st := New(Channels(a), Depth(a));
      var ports := [TRUE, TRUE, TRUE, FALSE];
      var r := Propagate(a, st, ports);
      && r.buf == st.buf
      && Propagate(a, r, ports).buf[1][7]
  {
  }

  /** A fresh instance never samples on its first propagation: its grid stays all false. */
  lemma FirstPropagationRecordsNothing(a: Attributes, ports: seq<Value>)
    requires ValidAttributes(a) && PortsFit(a, ports)
    ensures var r := PropagateInstance(a, Empty, ports);
      AllFalse(r.buf) && r.lastClock == ports[0]
  {
  }

  /** Two clock edges (rising, then falling) on a one-input scope whose data input is TRUE, then FALSE. */
  lemma TwoEdgesExample()
    ensures var a := Attributes(1, 4);
      var st0 := DiagramState(seq(2, _ => seq(8, _ => false)), FALSE);
      var st1 := Propagate(a, st0, [TRUE, TRUE, TRUE, FALSE]);
      var st2 := Propagate(a, st1, [FALSE, FALSE, TRUE, FALSE]);
      && st1.buf[1] == [false, false, false, false, false, false, false, true]
      && st2.buf[1] == [false, false, false, false, false, false, true, false]
      && st2.buf[0] == [false, false, false, false, false, false, true, false]
  {
  }
}
