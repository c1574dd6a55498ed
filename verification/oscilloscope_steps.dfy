/**
 The oscilloscope's propagation written the way the component performs it:
 slot by slot through the memory's get/set accessors, shifting each channel
 with an inner loop. Each method is shown to compute exactly the
 whole-grid rule of `Oscilloscope.Propagate`.
 */
module OscilloscopeSteps {
  import opened Signal
  import opened Diagram
  import opened Oscilloscope

  /**
   Moves every sample of channel `i` one slot towards the oldest end, the
   newest slot keeping its old value, leaving every other channel alone.
   */
  method ShiftChannel(st: DiagramState, i: nat) returns (r: DiagramState)
    requires i < |st.buf| && |st.buf[i]| > 0
    ensures r.lastClock == st.lastClock
    ensures |r.buf| == |st.buf|
    ensures forall k :: 0 <= k < |r.buf| && k != i ==> r.buf[k] == st.buf[k]
    ensures r.buf[i] == st.buf[i][1..] + [st.buf[i][|st.buf[i]| - 1]]
  {
    var length := |st.buf[i]|;
    r := st;
    var j := 0;
    while j < length - 1
      invariant 0 <= j <= length - 1
      invariant r.lastClock == st.lastClock
      invariant |r.buf| == |st.buf|
      invariant forall k :: 0 <= k < |r.buf| && k != i ==> r.buf[k] == st.buf[k]
      invariant |r.buf[i]| == length
      invariant forall l :: 0 <= l < j ==> r.buf[i][l] == st.buf[i][l + 1]
      invariant forall l :: j <= l < length ==> r.buf[i][l] == st.buf[i][l]
    {
      r := SetState(r, i, j, GetState(r, i, j + 1));
      j := j + 1;
    }
  }

  /** One propagation, performed step by step; it agrees with the whole-grid rule. */
  method PropagateSteps(a: Attributes, st: DiagramState, ports: seq<Value>) returns (r: DiagramState)
    requires ValidAttributes(a)
    requires Shaped(st, Channels(a), Depth(a))
    requires PortsFit(a, ports)
    ensures r == Propagate(a, st, ports)
  {
    var inputs := a.inputs + 1;
    var length := a.nState * 2;
    var clock := ports[0];
    var swapped := SetLastClock(st, clock);
    var lastclock := swapped.0;
    r := swapped.1;
    if lastclock != UNKNOWN && clock != UNKNOWN && ports[inputs + 1] != TRUE && ports[inputs] != FALSE {
      if lastclock != clock {
        var i := 0;
        while i < inputs
          invariant 0 <= i <= inputs
          invariant r.lastClock == clock
          invariant |r.buf| == inputs
          invariant forall k :: 0 <= k < i ==> r.buf[k] == ShiftIn(st.buf[k], ports[k] == TRUE)
          invariant forall k :: i <= k < inputs ==> r.buf[k] == st.buf[k]
        {
          r := ShiftChannel(r, i);
          r := SetState(r, i, length - 1, ports[i] == TRUE);
          assert r.buf[i] == ShiftIn(st.buf[i], ports[i] == TRUE);
          i := i + 1;
        }
        assert r.buf == Capture(st.buf, ports);
      } else {
        var i := 1;
        while i < inputs
          invariant 1 <= i <= inputs
          invariant r.lastClock == clock
          invariant |r.buf| == inputs
          invariant forall k :: 0 <= k < i ==> r.buf[k] == Refresh(st.buf, ports)[k]
          invariant forall k :: i <= k < inputs ==> r.buf[k] == st.buf[k]
        {
          r := SetState(r, i, length - 1, ports[i] == TRUE);
          assert r.buf[i] == Refresh(st.buf, ports)[i];
          i := i + 1;
        }
        assert r.buf == Refresh(st.buf, ports);
      }
    } else if ports[inputs + 1] == TRUE {
      r := Clear(r);
      assert r.buf == Clear(st).buf;
    }
  }
}
