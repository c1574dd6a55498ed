/**
 The oscilloscope's private simulation memory: a channels x slots grid of
 sampled booleans (oldest sample in slot 0, newest in the last slot) and the
 clock value seen on the previous propagation.

 The class holding this memory in the simulator is not part of this model;
 its accessors are modelled here as plain sequence operations, and the
 fill value of a fresh grid and its first remembered clock are assumptions
 (all false, UNKNOWN).
 */
module Diagram {
  import opened Signal

  datatype DiagramState = DiagramState(buf: seq<seq<bool>>, lastClock: Value)

  /** The per-instance data slot: empty until the first propagation or paint. */
  datatype Slot = Empty | Holding(state: DiagramState)

  /** The grid has exactly `channels` rows of `depth` slots each. */
  predicate Shaped(st: DiagramState, channels: nat, depth: nat) {
    && |st.buf| == channels
    && forall i :: 0 <= i < channels ==> |st.buf[i]| == depth
  }

  /** Every slot of every channel holds false. */
  predicate AllFalse(buf: seq<seq<bool>>) {
    forall i, j :: 0 <= i < |buf| && 0 <= j < |buf[i]| ==> !buf[i][j]
  }

  /** A fresh memory of the given shape. */
  function New(channels: nat, depth: nat): (st: DiagramState)
    ensures Shaped(st, channels, depth)
    ensures AllFalse(st.buf)
    ensures st.lastClock == UNKNOWN
  {
    DiagramState(seq(channels, _ => seq(depth, _ => false)), UNKNOWN)
  }

  function GetState(st: DiagramState, i: nat, j: nat): bool
    requires i < |st.buf| && j < |st.buf[i]|
  {
    st.buf[i][j]
  }

  /** Writes one slot of one channel and nothing else. */
  function SetState(st: DiagramState, i: nat, j: nat, b: bool): (r: DiagramState)
    requires i < |st.buf| && j < |st.buf[i]|
    ensures r.lastClock == st.lastClock
    ensures |r.buf| == |st.buf|
    ensures forall k :: 0 <= k < |r.buf| ==> |r.buf[k]| == |st.buf[k]|
    ensures GetState(r, i, j) == b
    ensures forall k, l :: 0 <= k < |r.buf| && 0 <= l < |r.buf[k]| && (k != i || l != j) ==> r.buf[k][l] == st.buf[k][l]
  {
    st.(buf := st.buf[i := st.buf[i][j := b]])
  }

  /** Sets every slot to false, keeping the shape and the remembered clock. */
  function Clear(st: DiagramState): (r: DiagramState)
    ensures r.lastClock == st.lastClock
    ensures |r.buf| == |st.buf|
    ensures forall k :: 0 <= k < |r.buf| ==> |r.buf[k]| == |st.buf[k]|
    ensures AllFalse(r.buf)
  {
    st.(buf := seq(|st.buf|, i requires 0 <= i < |st.buf| => seq(|st.buf[i]|, _ => false)))
  }

  /** Remembers `clock` and hands back the clock remembered before. */
  function SetLastClock(st: DiagramState, clock: Value): (res: (Value, DiagramState))
    ensures res.0 == st.lastClock
    ensures res.1.lastClock == clock
    ensures res.1.buf == st.buf
  {
    (st.lastClock, st.(lastClock := clock))
  }
}
