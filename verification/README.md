# Logisim oscilloscope and 74283 adder: a verified model

This project models, in Dafny, two per-component propagation rules of the
Logisim digital-logic simulator (the BFH fork):

- **The digital oscilloscope** (`DigitalOscilloscope`). It keeps a grid of
  sampled booleans, one row (channel) per recorded input and one column
  (slot) per sample, newest sample in the last slot, plus the clock value
  it saw on the previous propagation. Each propagation either clears the
  grid, leaves it alone, captures a sample on a clock edge (every channel
  shifts one slot towards the oldest end and takes its input's reading) or
  refreshes the newest slot of the data channels when the clock has not
  changed. The model also covers the grid's sizing from the `inputs` and
  `nState` attributes and the port list the component declares.
- **The 74283 TTL part** (`Ttl74283`), a 4-bit binary full adder. It reads
  operands A and B and the carry-in from interleaved pins, adds them, and
  writes the four sum bits and the carry-out to interleaved output pins.

Signals are the four-tag `Signal.Value` (`TRUE`, `FALSE`, `UNKNOWN`,
`ERROR`), compared by tag: the simulator shares one object per single-bit
value, so its reference comparisons are tag comparisons. Ports are given as
a sequence of values indexed like the component's port list; the
oscilloscope's memory is an immutable `Diagram.DiagramState` record, and
every propagation is a pure function from the old memory and the port
values to the new memory (oscilloscope) or the new port values (adder).

Files:

- `signal.dfy` — `Signal`: values, the TRUE-only bit reading, the
  `createKnown` bit split and the binary read-back, with their round trip.
- `diagram.dfy` — `Diagram`: the oscilloscope's memory and its accessors
  (get/set one slot, clear, swap in the last clock).
- `oscilloscope.dfy` — `Oscilloscope`: attributes, sizing, port list,
  the propagation rule and its properties.
- `oscilloscope_steps.dfy` — `OscilloscopeSteps`: the propagation performed
  slot by slot with loops, as the component does it, proved equal to the
  whole-grid rule.
- `ttl74283.dfy` — `Ttl74283`: pin table, the adder and its properties.

### Port roles of the oscilloscope

With `n` the value of the `inputs` attribute, the component declares
`n + 3` one-bit input ports. The propagation rule reads them as: port 0 the
clock (recorded as channel 0), ports `1 .. n` the data inputs (channels
`1 .. n`), port `n + 1` the enable (only `FALSE` stops sampling), port
`n + 2` the clear (`TRUE` empties the grid). The model follows these
indices. The source comments in `updateports` label port `n + 1` "clear"
and port `n + 2` "enable"; the tooltips attached there and the propagation
code agree with each other and with the model, so the comments are the odd
ones out.

### Clear, enable and the remembered clock

The code reads port `n + 2` as clear and port `n + 1` as enable, and it
records the new clock (`setLastClock`) before choosing a branch, so the
remembered clock is the current clock after every call, the clearing one
included. The model follows the code.

Repeated propagation with the same ports is idempotent, except when the
remembered clock is `UNKNOWN` (a fresh memory) and sampling is otherwise
armed: the first call only records the clock and the second call refreshes
the newest slot of the data channels. `PropagateIdempotent` proves
idempotence in every other case, and `SecondCallAfterUnknownClockRefreshes`
exhibits the exception.

## Model

| member | source | states |
|---|---|---|
| Signal.CreateKnown | Logisim-Fork/com/cburch/logisim/std/ttl/Ttl74283.java:45 | a width-`w` known value has exactly `w` bits, each TRUE or FALSE |
| Signal.CreateKnownRoundTrip | Logisim-Fork/com/cburch/logisim/std/ttl/Ttl74283.java:44-45 | splitting any number below `2^w` into `w` bits and reading them back as binary gives the number |
| Signal.CreateKnownBit | Logisim-Fork/com/cburch/logisim/std/ttl/Ttl74283.java:45-50 | bit `i` of the split is `(v >> i) & 1`, i.e. `(v / 2^i) % 2`, for every `v`, negative ones included |
| Diagram.New | Logisim-Fork/com/cburch/logisim/std/io/DigitalOscilloscope.java:96-99 | a fresh memory has the requested shape, all slots false, remembered clock UNKNOWN (assumed fill values) |
| Diagram.SetState | Logisim-Fork/com/cburch/logisim/std/io/DigitalOscilloscope.java:238 | writing one slot changes that slot and nothing else: shape, other slots and remembered clock stay |
| Diagram.Clear | Logisim-Fork/com/cburch/logisim/std/io/DigitalOscilloscope.java:250-251 | clearing makes every slot false and keeps the shape and the remembered clock |
| Diagram.SetLastClock | Logisim-Fork/com/cburch/logisim/std/io/DigitalOscilloscope.java:228 | the new clock is remembered, the previously remembered one is handed back, the grid is untouched |
| Oscilloscope.Channels | Logisim-Fork/com/cburch/logisim/std/io/DigitalOscilloscope.java:94 | the number of channels is the number of inputs plus one, between 2 and 33 for every allowed attribute value |
| Oscilloscope.Depth | Logisim-Fork/com/cburch/logisim/std/io/DigitalOscilloscope.java:95 | the number of slots per channel lies in 8 .. 70 and is always even |
| Oscilloscope.GetDiagramState | Logisim-Fork/com/cburch/logisim/std/io/DigitalOscilloscope.java:93-104 | an existing memory of the configured shape is returned as is; an absent one is created with that shape, all false, clock UNKNOWN |
| Oscilloscope.UpdatePorts | Logisim-Fork/com/cburch/logisim/std/io/DigitalOscilloscope.java:254-269 | `inputs + 3` ports, all one-bit inputs, no two at the same position |
| Oscilloscope.PortRolesInRange | Logisim-Fork/com/cburch/logisim/std/io/DigitalOscilloscope.java:223-264 | every index propagation reads is a declared port: channels `0 .. n` on the left edge, enable and clear are the last two ports (enable at x = 20, clear at x = 30) |
| Oscilloscope.ShiftIn | Logisim-Fork/com/cburch/logisim/std/io/DigitalOscilloscope.java:236-241 | a shifted channel keeps its length, each slot takes its newer neighbour's value and the newest slot takes the new sample |
| Oscilloscope.Propagate | Logisim-Fork/com/cburch/logisim/std/io/DigitalOscilloscope.java:222-252 | shape kept; remembered clock becomes the port-0 value; clear TRUE empties the grid; idle cases keep the grid; an edge shifts every channel and appends each port's reading; without an edge only the newest slot of data channels is rewritten |
| Oscilloscope.PropagateInstance | Logisim-Fork/com/cburch/logisim/std/io/DigitalOscilloscope.java:222-228 | an instance's propagation always leaves a memory of the configured shape that remembers the current clock |
| Oscilloscope.UndrivenEnableSamples | Logisim-Fork/com/cburch/logisim/std/io/DigitalOscilloscope.java:230-231 | only FALSE on the enable port blocks sampling: any other enable value gives exactly the result of TRUE |
| Oscilloscope.PropagateIdempotent | Logisim-Fork/com/cburch/logisim/std/io/DigitalOscilloscope.java:225-251 | repeating a call with the same ports changes nothing, unless the memory's clock was UNKNOWN with sampling otherwise armed |
| Oscilloscope.SameClockIdempotent | Logisim-Fork/com/cburch/logisim/std/io/DigitalOscilloscope.java:228-251 | when the remembered clock already equals the current clock, a repeated call changes nothing |
| Oscilloscope.SecondCallAfterUnknownClockRefreshes | Logisim-Fork/com/cburch/logisim/std/io/DigitalOscilloscope.java:228-246 | from a fresh memory, a first call leaves the grid alone while a second identical call writes a data channel's newest slot |
| Oscilloscope.FirstPropagationRecordsNothing | Logisim-Fork/com/cburch/logisim/std/io/DigitalOscilloscope.java:226-231 | the first propagation of a new instance never samples: its grid stays all false and it remembers the clock |
| Oscilloscope.TwoEdgesExample | Logisim-Fork/com/cburch/logisim/std/io/DigitalOscilloscope.java:233-242 | two edges with the data input TRUE then FALSE leave `..., true, false` in the newest two slots |
| OscilloscopeSteps.ShiftChannel | Logisim-Fork/com/cburch/logisim/std/io/DigitalOscilloscope.java:237-239 | the in-place shift loop moves every slot of one channel one place towards the oldest end and touches no other channel |
| OscilloscopeSteps.PropagateSteps | Logisim-Fork/com/cburch/logisim/std/io/DigitalOscilloscope.java:222-252 | the slot-by-slot propagation computes exactly the whole-grid rule `Oscilloscope.Propagate` |
| Ttl74283.PinsMatchNames | Logisim-Fork/com/cburch/logisim/std/ttl/Ttl74283.java:12-13 | every pin index the adder reads or writes carries the matching name in the pin table, and no name appears twice |
| Ttl74283.ToByte | Logisim-Fork/com/cburch/logisim/std/ttl/Ttl74283.java:44 | the byte cast yields a value in -128 .. 127 congruent to its argument modulo 256 |
| Ttl74283.ByteCastExact | Logisim-Fork/com/cburch/logisim/std/ttl/Ttl74283.java:44 | the byte cast never wraps for sums in 0 .. 31 |
| Ttl74283.ExpectedSum | Logisim-Fork/com/cburch/logisim/std/ttl/Ttl74283.java:35-44 | A + B + CIN read from the named pins never exceeds 31 |
| Ttl74283.Scatter | Logisim-Fork/com/cburch/logisim/std/ttl/Ttl74283.java:46-50 | result bit `i` lands on output pin `SumPins[i]` (pins 3, 0, 11, 8, 7) and every other pin keeps its value |
| Ttl74283.ScatterReadsBack | Logisim-Fork/com/cburch/logisim/std/ttl/Ttl74283.java:46-50 | the five output pins, read in the order ∑1, ∑2, ∑3, ∑4, C4, give back the number the five result bits spell |
| Ttl74283.Propagate | Logisim-Fork/com/cburch/logisim/std/ttl/Ttl74283.java:34-51 | only pins 0, 3, 7, 8, 11 change, each of them ends TRUE or FALSE, and reading them back as binary (∑1, ∑2, ∑3, ∑4, C4) gives exactly A + B + CIN |
| Ttl74283.RawSumIsOperands | Logisim-Fork/com/cburch/logisim/std/ttl/Ttl74283.java:35-44 | the weighted pin-by-pin sum equals A + B + CIN with A, B read as 4-bit binary from their pins |
| Ttl74283.OutputBits | Logisim-Fork/com/cburch/logisim/std/ttl/Ttl74283.java:45-50 | output pin `SumPins[k]` carries bit `k` of A + B + CIN |
| Ttl74283.OutputsDependOnInputsOnly | Logisim-Fork/com/cburch/logisim/std/ttl/Ttl74283.java:34-51 | two port vectors agreeing on every non-output pin propagate to identical port vectors: no state, no dependence on earlier outputs |
| Ttl74283.NonTrueInputReadsAsZero | Logisim-Fork/com/cburch/logisim/std/ttl/Ttl74283.java:35-43 | an input pin holding FALSE, UNKNOWN or ERROR gives the same outputs |
| Ttl74283.SwapOperandsSameOutputs | Logisim-Fork/com/cburch/logisim/std/ttl/Ttl74283.java:44-50 | exchanging the A and B operand pins leaves every output pin unchanged |
| Ttl74283.NineAndSixAndCarryExample | Logisim-Fork/com/cburch/logisim/std/ttl/Ttl74283.java:44-50 | A = 9, B = 6, CIN = 1 gives 16: only C4 (pin 7) is TRUE |

## Left out

- Drawing: `paintInstance`, `paintGhost`, `paintInternal`, label placement (`computeTextField`), bounds (`getOffsetBounds`), colours, fonts, icons and the trigger-line detection of the oscilloscope's painter; the `frontlines`, `showclock` and colour attributes only affect drawing. Drawing does touch simulation state in one way: `paintInstance` calls `getDiagramState`, so a first paint may create the memory exactly as a first propagation would (the `Empty` case of `GetDiagramState`), and later paints may resize it, which is left out along with `updateSize` below.
- Resizing an existing memory (`updateSize`): the memory class is not part of this model, so what survives a resize and the fill value are unknown. `GetDiagramState` and `Propagate` instead require the memory to have the configured shape already.
- Diagram.New: the fill value of a fresh grid (false) and its first remembered clock (UNKNOWN) are assumptions; the memory class's constructor is not part of this model.
- Diagram.Clear: assumed to leave the remembered clock alone; the memory class is not part of this model.
- Oscilloscope.UpdatePorts: port tooltips are not modelled; they are display text.
- The attribute listener (`instanceAttributeChanged`, `configureNewInstance`): when ports are regenerated is the framework's business; the model takes the current attributes as a parameter.
- The simulation engine: when propagation is scheduled, `getData`/`setData`, and the propagation delay of 1 passed to `setPort` in the adder.
- Multi-bit `Value` and `BitWidth` internals: only single-bit values appear, modelled as four tags; `createKnown` is modelled by its bit semantics.
- The TTL base class (`AbstractTtlGate`): the mapping from package pin numbers to port indices, and supply/ground pins, are not part of this model; the adder works on the fourteen port indices directly.
- Concurrency: there is none in these components.
