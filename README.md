# ON/OFF traffic generator and tandem set-up of a two-queue network simulator

This project models, in Dafny, the core of a discrete-event simulator of two chained
single-server queues fed by ON/OFF (interrupted-Poisson) traffic sources:

- `packet_generator.dfy` (module `Simulator`): the traffic generator `PacketGenerator`. It is a
  class whose state is the ON/OFF flag and the last ON duration drawn, and whose handlers add
  events to the shared event queue or packets to its target queue. The event queue and the
  target queue are modelled as outboxes (`EventQueue.pending`, `Queue.received`): the list of
  everything handed to them, in order. Every handler is specified by a function of the
  generator's state and the triggering event (`SwitchEvents`, `SlotEvents`, `DeferredSend`), and
  the lemmas state what those schedules promise: how many events, at which times, in which order,
  and when each packet of an ON period is finally delivered (one cadence after its slot).
- `switch_chain.dfy` (module `SwitchChain`): what happens when the scheduler dispatches each
  switch event the generator schedules in turn: ON and OFF alternate, one Generate event per
  ON-to-OFF switch, no event in the past, the last switch at the sum of the draws.
- `main.dfy` (module `Driver`): the driver's set-up of a run: the check that fewer streams are
  dropped than there are streams (exit status 1 otherwise), queue one chained to queue two, and
  the generator pool, built by two loops (`BuildPool`) against its layout (`PoolLayout`).
- `wrappers.dfy`: `Option` and `Result`.

Random draws are parameters: `SwitchState(e, r)` receives the duration the source draws from its
random source in the branch it takes, and the constructor receives the first ON duration. Times are
exact `real`s, and `floor` is `.Floor`.

Where the code and its documentation differ, the model follows the code:

- The cadence of every generator is the raw generation constant (src/main.py:111), not packet
  length times generation constant as the command-line help text says (src/main.py:24). The packet
  length is stored by the generator and never read.
- The driver passes seven arguments to the generator, the fourth a random source built from the
  configured rates (src/main.py:98, src/main.py:105-113), but the constructor takes six and builds
  its own random source with fixed rates (src/simulator/packet_generator.py:12-31). As written the
  driver would stop with a type error. The model describes the intended layout of targets and
  pass flags and keeps that mismatch as a comment on `Driver.GeneratorSpec`.
- A packet is delivered one full cadence after its slot: slot `i` of an ON period whose closing
  switch fires at `t` is delivered at `t + (i+1)*g`, which lies in `(t, t + onTime]`.

## Model

| member | source | states |
|---|---|---|
| `Simulator.PacketGenerator.constructor` | src/simulator/packet_generator.py:12-45 | a new generator keeps its queues, cadence and pass flag; its first switch at time 0 takes the OFF branch: it ends ON, records the drawn ON duration, and adds exactly one event, the next switch at `0 + rOn` |
| `Simulator.PacketGenerator.SwitchState` | src/simulator/packet_generator.py:77-98 | the flag flips; from OFF the drawn duration becomes the ON duration, from ON the ON duration is unchanged; the events added are exactly `SwitchEvents` of the old flag |
| `Simulator.SwitchEvents` | src/simulator/packet_generator.py:78-96 | a switch from ON adds two events, a Generate at the event's time and then the next switch at `when + r`; from OFF only the next switch at `when + r`; with a non-negative draw no event is earlier than `when` |
| `Simulator.SlotCount` | src/simulator/packet_generator.py:62 | the number of slots is the largest `n` with `n*g <= onTime` (for `g > 0`, `onTime >= 0`), and 0 when `onTime < g` |
| `Simulator.SlotEventsSchedule` | src/simulator/packet_generator.py:61-75 | a Generate event schedules exactly `SlotCount` slot events, slot `i` at `when + i*g`, strictly increasing and none before `when` for `g > 0`, none when `onTime < g` |
| `Simulator.PacketGenerator.GeneratePacket` | src/simulator/packet_generator.py:61-75 | the loop adds exactly the slot events of the current ON duration, in slot order, and nothing else |
| `Simulator.DeferredSend` | src/simulator/packet_generator.py:51-57 | the delivery event a slot schedules is strictly later than the slot for a positive cadence |
| `Simulator.PacketGenerator.EndPacketGeneration` | src/simulator/packet_generator.py:51-59 | exactly one Send event is added, one cadence after the slot, with the slot's summary |
| `Simulator.SlotDelivery` | src/simulator/packet_generator.py:51-75 | the packet of slot `i` of an ON period closed at `t` is delivered at `t + (i+1)*g`, by a Send handler of the same generator, after `t` and no later than `t + onTime` |
| `Simulator.PacketGenerator.SendPacket` | src/simulator/packet_generator.py:47-49 | exactly one packet, created at the event's time with the generator's pass flag, is handed to the target queue; nothing else changes |
| `SwitchChain.StateAlternates` | src/simulator/packet_generator.py:98 | after `k` successive switches the flag equals the initial flag flipped `k` times: ON and OFF strictly alternate |
| `SwitchChain.CycleKeepsOnDraw` | src/simulator/packet_generator.py:85-98 | a generator starting OFF and going through whole OFF-ON-OFF cycles is OFF again and holds the ON duration drawn at the start of the last cycle |
| `SwitchChain.ChainCounts` | src/simulator/packet_generator.py:77-98 | `k` successive switches schedule exactly `k` next switches and one Generate event per ON-to-OFF switch (half of them, rounded up when starting ON), and no slot or send events |
| `SwitchChain.ChainNotBefore` | src/simulator/packet_generator.py:90-96 | with non-negative draws, no event of a chain of switches is scheduled before the first switch |
| `SwitchChain.ChainEndsWithSwitch` | src/simulator/packet_generator.py:90-96 | the last event a chain of switches schedules is a switch of the same generator at the first switch's time plus the sum of all draws |
| `Driver.Setup` | src/main.py:74-137 | the run is rejected with status 1 exactly when `streams <= dropped`, before anything is built; otherwise queue one forwards to queue two, queue two to nothing, both with the same packet length and queue constant, and the pool is `PoolLayout` |
| `Driver.BuildPool` | src/main.py:100-137 | the two loops build exactly `PoolLayout`: the through streams first, then one pair per dropped stream |
| `Driver.PoolEntry` | src/main.py:102-137 | entry by entry: the first `streams - dropped` generators feed queue one and pass; after them, alternately a generator on queue one that drops and a generator on queue two that passes |
| `Driver.PoolCounts` | src/main.py:102-137 | an admitted pool with `dropped >= 0` has `streams + dropped` generators, `streams` on queue one and `dropped` on queue two, and exactly `dropped` of them drop their packets after queue one |

## Left out

- The random source: the exponential ON and OFF draws (src/simulator/packet_generator.py:31, 79, 86) are a pseudo-random generator over floats; each draw is a parameter of the handler that makes it, and the lemmas that need it assume draws are non-negative.
- Floating point: times and durations are exact reals, so rounding in `on_time / generation_time` and in the sums of times is not modelled.
- The event queue's internals (ordering by time, the horizon, dispatching a handler), the queues' internals (service, forwarding, statistics), the timer and the packet's later timestamps: event_queue.py, queue.py, timer.py and packet.py are not part of this model. They appear only as the outboxes `EventQueue.pending` and `Queue.received`. For the same reason the driver's event loop (src/main.py:139) is left out, and `SwitchChain` describes successive switches without claiming the scheduler dispatches them.
- The driver's queues and generators are described by their construction arguments (`QueueSpec`, `GeneratorSpec`), not as objects, so sharing the event queue and timer between them is not captured by `Driver`.
- `Simulator.PacketGenerator.GeneratePacket` requires a non-zero cadence: with a zero cadence the source's division raises an exception, which is not modelled.
- The type error the driver's seven-argument constructor call would raise (src/main.py:105-113) is not modelled.
- Argument parsing, the parameter record's construction, logging, the debug dumps, the averages and the JSON output (src/main.py:16-72, src/main.py:140-189).
- The fields that are written and never read (`_on_time_start`, `_off_time_start`, `_off_time`, `_time_counter`) and the commented-out lines at the end of the generator.
- The text of the event summaries: the duration in a switch summary is kept as a real rather than printed with two decimals. The first `Event` argument is carried as an inert `Flag`.
