/**
 * The ON/OFF traffic generator of the simulator (src/simulator/packet_generator.py).
 *
 * A generator alternates between OFF and ON. Each state change is itself an event: the
 * switch handler draws the length of the next period and schedules the next switch at the
 * end of it. When an ON period ends, the generator schedules one "generate" event, which in
 * turn schedules floor(onTime / g) slot events spaced by the cadence g; each slot event
 * defers the actual delivery by one more cadence, and the delivery hands a packet to the
 * generator's target queue.
 *
 * The shared event queue and the target queue are only seen through what the generator
 * hands them, so they are modelled as outboxes: `EventQueue.pending` is every event added
 * so far, in order, and `Queue.received` every packet delivered so far, in order.
 */
module Simulator {

  /** The first argument every event is built with (`None`, `True` or `False`); nothing reads it. */
  datatype Flag = NoFlag | FlagTrue | FlagFalse

  /** The diagnostic summary of an event; the switch summaries carry the drawn duration. */
  datatype Summary =
    | FirstSwitch                  // "Switch queue state (1st)"
    | SwitchToOff(offTime: real)   // "Switch generator state to OFF for ..."
    | SwitchToOn(onTime: real)     // "Switch generator state to ON for ..."
    | ExecuteGenerator             // "Execute packet generator"
    | PacketGeneration             // "Packet generation"

  /** Which method of the generator an event calls back. */
  datatype HandlerKind = Switch | Generate | EndGeneration | Send

  /** A bound method: the method to call and the generator it is called on. */
  datatype Handler = Handler(kind: HandlerKind, receiver: PacketGenerator)

  datatype Event = Event(flag: Flag, when: real, summary: Summary, handler: Handler)

  /** A packet as the generator creates it: its creation time and its pass/drop tag. */
  datatype Packet = Packet(created: real, isPassing: bool)

  /** The mutable part of a generator: the state flag (`None` counts as OFF) and the last ON duration drawn. */
  datatype GenState = GenState(stateOn: bool, onTime: real)

  /** The state after one switch that drew `r`: the flag flips, and a switch from OFF records `r` as the ON duration. */
  function Switched(s: GenState, r: real): GenState
  {
    GenState(!s.stateOn, if s.stateOn then s.onTime else r)
  }

  /**
   * The events one switch at time `when` adds to the event queue, given the state it found and
   * the duration `r` it drew: from ON, a Generate event at `when` and then the next switch; from
   * OFF, only the next switch. The next switch is always last and always at `when + r`.
   */
  function SwitchEvents(wasOn: bool, when: real, r: real, gen: PacketGenerator): (evs: seq<Event>)
    ensures |evs| == if wasOn then 2 else 1
    ensures evs[|evs| - 1].when == when + r && evs[|evs| - 1].handler == Handler(Switch, gen)
    ensures evs[|evs| - 1].summary == if wasOn then SwitchToOff(r) else SwitchToOn(r)
    ensures wasOn ==> evs[0].when == when && evs[0].handler == Handler(Generate, gen)
    ensures r >= 0.0 ==> forall i :: 0 <= i < |evs| ==> evs[i].when >= when
  {
    var next := Event(NoFlag, when + r, if wasOn then SwitchToOff(r) else SwitchToOn(r), Handler(Switch, gen));
    if wasOn then [Event(NoFlag, when, ExecuteGenerator, Handler(Generate, gen)), next] else [next]
  }

  /**
   * How many slots an ON duration yields: the length of `range(floor(onTime / g))`, which is
   * empty when the floor is not positive. For a positive cadence and a non-negative duration it
   * is the largest n with n * g <= onTime, so the fractional tail of the period is dropped.
   */
  function SlotCount(onTime: real, g: real): (n: nat)
    requires g != 0.0
    ensures g > 0.0 && onTime >= 0.0 ==> n as real * g <= onTime < (n + 1) as real * g
    ensures g > 0.0 && onTime < g ==> n == 0
  {
    var k := (onTime / g).Floor;
    FloorTimes(onTime, g);
    if k > 0 then k else 0
  }

  /** For a positive g, floor(x / g) * g <= x < (floor(x / g) + 1) * g. */
  lemma FloorTimes(x: real, g: real)
    requires g != 0.0
    ensures g > 0.0 ==> (x / g).Floor as real * g <= x < ((x / g).Floor + 1) as real * g
  {
    if g > 0.0 {
      var q := x / g;
      var k := q.Floor;
      var kr, kr1 := k as real, (k + 1) as real;
      assert x == q * g;
      ScaleByPositive(kr, q, g);
      ScaleByPositive(q, kr1, g);
      assert kr * g <= x;
      assert x < kr1 * g;
    }
  }

  /** Slot i + 1 starts one cadence after slot i. */
  lemma NextSlot(i: nat, g: real)
    ensures (i + 1) as real * g == i as real * g + g
  {
  }

  /** Multiplying both sides by a positive g keeps an ordering. */
  lemma ScaleByPositive(a: real, b: real, g: real)
    requires g > 0.0
    ensures a <= b ==> a * g <= b * g
    ensures a < b ==> a * g < b * g
  {
  }

  /** The slot event for slot `i` of the ON period whose Generate event fired at `when`. */
  function SlotEvent(when: real, i: nat, g: real, gen: PacketGenerator): Event
  {
    Event(FlagFalse, when + i as real * g, PacketGeneration, Handler(EndGeneration, gen))
  }

  /** The events one Generate event at `when` adds: one slot event per slot, in slot order. */
  function SlotEvents(when: real, onTime: real, g: real, gen: PacketGenerator): (evs: seq<Event>)
    requires g != 0.0
  {
    seq(SlotCount(onTime, g), i requires 0 <= i => SlotEvent(when, i, g, gen))
  }

  /** The delivery event a slot event schedules: one cadence later, with the slot's summary. */
  function DeferredSend(e: Event, g: real, gen: PacketGenerator): (d: Event)
    ensures g > 0.0 ==> d.when > e.when
  {
    Event(FlagTrue, e.when + g, e.summary, Handler(Send, gen))
  }

  /**
   * A Generate event at `when` schedules exactly SlotCount(onTime, g) slot events, slot i at
   * `when + i * g`; with a positive cadence they are strictly increasing in time and none is
   * earlier than `when`; an ON duration shorter than one cadence yields none.
   */
  lemma {:induction false} SlotEventsSchedule(when: real, onTime: real, g: real, gen: PacketGenerator)
    requires g != 0.0
    ensures |SlotEvents(when, onTime, g, gen)| == SlotCount(onTime, g)
    ensures forall i :: 0 <= i < |SlotEvents(when, onTime, g, gen)| ==>
      SlotEvents(when, onTime, g, gen)[i] == SlotEvent(when, i, g, gen)
    ensures g > 0.0 && onTime < g ==> SlotEvents(when, onTime, g, gen) == []
    ensures g > 0.0 ==> forall i, j :: 0 <= i < j < |SlotEvents(when, onTime, g, gen)| ==>
      when <= SlotEvents(when, onTime, g, gen)[i].when < SlotEvents(when, onTime, g, gen)[j].when
  {
    var evs := SlotEvents(when, onTime, g, gen);
    if g > 0.0 {
      forall i, j | 0 <= i < j < |evs|
        ensures when <= evs[i].when < evs[j].when
      {
        assert 0.0 <= i as real * g;
        assert i as real * g < j as real * g;
      }
    }
  }

  /**
   * The packet of slot i of an ON period whose end-of-period switch fired at `t` is delivered
   * at t + (i + 1) * g: one cadence after its slot. For a positive cadence and a non-negative ON
   * duration that is after `t` and no later than t + onTime.
   */
  lemma SlotDelivery(t: real, onTime: real, g: real, gen: PacketGenerator, i: nat)
    requires g != 0.0
    requires i < SlotCount(onTime, g)
    ensures DeferredSend(SlotEvents(t, onTime, g, gen)[i], g, gen).when == t + (i + 1) as real * g
    ensures DeferredSend(SlotEvents(t, onTime, g, gen)[i], g, gen).handler == Handler(Send, gen)
    ensures g > 0.0 && onTime >= 0.0 ==>
      t < DeferredSend(SlotEvents(t, onTime, g, gen)[i], g, gen).when <= t + onTime
  {
    var n := SlotCount(onTime, g);
    var e := SlotEvents(t, onTime, g, gen)[i];
    var d := DeferredSend(e, g, gen);
    var slot := (i + 1) as real * g;
    assert e.when == t + i as real * g;
    NextSlot(i, g);
    assert d.when == t + slot;
    if g > 0.0 && onTime >= 0.0 {
      ScaleByPositive((i + 1) as real, n as real, g);
      assert slot <= n as real * g <= onTime;
      assert d.when <= t + onTime;
    }
  }

  /** The shared event queue, seen as the list of events added to it so far. */
  class EventQueue {
    var pending: seq<Event>

    constructor ()
      ensures pending == []
    {
      pending := [];
    }

    method AddEvent(e: Event)
      modifies this
      ensures pending == old(pending) + [e]
    {
      pending := pending + [e];
    }
  }

  /** A queueing node, seen as the list of packets handed to it so far. */
  class Queue {
    var received: seq<Packet>

    constructor ()
      ensures received == []
    {
      received := [];
    }

    method QueuePacketReceiver(p: Packet)
      modifies this
      ensures received == old(received) + [p]
    {
      received := received + [p];
    }
  }

  class PacketGenerator {
    const eventQueue: EventQueue
    const queue: Queue
    /** Stored by the source but never read. */
    const packetLength: int
    /** The cadence g between the slots of an ON period. */
    const generationTime: real
    /** The tag every packet of this generator carries. */
    const isPassing: bool
    var stateOn: bool
    var onTime: real

    function State(): GenState
      reads this
    {
      GenState(stateOn, onTime)
    }

    /**
     * A new generator starts OFF with ON duration 0 and immediately handles a first switch
     * at time 0, which takes the OFF branch with the drawn ON duration `rOn`: it is left ON,
     * records `rOn`, and exactly one event, the next switch at `rOn`, is added.
     */
    constructor (eventQueue: EventQueue, queue: Queue, packetLength: int, generationTime: real,
                 isPassing: bool, rOn: real)
      modifies eventQueue
      ensures this.eventQueue == eventQueue && this.queue == queue
      ensures this.packetLength == packetLength && this.generationTime == generationTime
      ensures this.isPassing == isPassing
      ensures State() == GenState(true, rOn)
      ensures eventQueue.pending == old(eventQueue.pending) + [Event(NoFlag, rOn, SwitchToOn(rOn), Handler(Switch, this))]
    {
      this.eventQueue := eventQueue;
      this.queue := queue;
      this.packetLength := packetLength;
      this.generationTime := generationTime;
      this.isPassing := isPassing;
      stateOn := false;
      onTime := 0.0;
      new;
      SwitchState(Event(NoFlag, 0.0, FirstSwitch, Handler(Switch, this)), rOn);
    }

    /** Sends a packet created at the event's time, with this generator's tag, to the target queue. */
    method SendPacket(e: Event)
      modifies queue
      ensures queue.received == old(queue.received) + [Packet(e.when, isPassing)]
    {
      queue.QueuePacketReceiver(Packet(e.when, isPassing));
    }

    /** Defers the delivery of a slot by one more cadence. */
    method EndPacketGeneration(e: Event)
      modifies eventQueue
      ensures eventQueue.pending == old(eventQueue.pending) + [DeferredSend(e, generationTime, this)]
    {
      eventQueue.AddEvent(Event(FlagTrue, e.when + generationTime, e.summary, Handler(Send, this)));
    }

    /** Schedules one slot event per whole cadence in the last ON duration. */
    method GeneratePacket(e: Event)
      requires generationTime != 0.0
      modifies eventQueue
      ensures eventQueue.pending == old(eventQueue.pending) + SlotEvents(e.when, onTime, generationTime, this)
    {
      var n := SlotCount(onTime, generationTime);
      for i := 0 to n
        invariant eventQueue.pending == old(eventQueue.pending) + SlotEvents(e.when, onTime, generationTime, this)[..i]
      {
        ghost var slots := SlotEvents(e.when, onTime, generationTime, this);
        var slot := Event(FlagFalse, e.when + i as real * generationTime, PacketGeneration, Handler(EndGeneration, this));
        assert slot == slots[i];
        assert slots[..i + 1] == slots[..i] + [slot];
        eventQueue.AddEvent(slot);
      }
      assert SlotEvents(e.when, onTime, generationTime, this)[..n] == SlotEvents(e.when, onTime, generationTime, this);
    }

    /**
     * Handles a switch event, with `r` the duration drawn for the period that starts now.
     * From ON it first schedules packet generation for the ON period just ended; either way it
     * schedules the next switch at `e.when + r` and flips the state.
     */
    method SwitchState(e: Event, r: real)
      modifies this, eventQueue
      ensures State() == Switched(old(State()), r)
      ensures eventQueue.pending == old(eventQueue.pending) + SwitchEvents(old(stateOn), e.when, r, this)
    {
      var summary;
      if stateOn {
        summary := SwitchToOff(r);
        eventQueue.AddEvent(Event(NoFlag, e.when, ExecuteGenerator, Handler(Generate, this)));
      } else {
        summary := SwitchToOn(r);
        onTime := r;
      }
      eventQueue.AddEvent(Event(NoFlag, e.when + r, summary, Handler(Switch, this)));
      stateOn := !stateOn;
    }
  }
}
