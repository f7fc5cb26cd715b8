/**
 * Successive switches of one generator. Every switch schedules the next one at the end of the
 * period it starts, so when the scheduler dispatches each of those switch events in turn, the
 * generator goes through a chain of switches whose durations are the successive draws. The
 * functions below compose `Simulator.Switched` and `Simulator.SwitchEvents` (the specification
 * of `PacketGenerator.SwitchState`) along such a chain.
 */
module SwitchChain {
  import opened Simulator

  /** The generator's state after switches that drew `ds`, in order. */
  function StateAfter(s: GenState, ds: seq<real>): GenState
    decreases |ds|
  {
    if ds == [] then s else StateAfter(Switched(s, ds[0]), ds[1..])
  }

  /** The events added by switches that drew `ds`, the first at time `t`, each next one at the time the previous scheduled. */
  function ChainEvents(s: GenState, t: real, ds: seq<real>, gen: PacketGenerator): seq<Event>
    decreases |ds|
  {
    if ds == [] then []
    else SwitchEvents(s.stateOn, t, ds[0], gen) + ChainEvents(Switched(s, ds[0]), t + ds[0], ds[1..], gen)
  }

  /** How many events in `evs` call back a handler of kind `k`. */
  function CountKind(evs: seq<Event>, k: HandlerKind): nat
  {
    if evs == [] then 0
    else (if evs[0].handler.kind == k then 1 else 0) + CountKind(evs[1..], k)
  }

  lemma {:induction false} CountKindAppend(a: seq<Event>, b: seq<Event>, k: HandlerKind)
    ensures CountKind(a + b, k) == CountKind(a, k) + CountKind(b, k)
  {
    if a == [] {
      assert a + b == b;
    } else {
      assert (a + b)[1..] == a[1..] + b;
      CountKindAppend(a[1..], b, k);
    }
  }

  /** ON and OFF strictly alternate: after |ds| switches the flag has flipped |ds| times. */
  lemma {:induction false} StateAlternates(s: GenState, ds: seq<real>)
    ensures StateAfter(s, ds).stateOn == (s.stateOn != (|ds| % 2 == 1))
    decreases |ds|
  {
    if ds != [] {
      StateAlternates(Switched(s, ds[0]), ds[1..]);
    }
  }

  /**
   * A generator that starts OFF and then goes through complete OFF-to-ON-to-OFF cycles is OFF
   * again and holds the ON duration drawn at the start of the last cycle.
   */
  lemma {:induction false} CycleKeepsOnDraw(s: GenState, ds: seq<real>)
    requires !s.stateOn && |ds| >= 2 && |ds| % 2 == 0
    ensures StateAfter(s, ds) == GenState(false, ds[|ds| - 2])
    decreases |ds|
  {
    var s2 := Switched(Switched(s, ds[0]), ds[1]);
    assert s2 == GenState(false, ds[0]);
    assert StateAfter(s, ds) == StateAfter(s2, ds[2..]);
    if |ds| > 2 {
      CycleKeepsOnDraw(s2, ds[2..]);
    }
  }

  /**
   * A chain of |ds| switches schedules exactly |ds| next switches, and one Generate event per
   * switch from ON to OFF: half of the switches, rounded up when the chain starts ON.
   */
  lemma {:induction false} ChainCounts(s: GenState, t: real, ds: seq<real>, gen: PacketGenerator)
    ensures CountKind(ChainEvents(s, t, ds, gen), Switch) == |ds|
    ensures CountKind(ChainEvents(s, t, ds, gen), Generate) == (|ds| + if s.stateOn then 1 else 0) / 2
    ensures CountKind(ChainEvents(s, t, ds, gen), EndGeneration) == 0
    ensures CountKind(ChainEvents(s, t, ds, gen), Send) == 0
    decreases |ds|
  {
    if ds != [] {
      var head := SwitchEvents(s.stateOn, t, ds[0], gen);
      var rest := ChainEvents(Switched(s, ds[0]), t + ds[0], ds[1..], gen);
      ChainCounts(Switched(s, ds[0]), t + ds[0], ds[1..], gen);
      forall k
        ensures CountKind(head + rest, k) == CountKind(head, k) + CountKind(rest, k)
      {
        CountKindAppend(head, rest, k);
      }
    }
  }

  /** With non-negative draws, no event of the chain is scheduled before the first switch. */
  lemma {:induction false} ChainNotBefore(s: GenState, t: real, ds: seq<real>, gen: PacketGenerator)
    requires forall i :: 0 <= i < |ds| ==> ds[i] >= 0.0
    ensures forall i :: 0 <= i < |ChainEvents(s, t, ds, gen)| ==> ChainEvents(s, t, ds, gen)[i].when >= t
    decreases |ds|
  {
    if ds != [] {
      var head := SwitchEvents(s.stateOn, t, ds[0], gen);
      var rest := ChainEvents(Switched(s, ds[0]), t + ds[0], ds[1..], gen);
      ChainNotBefore(Switched(s, ds[0]), t + ds[0], ds[1..], gen);
      assert forall i :: 0 <= i < |rest| ==> rest[i].when >= t;
      assert ChainEvents(s, t, ds, gen) == head + rest;
    }
  }

  /** The total of the drawn durations. */
  function Sum(ds: seq<real>): real
  {
    if ds == [] then 0.0 else ds[0] + Sum(ds[1..])
  }

  /** The last event a non-empty chain schedules is the next switch, at the first switch's time plus all the durations drawn. */
  lemma {:induction false} ChainEndsWithSwitch(s: GenState, t: real, ds: seq<real>, gen: PacketGenerator)
    requires ds != []
    ensures ChainEvents(s, t, ds, gen) != []
    ensures Last(ChainEvents(s, t, ds, gen)).when == t + Sum(ds)
    ensures Last(ChainEvents(s, t, ds, gen)).handler == Handler(Switch, gen)
    decreases |ds|
  {
    var head := SwitchEvents(s.stateOn, t, ds[0], gen);
    var rest := ChainEvents(Switched(s, ds[0]), t + ds[0], ds[1..], gen);
    if |ds| == 1 {
      assert rest == [];
      assert ChainEvents(s, t, ds, gen) == head;
    } else {
      ChainEndsWithSwitch(Switched(s, ds[0]), t + ds[0], ds[1..], gen);
      assert Last(head + rest) == Last(rest);
    }
  }

  function Last(evs: seq<Event>): Event
    requires evs != []
  {
    evs[|evs| - 1]
  }
}
