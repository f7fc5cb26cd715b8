/**
 * The driver's set-up of a run (src/main.py): the check on the stream counts, the two chained
 * queues and the pool of traffic generators. Queues and generators are described here by
 * their construction arguments; the generator objects themselves are modelled in `Simulator`.
 */
module Driver {
  import opened Wrappers

  /** The run's configuration as read from the command line. */
  datatype Params = Params(
    simulationTime: real,
    packetLength: int,
    generationConstant: real,
    queueConstant: real,
    lambdaOn: real,
    lambdaOff: real,
    streams: int,
    dropped: int)

  datatype QueueId = QueueOne | QueueTwo

  /** The arguments a queue is built with: its packet length, its queue constant and the queue it forwards to. */
  datatype QueueSpec = QueueSpec(packetLength: int, queueConstant: real, downstream: Option<QueueId>)

  /**
   * The arguments a generator is built with: the queue it feeds, its packet length, its cadence
   * and its pass flag. The driver also passes a shared random source, which the generator's
   * constructor does not accept (it builds its own); that argument is not modelled.
   */
  datatype GeneratorSpec = GeneratorSpec(target: QueueId, packetLength: int, generationTime: real, isPassing: bool)

  /** What the driver builds before running: the event queue's horizon, the two queues and the generator pool. */
  datatype Network = Network(horizon: real, queueOne: QueueSpec, queueTwo: QueueSpec, pool: seq<GeneratorSpec>)

  /** The process exit status of a rejected configuration. */
  const RejectedStatus: int := 1

  /** A run may start only when fewer streams are dropped than there are streams. */
  predicate MayRun(p: Params)
  {
    p.dropped < p.streams
  }

  /** How many times `for _ in range(n)` runs its body. */
  function Times(n: int): nat
  {
    if n > 0 then n else 0
  }

  /** A stream that goes through queue one and then on to queue two. The cadence is the raw generation constant. */
  function Through(p: Params): GeneratorSpec
  {
    GeneratorSpec(QueueOne, p.packetLength, p.generationConstant, true)
  }

  /** The part of a dropped stream that is absorbed after queue one. */
  function DroppedAtOne(p: Params): GeneratorSpec
  {
    GeneratorSpec(QueueOne, p.packetLength, p.generationConstant, false)
  }

  /** The part of a dropped stream injected directly into queue two. */
  function InjectedAtTwo(p: Params): GeneratorSpec
  {
    GeneratorSpec(QueueTwo, p.packetLength, p.generationConstant, true)
  }

  /** `block` appended `n` times. */
  function Repeat(block: seq<GeneratorSpec>, n: nat): seq<GeneratorSpec>
  {
    if n == 0 then [] else Repeat(block, n - 1) + block
  }

  /** The generator pool in the order the driver appends to it: the through streams, then one pair per dropped stream. */
  function PoolLayout(p: Params): seq<GeneratorSpec>
  {
    Repeat([Through(p)], Times(p.streams - p.dropped)) + Repeat([DroppedAtOne(p), InjectedAtTwo(p)], Times(p.dropped))
  }

  /** Builds the generator pool with the driver's two loops. */
  method BuildPool(p: Params) returns (pool: seq<GeneratorSpec>)
    ensures pool == PoolLayout(p)
  {
    pool := [];
    var i := 0;
    while i < p.streams - p.dropped
      invariant 0 <= i <= Times(p.streams - p.dropped)
      invariant pool == Repeat([Through(p)], i)
    {
      pool := pool + [Through(p)];
      i := i + 1;
    }
    var j := 0;
    while j < p.dropped
      invariant 0 <= j <= Times(p.dropped)
      invariant pool == Repeat([Through(p)], Times(p.streams - p.dropped)) + Repeat([DroppedAtOne(p), InjectedAtTwo(p)], j)
    {
      pool := pool + [DroppedAtOne(p)];
      pool := pool + [InjectedAtTwo(p)];
      j := j + 1;
    }
  }

  /**
   * The set-up of a run. A configuration that drops at least as many streams as it has is
   * rejected with exit status 1 before anything is built. Otherwise queue two is built with no
   * downstream queue, queue one with queue two downstream, both from the same packet length
   * and queue constant, and then the generator pool.
   */
  method Setup(p: Params) returns (r: Result<Network, int>)
    ensures r.Failure? <==> !MayRun(p)
    ensures r.Failure? ==> r.error == RejectedStatus
    ensures r.Success? ==> r.value.horizon == p.simulationTime && r.value.pool == PoolLayout(p)
    ensures r.Success? ==> r.value.queueOne == QueueSpec(p.packetLength, p.queueConstant, Some(QueueTwo))
    ensures r.Success? ==> r.value.queueTwo == QueueSpec(p.packetLength, p.queueConstant, None)
  {
    if p.streams <= p.dropped {
      return Failure(RejectedStatus);
    }
    var queueTwo := QueueSpec(p.packetLength, p.queueConstant, None);
    var queueOne := QueueSpec(p.packetLength, p.queueConstant, Some(QueueTwo));
    var pool := BuildPool(p);
    r := Success(Network(p.simulationTime, queueOne, queueTwo, pool));
  }

  /** How many generators of `pool` satisfy `keep`. */
  function Count(pool: seq<GeneratorSpec>, keep: GeneratorSpec -> bool): nat
  {
    if pool == [] then 0 else Count(pool[..|pool| - 1], keep) + (if keep(pool[|pool| - 1]) then 1 else 0)
  }

  lemma {:induction false} CountAppend(a: seq<GeneratorSpec>, b: seq<GeneratorSpec>, keep: GeneratorSpec -> bool)
    ensures Count(a + b, keep) == Count(a, keep) + Count(b, keep)
    decreases |b|
  {
    if b == [] {
      assert a + b == a;
    } else {
      assert (a + b)[..|a + b| - 1] == a + b[..|b| - 1];
      CountAppend(a, b[..|b| - 1], keep);
    }
  }

  lemma {:induction false} CountRepeat(block: seq<GeneratorSpec>, n: nat, keep: GeneratorSpec -> bool)
    ensures |Repeat(block, n)| == n * |block|
    ensures Count(Repeat(block, n), keep) == n * Count(block, keep)
  {
    if n > 0 {
      CountRepeat(block, n - 1, keep);
      CountAppend(Repeat(block, n - 1), block, keep);
      assert (n - 1) * |block| + |block| == n * |block|;
      assert (n - 1) * Count(block, keep) + Count(block, keep) == n * Count(block, keep);
    }
  }

  /** Every entry of `Repeat([x], n)` is `x`. */
  lemma {:induction false} RepeatOneAt(x: GeneratorSpec, n: nat, i: nat)
    requires i < n
    ensures |Repeat([x], n)| == n && Repeat([x], n)[i] == x
  {
    if i < n - 1 {
      RepeatOneAt(x, n - 1, i);
    } else if n > 1 {
      RepeatOneAt(x, n - 1, 0);
    }
  }

  /** The entries of `Repeat([a, b], n)` alternate, `a` at even and `b` at odd positions. */
  lemma {:induction false} RepeatPairAt(a: GeneratorSpec, b: GeneratorSpec, n: nat, i: nat)
    requires i < 2 * n
    ensures |Repeat([a, b], n)| == 2 * n
    ensures Repeat([a, b], n)[i] == if i % 2 == 0 then a else b
  {
    if i < 2 * (n - 1) {
      RepeatPairAt(a, b, n - 1, i);
    } else if n > 1 {
      RepeatPairAt(a, b, n - 1, 0);
    }
  }

  /**
   * The layout of the pool, entry by entry: first streams - dropped generators on queue one that
   * pass their packets on, then for each dropped stream a generator on queue one whose packets
   * are dropped followed by a generator on queue two whose packets pass.
   */
  lemma PoolEntry(p: Params, i: nat)
    requires MayRun(p)
    requires i < |PoolLayout(p)|
    ensures |PoolLayout(p)| == p.streams - p.dropped + 2 * Times(p.dropped)
    ensures i < p.streams - p.dropped ==> PoolLayout(p)[i] == GeneratorSpec(QueueOne, p.packetLength, p.generationConstant, true)
    ensures p.streams - p.dropped <= i && (i - (p.streams - p.dropped)) % 2 == 0 ==>
      PoolLayout(p)[i] == GeneratorSpec(QueueOne, p.packetLength, p.generationConstant, false)
    ensures p.streams - p.dropped <= i && (i - (p.streams - p.dropped)) % 2 == 1 ==>
      PoolLayout(p)[i] == GeneratorSpec(QueueTwo, p.packetLength, p.generationConstant, true)
  {
    var through := Repeat([Through(p)], Times(p.streams - p.dropped));
    var pairs := Repeat([DroppedAtOne(p), InjectedAtTwo(p)], Times(p.dropped));
    RepeatOneAt(Through(p), Times(p.streams - p.dropped), 0);
    if Times(p.dropped) > 0 {
      RepeatPairAt(DroppedAtOne(p), InjectedAtTwo(p), Times(p.dropped), 0);
    }
    if i < |through| {
      RepeatOneAt(Through(p), Times(p.streams - p.dropped), i);
    } else {
      RepeatPairAt(DroppedAtOne(p), InjectedAtTwo(p), Times(p.dropped), i - |through|);
    }
  }

  function OnQueue(q: QueueId): GeneratorSpec -> bool
  {
    (g: GeneratorSpec) => g.target == q
  }

  function Dropping(g: GeneratorSpec): bool
  {
    !g.isPassing
  }

  /**
   * The sizes of the pool of an admitted run: it holds streams + dropped generators, of which
   * queue one is fed by `streams` and queue two by `dropped`, and exactly `dropped` of them tag
   * their packets to be dropped after queue one. (With a negative dropped count the dropped loop
   * runs no times and the through loop streams - dropped times.)
   */
  lemma PoolCounts(p: Params)
    requires MayRun(p)
    ensures p.dropped >= 0 ==> |PoolLayout(p)| == p.streams + p.dropped
    ensures p.dropped >= 0 ==> Count(PoolLayout(p), OnQueue(QueueOne)) == p.streams
    ensures Count(PoolLayout(p), OnQueue(QueueTwo)) == Times(p.dropped)
    ensures Count(PoolLayout(p), Dropping) == Times(p.dropped)
    ensures p.dropped < 0 ==> |PoolLayout(p)| == Count(PoolLayout(p), OnQueue(QueueOne)) == p.streams - p.dropped
  {
    var a, b := Times(p.streams - p.dropped), Times(p.dropped);
    var through := Repeat([Through(p)], a);
    var pairs := Repeat([DroppedAtOne(p), InjectedAtTwo(p)], b);
    var one, two := OnQueue(QueueOne), OnQueue(QueueTwo);
    CountRepeat([Through(p)], a, one);
    CountRepeat([Through(p)], a, two);
    CountRepeat([Through(p)], a, Dropping);
    CountRepeat([DroppedAtOne(p), InjectedAtTwo(p)], b, one);
    CountRepeat([DroppedAtOne(p), InjectedAtTwo(p)], b, two);
    CountRepeat([DroppedAtOne(p), InjectedAtTwo(p)], b, Dropping);
    CountAppend(through, pairs, one);
    CountAppend(through, pairs, two);
    CountAppend(through, pairs, Dropping);
    assert [DroppedAtOne(p), InjectedAtTwo(p)][..1] == [DroppedAtOne(p)];
  }
}
