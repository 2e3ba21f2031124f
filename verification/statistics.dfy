/** The statistics the base station keeps: the dwell time per state, the task
    delays, and the cycles of the dynamic quantity threshold. */
module Statistics {
  import opened Events

  /** Java's `Integer.MAX_VALUE` and `Integer.MIN_VALUE`. */
  const IntMax: int := 0x7fff_ffff
  const IntMin: int := -0x8000_0000

  /** `Math.ceil` on reals. */
  function Ceil(x: real): (c: int)
    ensures x <= c as real < x + 1.0
  {
    -((-x).Floor)
  }

  /** The number of tasks expected during `factor` seconds at the rate of `arrived`
      tasks in `elapsed` seconds. */
  function ExpectedTasks(arrived: nat, elapsed: real, factor: real): real
    requires elapsed > 0.0
  {
    arrived as real / elapsed * factor
  }

  /** The quantity threshold recomputed when the queue drains under the dynamic scheme:
      the arrivals of the cycle over its length give a rate, and the threshold is the
      number of tasks expected during `2 * targetDelay - sleepToActiveT`, rounded up by
      `(int) Math.ceil` and raised to at least 1. A zero-length cycle divides by zero in
      doubles: `n / 0.0` is +Infinity for n > 0 and NaN for n = 0; the product with a
      positive factor then casts to `Integer.MAX_VALUE`, and every other case (NaN,
      -Infinity) ends below 1 and is raised to 1. */
  function DynamicThreshold(arrived: nat, elapsed: real, targetDelay: real, sleepToActiveT: real): (q: int)
    requires elapsed >= 0.0
    ensures 1 <= q <= IntMax
    ensures elapsed > 0.0 ==>
      var expected := ExpectedTasks(arrived, elapsed, 2.0 * targetDelay - sleepToActiveT);
      && (expected <= IntMax as real ==> expected <= q as real)
      && (q == 1 || (q - 1) as real < expected)
      // the cast to `int` saturates at `Integer.MAX_VALUE`
      && (expected > IntMax as real ==> q == IntMax)
    // a zero-length cycle: +Infinity times a positive factor, otherwise NaN or -Infinity
    ensures elapsed == 0.0 ==> q == (if arrived > 0 && 2.0 * targetDelay - sleepToActiveT > 0.0 then IntMax else 1)
  {
    var factor := 2.0 * targetDelay - sleepToActiveT;
    if elapsed == 0.0 then
      if arrived > 0 && factor > 0.0 then IntMax else 1
    else
      var c := Ceil(ExpectedTasks(arrived, elapsed, factor));
      var cast := if c > IntMax then IntMax else if c < IntMin then IntMin else c;
      if cast < 1 then 1 else cast
  }

  /** The statistics of the current threshold cycle: the threshold in force, the
      threshold weighted by the length of the cycles already closed, the time the
      current cycle started and the tasks admitted during it. */
  datatype Cycle = Cycle(threshold: int, weightedSum: real, start: real, received: nat)

  /** The cycle that ends at time `t` when the queue drains under the dynamic scheme:
      its threshold is weighted by its length, a new threshold is derived from its
      arrivals, and a new cycle starts at `t` with no arrivals. */
  function CloseCycle(c: Cycle, t: real, targetDelay: real, sleepToActiveT: real): (next: Cycle)
    requires c.start <= t
    ensures next.start == t && next.received == 0
    ensures 1 <= next.threshold <= IntMax
    ensures c.threshold >= 0 ==> next.weightedSum >= c.weightedSum
  {
    var elapsed := t - c.start;
    Cycle(DynamicThreshold(c.received, elapsed, targetDelay, sleepToActiveT),
          c.weightedSum + c.threshold as real * elapsed, t, 0)
  }

  /** Dwell time summed over all states. */
  function TotalDwell(m: map<State, real>): real
    requires forall s: State :: s in m
  {
    m[ActiveIdle] + m[ActiveServe] + m[Sleep] + m[TransitionToActive] + m[TransitionToSleep]
  }

  /** `time_in_states.put(s, time_in_states.get(s) + d)`: state `s` is charged `d` more
      dwell time and every other state keeps its own. */
  function Charge(m: map<State, real>, s: State, d: real): map<State, real>
    requires forall x: State :: x in m
  {
    m[s := m[s] + d]
  }

  /** Charging keeps every state in the map, adds `d` to `s` and leaves the others. */
  lemma ChargeEffect(m: map<State, real>, s: State, d: real)
    requires forall x: State :: x in m
    ensures forall x: State :: x in Charge(m, s, d) && Charge(m, s, d)[x] == if x == s then m[x] + d else m[x]
  {
  }

  /** Charging `d` to one state adds `d` to the total. */
  lemma DwellAdd(m: map<State, real>, s: State, d: real)
    requires forall x: State :: x in m
    ensures TotalDwell(Charge(m, s, d)) == TotalDwell(m) + d
  {
  }

  /** Every state has a non-negative dwell time and together they add up to `last`,
      the time of the last transition. */
  ghost predicate DwellOk(m: map<State, real>, last: real)
  {
    && (forall s: State :: s in m)
    && (forall s: State :: s in m ==> m[s] >= 0.0)
    && TotalDwell(m) == last
    && 0.0 <= last
  }

  /** No element of `s` exceeds `bound`, one element at a time. */
  ghost predicate AtMost(s: seq<real>, bound: real)
    decreases |s|
  {
    s == [] || (s[0] <= bound && AtMost(s[1..], bound))
  }

  lemma {:induction false} AtMostIff(s: seq<real>, bound: real)
    ensures AtMost(s, bound) <==> forall i :: 0 <= i < |s| ==> s[i] <= bound
    decreases |s|
  {
    if s != [] {
      var rest := s[1..];
      AtMostIff(rest, bound);
      assert forall i :: 0 < i < |s| ==> s[i] == rest[i - 1];
    }
  }

  /** The delay statistics agree with the delays measured: one per served task, their
      sum, and a non-negative bound on each. */
  ghost predicate DelaysOk(delays: seq<real>, served: nat, sum: real, maximum: real)
  {
    && |delays| == served
    && Sum(delays) == sum
    && maximum >= 0.0
    && AtMost(delays, maximum)
  }

  /** Recording one more served task keeps the delay statistics consistent. */
  lemma RecordKeeps(delays: seq<real>, served: nat, sum: real, maximum: real, d: real)
    requires DelaysOk(delays, served, sum, maximum)
    ensures DelaysOk(delays + [d], served + 1, sum + d, if d > maximum then d else maximum)
  {
    assert (delays + [d])[..|delays|] == delays;
    AtMostIff(delays, maximum);
    AtMostIff(delays + [d], if d > maximum then d else maximum);
  }

  /** The dwell times at the start of a run: zero for every state. */
  function NoDwell(): map<State, real>
  {
    map[ActiveIdle := 0.0, ActiveServe := 0.0, Sleep := 0.0, TransitionToActive := 0.0, TransitionToSleep := 0.0]
  }

  lemma NoDwellCovers()
    ensures forall s: State :: s in NoDwell() && NoDwell()[s] == 0.0
    ensures TotalDwell(NoDwell()) == 0.0
  {
    forall s: State ensures s in NoDwell() && NoDwell()[s] == 0.0 {
      match s
      case ActiveIdle =>
      case ActiveServe =>
      case Sleep =>
      case TransitionToActive =>
      case TransitionToSleep =>
    }
  }

  /** Sum of a sequence of task delays. */
  function Sum(s: seq<real>): real
  {
    if s == [] then 0.0 else Sum(s[..|s| - 1]) + s[|s| - 1]
  }
}
