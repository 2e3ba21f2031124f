/** `EventList`: the time-sorted list of pending events. The same class serves as the
    simulator's global scheduler and as the base station's FIFO task queue. The pure
    functions below say what each operation does to the list; the class performs the
    operations in place and is proved against them. */
module EventLists {
  import opened Outcomes
  import opened Events

  /** Pending events are ordered by non-decreasing time. */
  ghost predicate Sorted(s: seq<Event>)
  {
    forall i, j :: 0 <= i < j < |s| ==> s[i].time <= s[j].time
  }

  /** No two pending events are equal in the sense of `equals`. */
  ghost predicate Distinct(s: seq<Event>)
  {
    forall i, j :: 0 <= i < j < |s| ==> !Equals(s[i], s[j])
  }

  /** The list invariant, one element at a time: the head is not later than, and equals
      none of, the events after it, and the same holds of the rest. */
  ghost predicate Ordered(s: seq<Event>)
    decreases |s|
  {
    s == [] ||
    ((forall j :: 0 < j < |s| ==> s[0].time <= s[j].time && !Equals(s[0], s[j])) && Ordered(s[1..]))
  }

  /** The element-wise invariant is exactly order plus distinctness. */
  lemma {:induction false} OrderedIff(s: seq<Event>)
    ensures Ordered(s) <==> Sorted(s) && Distinct(s)
    decreases |s|
  {
    if s != [] {
      var t := s[1..];
      OrderedIff(t);
      if Ordered(s) {
        forall i, j | 0 <= i < j < |s|
          ensures s[i].time <= s[j].time && !Equals(s[i], s[j])
        {
          if i > 0 {
            assert s[i] == t[i - 1] && s[j] == t[j - 1];
          }
        }
      }
      if Sorted(s) && Distinct(s) {
        forall i, j | 0 <= i < j < |t|
          ensures t[i].time <= t[j].time && !Equals(t[i], t[j])
        {
          assert t[i] == s[i + 1] && t[j] == s[j + 1];
        }
      }
    }
  }

  /** Insertion of an event that equals no pending event keeps the invariant. */
  lemma InsertOrdered(s: seq<Event>, e: Event)
    requires Ordered(s) && !Contains(s, e)
    ensures Ordered(Insert(s, e))
  {
    OrderedIff(s);
    InsertSorted(s, e);
    InsertDistinct(s, e);
    OrderedIff(Insert(s, e));
  }

  /** No event of `s` lies past `endTime`. */
  ghost predicate NoneAfter(s: seq<Event>, endTime: real)
  {
    s == [] || (s[0].time <= endTime && NoneAfter(s[1..], endTime))
  }

  lemma {:induction false} NoneAfterIff(s: seq<Event>, endTime: real)
    ensures NoneAfter(s, endTime) <==> forall x :: x in s ==> x.time <= endTime
    decreases |s|
  {
    if s != [] {
      NoneAfterIff(s[1..], endTime);
      assert s == [s[0]] + s[1..];
    }
  }

  /** A well-formed list: ordered, duplicate-free, and nothing past the end of time. */
  ghost predicate ListOk(s: seq<Event>, endTime: real)
  {
    Ordered(s) && NoneAfter(s, endTime)
  }

  /** `list.contains(e)`: some element `x` has `e.equals(x)`. */
  predicate Contains(s: seq<Event>, e: Event)
  {
    exists i :: 0 <= i < |s| && Equals(e, s[i])
  }

  /** Where the scan of `addEvent` stops when it starts at index `i`: it moves past every
      element `x` with `e.compareTo(x) <= 0`, that is, every element not later than `e`. */
  function ScanFrom(s: seq<Event>, e: Event, i: nat): (k: nat)
    requires i <= |s|
    ensures i <= k <= |s|
    ensures forall j :: i <= j < k ==> s[j].time <= e.time
    ensures k < |s| ==> s[k].time > e.time
    decreases |s| - i
  {
    if i < |s| && CompareTo(e, s[i]) <= 0 then ScanFrom(s, e, i + 1) else i
  }

  /** The index at which `addEvent` inserts `e`. */
  function InsertionPoint(s: seq<Event>, e: Event): nat
    ensures InsertionPoint(s, e) <= |s|
  {
    ScanFrom(s, e, 0)
  }

  /** The list after `e` is inserted past every event not later than it, stopping at the
      first later one. */
  function Insert(s: seq<Event>, e: Event): seq<Event>
    decreases |s|
  {
    if s != [] && CompareTo(e, s[0]) <= 0 then [s[0]] + Insert(s[1..], e) else [e] + s
  }

  /** Insertion puts `e` at any index `k` that has only events not later than `e`
      before it and a later event (or the end) at it. */
  lemma {:induction false} InsertAt(s: seq<Event>, e: Event, k: nat)
    requires k <= |s|
    requires forall j :: 0 <= j < k ==> s[j].time <= e.time
    requires k < |s| ==> s[k].time > e.time
    ensures Insert(s, e) == s[..k] + [e] + s[k..]
    decreases k
  {
    if k == 0 {
      assert s[..0] == [] && s[0..] == s;
    } else {
      InsertAt(s[1..], e, k - 1);
      assert s[..k] == [s[0]] + s[1..][..k - 1];
      assert s[k..] == s[1..][k - 1..];
    }
  }

  /** Insertion splits the list at the insertion point that `addEvent` scans for. */
  lemma InsertSplit(s: seq<Event>, e: Event)
    ensures var k := InsertionPoint(s, e);
      Insert(s, e) == s[..k] + [e] + s[k..]
  {
    InsertAt(s, e, InsertionPoint(s, e));
  }

  /** The list after a non-fatal `addEvent(e)`: unchanged when `e` lies past the end of
      time or an equal event is already pending, otherwise `e` inserted. */
  function Scheduled(s: seq<Event>, endTime: real, e: Event): seq<Event>
  {
    if e.time > endTime || Contains(s, e) then s else Insert(s, e)
  }

  /** `e` is a transition towards `target`. */
  predicate TransitionTo(e: Event, target: State)
  {
    e.StateTransition? && e.newState == target
  }

  /** Index of the first transition towards `target` at or after `i`, or `|s|`. */
  function FirstTransitionFrom(s: seq<Event>, target: State, i: nat): (k: nat)
    requires i <= |s|
    ensures i <= k <= |s|
    ensures forall j :: i <= j < k ==> !TransitionTo(s[j], target)
    ensures k < |s| ==> TransitionTo(s[k], target)
    decreases |s| - i
  {
    if i == |s| || TransitionTo(s[i], target) then i else FirstTransitionFrom(s, target, i + 1)
  }

  /** The list after `removeStateTransitionEvent(target)`: the first transition towards
      `target`, if any, is gone. */
  function Cancel(s: seq<Event>, target: State): seq<Event>
    decreases |s|
  {
    if s == [] then []
    else if TransitionTo(s[0], target) then s[1..]
    else [s[0]] + Cancel(s[1..], target)
  }

  /** Cancellation removes the element at any index `k` that is a transition towards
      `target` with none before it, and leaves a list without one unchanged. */
  lemma {:induction false} CancelAt(s: seq<Event>, target: State, k: nat)
    requires k <= |s|
    requires forall j :: 0 <= j < k ==> !TransitionTo(s[j], target)
    requires k < |s| ==> TransitionTo(s[k], target)
    ensures Cancel(s, target) == if k < |s| then s[..k] + s[k + 1..] else s
    decreases k
  {
    if k == 0 {
      if s != [] {
        assert s[..0] + s[1..] == s[1..];
      }
    } else {
      CancelAt(s[1..], target, k - 1);
      if k < |s| {
        assert s[..k] == [s[0]] + s[1..][..k - 1];
        assert s[k + 1..] == s[1..][k..];
      } else {
        assert s == [s[0]] + s[1..];
      }
    }
  }

  /** Cancellation removes the transition the scan of `removeStateTransitionEvent`
      finds first. */
  lemma CancelSplit(s: seq<Event>, target: State)
    ensures var k := FirstTransitionFrom(s, target, 0);
      Cancel(s, target) == if k < |s| then s[..k] + s[k + 1..] else s
  {
    CancelAt(s, target, FirstTransitionFrom(s, target, 0));
  }

  /** Number of pending drops. */
  function CountDrops(s: seq<Event>): nat
  {
    if s == [] then 0 else (if s[0].TaskDrop? then 1 else 0) + CountDrops(s[1..])
  }

  // ---------------------------------------------------------------------------
  // Properties of insertion

  /** Insertion preserves the time order. */
  lemma InsertSorted(s: seq<Event>, e: Event)
    requires Sorted(s)
    ensures Sorted(Insert(s, e))
  {
    InsertSplit(s, e);
    var k := InsertionPoint(s, e);
    var r := Insert(s, e);
    forall i, j | 0 <= i < j < |r|
      ensures r[i].time <= r[j].time
    {
      if j < k {
        assert r[i] == s[i] && r[j] == s[j];
      } else if j == k {
        assert r[i] == s[i];
      } else if i < k {
        assert r[i] == s[i] && r[j] == s[j - 1];
      } else if i == k {
        assert r[j] == s[j - 1];
        if k < |s| { assert s[k].time > e.time; }
      } else {
        assert r[i] == s[i - 1] && r[j] == s[j - 1];
      }
    }
  }

  /** Insertion is stable: the new event lands after every pending event that is not
      later than it, and in a sorted list before every event that is strictly later. */
  lemma InsertStable(s: seq<Event>, e: Event)
    requires Sorted(s)
    ensures var k := InsertionPoint(s, e);
      |Insert(s, e)| == |s| + 1 && Insert(s, e)[k] == e &&
      (forall j :: 0 <= j < k ==> s[j].time <= e.time) &&
      (forall j :: k <= j < |s| ==> s[j].time > e.time)
  {
    InsertSplit(s, e);
    var k := InsertionPoint(s, e);
    forall j | k <= j < |s|
      ensures s[j].time > e.time
    {
      assert s[k].time <= s[j].time;
    }
  }

  /** Every other event keeps its place relative to the rest: deleting the new event
      from the result gives back the old list. */
  lemma InsertKeepsOrder(s: seq<Event>, e: Event)
    ensures var k := InsertionPoint(s, e);
      |Insert(s, e)| == |s| + 1 &&
      Insert(s, e)[..k] + Insert(s, e)[k + 1..] == s
  {
    InsertSplit(s, e);
    var k := InsertionPoint(s, e);
    var r := Insert(s, e);
    assert r[..k] == s[..k];
    assert r[k + 1..] == s[k..];
  }

  /** Insertion adds exactly one copy of the new event. */
  lemma InsertMultiset(s: seq<Event>, e: Event)
    ensures multiset(Insert(s, e)) == multiset(s) + multiset{e}
  {
    InsertSplit(s, e);
    var k := InsertionPoint(s, e);
    calc {
      multiset(Insert(s, e));
      multiset(s[..k] + [e] + s[k..]);
      multiset(s[..k]) + multiset{e} + multiset(s[k..]);
      { assert s == s[..k] + s[k..]; }
      multiset(s) + multiset{e};
    }
  }

  /** When no pending event is later than `e`, insertion appends `e`: the task queue
      receives arrivals in dispatch order, so it is FIFO. */
  lemma {:induction false} InsertAppends(s: seq<Event>, e: Event)
    requires forall x :: x in s ==> x.time <= e.time
    ensures Insert(s, e) == s + [e]
  {
    AllScanned(s, e, 0);
    InsertSplit(s, e);
  }

  lemma {:induction false} AllScanned(s: seq<Event>, e: Event, i: nat)
    requires i <= |s|
    requires forall x :: x in s ==> x.time <= e.time
    ensures ScanFrom(s, e, i) == |s|
    decreases |s| - i
  {
    if i < |s| {
      assert s[i] in s;
      AllScanned(s, e, i + 1);
    }
  }

  /** Insertion of an event that equals no pending event keeps the list duplicate-free. */
  lemma InsertDistinct(s: seq<Event>, e: Event)
    requires Distinct(s) && !Contains(s, e)
    ensures Distinct(Insert(s, e))
  {
    InsertSplit(s, e);
    var k := InsertionPoint(s, e);
    var r := Insert(s, e);
    forall i, j | 0 <= i < j < |r|
      ensures !Equals(r[i], r[j])
    {
      if j < k {
        assert r[i] == s[i] && r[j] == s[j];
      } else if j == k {
        assert r[i] == s[i];
        EqualsReflexiveSymmetric(s[i], e);
      } else if i < k {
        assert r[i] == s[i] && r[j] == s[j - 1];
      } else if i == k {
        assert r[j] == s[j - 1];
      } else {
        assert r[i] == s[i - 1] && r[j] == s[j - 1];
      }
    }
  }

  /** The elements after insertion are the old ones and the new one. */
  lemma InsertMembers(s: seq<Event>, e: Event)
    ensures forall x :: x in Insert(s, e) <==> x in s || x == e
  {
    InsertMultiset(s, e);
    forall x
      ensures x in Insert(s, e) <==> x in s || x == e
    {
      assert x in Insert(s, e) <==> x in multiset(Insert(s, e));
    }
  }

  /** Concatenation splits the count of drops. */
  lemma {:induction false} CountDropsConcat(a: seq<Event>, b: seq<Event>)
    ensures CountDrops(a + b) == CountDrops(a) + CountDrops(b)
    decreases |a|
  {
    if a == [] {
      assert a + b == b;
    } else {
      assert (a + b)[1..] == a[1..] + b;
      CountDropsConcat(a[1..], b);
    }
  }

  /** Inserting adds one drop exactly when the inserted event is a drop. */
  lemma InsertCountDrops(s: seq<Event>, e: Event)
    ensures CountDrops(Insert(s, e)) == CountDrops(s) + (if e.TaskDrop? then 1 else 0)
  {
    InsertSplit(s, e);
    var k := InsertionPoint(s, e);
    CountDropsConcat(s[..k] + [e], s[k..]);
    CountDropsConcat(s[..k], [e]);
    CountDropsConcat(s[..k], s[k..]);
    assert s[..k] + s[k..] == s;
  }

  // ---------------------------------------------------------------------------
  // Properties of cancellation

  /** Cancellation removes the first transition towards `target` and nothing else;
      with no such transition pending the list is unchanged. */
  lemma CancelFirstOnly(s: seq<Event>, target: State)
    ensures (forall i :: 0 <= i < |s| ==> !TransitionTo(s[i], target)) ==> Cancel(s, target) == s
    ensures forall k :: (0 <= k < |s| && TransitionTo(s[k], target) &&
      (forall j :: 0 <= j < k ==> !TransitionTo(s[j], target))) ==>
      Cancel(s, target) == s[..k] + s[k + 1..]
  {
    CancelSplit(s, target);
    var f := FirstTransitionFrom(s, target, 0);
    forall k | 0 <= k < |s| && TransitionTo(s[k], target) &&
      (forall j :: 0 <= j < k ==> !TransitionTo(s[j], target))
      ensures Cancel(s, target) == s[..k] + s[k + 1..]
    {
      assert f == k;
    }
  }

  /** Removing the element at index `k` keeps order and distinctness. */
  lemma RemoveAtOrdered(s: seq<Event>, k: nat)
    requires k < |s|
    ensures Sorted(s) ==> Sorted(s[..k] + s[k + 1..])
    ensures Distinct(s) ==> Distinct(s[..k] + s[k + 1..])
  {
    var r := s[..k] + s[k + 1..];
    assert forall i :: 0 <= i < |r| ==> r[i] == if i < k then s[i] else s[i + 1];
  }

  /** Removing the element at index `k` removes one copy of it. */
  lemma RemoveAtMultiset(s: seq<Event>, k: nat)
    requires k < |s|
    ensures multiset(s[..k] + s[k + 1..]) == multiset(s) - multiset{s[k]}
  {
    calc {
      multiset(s);
      { assert s == s[..k] + ([s[k]] + s[k + 1..]); }
      multiset(s[..k]) + multiset([s[k]] + s[k + 1..]);
      multiset(s[..k]) + multiset{s[k]} + multiset(s[k + 1..]);
    }
  }

  /** Removing the element at index `k` removes a drop exactly when it is one. */
  lemma RemoveAtCountDrops(s: seq<Event>, k: nat)
    requires k < |s|
    ensures CountDrops(s) == CountDrops(s[..k] + s[k + 1..]) + (if s[k].TaskDrop? then 1 else 0)
  {
    assert s == s[..k] + ([s[k]] + s[k + 1..]);
    CountDropsConcat(s[..k], [s[k]] + s[k + 1..]);
    CountDropsConcat([s[k]], s[k + 1..]);
    CountDropsConcat(s[..k], s[k + 1..]);
    assert ([s[k]])[1..] == [];
  }

  /** Cancellation keeps order and distinctness. */
  lemma CancelPreserves(s: seq<Event>, target: State)
    ensures Sorted(s) ==> Sorted(Cancel(s, target))
    ensures Distinct(s) ==> Distinct(Cancel(s, target))
  {
    CancelSplit(s, target);
    var k := FirstTransitionFrom(s, target, 0);
    if k < |s| {
      RemoveAtOrdered(s, k);
    }
  }

  /** Cancellation only removes events. */
  lemma {:induction false} CancelMembers(s: seq<Event>, target: State)
    ensures forall x :: x in Cancel(s, target) ==> x in s
    decreases |s|
  {
    if s != [] && !TransitionTo(s[0], target) {
      CancelMembers(s[1..], target);
      forall x | x in Cancel(s, target)
        ensures x in s
      {
        if x != s[0] {
          assert x in s[1..];
        }
      }
    }
  }

  /** Inserting an event that is not past the end of time and equals no pending event
      keeps a list well formed. */
  lemma InsertListOk(s: seq<Event>, e: Event, endTime: real)
    requires ListOk(s, endTime) && !Contains(s, e) && e.time <= endTime
    ensures ListOk(Insert(s, e), endTime)
  {
    InsertOrdered(s, e);
    NoneAfterIff(s, endTime);
    InsertMembers(s, e);
    NoneAfterIff(Insert(s, e), endTime);
  }

  /** Cancelling a transition keeps a list well formed. */
  lemma CancelListOk(s: seq<Event>, target: State, endTime: real)
    requires ListOk(s, endTime)
    ensures ListOk(Cancel(s, target), endTime)
  {
    CancelOrdered(s, target);
    NoneAfterIff(s, endTime);
    CancelMembers(s, target);
    NoneAfterIff(Cancel(s, target), endTime);
  }

  /** Cancellation keeps the list invariant. */
  lemma CancelOrdered(s: seq<Event>, target: State)
    requires Ordered(s)
    ensures Ordered(Cancel(s, target))
  {
    OrderedIff(s);
    CancelPreserves(s, target);
    OrderedIff(Cancel(s, target));
  }

  /** Cancellation never removes a pending drop. */
  lemma CancelCountDrops(s: seq<Event>, target: State)
    ensures CountDrops(Cancel(s, target)) == CountDrops(s)
  {
    CancelSplit(s, target);
    var k := FirstTransitionFrom(s, target, 0);
    if k < |s| {
      RemoveAtCountDrops(s, k);
    }
  }

  /** Removing the head keeps order, distinctness and all later events. */
  lemma PopPreserves(s: seq<Event>)
    requires s != []
    ensures Sorted(s) ==> Sorted(s[1..])
    ensures Distinct(s) ==> Distinct(s[1..])
    ensures Ordered(s) ==> Ordered(s[1..])
    ensures CountDrops(s) == CountDrops(s[1..]) + (if s[0].TaskDrop? then 1 else 0)
  {
    assert s[..0] + s[1..] == s[1..];
    RemoveAtOrdered(s, 0);
    RemoveAtCountDrops(s, 0);
  }

  /** The head of a sorted list is an earliest pending event. */
  lemma HeadIsEarliest(s: seq<Event>)
    requires Sorted(s) && s != []
    ensures forall x :: x in s ==> s[0].time <= x.time
  {
  }

  // ---------------------------------------------------------------------------
  // Scheduling actions performed by the event handlers

  /** One request a handler makes of the event list: `addEvent` of an event that is not
      in the past, or `removeStateTransitionEvent` of a target state. */
  datatype Action = Add(event: Event) | CancelTransition(target: State)

  function Perform(s: seq<Event>, endTime: real, a: Action): seq<Event>
  {
    match a
    case Add(e) => Scheduled(s, endTime, e)
    case CancelTransition(target) => Cancel(s, target)
  }

  /** The list after the actions are performed in order. */
  function PerformAll(s: seq<Event>, endTime: real, acts: seq<Action>): seq<Event>
    decreases |acts|
  {
    if acts == [] then s else PerformAll(Perform(s, endTime, acts[0]), endTime, acts[1..])
  }

  /** Performing two runs of actions one after the other is performing their
      concatenation. */
  lemma {:induction false} PerformAllConcat(s: seq<Event>, endTime: real, a: seq<Action>, b: seq<Action>)
    ensures PerformAll(s, endTime, a + b) == PerformAll(PerformAll(s, endTime, a), endTime, b)
    decreases |a|
  {
    if a == [] {
      assert a + b == b;
    } else {
      assert (a + b)[1..] == a[1..] + b;
      PerformAllConcat(Perform(s, endTime, a[0]), endTime, a[1..], b);
    }
  }

  // ---------------------------------------------------------------------------
  // The list object

  class EventList {
    /** The pending events (`list`). */
    var list: seq<Event>
    /** The time of the event handled last (`simulation_time`). */
    var simulationTime: real
    /** The end of time (`end_time`): events after it are never scheduled. */
    const endTime: real

    ghost predicate Valid()
      reads this`list
    {
      ListOk(list, endTime)
    }

    /** `new EventList(t)`: empty, at time 0, ending at `t`. */
    constructor (t: real)
      ensures Valid()
      ensures list == [] && simulationTime == 0.0 && endTime == t
    {
      list := [];
      simulationTime := 0.0;
      endTime := t;
    }

    /** `addEvent(e)`: an event earlier than the simulation time aborts the run; an event
        past the end of time or equal to a pending one is refused; otherwise it is
        inserted after every pending event not later than it. */
    method AddEvent(e: Event) returns (r: Outcome<bool>)
      requires Valid()
      modifies this`list
      ensures Valid()
      ensures r.Abort? <==> e.time < simulationTime
      ensures r.Abort? ==> r.failure == InvalidEventTime
      ensures r.Ok? ==> (r.value <==> e.time <= endTime && !Contains(old(list), e))
      ensures list == if r == Ok(true) then Insert(old(list), e) else old(list)
    {
      if e.time < simulationTime {
        return Abort(InvalidEventTime);
      }
      if e.time > endTime || Contains(list, e) {
        return Ok(false);
      }
      var i := 0;
      var n := |list|;
      while i < n && CompareTo(e, list[i]) <= 0
        invariant 0 <= i <= n
        invariant ScanFrom(list, e, i) == InsertionPoint(list, e)
        decreases n - i
      {
        i := i + 1;
      }
      InsertListOk(list, e, endTime);
      InsertSplit(list, e);
      list := list[..i] + [e] + list[i..];
      return Ok(true);
    }

    /** `getSimulationTime()`. */
    function GetSimulationTime(): real
      reads this
    {
      simulationTime
    }

    /** `getNextEvent(remove)`: the head of the list, or none when the list is empty;
        with `remove` the head is also taken off the list. */
    method GetNextEvent(remove: bool) returns (r: Option<Event>)
      modifies this`list
      ensures old(list) == [] ==> r == None && list == []
      ensures old(list) != [] ==> r == Some(old(list)[0])
      ensures old(list) != [] ==> list == if remove then old(list)[1..] else old(list)
      ensures old(Valid()) ==> Valid()
    {
      if list == [] {
        return None;
      }
      r := Some(list[0]);
      if remove {
        PopPreserves(list);
        list := list[1..];
      }
    }

    /** `getNextEvent(false)`, which leaves the list as it is: the head, or none when
        the list is empty. */
    function Peek(): Option<Event>
      reads this`list
    {
      if list == [] then None else Some(list[0])
    }

    /** The time update of `handleEvent(e)`: the handled event's time becomes the
        simulation time. (Calling the handler is done by the simulator.) */
    method HandleEvent(e: Event)
      modifies this`simulationTime
      ensures simulationTime == e.time
    {
      simulationTime := e.time;
    }

    /** `removeStateTransitionEvent(target)`: removes the first pending transition
        towards `target` and reports whether there was one. */
    method RemoveStateTransitionEvent(target: State) returns (removed: bool)
      modifies this`list
      ensures removed <==> exists i :: 0 <= i < |old(list)| && TransitionTo(old(list)[i], target)
      ensures list == Cancel(old(list), target)
      ensures old(Valid()) ==> Valid()
    {
      ghost var s := list;
      CancelSplit(s, target);
      if Valid() {
        CancelListOk(s, target, endTime);
      }
      for i := 0 to |list|
        invariant list == s
        invariant FirstTransitionFrom(s, target, i) == FirstTransitionFrom(s, target, 0)
      {
        if list[i].StateTransition? && list[i].newState == target {
          assert TransitionTo(s[i], target);
          list := list[..i] + list[i + 1..];
          return true;
        }
      }
      assert FirstTransitionFrom(s, target, 0) == |s|;
      return false;
    }
  }
}
