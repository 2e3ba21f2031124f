/** `BaseStation`: the five-state power state machine, its task queue and its
    statistics. The four handlers change the station in place and schedule follow-up
    events on the simulator's shared event list. */
module Station {
  import opened Outcomes
  import opened Events
  import opened EventLists
  import opened Configuration
  import opened Statistics

  /** An arrival is queued when the queue is unbounded (capacity 0) or has room. */
  predicate Admits(maxQueueSize: int, queueSize: int)
  {
    maxQueueSize == 0 || queueSize + 1 <= maxQueueSize
  }

  /** What `handleTaskArrivalEvent` asks of the event list once the queue holds `size`
      tasks, given the state it found: when the queue size is 1 in ACTIVE_IDLE,
      cancelling the inactivity timer (if there is one) and serving now; when it is 1
      while going to or being asleep under coalescing with a time threshold, the timer
      for that threshold; and under coalescing in SLEEP with at least `qth` tasks queued,
      replacing the time-threshold timer (if there is one) by an immediate wake-up. */
  function WakeActions(c: Config, state: State, size: int, qth: int, t: real): seq<Action>
  {
    IdleWake(c, state, size, t) + TimerWake(c, state, size, t) + QuantityWake(c, state, size, qth, t)
  }

  /** The first task in ACTIVE_IDLE: the inactivity timer (if there is one) is cancelled
      and service starts now. */
  function IdleWake(c: Config, state: State, size: int, t: real): seq<Action>
  {
    if size == 1 && state == ActiveIdle then
      (if c.inactivityT > 0.0 then [CancelTransition(TransitionToSleep)] else [])
      + [Add(StateTransition(t, ActiveServe))]
    else []
  }

  /** The first task while going to or being asleep under coalescing with a time
      threshold: the timer for that threshold. */
  function TimerWake(c: Config, state: State, size: int, t: real): seq<Action>
  {
    if size == 1 && c.scheme == Coalescing && c.sleepToActiveTth > 0.0
       && (state == TransitionToSleep || state == Sleep) then
      [Add(StateTransition(t + c.sleepToActiveTth, TransitionToActive))]
    else []
  }

  /** Enough tasks in SLEEP under coalescing: the time-threshold timer (if there is
      one) is replaced by an immediate wake-up. */
  function QuantityWake(c: Config, state: State, size: int, qth: int, t: real): seq<Action>
  {
    if c.scheme == Coalescing && state == Sleep && size >= qth then
      (if c.sleepToActiveTth > 0.0 then [CancelTransition(TransitionToActive)] else [])
      + [Add(StateTransition(t, TransitionToActive))]
    else []
  }

  /** Everything `handleTaskArrivalEvent` asks of the event list, in order: the drop of
      the task when it is not queued, the next arrival, then the wake-up actions. */
  function ArrivalActions(c: Config, state: State, queueSize: int, maxQueueSize: int, qth: int,
                          e: Event, next: Event): seq<Action>
    requires e.TaskArrival?
  {
    var admitted := Admits(maxQueueSize, queueSize);
    (if admitted then [] else [Add(TaskDrop(e.time, e.taskId))])
    + ([Add(next)] + WakeActions(c, state, if admitted then queueSize + 1 else queueSize, qth, e.time))
  }

  /** What `handleTaskServiceEvent` asks of the event list once the head is served: the
      completion of the new head after its own service time, or, when the queue has
      drained, ACTIVE_IDLE now (only with an inactivity timer) and TRANSITION_TO_SLEEP
      when the inactivity timer expires. */
  function ServiceActions(c: Config, remaining: seq<Event>, t: real): seq<Action>
    requires remaining != [] ==> remaining[0].TaskArrival?
  {
    if remaining != [] then
      [Add(TaskService(t + remaining[0].taskStime, remaining[0].taskId, remaining[0].taskStime))]
    else
      (if c.inactivityT > 0.0 then [Add(StateTransition(t, ActiveIdle))] else [])
      + [Add(StateTransition(t + c.inactivityT, TransitionToSleep))]
  }

  /** What entering `target` asks of the event list: ACTIVE_SERVE with tasks serves the
      head with a fresh service time; TRANSITION_TO_SLEEP leads to SLEEP; TRANSITION_TO_ACTIVE
      with an empty queue under `multiple` probes again after the sleeping period and
      otherwise leads to ACTIVE_SERVE; SLEEP under coalescing wakes at once if enough
      tasks wait and otherwise wakes after the sleeping period. */
  function EntryActions(c: Config, target: State, queueSize: int, headId: nat, qth: int,
                        t: real, drawn: real): seq<Action>
  {
    match target
    case ActiveServe =>
      if queueSize > 0 then [Add(TaskService(t + drawn, headId, drawn))] else []
    case TransitionToSleep =>
      [Add(StateTransition(t + c.activeToSleepT, Sleep))]
    case TransitionToActive =>
      if queueSize == 0 && c.scheme == Multiple then
        [Add(StateTransition(t + c.sleepingT, TransitionToActive))]
      else
        [Add(StateTransition(t + c.sleepToActiveT, ActiveServe))]
    case Sleep =>
      if c.scheme == Coalescing then
        (if queueSize >= qth then [Add(StateTransition(t, TransitionToActive))] else [])
      else
        [Add(StateTransition(t + c.sleepingT, TransitionToActive))]
    case ActiveIdle =>
      []
  }

  /** The task id of the head of a queue of arrivals, 0 when it is empty. */
  function HeadId(q: seq<Event>): nat
  {
    if q != [] && q[0].TaskArrival? then q[0].taskId else 0
  }

  /** The state actually entered: an empty ACTIVE_SERVE under `single` falls back to
      ACTIVE_IDLE and an empty TRANSITION_TO_ACTIVE under `multiple` falls back to SLEEP. */
  function EnteredState(scheme: Scheme, target: State, queueSize: int): State
  {
    if target == ActiveServe && queueSize == 0 && scheme == Single then ActiveIdle
    else if target == TransitionToActive && queueSize == 0 && scheme == Multiple then Sleep
    else target
  }

  /** The `i`-th arrival instant is no later than the next one. */
  predicate NoEarlierNext(arrivalAt: nat -> real, i: nat)
  {
    arrivalAt(i) <= arrivalAt(i + 1)
  }

  /** The inputs that stand for the generators: arrival instants never decrease from a
      non-negative first one, and service times are positive. */
  ghost predicate StreamsOk(arrivalAt: nat -> real, serviceAt: nat -> real)
  {
    && arrivalAt(0) >= 0.0
    && (forall i: nat :: NoEarlierNext(arrivalAt, i))
    && (forall i: nat :: serviceAt(i) > 0.0)
  }

  /** The task ids of a queue of arrivals increase from head to tail. */
  ghost predicate IdsAscending(q: seq<Event>)
  {
    |q| < 2 || (q[0].TaskArrival? && q[1].TaskArrival? && q[0].taskId < q[1].taskId && IdsAscending(q[1..]))
  }

  /** Appending an arrival whose id exceeds every queued one keeps the ids ascending. */
  lemma {:induction false} AscendingAppend(q: seq<Event>, e: Event)
    requires IdsAscending(q) && e.TaskArrival?
    requires forall x :: x in q ==> x.TaskArrival? && x.taskId < e.taskId
    ensures IdsAscending(q + [e])
  {
    if |q| >= 1 {
      assert (q + [e])[1..] == q[1..] + [e];
      assert q[0] in q;
      if |q| >= 2 {
        AscendingAppend(q[1..], e);
      }
    }
  }

  /** What the station relies on about a pending event: it is not in the past; an
      arrival is the latest one created, at the latest instant drawn, with a positive
      service time; a drop belongs to a task created before the latest one. */
  ghost predicate Fits(y: Event, now: real, nextId: nat, lastArrival: real)
  {
    && y.time >= now
    && (y.TaskArrival? ==> y.taskId + 1 == nextId && y.time == lastArrival && y.taskStime > 0.0)
    && (y.TaskDrop? ==> y.taskId + 1 < nextId)
  }

  /** Every event of `s` fits. */
  ghost predicate AllFit(s: seq<Event>, now: real, nextId: nat, lastArrival: real)
  {
    s == [] || (Fits(s[0], now, nextId, lastArrival) && AllFit(s[1..], now, nextId, lastArrival))
  }

  lemma {:induction false} AllFitIff(s: seq<Event>, now: real, nextId: nat, lastArrival: real)
    ensures AllFit(s, now, nextId, lastArrival) <==> forall y :: y in s ==> Fits(y, now, nextId, lastArrival)
    decreases |s|
  {
    if s != [] {
      AllFitIff(s[1..], now, nextId, lastArrival);
      assert s == [s[0]] + s[1..];
    }
  }

  /** Scheduling an event that fits keeps every pending event fitting. */
  lemma InsertFits(s: seq<Event>, x: Event, now: real, nextId: nat, lastArrival: real)
    requires AllFit(s, now, nextId, lastArrival) && Fits(x, now, nextId, lastArrival)
    ensures AllFit(Insert(s, x), now, nextId, lastArrival)
  {
    AllFitIff(s, now, nextId, lastArrival);
    InsertMembers(s, x);
    AllFitIff(Insert(s, x), now, nextId, lastArrival);
  }

  /** Cancelling a transition keeps every pending event fitting. */
  lemma CancelFits(s: seq<Event>, target: State, now: real, nextId: nat, lastArrival: real)
    requires AllFit(s, now, nextId, lastArrival)
    ensures AllFit(Cancel(s, target), now, nextId, lastArrival)
  {
    AllFitIff(s, now, nextId, lastArrival);
    CancelMembers(s, target);
    AllFitIff(Cancel(s, target), now, nextId, lastArrival);
  }

  /** Creating a task keeps every pending event fitting when no arrival is pending: a
      pending drop belongs to an even earlier task. */
  lemma {:induction false} NewTaskFits(s: seq<Event>, now: real, nextId: nat, lastArrival: real, newArrival: real)
    requires AllFit(s, now, nextId, lastArrival)
    requires forall y :: y in s ==> !y.TaskArrival?
    ensures AllFit(s, now, nextId + 1, newArrival)
    decreases |s|
  {
    if s != [] {
      assert s[0] in s;
      forall y | y in s[1..] ensures !y.TaskArrival? {
        assert y in s;
      }
      NewTaskFits(s[1..], now, nextId, lastArrival, newArrival);
    }
  }

  /** Every pending event fits at a later clock that is not past any of them. */
  lemma AdvanceFits(s: seq<Event>, now: real, later: real, nextId: nat, lastArrival: real)
    requires AllFit(s, now, nextId, lastArrival)
    requires forall y :: y in s ==> later <= y.time
    ensures AllFit(s, later, nextId, lastArrival)
  {
    AllFitIff(s, now, nextId, lastArrival);
    AllFitIff(s, later, nextId, lastArrival);
  }

  /** What taking the head off a well-formed list of fitting events tells: the head
      fits and is not past the end of time, the rest fits at the head's time, and
      when the head is an arrival no other arrival is pending (it would be the same
      task at the same instant, which the list never holds twice). */
  lemma {:induction false} HeadFacts(s: seq<Event>, now: real, nextId: nat, lastArrival: real, endTime: real)
    requires ListOk(s, endTime) && AllFit(s, now, nextId, lastArrival) && s != []
    ensures Fits(s[0], now, nextId, lastArrival) && s[0].time <= endTime
    ensures AllFit(s[1..], s[0].time, nextId, lastArrival)
    ensures s[0].TaskArrival? ==> forall y :: y in s[1..] ==> !y.TaskArrival?
  {
    var rest := s[1..];
    AllFitIff(rest, now, nextId, lastArrival);
    forall y | y in rest
      ensures s[0].time <= y.time && !Equals(s[0], y)
      ensures s[0].TaskArrival? ==> !y.TaskArrival?
    {
      var j :| 0 <= j < |rest| && rest[j] == y;
      assert s[j + 1] == y;
      assert Fits(y, now, nextId, lastArrival);
    }
    AdvanceFits(rest, now, s[0].time, nextId, lastArrival);
  }

  class BaseStation {
    /** The run configuration (the simulator's static parameters). */
    const config: Config
    /** The simulator's event list (`event_handler`), shared with the driver. */
    const events: EventList
    /** The task queue: arrival events, oldest first. */
    const queue: EventList
    /** The global task counter. */
    const ids: TaskIds
    /** The task generator: the instant of the i-th arrival it produces. */
    const arrivalAt: nat -> real
    /** The service time generator: the i-th service time it produces. */
    const serviceAt: nat -> real
    /** How many values each generator has produced. */
    var arrivalsDrawn: nat
    var servicesDrawn: nat

    var queueSize: nat
    var maxQueueSize: int
    var state: State
    var tasksReceived: nat
    var tasksServed: nat
    var tasksDiscarded: nat
    var numTransitions: nat
    var sumTasksDelay: real
    var maximumTaskDelay: real
    var lastStateTransitionTime: real
    var tasksReceivedInCurrentCycle: nat
    var prevCycleEndTime: real
    var weightedSumSleepToActiveQth: real
    var timeInStates: map<State, real>
    /** The coalescing quantity threshold; a static of the simulator in the source,
        changed here when the dynamic threshold is recomputed. */
    var sleepToActiveQth: int
    /** Every task delay measured so far, in service order. */
    ghost var delays: seq<real>

    /** The objects are distinct, the task queue is well formed, both lists share the
        end of time, and the task queue's clock never moves. */
    ghost predicate ObjectsOk()
      reads events`simulationTime, queue`list, queue`simulationTime
    {
      && events != queue
      && ListOk(queue.list, queue.endTime)
      && events.endTime == config.simulationLength && queue.endTime == config.simulationLength
      && queue.simulationTime == 0.0
      && events.simulationTime >= 0.0
    }

    /** The queue holds `queueSize` arrivals of past instants, in id order, with
        positive service times and ids below that of the pending arrival. */
    ghost predicate QueueOk()
      reads this`queueSize, queue`list, ids`next, events`simulationTime
    {
      && queueSize == |queue.list|
      && (forall q :: q in queue.list ==>
            q.TaskArrival? && q.taskId + 1 < ids.next && q.time <= events.simulationTime && q.taskStime > 0.0)
      && IdsAscending(queue.list)
    }

    /** Pending events are not in the past; a pending arrival is the latest one created;
        a pending drop belongs to an earlier task. */
    ghost predicate PendingOk()
      reads this`arrivalsDrawn, events`list, events`simulationTime, ids`next
    {
      && ids.next >= 1 && arrivalsDrawn >= 1
      && AllFit(events.list, events.simulationTime, ids.next, arrivalAt(arrivalsDrawn - 1))
    }

    /** The threshold is at least 1, the dwell times are consistent up to the last
        transition, the current cycle began in the past, and the delay statistics agree
        with the delays. */
    ghost predicate StatsOk()
      reads this`sleepToActiveQth, this`timeInStates, this`lastStateTransitionTime, this`prevCycleEndTime
      reads this`delays, this`tasksServed, this`sumTasksDelay, this`maximumTaskDelay, events`simulationTime
    {
      && sleepToActiveQth >= 1
      && DwellOk(timeInStates, lastStateTransitionTime) && lastStateTransitionTime <= events.simulationTime
      && 0.0 <= prevCycleEndTime <= events.simulationTime
      && DelaysOk(delays, tasksServed, sumTasksDelay, maximumTaskDelay)
    }

    ghost predicate Valid()
      reads this, events, queue, ids
    {
      && TimingOk(config)
      && StreamsOk(arrivalAt, serviceAt)
      && ObjectsOk() && ListOk(events.list, events.endTime)
      && QueueOk() && PendingOk() && StatsOk()
    }

    /** Conservation of tasks: every task received has been served, discarded, is
        still queued, or has its drop pending. */
    ghost predicate Conserved()
      reads this`tasksReceived, this`tasksServed, this`tasksDiscarded, this`queueSize, events`list
    {
      tasksReceived == tasksServed + tasksDiscarded + queueSize + CountDrops(events.list)
    }

    /** An arrival about to be handled: the one just taken off the event list, so it is
        the latest arrival created and no other arrival is pending. */
    ghost predicate ArrivalDue(e: Event)
      reads this`arrivalsDrawn, events`list, events`simulationTime, ids`next
    {
      && e.TaskArrival?
      && arrivalsDrawn >= 1
      && e.time == events.simulationTime
      && e.time <= events.endTime
      && e.taskId + 1 == ids.next
      && e.time == arrivalAt(arrivalsDrawn - 1)
      && e.taskStime > 0.0
      && (forall y :: y in events.list ==> !y.TaskArrival?)
    }

    /** `new BaseStation(tg, stg)`: an empty unbounded queue, ACTIVE_IDLE at time 0 with
        zeroed statistics; it schedules ACTIVE_IDLE at 0, TRANSITION_TO_SLEEP when the
        inactivity timer first expires, and the first arrival. */
    constructor (config: Config, events: EventList, ids: TaskIds,
                 arrivalAt: nat -> real, serviceAt: nat -> real)
      requires TimingOk(config) && StreamsOk(arrivalAt, serviceAt)
      requires ListOk(events.list, events.endTime) && events.list == [] && events.simulationTime == 0.0
      requires events.endTime == config.simulationLength
      modifies events`list, ids`next
      ensures Valid() && Conserved()
      ensures this.config == config && this.events == events && this.ids == ids
      ensures this.arrivalAt == arrivalAt && this.serviceAt == serviceAt
      ensures fresh(queue) && queue.list == [] && queueSize == 0 && maxQueueSize == 0
      ensures state == ActiveIdle && lastStateTransitionTime == 0.0
      ensures forall s: State :: s in timeInStates && timeInStates[s] == 0.0
      ensures tasksReceived == 0 && tasksServed == 0 && tasksDiscarded == 0 && numTransitions == 0
      ensures sumTasksDelay == 0.0 && maximumTaskDelay == 0.0
      ensures tasksReceivedInCurrentCycle == 0 && prevCycleEndTime == 0.0
      ensures weightedSumSleepToActiveQth == 0.0 && sleepToActiveQth == config.sleepToActiveQth
      ensures arrivalsDrawn == 1 && servicesDrawn == 1 && ids.next == old(ids.next) + 1
      ensures events.simulationTime == 0.0
      ensures events.list == PerformAll([], config.simulationLength,
        [Add(StateTransition(0.0, ActiveIdle)),
         Add(StateTransition(config.inactivityT, TransitionToSleep)),
         Add(TaskArrival(arrivalAt(0), old(ids.next), serviceAt(0)))])
    {
      this.config := config;
      this.events := events;
      this.ids := ids;
      this.arrivalAt := arrivalAt;
      this.serviceAt := serviceAt;
      queue := new EventList(config.simulationLength);
      queueSize, maxQueueSize := 0, 0;
      lastStateTransitionTime := 0.0;
      timeInStates := NoDwell();
      state := ActiveIdle;
      tasksReceived, tasksServed, tasksDiscarded, numTransitions := 0, 0, 0, 0;
      sumTasksDelay, maximumTaskDelay := 0.0, 0.0;
      tasksReceivedInCurrentCycle := 0;
      prevCycleEndTime := 0.0;
      weightedSumSleepToActiveQth := 0.0;
      sleepToActiveQth := config.sleepToActiveQth;
      arrivalsDrawn, servicesDrawn := 0, 0;
      delays := [];
      new;
      NoDwellCovers();
      Start();
    }

    /** The events of a new station: the first arrival is drawn from both generators
        and the task counter, then ACTIVE_IDLE now, TRANSITION_TO_SLEEP when the
        inactivity timer expires and that arrival are scheduled. The draw comes first
        here; none of the three events depends on the order. */
    method Start()
      requires TimingOk(config) && StreamsOk(arrivalAt, serviceAt) && ObjectsOk() && StatsOk()
      requires ListOk(events.list, events.endTime) && events.list == [] && events.simulationTime == 0.0
      requires queue.list == [] && queueSize == 0 && arrivalsDrawn == 0 && servicesDrawn == 0
      modifies this`arrivalsDrawn, this`servicesDrawn, ids`next, events`list
      ensures Valid() && CountDrops(events.list) == 0
      ensures arrivalsDrawn == 1 && servicesDrawn == 1 && ids.next == old(ids.next) + 1
      ensures events.list == PerformAll([], events.endTime,
        [Add(StateTransition(0.0, ActiveIdle)),
         Add(StateTransition(config.inactivityT, TransitionToSleep)),
         Add(TaskArrival(arrivalAt(0), old(ids.next), serviceAt(0)))])
    {
      var first := NewArrival();
      ScheduleStart(first);
    }

    /** The events the constructor schedules on the empty event list, in order:
        ACTIVE_IDLE now, TRANSITION_TO_SLEEP when the inactivity timer expires, and the
        first arrival. */
    method ScheduleStart(first: Event)
      requires ListOk(events.list, events.endTime) && PendingOk() && events.list == []
      requires config.inactivityT >= 0.0 && events.simulationTime == 0.0
      requires first.TaskArrival? && Fits(first, events.simulationTime, ids.next, arrivalAt(arrivalsDrawn - 1))
      modifies events`list
      ensures ListOk(events.list, events.endTime) && PendingOk() && CountDrops(events.list) == 0
      ensures events.list == PerformAll([], events.endTime,
        [Add(StateTransition(0.0, ActiveIdle)), Add(StateTransition(config.inactivityT, TransitionToSleep)), Add(first)])
    {
      var idle, sleep := StateTransition(0.0, ActiveIdle), StateTransition(config.inactivityT, TransitionToSleep);
      ScheduleEvent(idle);
      ScheduleEvent(sleep);
      ScheduleEvent(first);
      PerformAllConcat([], events.endTime, [Add(idle)], [Add(sleep)]);
      PerformAllConcat([], events.endTime, [Add(idle), Add(sleep)], [Add(first)]);
    }

    // -------------------------------------------------------------------------
    // Access to the generators, the task counter and the lists

    /** `new TaskArrivalEvent(task_generator.getNextArrival(), ..,
        service_time_generator.getNextServiceTime())`: draws one value from each
        generator and takes the next task id. */
    method NewArrival() returns (next: Event)
      modifies this`arrivalsDrawn, this`servicesDrawn, ids`next
      ensures next == TaskArrival(arrivalAt(old(arrivalsDrawn)), old(ids.next), serviceAt(old(servicesDrawn)))
      ensures arrivalsDrawn == old(arrivalsDrawn) + 1 && servicesDrawn == old(servicesDrawn) + 1
      ensures ids.next == old(ids.next) + 1
    {
      var t := arrivalAt(arrivalsDrawn);
      arrivalsDrawn := arrivalsDrawn + 1;
      var stime := NextServiceTime();
      next := ids.NewTaskArrival(t, stime);
    }

    /** `service_time_generator.getNextServiceTime()`. */
    method NextServiceTime() returns (stime: real)
      modifies this`servicesDrawn
      ensures stime == serviceAt(old(servicesDrawn)) && servicesDrawn == old(servicesDrawn) + 1
    {
      stime := serviceAt(servicesDrawn);
      servicesDrawn := servicesDrawn + 1;
    }

    /** `event_handler.addEvent(x)` for a state transition, a service completion or an
        arrival the station schedules. It is never in the past, so it never aborts; it
        is added unless it lies past the end of time or an equal event is pending. */
    method ScheduleEvent(x: Event)
      requires ListOk(events.list, events.endTime) && PendingOk() && !x.TaskDrop?
      requires Fits(x, events.simulationTime, ids.next, arrivalAt(arrivalsDrawn - 1))
      modifies events`list
      ensures ListOk(events.list, events.endTime) && PendingOk()
      ensures events.list == PerformAll(old(events.list), events.endTime, [Add(x)])
      ensures CountDrops(events.list) == CountDrops(old(events.list))
    {
      ghost var before := events.list;
      var r := events.AddEvent(x);
      assert [Add(x)][1..] == [];
      if r.value {
        InsertFits(before, x, events.simulationTime, ids.next, arrivalAt(arrivalsDrawn - 1));
        InsertCountDrops(before, x);
      }
    }

    /** `event_handler.addEvent(x)` for the drop of a task that is not queued: no equal
        drop is pending and it is not past the end of time, so it is added. */
    method ScheduleDrop(x: Event)
      requires ListOk(events.list, events.endTime) && PendingOk() && x.TaskDrop?
      requires Fits(x, events.simulationTime, ids.next, arrivalAt(arrivalsDrawn - 1))
      requires x.time <= events.endTime && !Contains(events.list, x)
      modifies events`list
      ensures ListOk(events.list, events.endTime) && PendingOk()
      ensures events.list == PerformAll(old(events.list), events.endTime, [Add(x)])
      ensures CountDrops(events.list) == CountDrops(old(events.list)) + 1
    {
      ghost var before := events.list;
      var r := events.AddEvent(x);
      assert [Add(x)][1..] == [];
      InsertFits(before, x, events.simulationTime, ids.next, arrivalAt(arrivalsDrawn - 1));
      InsertCountDrops(before, x);
    }

    /** `event_handler.removeStateTransitionEvent(target)`. */
    method CancelTransitionTo(target: State)
      requires ListOk(events.list, events.endTime) && PendingOk()
      modifies events`list
      ensures ListOk(events.list, events.endTime) && PendingOk()
      ensures events.list == PerformAll(old(events.list), events.endTime, [CancelTransition(target)])
      ensures CountDrops(events.list) == CountDrops(old(events.list))
    {
      ghost var before := events.list;
      var _ := events.RemoveStateTransitionEvent(target);
      assert [CancelTransition(target)][1..] == [];
      CancelCountDrops(before, target);
      CancelFits(before, target, events.simulationTime, ids.next, arrivalAt(arrivalsDrawn - 1));
    }

    /** `queue.addEvent(e)` for an arrival being queued: it is never refused and lands
        at the tail, since every queued task arrived no later. */
    method EnqueueTask(e: Event)
      requires ListOk(queue.list, queue.endTime) && queue.simulationTime == 0.0
      requires 0.0 <= e.time <= queue.endTime
      requires forall q :: q in queue.list ==> q.time <= e.time
      requires !Contains(queue.list, e)
      modifies queue`list
      ensures ListOk(queue.list, queue.endTime) && queue.list == old(queue.list) + [e]
    {
      var r := queue.AddEvent(e);
      InsertAppends(old(queue.list), e);
    }

    // -------------------------------------------------------------------------
    // The four event handlers

    /**
     * What `handleTaskArrivalEvent` does besides counting the task: the task is
     * queued when there is room (and counted in the current cycle under the dynamic
     * scheme), the next arrival is created from both generators and the task counter,
     * and the event list receives what `ArrivalActions` describes. The state, the
     * queue capacity and the threshold are read as they are: the handler leaves them.
     */
    twostate predicate ArrivalEffect(e: Event, pending: seq<Event>)
      reads this`queueSize, this`tasksReceivedInCurrentCycle, this`arrivalsDrawn, this`servicesDrawn,
        this`state, this`maxQueueSize, this`sleepToActiveQth, queue`list, events`list, ids`next
    {
      && e.TaskArrival?
      && var admitted := Admits(maxQueueSize, old(queueSize));
      && queueSize == old(queueSize) + (if admitted then 1 else 0)
      && queue.list == (if admitted then old(queue.list) + [e] else old(queue.list))
      && tasksReceivedInCurrentCycle ==
           old(tasksReceivedInCurrentCycle) + (if admitted && config.dynamicQth then 1 else 0)
      && arrivalsDrawn == old(arrivalsDrawn) + 1 && servicesDrawn == old(servicesDrawn) + 1
      && ids.next == old(ids.next) + 1
      && events.list == PerformAll(pending, events.endTime,
           ArrivalActions(config, state, old(queueSize), maxQueueSize, sleepToActiveQth, e,
                          TaskArrival(arrivalAt(old(arrivalsDrawn)), old(ids.next), serviceAt(old(servicesDrawn)))))
    }

    /** `handleTaskArrivalEvent`: counts the task, then queues it or schedules its drop,
        schedules the next arrival and wakes the station (`ArrivalEffect`). */
    method HandleTaskArrivalEvent(e: Event)
      requires Valid() && ArrivalDue(e)
      modifies this`tasksReceived, this`queueSize, this`tasksReceivedInCurrentCycle, this`arrivalsDrawn,
        this`servicesDrawn, queue`list, events`list, ids`next
      ensures Valid() && (old(Conserved()) ==> Conserved())
      ensures tasksReceived == old(tasksReceived) + 1
      ensures ArrivalEffect(e, old(events.list))
    {
      tasksReceived := tasksReceived + 1;
      Receive(e);
    }

    /** Everything `handleTaskArrivalEvent` does after counting the task. The next
        arrival is drawn first: neither the queue nor the drop depends on the draw, and
        a pending drop then belongs to a task before the latest one. */
    method Receive(e: Event)
      requires StreamsOk(arrivalAt, serviceAt) && ObjectsOk() && ListOk(events.list, events.endTime)
      requires QueueOk() && PendingOk() && StatsOk() && ArrivalDue(e)
      modifies this`queueSize, this`tasksReceivedInCurrentCycle, this`arrivalsDrawn, this`servicesDrawn,
        queue`list, events`list, ids`next
      ensures ObjectsOk() && ListOk(events.list, events.endTime) && QueueOk() && PendingOk() && StatsOk()
      ensures queueSize + CountDrops(events.list) == old(queueSize) + old(CountDrops(events.list)) + 1
      ensures ArrivalEffect(e, old(events.list))
    {
      var next := DrawNextArrival(e);
      Announce(e, next);
      StatsKept();
    }

    /** `e` is queued or dropped, then `next` is scheduled and the station woken. */
    method Announce(e: Event, next: Event)
      requires ObjectsOk() && ListOk(events.list, events.endTime) && QueueOk() && PendingOk()
      requires e.TaskArrival? && e.time == events.simulationTime && e.time <= events.endTime
      requires e.taskId + 2 == ids.next && e.taskStime > 0.0
      requires !Contains(events.list, TaskDrop(e.time, e.taskId)) && !Contains(queue.list, e)
      requires forall q :: q in queue.list ==> q.taskId < e.taskId && q.time <= e.time
      requires next.TaskArrival? && Fits(next, events.simulationTime, ids.next, arrivalAt(arrivalsDrawn - 1))
      modifies this`queueSize, this`tasksReceivedInCurrentCycle, queue`list, events`list
      ensures ObjectsOk() && ListOk(events.list, events.endTime) && QueueOk() && PendingOk()
      ensures var admitted := Admits(maxQueueSize, old(queueSize));
        && queueSize == old(queueSize) + (if admitted then 1 else 0)
        && queue.list == (if admitted then old(queue.list) + [e] else old(queue.list))
        && tasksReceivedInCurrentCycle ==
             old(tasksReceivedInCurrentCycle) + (if admitted && config.dynamicQth then 1 else 0)
        && CountDrops(events.list) == old(CountDrops(events.list)) + (if admitted then 0 else 1)
      ensures events.list == PerformAll(old(events.list), events.endTime,
        ArrivalActions(config, state, old(queueSize), maxQueueSize, sleepToActiveQth, e, next))
    {
      ghost var start := events.list;
      var admitted := Admit(e);
      ghost var dropped: seq<Action> := if admitted then [] else [Add(TaskDrop(e.time, e.taskId))];
      ScheduleArrivalAndWake(e.time, next);
      assert ArrivalActions(config, state, old(queueSize), maxQueueSize, sleepToActiveQth, e, next)
        == dropped + ([Add(next)] + WakeActions(config, state, queueSize, sleepToActiveQth, e.time));
      PerformAllConcat(start, events.endTime, dropped,
                       [Add(next)] + WakeActions(config, state, queueSize, sleepToActiveQth, e.time));
    }

    /** The next arrival created while `e` is handled, with what the handler needs to
        know afterwards: the pending events fit the advanced counter, and neither `e` nor
        its drop is already queued or pending. */
    method DrawNextArrival(e: Event) returns (next: Event)
      requires StreamsOk(arrivalAt, serviceAt) && QueueOk() && PendingOk() && ArrivalDue(e)
      modifies this`arrivalsDrawn, this`servicesDrawn, ids`next
      ensures next == TaskArrival(arrivalAt(old(arrivalsDrawn)), old(ids.next), serviceAt(old(servicesDrawn)))
      ensures arrivalsDrawn == old(arrivalsDrawn) + 1 && servicesDrawn == old(servicesDrawn) + 1
      ensures ids.next == old(ids.next) + 1 && e.taskId + 2 == ids.next
      ensures QueueOk() && PendingOk()
      ensures Fits(next, events.simulationTime, ids.next, arrivalAt(arrivalsDrawn - 1))
      ensures !Contains(events.list, TaskDrop(e.time, e.taskId))
      ensures !Contains(queue.list, e)
      ensures forall q :: q in queue.list ==> q.taskId < e.taskId && q.time <= e.time
    {
      AllFitIff(events.list, events.simulationTime, ids.next, arrivalAt(arrivalsDrawn - 1));
      forall i | 0 <= i < |events.list|
        ensures !Equals(TaskDrop(e.time, e.taskId), events.list[i])
      {
        assert events.list[i] in events.list;
      }
      forall i | 0 <= i < |queue.list|
        ensures !Equals(e, queue.list[i])
      {
        assert queue.list[i] in queue.list;
      }
      assert NoEarlierNext(arrivalAt, arrivalsDrawn - 1);
      NewTaskFits(events.list, events.simulationTime, ids.next, arrivalAt(arrivalsDrawn - 1), arrivalAt(arrivalsDrawn));
      next := NewArrival();
    }

    /** The first half of `handleTaskArrivalEvent`: the task is queued when the queue
        has room, counting it in the current cycle under the dynamic scheme; otherwise
        its drop is scheduled at once. */
    method Admit(e: Event) returns (admitted: bool)
      requires ObjectsOk() && ListOk(events.list, events.endTime) && QueueOk() && PendingOk()
      requires e.TaskArrival? && e.time == events.simulationTime && e.time <= events.endTime
      requires e.taskId + 2 == ids.next && e.taskStime > 0.0
      requires !Contains(events.list, TaskDrop(e.time, e.taskId)) && !Contains(queue.list, e)
      requires forall q :: q in queue.list ==> q.taskId < e.taskId && q.time <= e.time
      modifies this`queueSize, this`tasksReceivedInCurrentCycle, queue`list, events`list
      ensures admitted == Admits(maxQueueSize, old(queueSize))
      ensures ObjectsOk() && ListOk(events.list, events.endTime) && QueueOk() && PendingOk()
      ensures queueSize == old(queueSize) + (if admitted then 1 else 0)
      ensures queue.list == (if admitted then old(queue.list) + [e] else old(queue.list))
      ensures tasksReceivedInCurrentCycle ==
        old(tasksReceivedInCurrentCycle) + (if admitted && config.dynamicQth then 1 else 0)
      ensures events.list ==
        PerformAll(old(events.list), events.endTime, if admitted then [] else [Add(TaskDrop(e.time, e.taskId))])
      ensures CountDrops(events.list) == old(CountDrops(events.list)) + (if admitted then 0 else 1)
    {
      admitted := maxQueueSize == 0 || queueSize + 1 <= maxQueueSize;
      if admitted {
        queueSize := queueSize + 1;
        if config.dynamicQth {
          tasksReceivedInCurrentCycle := tasksReceivedInCurrentCycle + 1;
        }
        AscendingAppend(queue.list, e);
        EnqueueTask(e);
      } else {
        ScheduleDrop(TaskDrop(e.time, e.taskId));
      }
    }

    /** The tail of `handleTaskArrivalEvent`: the next arrival, then the wake-up. */
    method ScheduleArrivalAndWake(t: real, next: Event)
      requires ListOk(events.list, events.endTime) && PendingOk() && t == events.simulationTime
      requires next.TaskArrival? && Fits(next, events.simulationTime, ids.next, arrivalAt(arrivalsDrawn - 1))
      modifies events`list
      ensures ListOk(events.list, events.endTime) && PendingOk()
      ensures CountDrops(events.list) == CountDrops(old(events.list))
      ensures events.list == PerformAll(old(events.list), events.endTime,
        [Add(next)] + WakeActions(config, state, queueSize, sleepToActiveQth, t))
    {
      ghost var start := events.list;
      ScheduleEvent(next);
      WakeOnArrival(t, queueSize);
      PerformAllConcat(start, events.endTime, [Add(next)], WakeActions(config, state, queueSize, sleepToActiveQth, t));
    }

    /** The wake-up part of `handleTaskArrivalEvent`, once the queue holds `size` tasks. */
    method WakeOnArrival(t: real, size: nat)
      requires ListOk(events.list, events.endTime) && PendingOk() && t == events.simulationTime
      modifies events`list
      ensures ListOk(events.list, events.endTime) && PendingOk()
      ensures CountDrops(events.list) == CountDrops(old(events.list))
      ensures events.list == PerformAll(old(events.list), events.endTime,
        WakeActions(config, state, size, sleepToActiveQth, t))
    {
      ghost var start := events.list;
      WakeFromIdle(t, size);
      WakeTimer(t, size);
      WakeOnQuantity(t, size);
      PerformAllConcat(start, events.endTime, IdleWake(config, state, size, t), TimerWake(config, state, size, t));
      PerformAllConcat(start, events.endTime, IdleWake(config, state, size, t) + TimerWake(config, state, size, t),
                       QuantityWake(config, state, size, sleepToActiveQth, t));
    }

    /** The first task in ACTIVE_IDLE: the inactivity timer is cancelled and service
        starts now. */
    method WakeFromIdle(t: real, size: nat)
      requires ListOk(events.list, events.endTime) && PendingOk() && t == events.simulationTime
      modifies events`list
      ensures ListOk(events.list, events.endTime) && PendingOk()
      ensures CountDrops(events.list) == CountDrops(old(events.list))
      ensures events.list == PerformAll(old(events.list), events.endTime, IdleWake(config, state, size, t))
    {
      if size == 1 && state == ActiveIdle {
        ghost var start := events.list;
        if config.inactivityT > 0.0 {
          CancelTransitionTo(TransitionToSleep);
          ScheduleEvent(StateTransition(t, ActiveServe));
          PerformAllConcat(start, events.endTime, [CancelTransition(TransitionToSleep)],
                           [Add(StateTransition(t, ActiveServe))]);
        } else {
          ScheduleEvent(StateTransition(t, ActiveServe));
        }
      }
    }

    /** The first task while going to or being asleep under coalescing with a time
        threshold: the timer for that threshold. */
    method WakeTimer(t: real, size: nat)
      requires ListOk(events.list, events.endTime) && PendingOk() && t == events.simulationTime
      modifies events`list
      ensures ListOk(events.list, events.endTime) && PendingOk()
      ensures CountDrops(events.list) == CountDrops(old(events.list))
      ensures events.list == PerformAll(old(events.list), events.endTime, TimerWake(config, state, size, t))
    {
      if size == 1 && config.scheme == Coalescing && config.sleepToActiveTth > 0.0 &&
         (state == TransitionToSleep || state == Sleep) {
        ScheduleEvent(StateTransition(t + config.sleepToActiveTth, TransitionToActive));
      }
    }

    /** Enough tasks in SLEEP under coalescing: the time-threshold timer (if there is
        one) is replaced by an immediate wake-up. */
    method WakeOnQuantity(t: real, size: nat)
      requires ListOk(events.list, events.endTime) && PendingOk() && t == events.simulationTime
      modifies events`list
      ensures ListOk(events.list, events.endTime) && PendingOk()
      ensures CountDrops(events.list) == CountDrops(old(events.list))
      ensures events.list == PerformAll(old(events.list), events.endTime,
        QuantityWake(config, state, size, sleepToActiveQth, t))
    {
      if config.scheme == Coalescing && state == Sleep && size >= sleepToActiveQth {
        ghost var start := events.list;
        if config.sleepToActiveTth > 0.0 {
          CancelTransitionTo(TransitionToActive);
          ScheduleEvent(StateTransition(t, TransitionToActive));
          PerformAllConcat(start, events.endTime, [CancelTransition(TransitionToActive)],
                           [Add(StateTransition(t, TransitionToActive))]);
        } else {
          ScheduleEvent(StateTransition(t, TransitionToActive));
        }
      }
    }

    /** `handleTaskDropEvent`: counts the discarded task. */
    method HandleTaskDropEvent(e: Event)
      requires Valid() && e.TaskDrop?
      modifies this`tasksDiscarded
      ensures tasksDiscarded == old(tasksDiscarded) + 1
      ensures Valid()
      ensures old(tasksReceived == tasksServed + tasksDiscarded + queueSize + CountDrops(events.list) + 1) ==> Conserved()
    {
      tasksDiscarded := tasksDiscarded + 1;
    }

    /**
     * What serving the task at the head of the queue at time `t` does
     * (`handleTaskServiceEvent`): the head leaves the queue and its delay is
     * recorded (`TaskFinished`), then the next service or the idle-period
     * events are scheduled and, when the queue runs empty under the dynamic
     * scheme, the cycle is closed with a new threshold (`CycleEffect`).
     */
    twostate predicate ServiceEffect(t: real, stime: real, pending: seq<Event>)
      reads this, queue, events
    {
      TaskFinished(t, stime) && CycleEffect(t, pending)
    }

    /** The head of the queue leaves it; its delay is recorded in the statistics. */
    twostate predicate TaskFinished(t: real, stime: real)
      reads this`queueSize, this`tasksServed, this`delays, this`sumTasksDelay, this`maximumTaskDelay, queue`list
    {
      && old(queue.list) != []
      && var delay := t - old(queue.list)[0].time - stime;
      && queue.list == old(queue.list)[1..]
      && queueSize == old(queueSize) - 1
      && tasksServed == old(tasksServed) + 1
      && delays == old(delays) + [delay]
      && sumTasksDelay == old(sumTasksDelay) + delay
      && maximumTaskDelay == (if delay > old(maximumTaskDelay) then delay else old(maximumTaskDelay))
    }

    /** The statistics of the current threshold cycle. */
    function CycleStats(): Cycle
      reads this`sleepToActiveQth, this`weightedSumSleepToActiveQth, this`prevCycleEndTime,
        this`tasksReceivedInCurrentCycle
    {
      Cycle(sleepToActiveQth, weightedSumSleepToActiveQth, prevCycleEndTime, tasksReceivedInCurrentCycle)
    }

    /** With the head already gone: the next service, or the idle timers and (dynamic
        scheme) the end of the cycle when the queue is now empty. */
    twostate predicate CycleEffect(t: real, pending: seq<Event>)
      reads this`sleepToActiveQth, this`weightedSumSleepToActiveQth, this`prevCycleEndTime,
        this`tasksReceivedInCurrentCycle, this`queueSize, queue`list, events`list
    {
      && (queue.list != [] ==> queue.list[0].TaskArrival?)
      && events.list == PerformAll(pending, events.endTime, ServiceActions(config, queue.list, t))
      && old(prevCycleEndTime) <= t
      && CycleStats() == if queueSize == 0 && config.dynamicQth
                         then CloseCycle(old(CycleStats()), t, config.targetDelay, config.sleepToActiveT)
                         else old(CycleStats())
    }

    /** `handleTaskServiceEvent`: a completion that does not match the queue head aborts
        the run. Otherwise the head leaves the queue, its delay (completion minus arrival
        minus service time) enters the sum and the maximum, and the next service or the
        idle timers are scheduled; when the queue drains under the dynamic scheme the
        threshold is recomputed over the cycle that just ended. */
    method HandleTaskServiceEvent(e: Event) returns (r: Outcome<()>)
      requires Valid() && e.TaskService? && e.time == events.simulationTime
      modifies this`queueSize, this`tasksServed, this`maximumTaskDelay, this`sumTasksDelay, this`delays,
        this`weightedSumSleepToActiveQth, this`prevCycleEndTime, this`sleepToActiveQth,
        this`tasksReceivedInCurrentCycle, queue`list, events`list
      ensures Valid() && (old(Conserved()) ==> Conserved())
      ensures r.Abort? <==> old(queueSize) == 0 || old(queue.list)[0].taskId != e.taskId
      ensures r.Abort? ==> r.failure == InvalidTask && unchanged(this, events, queue)
      ensures r.Ok? ==> ServiceEffect(e.time, e.taskStime, old(events.list))
    {
      if queueSize == 0 || queue.Peek().value.taskId != e.taskId {
        return Abort(InvalidTask);
      }
      CompleteService(e.time, e.taskStime);
      return Ok(());
    }
    method CompleteService(t: real, stime: real)
      requires ObjectsOk() && ListOk(events.list, events.endTime) && QueueOk() && PendingOk() && StatsOk()
      requires config.inactivityT >= 0.0 && queueSize > 0 && t == events.simulationTime
      modifies this`queueSize, this`tasksServed, this`maximumTaskDelay, this`sumTasksDelay, this`delays,
        this`weightedSumSleepToActiveQth, this`prevCycleEndTime, this`sleepToActiveQth,
        this`tasksReceivedInCurrentCycle, queue`list, events`list
      ensures ObjectsOk() && ListOk(events.list, events.endTime) && QueueOk() && PendingOk() && StatsOk()
      ensures CountDrops(events.list) == CountDrops(old(events.list))
      ensures ServiceEffect(t, stime, old(events.list))
    {
      FinishTask(t, stime);
      AfterService(t);
    }
    method FinishTask(t: real, stime: real)
      requires ObjectsOk() && QueueOk() && StatsOk() && queueSize > 0
      modifies this`queueSize, this`tasksServed, this`maximumTaskDelay, this`sumTasksDelay, this`delays, queue`list
      ensures ObjectsOk() && QueueOk() && StatsOk()
      ensures TaskFinished(t, stime)
    {
      queueSize := queueSize - 1;
      var head := queue.GetNextEvent(true);
      RecordService(t - head.value.time - stime);
    }

    /** What follows the departure of the head at time `t`. */
    method AfterService(t: real)
      requires ObjectsOk() && ListOk(events.list, events.endTime) && QueueOk() && PendingOk() && StatsOk()
      requires config.inactivityT >= 0.0 && t == events.simulationTime
      modifies this`weightedSumSleepToActiveQth, this`prevCycleEndTime, this`sleepToActiveQth,
        this`tasksReceivedInCurrentCycle, events`list
      ensures ListOk(events.list, events.endTime) && PendingOk() && StatsOk()
      ensures CountDrops(events.list) == CountDrops(old(events.list))
      ensures CycleEffect(t, old(events.list))
    {
      if queueSize > 0 {
        assert queue.list[0] in queue.list;
        ServeNext(t);
      } else {
        if config.dynamicQth {
          UpdateThreshold(t);
        }
        ScheduleIdle(t);
      }
    }

    /** The completion of the new queue head, after its own service time. */
    method ServeNext(t: real)
      requires ListOk(events.list, events.endTime) && PendingOk() && t == events.simulationTime
      requires events != queue && queue.list != [] && queue.list[0].TaskArrival? && queue.list[0].taskStime > 0.0
      modifies events`list
      ensures ListOk(events.list, events.endTime) && PendingOk()
      ensures CountDrops(events.list) == CountDrops(old(events.list))
      ensures events.list == PerformAll(old(events.list), events.endTime, ServiceActions(config, queue.list, t))
    {
      var nextTask := queue.Peek().value;
      var service := TaskService(t + nextTask.taskStime, nextTask.taskId, nextTask.taskStime);
      assert ServiceActions(config, queue.list, t) == [Add(service)];
      ScheduleEvent(service);
    }

    /** The statistics of `handleTaskServiceEvent`: one more task is served, and its
        delay enters the maximum and the sum. */
    method RecordService(delay: real)
      requires DelaysOk(delays, tasksServed, sumTasksDelay, maximumTaskDelay)
      modifies this`tasksServed, this`maximumTaskDelay, this`sumTasksDelay, this`delays
      ensures DelaysOk(delays, tasksServed, sumTasksDelay, maximumTaskDelay)
      ensures tasksServed == old(tasksServed) + 1
      ensures delays == old(delays) + [delay]
      ensures sumTasksDelay == old(sumTasksDelay) + delay
      ensures maximumTaskDelay == (if delay > old(maximumTaskDelay) then delay else old(maximumTaskDelay))
    {
      RecordKeeps(delays, tasksServed, sumTasksDelay, maximumTaskDelay, delay);
      tasksServed := tasksServed + 1;
      if delay > maximumTaskDelay {
        maximumTaskDelay := delay;
      }
      sumTasksDelay := sumTasksDelay + delay;
      delays := delays + [delay];
    }

    /** The dynamic threshold update of `handleTaskServiceEvent` when the queue drains at
        time `t`: the old threshold is weighted by the length of the cycle that ends, and
        the new one is derived from the arrivals of that cycle. */
    method UpdateThreshold(t: real)
      requires prevCycleEndTime <= t
      modifies this`weightedSumSleepToActiveQth, this`prevCycleEndTime, this`sleepToActiveQth,
        this`tasksReceivedInCurrentCycle
      ensures CycleStats() == CloseCycle(old(CycleStats()), t, config.targetDelay, config.sleepToActiveT)
    {
      var elapsed := t - prevCycleEndTime;
      weightedSumSleepToActiveQth := weightedSumSleepToActiveQth + sleepToActiveQth as real * elapsed;
      prevCycleEndTime := t;
      tasksReceivedInCurrentCycle, sleepToActiveQth :=
        0, DynamicThreshold(tasksReceivedInCurrentCycle, elapsed, config.targetDelay, config.sleepToActiveT);
    }

    /** The idle timers `handleTaskServiceEvent` schedules when the queue drains at `t`. */
    method ScheduleIdle(t: real)
      requires ListOk(events.list, events.endTime) && PendingOk() && config.inactivityT >= 0.0 && t == events.simulationTime
      modifies events`list
      ensures ListOk(events.list, events.endTime) && PendingOk()
      ensures CountDrops(events.list) == CountDrops(old(events.list))
      ensures events.list == PerformAll(old(events.list), events.endTime, ServiceActions(config, [], t))
    {
      var sleep := StateTransition(t + config.inactivityT, TransitionToSleep);
      if config.inactivityT > 0.0 {
        ghost var start := events.list;
        ScheduleEvent(StateTransition(t, ActiveIdle));
        ScheduleEvent(sleep);
        PerformAllConcat(start, events.endTime, [Add(StateTransition(t, ActiveIdle))], [Add(sleep)]);
      } else {
        ScheduleEvent(sleep);
      }
    }

    /**
     * What entering `target` at time `t` does (`handleStateTransitionEvent`): the
     * entry actions of `target` are scheduled (`EntryActions`, with a fresh service
     * time when a task is served), a wake-up is counted when `target` is
     * TRANSITION_TO_ACTIVE, the time since the last transition is charged to the
     * state being left, and the state actually entered becomes current.
     */
    twostate predicate TransitionEffect(target: State, t: real, pending: seq<Event>)
      reads this`state, this`timeInStates, this`lastStateTransitionTime, this`numTransitions,
        this`servicesDrawn, this`sleepToActiveQth, events`list
    {
      && (forall x: State :: x in old(timeInStates))
      && state == EnteredState(config.scheme, target, old(queueSize))
      && timeInStates == Charge(old(timeInStates), old(state), t - old(lastStateTransitionTime))
      && lastStateTransitionTime == t
      && numTransitions == old(numTransitions) + (if target == TransitionToActive then 1 else 0)
      && servicesDrawn == old(servicesDrawn) + (if target == ActiveServe && old(queueSize) > 0 then 1 else 0)
      && events.list == PerformAll(pending, events.endTime,
           EntryActions(config, target, old(queueSize), HeadId(old(queue.list)), sleepToActiveQth, t,
                        serviceAt(old(servicesDrawn))))
    }

    /** `handleStateTransitionEvent`: entering ACTIVE_SERVE with an empty queue aborts
        unless the scheme is `single`. Otherwise the entry actions of the target state
        are scheduled, a wake-up is counted, the time since the last transition is added
        to the dwell time of the state being left, and the entered state becomes current. */
    method HandleStateTransitionEvent(e: Event) returns (r: Outcome<()>)
      requires Valid() && e.StateTransition? && e.time == events.simulationTime
      modifies this`state, this`timeInStates, this`lastStateTransitionTime, this`numTransitions,
        this`servicesDrawn, events`list
      ensures Valid() && (old(Conserved()) ==> Conserved())
      ensures r.Abort? <==> e.newState == ActiveServe && old(queueSize) == 0 && config.scheme != Single
      ensures r.Abort? ==> r.failure == NoTaskToServe
      ensures r.Abort? ==> unchanged(this, events)
      ensures r.Ok? ==> TransitionEffect(e.newState, e.time, old(events.list))
    {
      if e.newState == ActiveServe && queueSize == 0 && config.scheme != Single {
        return Abort(NoTaskToServe);
      }
      Transit(e.newState, e.time);
      return Ok(());
    }

    /** The transition itself: the entry actions of `target`, then the dwell update and
        the change of state. */
    method Transit(target: State, t: real)
      requires ListOk(events.list, events.endTime) && PendingOk() && StatsOk()
      requires TimingOk(config) && StreamsOk(arrivalAt, serviceAt) && t == events.simulationTime
      requires queueSize == |queue.list| && (queueSize > 0 ==> queue.list[0].TaskArrival?)
      requires !(target == ActiveServe && queueSize == 0 && config.scheme != Single)
      modifies events`list, this`servicesDrawn, this`numTransitions, this`state, this`timeInStates,
        this`lastStateTransitionTime
      ensures ListOk(events.list, events.endTime) && PendingOk() && StatsOk()
      ensures CountDrops(events.list) == CountDrops(old(events.list))
      ensures TransitionEffect(target, t, old(events.list))
    {
      var entered := EnterState(target, t);
      Settle(entered, t);
    }

    /** The branch of `handleStateTransitionEvent` on the target state: schedules what
        entering it requires, counts a wake-up, and returns the state actually entered. */
    method EnterState(target: State, t: real) returns (entered: State)
      requires ListOk(events.list, events.endTime) && PendingOk()
      requires TimingOk(config) && StreamsOk(arrivalAt, serviceAt) && t == events.simulationTime
      requires queueSize == |queue.list| && (queueSize > 0 ==> queue.list[0].TaskArrival?)
      requires !(target == ActiveServe && queueSize == 0 && config.scheme != Single)
      modifies events`list, this`servicesDrawn, this`numTransitions
      ensures ListOk(events.list, events.endTime) && PendingOk()
      ensures CountDrops(events.list) == CountDrops(old(events.list))
      ensures entered == EnteredState(config.scheme, target, old(queueSize))
      ensures numTransitions == old(numTransitions) + (if target == TransitionToActive then 1 else 0)
      ensures servicesDrawn == old(servicesDrawn) + (if target == ActiveServe && old(queueSize) > 0 then 1 else 0)
      ensures events.list == PerformAll(old(events.list), events.endTime,
        EntryActions(config, target, old(queueSize), HeadId(old(queue.list)), sleepToActiveQth, t,
                     serviceAt(old(servicesDrawn))))
    {
      match target
      case ActiveServe =>
        entered := EnterActiveServe(t);
      case TransitionToSleep =>
        EnterTransitionToSleep(t);
        entered := target;
      case TransitionToActive =>
        entered := EnterTransitionToActive(t);
      case Sleep =>
        EnterSleep(t);
        entered := target;
      case ActiveIdle =>
        entered := target;
    }

    /** ACTIVE_SERVE: the head of the queue is served with a fresh service time; with an
        empty queue (only reachable under `single`) the station falls back to ACTIVE_IDLE. */
    method EnterActiveServe(t: real) returns (entered: State)
      requires ListOk(events.list, events.endTime) && PendingOk()
      requires StreamsOk(arrivalAt, serviceAt) && t == events.simulationTime
      requires queueSize == |queue.list| && (queueSize > 0 ==> queue.list[0].TaskArrival?)
      requires queueSize > 0 || config.scheme == Single
      modifies events`list, this`servicesDrawn
      ensures ListOk(events.list, events.endTime) && PendingOk()
      ensures CountDrops(events.list) == CountDrops(old(events.list))
      ensures entered == EnteredState(config.scheme, ActiveServe, old(queueSize))
      ensures servicesDrawn == old(servicesDrawn) + (if old(queueSize) > 0 then 1 else 0)
      ensures events.list == PerformAll(old(events.list), events.endTime,
        EntryActions(config, ActiveServe, old(queueSize), HeadId(old(queue.list)), sleepToActiveQth, t,
                     serviceAt(old(servicesDrawn))))
    {
      if queueSize > 0 {
        var head := queue.list[0];
        var serviceTime := NextServiceTime();
        ScheduleEvent(TaskService(t + serviceTime, head.taskId, serviceTime));
        entered := ActiveServe;
      } else {
        entered := ActiveIdle;
      }
    }

    /** TRANSITION_TO_SLEEP: SLEEP follows after the transition time. */
    method EnterTransitionToSleep(t: real)
      requires ListOk(events.list, events.endTime) && PendingOk()
      requires config.activeToSleepT >= 0.0 && t == events.simulationTime
      modifies events`list
      ensures ListOk(events.list, events.endTime) && PendingOk()
      ensures CountDrops(events.list) == CountDrops(old(events.list))
      ensures events.list == PerformAll(old(events.list), events.endTime,
        EntryActions(config, TransitionToSleep, old(queueSize), HeadId(old(queue.list)), sleepToActiveQth, t,
                     serviceAt(old(servicesDrawn))))
    {
      ScheduleEvent(StateTransition(t + config.activeToSleepT, Sleep));
    }

    /** TRANSITION_TO_ACTIVE, which counts a wake-up: with an empty queue under
        `multiple` the station stays asleep and probes again after the sleeping period;
        otherwise ACTIVE_SERVE follows after the transition time. */
    method EnterTransitionToActive(t: real) returns (entered: State)
      requires ListOk(events.list, events.endTime) && PendingOk()
      requires config.sleepingT > 0.0 && config.sleepToActiveT >= 0.0 && t == events.simulationTime
      modifies events`list, this`numTransitions
      ensures ListOk(events.list, events.endTime) && PendingOk()
      ensures CountDrops(events.list) == CountDrops(old(events.list))
      ensures entered == EnteredState(config.scheme, TransitionToActive, old(queueSize))
      ensures numTransitions == old(numTransitions) + 1
      ensures events.list == PerformAll(old(events.list), events.endTime,
        EntryActions(config, TransitionToActive, old(queueSize), HeadId(old(queue.list)), sleepToActiveQth, t,
                     serviceAt(old(servicesDrawn))))
    {
      var probe := queueSize == 0 && config.scheme == Multiple;
      var x := if probe then StateTransition(t + config.sleepingT, TransitionToActive)
               else StateTransition(t + config.sleepToActiveT, ActiveServe);
      entered := if probe then Sleep else TransitionToActive;
      assert EntryActions(config, TransitionToActive, queueSize, HeadId(queue.list), sleepToActiveQth, t,
                          serviceAt(servicesDrawn)) == [Add(x)];
      ScheduleEvent(x);
      numTransitions := numTransitions + 1;
    }

    /** SLEEP: under coalescing, an immediate wake-up when at least `qth` tasks wait;
        under the other schemes, a wake-up after the sleeping period. */
    method EnterSleep(t: real)
      requires ListOk(events.list, events.endTime) && PendingOk()
      requires config.sleepingT > 0.0 && t == events.simulationTime
      modifies events`list
      ensures ListOk(events.list, events.endTime) && PendingOk()
      ensures CountDrops(events.list) == CountDrops(old(events.list))
      ensures events.list == PerformAll(old(events.list), events.endTime,
        EntryActions(config, Sleep, old(queueSize), HeadId(old(queue.list)), sleepToActiveQth, t,
                     serviceAt(old(servicesDrawn))))
    {
      if config.scheme == Coalescing {
        if queueSize >= sleepToActiveQth {
          ScheduleEvent(StateTransition(t, TransitionToActive));
        }
      } else {
        ScheduleEvent(StateTransition(t + config.sleepingT, TransitionToActive));
      }
    }

    /** The end of `handleStateTransitionEvent`: the state being left is charged the
        time since the last transition, which moves to `t`, and `entered` becomes current. */
    method Settle(entered: State, t: real)
      requires StatsOk() && lastStateTransitionTime <= t <= events.simulationTime
      modifies this`timeInStates, this`lastStateTransitionTime, this`state
      ensures StatsOk()
      ensures timeInStates == Charge(old(timeInStates), old(state), t - old(lastStateTransitionTime))
      ensures lastStateTransitionTime == t && state == entered
    {
      DwellAdd(timeInStates, state, t - lastStateTransitionTime);
      ChargeEffect(timeInStates, state, t - lastStateTransitionTime);
      timeInStates, lastStateTransitionTime, state :=
        Charge(timeInStates, state, t - lastStateTransitionTime), t, entered;
    }

    /** Taking the earliest event off the list and moving the clock to its time keeps
        the station consistent, counts a popped drop out of the pending ones, and
        gives the arrival handler what it relies on. */
    twostate lemma Popped(e: Event)
      requires old(Valid()) && old(events.list) != [] && e == old(events.list)[0]
      requires events.list == old(events.list)[1..] && events.simulationTime == e.time
      requires unchanged(this, queue, ids)
      ensures Valid() && e.time <= config.simulationLength
      ensures old(events.simulationTime) <= e.time
      ensures CountDrops(old(events.list)) == CountDrops(events.list) + (if e.TaskDrop? then 1 else 0)
      ensures e.TaskArrival? ==> ArrivalDue(e)
    {
      HeadFacts(old(events.list), old(events.simulationTime), ids.next, arrivalAt(arrivalsDrawn - 1), events.endTime);
      PopPreserves(old(events.list));
    }

    /** The statistics stay consistent while none of the fields they read changes. */
    twostate lemma StatsKept()
      requires old(StatsOk())
      requires unchanged(this`sleepToActiveQth, this`timeInStates, this`lastStateTransitionTime, this`prevCycleEndTime)
      requires unchanged(this`delays, this`tasksServed, this`sumTasksDelay, this`maximumTaskDelay, events`simulationTime)
      ensures StatsOk()
    {
    }

    /** The closing step of `printStatistics`: the current state is charged up to the end
        of the simulation, so the dwell times add up to the simulation length. */
    method CloseDwellTimes()
      requires Valid()
      modifies this`timeInStates
      ensures timeInStates == Charge(old(timeInStates), state, config.simulationLength - lastStateTransitionTime)
      ensures forall s: State :: s in timeInStates
      ensures TotalDwell(timeInStates) == config.simulationLength
    {
      DwellAdd(timeInStates, state, config.simulationLength - lastStateTransitionTime);
      ChargeEffect(timeInStates, state, config.simulationLength - lastStateTransitionTime);
      timeInStates := Charge(timeInStates, state, config.simulationLength - lastStateTransitionTime);
    }
  }
}
