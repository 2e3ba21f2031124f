/**
 * The simulator's main loop: the event list, the task counter and the base
 * station are created, then the earliest pending event is taken off the list
 * and handled, over and over, until no event is left; the statistics then close
 * the dwell time of the current state at the end of the simulation.
 */
module Simulator {
  import opened Outcomes
  import opened Events
  import opened EventLists
  import opened Statistics
  import opened Configuration
  import opened Station

  /** Handled events never go back in time. */
  ghost predicate InTimeOrder(trace: seq<Event>)
  {
    forall i, j :: 0 <= i < j < |trace| ==> trace[i].time <= trace[j].time
  }

  /** An event not earlier than the last one handled keeps the trace in time order. */
  lemma TraceGrows(trace: seq<Event>, e: Event)
    requires InTimeOrder(trace)
    requires trace != [] ==> trace[|trace| - 1].time <= e.time
    ensures InTimeOrder(trace + [e])
  {
    forall i, j | 0 <= i < j < |trace| + 1
      ensures (trace + [e])[i].time <= (trace + [e])[j].time
    {
      if j == |trace| && i < |trace| - 1 {
        assert trace[i].time <= trace[|trace| - 1].time;
      }
    }
  }

  /** How many handled events there are of each kind, and how many of the
      transitions were wake-ups (TRANSITION_TO_ACTIVE). */
  datatype Counts = Counts(arrivals: nat, services: nat, drops: nat, transitions: nat, wakeUps: nat)

  predicate IsWakeUp(e: Event)
  {
    e.StateTransition? && e.newState == TransitionToActive
  }

  /** The events of `trace` counted by kind. Every event has exactly one kind. */
  function CountKinds(trace: seq<Event>): (c: Counts)
    ensures c.arrivals + c.services + c.drops + c.transitions == |trace|
    ensures c.wakeUps <= c.transitions
  {
    if trace == [] then Counts(0, 0, 0, 0, 0)
    else
      var c := CountKinds(trace[..|trace| - 1]);
      var e := trace[|trace| - 1];
      Counts(c.arrivals + (if e.TaskArrival? then 1 else 0),
             c.services + (if e.TaskService? then 1 else 0),
             c.drops + (if e.TaskDrop? then 1 else 0),
             c.transitions + (if e.StateTransition? then 1 else 0),
             c.wakeUps + (if IsWakeUp(e) then 1 else 0))
  }

  /** Handling one more event adds one to its own kind and leaves the other counts. */
  lemma {:induction false} CountKindsGrow(trace: seq<Event>, from: nat, e: Event)
    requires from <= |trace|
    ensures
      var before := CountKinds(trace[from..]);
      var after := CountKinds((trace + [e])[from..]);
      && after.arrivals == before.arrivals + (if e.TaskArrival? then 1 else 0)
      && after.services == before.services + (if e.TaskService? then 1 else 0)
      && after.drops == before.drops + (if e.TaskDrop? then 1 else 0)
      && after.wakeUps == before.wakeUps + (if IsWakeUp(e) then 1 else 0)
  {
    assert (trace + [e])[from..][..|trace| - from] == trace[from..];
  }

  class Simulation {
    const config: Config
    /** `event_handler`, shared with the station. */
    const events: EventList
    /** The global task counter. */
    const ids: TaskIds
    /** `bs`. */
    const station: BaseStation
    /** The events handled so far, in the order they were handled. */
    ghost var handled: seq<Event>

    /** The events handled so far came in time order, none past the end of the
        simulation, and the clock shows the time of the last one. */
    ghost predicate TraceOk()
      reads this`handled, events`simulationTime
    {
      && InTimeOrder(handled)
      && (forall i :: 0 <= i < |handled| ==> handled[i].time <= config.simulationLength)
      && (handled != [] ==> handled[|handled| - 1].time == events.simulationTime)
    }

    /** The station works on this simulator's list and counter, is consistent and
        accounts for every task. */
    ghost predicate Valid()
      reads this, events, ids, station, station.queue
    {
      && station.events == events && station.ids == ids && station.config == config
      && station.Valid() && station.Conserved()
      && TraceOk()
    }

    /** The set-up of the main program: the event list ending at the simulation
        length, a task counter at zero, and the base station, which schedules its
        first events. */
    constructor (config: Config, arrivalAt: nat -> real, serviceAt: nat -> real)
      requires TimingOk(config) && StreamsOk(arrivalAt, serviceAt)
      ensures Valid() && handled == []
      ensures fresh(events) && fresh(ids) && fresh(station) && fresh(station.queue)
      ensures station.arrivalAt == arrivalAt && station.serviceAt == serviceAt
      ensures events.simulationTime == 0.0 && ids.next == 1
      ensures events.list == PerformAll([], config.simulationLength,
        [Add(StateTransition(0.0, ActiveIdle)),
         Add(StateTransition(config.inactivityT, TransitionToSleep)),
         Add(TaskArrival(arrivalAt(0), 0, serviceAt(0)))])
    {
      var list := new EventList(config.simulationLength);
      var counter := new TaskIds();
      var bs := new BaseStation(config, list, counter, arrivalAt, serviceAt);
      this.config, events, ids, station, handled := config, list, counter, bs, [];
    }

    /** The state right after `e` was taken off the list and the clock moved to it:
        what the station's handler for `e` requires. */
    ghost predicate Ready(e: Event)
      reads this, events, ids, station, station.queue
    {
      && station.events == events && station.ids == ids && station.config == config
      && station.Valid()
      && e.time == events.simulationTime
      && station.tasksReceived == station.tasksServed + station.tasksDiscarded + station.queueSize
           + CountDrops(events.list) + (if e.TaskDrop? then 1 else 0)
      && (e.TaskArrival? ==> station.ArrivalDue(e))
    }

    /** `event_handler.getNextEvent(true)` and the clock update of `handleEvent`:
        the earliest pending event leaves the list and becomes the current time. */
    method Advance() returns (next: Option<Event>)
      requires Valid()
      modifies this`handled, events`list, events`simulationTime
      ensures old(events.list) == [] <==> next.None?
      ensures next.None? ==> Valid() && events.list == [] && handled == old(handled)
      ensures next.Some? ==>
        && next.value == old(events.list)[0] && events.list == old(events.list)[1..]
        && handled == old(handled) + [next.value]
        && Ready(next.value) && TraceOk()
    {
      next := events.GetNextEvent(true);
      if next.None? {
        return;
      }
      var e := next.value;
      events.HandleEvent(e);
      station.Popped(e);
      TraceGrows(handled, e);
      handled := handled + [e];
    }

    /** The station's state, grouped by the handler that changes it: arrivals draw
        from the streams and the task counter and count the task; services record
        delays and close threshold cycles; transitions move the state and charge the
        dwell times; arrivals and services change the queue. */
    ghost function ArrivalPart(): (nat, nat, nat)
      reads station, ids
    {
      (station.tasksReceived, station.arrivalsDrawn, ids.next)
    }

    ghost function ServicePart(): (nat, real, real, seq<real>, real, real, int)
      reads station
    {
      (station.tasksServed, station.maximumTaskDelay, station.sumTasksDelay, station.delays,
       station.weightedSumSleepToActiveQth, station.prevCycleEndTime, station.sleepToActiveQth)
    }

    ghost function TransitionPart(): (State, map<State, real>, real, nat)
      reads station
    {
      (station.state, station.timeInStates, station.lastStateTransitionTime, station.numTransitions)
    }

    ghost function QueuePart(): (nat, nat, seq<Event>)
      reads station, station.queue
    {
      (station.queueSize, station.tasksReceivedInCurrentCycle, station.queue.list)
    }

    /** `handleTaskArrivalEvent` on the station: the arrival is counted and has
        `ArrivalEffect`; the other parts are left alone. */
    method DispatchArrival(e: Event)
      requires Ready(e) && e.TaskArrival?
      modifies station`tasksReceived, station`queueSize, station`tasksReceivedInCurrentCycle,
        station`arrivalsDrawn, station`servicesDrawn, station.queue`list, events`list, ids`next
      ensures station.Valid() && station.Conserved()
      ensures station.tasksReceived == old(station.tasksReceived) + 1 && station.ArrivalEffect(e, old(events.list))
      ensures station.tasksDiscarded == old(station.tasksDiscarded)
      ensures ServicePart() == old(ServicePart()) && TransitionPart() == old(TransitionPart())
    {
      station.HandleTaskArrivalEvent(e);
    }

    /** `handleTaskDropEvent` on the station: only the discarded count changes. */
    method DispatchDrop(e: Event)
      requires Ready(e) && e.TaskDrop?
      modifies station`tasksDiscarded
      ensures station.Valid() && station.Conserved()
      ensures station.tasksDiscarded == old(station.tasksDiscarded) + 1
      ensures ArrivalPart() == old(ArrivalPart()) && ServicePart() == old(ServicePart())
      ensures TransitionPart() == old(TransitionPart()) && QueuePart() == old(QueuePart())
      ensures station.servicesDrawn == old(station.servicesDrawn) && events.list == old(events.list)
    {
      station.HandleTaskDropEvent(e);
    }

    /** `handleTaskServiceEvent` on the station: fails exactly on an empty queue or a
        different head and then changes nothing; otherwise it has `ServiceEffect`.
        The other parts are left alone. */
    method DispatchService(e: Event) returns (r: Outcome<()>)
      requires Ready(e) && e.TaskService?
      modifies station`queueSize, station`tasksServed, station`maximumTaskDelay, station`sumTasksDelay,
        station`delays, station`weightedSumSleepToActiveQth, station`prevCycleEndTime, station`sleepToActiveQth,
        station`tasksReceivedInCurrentCycle, station.queue`list, events`list
      ensures r.Ok? ==> station.Valid() && station.Conserved()
      ensures r.Abort? <==> old(station.queueSize) == 0 || old(station.queue.list)[0].taskId != e.taskId
      ensures r.Abort? ==> unchanged(station, station.queue, events)
      ensures r.Ok? ==> station.ServiceEffect(e.time, e.taskStime, old(events.list))
      ensures ArrivalPart() == old(ArrivalPart()) && TransitionPart() == old(TransitionPart())
      ensures station.tasksDiscarded == old(station.tasksDiscarded)
      ensures station.servicesDrawn == old(station.servicesDrawn)
    {
      r := station.HandleTaskServiceEvent(e);
    }

    /** `handleStateTransitionEvent` on the station: fails exactly when ACTIVE_SERVE is
        entered with an empty queue outside `single` and then changes nothing;
        otherwise it has `TransitionEffect`. The other parts are left alone. */
    method DispatchTransition(e: Event) returns (r: Outcome<()>)
      requires Ready(e) && e.StateTransition?
      modifies station`state, station`timeInStates, station`lastStateTransitionTime, station`numTransitions,
        station`servicesDrawn, events`list
      ensures r.Ok? ==> station.Valid() && station.Conserved()
      ensures r.Abort? <==> e.newState == ActiveServe && old(station.queueSize) == 0 && config.scheme != Single
      ensures r.Abort? ==> unchanged(station, station.queue, events)
      ensures r.Ok? ==> station.TransitionEffect(e.newState, e.time, old(events.list))
      ensures ArrivalPart() == old(ArrivalPart()) && ServicePart() == old(ServicePart())
      ensures QueuePart() == old(QueuePart()) && station.tasksDiscarded == old(station.tasksDiscarded)
    {
      r := station.HandleStateTransitionEvent(e);
    }

    /** A turn whose earliest event is an arrival: it is taken off the list and
        handled; the task is counted and `ArrivalEffect` holds over the list
        without it. */
    method TurnArrival()
      requires Valid() && events.list != [] && events.list[0].TaskArrival?
      modifies this`handled, events`simulationTime, events`list
      modifies station`tasksReceived, station`queueSize, station`tasksReceivedInCurrentCycle,
        station`arrivalsDrawn, station`servicesDrawn, station.queue`list, ids`next
      ensures Valid()
      ensures
        var e := old(events.list)[0];
        && handled == old(handled) + [e] && events.simulationTime == e.time
        && station.tasksReceived == old(station.tasksReceived) + 1
        && station.ArrivalEffect(e, old(events.list)[1..])
        && station.tasksDiscarded == old(station.tasksDiscarded)
        && ServicePart() == old(ServicePart()) && TransitionPart() == old(TransitionPart())
    {
      var next := Advance();
      DispatchArrival(next.value);
    }

    /** A turn whose earliest event is a drop: it is taken off the list and only the
        discarded count changes. */
    method TurnDrop()
      requires Valid() && events.list != [] && events.list[0].TaskDrop?
      modifies this`handled, events`simulationTime, events`list, station`tasksDiscarded
      ensures Valid()
      ensures
        var e := old(events.list)[0];
        && handled == old(handled) + [e] && events.simulationTime == e.time
        && station.tasksDiscarded == old(station.tasksDiscarded) + 1
        && ArrivalPart() == old(ArrivalPart()) && ServicePart() == old(ServicePart())
        && TransitionPart() == old(TransitionPart()) && QueuePart() == old(QueuePart())
        && station.servicesDrawn == old(station.servicesDrawn) && events.list == old(events.list)[1..]
    {
      var next := Advance();
      DispatchDrop(next.value);
    }

    /** A turn whose earliest event is a service completion: it is taken off the
        list and handled; it fails, changing nothing else, exactly on an empty queue
        or a different head, and otherwise `ServiceEffect` holds over the list
        without it. */
    method TurnService() returns (r: Outcome<()>)
      requires Valid() && events.list != [] && events.list[0].TaskService?
      modifies this`handled, events`simulationTime, events`list
      modifies station`queueSize, station`tasksServed, station`maximumTaskDelay, station`sumTasksDelay,
        station`delays, station`weightedSumSleepToActiveQth, station`prevCycleEndTime, station`sleepToActiveQth,
        station`tasksReceivedInCurrentCycle, station.queue`list
      ensures r.Ok? ==> Valid()
      ensures
        var e := old(events.list)[0];
        && handled == old(handled) + [e] && events.simulationTime == e.time && TraceOk()
        && (r.Abort? <==> old(station.queueSize) == 0 || old(station.queue.list)[0].taskId != e.taskId)
        && (r.Abort? ==> unchanged(station, station.queue) && events.list == old(events.list)[1..])
        && (r.Ok? ==> station.ServiceEffect(e.time, e.taskStime, old(events.list)[1..]))
        && ArrivalPart() == old(ArrivalPart()) && TransitionPart() == old(TransitionPart())
        && station.tasksDiscarded == old(station.tasksDiscarded)
        && station.servicesDrawn == old(station.servicesDrawn)
    {
      var next := Advance();
      r := DispatchService(next.value);
    }

    /** A turn whose earliest event is a state transition: it is taken off the list
        and handled; it fails, changing nothing else, exactly when ACTIVE_SERVE is
        entered with an empty queue outside `single`, and otherwise
        `TransitionEffect` holds over the list without it. */
    method TurnTransition() returns (r: Outcome<()>)
      requires Valid() && events.list != [] && events.list[0].StateTransition?
      modifies this`handled, events`simulationTime, events`list
      modifies station`state, station`timeInStates, station`lastStateTransitionTime, station`numTransitions,
        station`servicesDrawn
      ensures r.Ok? ==> Valid()
      ensures
        var e := old(events.list)[0];
        && handled == old(handled) + [e] && events.simulationTime == e.time && TraceOk()
        && (r.Abort? <==> e.newState == ActiveServe && old(station.queueSize) == 0 && config.scheme != Single)
        && (r.Abort? ==> unchanged(station, station.queue) && events.list == old(events.list)[1..])
        && (r.Ok? ==> station.TransitionEffect(e.newState, e.time, old(events.list)[1..]))
        && ArrivalPart() == old(ArrivalPart()) && ServicePart() == old(ServicePart())
        && QueuePart() == old(QueuePart()) && station.tasksDiscarded == old(station.tasksDiscarded)
    {
      var next := Advance();
      r := DispatchTransition(next.value);
    }

    /** One turn of the main loop: `Ok(false)` when the list was empty; otherwise the
        earliest event is taken off the list and handled by the handler of its kind
        (the reflective call of `handleEvent`), and the turn ends as that handler
        does. The handler's whole effect is stated over the list without the popped
        event: an arrival is counted and has `ArrivalEffect`, a drop is counted, a
        service completes the queue head with `ServiceEffect` and a transition enters
        its state with `TransitionEffect`; a service fails on an empty queue or a
        different head, a transition into ACTIVE_SERVE on an empty queue outside
        `single`, and a failed turn only pops the event. Each kind leaves the parts
        of the station owned by the other kinds alone. */
    method Step() returns (r: Outcome<bool>)
      requires Valid()
      modifies this`handled, events`simulationTime
      modifies station`tasksReceived, station`tasksDiscarded, station`tasksServed, station`queueSize,
        station`tasksReceivedInCurrentCycle, station`arrivalsDrawn, station`servicesDrawn,
        station`maximumTaskDelay, station`sumTasksDelay, station`delays, station`weightedSumSleepToActiveQth,
        station`prevCycleEndTime, station`sleepToActiveQth, station`state, station`timeInStates,
        station`lastStateTransitionTime, station`numTransitions, station.queue`list, events`list, ids`next
      ensures TraceOk()
      ensures r.Ok? ==> Valid()
      ensures r == Ok(false) <==> old(events.list) == []
      ensures old(events.list) == [] ==>
        handled == old(handled) && events.list == [] && unchanged(station, station.queue, ids)
      ensures old(events.list) != [] ==>
        handled == old(handled) + [old(events.list)[0]] && events.simulationTime == old(events.list)[0].time
      ensures old(events.list) != [] ==>
        var e := old(events.list)[0];
        && (r.Abort? <==>
              || (e.TaskService? && (old(station.queueSize) == 0 || old(station.queue.list)[0].taskId != e.taskId))
              || (e.StateTransition? && e.newState == ActiveServe && old(station.queueSize) == 0
                  && config.scheme != Single))
        && (r.Abort? ==> unchanged(station, station.queue) && events.list == old(events.list)[1..])
        // the handler's full effect, starting from the list without its head
        && (e.TaskArrival? ==> station.ArrivalEffect(e, old(events.list)[1..]))
        && (e.TaskService? && r.Ok? ==> station.ServiceEffect(e.time, e.taskStime, old(events.list)[1..]))
        && (e.StateTransition? && r.Ok? ==>
              station.TransitionEffect(e.newState, e.time, old(events.list)[1..]))
        && station.tasksReceived == old(station.tasksReceived) + (if e.TaskArrival? then 1 else 0)
        && station.tasksDiscarded == old(station.tasksDiscarded) + (if e.TaskDrop? then 1 else 0)
        && station.tasksServed == old(station.tasksServed) + (if e.TaskService? && r.Ok? then 1 else 0)
        && station.numTransitions == old(station.numTransitions) + (if IsWakeUp(e) then 1 else 0)
        && station.state ==
             (if e.StateTransition? && r.Ok? then EnteredState(config.scheme, e.newState, old(station.queueSize))
              else old(station.state))
        && station.queue.list ==
             (if e.TaskArrival? && Admits(station.maxQueueSize, old(station.queueSize))
              then old(station.queue.list) + [e]
              else if e.TaskService? && r.Ok? then old(station.queue.list)[1..]
              else old(station.queue.list))
        // each handler leaves the other parts alone
        && (!e.TaskArrival? ==> ArrivalPart() == old(ArrivalPart()))
        && (!e.TaskService? ==> ServicePart() == old(ServicePart()))
        && (!e.StateTransition? ==> TransitionPart() == old(TransitionPart()))
        && (e.TaskDrop? || e.StateTransition? ==> QueuePart() == old(QueuePart()))
        && (e.TaskDrop? || e.TaskService? ==> station.servicesDrawn == old(station.servicesDrawn))
        && (e.TaskDrop? ==> events.list == old(events.list)[1..])
    {
      if events.list == [] {
        return Ok(false);
      }
      match events.list[0]
      case TaskArrival(_, _, _) =>
        TurnArrival();
        r := Ok(true);
      case TaskDrop(_, _) =>
        TurnDrop();
        r := Ok(true);
      case TaskService(_, _, _) =>
        var outcome := TurnService();
        r := if outcome.Ok? then Ok(true) else Abort(outcome.failure);
      case StateTransition(_, _) =>
        var outcome := TurnTransition();
        r := if outcome.Ok? then Ok(true) else Abort(outcome.failure);
    }

    /** One turn as the run keeps count of it: the trace grows by the event handled,
        if any, and each counter by one when that event is of its kind. */
    method CountedStep() returns (r: Outcome<bool>)
      requires Valid()
      modifies this`handled, events`simulationTime
      modifies station`tasksReceived, station`tasksDiscarded, station`tasksServed, station`queueSize,
        station`tasksReceivedInCurrentCycle, station`arrivalsDrawn, station`servicesDrawn,
        station`maximumTaskDelay, station`sumTasksDelay, station`delays, station`weightedSumSleepToActiveQth,
        station`prevCycleEndTime, station`sleepToActiveQth, station`state, station`timeInStates,
        station`lastStateTransitionTime, station`numTransitions, station.queue`list, events`list, ids`next
      ensures TraceOk() && (r.Ok? ==> Valid())
      ensures r == Ok(false) <==> old(events.list) == []
      ensures old(events.list) == [] ==>
        handled == old(handled) && events.list == [] && unchanged(station, station.queue, ids)
      ensures old(events.list) != [] ==>
        var e := old(events.list)[0];
        && handled == old(handled) + [e]
        && station.tasksReceived == old(station.tasksReceived) + (if e.TaskArrival? then 1 else 0)
        && station.tasksDiscarded == old(station.tasksDiscarded) + (if e.TaskDrop? then 1 else 0)
        && station.tasksServed == old(station.tasksServed) + (if e.TaskService? && r.Ok? then 1 else 0)
        && station.numTransitions == old(station.numTransitions) + (if IsWakeUp(e) then 1 else 0)
    {
      r := Step();
    }

    /** The main loop, `while ((event = event_handler.getNextEvent(true)) != null)`,
        followed by the dwell-time closing of `printStatistics`. `fuel` bounds the
        number of turns: `Ok(false)` means it ran out with events still pending.
        Every handled arrival, drop and wake-up is counted, and every handled
        service completes a task unless the run fails. When the list runs empty,
        every task received has been served, discarded or is still queued, and the
        dwell times add up to the simulation length. */
    method Run(fuel: nat) returns (r: Outcome<bool>)
      requires Valid()
      modifies this`handled, events`simulationTime
      modifies station`tasksReceived, station`tasksDiscarded, station`tasksServed, station`queueSize,
        station`tasksReceivedInCurrentCycle, station`arrivalsDrawn, station`servicesDrawn,
        station`maximumTaskDelay, station`sumTasksDelay, station`delays, station`weightedSumSleepToActiveQth,
        station`prevCycleEndTime, station`sleepToActiveQth, station`state, station`timeInStates,
        station`lastStateTransitionTime, station`numTransitions, station.queue`list, events`list, ids`next
      ensures TraceOk() && old(handled) <= handled
      ensures
        var counts := CountKinds(handled[|old(handled)|..]);
        && station.tasksReceived == old(station.tasksReceived) + counts.arrivals
        && station.tasksDiscarded == old(station.tasksDiscarded) + counts.drops
        && station.numTransitions == old(station.numTransitions) + counts.wakeUps
        && (r.Ok? ==> station.tasksServed == old(station.tasksServed) + counts.services)
      ensures r == Ok(false) ==> Valid()
      ensures r == Ok(true) ==>
        && events.list == []
        && station.tasksReceived == station.tasksServed + station.tasksDiscarded + station.queueSize
        && (forall s: State :: s in station.timeInStates)
        && TotalDwell(station.timeInStates) == config.simulationLength
    {
      var remaining := fuel;
      assert handled[|handled|..] == [];
      while remaining > 0
        invariant Valid() && old(handled) <= handled
        invariant
          var counts := CountKinds(handled[|old(handled)|..]);
          && station.tasksReceived == old(station.tasksReceived) + counts.arrivals
          && station.tasksDiscarded == old(station.tasksDiscarded) + counts.drops
          && station.numTransitions == old(station.numTransitions) + counts.wakeUps
          && station.tasksServed == old(station.tasksServed) + counts.services
        decreases remaining
      {
        ghost var before := handled;
        var more := CountedStep();
        // a turn on an empty list handles nothing and leaves every counter alone
        if handled != before {
          CountKindsGrow(before, |old(handled)|, handled[|handled| - 1]);
          assert handled == before + [handled[|handled| - 1]];
        }
        if more.Abort? {
          return Abort(more.failure);
        }
        if !more.value {
          station.CloseDwellTimes();
          return Ok(true);
        }
        remaining := remaining - 1;
      }
      return Ok(false);
    }
  }
}
