# Energy-aware base station simulator: the discrete-event core

This project models the core of the energy-aware base station simulator, a
discrete-event simulator of one base station with five power states (ACTIVE_IDLE,
ACTIVE_SERVE, TRANSITION_TO_SLEEP, SLEEP, TRANSITION_TO_ACTIVE). It covers three
schemes for putting the station to sleep and waking it up: `single`, `multiple` and
`coalescing` with a fixed or a dynamic quantity threshold. The model is written in
Dafny and follows the Java classes one module at a time:

- `outcomes.dfy`, module `Outcomes`: the `Option` and `Outcome` wrappers.
  - `printError`, which prints a message and ends the run with status 1, becomes
    an `Abort` carrying the reason.
- `events.dfy`, module `Events`: the power states and the four event kinds as one
  datatype.
  - The time-only ordering `compareTo` and the per-kind `equals` with which the
    event list suppresses duplicates.
  - The global task counter that numbers arrivals, as a small class `TaskIds`.
- `event_list.dfy`, module `EventLists`: the time-sorted list of pending events.
  - Pure functions say what `addEvent` (`Insert`, `Scheduled`) and
    `removeStateTransitionEvent` (`Cancel`) do to the list.
  - Lemmas prove that these keep the list sorted, free of duplicates and within
    the end of time, that insertion is stable, and what each does to the
    elements.
  - The class `EventList` performs the operations in place, with the same loops,
    and is proved against those functions.
  - `getSimulationTime` is the function `EventList.GetSimulationTime`.
  - `getNextEvent(false)` is the function `EventList.Peek` inside expressions, and
    the method `EventList.GetNextEvent(false)` elsewhere.
- `statistics.dfy`, module `Statistics`: the dwell time per state, the task-delay
  statistics and the recomputation of the dynamic quantity threshold.
- `configuration.dfy`, module `Configuration`: the run parameters, their defaults,
  and the validation of each configuration line.
- `base_station.dfy`, module `Station`: the class `BaseStation`.
  - The constructor and the four event handlers update the station in place and
    schedule or cancel follow-up events on the shared event list.
  - Each handler is proved against an "actions" function (`ArrivalActions`,
    `ServiceActions`, `EntryActions`): the list of `addEvent` and
    `removeStateTransitionEvent` requests it makes, in order.
  - `Valid` is preserved by every handler. It requires:
    - the event list and the task queue to be well formed;
    - every pending event not to lie in the past;
    - the pending arrival to be the latest task created;
    - the queued task ids to ascend;
    - the dwell times to add up to the time of the last transition;
    - the delay statistics to agree with the delays measured.
  - Conservation of tasks: every task received has been served, discarded, is
    still queued, or has its drop pending.
- `simulator.dfy`, module `Simulator`: the main program.
  - It sets up the event list, the task counter and the station.
  - It runs the loop that takes the earliest event off the list, moves the clock
    to it and dispatches it by kind.
  - It then closes the dwell times.
  - It proves that events are handled in time order and never past the end of
    the simulation.
  - It proves that, once the list runs empty, `received == served + discarded +
    still queued` and the dwell times of the five states add up to the simulation
    length.

Time is a Dafny `real`, not an IEEE double. The task generator and the service-time
generator are two input streams:
- `arrivalAt(i)` is the instant of the i-th arrival; the instants never decrease,
  starting from a non-negative one.
- `serviceAt(i)` is the i-th service time, always positive.

The station counts how many values it has drawn from each stream.

## Model

| member | source | states |
|---|---|---|
| Events.CompareTo | es/uvigo/det/labredes/bs/Event.java:36-43 | the result is 1 exactly when `a` is strictly earlier than `b`, -1 exactly when it is strictly later, and 0 exactly when both have the same time |
| Events.CompareToAntisymmetric | es/uvigo/det/labredes/bs/Event.java:36-43 | `CompareTo(a, b) == -CompareTo(b, a)` for all events |
| Events.ArrivalEquality | es/uvigo/det/labredes/bs/TaskArrivalEvent.java:43-55 | two arrivals are equal exactly when time and task id agree; the service time plays no part |
| Events.ServiceEquality | es/uvigo/det/labredes/bs/TaskServiceEvent.java:39-51 | two service completions are equal exactly when time and task id agree; the service time plays no part |
| Events.DropEquality | es/uvigo/det/labredes/bs/TaskDropEvent.java:33-45 | two drops are equal exactly when time and task id agree |
| Events.TransitionEquality | es/uvigo/det/labredes/bs/StateTransitionEvent.java:33-45 | two transitions are equal exactly when time and target state agree, so transitions at one instant to different states are distinct |
| Events.EqualsSameKind | es/uvigo/det/labredes/bs/TaskArrivalEvent.java:47-49 | equal events are of the same kind and have the same time: an event never equals one of another kind, even with the same time and id |
| Events.EqualsReflexiveSymmetric | es/uvigo/det/labredes/bs/TaskArrivalEvent.java:44-46 | every event equals itself, and equality is symmetric |
| Events.TaskIds.constructor | es/uvigo/det/labredes/bs/TaskArrivalEvent.java:13 | the task counter starts at 0 |
| Events.TaskIds.NewTaskArrival | es/uvigo/det/labredes/bs/TaskArrivalEvent.java:30-35 | the new arrival keeps the given time and service time and takes the current counter as its id; the counter grows by exactly one, so successive ids strictly increase |
| EventLists.ScanFrom | es/uvigo/det/labredes/bs/EventList.java:52-56 | the scan of `addEvent` stops at the first pending event strictly later than the new one (or at the end), having passed only events not later than it |
| EventLists.InsertAt | es/uvigo/det/labredes/bs/EventList.java:57-61 | insertion puts the event at any index preceded only by events not later than it and followed by a later one |
| EventLists.InsertSplit | es/uvigo/det/labredes/bs/EventList.java:52-61 | the list after insertion is the prefix up to the scanned index, the new event, then the rest |
| EventLists.InsertSorted | es/uvigo/det/labredes/bs/EventList.java:52-61 | a list sorted by time before the insertion is still sorted after it |
| EventLists.InsertStable | es/uvigo/det/labredes/bs/EventList.java:54-56 | the new event lands after every pending event not later than it and before every strictly later one |
| EventLists.InsertKeepsOrder | es/uvigo/det/labredes/bs/EventList.java:57-61 | deleting the new event from the result gives back the old list, so all other events keep their relative order |
| EventLists.InsertMultiset | es/uvigo/det/labredes/bs/EventList.java:57-61 | the result holds the old events plus exactly one copy of the new one (length grows by one) |
| EventLists.InsertMembers | es/uvigo/det/labredes/bs/EventList.java:57-61 | an event is in the result exactly when it was pending or is the new one |
| EventLists.InsertDistinct | es/uvigo/det/labredes/bs/EventList.java:48-61 | inserting an event equal to no pending one keeps the list free of equal pairs |
| EventLists.InsertListOk | es/uvigo/det/labredes/bs/EventList.java:48-61 | inserting an event that is not past the end of time and equals no pending event keeps the list well formed |
| EventLists.InsertAppends | es/uvigo/det/labredes/bs/EventList.java:57-58 | when no pending event is later, the new event is appended at the tail, which makes the task queue first-in first-out |
| EventLists.InsertCountDrops | es/uvigo/det/labredes/bs/EventList.java:57-61 | insertion adds one pending drop exactly when the inserted event is a drop |
| EventLists.FirstTransitionFrom | es/uvigo/det/labredes/bs/EventList.java:125-133 | the scan of `removeStateTransitionEvent` stops at the first transition towards the target, having passed no such transition |
| EventLists.CancelSplit | es/uvigo/det/labredes/bs/EventList.java:123-135 | cancellation removes the element at the scanned index, or leaves the list when there is none |
| EventLists.CancelFirstOnly | es/uvigo/det/labredes/bs/EventList.java:123-135 | with no transition towards the target the list is unchanged; otherwise exactly the first one is removed and nothing else |
| EventLists.CancelPreserves | es/uvigo/det/labredes/bs/EventList.java:129 | cancellation keeps the list sorted and free of equal pairs |
| EventLists.CancelMembers | es/uvigo/det/labredes/bs/EventList.java:129 | cancellation only removes events |
| EventLists.CancelListOk | es/uvigo/det/labredes/bs/EventList.java:123-135 | cancellation keeps a well-formed list well formed |
| EventLists.CancelCountDrops | es/uvigo/det/labredes/bs/EventList.java:127-129 | cancellation never removes a pending drop |
| EventLists.RemoveAtMultiset | es/uvigo/det/labredes/bs/EventList.java:129 | removing the element at an index removes one copy of it and nothing else |
| EventLists.PopPreserves | es/uvigo/det/labredes/bs/EventList.java:82 | removing the head keeps the list sorted, free of equal pairs and well formed, and removes a pending drop exactly when the head is one |
| EventLists.HeadIsEarliest | es/uvigo/det/labredes/bs/EventList.java:79-87 | the head of a sorted list is not later than any pending event |
| EventLists.OrderedIff | es/uvigo/det/labredes/bs/EventList.java:44-62 | the element-wise list invariant is exactly "sorted by time and free of equal pairs" |
| EventLists.PerformAllConcat | es/uvigo/det/labredes/bs/EventList.java:44-62 | performing two runs of list requests one after the other is performing their concatenation |
| EventLists.EventList.constructor | es/uvigo/det/labredes/bs/EventList.java:32-36 | a new list is empty, well formed, at time 0 and ends at the given time |
| EventLists.EventList.AddEvent | es/uvigo/det/labredes/bs/EventList.java:44-62 | aborts exactly when the event is earlier than the simulation time; otherwise returns true exactly when the event is not past the end of time and equals no pending event, in which case it is inserted as `Insert` says, and otherwise leaves the list unchanged; the list stays well formed |
| EventLists.EventList.GetNextEvent | es/uvigo/det/labredes/bs/EventList.java:79-87 | none on an empty list; otherwise the head, which is taken off the list exactly when `remove` is set; the list stays well formed |
| EventLists.EventList.HandleEvent | es/uvigo/det/labredes/bs/EventList.java:95 | the simulation time becomes the time of the handled event |
| EventLists.EventList.RemoveStateTransitionEvent | es/uvigo/det/labredes/bs/EventList.java:123-135 | returns true exactly when a transition towards the target is pending; the list becomes `Cancel` of the old one and stays well formed |
| Statistics.Ceil | es/uvigo/det/labredes/bs/BaseStation.java:164 | `Math.ceil`: the least integer not below `x` |
| Statistics.DynamicThreshold | es/uvigo/det/labredes/bs/BaseStation.java:160-167 | the new threshold lies between 1 and `Integer.MAX_VALUE`; over a cycle of positive length it is the expected number of tasks rounded up and raised to 1, and `Integer.MAX_VALUE` once that number exceeds it (the `int` cast saturates); a zero-length cycle gives `Integer.MAX_VALUE` when tasks arrived and the factor `2 * targetDelay - sleepToActiveT` is positive, and 1 otherwise |
| Statistics.CloseCycle | es/uvigo/det/labredes/bs/BaseStation.java:159-167 | closing a cycle at `t` starts a new one at `t` with no arrivals and a threshold of at least 1, and never lowers the weighted sum |
| Statistics.ChargeEffect | es/uvigo/det/labredes/bs/BaseStation.java:213 | charging a state keeps every state in the map, adds the time to that state and leaves the others as they were |
| Statistics.DwellAdd | es/uvigo/det/labredes/bs/BaseStation.java:213-215 | charging `d` to one state adds `d` to the total dwell time |
| Statistics.NoDwellCovers | es/uvigo/det/labredes/bs/BaseStation.java:60-64 | the initial map has every state at 0, so its total is 0 |
| Statistics.RecordKeeps | es/uvigo/det/labredes/bs/BaseStation.java:144-150 | recording one more delay keeps the statistics consistent: one delay per served task, their sum, and a maximum not below any of them |
| Statistics.AtMostIff | es/uvigo/det/labredes/bs/BaseStation.java:147-149 | the recursive bound on the delays holds exactly when every delay is at most the maximum |
| Configuration.DefaultsWellFormed | es/uvigo/det/labredes/bs/EnergyAwareBaseStationSimulator.java:17-43 | the default parameters already meet every rule the line checks enforce |
| Configuration.TasksLine | es/uvigo/det/labredes/bs/EnergyAwareBaseStationSimulator.java:116-154 | an accepted TASKS line names a known distribution in field 1 and stores the field-2 rate, which is positive; alpha (field 3, above 1) changes only for `pareto`, the rate and time steps (fields 3 and 4, a positive time step) only for `dynpoisson`; nothing outside the task parameters changes; and a line whose fields meet every rule is accepted |
| Configuration.ServiceLine | es/uvigo/det/labredes/bs/EnergyAwareBaseStationSimulator.java:155-178 | an accepted SERVICE line names a known distribution in field 1 and stores the positive field-2 service time; the range (field 3, positive, half of it below the service time) changes only for `uniform`; only the service parameters change; and a line whose fields meet every rule is accepted |
| Configuration.PowerLine | es/uvigo/det/labredes/bs/EnergyAwareBaseStationSimulator.java:179-191 | an accepted POWER line stores fields 1-4 as active, idle, sleep and transition consumption, with 0 <= sleep <= idle <= active and a non-negative transition consumption; only the consumptions change; and four such fields are accepted |
| Configuration.TransitionsLine | es/uvigo/det/labredes/bs/EnergyAwareBaseStationSimulator.java:192-201 | an accepted TRANSITIONS line stores fields 1 and 2 as the two non-negative transition durations and changes nothing else; and two such fields are accepted |
| Configuration.SchemeLine | es/uvigo/det/labredes/bs/EnergyAwareBaseStationSimulator.java:202-234 | an accepted SCHEME line names its scheme in field 1. For `coalescing` it stores inactivity (field 2) and tth (field 4). A qth of 0 in field 3 switches on the dynamic threshold, sets qth to 1 and stores the field-5 target delay; any other qth is stored as given, and the flag and target delay are kept. For `single`/`multiple` it stores inactivity and the sleeping period (fields 2 and 3) and keeps the coalescing parameters. Nothing may be negative and qth ends up >= 1; the dynamic flag is never switched off; and lines whose fields meet these rules are accepted (with a positive qth, only if the earlier target delay is non-negative) |
| Configuration.TaskDistributionNamed | es/uvigo/det/labredes/bs/EnergyAwareBaseStationSimulator.java:117-121 | exactly the four task-distribution words are recognised, each naming its distribution |
| Configuration.ParetoParams | es/uvigo/det/labredes/bs/EnergyAwareBaseStationSimulator.java:130-139 | alpha is the field-3 value and above 1, nothing else changes; a field above 1 is accepted |
| Configuration.DynPoissonParams | es/uvigo/det/labredes/bs/EnergyAwareBaseStationSimulator.java:140-154 | rate step and time step are fields 3 and 4, the time step positive and the rate step unchecked, nothing else changes; such fields are accepted |
| Configuration.ServiceDistributionNamed | es/uvigo/det/labredes/bs/EnergyAwareBaseStationSimulator.java:156-160 | exactly the three service-distribution words are recognised, each naming its distribution |
| Configuration.SchemeNamed | es/uvigo/det/labredes/bs/EnergyAwareBaseStationSimulator.java:203-207 | exactly the three scheme words are recognised, each naming its scheme |
| Configuration.CoalescingParams | es/uvigo/det/labredes/bs/EnergyAwareBaseStationSimulator.java:208-223 | inactivity and tth from fields 2 and 4; qth 0 gives the dynamic threshold with qth 1 and the field-5 target delay, any other qth is stored and leaves the flag and target delay; none negative and qth >= 1; such fields are accepted |
| Configuration.SleepingParams | es/uvigo/det/labredes/bs/EnergyAwareBaseStationSimulator.java:224-233 | inactivity and sleeping period from fields 2 and 3, non-negative and positive, nothing else changes; such fields are accepted |
| Configuration.ApplyLine | es/uvigo/det/labredes/bs/EnergyAwareBaseStationSimulator.java:110-116 | a comment line changes nothing; an accepted line keeps a well-formed configuration well formed |
| Configuration.ParseLines | es/uvigo/det/labredes/bs/EnergyAwareBaseStationSimulator.java:110-237 | the configuration after all lines, the first rejected line ending the run, is well formed when the defaults are |
| Configuration.ParseConfig | es/uvigo/det/labredes/bs/EnergyAwareBaseStationSimulator.java:110-237 | the loop over the lines computes `ParseLines` and so yields a well-formed configuration from well-formed defaults |
| Station.AscendingAppend | es/uvigo/det/labredes/bs/BaseStation.java:92 | queueing an arrival whose id exceeds every queued one keeps the queued ids ascending |
| Station.BaseStation.constructor | es/uvigo/det/labredes/bs/BaseStation.java:54-78 | an empty unbounded queue, ACTIVE_IDLE at time 0, every dwell time and counter at 0, the threshold from the configuration; the event list receives ACTIVE_IDLE at 0, TRANSITION_TO_SLEEP at the inactivity timeout and the first arrival; the station is valid and conserves tasks |
| Station.BaseStation.Start | es/uvigo/det/labredes/bs/BaseStation.java:67-77 | the three initial events are scheduled in the constructor's order, with the first values of both generators and the next task id |
| Station.BaseStation.ScheduleStart | es/uvigo/det/labredes/bs/BaseStation.java:67-77 | the empty list receives ACTIVE_IDLE, TRANSITION_TO_SLEEP and the first arrival, in that order, and no drop |
| Station.BaseStation.NewArrival | es/uvigo/det/labredes/bs/BaseStation.java:100 | the next arrival takes the next value of each generator and the next task id |
| Station.BaseStation.NextServiceTime | es/uvigo/det/labredes/bs/BaseStation.java:186 | the next value of the service-time generator |
| Station.BaseStation.ScheduleEvent | es/uvigo/det/labredes/bs/BaseStation.java:106 | an event the station schedules is never in the past, so `addEvent` does not abort; the list changes as `addEvent` says and keeps its drops |
| Station.BaseStation.ScheduleDrop | es/uvigo/det/labredes/bs/BaseStation.java:97 | the drop of a task that is not queued is always added, one more pending drop |
| Station.BaseStation.CancelTransitionTo | es/uvigo/det/labredes/bs/BaseStation.java:104 | the list changes as `removeStateTransitionEvent` says and keeps its drops |
| Station.BaseStation.EnqueueTask | es/uvigo/det/labredes/bs/BaseStation.java:92 | queueing an arrival no earlier than any queued task appends it at the tail |
| Station.BaseStation.HandleTaskArrivalEvent | es/uvigo/det/labredes/bs/BaseStation.java:85-120 | counts the task; queues it (and counts it in the cycle under the dynamic scheme) exactly when the capacity admits it, otherwise schedules its drop; draws the next arrival from both generators; the event list receives exactly `ArrivalActions`; validity and conservation are kept |
| Station.BaseStation.Receive | es/uvigo/det/labredes/bs/BaseStation.java:87-119 | everything the arrival handler does after counting the task, with one more task queued or pending a drop |
| Station.BaseStation.Announce | es/uvigo/det/labredes/bs/BaseStation.java:87-119 | queue or drop the task, then schedule the next arrival and the wake-up, as `ArrivalActions` says |
| Station.BaseStation.DrawNextArrival | es/uvigo/det/labredes/bs/BaseStation.java:100 | the next arrival is created from both generators and the counter; neither the task nor its drop is already queued or pending |
| Station.BaseStation.Admit | es/uvigo/det/labredes/bs/BaseStation.java:87-98 | the task is queued at the tail exactly when `max_queue_size == 0` or `queue_size + 1 <= max_queue_size`, otherwise exactly one drop with its time and id is scheduled |
| Station.BaseStation.ScheduleArrivalAndWake | es/uvigo/det/labredes/bs/BaseStation.java:100-119 | the next arrival, then the wake-up requests, in source order |
| Station.BaseStation.WakeOnArrival | es/uvigo/det/labredes/bs/BaseStation.java:101-119 | the three wake-up rules in source order, on the queue size after admission |
| Station.BaseStation.WakeFromIdle | es/uvigo/det/labredes/bs/BaseStation.java:101-107 | the first task in ACTIVE_IDLE cancels TRANSITION_TO_SLEEP (only with an inactivity timeout) and schedules ACTIVE_SERVE now |
| Station.BaseStation.WakeTimer | es/uvigo/det/labredes/bs/BaseStation.java:108-111 | the first task in TRANSITION_TO_SLEEP or SLEEP under coalescing with tth > 0 schedules TRANSITION_TO_ACTIVE at `t + tth` |
| Station.BaseStation.WakeOnQuantity | es/uvigo/det/labredes/bs/BaseStation.java:114-119 | in SLEEP under coalescing with at least qth tasks, the tth timer is cancelled (when tth > 0) and TRANSITION_TO_ACTIVE is scheduled now |
| Station.BaseStation.HandleTaskDropEvent | es/uvigo/det/labredes/bs/BaseStation.java:127-132 | one more task discarded; the station stays valid, and the drop just taken off the list keeps tasks conserved |
| Station.BaseStation.HandleTaskServiceEvent | es/uvigo/det/labredes/bs/BaseStation.java:139-174 | aborts, changing nothing, exactly when the queue is empty or its head has another id; otherwise `ServiceEffect`: the head leaves the queue, one more task is served, its delay enters the sum and the maximum, the event list receives `ServiceActions`, and under the dynamic scheme a drained queue closes the cycle; validity and conservation are kept |
| Station.BaseStation.CompleteService | es/uvigo/det/labredes/bs/BaseStation.java:144-173 | serving the head at `t` has `ServiceEffect` and keeps the station consistent |
| Station.BaseStation.FinishTask | es/uvigo/det/labredes/bs/BaseStation.java:144-150 | exactly the head leaves the queue, one fewer queued, one more served, and its delay `t - arrival - stime` is recorded |
| Station.BaseStation.RecordService | es/uvigo/det/labredes/bs/BaseStation.java:145-150 | the delay is appended, added to the sum, and raises the maximum when larger; the delay statistics stay consistent |
| Station.BaseStation.AfterService | es/uvigo/det/labredes/bs/BaseStation.java:154-173 | the next service when tasks remain, otherwise the idle timers and (dynamic scheme) the closing of the cycle |
| Station.BaseStation.ServeNext | es/uvigo/det/labredes/bs/BaseStation.java:154-157 | the new head completes after its own service time drawn at arrival |
| Station.BaseStation.UpdateThreshold | es/uvigo/det/labredes/bs/BaseStation.java:159-167 | the cycle statistics become `CloseCycle` of the old ones: threshold >= 1, cycle counter 0, cycle start `t` |
| Station.BaseStation.ScheduleIdle | es/uvigo/det/labredes/bs/BaseStation.java:169-172 | ACTIVE_IDLE now (only with an inactivity timeout), then TRANSITION_TO_SLEEP at `t + inactivity_t` |
| Station.BaseStation.HandleStateTransitionEvent | es/uvigo/det/labredes/bs/BaseStation.java:181-219 | aborts, changing nothing, exactly when ACTIVE_SERVE is entered with an empty queue under a scheme other than `single`; otherwise `TransitionEffect`: the entry actions of the target, one more wake-up on TRANSITION_TO_ACTIVE, the time since the last transition charged to the state left, and the state actually entered becomes current; validity and conservation are kept |
| Station.BaseStation.Transit | es/uvigo/det/labredes/bs/BaseStation.java:183-215 | the entry actions, then the dwell update and the change of state |
| Station.BaseStation.EnterState | es/uvigo/det/labredes/bs/BaseStation.java:183-211 | the list receives `EntryActions` of the target, and the entered state is the target except for the two fallbacks |
| Station.BaseStation.EnterActiveServe | es/uvigo/det/labredes/bs/BaseStation.java:183-192 | with tasks, the head is served with a fresh service time; with none (under `single`) the station falls back to ACTIVE_IDLE |
| Station.BaseStation.EnterTransitionToSleep | es/uvigo/det/labredes/bs/BaseStation.java:193-194 | SLEEP follows after the active-to-sleep time |
| Station.BaseStation.EnterTransitionToActive | es/uvigo/det/labredes/bs/BaseStation.java:195-202 | one more wake-up; with an empty queue under `multiple` the station falls back to SLEEP with a probe at `t + sleeping_t`, otherwise ACTIVE_SERVE follows after the sleep-to-active time |
| Station.BaseStation.EnterSleep | es/uvigo/det/labredes/bs/BaseStation.java:203-211 | under coalescing, TRANSITION_TO_ACTIVE now exactly when at least qth tasks wait; otherwise TRANSITION_TO_ACTIVE at `t + sleeping_t` |
| Station.BaseStation.Settle | es/uvigo/det/labredes/bs/BaseStation.java:213-215 | the state left is charged `t - last_state_transition_time`, the last transition moves to `t` and the entered state becomes current; the dwell times still add up to the time of the last transition |
| Station.BaseStation.Popped | es/uvigo/det/labredes/bs/EventList.java:79-95 | taking the earliest event off the list and moving the clock to it keeps the station valid; the event is not in the past nor past the end of the simulation, and a popped drop leaves the pending drops |
| Station.BaseStation.CloseDwellTimes | es/uvigo/det/labredes/bs/BaseStation.java:229 | the current state is charged up to the end of the simulation, after which the dwell times add up to the simulation length |
| Simulator.TraceGrows | es/uvigo/det/labredes/bs/EventList.java:95 | handling an event not earlier than the last one keeps the handled events in time order |
| Simulator.Simulation.constructor | es/uvigo/det/labredes/bs/EnergyAwareBaseStationSimulator.java:245-269 | a fresh event list at time 0 ending at the simulation length, a fresh counter, and a valid station that has scheduled its three initial events |
| Simulator.Simulation.Advance | es/uvigo/det/labredes/bs/EnergyAwareBaseStationSimulator.java:273-274 | none exactly when the list is empty; otherwise the head is taken off the list, the clock moves to it and the station is ready to handle it |
| Simulator.CountKinds | es/uvigo/det/labredes/bs/BaseStation.java:86-202 | every handled event is exactly one of the four kinds the handlers take, and the wake-ups counted at line 202 are among the transitions |
| Simulator.CountKindsGrow | es/uvigo/det/labredes/bs/BaseStation.java:86-202 | handling one more event adds one to the count of its own kind (arrivals, services, drops, wake-ups) and leaves the other counts |
| Simulator.Simulation.DispatchArrival | es/uvigo/det/labredes/bs/EventList.java:98-100 | the reflective call of `handleTaskArrivalEvent`: one more task received, `ArrivalEffect` holds, and discarded, the service part and the transition part are unchanged |
| Simulator.Simulation.DispatchDrop | es/uvigo/det/labredes/bs/EventList.java:98-100 | the reflective call of `handleTaskDropEvent`: one more task discarded, and the arrival, service, transition and queue parts, the draws and the event list are unchanged |
| Simulator.Simulation.DispatchService | es/uvigo/det/labredes/bs/EventList.java:98-100 | the reflective call of `handleTaskServiceEvent`: aborts, changing nothing, exactly on an empty queue or a different head, otherwise `ServiceEffect` holds; the arrival and transition parts, discarded and the draws are unchanged |
| Simulator.Simulation.DispatchTransition | es/uvigo/det/labredes/bs/EventList.java:98-100 | the reflective call of `handleStateTransitionEvent`: aborts, changing nothing, exactly when ACTIVE_SERVE is entered with an empty queue outside `single`, otherwise `TransitionEffect` holds; the arrival, service and queue parts and discarded are unchanged |
| Simulator.Simulation.TurnArrival | es/uvigo/det/labredes/bs/EnergyAwareBaseStationSimulator.java:273-275 | a turn on an arrival at the head: it is popped and recorded, the clock moves to it, one more task is received and `ArrivalEffect` holds over the list without it (queued or dropped, next arrival drawn and scheduled, wake-ups requested); discarded and the service and transition parts are unchanged |
| Simulator.Simulation.TurnDrop | es/uvigo/det/labredes/bs/EnergyAwareBaseStationSimulator.java:273-275 | a turn on a drop at the head: it is popped and recorded, one more task is discarded, and everything else, the remaining list included, is unchanged |
| Simulator.Simulation.TurnService | es/uvigo/det/labredes/bs/EnergyAwareBaseStationSimulator.java:273-275 | a turn on a service completion at the head: it is popped and recorded; it fails exactly on an empty queue or a different head, and then only the pop happened; otherwise `ServiceEffect` holds over the list without it (head leaves, delay recorded, next service or idle timers scheduled, cycle closed); the arrival and transition parts, discarded and the draws are unchanged |
| Simulator.Simulation.TurnTransition | es/uvigo/det/labredes/bs/EnergyAwareBaseStationSimulator.java:273-275 | a turn on a state transition at the head: it is popped and recorded; it fails exactly when ACTIVE_SERVE is entered with an empty queue outside `single`, and then only the pop happened; otherwise `TransitionEffect` holds over the list without it (entry actions scheduled, dwell time charged to the state left, last transition time and entered state set, wake-ups counted); the arrival, service and queue parts and discarded are unchanged |
| Simulator.Simulation.Step | es/uvigo/det/labredes/bs/EnergyAwareBaseStationSimulator.java:273-275 | one turn of the loop: `Ok(false)`, changing nothing, exactly when the list was empty; otherwise its earliest event is recorded in time order, the clock moves to it and the handler of its kind runs, its whole effect stated over the list without that event: `ArrivalEffect` for an arrival, one more discard for a drop, `ServiceEffect` for a completed service, `TransitionEffect` for a completed transition (so the new event list, the delay and cycle statistics and the dwell charge are all fixed); the turn fails exactly when the service or transition handler does, and then only the pop happened; received, discarded, served and wake-ups grow by one for their own kind, the state and the queue change only as the handler says, and the parts owned by the other kinds are unchanged |
| Simulator.Simulation.Run | es/uvigo/det/labredes/bs/EnergyAwareBaseStationSimulator.java:272-278 | the handled events come in time order, none past the end of the simulation; received, discarded and transition counts grow by the numbers of arrivals, drops and wake-ups handled during the run, and served by the number of services handled when the run does not fail; when the list runs empty, received equals served plus discarded plus still queued, and the dwell times of the five states add up to the simulation length |

## Left out

- Reflective dispatch: the handler is looked up by the name string stored in each
  event (`getMethod`/`invoke`). `Simulator.Simulation.Step` replaces it with a
  match on the event kind, and the handler-name field is not modelled.
- Printing:
  - verbose traces, `print` methods and the report of `printStatistics`;
  - the power ratio, power consumption, rho and transition rate, which are
    floating-point reporting only.
  - Only the dwell-time closing of `printStatistics` is modelled.
- Random generators: the Poisson, Pareto, dynamic-Poisson, uniform, exponential and
  lognormal generators and their seeding. The deterministic generators are not
  modelled either. All of them are the two input streams `arrivalAt` and `serviceAt`.
- The lognormal service generator cannot be selected by any configuration line.
- Input and output:
  - command-line arguments and opening and reading the configuration file;
  - splitting a line into fields, which arrives already split;
  - `Double.parseDouble` and `Integer.parseInt`, which are parameters returning
    none for a malformed number;
  - `System.exit` becomes an `Abort` outcome;
  - a missing field (an uncaught index exception, which also ends the run) becomes
    `Abort(MissingField)`.
- IEEE doubles: time and statistics are exact reals. For a zero-length cycle,
  `Statistics.DynamicThreshold` takes the value the doubles give: `Integer.MAX_VALUE`
  when arrivals and the factor are positive, 1 otherwise.
- StreamsOk (a precondition of `Station.BaseStation.constructor` and
  `Simulator.Simulation.constructor`) assumes arrival instants never decrease. A
  `dynpoisson` line may give any rate step, negative ones included; only the time
  step is checked (EnergyAwareBaseStationSimulator.java:140-153). Once the steps
  drive the rate below 0 (for example `TASKS dynpoisson 1 -2 10`), the next instant
  (DynPoissonTaskGenerator.java:43-51) lies before the current one. BaseStation.java:100
  then schedules an arrival in the past and EventList.java:45-47 ends the run with
  "invalid event time". The model excludes this run by its assumption, and that is
  why `Station.BaseStation.ScheduleEvent` never aborts. A rate of exactly 0 gives an
  infinite instant, which lies past the end and is ignored.
- `long` and `int` counters are unbounded: task ids, received, served and discarded
  counts and the wake-up count do not wrap.
- Simulator.Simulation.Run: takes a `fuel` bound on the number of loop turns and
  returns `Ok(false)` with the station still valid when it runs out. The Java loop
  has no such bound, and with arrival instants that never advance it would not end.
- Simulator.Simulation.Run: the served count is tied to the handled services only
  when the run does not fail. A failing service is recorded as handled but serves
  nothing, and the Java program exits at that point, so no later count is read.
- `max_queue_size` is set to 0 (unbounded) by the constructor and never changed in
  the source. The capacity rule is modelled on the field all the same, so the drop
  path is proved for any capacity.
- Arrival order: `Station.BaseStation.HandleTaskArrivalEvent` draws the next arrival
  from both generators before queueing the task. The Java code queues first and
  draws afterwards. The draws touch neither the queue nor the list, and the
  requests reach the event list in the Java order.
- StateTransitionEvent's `new_state` is overwritten by the handler when ACTIVE_SERVE
  falls back to ACTIVE_IDLE or TRANSITION_TO_ACTIVE falls back to SLEEP. Events are
  values here, so the handler computes the entered state instead of rewriting the
  event. The event is not used again afterwards.
- Behaviour that follows the code:
  - The queue capacity is not a configuration parameter: no configuration line sets
    `max_queue_size`.
  - Arrival instants are only required never to decrease. The deterministic,
    Poisson and Pareto generators with an accepted configuration give such
    instants. The dynamic Poisson generator does not always give them: see the
    `StreamsOk` line above.
  - At the end of a run the conservation law includes the tasks still queued
    (`received == served + discarded + queued`): tasks queued when the simulation
    length is reached are never served.
