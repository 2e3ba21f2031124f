/** Event records of the simulator: the four concrete event kinds, their time-only
    ordering (`Event.compareTo`), their per-kind equality (`equals`, used by the event
    list to suppress duplicates) and the global task counter that numbers arrivals. */
module Events {

  /** The five power states of the base station (`BaseStationState`). */
  datatype State = ActiveIdle | ActiveServe | Sleep | TransitionToActive | TransitionToSleep

  /** One pending event. The Java class hierarchy (an abstract `Event` with four
      subclasses) becomes one tagged union; the handler-name string used for reflective
      dispatch is dropped, since the kind itself selects the handler. */
  datatype Event =
    | TaskArrival(time: real, taskId: nat, taskStime: real)
    | TaskService(time: real, taskId: nat, taskStime: real)
    | TaskDrop(time: real, taskId: nat)
    | StateTransition(time: real, newState: State)

  /** `Event.compareTo`: +1 when `a` is earlier than `b`, -1 when it is later and 0
      when both occur at the same instant. Only the times take part. */
  function CompareTo(a: Event, b: Event): (r: int)
    ensures r == 1 <==> a.time < b.time
    ensures r == -1 <==> a.time > b.time
    ensures r == 0 <==> a.time == b.time
  {
    if b.time > a.time then 1
    else if b.time < a.time then -1
    else 0
  }

  /** The ordering is antisymmetric. */
  lemma CompareToAntisymmetric(a: Event, b: Event)
    ensures CompareTo(a, b) == -CompareTo(b, a)
  {
  }

  /** `a.equals(b)`, dispatched on the class of `a`: an object equals itself, an object
      of another class is never equal, and otherwise arrivals, services and drops
      compare (time, task id) while transitions compare (time, target state). */
  predicate Equals(a: Event, b: Event)
  {
    a == b ||
    match a
    case TaskArrival(t, id, _) => b.TaskArrival? && t == b.time && id == b.taskId
    case TaskService(t, id, _) => b.TaskService? && t == b.time && id == b.taskId
    case TaskDrop(t, id) => b.TaskDrop? && t == b.time && id == b.taskId
    case StateTransition(t, s) => b.StateTransition? && t == b.time && s == b.newState
  }

  /** The kind of an event, standing for its Java class. */
  function KindOf(e: Event): (k: int)
    ensures 0 <= k < 4
    ensures k == 0 <==> e.TaskArrival?
    ensures k == 1 <==> e.TaskService?
    ensures k == 2 <==> e.TaskDrop?
  {
    match e
    case TaskArrival(_, _, _) => 0
    case TaskService(_, _, _) => 1
    case TaskDrop(_, _) => 2
    case StateTransition(_, _) => 3
  }

  /** Two arrivals are equal exactly when time and task id agree; the service time
      they carry plays no part. */
  lemma ArrivalEquality(a: Event, b: Event)
    requires a.TaskArrival? && b.TaskArrival?
    ensures Equals(a, b) <==> a.time == b.time && a.taskId == b.taskId
  {
  }

  /** Two service completions are equal exactly when time and task id agree; the
      service time they carry plays no part. */
  lemma ServiceEquality(a: Event, b: Event)
    requires a.TaskService? && b.TaskService?
    ensures Equals(a, b) <==> a.time == b.time && a.taskId == b.taskId
  {
  }

  /** Two drops are equal exactly when time and task id agree. */
  lemma DropEquality(a: Event, b: Event)
    requires a.TaskDrop? && b.TaskDrop?
    ensures Equals(a, b) <==> a.time == b.time && a.taskId == b.taskId
  {
  }

  /** Two transitions are equal exactly when time and target state agree, so two
      transitions at one instant towards different states are both kept pending. */
  lemma TransitionEquality(a: Event, b: Event)
    requires a.StateTransition? && b.StateTransition?
    ensures Equals(a, b) <==> a.time == b.time && a.newState == b.newState
  {
  }

  /** Events of different kinds are never equal, even with the same time and id. */
  lemma EqualsSameKind(a: Event, b: Event)
    requires Equals(a, b)
    ensures KindOf(a) == KindOf(b) && a.time == b.time
  {
  }

  /** `equals` is reflexive and symmetric. */
  lemma EqualsReflexiveSymmetric(a: Event, b: Event)
    ensures Equals(a, a)
    ensures Equals(a, b) <==> Equals(b, a)
  {
  }

  /** The static `TaskArrivalEvent.task_counter`, the source of task ids. */
  class TaskIds {
    var next: nat

    /** The counter starts at 0 when the program starts. */
    constructor ()
      ensures next == 0
    {
      next := 0;
    }

    /** `new TaskArrivalEvent(t, method, stime)`: the new arrival keeps the given time
        and service time, takes the current counter value as its id, and the counter
        moves on by one, so the ids of successive arrivals strictly increase. */
    method NewTaskArrival(t: real, stime: real) returns (e: Event)
      modifies this`next
      ensures e == TaskArrival(t, old(next), stime)
      ensures next == old(next) + 1
    {
      e := TaskArrival(t, next, stime);
      next := next + 1;
    }
  }
}
