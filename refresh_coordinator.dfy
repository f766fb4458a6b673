/** The single-flight gate in front of token refresh. The Swift actor holds
    one optional handle, `refreshTask`; a call of `refresh(operation:)` either
    joins the task that handle names or creates a task, records it and
    awaits it, and clears the handle in a `defer` when it resumes.

    Concurrency is reduced to a sequence of events, each a method here:
    `Request` (a call runs up to its `await`), `Settle` (the awaited task's
    operation finishes) and `Resume` (a suspended call continues and
    returns). The tasks and the suspended calls, which the Swift runtime
    keeps, are fields so that the events can refer to them. */
module Coordination {
  import opened Outcomes
  import opened Session

  /** What a refresh delivers: a token, or the error it threw. */
  type Outcome = Result<string, Error>

  datatype Status = Running | Settled(outcome: Outcome)

  /** A task the coordinator created: the operation it runs, the call that
      created it, and whether the operation has finished. */
  datatype Task<Op> = Task(op: Op, creator: nat, status: Status)

  /** A call suspended at its `await`: the task it awaits, and whether this
      call created that task (and so owns the `defer` that clears the handle). */
  datatype Await = Await(task: nat, created: bool)

  class RefreshCoordinator<Op> {
    /** The actor's only stored property: the handle of the task in flight. */
    var refreshTask: Option<nat>
    /** Every task created so far; a handle is an index into this sequence. */
    var tasks: seq<Task<Op>>
    /** The calls suspended at their `await`, by call number. */
    var suspended: map<nat, Await>
    /** The number the next call will get. */
    var nextCall: nat

    /** The gate's invariant: a task that is still running is the one the
        handle names, so at most one operation runs at a time; the handle
        names a task whose creator is still suspended, and that creator's
        `defer` is the only one that can clear it. */
    ghost predicate Valid()
      reads this
    {
      && (refreshTask.Some? ==>
            && refreshTask.value < |tasks|
            && tasks[refreshTask.value].creator in suspended
            && suspended[tasks[refreshTask.value].creator] == Await(refreshTask.value, true))
      && (forall t :: 0 <= t < |tasks| && tasks[t].status.Running? ==> refreshTask == Some(t))
      && (forall c :: c in suspended ==> c < nextCall && suspended[c].task < |tasks|)
      && (forall c :: c in suspended && suspended[c].created ==>
            refreshTask == Some(suspended[c].task) && tasks[suspended[c].task].creator == c)
    }

    /** Idle, with no task, no suspended call and no handle. */
    constructor ()
      ensures Valid()
      ensures refreshTask == None && tasks == [] && suspended == map[] && nextCall == 0
    {
      refreshTask := None;
      tasks := [];
      suspended := map[];
      nextCall := 0;
    }

    /** The effect of one call of `refresh(operation: op)` up to its `await`,
        given the number `call` it was given and whether it `started` a task. */
    twostate predicate Requested(op: Op, call: nat, started: bool)
      reads this
    {
      && call == old(nextCall) && nextCall == old(nextCall) + 1
      && started == old(refreshTask).None?
      && if started then
           && refreshTask == Some(|old(tasks)|)
           && tasks == old(tasks) + [Task(op, call, Running)]
           && suspended == old(suspended)[call := Await(|old(tasks)|, true)]
         else
           && refreshTask == old(refreshTask)
           && tasks == old(tasks)
           && suspended == old(suspended)[call := Await(old(refreshTask).value, false)]
    }

    /** A call of `refresh(operation: op)` runs up to its `await`. In flight,
        it joins the existing task and starts nothing; idle, it creates
        exactly one task and records its handle before it suspends. */
    method Request(op: Op) returns (call: nat, started: bool)
      requires Valid()
      modifies this
      ensures Valid()
      ensures Requested(op, call, started)
      ensures call !in old(suspended)
    {
      call := nextCall;
      nextCall := nextCall + 1;
      match refreshTask {
        case Some(existing) =>
          started := false;
          suspended := suspended[call := Await(existing, false)];
        case None =>
          started := true;
          var task := |tasks|;
          tasks := tasks + [Task(op, call, Running)];
          refreshTask := Some(task);
          suspended := suspended[call := Await(task, true)];
      }
    }

    /** The operation of task `t` finishes with `outcome`. Only the task in
        flight can be running, and nothing but its status changes. */
    method Settle(t: nat, outcome: Outcome)
      requires Valid()
      requires t < |tasks| && tasks[t].status.Running?
      modifies this
      ensures Valid()
      ensures old(refreshTask) == Some(t)
      ensures tasks == old(tasks)[t := old(tasks[t]).(status := Settled(outcome))]
      ensures refreshTask == old(refreshTask) && suspended == old(suspended) && nextCall == old(nextCall)
    {
      tasks := tasks[t := tasks[t].(status := Settled(outcome))];
    }

    /** Suspended call `call` continues once its task has settled and
        returns that task's outcome, success or error alike. If it created
        the task, its `defer` clears the handle, so the next request starts
        a fresh task. */
    method Resume(call: nat) returns (outcome: Outcome)
      requires Valid()
      requires call in suspended && suspended[call].task < |tasks|
      requires tasks[suspended[call].task].status.Settled?
      modifies this
      ensures Valid()
      ensures outcome == old(tasks[suspended[call].task].status.outcome)
      ensures refreshTask == (if old(suspended[call].created) then None else old(refreshTask))
      ensures suspended == old(suspended) - {call}
      ensures tasks == old(tasks) && nextCall == old(nextCall)
    {
      var awaiting := suspended[call];
      outcome := tasks[awaiting.task].status.outcome;
      suspended := suspended - {call};
      if awaiting.created {
        refreshTask := None;
      }
    }
  }

  /** Three callers ask for a refresh before the first one's task settles:
      one task is created, it runs the first caller's operation, and all
      three receive its outcome, an error as much as a token. */
  method ConcurrentCallersShareOneTask<Op>(op1: Op, op2: Op, op3: Op, outcome: Outcome)
    returns (r1: Outcome, r2: Outcome, r3: Outcome, created: nat, ran: Op)
    ensures r1 == outcome && r2 == outcome && r3 == outcome
    ensures created == 1 && ran == op1
  {
    var gate := new RefreshCoordinator<Op>();
    var c1, s1 := gate.Request(op1);
    var c2, s2 := gate.Request(op2);
    var c3, s3 := gate.Request(op3);
    ran := gate.tasks[0].op;
    gate.Settle(0, outcome);
    r2 := gate.Resume(c2);
    r1 := gate.Resume(c1);
    r3 := gate.Resume(c3);
    created := |gate.tasks|;
  }

  /** Two refreshes one after the other: the second, requested after the
      first call returned, starts a task of its own and gets its own
      outcome rather than the first one's. */
  method SequentialRefreshesBothRun<Op>(op1: Op, op2: Op, first: Outcome, second: Outcome)
    returns (r1: Outcome, r2: Outcome, created: nat)
    ensures r1 == first && r2 == second && created == 2
  {
    var gate := new RefreshCoordinator<Op>();
    var c1, s1 := gate.Request(op1);
    gate.Settle(0, first);
    r1 := gate.Resume(c1);
    var c2, s2 := gate.Request(op2);
    gate.Settle(1, second);
    r2 := gate.Resume(c2);
    created := |gate.tasks|;
  }

  /** The handle is cleared when the creating call resumes, not when its task
      settles. A request that comes in between joins the settled task and
      receives its outcome; only a request after the creator's return starts
      a new task. */
  method JoinBetweenSettleAndClear<Op>(op1: Op, op2: Op, op3: Op, outcome: Outcome)
    returns (joinerStarted: bool, joinerGot: Outcome, laterStarted: bool)
    ensures !joinerStarted && joinerGot == outcome && laterStarted
  {
    var gate := new RefreshCoordinator<Op>();
    var c1, s1 := gate.Request(op1);
    gate.Settle(0, outcome);
    var c2, s2 := gate.Request(op2);
    joinerStarted := s2;
    joinerGot := gate.Resume(c2);
    var r1 := gate.Resume(c1);
    var c3, s3 := gate.Request(op3);
    laterStarted := s3;
  }
}
