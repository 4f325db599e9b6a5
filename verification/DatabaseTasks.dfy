/**
  The queue of database tasks, filled by any thread and emptied by a worker and by whoever flushes it
  (src/databasetasks.cpp:34-105).  What a thread does while it holds the lock is one step.
  */
module DatabaseTasks {
  import opened Sums

  type Task = nat

  datatype ThreadState = Active | Closing | Terminated

  /** Where the worker is: about to test the state, about to lock, asleep, woken, running a task, or gone. */
  datatype Worker = Testing | Locking | Waiting | Woken | Running(task: Task) | Gone

  /** Where a thread that flushes is; `last` marks the flush of `shutdown`. */
  datatype Flusher = Away | Looping(last: bool) | Busy(task: Task, last: bool) | Flushed(last: bool)

  function WorkerRuns(w: Worker, t: Task): int {
    if w == Running(t) then 1 else 0
  }

  function FlusherRuns(t: Task): Flusher -> int {
    (f: Flusher) => if f.Busy? && f.task == t then 1 else 0
  }

  /** Nothing is lost or run twice: what was taken off the queue has been run or is being run, once. */
  ghost predicate Accounted(accepted: seq<Task>, taken: seq<Task>, executed: multiset<Task>, queue: seq<Task>,
                            worker: Worker, flushers: seq<Flusher>) {
    && accepted == taken + queue
    && forall t: Task :: AccountedAt(taken, executed, worker, flushers, t)
  }

  ghost predicate AccountedAt(taken: seq<Task>, executed: multiset<Task>, worker: Worker, flushers: seq<Flusher>, t: Task) {
    multiset(taken)[t] == executed[t] + WorkerRuns(worker, t) + SumBy(flushers, FlusherRuns(t))
  }

  lemma Taking(taken: seq<Task>, x: Task, t: Task)
    ensures multiset(taken + [x])[t] == multiset(taken)[t] + if t == x then 1 else 0
  {}

  lemma WorkerTakes(accepted: seq<Task>, taken: seq<Task>, executed: multiset<Task>, queue: seq<Task>, worker: Worker, flushers: seq<Flusher>)
    requires Accounted(accepted, taken, executed, queue, worker, flushers) && queue != [] && !worker.Running?
    ensures Accounted(accepted, taken + [queue[0]], executed, queue[1..], Running(queue[0]), flushers)
  {
    var taken', worker' := taken + [queue[0]], Running(queue[0]);
    forall t: Task ensures AccountedAt(taken', executed, worker', flushers, t) {
      assert AccountedAt(taken, executed, worker, flushers, t);
      Taking(taken, queue[0], t);
    }
    assert queue == [queue[0]] + queue[1..];
  }

  lemma WorkerChanges(accepted: seq<Task>, taken: seq<Task>, executed: multiset<Task>, queue: seq<Task>, worker: Worker,
                      worker': Worker, flushers: seq<Flusher>, executed': multiset<Task>)
    requires Accounted(accepted, taken, executed, queue, worker, flushers) && !worker'.Running?
    requires executed' == executed + if worker.Running? then multiset{worker.task} else multiset{}
    ensures Accounted(accepted, taken, executed', queue, worker', flushers)
  {
    forall t: Task ensures AccountedAt(taken, executed', worker', flushers, t) {
      assert AccountedAt(taken, executed, worker, flushers, t);
    }
  }

  lemma FlusherTakes(accepted: seq<Task>, taken: seq<Task>, executed: multiset<Task>, queue: seq<Task>, worker: Worker,
                     flushers: seq<Flusher>, i: nat, last: bool)
    requires Accounted(accepted, taken, executed, queue, worker, flushers) && queue != []
    requires i < |flushers| && !flushers[i].Busy?
    ensures Accounted(accepted, taken + [queue[0]], executed, queue[1..], worker, flushers[i := Busy(queue[0], last)])
  {
    var taken', flushers' := taken + [queue[0]], flushers[i := Busy(queue[0], last)];
    forall t: Task ensures AccountedAt(taken', executed, worker, flushers', t) {
      assert AccountedAt(taken, executed, worker, flushers, t);
      Taking(taken, queue[0], t);
      SumByUpdate(flushers, FlusherRuns(t), i, Busy(queue[0], last));
    }
    assert queue == [queue[0]] + queue[1..];
  }

  lemma FlusherChanges(accepted: seq<Task>, taken: seq<Task>, executed: multiset<Task>, queue: seq<Task>, worker: Worker,
                       flushers: seq<Flusher>, i: nat, f: Flusher, executed': multiset<Task>)
    requires Accounted(accepted, taken, executed, queue, worker, flushers) && i < |flushers| && !f.Busy?
    requires executed' == executed + if flushers[i].Busy? then multiset{flushers[i].task} else multiset{}
    ensures Accounted(accepted, taken, executed', queue, worker, flushers[i := f])
  {
    var flushers' := flushers[i := f];
    forall t: Task ensures AccountedAt(taken, executed', worker, flushers', t) {
      assert AccountedAt(taken, executed, worker, flushers, t);
      SumByUpdate(flushers, FlusherRuns(t), i, f);
    }
  }

  lemma {:induction false} NoneRuns(fs: seq<Flusher>, t: Task)
    requires forall i :: 0 <= i < |fs| ==> !fs[i].Busy?
    ensures SumBy(fs, FlusherRuns(t)) == 0
  {
    if fs != [] {
      assert forall i :: 0 <= i < |fs[1..]| ==> fs[1..][i] == fs[i + 1];
      NoneRuns(fs[1..], t);
    }
  }

  /** No task is run more often than it was accepted. */
  lemma AtMostOnce(accepted: seq<Task>, taken: seq<Task>, executed: multiset<Task>, queue: seq<Task>, worker: Worker,
                   flushers: seq<Flusher>, t: Task)
    requires Accounted(accepted, taken, executed, queue, worker, flushers)
    ensures executed[t] <= multiset(accepted)[t]
  {
    assert AccountedAt(taken, executed, worker, flushers, t);
    SumByAtLeast(flushers, FlusherRuns(t), |flushers|);
    assert multiset(accepted) == multiset(taken) + multiset(queue);
  }

  /** Once the queue is empty and nobody runs anything, every accepted task was run exactly as often as accepted. */
  lemma AllRun(accepted: seq<Task>, taken: seq<Task>, executed: multiset<Task>, queue: seq<Task>, worker: Worker,
               flushers: seq<Flusher>)
    requires Accounted(accepted, taken, executed, queue, worker, flushers)
    requires queue == [] && !worker.Running? && forall i :: 0 <= i < |flushers| ==> !flushers[i].Busy?
    ensures executed == multiset(accepted)
  {
    assert accepted == taken;
    forall t: Task ensures executed[t] == multiset(accepted)[t] {
      assert AccountedAt(taken, executed, worker, flushers, t);
      NoneRuns(flushers, t);
    }
  }

  class TaskQueue {
    var state: ThreadState
    var queue: seq<Task>
    var worker: Worker
    var flushers: seq<Flusher>
    var signals: nat                 // notifications decided on but not yet sent

    ghost var accepted: seq<Task>    // in the order in which they were added
    ghost var taken: seq<Task>       // in the order in which they were taken off the queue
    ghost var executed: multiset<Task>
    ghost var drained: bool          // a flush came to its end when no task was accepted any more

    ghost predicate Valid()
      reads this
    {
      && Accounted(accepted, taken, executed, queue, worker, flushers)
      && (worker == Waiting && queue != [] ==> signals > 0)
      && (drained ==> state != Active && queue == [])
      && (forall i :: 0 <= i < |flushers| ==> FlusherOk(flushers[i], state, drained))
    }

    constructor (threads: nat)
      ensures Valid() && state == Active && accepted == [] && queue == [] && worker == Testing && signals == 0
      ensures |flushers| == threads && forall i :: 0 <= i < threads ==> flushers[i] == Away
    {
      state, queue, worker, flushers, signals := Active, [], Testing, seq(threads, _ => Away), 0;
      accepted, taken, executed, drained := [], [], multiset{}, false;
      new;
      forall t: Task ensures AccountedAt(taken, executed, worker, flushers, t) {
        NoneRuns(flushers, t);
      }
    }

    /** `addTask`: tasks are accepted while the thread is running; the worker is told about the first one. */
    method AddTask(t: Task)
      requires Valid()
      modifies this`queue, this`signals, this`accepted
      ensures Valid()
      ensures accepted == if state == Active then old(accepted) + [t] else old(accepted)
      ensures queue == if state == Active then old(queue) + [t] else old(queue)
      ensures signals == old(signals) + if state == Active && old(queue) == [] then 1 else 0
    {
      if state == Active {
        if queue == [] {
          signals := signals + 1;
        }
        queue, accepted := queue + [t], accepted + [t];
      }
    }

    /** `notify_one` wakes the worker if it is asleep, and is lost otherwise. */
    method Notify()
      requires Valid() && signals > 0
      modifies this`signals, this`worker
      ensures Valid() && signals == old(signals) - 1
      ensures worker == if old(worker) == Waiting then Woken else old(worker)
    {
      signals := signals - 1;
      if worker == Waiting {
        WorkerChanges(accepted, taken, executed, queue, worker, Woken, flushers, executed);
        worker := Woken;
      }
    }

    /** `ThreadHolder::stop`. */
    method Stop()
      requires Valid()
      modifies this`state
      ensures Valid() && state == Closing
    {
      state := Closing;
    }

    /** `flush`, or `shutdown` up to its flush. */
    method BeginFlush(i: nat, last: bool)
      requires Valid() && i < |flushers| && flushers[i] == Away
      modifies this`state, this`flushers
      ensures Valid() && flushers == old(flushers)[i := Looping(last)]
      ensures state == if last then Terminated else old(state)
    {
      FlusherChanges(accepted, taken, executed, queue, worker, flushers, i, Looping(last), executed);
      if last {
        state := Terminated;
      }
      flushers := flushers[i := Looping(last)];
    }

    /** `flush` takes the next task, or finds nothing left. */
    method FlushNext(i: nat)
      requires Valid() && i < |flushers| && flushers[i].Looping?
      modifies this`queue, this`flushers, this`taken, this`drained
      ensures Valid()
      ensures old(queue) != [] ==>
                && queue == old(queue[1..]) && taken == old(taken) + [old(queue[0])] && drained == old(drained)
                && flushers == old(flushers)[i := Busy(old(queue[0]), old(flushers[i].last))]
      ensures old(queue) == [] ==>
                && queue == [] && taken == old(taken) && (drained <==> old(drained) || state != Active)
                && flushers == old(flushers)[i := Flushed(old(flushers[i].last))]
    {
      var last := flushers[i].last;
      if queue != [] {
        FlusherTakes(accepted, taken, executed, queue, worker, flushers, i, last);
        flushers, taken, queue := flushers[i := Busy(queue[0], last)], taken + [queue[0]], queue[1..];
      } else {
        FlusherChanges(accepted, taken, executed, queue, worker, flushers, i, Flushed(last), executed);
        drained := drained || state != Active;
        flushers := flushers[i := Flushed(last)];
      }
    }

    /** `runTask` by a thread that flushes. */
    method FlushRun(i: nat)
      requires Valid() && i < |flushers| && flushers[i].Busy?
      modifies this`flushers, this`executed
      ensures Valid() && flushers == old(flushers)[i := Looping(old(flushers[i].last))]
      ensures executed == old(executed) + multiset{old(flushers[i].task)}
    {
      var last := flushers[i].last;
      FlusherChanges(accepted, taken, executed, queue, worker, flushers, i, Looping(last), executed + multiset{flushers[i].task});
      executed := executed + multiset{flushers[i].task};
      flushers := flushers[i := Looping(last)];
    }

    /** The flush is over; `shutdown` notifies the worker. */
    method EndFlush(i: nat)
      requires Valid() && i < |flushers| && flushers[i].Flushed?
      modifies this`flushers, this`signals
      ensures Valid() && flushers == old(flushers)[i := Away]
      ensures signals == old(signals) + if old(flushers[i].last) then 1 else 0
    {
      FlusherChanges(accepted, taken, executed, queue, worker, flushers, i, Away, executed);
      signals := signals + if flushers[i].last then 1 else 0;
      flushers := flushers[i := Away];
    }

    /** A step of `threadMain`.  `spurious` lets a sleeping worker wake by itself. */
    method StepWorker(spurious: bool)
      requires Valid()
      modifies this`queue, this`worker, this`taken, this`executed
      ensures Valid()
      ensures old(worker) == Testing ==> worker == if state == Terminated then Gone else Locking
      ensures old(worker) == Locking && old(queue) == [] ==> worker == Waiting && queue == []
      ensures old(worker) == Waiting ==> worker == if spurious then Woken else Waiting
      ensures old(worker) in {Locking, Woken} && old(queue) != [] ==>
                worker == Running(old(queue[0])) && queue == old(queue[1..]) && taken == old(taken) + [old(queue[0])]
      ensures old(worker).Running? ==> worker == Testing && executed == old(executed) + multiset{old(worker.task)}
      ensures !old(worker).Running? ==> executed == old(executed)
      ensures old(worker) == Woken && old(queue) == [] ==> worker == Testing
      ensures old(worker) == Gone ==> worker == Gone
      ensures old(queue) == [] || old(worker) !in {Locking, Woken} ==> queue == old(queue) && taken == old(taken)
    {
      match worker
      case Testing =>
        GoTo(if state == Terminated then Gone else Locking);
      case Locking =>
        if queue == [] {
          GoTo(Waiting);
        } else {
          TakeByWorker();
        }
      case Waiting =>
        if spurious {
          GoTo(Woken);
        }
      case Woken =>
        if queue == [] {
          GoTo(Testing);
        } else {
          TakeByWorker();
        }
      case Running(task) =>
        GoTo(Testing);
      case Gone =>
    }

    /** The worker moves on; if it was running a task, that task is done. */
    method GoTo(next: Worker)
      requires Valid() && !next.Running? && (next == Waiting ==> queue == [])
      modifies this`worker, this`executed
      ensures Valid() && worker == next
      ensures executed == old(executed) + if old(worker).Running? then multiset{old(worker.task)} else multiset{}
    {
      ghost var done := executed + if worker.Running? then multiset{worker.task} else multiset{};
      WorkerChanges(accepted, taken, executed, queue, worker, next, flushers, done);
      executed := done;
      worker := next;
    }

    /**
      Over every interleaving of producers, worker and flushing threads: tasks are begun in the order in which
      they were accepted, none is run more often than it was accepted, and once a flush has come to its end after
      the shutdown and nobody runs a task any more, all have been run.
      */
    method Run(events: seq<Event>)
      requires Valid()
      modifies this
      ensures Valid() && taken <= accepted
      ensures forall t: Task :: executed[t] <= multiset(accepted)[t]
      ensures drained && !worker.Running? && (forall i :: 0 <= i < |flushers| ==> !flushers[i].Busy?) ==>
                executed == multiset(accepted)
    {
      for k := 0 to |events|
        invariant Valid()
      {
        Do(events[k]);
      }
      forall t: Task ensures executed[t] <= multiset(accepted)[t] {
        AtMostOnce(accepted, taken, executed, queue, worker, flushers, t);
      }
      if drained && !worker.Running? && forall i :: 0 <= i < |flushers| ==> !flushers[i].Busy? {
        AllRun(accepted, taken, executed, queue, worker, flushers);
      }
    }

    method Do(e: Event)
      requires Valid()
      modifies this
      ensures Valid()
      ensures old(Asleep()) && !Wakes(e) ==> Asleep()
    {
      match e
      case Adds(t) => AddTask(t);
      case Notifies => if signals > 0 { Notify(); }
      case Stops => Stop();
      case Flushes(i, last) => if i < |flushers| && flushers[i] == Away { BeginFlush(i, last); }
      case Flushing(i) =>
        if i < |flushers| {
          match flushers[i]
          case Away =>
          case Looping(_) => FlushNext(i);
          case Busy(_, _) => FlushRun(i);
          case Flushed(_) => EndFlush(i);
        }
      case Works(spurious) => StepWorker(spurious);
    }

    /** The worker sleeps, nobody is about to notify it, and no task will be accepted any more. */
    predicate Asleep()
      reads this
    {
      worker == Waiting && signals == 0 && state != Active && forall i :: 0 <= i < |flushers| ==> !Final(flushers[i])
    }

    /** From then on nothing but another shutdown, or a spurious wake-up, ends the worker's sleep. */
    method StaysAsleep(events: seq<Event>)
      requires Valid() && Asleep() && forall k :: 0 <= k < |events| ==> !Wakes(events[k])
      modifies this
      ensures Valid() && Asleep()
    {
      for k := 0 to |events|
        invariant Valid() && Asleep()
      {
        Do(events[k]);
      }
    }

    /** `shutdown` has notified, or is about to: the state is set, nothing is queued and its flush is over. */
    predicate ShutDown()
      reads this
    {
      state == Terminated && queue == [] && forall i :: 0 <= i < |flushers| ==> !Final(flushers[i])
    }

    /** A step after the shutdown: only the worker's own steps move it, and notifications that were still pending. */
    method Settle(e: Event)
      requires Valid() && ShutDown() && Later(e)
      modifies this
      ensures Valid() && ShutDown()
      ensures worker == After(e, old(worker), old(signals))
      ensures signals == if e == Notifies && old(signals) > 0 then old(signals) - 1 else old(signals)
    {
      match e
      case Adds(t) => AddTask(t);
      case Notifies => if signals > 0 { Notify(); }
      case Stops =>
      case Flushes(i, last) => if i < |flushers| && flushers[i] == Away { BeginFlush(i, last); }
      case Flushing(i) =>
        if i < |flushers| {
          match flushers[i]
          case Away =>
          case Looping(_) => FlushNext(i);
          case Busy(_, _) => FlushRun(i);
          case Flushed(_) => EndFlush(i);
        }
      case Works(spurious) => StepWorker(spurious);
    }

    /**
      When the worker ends: after a shutdown, without spurious wake-ups and whatever else happens, it is gone after
      two of its steps, unless it is asleep or about to lock; then it ends exactly if a notification that was still
      pending comes while it sleeps.
      */
    method EndsAfterShutdown(events: seq<Event>)
      requires Valid() && ShutDown() && forall k :: 0 <= k < |events| ==> Later(events[k])
      modifies this
      ensures Valid() && ShutDown()
      ensures old(worker) !in {Locking, Waiting} && WorkSteps(events) >= 2 ==> worker == Gone
      ensures old(worker) in {Locking, Waiting} ==>
                && (worker == Gone ==> Called(events, old(signals), old(worker) == Locking))
                && (CalledInTime(events, old(signals), old(worker) == Locking) ==> worker == Gone)
    {
      ghost var locking, n := worker == Locking, signals;
      ghost var called := if worker in {Locking, Waiting} then -1 else 0;
      assert events[..0] == [];
      for k := 0 to |events|
        invariant Valid() && ShutDown() && signals == Remaining(n, events[..k])
        invariant called == -1 ==> worker == if locking && WorkSteps(events[..k]) == 0 then Locking else Waiting
        invariant called == -1 ==> forall j :: 0 <= j < k ==> !CalledAt(events, n, locking, j)
        invariant called >= 0 ==> Ending(worker, events, called, k)
        invariant called >= 0 && old(worker) in {Locking, Waiting} ==> FirstCall(events, n, locking, called)
        invariant old(worker) !in {Locking, Waiting} ==> called == 0
      {
        StepsNext(events, k);
        EndingNext(worker, signals, events, called, k);
        Settle(events[k]);
        if called == -1 && CalledAt(events, n, locking, k) {
          called := k;
        }
      }
      assert events[..|events|] == events;
      if old(worker) in {Locking, Waiting} && CalledInTime(events, n, locking) {
        ghost var j :| 0 <= j < |events| && CalledAt(events, n, locking, j) && TwoStepsFrom(events, j);
        WorkStepsMonotone(events, called, j);
      }
    }

    /** The same from the moment before the notification of `shutdown`, with any number of others still pending. */
    method EndsAfterNotification(events: seq<Event>)
      requires Valid() && ShutDown() && signals >= 1 && forall k :: 0 <= k < |events| ==> Later(events[k])
      modifies this
      ensures Valid() && ShutDown()
      ensures old(worker) != Locking && WorkSteps(events) >= 2 ==> worker == Gone
      ensures old(worker) == Locking ==>
                && (worker == Gone ==> Called(events, old(signals) - 1, true))
                && (CalledInTime(events, old(signals) - 1, true) ==> worker == Gone)
    {
      Notify();
      EndsAfterShutdown(events);
    }

    method TakeByWorker()
      requires Valid() && queue != [] && worker in {Locking, Woken}
      modifies this`queue, this`worker, this`taken
      ensures Valid() && worker == Running(old(queue[0])) && queue == old(queue[1..]) && taken == old(taken) + [old(queue[0])]
    {
      WorkerTakes(accepted, taken, executed, queue, worker, flushers);
      worker, taken, queue := Running(queue[0]), taken + [queue[0]], queue[1..];
    }
  }

  ghost predicate FlusherOk(f: Flusher, state: ThreadState, drained: bool) {
    && (f.Looping? && f.last ==> state != Active)
    && (f.Busy? && f.last ==> state != Active)
    && (f.Flushed? && f.last ==> drained)
  }

  predicate Final(f: Flusher) {
    !f.Away? && f.last
  }

  datatype Event = Adds(t: Task) | Notifies | Stops | Flushes(i: nat, last: bool) | Flushing(i: nat) | Works(spurious: bool)

  /** What may happen after the shutdown, spurious wake-ups aside. */
  predicate Later(e: Event) {
    !Wakes(e) && e != Stops
  }

  /** Where a step takes the worker when the state is set and the queue is empty. */
  function Settled(w: Worker): Worker {
    match w
    case Testing => Gone
    case Locking => Waiting
    case Waiting => Waiting
    case Woken => Testing
    case Running(_) => Testing
    case Gone => Gone
  }

  /** Where an event takes the worker then. */
  function After(e: Event, w: Worker, signals: nat): Worker {
    if e == Works(false) then Settled(w)
    else if e == Notifies && signals > 0 && w == Waiting then Woken
    else w
  }

  /** A pending notification is sent at `j`, when a worker that was about to lock has gone to sleep. */
  predicate CalledAt(events: seq<Event>, pending: nat, locking: bool, j: nat) {
    j < |events| && events[j] == Notifies && Notices(events[..j]) < pending && (locking ==> WorkSteps(events[..j]) >= 1)
  }

  predicate Called(events: seq<Event>, pending: nat, locking: bool) {
    exists j :: 0 <= j < |events| && CalledAt(events, pending, locking, j)
  }

  /** The same, and the worker takes two more steps. */
  predicate CalledInTime(events: seq<Event>, pending: nat, locking: bool) {
    exists j :: 0 <= j < |events| && CalledAt(events, pending, locking, j) && TwoStepsFrom(events, j)
  }

  predicate TwoStepsFrom(events: seq<Event>, j: nat)
    requires j < |events|
  {
    WorkSteps(events) >= WorkSteps(events[..j]) + 2
  }

  ghost predicate FirstCall(events: seq<Event>, pending: nat, locking: bool, j: nat) {
    CalledAt(events, pending, locking, j) && forall i :: 0 <= i < j ==> !CalledAt(events, pending, locking, i)
  }

  /** From position `from` on the worker is on its way out. */
  ghost predicate Ending(w: Worker, events: seq<Event>, from: nat, k: nat)
    requires k <= |events|
  {
    from <= k && (w == Gone || (w !in {Locking, Waiting} && StepsLeft(w) + WorkSteps(events[..k]) <= WorkSteps(events[..from]) + 2))
  }

  function Notices(events: seq<Event>): nat {
    if events == [] then 0 else Notices(events[..|events| - 1]) + if events[|events| - 1] == Notifies then 1 else 0
  }

  function Remaining(pending: nat, events: seq<Event>): nat {
    if Notices(events) < pending then pending - Notices(events) else 0
  }

  lemma StepsNext(events: seq<Event>, k: nat)
    requires k < |events|
    ensures WorkSteps(events[..k + 1]) == WorkSteps(events[..k]) + if events[k] == Works(false) then 1 else 0
    ensures Notices(events[..k + 1]) == Notices(events[..k]) + if events[k] == Notifies then 1 else 0
  {
    assert events[..k + 1][..k] == events[..k];
  }

  lemma EndingNext(w: Worker, signals: nat, events: seq<Event>, from: int, k: nat)
    requires k < |events| && (from >= 0 ==> Ending(w, events, from, k))
    ensures from >= 0 ==> Ending(After(events[k], w, signals), events, from, k + 1)
  {
    StepsNext(events, k);
  }

  lemma {:induction false} WorkStepsMonotone(events: seq<Event>, i: nat, j: nat)
    requires i <= j <= |events|
    ensures WorkSteps(events[..i]) <= WorkSteps(events[..j])
  {
    if i < j {
      WorkStepsMonotone(events, i, j - 1);
      StepsNext(events, j - 1);
    }
  }

  function StepsLeft(w: Worker): nat {
    if w == Gone then 0 else if w == Testing then 1 else 2
  }

  function WorkSteps(events: seq<Event>): nat {
    if events == [] then 0
    else WorkSteps(events[..|events| - 1]) + if events[|events| - 1] == Works(false) then 1 else 0
  }

  predicate Wakes(e: Event) {
    e == Works(true) || (e.Flushes? && e.last)
  }

  /**
    A schedule that leaves the worker asleep for good: it tests the state before `shutdown` sets it, and waits
    after `shutdown` has notified.
    */
  method LostWakeUp() returns (q: TaskQueue)
    ensures fresh(q) && q.Valid() && q.Asleep() && q.state == Terminated
  {
    q := new TaskQueue(1);
    q.StepWorker(false);
    Shutdown(q);
    q.StepWorker(false);
  }

  /** `shutdown`, while nothing is queued and the worker is about to lock. */
  method Shutdown(q: TaskQueue)
    requires q.Valid() && q.worker == Locking && q.queue == [] && q.signals == 0 && q.flushers == [Away]
    modifies q
    ensures q.Valid() && q.worker == Locking && q.queue == [] && q.signals == 0 && q.flushers == [Away] && q.state == Terminated
  {
    q.BeginFlush(0, true);
    q.FlushNext(0);
    q.EndFlush(0);
    q.Notify();
  }
}
