/**
  The task queue of server/FTthreadManager: threads submit tasks, a scheduler thread starts
  them in its slots and collects them, and synchronize waits for all of them.  Every load and
  store of a shared counter or flag is a step of its own, and so are push, front and pop, so
  the steps of all threads interleave freely; only the mutex keeps submit and pop apart.  The
  scheduler's search for a free slot is one step: no other thread changes the flags it reads.
 */
module TaskQueue {
  import opened Helpers

  /** Tasks are numbered in the order in which they are pushed. */
  type Task = nat

  /** `task` is what runs in the slot, `ready` whether its promise is fulfilled. */
  datatype Slot = Slot(active: bool, task: Option<Task>, ready: bool)

  /** Where the scheduler is. */
  datatype Phase =
    | Looking
    | Joined(slot: nat) | Reaped                                       // a task is collected
    | Searching | Found(slot: nat)                                     // a task waits, a slot is free
    | Launched(slot: nat) | Popped(slot: nat) | Activated              // and the task is started

  /** Where the thread is that holds the mutex for a submit. */
  datatype Submit = NoSubmit | Requested | Pushed

  /** `submitted`, `started`, `collected` and `finished` are history variables. */
  datatype Manager = Manager(
    slots: seq<Slot>, queue: seq<Task>, requests: int, pending: int, phase: Phase, submit: Submit,
    submitted: nat, started: nat, collected: nat, finished: set<Task>)

  datatype Event =
    | Request | Push | CountPending                     // submit
    | Join(i: nat) | Reap | CountReaped                 // the scheduler collects a task
    | LoadPending | Search(i: nat) | NoSlot             // the scheduler looks for work and for a slot
    | Launch | Pop | Activate | CountLaunched           // the scheduler starts the task at the front
    | Finish(i: nat)                                    // a task ends

  datatype Outcome = Next(m: Manager) | FrontOfEmptyQueue

  predicate Inactive(m: Manager, i: nat) {
    i < |m.slots| && !m.slots[i].active && forall j :: 0 <= j < i ==> m.slots[j].active
  }

  function Step(m: Manager, e: Event): Outcome {
    match e
    case Request =>
      if m.submit == NoSubmit then Next(m.(requests := m.requests + 1, submit := Requested)) else Next(m)
    case Push =>
      if m.submit == Requested then
        Next(m.(queue := m.queue + [m.submitted], submitted := m.submitted + 1, submit := Pushed))
      else Next(m)
    case CountPending =>
      if m.submit == Pushed then Next(m.(pending := m.pending + 1, submit := NoSubmit)) else Next(m)
    case Join(i) =>
      if m.phase == Looking && i < |m.slots| && m.slots[i].active && m.slots[i].ready then Next(m.(phase := Joined(i)))
      else Next(m)
    case Reap =>
      if m.phase.Joined? && m.phase.slot < |m.slots| then
        Next(m.(slots := m.slots[m.phase.slot := Slot(false, None, false)], phase := Reaped, collected := m.collected + 1))
      else Next(m)
    case CountReaped =>
      if m.phase == Reaped then Next(m.(requests := m.requests - 1, phase := Looking)) else Next(m)
    case LoadPending =>
      if m.phase == Looking && m.pending > 0 then Next(m.(phase := Searching)) else Next(m)
    case Search(i) =>
      if m.phase == Searching && Inactive(m, i) then Next(m.(phase := Found(i))) else Next(m)
    case NoSlot =>
      if m.phase == Searching && forall i :: 0 <= i < |m.slots| ==> m.slots[i].active then Next(m.(phase := Looking))
      else Next(m)
    case Launch =>
      if m.phase.Found? && m.phase.slot < |m.slots| then
        if m.queue == [] then FrontOfEmptyQueue
        else Next(m.(slots := m.slots[m.phase.slot := Slot(false, Some(m.queue[0]), false)],
                     phase := Launched(m.phase.slot), started := m.started + 1))
      else Next(m)
    case Pop =>
      if m.phase.Launched? && m.submit == NoSubmit && m.queue != [] then
        Next(m.(queue := m.queue[1..], phase := Popped(m.phase.slot)))
      else Next(m)
    case Activate =>
      if m.phase.Popped? && m.phase.slot < |m.slots| then
        Next(m.(slots := m.slots[m.phase.slot := m.slots[m.phase.slot].(active := true)], phase := Activated))
      else Next(m)
    case CountLaunched =>
      if m.phase == Activated then Next(m.(pending := m.pending - 1, phase := Looking)) else Next(m)
    case Finish(i) =>
      if i < |m.slots| && m.slots[i].task.Some? && !m.slots[i].ready then
        Next(m.(slots := m.slots[i := m.slots[i].(ready := true)],
                finished := m.finished + {m.slots[i].task.value}))
      else Next(m)
  }

  function Initial(maxThreads: nat): Manager {
    Manager(seq(maxThreads, _ => Slot(false, None, false)), [], 0, 0, Looking, NoSubmit, 0, 0, 0, {})
  }

  function Run(m: Manager, events: seq<Event>): Outcome
    decreases |events|
  {
    if events == [] then Next(m)
    else
      match Step(m, events[0])
      case Next(m') => Run(m', events[1..])
      case FrontOfEmptyQueue => FrontOfEmptyQueue
  }

  // ----- the invariant -----------------------------------------------------

  /** The queue holds the tasks that have not been popped, in order. */
  ghost predicate QueueSound(m: Manager) {
    var popped := m.started - if m.phase.Launched? then 1 else 0;
    && 0 <= popped && m.started <= m.submitted && |m.queue| == m.submitted - popped
    && forall k :: 0 <= k < |m.queue| ==> m.queue[k] == popped + k
  }

  ghost predicate PendingSound(m: Manager) {
    m.pending + (if m.submit == Pushed then 1 else 0)
    == |m.queue| + if m.phase.Popped? || m.phase == Activated then 1 else 0
  }

  function Occupied(slots: seq<Slot>): nat {
    if slots == [] then 0 else Occupied(slots[..|slots| - 1]) + if slots[|slots| - 1].task.Some? then 1 else 0
  }

  /** Started tasks are in a slot or have been collected, and requests counts those that have not. */
  ghost predicate RequestsSound(m: Manager) {
    && m.started == Occupied(m.slots) + m.collected
    && m.requests == m.submitted + (if m.submit == Requested then 1 else 0)
                     - (m.collected - if m.phase == Reaped then 1 else 0)
  }

  /** What the scheduler has looked up is still so: nobody else takes tasks or slots away. */
  ghost predicate LookedUp(m: Manager) {
    && (m.phase == Searching || m.phase.Found? ==> m.pending > 0)
    && (m.phase.Found? ==> m.phase.slot < |m.slots| && !m.slots[m.phase.slot].active)
    && (m.phase.Joined? ==>
          m.phase.slot < |m.slots| && m.slots[m.phase.slot].active && m.slots[m.phase.slot].ready)
  }

  /** The slot the scheduler is filling is occupied before it is marked active. */
  ghost predicate SlotsSound(m: Manager) {
    && LookedUp(m)
    && (m.phase.Launched? || m.phase.Popped? ==> m.phase.slot < |m.slots|)
    && forall i :: 0 <= i < |m.slots| ==>
         if (m.phase.Launched? || m.phase.Popped?) && m.phase.slot == i then
           !m.slots[i].active && m.slots[i].task.Some?
         else m.slots[i].active <==> m.slots[i].task.Some?
  }

  /** A started task has finished, or it is in a slot. */
  ghost predicate TasksSound(m: Manager) {
    && (forall t: nat :: t < m.started ==> t in m.finished || InSlot(m.slots, t))
    && (forall i :: 0 <= i < |m.slots| && m.slots[i].task.Some? ==>
          m.slots[i].task.value < m.started && (m.slots[i].ready ==> m.slots[i].task.value in m.finished))
  }

  ghost predicate InSlot(slots: seq<Slot>, t: Task) {
    exists i :: 0 <= i < |slots| && slots[i].task == Some(t)
  }

  /** A single slot holds the latest task. */
  ghost predicate LastInSlot(m: Manager) {
    |m.slots| == 1 && m.slots[0].task.Some? ==> m.slots[0].task.value == m.started - 1
  }

  ghost predicate Sound(m: Manager) {
    QueueSound(m) && PendingSound(m) && RequestsSound(m) && SlotsSound(m) && TasksSound(m) && LastInSlot(m)
  }

  lemma {:induction false} OccupiedAfter(slots: seq<Slot>, i: nat, slot: Slot)
    requires i < |slots|
    ensures Occupied(slots[i := slot])
            == Occupied(slots) - (if slots[i].task.Some? then 1 else 0) + if slot.task.Some? then 1 else 0
  {
    var n, t := |slots| - 1, slots[i := slot];
    if i < n {
      OccupiedAfter(slots[..n], i, slot);
      assert t[..n] == slots[..n][i := slot];
    } else {
      assert t[..n] == slots[..n];
    }
  }

  lemma {:induction false} NoneOccupied(slots: seq<Slot>, i: nat)
    requires Occupied(slots) == 0 && i < |slots|
    ensures slots[i].task.None?
  {
    if i < |slots| - 1 {
      NoneOccupied(slots[..|slots| - 1], i);
    }
  }

  lemma StillInSlot(slots: seq<Slot>, i: nat, slot: Slot, t: Task)
    requires i < |slots| && InSlot(slots, t)
    ensures slots[i].task != Some(t) || slot.task == Some(t) ==> InSlot(slots[i := slot], t)
  {
    var k :| 0 <= k < |slots| && slots[k].task == Some(t);
    if slots[i].task != Some(t) || slot.task == Some(t) {
      assert slots[i := slot][if k == i then i else k].task == Some(t);
    }
  }

  lemma SubmitKeeps(m: Manager, e: Event)
    requires Sound(m) && !e.Reap? && !e.Launch? && !e.Activate? && !e.Finish? && !e.Pop?
    ensures Step(m, e).Next? && Sound(Step(m, e).m)
  {
    var m' := Step(m, e).m;
    forall t: nat | t < m'.started ensures t in m'.finished || InSlot(m'.slots, t) {
      assert t in m.finished || InSlot(m.slots, t);
    }
  }

  /** The events that change a slot. */
  predicate ChangesSlot(e: Event) {
    e.Reap? || e.Launch? || e.Activate? || e.Finish?
  }

  lemma SlotCounts(m: Manager, e: Event)
    requires Sound(m) && ChangesSlot(e)
    ensures var o := Step(m, e);
            o.Next? && QueueSound(o.m) && PendingSound(o.m) && RequestsSound(o.m)
  {
    if Step(m, e) != Next(m) {
      var i := if e.Finish? then e.i else m.phase.slot;
      OccupiedAfter(m.slots, i, Step(m, e).m.slots[i]);
    }
  }

  lemma SlotTasks(m: Manager, e: Event)
    requires Sound(m) && ChangesSlot(e) && Step(m, e).Next?
    ensures var m' := Step(m, e).m;
            SlotsSound(m') && LastInSlot(m') && forall t: nat :: t < m'.started ==> t in m'.finished || InSlot(m'.slots, t)
  {
    if Step(m, e) != Next(m) {
      var i := if e.Finish? then e.i else m.phase.slot;
      var m' := Step(m, e).m;
      forall t: nat | t < m'.started ensures t in m'.finished || InSlot(m'.slots, t) {
        if t < m.started && t !in m.finished {
          StillInSlot(m.slots, i, m'.slots[i], t);
        } else if t !in m.finished {
          assert m'.slots[i].task == Some(t);
        }
      }
    }
  }

  lemma SlotKeeps(m: Manager, e: Event)
    requires Sound(m) && ChangesSlot(e)
    ensures Step(m, e).Next? && Sound(Step(m, e).m)
  {
    SlotCounts(m, e);
    SlotTasks(m, e);
  }

  lemma PopKeeps(m: Manager)
    requires Sound(m)
    ensures Step(m, Pop).Next? && Sound(Step(m, Pop).m)
  {
    var m' := Step(m, Pop).m;
    forall t: nat | t < m'.started ensures t in m'.finished || InSlot(m'.slots, t) {
      assert t in m.finished || InSlot(m.slots, t);
    }
  }

  lemma StepKeeps(m: Manager, e: Event)
    requires Sound(m)
    ensures Step(m, e).Next? && Sound(Step(m, e).m)
  {
    match e
    case Reap => SlotKeeps(m, e);
    case Launch => SlotKeeps(m, e);
    case Activate => SlotKeeps(m, e);
    case Finish(_) => SlotKeeps(m, e);
    case Pop => PopKeeps(m);
    case _ => SubmitKeeps(m, e);
  }

  /** A sound outcome, with as many slots. */
  ghost predicate Fine(o: Outcome, slots: nat) {
    o.Next? && Sound(o.m) && |o.m.slots| == slots
  }

  lemma StepIsFine(m: Manager, e: Event)
    requires Sound(m)
    ensures Fine(Step(m, e), |m.slots|)
  {
    StepKeeps(m, e);
  }

  lemma {:induction false} RunKeeps(o: Outcome, slots: nat, events: seq<Event>)
    requires Fine(o, slots)
    ensures Fine(Run(o.m, events), slots)
    decreases |events|
  {
    if events != [] {
      StepIsFine(o.m, events[0]);
      RunKeeps(Step(o.m, events[0]), slots, events[1..]);
    }
  }

  lemma {:induction false} InitialSound(n: nat)
    ensures Occupied(seq(n, _ => Slot(false, None, false))) == 0
  {
    if n > 0 {
      InitialSound(n - 1);
      var slots: seq<Slot> := seq(n, _ => Slot(false, None, false));
      assert slots[..n - 1] == seq(n - 1, _ => Slot(false, None, false));
    }
  }

  // ----- what holds over all interleavings ---------------------------------

  /** The scheduler never takes the front of an empty queue. */
  lemma FrontIsThere(maxThreads: nat, events: seq<Event>)
    ensures Run(Initial(maxThreads), events).Next?
  {
    InitialSound(maxThreads);
    RunKeeps(Next(Initial(maxThreads)), maxThreads, events);
  }

  lemma NothingRequested(m: Manager, t: Task)
    requires Sound(m) && m.requests == 0 && t < m.submitted
    ensures t in m.finished
  {
    assert m.started == m.submitted && Occupied(m.slots) == 0;
    if InSlot(m.slots, t) {
      var i :| 0 <= i < |m.slots| && m.slots[i].task == Some(t);
      NoneOccupied(m.slots, i);
    }
  }

  /** Whenever synchronize finds no request, every task submitted so far has finished. */
  lemma SynchronizeWaits(maxThreads: nat, events: seq<Event>, m: Manager, t: Task)
    requires Run(Initial(maxThreads), events) == Next(m)
    requires m.requests == 0 && t < m.submitted
    ensures t in m.finished
  {
    InitialSound(maxThreads);
    RunKeeps(Next(Initial(maxThreads)), maxThreads, events);
    NothingRequested(m, t);
  }

  lemma OnlyLatestRuns(m: Manager, t: Task)
    requires TasksSound(m) && LastInSlot(m) && |m.slots| == 1 && t + 1 < m.started
    ensures t in m.finished
  {
  }

  /** With one slot a task starts only when the one submitted before it has finished. */
  lemma OneAfterTheOther(events: seq<Event>, m: Manager, t: Task)
    requires Run(Initial(1), events) == Next(m) && t + 1 < m.started
    ensures t in m.finished
  {
    InitialSound(1);
    RunKeeps(Next(Initial(1)), 1, events);
    OnlyLatestRuns(m, t);
  }
}
