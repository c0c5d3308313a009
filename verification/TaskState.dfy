/**
  The bookkeeping of one server rank (server/server.cxx): which ensemble members are
  unscheduled, scheduled, running or finished, on which runner, and what every handler
  makes of it.  The functions here specify the handlers; class ServerRank implements them.
 */
module TaskState {
  import opened Helpers

  const MAX_FAIL_COUNT := 5

  /** A member on a runner: what is killed when a due date passes. */
  datatype Task = Task(state: int, runner: int)

  /** Rank 0's order to all ranks. */
  datatype NewTask = NewTask(runner: int, state: int, due: int, id: int)

  /** The share of a task that one runner rank exchanges with one server rank. */
  datatype SubTask = SubTask(runner: int, rank: nat, state: int, due: int)

  /** What a server rank has last told a runner rank that has not answered since. */
  datatype Order = Work(state: int, step: int) | Stop

  /** Where the stored part of a background state comes from. */
  datatype Origin = Origin(runner: int, step: int)

  /** Runner and due date of the task that holds a member. */
  datatype Held = Held(runner: int, due: int)

  /** `holder` and `given`, the members ordered from each runner rank in this step, are history
      variables: no handler reads them. */
  datatype RankState = RankState(
    unscheduled: set<int>,
    scheduled: seq<SubTask>,
    running: seq<SubTask>,
    finished: seq<SubTask>,
    killed: set<Task>,
    idle: map<int, set<nat>>,
    orders: map<(int, nat), Order>,
    background: map<(int, nat), Origin>,
    step: int,
    highestReceived: int,
    highestSent: int,
    taskId: int,
    finishedRanks: int,
    failcount: seq<nat>,
    holder: map<int, Held>,
    given: map<(int, nat), seq<int>>)

  // ----- lists -------------------------------------------------------------

  function Filter<T>(s: seq<T>, keep: T -> bool): seq<T> {
    if s == [] then []
    else Filter(s[..|s| - 1], keep) + if keep(s[|s| - 1]) then [s[|s| - 1]] else []
  }

  lemma {:induction false} FilterCounts<T>(s: seq<T>, keep: T -> bool, x: T)
    ensures multiset(Filter(s, keep))[x] == if keep(x) then multiset(s)[x] else 0
  {
    if s != [] {
      FilterCounts(s[..|s| - 1], keep, x);
      assert s == s[..|s| - 1] + [s[|s| - 1]];
    }
  }

  lemma {:induction false} FilterKeepsMembers<T>(s: seq<T>, keep: T -> bool)
    ensures forall x :: x in Filter(s, keep) <==> x in s && keep(x)
  {
    if s != [] {
      FilterKeepsMembers(s[..|s| - 1], keep);
      assert s == s[..|s| - 1] + [s[|s| - 1]];
    }
  }

  /** Index of the first element with the property, or the length of the list. */
  function FirstIndex<T>(s: seq<T>, p: T -> bool): (i: nat)
    ensures i <= |s|
    ensures forall j :: 0 <= j < i ==> !p(s[j])
    ensures i < |s| ==> p(s[i])
  {
    if s == [] then 0
    else
      var i := FirstIndex(s[..|s| - 1], p);
      if i < |s| - 1 || p(s[|s| - 1]) then i else |s|
  }

  function Remove<T>(s: seq<T>, i: nat): seq<T>
    requires i < |s|
  {
    s[..i] + s[i + 1..]
  }

  lemma RemoveCounts<T>(s: seq<T>, i: nat)
    requires i < |s|
    ensures multiset(s) == multiset(Remove(s, i)) + multiset{s[i]}
  {
    assert s == s[..i] + ([s[i]] + s[i + 1..]);
  }

  /** A message from rank 0 goes into the channels of all others. */
  function Append<T>(channels: seq<seq<T>>, sent: seq<T>): (t: seq<seq<T>>)
    ensures |t| == |channels|
  {
    seq(|channels|, r requires 0 <= r < |channels| => if r == 0 then channels[r] else channels[r] + sent)
  }

  // ----- connections -------------------------------------------------------

  predicate HasConnection(idle: map<int, set<nat>>, runner: int, rank: nat) {
    runner in idle && rank in idle[runner]
  }

  function TakeConnection(idle: map<int, set<nat>>, runner: int, rank: nat): map<int, set<nat>>
    requires HasConnection(idle, runner, rank)
  {
    var rest := idle[runner] - {rank};
    if rest == {} then idle - {runner} else idle[runner := rest]
  }

  function SaveConnection(idle: map<int, set<nat>>, runner: int, rank: nat): map<int, set<nat>> {
    idle[runner := (if runner in idle then idle[runner] else {}) + {rank}]
  }

  /** The members a runner rank has been told to work on in this step. */
  function Given(given: map<(int, nat), seq<int>>, runner: int, rank: nat): seq<int> {
    if (runner, rank) in given then given[(runner, rank)] else []
  }

  function Give(given: map<(int, nat), seq<int>>, runner: int, rank: nat, state: int): map<(int, nat), seq<int>> {
    given[(runner, rank) := Given(given, runner, rank) + [state]]
  }

  /** Giving up a runner tells every connection that is still open to stop. */
  function StopRunner(q: RankState, runner: int): RankState {
    if runner in q.idle then
      q.(idle := q.idle - {runner},
         orders := q.orders + map p | p in q.idle[runner] :: (runner, p) := Stop)
    else q
  }

  predicate IsDead(killed: set<Task>, runner: int) {
    exists t :: t in killed && t.runner == runner
  }

  predicate CompletelyIdle(idle: map<int, set<nat>>, runner: int, connections: nat) {
    runner in idle && |idle[runner]| == connections
  }

  function CompletelyIdleRunners(idle: map<int, set<nat>>, connections: nat): set<int> {
    set runner | runner in idle && CompletelyIdle(idle, runner, connections)
  }

  // ----- handlers ----------------------------------------------------------

  function SubTaskOf(nt: NewTask, rank: nat): SubTask {
    SubTask(nt.runner, rank, nt.state, nt.due)
  }

  /** Launches the sub-task if the runner rank waits for work, else puts it on the list. */
  function AddSubTask(q: RankState, st: SubTask): RankState {
    if HasConnection(q.idle, st.runner, st.rank) then
      q.(idle := TakeConnection(q.idle, st.runner, st.rank),
         orders := q.orders[(st.runner, st.rank) := Work(st.state, q.step)],
         given := Give(q.given, st.runner, st.rank, st.state),
         running := q.running + [st])
    else
      q.(scheduled := q.scheduled + [st])
  }

  function AddSubTasks(q: RankState, nt: NewTask, ranks: seq<nat>): RankState {
    if ranks == [] then q
    else AddSubTask(AddSubTasks(q, nt, ranks[..|ranks| - 1]), SubTaskOf(nt, ranks[|ranks| - 1]))
  }

  /** The whole of a new task; the code asserts that the member was unscheduled. */
  function Assign(q: RankState, nt: NewTask, ranks: seq<nat>): RankState {
    AddSubTasks(Take(q, nt), nt, ranks)
  }

  predicate IsOf(st: SubTask, t: Task) { st.state == t.state && st.runner == t.runner }

  function WithoutTask(sts: seq<SubTask>, t: Task): seq<SubTask> {
    Filter(sts, (st: SubTask) => !IsOf(st, t))
  }

  function WithoutMember(sts: seq<SubTask>, state: int): seq<SubTask> {
    Filter(sts, (st: SubTask) => st.state != state)
  }

  function KillTask(q: RankState, t: Task): RankState {
    StopRunner(q, t.runner).(
      unscheduled := q.unscheduled + {t.state},
      killed := q.killed + {t},
      running := WithoutTask(q.running, t),
      finished := WithoutTask(q.finished, t),
      scheduled := WithoutTask(q.scheduled, t),
      holder := q.holder - {t.state})
  }

  /** The smallest id: where iteration over an ordered set or map begins. */
  ghost function Least(s: set<int>): (x: int)
    requires s != {}
    ensures x in s && forall y :: y in s ==> x <= y
  {
    LeastExists(s);
    var x :| x in s && forall y :: y in s ==> x <= y;
    x
  }

  lemma {:induction false} LeastExists(s: set<int>)
    requires s != {}
    ensures exists x :: x in s && forall y :: y in s ==> x <= y
  {
    var z := AnyOf(s);
    if s != {z} {
      LeastExists(s - {z});
      var x :| x in s - {z} && forall y :: y in s - {z} ==> x <= y;
      assert s == (s - {z}) + {z};
      var m := if x <= z then x else z;
      assert m in s && forall y :: y in s ==> m <= y;
    }
  }

  /** Rank 0 hands the first unscheduled member to a runner; the message goes to everybody. */
  ghost function ScheduledTask(q: RankState, runner: int, due: int): NewTask
    requires q.unscheduled != {}
  {
    NewTask(runner, Least(q.unscheduled), due, q.taskId + 1)
  }

  function Issue(q: RankState, nt: NewTask, ranks: seq<nat>): RankState {
    Assign(q.(taskId := nt.id, finishedRanks := 0), nt, ranks)
  }

  ghost function ScheduleNewTask(q: RankState, runner: int, due: int, ranks: seq<nat>): RankState
    requires q.unscheduled != {}
  {
    Issue(q, ScheduledTask(q, runner, due), ranks)
  }

  /** What rank 0 does and tells the others; or it gives up because a member failed too often. */
  datatype Effect = Effect(q: RankState, sent: seq<NewTask>) | Exit

  ghost function TrySchedule(q: RankState, runner: int, due: int, ranks: seq<nat>): Effect {
    if q.unscheduled == {} then Effect(q, [])
    else Effect(ScheduleNewTask(q, runner, due, ranks), [ScheduledTask(q, runner, due)])
  }

  /** After a kill rank 0 looks for a completely idle runner, and then takes the first idle one. */
  ghost function Reschedule(q: RankState, due: int, ranks: seq<nat>): Effect {
    if CompletelyIdleRunners(q.idle, |ranks|) != {} then
      assert exists x :: x in q.idle.Keys;
      TrySchedule(q, Least(q.idle.Keys), due, ranks)
    else Effect(q, [])
  }

  predicate FailsTooOften(q: RankState, state: int) {
    !(0 <= state < |q.failcount|) || q.failcount[state] + 1 > MAX_FAIL_COUNT
  }

  function FailState(q: RankState, state: int): RankState
    requires !FailsTooOften(q, state)
  {
    q.(failcount := q.failcount[state := q.failcount[state] + 1])
  }

  ghost function RootKill(q: RankState, t: Task, due: int, ranks: seq<nat>): Effect {
    if FailsTooOften(q, t.state) then Exit
    else Reschedule(FailState(KillTask(q, t), t.state), due, ranks)
  }

  /** A kill request of another rank; rank 0 ignores what it has killed already. */
  ghost function RootKillRequest(q: RankState, t: Task, due: int, ranks: seq<nat>): Effect {
    if t in q.killed then Effect(q, []) else RootKill(q, t, due, ranks)
  }

  // ----- due dates ---------------------------------------------------------

  function TasksOf(s: seq<SubTask>, now: int): set<Task> {
    set st | st in s && now > st.due :: Task(st.state, st.runner)
  }

  function Overdue(q: RankState, now: int): set<Task> {
    TasksOf(q.scheduled, now) + TasksOf(q.running, now)
  }

  predicate TaskLess(a: Task, b: Task) {
    a.state < b.state || (a.state == b.state && a.runner < b.runner)
  }

  ghost function LeastTask(s: set<Task>): (t: Task)
    requires s != {}
    ensures t in s && forall u :: u in s ==> u == t || TaskLess(t, u)
  {
    LeastTaskExists(s);
    var t :| t in s && forall u :: u in s ==> u == t || TaskLess(t, u);
    t
  }

  lemma {:induction false} LeastTaskExists(s: set<Task>)
    requires s != {}
    ensures exists t :: t in s && forall u :: u in s ==> u == t || TaskLess(t, u)
  {
    var z :| z in s;
    if s != {z} {
      LeastTaskExists(s - {z});
      var x :| x in s - {z} && forall u :: u in s - {z} ==> u == x || TaskLess(x, u);
      assert s == (s - {z}) + {z};
      var m := if TaskLess(x, z) then x else z;
      assert m in s && forall u :: u in s ==> u == m || TaskLess(m, u);
    }
  }

  /** The order in which a set of tasks is walked through. */
  ghost function InOrder(s: set<Task>): (tasks: seq<Task>)
    ensures forall t :: t in tasks <==> t in s
    ensures forall i, j :: 0 <= i < j < |tasks| ==> TaskLess(tasks[i], tasks[j])
    decreases |s|
  {
    if s == {} then [] else [LeastTask(s)] + InOrder(s - {LeastTask(s)})
  }

  /** Rank 0 works off the overdue tasks. */
  ghost function RootKillAll(q: RankState, tasks: seq<Task>, due: int, ranks: seq<nat>): Effect
    decreases |tasks|
  {
    if tasks == [] then Effect(q, [])
    else
      match RootKill(q, tasks[0], due, ranks)
      case Exit => Exit
      case Effect(q', sent) => After(sent, RootKillAll(q', tasks[1..], due, ranks))
  }

  function After(sent: seq<NewTask>, e: Effect): Effect {
    match e
    case Exit => Exit
    case Effect(q, sent') => Effect(q, sent + sent')
  }

  /** Another rank kills them, too, and asks rank 0 to do so. */
  function RankKillAll(q: RankState, tasks: seq<Task>): RankState
    decreases |tasks|
  {
    if tasks == [] then q else RankKillAll(KillTask(q, tasks[0]), tasks[1..])
  }

  // ----- a NewTask message -------------------------------------------------

  function AllSubTasks(q: RankState): seq<SubTask> {
    q.scheduled + q.running + q.finished
  }

  /** A sub-task that is still around when its member is rescheduled betrays a killed runner. */
  function GiveUp(q: RankState, st: SubTask, state: int): RankState {
    if st.state == state && Task(state, st.runner) !in q.killed then
      StopRunner(q, st.runner).(unscheduled := q.unscheduled + {state},
                                killed := q.killed + {Task(state, st.runner)})
    else q
  }

  function GiveUpAll(q: RankState, sts: seq<SubTask>, state: int): RankState {
    if sts == [] then q
    else GiveUp(GiveUpAll(q, sts[..|sts| - 1], state), sts[|sts| - 1], state)
  }

  /** Clears the way for a rescheduled member. */
  function Supersede(q: RankState, state: int): RankState {
    GiveUpAll(q, AllSubTasks(q), state).(
      scheduled := WithoutMember(q.scheduled, state),
      running := WithoutMember(q.running, state),
      finished := WithoutMember(q.finished, state),
      holder := q.holder - {state})
  }

  function Max(a: int, b: int): int { if a >= b then a else b }

  function ReceiveTask(q: RankState, nt: NewTask, ranks: seq<nat>): RankState {
    Assign(Supersede(q.(highestReceived := Max(nt.id, q.highestReceived)), nt.state), nt, ranks)
  }

  /** The assertion in add_sub_tasks: the member has been unscheduled before. */
  predicate ReceiveAssertion(q: RankState, nt: NewTask) {
    nt.state in Supersede(q, nt.state).unscheduled
  }

  // ----- a message of a runner rank ----------------------------------------

  datatype DataMessage = DataMessage(runner: int, rank: nat, state: int, step: int)

  function RunningIndex(q: RankState, m: DataMessage): (i: nat)
    ensures i <= |q.running|
  {
    FirstIndex(q.running, (st: SubTask) => st.runner == m.runner && st.state == m.state && st.rank == m.rank)
  }

  function WaitingIndex(q: RankState, m: DataMessage): (i: nat)
    ensures i <= |q.scheduled|
  {
    FirstIndex(q.scheduled, (st: SubTask) => st.runner == m.runner && st.rank == m.rank)
  }

  /** The two assertions on an incoming state: it was asked for, and for this step. */
  predicate DataAssertions(q: RankState, m: DataMessage) {
    && (m.step == 0 || RunningIndex(q, m) < |q.running|)
    && (m.step == 0 || m.step == q.step)
  }

  function StoreData(q: RankState, m: DataMessage): RankState {
    var i := RunningIndex(q, m);
    var known := i < |q.running|;
    q.(running := if known then Remove(q.running, i) else q.running,
       finished := if known then q.finished + [q.running[i]] else q.finished,
       background := if m.step == q.step then q.background[(m.state, m.rank) := Origin(m.runner, m.step)]
                     else q.background)
  }

  /** The sender gets the next sub-task that waits for it, or its connection is kept. */
  function AnswerData(q: RankState, m: DataMessage): RankState {
    var i := WaitingIndex(q, m);
    if i < |q.scheduled| then
      q.(scheduled := Remove(q.scheduled, i),
         running := q.running + [q.scheduled[i]],
         orders := q.orders[(m.runner, m.rank) := Work(q.scheduled[i].state, q.step)],
         given := Give(q.given, m.runner, m.rank, q.scheduled[i].state))
    else
      q.(idle := SaveConnection(q.idle, m.runner, m.rank), orders := q.orders - {(m.runner, m.rank)})
  }

  function HandleData(q: RankState, m: DataMessage): RankState {
    if IsDead(q.killed, m.runner) then q.(orders := q.orders[(m.runner, m.rank) := Stop])
    else AnswerData(StoreData(q, m), m)
  }

  /** The connection has been kept, and it is the last one of its runner. */
  predicate BecomesIdle(q: RankState, m: DataMessage, connections: nat) {
    && !IsDead(q.killed, m.runner)
    && WaitingIndex(StoreData(q, m), m) == |StoreData(q, m).scheduled|
    && CompletelyIdle(HandleData(q, m).idle, m.runner, connections)
  }

  /** On rank 0 a runner that has become completely idle gets new work at once. */
  ghost function RootHandleData(q: RankState, m: DataMessage, due: int, ranks: seq<nat>): Effect {
    if BecomesIdle(q, m, |ranks|) then TrySchedule(HandleData(q, m), m.runner, due, ranks)
    else Effect(HandleData(q, m), [])
  }

  /** What fits the rank's orders: the answer to an order, or a first contact. */
  predicate IsExpected(q: RankState, m: DataMessage) {
    if (m.runner, m.rank) in q.orders then
      q.orders[(m.runner, m.rank)] == Work(m.state, m.step)
    else
      !HasConnection(q.idle, m.runner, m.rank) && m.state == -1 && m.step == 0
  }

  // ----- the end of a step -------------------------------------------------

  predicate WouldFinish(q: RankState, ensembleSize: nat, connections: nat) {
    && q.unscheduled == {}
    && q.scheduled == [] && q.running == []
    && |q.finished| == ensembleSize * connections
  }

  /** Rank 0 counts a report that is about its latest task. */
  function CountReport(q: RankState, id: int): RankState {
    if id == q.taskId then q.(finishedRanks := q.finishedRanks + 1) else q
  }

  function CountReports(q: RankState, ids: seq<int>): RankState {
    if ids == [] then q
    else CountReport(CountReports(q, ids[..|ids| - 1]), ids[|ids| - 1])
  }

  /** Another rank has something to report, once for each task it hears of. */
  predicate HasReport(q: RankState) {
    q.highestSent < q.highestReceived
  }

  function SendReport(q: RankState): RankState {
    q.(highestSent := q.highestReceived)
  }

  predicate NewStepAssertions(q: RankState, ensembleSize: nat, connections: nat) {
    && |q.finished| == ensembleSize * connections
    && q.scheduled == [] && q.running == []
    && q.unscheduled == {}
  }

  function Members(ensembleSize: nat): (s: set<int>)
    ensures forall i :: i in s <==> 0 <= i < ensembleSize
    ensures |s| == ensembleSize
  {
    if ensembleSize == 0 then {} else Members(ensembleSize - 1) + {ensembleSize - 1}
  }

  function NoFailures(ensembleSize: nat): seq<nat> {
    seq(ensembleSize, _ => 0)
  }

  function InitNewTimestep(q: RankState, ensembleSize: nat, nsteps: int): RankState {
    q.(finished := [],
       highestReceived := 0, highestSent := 0, taskId := 1,
       step := q.step + nsteps,
       unscheduled := Members(ensembleSize),
       failcount := NoFailures(ensembleSize),
       holder := map[],
       given := map[])
  }

  /** After the update rank 0 supplies all completely idle runners. */
  ghost function ScheduleIdle(q: RankState, due: int, ranks: seq<nat>): Effect
    decreases |q.unscheduled|
  {
    if CompletelyIdleRunners(q.idle, |ranks|) != {} && q.unscheduled != {} then
      var runner := Least(CompletelyIdleRunners(q.idle, |ranks|));
      var q' := ScheduleNewTask(q, runner, due, ranks);
      AssignFrame(q.(taskId := q.taskId + 1, finishedRanks := 0), ScheduledTask(q, runner, due), ranks);
      After([ScheduledTask(q, runner, due)], ScheduleIdle(q', due, ranks))
    else Effect(q, [])
  }

  /** Everything but the connections and the lists of unfinished sub-tasks. */
  ghost predicate SameLedger(q: RankState, q': RankState) {
    && q'.unscheduled == q.unscheduled && q'.holder == q.holder && q'.killed == q.killed
    && q'.finished == q.finished && q'.background == q.background && q'.step == q.step
    && q'.highestReceived == q.highestReceived && q'.highestSent == q.highestSent
    && q'.taskId == q.taskId && q'.finishedRanks == q.finishedRanks && q'.failcount == q.failcount
  }

  /** The member of a task is noted as no longer unscheduled, but held. */
  function Take(q: RankState, nt: NewTask): RankState {
    q.(unscheduled := q.unscheduled - {nt.state}, holder := q.holder[nt.state := Held(nt.runner, nt.due)])
  }

  lemma AssignFrame(q: RankState, nt: NewTask, ranks: seq<nat>)
    ensures SameLedger(Take(q, nt), Assign(q, nt, ranks))
    ensures nt.state in q.unscheduled ==> |Assign(q, nt, ranks).unscheduled| + 1 == |q.unscheduled|
  {
    AddSubTasksFrame(Take(q, nt), nt, ranks);
    if nt.state in q.unscheduled {
      assert q.unscheduled == (q.unscheduled - {nt.state}) + {nt.state};
    }
  }

  lemma {:induction false} AddSubTasksFrame(q: RankState, nt: NewTask, ranks: seq<nat>)
    ensures SameLedger(q, AddSubTasks(q, nt, ranks))
  {
    if ranks != [] {
      AddSubTasksFrame(q, nt, ranks[..|ranks| - 1]);
    }
  }
}
