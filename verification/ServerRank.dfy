/**
  The handlers as they are: methods that change the lists, sets and counters of one server
  rank in place.  Each one is proved to do what its function in TaskState says.
 */
module ServerRanks {
  import opened Helpers
  import opened TaskState
  import opened LateTasks

  class ServerRank {
    const ensembleSize: nat
    const ranks: seq<nat>                 // the runner ranks this server rank is connected to
    var unscheduled: set<int>
    var scheduled: seq<SubTask>
    var running: seq<SubTask>
    var finished: seq<SubTask>
    var killed: set<Task>
    var idle: map<int, set<nat>>
    var orders: map<(int, nat), Order>
    var background: map<(int, nat), Origin>
    var step: int
    var highestReceived: int
    var highestSent: int
    var taskId: int
    var finishedRanks: int
    var failcount: seq<nat>
    ghost var holder: map<int, Held>
    ghost var given: map<(int, nat), seq<int>>

    ghost function View(): RankState
      reads this
    {
      RankState(unscheduled, scheduled, running, finished, killed, idle, orders, background, step,
                highestReceived, highestSent, taskId, finishedRanks, failcount, holder, given)
    }

    constructor (ensembleSize: nat, ranks: seq<nat>)
      ensures View() == RankState({}, [], [], [], {}, map[], map[], map[], 0, 0, 0, 1, -1, [], map[], map[])
      ensures this.ensembleSize == ensembleSize && this.ranks == ranks
    {
      this.ensembleSize, this.ranks := ensembleSize, ranks;
      unscheduled, scheduled, running, finished := {}, [], [], [];
      killed, idle, orders, background := {}, map[], map[], map[];
      step, highestReceived, highestSent, taskId, finishedRanks := 0, 0, 0, 1, -1;
      failcount, holder, given := [], map[], map[];
    }

    // ----- launching -------------------------------------------------------

    method TryLaunchSubTask(st: SubTask) returns (launched: bool)
      modifies this`idle, this`orders, this`given
      ensures launched == old(HasConnection(idle, st.runner, st.rank))
      ensures View() == if launched then
                          old(View()).(idle := TakeConnection(old(idle), st.runner, st.rank),
                                       orders := old(orders)[(st.runner, st.rank) := Work(st.state, step)],
                                       given := Give(old(given), st.runner, st.rank, st.state))
                        else old(View())
    {
      if st.runner !in idle { return false; }
      if st.rank !in idle[st.runner] { return false; }
      orders := orders[(st.runner, st.rank) := Work(st.state, step)];
      given := Give(given, st.runner, st.rank, st.state);
      var rest := idle[st.runner] - {st.rank};
      if rest == {} {
        idle := idle - {st.runner};
      } else {
        idle := idle[st.runner := rest];
      }
      return true;
    }

    method AddSubTask(st: SubTask)
      modifies this`idle, this`orders, this`given, this`running, this`scheduled
      ensures View() == TaskState.AddSubTask(old(View()), st)
    {
      var launched := TryLaunchSubTask(st);
      if launched {
        running := running + [st];
      } else {
        scheduled := scheduled + [st];
      }
    }

    method AddSubTasks(nt: NewTask)
      modifies this
      ensures View() == Assign(old(View()), nt, ranks)
    {
      unscheduled := unscheduled - {nt.state};
      holder := holder[nt.state := Held(nt.runner, nt.due)];
      ghost var q := View();
      for i := 0 to |ranks|
        invariant View() == TaskState.AddSubTasks(q, nt, ranks[..i])
      {
        assert ranks[..i + 1][..i] == ranks[..i];
        AddSubTask(SubTaskOf(nt, ranks[i]));
      }
      assert ranks[..|ranks|] == ranks;
    }

    /** The first of an ordered set. */
    static method First(s: set<int>) returns (x: int)
      requires s != {}
      ensures x == Least(s)
    {
      LeastExists(s);
      x :| x in s && forall y :: y in s ==> x <= y;
    }

    method ScheduleNewTask(runner: int, due: int) returns (sent: seq<NewTask>)
      modifies this
      ensures TrySchedule(old(View()), runner, due, ranks) == Effect(View(), sent)
      ensures sent == [] <==> old(unscheduled) == {}
      ensures sent != [] ==>
                && |sent| == 1 && sent[0].runner == runner && sent[0].due == due
                && sent[0].id == old(taskId) + 1 == taskId && finishedRanks == 0
                && sent[0].state in old(unscheduled) && unscheduled == old(unscheduled) - {sent[0].state}
                && forall s :: s in old(unscheduled) ==> sent[0].state <= s
    {
      if unscheduled == {} { return []; }
      taskId := taskId + 1;
      var state := First(unscheduled);
      var nt := NewTask(runner, state, due, taskId);
      finishedRanks := 0;
      AssignFrame(View(), nt, ranks);
      AddSubTasks(nt);
      return [nt];
    }

    // ----- killing ---------------------------------------------------------

    /** Dropping a runner tells all its waiting ranks to stop. */
    method DropRunner(runner: int)
      modifies this`idle, this`orders
      ensures View() == StopRunner(old(View()), runner)
    {
      if runner in idle {
        orders := orders + map p | p in idle[runner] :: (runner, p) := Stop;
        idle := idle - {runner};
      }
    }

    method KillTask(t: Task)
      modifies this
      ensures View() == TaskState.KillTask(old(View()), t)
    {
      DropRunner(t.runner);
      NoteKilled(t);
      DropSubTasks(t);
    }

    method NoteKilled(t: Task)
      modifies this`unscheduled, this`killed, this`holder
      ensures unscheduled == old(unscheduled) + {t.state}
      ensures killed == old(killed) + {t} && holder == old(holder) - {t.state}
    {
      unscheduled := unscheduled + {t.state};
      killed := killed + {t};
      holder := holder - {t.state};
    }

    method DropSubTasks(t: Task)
      modifies this`running, this`finished, this`scheduled
      ensures running == WithoutTask(old(running), t) && finished == WithoutTask(old(finished), t)
      ensures scheduled == WithoutTask(old(scheduled), t)
    {
      running := WithoutTask(running, t);
      finished := WithoutTask(finished, t);
      scheduled := WithoutTask(scheduled, t);
    }

    /** Counts a failure; the server gives up when a member fails once more than it may. */
    method FailState(state: int) returns (gaveUp: bool)
      modifies this`failcount
      ensures gaveUp == FailsTooOften(old(View()), state)
      ensures 0 <= state < |old(failcount)| ==> (gaveUp <==> old(failcount)[state] >= 5)
      ensures !gaveUp ==> View() == TaskState.FailState(old(View()), state)
    {
      if !(0 <= state < |failcount|) { return true; }
      failcount := failcount[state := failcount[state] + 1];
      gaveUp := failcount[state] > MAX_FAIL_COUNT;
    }

    /** Rank 0 kills a task and looks for a runner that could take over. */
    method KillAndReschedule(t: Task, due: int) returns (e: Option<seq<NewTask>>)
      modifies this
      ensures RootKill(old(View()), t, due, ranks) == if e.Some? then Effect(View(), e.value) else Exit
      ensures 0 <= t.state < |old(failcount)| ==> (e.None? <==> old(failcount)[t.state] >= 5)
      ensures t in killed && t.runner !in idle
    {
      RootKillKills(View(), t, due, ranks);
      KillTask(t);
      var gaveUp := FailState(t.state);
      if gaveUp { return None; }
      if CompletelyIdleRunners(idle, |ranks|) != {} {
        assert exists x :: x in idle.Keys;
        var runner := First(idle.Keys);
        var sent := ScheduleNewTask(runner, due);
        return Some(sent);
      }
      return Some([]);
    }

    /** Rank 0 has received a kill request. */
    method CheckKillRequest(t: Task, due: int) returns (e: Option<seq<NewTask>>)
      modifies this
      ensures RootKillRequest(old(View()), t, due, ranks) == if e.Some? then Effect(View(), e.value) else Exit
      ensures t in old(killed) ==> e == Some([]) && View() == old(View())
      ensures t !in old(killed) ==> t in killed && t.runner !in idle
    {
      if t in killed { return Some([]); }
      e := KillAndReschedule(t, due);
    }

    // ----- due dates -------------------------------------------------------

    static method Overdue(sts: seq<SubTask>, now: int) returns (tasks: set<Task>)
      ensures tasks == TasksOf(sts, now)
    {
      tasks := {};
      for i := 0 to |sts|
        invariant tasks == TasksOf(sts[..i], now)
      {
        assert sts[..i + 1] == sts[..i] + [sts[i]];
        if now > sts[i].due {
          tasks := tasks + {Task(sts[i].state, sts[i].runner)};
        }
      }
      assert sts[..|sts|] == sts;
    }

    /** The tasks that are late, in the order of the set they are collected in. */
    method OverdueTasks(now: int) returns (tasks: seq<Task>)
      ensures tasks == InOrder(TaskState.Overdue(View(), now))
      ensures forall t :: t in tasks <==>
                exists st :: IsListed(st, scheduled, running) && now > st.due
                             && t.state == st.state && t.runner == st.runner
    {
      forall t ensures t in TaskState.Overdue(View(), now) <==>
                         exists st :: IsListed(st, scheduled, running) && now > st.due
                                      && t.state == st.state && t.runner == st.runner {
        LateOnes(View(), now, t);
      }
      var late := Overdue(scheduled, now);
      var stuck := Overdue(running, now);
      tasks := Walk(late + stuck);
    }

    static method Walk(all: set<Task>) returns (tasks: seq<Task>)
      ensures tasks == InOrder(all)
    {
      tasks := [];
      var rest := all;
      while rest != {}
        invariant tasks + InOrder(rest) == InOrder(all)
        decreases |rest|
      {
        var t := FirstTask(rest);
        WalkOne(tasks, t, rest);
        tasks, rest := tasks + [t], rest - {t};
      }
    }

    static method FirstTask(tasks: set<Task>) returns (t: Task)
      requires tasks != {}
      ensures t == LeastTask(tasks)
    {
      LeastTaskExists(tasks);
      t :| t in tasks && forall u :: u in tasks ==> u == t || TaskLess(t, u);
    }

    static lemma WalkOne(done: seq<Task>, t: Task, rest: set<Task>)
      requires rest != {} && t == LeastTask(rest)
      ensures done + InOrder(rest) == done + [t] + InOrder(rest - {t})
    {
      assert done + ([t] + InOrder(rest - {t})) == done + [t] + InOrder(rest - {t});
    }

    /** On rank 0. */
    method CheckDueDatesRoot(now: int, due: int) returns (e: Option<seq<NewTask>>)
      modifies this
      ensures RootKillAll(old(View()), InOrder(TaskState.Overdue(old(View()), now)), due, ranks)
              == if e.Some? then Effect(View(), e.value) else Exit
      ensures e.Some? ==>
                LateOnesKilled(now, old(scheduled), old(running), old(killed), scheduled, running, killed)
    {
      RootKillsLateOnes(View(), now, due, ranks);
      var toKill := OverdueTasks(now);
      e := KillEach(toKill, due);
    }

    method KillEach(toKill: seq<Task>, due: int) returns (e: Option<seq<NewTask>>)
      modifies this
      ensures RootKillAll(old(View()), toKill, due, ranks) == if e.Some? then Effect(View(), e.value) else Exit
    {
      var sent := [];
      ghost var whole := RootKillAll(View(), toKill, due, ranks);
      for i := 0 to |toKill|
        invariant whole == After(sent, RootKillAll(View(), toKill[i..], due, ranks))
      {
        ghost var q := View();
        e := KillAndReschedule(toKill[i], due);
        NextKilled(sent, q, toKill, i, if e.Some? then Effect(View(), e.value) else Exit, due, ranks);
        if e.None? { return; }
        sent := sent + e.value;
      }
      e := Some(sent);
    }

    /** One round of the loop: a task is killed, then the rest. */
    static lemma NextKilled(sent: seq<NewTask>, q: RankState, tasks: seq<Task>, i: nat, e: Effect,
                            due: int, ranks: seq<nat>)
      requires i < |tasks| && e == RootKill(q, tasks[i], due, ranks)
      ensures After(sent, RootKillAll(q, tasks[i..], due, ranks))
              == if e.Exit? then Exit else After(sent + e.sent, RootKillAll(e.q, tasks[i + 1..], due, ranks))
    {
      assert tasks[i..][1..] == tasks[i + 1..];
      if e.Effect? {
        AfterTwice(sent, e.sent, RootKillAll(e.q, tasks[i + 1..], due, ranks));
      }
    }

    static lemma AfterTwice(a: seq<NewTask>, b: seq<NewTask>, e: Effect)
      ensures After(a, After(b, e)) == After(a + b, e)
    {
      if e.Effect? {
        assert a + (b + e.sent) == a + b + e.sent;
      }
    }

    /** On the other ranks: the tasks that have been killed are also asked to be killed by rank 0. */
    method CheckDueDates(now: int) returns (requests: seq<Task>)
      modifies this
      ensures requests == InOrder(TaskState.Overdue(old(View()), now))
      ensures View() == RankKillAll(old(View()), requests)
      ensures LateOnesKilled(now, old(scheduled), old(running), old(killed), scheduled, running, killed)
      ensures forall t :: t in requests <==>
                exists st :: IsListed(st, old(scheduled), old(running)) && now > st.due
                             && t.state == st.state && t.runner == st.runner
    {
      RankKillsLateOnes(View(), now);
      var toKill := OverdueTasks(now);
      requests := AskForEach(toKill);
    }

    method AskForEach(toKill: seq<Task>) returns (requests: seq<Task>)
      modifies this
      ensures requests == toKill && View() == RankKillAll(old(View()), toKill)
    {
      requests := [];
      ghost var last := RankKillAll(View(), toKill);
      for i := 0 to |toKill|
        invariant requests == toKill[..i]
        invariant last == RankKillAll(View(), toKill[i..])
      {
        NextAsked(View(), toKill, i);
        KillTask(toKill[i]);
        requests := requests + [toKill[i]];
      }
    }

    static lemma NextAsked(q: RankState, tasks: seq<Task>, i: nat)
      requires i < |tasks|
      ensures tasks[..i + 1] == tasks[..i] + [tasks[i]]
      ensures RankKillAll(q, tasks[i..]) == RankKillAll(TaskState.KillTask(q, tasks[i]), tasks[i + 1..])
    {
      assert tasks[i..][1..] == tasks[i + 1..];
    }

    // ----- a NewTask message -----------------------------------------------

    method GiveUpRunner(st: SubTask, state: int)
      modifies this`unscheduled, this`killed, this`idle, this`orders
      ensures View() == GiveUp(old(View()), st, state)
    {
      if st.state == state && Task(state, st.runner) !in killed {
        killed := killed + {Task(state, st.runner)};
        unscheduled := unscheduled + {state};
        DropRunner(st.runner);
      }
    }

    /** Drops the sub-tasks of a member, giving up the runners they were on. */
    method RemoveRescheduled(sts: seq<SubTask>, state: int) returns (rest: seq<SubTask>)
      modifies this`unscheduled, this`killed, this`idle, this`orders
      ensures View() == GiveUpAll(old(View()), sts, state)
      ensures rest == WithoutMember(sts, state)
    {
      rest := [];
      for i := 0 to |sts|
        invariant View() == GiveUpAll(old(View()), sts[..i], state)
        invariant rest == WithoutMember(sts[..i], state)
      {
        assert sts[..i + 1][..i] == sts[..i];
        GiveUpRunner(sts[i], state);
        if sts[i].state != state {
          rest := rest + [sts[i]];
        }
      }
      assert sts[..|sts|] == sts;
    }

    /** The three lists in turn. */
    method GiveUpRunners(state: int) returns (waiting: seq<SubTask>, busy: seq<SubTask>, over: seq<SubTask>)
      modifies this`unscheduled, this`killed, this`idle, this`orders
      ensures View() == GiveUpAll(old(View()), AllSubTasks(old(View())), state)
      ensures waiting == WithoutMember(scheduled, state)
      ensures busy == WithoutMember(running, state) && over == WithoutMember(finished, state)
    {
      ghost var q := View();
      waiting := RemoveRescheduled(scheduled, state);
      busy := RemoveRescheduled(running, state);
      over := RemoveRescheduled(finished, state);
      GiveUpInTurn(q, scheduled, running, state);
      GiveUpInTurn(q, scheduled + running, finished, state);
    }

    method ClearMember(state: int)
      modifies this
      ensures View() == Supersede(old(View()), state)
    {
      ghost var q := View();
      var waiting, busy, over := GiveUpRunners(state);
      GiveUpKeepsLists(q, AllSubTasks(q), state);
      scheduled, running, finished := waiting, busy, over;
      holder := holder - {state};
    }

    method CheckScheduleNewTasks(nt: NewTask)
      modifies this
      ensures View() == ReceiveTask(old(View()), nt, ranks)
    {
      highestReceived := Max(nt.id, highestReceived);
      ClearMember(nt.state);
      AddSubTasks(nt);
    }

    static lemma {:induction false} GiveUpInTurn(q: RankState, a: seq<SubTask>, b: seq<SubTask>, state: int)
      ensures GiveUpAll(q, a + b, state) == GiveUpAll(GiveUpAll(q, a, state), b, state)
      ensures var q' := GiveUpAll(q, a, state);
              q'.scheduled == q.scheduled && q'.running == q.running && q'.finished == q.finished
              && q'.holder == q.holder
    {
      GiveUpKeepsLists(q, a, state);
      if b == [] {
        assert a + b == a;
      } else {
        var n := |b| - 1;
        GiveUpInTurn(q, a, b[..n], state);
        assert (a + b)[..|a + b| - 1] == a + b[..n];
      }
    }

    static lemma {:induction false} GiveUpKeepsLists(q: RankState, a: seq<SubTask>, state: int)
      ensures var q' := GiveUpAll(q, a, state);
              q'.scheduled == q.scheduled && q'.running == q.running && q'.finished == q.finished
              && q'.holder == q.holder
    {
      if a != [] {
        GiveUpKeepsLists(q, a[..|a| - 1], state);
      }
    }

    // ----- a message of a runner rank --------------------------------------

    /** std::find_if */
    static method Find(sts: seq<SubTask>, p: SubTask -> bool) returns (i: nat)
      ensures i == FirstIndex(sts, p)
    {
      i := 0;
      while i < |sts| && !p(sts[i])
        invariant i <= |sts| && forall j :: 0 <= j < i ==> !p(sts[j])
      {
        i := i + 1;
      }
    }

    /** The sub-task has finished, and its result is kept. */
    method StoreState(m: DataMessage)
      modifies this`running, this`finished, this`background
      ensures View() == StoreData(old(View()), m)
    {
      var i := Find(running, (st: SubTask) => st.runner == m.runner && st.state == m.state && st.rank == m.rank);
      if i < |running| {
        finished := finished + [running[i]];
        running := Remove(running, i);
      }
      if m.step == step {
        background := background[(m.state, m.rank) := Origin(m.runner, m.step)];
      }
    }

    /** The runner rank gets more work, or it waits; `kept` tells that the connection has been saved. */
    method AnswerState(m: DataMessage) returns (kept: bool)
      modifies this`scheduled, this`running, this`orders, this`idle, this`given
      ensures View() == AnswerData(old(View()), m)
      ensures kept == (WaitingIndex(old(View()), m) == |old(scheduled)|)
    {
      var i := Find(scheduled, (st: SubTask) => st.runner == m.runner && st.rank == m.rank);
      kept := i == |scheduled|;
      if kept {
        idle := SaveConnection(idle, m.runner, m.rank);
        orders := orders - {(m.runner, m.rank)};
      } else {
        LaunchWaiting(m.runner, m.rank, i);
      }
    }

    /** The sub-task leaves the list and is answered to the runner rank. */
    method LaunchWaiting(runner: int, rank: nat, i: nat)
      requires i < |scheduled|
      modifies this`scheduled, this`running, this`orders, this`given
      ensures scheduled == Remove(old(scheduled), i) && running == old(running) + [old(scheduled)[i]]
      ensures orders == old(orders)[(runner, rank) := Work(old(scheduled)[i].state, step)]
      ensures given == Give(old(given), runner, rank, old(scheduled)[i].state)
    {
      orders := orders[(runner, rank) := Work(scheduled[i].state, step)];
      given := Give(given, runner, rank, scheduled[i].state);
      running := running + [scheduled[i]];
      scheduled := Remove(scheduled, i);
    }

    method HandleDataResponse(m: DataMessage) returns (kept: bool)
      modifies this
      ensures View() == HandleData(old(View()), m)
      ensures (exists t :: t in old(killed) && t.runner == m.runner) ==>
                && orders == old(orders)[(m.runner, m.rank) := Stop] && idle == old(idle)
                && running == old(running) && finished == old(finished) && background == old(background)
      ensures (forall t :: t in old(killed) ==> t.runner != m.runner) ==>
                background == if m.step == step then old(background)[(m.state, m.rank) := Origin(m.runner, m.step)]
                              else old(background)
      ensures kept == (!IsDead(old(killed), m.runner)
                       && WaitingIndex(StoreData(old(View()), m), m) == |StoreData(old(View()), m).scheduled|)
    {
      if IsDead(killed, m.runner) {
        orders := orders[(m.runner, m.rank) := Stop];
        return false;
      }
      StoreState(m);
      kept := AnswerState(m);
    }

    method HandleDataResponseRoot(m: DataMessage, due: int) returns (sent: seq<NewTask>)
      modifies this
      ensures RootHandleData(old(View()), m, due, ranks) == Effect(View(), sent)
    {
      var kept := HandleDataResponse(m);
      if kept && m.runner in idle && |idle[m.runner]| == |ranks| {
        sent := ScheduleNewTask(m.runner, due);
      } else {
        sent := [];
      }
    }

    // ----- the end of a step -----------------------------------------------

    predicate WouldFinish(): (would: bool)
      reads this
      ensures would == TaskState.WouldFinish(View(), ensembleSize, |ranks|)
    {
      && unscheduled == {}
      && scheduled == [] && running == []
      && |finished| == ensembleSize * |ranks|
    }

    /** On rank 0: `reports` are the reports that have come in, at most one from each other rank. */
    method CheckFinishedRoot(reports: seq<int>, others: nat) returns (done: bool)
      modifies this`finishedRanks
      ensures View() == if WouldFinish() then CountReports(old(View()), reports) else old(View())
      ensures finishedRanks == old(finishedRanks) + if WouldFinish() then multiset(reports)[taskId] else 0
      ensures done == (WouldFinish() && finishedRanks == others)
    {
      if !WouldFinish() { return false; }
      ReportsAreCounted(View(), reports);
      for i := 0 to |reports|
        invariant View() == CountReports(old(View()), reports[..i])
      {
        assert reports[..i + 1][..i] == reports[..i];
        if reports[i] == taskId {
          finishedRanks := finishedRanks + 1;
        }
      }
      assert reports[..|reports|] == reports;
      done := finishedRanks == others;
    }

    static lemma {:induction false} ReportsAreCounted(q: RankState, ids: seq<int>)
      ensures CountReports(q, ids) == q.(finishedRanks := q.finishedRanks + multiset(ids)[q.taskId])
    {
      if ids != [] {
        ReportsAreCounted(q, ids[..|ids| - 1]);
        assert ids == ids[..|ids| - 1] + [ids[|ids| - 1]];
      }
    }

    /** On the other ranks: tells rank 0 the latest task once, and listens to its announcement. */
    method CheckFinished(announced: bool) returns (report: Option<int>, done: bool)
      modifies this`highestSent
      ensures report.Some? <==> WouldFinish() && HasReport(old(View()))
      ensures report.Some? ==> report.value == highestReceived && View() == SendReport(old(View()))
      ensures report.None? ==> View() == old(View())
      ensures done == (WouldFinish() && announced)
    {
      report := None;
      if !WouldFinish() { return report, false; }
      if highestSent < highestReceived {
        report := Some(highestReceived);
        highestSent := highestReceived;
      }
      done := announced;
    }

    method InsertMembers()
      modifies this`unscheduled
      ensures unscheduled == Members(ensembleSize)
    {
      unscheduled := {};
      for i := 0 to ensembleSize
        invariant unscheduled == Members(i)
      {
        unscheduled := unscheduled + {i};
      }
    }

    method ResetIds()
      modifies this`highestReceived, this`highestSent, this`taskId
      ensures highestReceived == highestSent == 0 && taskId == 1
    {
      highestReceived, highestSent := 0, 0;
      taskId := 1;
    }

    method InitNewTimestep(nsteps: int)
      modifies this
      ensures View() == TaskState.InitNewTimestep(old(View()), ensembleSize, nsteps)
    {
      ghost var q := View();
      ResetIds();
      InsertMembers();
      ghost var q1 := View();
      assert q1 == q.(highestReceived := 0, highestSent := 0, taskId := 1, unscheduled := Members(ensembleSize));
      finished, holder, given := [], map[], map[];
      step := step + nsteps;
      failcount := NoFailures(ensembleSize);
      assert View() == q1.(finished := [], step := q1.step + nsteps, failcount := NoFailures(ensembleSize),
                             holder := map[], given := map[]);
    }

    /** Rank 0 after the update step. */
    method ScheduleIdleRunners(due: int) returns (sent: seq<NewTask>)
      modifies this
      ensures ScheduleIdle(old(View()), due, ranks) == Effect(View(), sent)
    {
      sent := [];
      ghost var q := View();
      var ready := CompletelyIdleRunners(idle, |ranks|);
      while ready != {} && unscheduled != {}
        invariant ready == CompletelyIdleRunners(idle, |ranks|)
        invariant ScheduleIdle(q, due, ranks) == After(sent, ScheduleIdle(View(), due, ranks))
        decreases |unscheduled|
      {
        var runner := First(ready);
        ghost var nt := ScheduledTask(View(), runner, due);
        AssignFrame(View().(taskId := nt.id, finishedRanks := 0), nt, ranks);
        var more := ScheduleNewTask(runner, due);
        AfterTwice(sent, more, ScheduleIdle(View(), due, ranks));
        sent := sent + more;
        ready := CompletelyIdleRunners(idle, |ranks|);
      }
    }
  }
}
