/**
  What checking the due dates does, told by the lists and the time alone: the tasks that are
  killed are the late ones, all of them, and the others stay.
 */
module LateTasks {
  import opened TaskState
  import opened RankInvariant
  import opened ClusterProof

  /** The sub-tasks of a task on the two lists of unfinished ones. */
  ghost predicate IsListed(st: SubTask, scheduled: seq<SubTask>, running: seq<SubTask>) {
    st in scheduled || st in running
  }

  /** Killed is who has a sub-task that is late; late sub-tasks are gone afterwards; and sub-tasks of
      tasks with nothing late are where they were. */
  ghost predicate LateOnesKilled(now: int, scheduled: seq<SubTask>, running: seq<SubTask>, killed: set<Task>,
                                 scheduled': seq<SubTask>, running': seq<SubTask>, killed': set<Task>) {
    && killed <= killed'
    && (forall t :: t in killed' && t !in killed ==>
          exists st :: IsListed(st, scheduled, running) && now > st.due && t.state == st.state && t.runner == st.runner)
    && (forall st :: IsListed(st, scheduled, running) && now > st.due ==>
          Task(st.state, st.runner) in killed' && !IsListed(st, scheduled', running'))
    && (forall st :: IsListed(st, scheduled, running)
                     && (forall u :: IsListed(u, scheduled, running) && u.state == st.state && u.runner == st.runner ==>
                           now <= u.due) ==>
          (st in scheduled ==> st in scheduled') && (st in running ==> st in running'))
  }

  // ----- kills, one after the other ----------------------------------------

  function Named(st: SubTask): Task { Task(st.state, st.runner) }

  /** From q to q' these tasks have been killed, and idle runners may have got new ones. */
  ghost predicate Kills(q: RankState, q': RankState, gone: set<Task>) {
    && q'.killed == q.killed + gone
    && q'.idle.Keys <= q.idle.Keys && (forall t :: t in gone ==> t.runner !in q'.idle)
    && (forall st :: st in q.scheduled && Named(st) !in gone ==> st in q'.scheduled)
    && (forall st :: st in q.running && Named(st) !in gone ==> st in q'.running)
    && (forall st :: IsListed(st, q'.scheduled, q'.running) ==>
          Named(st) !in gone && (IsListed(st, q.scheduled, q.running) || st.runner in q.idle))
  }

  lemma KillsNobody(q: RankState)
    ensures Kills(q, q, {})
  {
  }

  lemma KillsInTurn(a: RankState, b: RankState, c: RankState, g: set<Task>, h: set<Task>)
    requires Kills(a, b, g) && Kills(b, c, h)
    ensures Kills(a, c, g + h)
  {
  }

  lemma KillTaskKills(q: RankState, t: Task)
    ensures Kills(q, KillTask(q, t), {t})
  {
    WithoutTaskMembers(q.scheduled, t);
    WithoutTaskMembers(q.running, t);
    assert forall st :: IsOf(st, t) <==> Named(st) == t;
  }

  /** A new task leaves the lists as they are, but for its own sub-tasks. */
  lemma {:induction false} AddSubTasksAdd(q: RankState, nt: NewTask, added: seq<nat>)
    ensures var q' := AddSubTasks(q, nt, added);
            && q'.idle.Keys <= q.idle.Keys && q'.killed == q.killed
            && (forall st :: st in q.scheduled ==> st in q'.scheduled)
            && (forall st :: st in q.running ==> st in q'.running)
            && (forall st :: IsListed(st, q'.scheduled, q'.running) ==>
                  IsListed(st, q.scheduled, q.running) || st.runner == nt.runner)
  {
    if added != [] {
      AddSubTasksAdd(q, nt, added[..|added| - 1]);
    }
  }

  lemma IssueKills(q: RankState, nt: NewTask, ranks: seq<nat>)
    requires nt.runner in q.idle
    ensures Kills(q, Issue(q, nt, ranks), {})
  {
    AddSubTasksAdd(Take(q.(taskId := nt.id, finishedRanks := 0), nt), nt, ranks);
  }

  lemma RescheduleKills(q: RankState, due: int, ranks: seq<nat>)
    ensures Kills(q, Reschedule(q, due, ranks).q, {})
  {
    if CompletelyIdleRunners(q.idle, |ranks|) != {} && q.unscheduled != {} {
      assert exists x :: x in q.idle.Keys;
      IssueKills(q, ScheduledTask(q, Least(q.idle.Keys), due), ranks);
    }
  }

  lemma RootKillKills(q: RankState, t: Task, due: int, ranks: seq<nat>)
    ensures RootKill(q, t, due, ranks).Effect? ==> Kills(q, RootKill(q, t, due, ranks).q, {t})
  {
    if !FailsTooOften(q, t.state) {
      KillTaskKills(q, t);
      assert Kills(q, Killed(q, t), {t});
      RescheduleKills(Killed(q, t), due, ranks);
      KillsInTurn(q, Killed(q, t), Reschedule(Killed(q, t), due, ranks).q, {t}, {});
      assert {t} + {} == {t};
    }
  }

  function TaskSet(tasks: seq<Task>): set<Task> {
    set t | t in tasks
  }

  lemma FirstAndRest(tasks: seq<Task>)
    requires tasks != []
    ensures TaskSet(tasks) == {tasks[0]} + TaskSet(tasks[1..])
  {
    assert tasks == [tasks[0]] + tasks[1..];
  }

  lemma {:induction false} RootKillAllKills(q: RankState, tasks: seq<Task>, due: int, ranks: seq<nat>)
    ensures RootKillAll(q, tasks, due, ranks).Effect? ==> Kills(q, RootKillAll(q, tasks, due, ranks).q, TaskSet(tasks))
    decreases |tasks|
  {
    if tasks == [] {
      KillsNobody(q);
    } else {
      var e := RootKill(q, tasks[0], due, ranks);
      RootKillKills(q, tasks[0], due, ranks);
      if e.Effect? {
        RootKillAllKills(e.q, tasks[1..], due, ranks);
        var e' := RootKillAll(e.q, tasks[1..], due, ranks);
        if e'.Effect? {
          FirstAndRest(tasks);
          KillsInTurn(q, e.q, e'.q, {tasks[0]}, TaskSet(tasks[1..]));
        }
      }
    }
  }

  lemma {:induction false} RankKillAllKills(q: RankState, tasks: seq<Task>)
    ensures Kills(q, RankKillAll(q, tasks), TaskSet(tasks))
    decreases |tasks|
  {
    if tasks == [] {
      KillsNobody(q);
    } else {
      KillTaskKills(q, tasks[0]);
      RankKillAllKills(KillTask(q, tasks[0]), tasks[1..]);
      FirstAndRest(tasks);
      KillsInTurn(q, KillTask(q, tasks[0]), RankKillAll(q, tasks), {tasks[0]}, TaskSet(tasks[1..]));
    }
  }

  // ----- the due dates -----------------------------------------------------

  lemma LateOnes(q: RankState, now: int, t: Task)
    ensures t in Overdue(q, now) <==>
            exists st :: IsListed(st, q.scheduled, q.running) && now > st.due
                         && t.state == st.state && t.runner == st.runner
  {
  }

  lemma KillsAreLate(q: RankState, q': RankState, now: int)
    requires Kills(q, q', Overdue(q, now))
    ensures LateOnesKilled(now, q.scheduled, q.running, q.killed, q'.scheduled, q'.running, q'.killed)
  {
    forall t ensures t in Overdue(q, now) <==>
                     exists st :: IsListed(st, q.scheduled, q.running) && now > st.due
                                  && t.state == st.state && t.runner == st.runner
    {
      LateOnes(q, now, t);
    }
    forall st | IsListed(st, q.scheduled, q.running) && now > st.due
      ensures Named(st) in Overdue(q, now)
    {
      LateOnes(q, now, Named(st));
    }
  }

  lemma RankKillsLateOnes(q: RankState, now: int)
    ensures var q' := RankKillAll(q, InOrder(Overdue(q, now)));
            LateOnesKilled(now, q.scheduled, q.running, q.killed, q'.scheduled, q'.running, q'.killed)
  {
    var tasks := InOrder(Overdue(q, now));
    RankKillAllKills(q, tasks);
    assert TaskSet(tasks) == Overdue(q, now);
    KillsAreLate(q, RankKillAll(q, tasks), now);
  }

  lemma RootKillsLateOnes(q: RankState, now: int, due: int, ranks: seq<nat>)
    ensures var e := RootKillAll(q, InOrder(Overdue(q, now)), due, ranks);
            e.Effect? ==>
              LateOnesKilled(now, q.scheduled, q.running, q.killed, e.q.scheduled, e.q.running, e.q.killed)
  {
    var tasks := InOrder(Overdue(q, now));
    RootKillAllKills(q, tasks, due, ranks);
    assert TaskSet(tasks) == Overdue(q, now);
    var e := RootKillAll(q, tasks, due, ranks);
    if e.Effect? {
      KillsAreLate(q, e.q, now);
    }
  }
}
