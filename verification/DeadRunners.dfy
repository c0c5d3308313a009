/**
  A runner that a server rank has killed never gets work from that rank again.
 */
module DeadRunners {
  import opened TaskState
  import opened RankInvariant
  import opened ServerCluster
  import opened ClusterProof
  import opened ServerTheorems

  ghost predicate NoDeadIdle(q: RankState) {
    forall x :: x in q.idle ==> !IsDead(q.killed, x)
  }

  /** A connection of this runner that has work in q' has had it in q already. */
  ghost predicate NoNewWork(q: RankState, q': RankState, x: int) {
    forall p :: (x, p) in q'.orders && q'.orders[(x, p)].Work? ==>
      (x, p) in q.orders && q.orders[(x, p)] == q'.orders[(x, p)]
  }

  /** What is dead stays dead and gets no work. */
  ghost predicate SparesDead(q: RankState, q': RankState) {
    && q.killed <= q'.killed
    && forall x :: IsDead(q.killed, x) ==> NoNewWork(q, q', x)
  }

  ghost predicate Safe(q: RankState, q': RankState) {
    NoDeadIdle(q) ==> NoDeadIdle(q') && SparesDead(q, q')
  }

  ghost predicate SafeEffect(q: RankState, e: Effect) {
    e.Effect? ==> Safe(q, e.q)
  }

  lemma SafeTwice(a: RankState, b: RankState, c: RankState)
    requires Safe(a, b) && Safe(b, c)
    ensures Safe(a, c)
  {
    if NoDeadIdle(a) {
      forall x | IsDead(a.killed, x) ensures NoNewWork(a, c, x) {
        var t :| t in a.killed && t.runner == x;
        assert t in b.killed;
        assert IsDead(b.killed, x);
      }
    }
  }

  /** Nothing about connections changes. */
  lemma SafeSame(q: RankState, q': RankState)
    requires q'.idle == q.idle && q'.killed == q.killed && q'.orders == q.orders
    ensures Safe(q, q')
  {
  }

  lemma AddSubTaskSafe(q: RankState, st: SubTask)
    ensures Safe(q, AddSubTask(q, st))
  {
  }

  lemma {:induction false} AddSubTasksSafe(q: RankState, nt: NewTask, ranks: seq<nat>)
    ensures Safe(q, AddSubTasks(q, nt, ranks))
  {
    if ranks != [] {
      var n := |ranks| - 1;
      var q1 := AddSubTasks(q, nt, ranks[..n]);
      AddSubTasksSafe(q, nt, ranks[..n]);
      AddSubTaskSafe(q1, SubTaskOf(nt, ranks[n]));
      SafeTwice(q, q1, AddSubTask(q1, SubTaskOf(nt, ranks[n])));
    }
  }

  lemma AssignSafe(q: RankState, nt: NewTask, ranks: seq<nat>)
    ensures Safe(q, Assign(q, nt, ranks))
  {
    SafeSame(q, Take(q, nt));
    AddSubTasksSafe(Take(q, nt), nt, ranks);
    SafeTwice(q, Take(q, nt), Assign(q, nt, ranks));
  }

  lemma IssueSafe(q: RankState, nt: NewTask, ranks: seq<nat>)
    ensures Safe(q, Issue(q, nt, ranks))
  {
    var q1 := q.(taskId := nt.id, finishedRanks := 0);
    SafeSame(q, q1);
    AssignSafe(q1, nt, ranks);
    SafeTwice(q, q1, Issue(q, nt, ranks));
  }

  lemma TryScheduleSafe(q: RankState, runner: int, due: int, ranks: seq<nat>)
    ensures SafeEffect(q, TrySchedule(q, runner, due, ranks))
  {
    if q.unscheduled == {} {
      SafeSame(q, q);
    } else {
      IssueSafe(q, ScheduledTask(q, runner, due), ranks);
    }
  }

  lemma RescheduleSafe(q: RankState, due: int, ranks: seq<nat>)
    ensures SafeEffect(q, Reschedule(q, due, ranks))
  {
    if CompletelyIdleRunners(q.idle, |ranks|) != {} {
      assert exists x :: x in q.idle.Keys;
      TryScheduleSafe(q, Least(q.idle.Keys), due, ranks);
    } else {
      SafeSame(q, q);
    }
  }

  /** Giving up a runner. */
  lemma StopSafe(q: RankState, q': RankState, t: Task)
    requires q'.killed == q.killed + {t}
    requires q'.idle == StopRunner(q, t.runner).idle && q'.orders == StopRunner(q, t.runner).orders
    ensures Safe(q, q')
  {
    assert forall x :: IsDead(q'.killed, x) ==> IsDead(q.killed, x) || x == t.runner;
  }

  lemma KillSafe(q: RankState, t: Task)
    ensures Safe(q, KillTask(q, t))
  {
    StopSafe(q, KillTask(q, t), t);
  }

  lemma RootKillSafe(q: RankState, t: Task, due: int, ranks: seq<nat>)
    ensures SafeEffect(q, RootKill(q, t, due, ranks))
  {
    if !FailsTooOften(q, t.state) {
      KillFrame(q, t);
      KillSafe(q, t);
      SafeSame(KillTask(q, t), Killed(q, t));
      SafeTwice(q, KillTask(q, t), Killed(q, t));
      RescheduleSafe(Killed(q, t), due, ranks);
      SafeTwice(q, Killed(q, t), Reschedule(Killed(q, t), due, ranks).q);
    }
  }

  lemma {:induction false} RootKillAllSafe(q: RankState, tasks: seq<Task>, due: int, ranks: seq<nat>)
    ensures SafeEffect(q, RootKillAll(q, tasks, due, ranks))
    decreases |tasks|
  {
    if tasks == [] {
      SafeSame(q, q);
    } else {
      RootKillSafe(q, tasks[0], due, ranks);
      var e := RootKill(q, tasks[0], due, ranks);
      if e.Effect? {
        RootKillAllSafe(e.q, tasks[1..], due, ranks);
        var e' := RootKillAll(e.q, tasks[1..], due, ranks);
        if e'.Effect? {
          SafeTwice(q, e.q, e'.q);
        }
      }
    }
  }

  lemma {:induction false} RankKillAllSafe(q: RankState, tasks: seq<Task>)
    ensures Safe(q, RankKillAll(q, tasks))
    decreases |tasks|
  {
    if tasks == [] {
      SafeSame(q, q);
    } else {
      KillSafe(q, tasks[0]);
      RankKillAllSafe(KillTask(q, tasks[0]), tasks[1..]);
      SafeTwice(q, KillTask(q, tasks[0]), RankKillAll(q, tasks));
    }
  }

  lemma {:induction false} GiveUpAllSafe(q: RankState, sts: seq<SubTask>, s: int)
    ensures Safe(q, GiveUpAll(q, sts, s))
  {
    if sts == [] {
      SafeSame(q, q);
    } else {
      var n := |sts| - 1;
      var q1 := GiveUpAll(q, sts[..n], s);
      GiveUpAllSafe(q, sts[..n], s);
      GiveUpSafe(q1, sts[n], s);
      SafeTwice(q, q1, GiveUp(q1, sts[n], s));
    }
  }

  lemma GiveUpSafe(q: RankState, st: SubTask, s: int)
    ensures Safe(q, GiveUp(q, st, s))
  {
    if st.state == s && Task(s, st.runner) !in q.killed {
      StopSafe(q, GiveUp(q, st, s), Task(s, st.runner));
    } else {
      SafeSame(q, q);
    }
  }

  lemma ReceiveSafe(q: RankState, nt: NewTask, ranks: seq<nat>)
    ensures Safe(q, ReceiveTask(q, nt, ranks))
  {
    var q1 := q.(highestReceived := Max(nt.id, q.highestReceived));
    var q2 := GiveUpAll(q1, AllSubTasks(q1), nt.state);
    var q3 := Supersede(q1, nt.state);
    SafeSame(q, q1);
    GiveUpAllSafe(q1, AllSubTasks(q1), nt.state);
    SafeTwice(q, q1, q2);
    SafeSame(q2, q3);
    SafeTwice(q, q2, q3);
    AssignSafe(q3, nt, ranks);
    SafeTwice(q, q3, ReceiveTask(q, nt, ranks));
  }

  lemma AnswerSafe(q: RankState, m: DataMessage)
    requires !IsDead(q.killed, m.runner)
    ensures Safe(q, AnswerData(q, m))
  {
  }

  lemma HandleDataSafe(q: RankState, m: DataMessage)
    ensures Safe(q, HandleData(q, m))
  {
    if !IsDead(q.killed, m.runner) {
      StoreFrame(q, m);
      SafeSame(q, StoreData(q, m));
      AnswerSafe(StoreData(q, m), m);
      SafeTwice(q, StoreData(q, m), HandleData(q, m));
    }
  }

  lemma RootDataSafe(q: RankState, m: DataMessage, due: int, ranks: seq<nat>)
    ensures SafeEffect(q, RootHandleData(q, m, due, ranks))
  {
    HandleDataSafe(q, m);
    if BecomesIdle(q, m, |ranks|) {
      TryScheduleSafe(HandleData(q, m), m.runner, due, ranks);
      SafeTwice(q, HandleData(q, m), TrySchedule(HandleData(q, m), m.runner, due, ranks).q);
    }
  }

  lemma {:induction false} ScheduleIdleSafe(q: RankState, due: int, ranks: seq<nat>)
    ensures SafeEffect(q, ScheduleIdle(q, due, ranks))
    decreases |q.unscheduled|
  {
    if CompletelyIdleRunners(q.idle, |ranks|) != {} && q.unscheduled != {} {
      var nt := ScheduledTask(q, Least(CompletelyIdleRunners(q.idle, |ranks|)), due);
      ScheduleOneSafe(q, nt, due, ranks);
    } else {
      SafeSame(q, q);
    }
  }

  lemma ScheduleOneSafe(q: RankState, nt: NewTask, due: int, ranks: seq<nat>)
    requires nt.state in q.unscheduled
    ensures SafeEffect(q, After([nt], ScheduleIdle(Issue(q, nt, ranks), due, ranks)))
    decreases |q.unscheduled|, 0
  {
    IssueSafe(q, nt, ranks);
    AssignFrame(q.(taskId := nt.id, finishedRanks := 0), nt, ranks);
    ScheduleIdleSafe(Issue(q, nt, ranks), due, ranks);
    var e := ScheduleIdle(Issue(q, nt, ranks), due, ranks);
    if e.Effect? {
      SafeTwice(q, Issue(q, nt, ranks), e.q);
    }
  }

  lemma NewStepSafe(q: RankState, ensembleSize: nat, nsteps: int, due: int, ranks: seq<nat>)
    ensures Safe(q, InitNewTimestep(q, ensembleSize, nsteps))
    ensures SafeEffect(q, ScheduleIdle(InitNewTimestep(q, ensembleSize, nsteps), due, ranks))
  {
    var q1 := InitNewTimestep(q, ensembleSize, nsteps);
    SafeSame(q, q1);
    ScheduleIdleSafe(q1, due, ranks);
    if ScheduleIdle(q1, due, ranks).Effect? {
      SafeTwice(q, q1, ScheduleIdle(q1, due, ranks).q);
    }
  }

  lemma KillRequestSafe(q: RankState, t: Task, due: int, ranks: seq<nat>)
    ensures SafeEffect(q, RootKillRequest(q, t, due, ranks))
  {
    SafeSame(q, q);
    RootKillSafe(q, t, due, ranks);
  }

  lemma StepSafe(cfg: Config, c: Cluster, e: Event, r: nat)
    requires WellFormed(cfg, c) && r < |c.ranks| && Step(cfg, c, e).Next?
    ensures Safe(c.ranks[r], Step(cfg, c, e).c.ranks[r])
  {
    var q, q' := c.ranks[r], Step(cfg, c, e).c.ranks[r];
    SafeSame(q, q);
    match e
    case Data(_, _, _, _) => DataSafe(cfg, c, e, r);
    case DueDates(_, _, _) => DueDatesSafe(cfg, c, e, r);
    case KillRequest(_, _) => RequestSafe(cfg, c, e, r);
    case TaskArrival(_) => ArrivalSafe(cfg, c, e, r);
    case Update(_, _) => UpdateSafe(cfg, c, e, r);
    case _ => SafeSame(q, q');
  }

  lemma RequestSafe(cfg: Config, c: Cluster, e: Event, r: nat)
    requires WellFormed(cfg, c) && r < |c.ranks| && e.KillRequest? && Step(cfg, c, e).Next?
    ensures Safe(c.ranks[r], Step(cfg, c, e).c.ranks[r])
  {
    SafeSame(c.ranks[r], c.ranks[r]);
    if e.from < |c.kills| && c.kills[e.from] != [] {
      KillRequestSafe(c.ranks[r], c.kills[e.from][0], e.due, cfg.ranks[0]);
    }
  }

  lemma ArrivalSafe(cfg: Config, c: Cluster, e: Event, r: nat)
    requires WellFormed(cfg, c) && r < |c.ranks| && e.TaskArrival? && Step(cfg, c, e).Next?
    ensures Safe(c.ranks[r], Step(cfg, c, e).c.ranks[r])
  {
    SafeSame(c.ranks[r], c.ranks[r]);
    if c.newTasks[r] != [] {
      ReceiveSafe(c.ranks[r], c.newTasks[r][0], cfg.ranks[r]);
    }
  }

  lemma UpdateSafe(cfg: Config, c: Cluster, e: Event, r: nat)
    requires WellFormed(cfg, c) && r < |c.ranks| && e.Update? && Step(cfg, c, e).Next?
    ensures Safe(c.ranks[r], Step(cfg, c, e).c.ranks[r])
  {
    SafeSame(c.ranks[r], c.ranks[r]);
    NewStepSafe(c.ranks[r], cfg.ensembleSize, e.nsteps, e.due, cfg.ranks[0]);
  }

  lemma DataSafe(cfg: Config, c: Cluster, e: Event, r: nat)
    requires WellFormed(cfg, c) && r < |c.ranks| && e.Data? && Step(cfg, c, e).Next?
    ensures Safe(c.ranks[r], Step(cfg, c, e).c.ranks[r])
  {
    SafeSame(c.ranks[r], c.ranks[r]);
    if (e.runner, e.rank) in c.runners {
      HandleDataSafe(c.ranks[r], MessageOf(c, e.runner, e.rank));
      RootDataSafe(c.ranks[r], MessageOf(c, e.runner, e.rank), e.due, cfg.ranks[0]);
    }
  }

  lemma DueDatesSafe(cfg: Config, c: Cluster, e: Event, r: nat)
    requires WellFormed(cfg, c) && r < |c.ranks| && e.DueDates? && Step(cfg, c, e).Next?
    ensures Safe(c.ranks[r], Step(cfg, c, e).c.ranks[r])
  {
    var q := c.ranks[r];
    SafeSame(q, q);
    RankKillAllSafe(q, InOrder(Overdue(q, e.now)));
    RootKillAllSafe(q, InOrder(Overdue(q, e.now)), e.due, cfg.ranks[0]);
  }

  /** Once a rank has killed a runner, no step of the server brings it back or gives it work there. */
  lemma DeadStaysDead(cfg: Config, c: Cluster, e: Event, r: nat, t: Task, p: nat)
    requires ValidConfig(cfg) && Reachable(cfg, c) && WellFormed(cfg, c) && Step(cfg, c, e).Next?
    requires r < |c.ranks| && t in c.ranks[r].killed
    ensures var q, q' := c.ranks[r], Step(cfg, c, e).c.ranks[r];
            && t in q'.killed
            && (forall state, step :: (t.runner, p) in q'.orders && q'.orders[(t.runner, p)] == Work(state, step) ==>
                  (t.runner, p) in q.orders && q.orders[(t.runner, p)] == Work(state, step))
  {
    ReachableIsSound(cfg, c);
    assert SoundAt(cfg, c, r);
    StepSafe(cfg, c, e, r);
    assert IsDead(c.ranks[r].killed, t.runner);
  }
}
