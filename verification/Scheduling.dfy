/**
  Rank 0 leaves no runner without work: as long as there are members to hand out, none of the
  runners that it knows is completely idle.
 */
module Scheduling {
  import opened Helpers
  import opened TaskState
  import opened RankInvariant
  import opened ServerCluster
  import opened ClusterProof
  import opened ClusterRuns
  import opened ServerTheorems

  /** Whoever waits with all its ranks waits because there is nothing to do. */
  ghost predicate Eager(q: RankState, connections: nat) {
    forall x :: x in q.idle && |q.idle[x]| == connections ==> q.unscheduled == {}
  }

  ghost predicate EagerEffect(e: Effect, connections: nat) {
    e.Effect? ==> Eager(e.q, connections)
  }

  // ----- a new task --------------------------------------------------------

  /** A new task takes connections of its runner only. */
  lemma {:induction false} AddSubTasksIdle(q: RankState, nt: NewTask, added: seq<nat>)
    ensures var q' := AddSubTasks(q, nt, added);
            && (forall x :: x != nt.runner ==> (x in q'.idle <==> x in q.idle) && (x in q.idle ==> q'.idle[x] == q.idle[x]))
            && (nt.runner in q'.idle ==> nt.runner in q.idle && q'.idle[nt.runner] <= q.idle[nt.runner])
            && (nt.runner in q'.idle ==> forall p :: p in added ==> p !in q'.idle[nt.runner])
  {
    if added != [] {
      var n := |added| - 1;
      AddSubTasksIdle(q, nt, added[..n]);
      assert added == added[..n] + [added[n]];
    }
  }

  /** A runner that gets work is not completely idle any more. */
  lemma BusyAfterwards(q: RankState, nt: NewTask, ranks: seq<nat>)
    requires ranks != [] && IdleAlive(q, ranks)
    ensures var q' := Assign(q, nt, ranks);
            nt.runner in q'.idle ==> q'.idle[nt.runner] == {}
  {
    AddSubTasksIdle(Take(q, nt), nt, ranks);
  }

  lemma TryScheduleEager(q: RankState, runner: int, due: int, ranks: seq<nat>)
    requires ranks != [] && IdleAlive(q, ranks)
    requires forall x :: x in q.idle && |q.idle[x]| == |ranks| ==> x == runner || q.unscheduled == {}
    ensures EagerEffect(TrySchedule(q, runner, due, ranks), |ranks|)
  {
    if q.unscheduled != {} {
      var nt := ScheduledTask(q, runner, due);
      var q1 := q.(taskId := nt.id, finishedRanks := 0);
      BusyAfterwards(q1, nt, ranks);
      AddSubTasksIdle(Take(q1, nt), nt, ranks);
    }
  }

  // ----- kills -------------------------------------------------------------

  /** After a kill the one member that has become free is handed out, if anybody can take it. */
  lemma RescheduleEager(q: RankState, due: int, ranks: seq<nat>, s: int)
    requires forall x :: x in q.idle && |q.idle[x]| == |ranks| ==> q.unscheduled == {s}
    ensures EagerEffect(Reschedule(q, due, ranks), |ranks|)
  {
    if CompletelyIdleRunners(q.idle, |ranks|) != {} {
      var x := AnyOf(CompletelyIdleRunners(q.idle, |ranks|));
      assert x in q.idle && q.unscheduled == {s};
      var nt := ScheduledTask(q, Least(q.idle.Keys), due);
      AssignFrame(q.(taskId := nt.id, finishedRanks := 0), nt, ranks);
    } else {
      assert forall x :: x in q.idle && |q.idle[x]| == |ranks| ==> x in CompletelyIdleRunners(q.idle, |ranks|);
    }
  }

  lemma RootKillEager(q: RankState, t: Task, due: int, ranks: seq<nat>)
    requires Eager(q, |ranks|)
    ensures EagerEffect(RootKill(q, t, due, ranks), |ranks|)
  {
    if !FailsTooOften(q, t.state) {
      KillFrame(q, t);
      RescheduleEager(Killed(q, t), due, ranks, t.state);
    }
  }

  lemma {:induction false} RootKillAllEager(q: RankState, tasks: seq<Task>, due: int, ranks: seq<nat>)
    requires Eager(q, |ranks|)
    ensures EagerEffect(RootKillAll(q, tasks, due, ranks), |ranks|)
    decreases |tasks|
  {
    if tasks != [] {
      RootKillEager(q, tasks[0], due, ranks);
      var e := RootKill(q, tasks[0], due, ranks);
      if e.Effect? {
        RootKillAllEager(e.q, tasks[1..], due, ranks);
      }
    }
  }

  // ----- messages of runner ranks, and the update --------------------------

  lemma HandleDataEager(q: RankState, m: DataMessage, connections: nat)
    requires Eager(q, connections)
    ensures var q' := HandleData(q, m);
            forall x :: x in q'.idle && |q'.idle[x]| == connections ==>
              (x == m.runner && BecomesIdle(q, m, connections)) || q'.unscheduled == {}
  {
    HandleDataFrame(q, m);
  }

  lemma RootDataEager(q: RankState, m: DataMessage, due: int, ranks: seq<nat>)
    requires Eager(q, |ranks|) && ranks != [] && IdleAlive(HandleData(q, m), ranks)
    ensures EagerEffect(RootHandleData(q, m, due, ranks), |ranks|)
  {
    HandleDataEager(q, m, |ranks|);
    if BecomesIdle(q, m, |ranks|) {
      TryScheduleEager(HandleData(q, m), m.runner, due, ranks);
    }
  }

  /** Handing out tasks ends only when nobody is completely idle or nothing is left. */
  lemma {:induction false} ScheduleIdleEager(q: RankState, due: int, ranks: seq<nat>)
    ensures EagerEffect(ScheduleIdle(q, due, ranks), |ranks|)
    decreases |q.unscheduled|
  {
    var idle := CompletelyIdleRunners(q.idle, |ranks|);
    if idle != {} && q.unscheduled != {} {
      var nt := ScheduledTask(q, Least(idle), due);
      AssignFrame(q.(taskId := nt.id, finishedRanks := 0), nt, ranks);
      ScheduleIdleEager(Issue(q, nt, ranks), due, ranks);
    } else {
      assert forall x :: x in q.idle && |q.idle[x]| == |ranks| ==> x in idle;
    }
  }

  // ----- all runs ----------------------------------------------------------

  ghost predicate EagerOutcome(cfg: Config, o: Outcome)
    requires |cfg.ranks| > 0
  {
    o.Next? && |o.c.ranks| > 0 ==> Eager(o.c.ranks[0], |cfg.ranks[0]|)
  }

  lemma ApplyEager(cfg: Config, c: Cluster, e: Effect)
    requires |c.ranks| > 0 && |cfg.ranks| > 0 && EagerEffect(e, |cfg.ranks[0]|)
    ensures EagerOutcome(cfg, Apply(c, e))
  {
  }

  lemma DataEager(cfg: Config, c: Cluster, e: Event)
    requires Invariant(cfg, c) && e.Data? && Eager(c.ranks[0], |cfg.ranks[0]|)
    ensures EagerOutcome(cfg, Step(cfg, c, e))
  {
    if e.r == 0 && !c.updating[0] && IsUnderWay(cfg, c, 0, e.runner, e.rank) {
      var m := MessageOf(c, e.runner, e.rank);
      IdleAfterData(cfg, c, e.runner, e.rank);
      RootDataEager(c.ranks[0], m, e.due, cfg.ranks[0]);
      ApplyEager(cfg, Delivered(c, 0, e.runner, e.rank), RootHandleData(c.ranks[0], m, e.due, cfg.ranks[0]));
    }
  }

  lemma IdleAfterData(cfg: Config, c: Cluster, x: int, p: nat)
    requires Invariant(cfg, c) && IsUnderWay(cfg, c, 0, x, p)
    ensures IdleAlive(HandleData(c.ranks[0], MessageOf(c, x, p)), cfg.ranks[0])
  {
    DataKeepsRanks(cfg, c, 0, x, p);
    assert SoundAt(cfg, AfterData(cfg, c, 0, x, p), 0);
  }

  lemma DueDatesEager(cfg: Config, c: Cluster, e: Event)
    requires Invariant(cfg, c) && e.DueDates? && Eager(c.ranks[0], |cfg.ranks[0]|)
    ensures EagerOutcome(cfg, Step(cfg, c, e))
  {
    RootKillAllEager(c.ranks[0], InOrder(Overdue(c.ranks[0], e.now)), e.due, cfg.ranks[0]);
  }

  lemma RequestEager(cfg: Config, c: Cluster, e: Event)
    requires Invariant(cfg, c) && e.KillRequest? && Eager(c.ranks[0], |cfg.ranks[0]|)
    ensures EagerOutcome(cfg, Step(cfg, c, e))
  {
    if 0 < e.from < |c.ranks| && c.kills[e.from] != [] {
      RootKillEager(c.ranks[0], c.kills[e.from][0], e.due, cfg.ranks[0]);
    }
  }

  lemma UpdateEager(cfg: Config, c: Cluster, e: Event)
    requires Invariant(cfg, c) && e.Update? && Eager(c.ranks[0], |cfg.ranks[0]|)
    ensures EagerOutcome(cfg, Step(cfg, c, e))
  {
    var c1 := NewStep(cfg, c, e.nsteps);
    NewStepEager(cfg, c1, ScheduleIdle(c1.ranks[0], e.due, cfg.ranks[0]), e.due);
  }

  lemma NewStepEager(cfg: Config, c: Cluster, e: Effect, due: int)
    requires |c.ranks| > 0 && |cfg.ranks| > 0 && e == ScheduleIdle(c.ranks[0], due, cfg.ranks[0])
    ensures EagerOutcome(cfg, Apply(c, e))
  {
    ScheduleIdleEager(c.ranks[0], due, cfg.ranks[0]);
    ApplyEager(cfg, c, e);
  }

  lemma StepEager(cfg: Config, c: Cluster, e: Event)
    requires Invariant(cfg, c) && Eager(c.ranks[0], |cfg.ranks[0]|)
    ensures EagerOutcome(cfg, Step(cfg, c, e))
  {
    match e
    case Data(_, _, _, _) => DataEager(cfg, c, e);
    case DueDates(_, _, _) => DueDatesEager(cfg, c, e);
    case KillRequest(_, _) => RequestEager(cfg, c, e);
    case Update(_, _) => UpdateEager(cfg, c, e);
    case _ =>
  }

  lemma {:induction false} RunEager(cfg: Config, c: Cluster, events: seq<Event>)
    requires Invariant(cfg, c) && Eager(c.ranks[0], |cfg.ranks[0]|)
    ensures EagerOutcome(cfg, Run(cfg, c, events))
    decreases |events|
  {
    if events != [] && Step(cfg, c, events[0]).Next? {
      StepKeeps(cfg, c, events[0]);
      StepEager(cfg, c, events[0]);
      RunEager(cfg, Step(cfg, c, events[0]).c, events[1..]);
    }
  }

  /** After every kill, every message and every update: if there is a runner all of whose ranks wait for
      rank 0, then no member is left to be handed out. */
  lemma NoRunnerWaitsForWork(cfg: Config, c: Cluster, x: int)
    requires ValidConfig(cfg) && Reachable(cfg, c)
    requires |c.ranks| > 0 && x in c.ranks[0].idle && |c.ranks[0].idle[x]| == |cfg.ranks[0]|
    ensures c.ranks[0].unscheduled == {}
  {
    var step, events :| step > 0 && Run(cfg, Initial(cfg, step), events) == Next(c);
    InitialIsSound(cfg, step);
    RunEager(cfg, Initial(cfg, step), events);
  }
}
