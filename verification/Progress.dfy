/**
  That nothing is forgotten: what is under way comes to its end as far as the server is
  concerned, and it gives up exactly when a member has failed too often.
 */
module Progress {
  import opened TaskState
  import opened RankInvariant
  import opened ServerCluster
  import opened RunnerRounds
  import opened RunnerRegisters
  import opened ClusterProof
  import opened ClusterRuns
  import opened ServerTheorems
  import P = Protocol

  // ----- runner ranks and sub-tasks ----------------------------------------

  /** A runner rank whose message has reached a server rank is answered there, or kept as waiting; and
      only runners that the server rank has not killed are kept. */
  lemma NobodyIsForgotten(cfg: Config, c: Cluster, r: nat, x: int, p: nat)
    requires ValidConfig(cfg) && Reachable(cfg, c)
    requires r < |c.ranks| && r < |cfg.ranks| && p in cfg.ranks[r]
    requires (x, p) in c.runners && r !in c.runners[(x, p)].pending
    ensures (x, p) in c.ranks[r].orders || (x in c.ranks[r].idle && p in c.ranks[r].idle[x])
    ensures forall t :: t in c.ranks[r].killed && t.runner == x ==> (x, p) in c.ranks[r].orders
  {
    ReachableIsSound(cfg, c);
    ConnectionIsSound(cfg, c, r, x, p);
  }

  /** Every sub-task on any list is the share of a task that rank 0 has issued in this step. */
  lemma EverySubTaskWasIssued(cfg: Config, c: Cluster, r: nat, st: SubTask) returns (i: nat)
    requires ValidConfig(cfg) && Reachable(cfg, c) && r < |c.ranks|
    requires st in c.ranks[r].scheduled || st in c.ranks[r].running || st in c.ranks[r].finished
    ensures i < |c.issued|
    ensures c.issued[i].runner == st.runner && c.issued[i].state == st.state && c.issued[i].due == st.due
  {
    ReachableIsSound(cfg, c);
    assert SoundAt(cfg, c, r);
    CountMembers(c.ranks[r], st);
    assert Expected(c.ranks[r].holder, cfg.ranks[r], st);
    i := HolderWasIssued(ViewOf(cfg, c), r, st.state);
  }

  lemma HolderWasIssued(v: P.View, r: nat, s: int) returns (i: nat)
    requires P.WellFormed(v) && P.LogSound(v) && r < |v.ranks| && s in v.ranks[r].holder
    ensures i < |v.issued| && v.issued[i].state == s
    ensures v.ranks[r].holder[s] == Held(v.issued[i].runner, v.issued[i].due)
  {
    assert P.RankFollows(v, r);
    assert P.FollowsLog(v.ranks[r].holder, v.ranks[r].killed, P.Seen(v, r), s);
    i := P.LastIndex(P.Seen(v, r), s);
  }

  // ----- kills and reports -------------------------------------------------

  /** What a rank has killed rank 0 has killed, too; or the request is on its way, and rank 0 will act on
      it: the runner still has the member there. */
  lemma KillsReachRankZero(cfg: Config, c: Cluster, r: nat, t: Task)
    requires ValidConfig(cfg) && Reachable(cfg, c) && 0 < r < |c.ranks| && t in c.ranks[r].killed
    ensures |cfg.ranks| > 0 && |c.kills| == |c.ranks|
    ensures t in c.ranks[0].killed || (t in c.kills[r] && RunsOn(c.ranks[0], cfg.ranks[0], t))
  {
    ReachableIsSound(cfg, c);
    assert P.RankKillsSound(ViewOf(cfg, c), r);
    assert SoundAt(cfg, c, 0);
    if t !in c.ranks[0].killed {
      assert OnOneRunner(c.ranks[0], cfg.ranks[0], t.state, Held(t.runner, c.ranks[0].holder[t.state].due));
    }
  }

  /** When all ranks have finished and all their messages have been read, rank 0 has counted them all. */
  lemma ReportsComplete(cfg: Config, c: Cluster)
    requires ValidConfig(cfg) && Reachable(cfg, c) && WellFormed(cfg, c)
    requires RankWouldFinish(cfg, c, 0)
    requires forall r :: 0 < r < |c.ranks| ==>
               c.newTasks[r] == [] && c.reports[r] == [] && c.ranks[r].highestSent >= c.ranks[r].highestReceived
    ensures c.ranks[0].finishedRanks == |c.ranks| - 1
  {
    ReachableIsSound(cfg, c);
    SomethingIssued(cfg, c);
    AllCounted(ViewOf(cfg, c));
  }

  lemma AllCounted(v: P.View)
    requires P.Invariant(v) && v.issued != []
    requires forall r :: 0 < r < |v.ranks| ==>
               v.newTasks[r] == [] && v.reports[r] == [] && v.ranks[r].highestSent >= v.ranks[r].highestReceived
    ensures v.finishedRanks == |v.ranks| - 1
  {
    forall r | 0 < r < |v.ranks| ensures r in v.counted {
      assert P.RankReportsSound(v.ranks[r], P.Received(v, r), v.reports[r]);
      assert P.RankCountSound(v.ranks[r], v.reports[r], r in v.counted, v.taskId);
    }
    assert v.counted == P.Others(|v.ranks|);
  }

  // ----- the update --------------------------------------------------------

  lemma {:induction false} ScheduleIdleEnds(q: RankState, due: int, ranks: seq<nat>)
    ensures var e := ScheduleIdle(q, due, ranks); e.Effect? && e.q.step == q.step && e.q.failcount == q.failcount
    decreases |q.unscheduled|
  {
    var idle := CompletelyIdleRunners(q.idle, |ranks|);
    if idle != {} && q.unscheduled != {} {
      var nt := ScheduledTask(q, Least(idle), due);
      AssignFrame(q.(taskId := nt.id, finishedRanks := 0), nt, ranks);
      ScheduleIdleEnds(Issue(q, nt, ranks), due, ranks);
    }
  }

  /** An update takes all ranks as many steps further as the assimilator has said; no failures are
      remembered, and no other rank holds or hands out anything yet. */
  lemma UpdateAdvances(cfg: Config, c: Cluster, nsteps: int, due: int)
    requires ValidConfig(cfg) && Reachable(cfg, c) && WellFormed(cfg, c) && AllUpdating(c) && nsteps > 0
    ensures var o := Step(cfg, c, Update(nsteps, due));
            && o.Next? && |o.c.ranks| == |c.ranks|
            && (forall r :: 0 <= r < |c.ranks| ==> o.c.ranks[r].step == c.ranks[r].step + nsteps)
            && (forall s :: 0 <= s < |o.c.ranks[0].failcount| ==> o.c.ranks[0].failcount[s] == 0)
            && (forall r :: 0 <= r < |c.updating| ==> !o.c.updating[r])
  {
    ReachableIsSound(cfg, c);
    UpdateOutcome(cfg, c, nsteps, due);
    var c' := NewStep(cfg, c, nsteps);
    NewStepBegins(cfg, c, nsteps);
    ScheduleIdleEnds(c'.ranks[0], due, cfg.ranks[0]);
    RootChanged(c', ScheduleIdle(c'.ranks[0], due, cfg.ranks[0]).q, ScheduleIdle(c'.ranks[0], due, cfg.ranks[0]).sent);
  }

  lemma NewStepBegins(cfg: Config, c: Cluster, nsteps: int)
    requires |c.ranks| > 0
    ensures var c' := NewStep(cfg, c, nsteps);
            && |c'.ranks| == |c.ranks| && |c'.updating| == |c.updating|
            && (forall r :: 0 <= r < |c.ranks| ==> c'.ranks[r].step == c.ranks[r].step + nsteps)
            && (forall s :: 0 <= s < |c'.ranks[0].failcount| ==> c'.ranks[0].failcount[s] == 0)
            && (forall r :: 0 <= r < |c.updating| ==> !c'.updating[r])
  {
  }

  lemma RootChanged(c: Cluster, q: RankState, sent: seq<NewTask>)
    requires |c.ranks| > 0 && q.step == c.ranks[0].step && q.failcount == c.ranks[0].failcount
    ensures var c' := Broadcast(c, q, sent);
            && |c'.ranks| == |c.ranks| && c'.updating == c.updating
            && (forall r :: 0 <= r < |c.ranks| ==> c'.ranks[r].step == c.ranks[r].step)
            && c'.ranks[0].failcount == c.ranks[0].failcount
  {
  }

  lemma UpdateOutcome(cfg: Config, c: Cluster, nsteps: int, due: int)
    requires Invariant(cfg, c) && AllUpdating(c) && nsteps > 0
    ensures var c' := NewStep(cfg, c, nsteps);
            var e := ScheduleIdle(c'.ranks[0], due, cfg.ranks[0]);
            e.Effect? && Step(cfg, c, Update(nsteps, due)) == Next(Broadcast(c', e.q, e.sent))
  {
    UpdateKeeps(cfg, c, nsteps, due);
    ScheduleIdleEnds(NewStep(cfg, c, nsteps).ranks[0], due, cfg.ranks[0]);
    UpdateIs(cfg, c, nsteps, due);
  }

  lemma UpdateIs(cfg: Config, c: Cluster, nsteps: int, due: int)
    requires WellFormed(cfg, c) && AllUpdating(c) && nsteps > 0
    requires forall r :: 0 <= r < |c.ranks| ==> NewStepAssertions(c.ranks[r], cfg.ensembleSize, |cfg.ranks[r]|)
    ensures |NewStep(cfg, c, nsteps).ranks| > 0
    ensures var c' := NewStep(cfg, c, nsteps);
            Step(cfg, c, Update(nsteps, due)) == Apply(c', ScheduleIdle(c'.ranks[0], due, cfg.ranks[0]))
  {
  }

  // ----- giving up ---------------------------------------------------------

  /** A failure too many: the sixth one. */
  lemma RootKillGivesUp(q: RankState, t: Task, due: int, ranks: seq<nat>)
    requires 0 <= t.state < |q.failcount|
    ensures var e := RootKill(q, t, due, ranks);
            if q.failcount[t.state] >= 5 then e.Exit?
            else e.Effect? && e.q.failcount == q.failcount[t.state := q.failcount[t.state] + 1]
  {
    KillFrame(q, t);
    if !FailsTooOften(q, t.state) {
      var q' := Killed(q, t);
      if CompletelyIdleRunners(q'.idle, |ranks|) != {} && q'.unscheduled != {} {
        assert exists x :: x in q'.idle.Keys;
        var nt := ScheduledTask(q', Least(q'.idle.Keys), due);
        AssignFrame(q'.(taskId := nt.id, finishedRanks := 0), nt, ranks);
      }
    }
  }

  lemma {:induction false} RootKillAllGivesUp(q: RankState, tasks: seq<Task>, due: int, ranks: seq<nat>)
    requires forall t :: t in tasks ==> 0 <= t.state < |q.failcount|
    requires forall i, j :: 0 <= i < j < |tasks| ==> tasks[i].state != tasks[j].state
    ensures RootKillAll(q, tasks, due, ranks).Exit? <==> exists t :: t in tasks && q.failcount[t.state] >= 5
    decreases |tasks|
  {
    if tasks != [] {
      RootKillGivesUp(q, tasks[0], due, ranks);
      var e := RootKill(q, tasks[0], due, ranks);
      assert tasks == [tasks[0]] + tasks[1..];
      if e.Effect? {
        assert forall t :: t in tasks[1..] ==> t.state != tasks[0].state && e.q.failcount[t.state] == q.failcount[t.state];
        RootKillAllGivesUp(e.q, tasks[1..], due, ranks);
      }
    }
  }

  /** Rank 0 gives up at its due dates exactly if a late sub-task is of a member that has failed five
      times before. */
  lemma GivesUpAtDueDates(cfg: Config, c: Cluster, now: int, due: int)
    requires ValidConfig(cfg) && Reachable(cfg, c) && WellFormed(cfg, c) && !c.updating[0]
    ensures Step(cfg, c, DueDates(0, now, due)) == GaveUp <==>
              exists st :: (st in c.ranks[0].scheduled || st in c.ranks[0].running) && now > st.due
                           && 0 <= st.state < |c.ranks[0].failcount| && c.ranks[0].failcount[st.state] == 5
  {
    ReachableIsSound(cfg, c);
    var q, tasks := c.ranks[0], InOrder(Overdue(c.ranks[0], now));
    LateTasksHeld(cfg, c, now);
    RootKillAllGivesUp(q, tasks, due, cfg.ranks[0]);
    LateOfMember(q, tasks, now);
    GivesUpOrNot(cfg, c, now, due);
  }

  lemma GivesUpOrNot(cfg: Config, c: Cluster, now: int, due: int)
    requires WellFormed(cfg, c) && !c.updating[0]
    ensures Step(cfg, c, DueDates(0, now, due)) == GaveUp
            <==> RootKillAll(c.ranks[0], InOrder(Overdue(c.ranks[0], now)), due, cfg.ranks[0]).Exit?
  {
  }

  lemma LateTasksHeld(cfg: Config, c: Cluster, now: int)
    requires Invariant(cfg, c)
    ensures var q, tasks := c.ranks[0], InOrder(Overdue(c.ranks[0], now));
            && (forall t :: t in tasks ==> 0 <= t.state < |q.failcount| && q.failcount[t.state] <= 5)
            && (forall i, j :: 0 <= i < j < |tasks| ==> tasks[i].state != tasks[j].state)
            && forall t :: t in tasks <==>
                 exists st :: (st in q.scheduled || st in q.running) && now > st.due && t == Task(st.state, st.runner)
  {
    var q, tasks := c.ranks[0], InOrder(Overdue(c.ranks[0], now));
    assert SoundAt(cfg, c, 0);
    OverdueAllHeld(q, cfg.ranks[0], now);
    forall t | t in tasks ensures 0 <= t.state < |q.failcount| && q.failcount[t.state] <= 5 {
      assert t.state in Members(cfg.ensembleSize);
    }
  }

  lemma LateOfMember(q: RankState, tasks: seq<Task>, now: int)
    requires forall t :: t in tasks ==> 0 <= t.state < |q.failcount| && q.failcount[t.state] <= 5
    requires forall t :: t in tasks <==>
               exists st :: (st in q.scheduled || st in q.running) && now > st.due && t == Task(st.state, st.runner)
    ensures (exists t :: t in tasks && q.failcount[t.state] >= 5) <==>
              exists st :: (st in q.scheduled || st in q.running) && now > st.due
                           && 0 <= st.state < |q.failcount| && q.failcount[st.state] == 5
  {
    if st :| (st in q.scheduled || st in q.running) && now > st.due
             && 0 <= st.state < |q.failcount| && q.failcount[st.state] == 5 {
      assert Task(st.state, st.runner) in tasks;
    }
  }

  /** And at a kill request exactly if it is news and the member has failed five times before. */
  lemma GivesUpAtRequest(cfg: Config, c: Cluster, from: nat, due: int)
    requires ValidConfig(cfg) && Reachable(cfg, c) && WellFormed(cfg, c) && !c.updating[0]
    requires 0 < from < |c.ranks| && c.kills[from] != []
    ensures var t := c.kills[from][0];
            Step(cfg, c, KillRequest(from, due)) == GaveUp <==>
              t !in c.ranks[0].killed && 0 <= t.state < |c.ranks[0].failcount| && c.ranks[0].failcount[t.state] == 5
  {
    ReachableIsSound(cfg, c);
    RequestOrNot(cfg, c, from, due);
    var q, t := c.ranks[0], c.kills[from][0];
    if t !in q.killed {
      RequestOfMember(cfg, c, from);
      RootKillGivesUp(q, t, due, cfg.ranks[0]);
    }
  }

  lemma RequestOrNot(cfg: Config, c: Cluster, from: nat, due: int)
    requires WellFormed(cfg, c) && !c.updating[0] && 0 < from < |c.ranks| && c.kills[from] != []
    ensures Step(cfg, c, KillRequest(from, due)) == GaveUp <==>
              c.kills[from][0] !in c.ranks[0].killed && RootKill(c.ranks[0], c.kills[from][0], due, cfg.ranks[0]).Exit?
  {
  }

  lemma RequestOfMember(cfg: Config, c: Cluster, from: nat)
    requires Invariant(cfg, c) && 0 < from < |c.ranks| && c.kills[from] != []
    requires c.kills[from][0] !in c.ranks[0].killed
    ensures var q, s := c.ranks[0], c.kills[from][0].state; 0 <= s < |q.failcount| && q.failcount[s] <= 5
  {
    RequestIsExact(cfg, c, from);
    assert SoundAt(cfg, c, 0);
    assert c.kills[from][0].state in Members(cfg.ensembleSize);
  }
}
