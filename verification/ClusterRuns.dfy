/**
  The remaining steps of the server, and what holds over every run.
 */
module ClusterRuns {
  import opened TaskState
  import opened RankInvariant
  import opened ServerCluster
  import opened RunnerRegisters
  import opened ClusterProof
  import P = Protocol

  // ----- the channels change -----------------------------------------------

  lemma ChannelsChanged(cfg: Config, c: Cluster, c': Cluster)
    requires RanksInvariant(cfg, c) && c'.ranks == c.ranks && OnlyRank(c, c', 0, c.ranks[0])
    requires c'.issued == c.issued && c'.newTasks == c.newTasks && c'.runners == c.runners && c'.gone == c.gone
    requires RoundsSound(cfg, c)
    ensures RanksInvariant(cfg, c') && RoundsSound(cfg, c')
    ensures ViewOf(cfg, c')
            == P.View(ViewOf(cfg, c).ranks, c'.newTasks, c'.kills, c'.reports, c'.allFinished, c'.updating,
                      c'.issued, c'.counted, c'.ranks[0].taskId, c'.ranks[0].finishedRanks)
  {
    assert SoundAt(cfg, c, 0);
    RankChanged(cfg, c, c', 0, c.ranks[0]);
    ViewChanged(cfg, c, c', 0, c.ranks[0]);
    RoundsChanged(cfg, c, c', |c.ranks|);
  }

  /** A rank has changed a counter. */
  lemma CounterChanged(cfg: Config, c: Cluster, c': Cluster, r: nat, q: RankState)
    requires RanksInvariant(cfg, c) && OnlyRank(c, c', r, q) && RoundsSound(cfg, c)
    requires q == c.ranks[r].(highestSent := q.highestSent, finishedRanks := q.finishedRanks)
    requires c'.issued == c.issued && c'.newTasks == c.newTasks && c'.runners == c.runners && c'.gone == c.gone
    ensures RanksInvariant(cfg, c') && RoundsSound(cfg, c')
  {
    assert SoundAt(cfg, c, r) && RoundsAt(cfg, c, r);
    RelabelSound(c.ranks[r], q, cfg.ranks[r], cfg.ensembleSize);
    if r == 0 { RetriesFrame(cfg, c.ranks[0], q, c.issued); }
    RankChanged(cfg, c, c', r, q);
    FrameRounds(c.ranks[r], q, SeenBy(c, r), c.gone, c.runners, r, cfg.ranks[r]);
    RankMoved(cfg, c, c', r, q, SeenBy(c, r));
  }

  // ----- kill requests -----------------------------------------------------

  lemma TakenKeeps(cfg: Config, c: Cluster, from: nat)
    requires Invariant(cfg, c) && 0 < from < |c.ranks| && c.kills[from] != []
    requires c.kills[from][0] in c.ranks[0].killed
    ensures Invariant(cfg, Taken(c, from))
  {
    assert c.ranks[0 := c.ranks[0]] == c.ranks;
    ChannelsChanged(cfg, c, Taken(c, from));
    P.TakeRequestKeeps(ViewOf(cfg, c), from);
  }

  /** A kill request that rank 0 acts on names the runner that holds the member there. */
  lemma RequestIsExact(cfg: Config, c: Cluster, from: nat)
    requires Invariant(cfg, c) && 0 < from < |c.ranks| && c.kills[from] != []
    ensures c.kills[from][0] in c.ranks[0].killed || P.Holds(c.ranks[0].holder, c.kills[from][0])
  {
    P.RequestIsExact(ViewOf(cfg, c), from);
  }

  lemma KillRequestKeeps(cfg: Config, c: Cluster, from: nat, due: int)
    requires Invariant(cfg, c) && !c.updating[0] && 0 < from < |c.ranks| && c.kills[from] != []
    ensures EffectKeeps(cfg, Taken(c, from), RootKillRequest(c.ranks[0], c.kills[from][0], due, cfg.ranks[0]))
  {
    var q, t := c.ranks[0], c.kills[from][0];
    if t in q.killed {
      TakenKeeps(cfg, c, from);
      RootIdleKeeps(cfg, Taken(c, from));
    } else if !FailsTooOften(q, t.state) {
      RequestIsExact(cfg, c, from);
      KillFrame(q, t);
      KilledKeeps(cfg, c, t);
      var c' := c.(ranks := c.ranks[0 := Killed(q, t)]);
      TakenKeeps(cfg, c', from);
      BroadcastNothing(Taken(c, from), Killed(q, t));
      assert Broadcast(Taken(c, from), Killed(q, t), []) == Taken(c', from);
      RescheduleKeeps(cfg, Taken(c, from), Killed(q, t), due);
    }
  }

  // ----- a NewTask message arrives -----------------------------------------

  function Superseded(q: RankState, s: int): set<Task> {
    if s in q.holder then {Task(s, q.holder[s].runner)} else {}
  }

  /** q' is q with nobody holding the member any more. */
  ghost predicate Cleared(q: RankState, q': RankState, s: int) {
    && s in q'.unscheduled
    && q'.holder == q.holder - {s}
    && q'.killed == q.killed + Superseded(q, s)
    && q'.step == q.step && q'.highestReceived == q.highestReceived && q'.highestSent == q.highestSent
  }

  /** Clearing the way for a task: nothing, or killing the task that holds the member. */
  lemma SupersedeSound(q: RankState, s: int, ranks: seq<nat>, ensembleSize: nat)
    requires RankSound(q, ranks, ensembleSize) && ranks != [] && s in Members(ensembleSize)
    ensures RankSound(Supersede(q, s), ranks, ensembleSize)
    ensures Cleared(q, Supersede(q, s), s)
  {
    if s in q.holder {
      var t := Task(s, q.holder[s].runner);
      SupersedeIsKill(q, ranks, ensembleSize, s);
      KillKeepsInvariant(q, t, ranks, ensembleSize);
      KillFrame(q, t);
    } else {
      SupersedeNothing(q, ranks, ensembleSize, s);
      assert q.holder - {s} == q.holder;
    }
  }

  /** The task is unknown to the rank: neither killed there nor the holder of its member. */
  ghost predicate IsNews(q: RankState, nt: NewTask, ensembleSize: nat) {
    && nt.state in Members(ensembleSize)
    && Task(nt.state, nt.runner) !in q.killed && !P.Holds(q.holder, Task(nt.state, nt.runner))
  }

  /** q' is q with the task holding its member. */
  ghost predicate Taking(q: RankState, nt: NewTask, q': RankState) {
    && q'.holder == q.holder[nt.state := Held(nt.runner, nt.due)]
    && q'.killed == q.killed + Superseded(q, nt.state)
    && q'.step == q.step && q'.highestReceived == q.highestReceived && q'.highestSent == q.highestSent
  }

  lemma AssignCleared(q: RankState, q': RankState, nt: NewTask, ranks: seq<nat>, ensembleSize: nat)
    requires Cleared(q, q', nt.state) && IsNews(q, nt, ensembleSize)
    requires RankSound(q', ranks, ensembleSize) && Distinct(ranks)
    ensures RankSound(Assign(q', nt, ranks), ranks, ensembleSize)
    ensures Taking(q, nt, Assign(q', nt, ranks))
  {
    NotKilled(q, q', nt, ensembleSize);
    AssignKeepsInvariant(q', nt, ranks, ensembleSize);
    AssignTaking(q, q', nt, ranks);
  }

  lemma NotKilled(q: RankState, q': RankState, nt: NewTask, ensembleSize: nat)
    requires Cleared(q, q', nt.state) && IsNews(q, nt, ensembleSize)
    ensures nt.state in q'.unscheduled && Task(nt.state, nt.runner) !in q'.killed
  {
  }

  lemma AssignTaking(q: RankState, q': RankState, nt: NewTask, ranks: seq<nat>)
    requires Cleared(q, q', nt.state)
    ensures Taking(q, nt, Assign(q', nt, ranks))
  {
    AssignFrame(q', nt, ranks);
    assert (q.holder - {nt.state})[nt.state := Held(nt.runner, nt.due)]
        == q.holder[nt.state := Held(nt.runner, nt.due)];
  }

  /** A task arrives that is news to the rank: the assertion in the code holds. */
  lemma ReceiveTaskSound(q: RankState, nt: NewTask, ranks: seq<nat>, ensembleSize: nat)
    requires RankSound(q, ranks, ensembleSize) && ranks != [] && Distinct(ranks) && IsNews(q, nt, ensembleSize)
    ensures ReceiveAssertion(q, nt)
    ensures RankSound(ReceiveTask(q, nt, ranks), ranks, ensembleSize)
    ensures Taking(q.(highestReceived := Max(nt.id, q.highestReceived)), nt, ReceiveTask(q, nt, ranks))
  {
    var q1 := q.(highestReceived := Max(nt.id, q.highestReceived));
    RelabelSound(q, q1, ranks, ensembleSize);
    SupersedeSound(q, nt.state, ranks, ensembleSize);
    SupersedeSound(q1, nt.state, ranks, ensembleSize);
    AssignCleared(q1, Supersede(q1, nt.state), nt, ranks, ensembleSize);
  }

  lemma ArrivalIsNew(cfg: Config, c: Cluster, r: nat)
    requires Invariant(cfg, c) && 0 < r < |c.ranks| && c.newTasks[r] != []
    ensures IsNews(c.ranks[r], c.newTasks[r][0], cfg.ensembleSize)
  {
    var v := ViewOf(cfg, c);
    P.ReceivedIsNew(v, r);
    P.ReceiveSeen(v, r, false);
  }

  /** The rank has seen one task more of the log, the others what they had. */
  lemma ArrivalRounds(cfg: Config, c: Cluster, r: nat)
    requires Invariant(cfg, c) && 0 < r < |c.ranks| && c.newTasks[r] != []
    requires RanksInvariant(cfg, Arrived(cfg, c, r)) && Arrived(cfg, c, r).ranks[r].step == c.ranks[r].step
    ensures RoundsSound(cfg, Arrived(cfg, c, r))
  {
    var q, nt, c' := c.ranks[r], c.newTasks[r][0], Arrived(cfg, c, r);
    ArrivalSeen(cfg, c, r);
    assert SoundAt(cfg, c, r) && RoundsAt(cfg, c, r);
    ReceiveRounds(q, nt, SeenBy(c, r), c.gone, c.runners, r, cfg.ranks[r], cfg.ensembleSize);
    RankMoved(cfg, c, c', r, c'.ranks[r], SeenBy(c, r) + [nt]);
  }

  lemma ArrivalSeen(cfg: Config, c: Cluster, r: nat)
    requires Invariant(cfg, c) && 0 < r < |c.ranks| && c.newTasks[r] != []
    ensures SeenBy(Arrived(cfg, c, r), r) == SeenBy(c, r) + [c.newTasks[r][0]]
    ensures c.newTasks[r][0].state in Members(cfg.ensembleSize)
  {
    var v := ViewOf(cfg, c);
    assert 0 <= P.Received(v, r) && v.newTasks[r] == v.issued[P.Received(v, r)..];
    FirstOfRest(c.issued, c.newTasks[r]);
  }

  lemma FirstOfRest<T>(log: seq<T>, rest: seq<T>)
    requires 0 < |rest| <= |log| && rest == log[|log| - |rest|..]
    ensures log[..|log| - |rest[1..]|] == log[..|log| - |rest|] + [rest[0]]
    ensures rest[0] in log
  {
    assert rest[0] == log[|log| - |rest|];
  }

  lemma ReceiveRounds(q: RankState, nt: NewTask, log: seq<NewTask>, gone: set<Task>,
                      runners: map<(int, nat), RunnerRank>, r: nat, ranks: seq<nat>, ensembleSize: nat)
    requires RankRounds(q, log, gone, runners, r, ranks) && RankSound(q, ranks, ensembleSize)
    requires ranks != [] && Distinct(ranks) && nt.state in Members(ensembleSize)
    ensures RankRounds(ReceiveTask(q, nt, ranks), log + [nt], gone, runners, r, ranks)
  {
    var q1 := q.(highestReceived := Max(nt.id, q.highestReceived));
    RelabelSound(q, q1, ranks, ensembleSize);
    FrameRounds(q, q1, log, gone, runners, r, ranks);
    SupersedeSound(q1, nt.state, ranks, ensembleSize);
    SupersedeRounds(q1, nt.state, log, gone, runners, r, ranks, ensembleSize);
    AssignRounds(Supersede(q1, nt.state), nt, log, gone, runners, r, ranks);
  }

  lemma ArrivalKeeps(cfg: Config, c: Cluster, r: nat)
    requires Invariant(cfg, c) && 0 < r < |c.ranks| && c.newTasks[r] != []
    ensures ReceiveAssertion(c.ranks[r], c.newTasks[r][0])
    ensures Invariant(cfg, Arrived(cfg, c, r))
  {
    var q, nt := c.ranks[r], c.newTasks[r][0];
    var c', q' := Arrived(cfg, c, r), ReceiveTask(q, nt, cfg.ranks[r]);
    assert SoundAt(cfg, c, r);
    ArrivalIsNew(cfg, c, r);
    ReceiveTaskSound(q, nt, cfg.ranks[r], cfg.ensembleSize);
    RankChanged(cfg, c, c', r, q');
    ViewChanged(cfg, c, c', r, q');
    var done := WouldFinish(q', cfg.ensembleSize, |cfg.ranks[r]|);
    assert ViewOf(cfg, c') == P.Receive(ViewOf(cfg, c), r, done);
    P.ReceiveKeeps(ViewOf(cfg, c), r, done);
    ArrivalRounds(cfg, c, r);
  }

  // ----- termination detection ---------------------------------------------

  lemma ReportKeeps(cfg: Config, c: Cluster, r: nat)
    requires Invariant(cfg, c) && 0 < r < |c.ranks| && RankWouldFinish(cfg, c, r)
    requires c.ranks[r].highestSent < c.ranks[r].highestReceived
    ensures Invariant(cfg, Reported(c, r))
  {
    var q' := c.ranks[r].(highestSent := c.ranks[r].highestReceived);
    CounterChanged(cfg, c, Reported(c, r), r, q');
    ViewChanged(cfg, c, Reported(c, r), r, q');
    assert ViewOf(cfg, Reported(c, r)) == P.Report(ViewOf(cfg, c), r);
    P.ReportKeeps(ViewOf(cfg, c), r);
  }

  /** A rank 0 that would finish has issued something: every member at least once. */
  lemma SomethingIssued(cfg: Config, c: Cluster)
    requires Invariant(cfg, c) && RankWouldFinish(cfg, c, 0)
    ensures c.issued != []
  {
    assert ViewOf(cfg, c).taskId == |c.issued| + 1;
  }

  lemma CountedRanks(cfg: Config, c: Cluster, from: nat)
    requires RanksInvariant(cfg, c) && RoundsSound(cfg, c) && from < |c.ranks| && c.reports[from] != []
    ensures RanksInvariant(cfg, Counted(c, from)) && RoundsSound(cfg, Counted(c, from))
  {
    CounterChanged(cfg, c, Counted(c, from), 0, Counted(c, from).ranks[0]);
  }

  lemma CountedIsCounted(cfg: Config, c: Cluster, from: nat)
    requires WellFormed(cfg, c) && 0 < from < |c.ranks| && c.reports[from] != []
    ensures WellFormed(cfg, Counted(c, from))
    ensures ViewOf(cfg, Counted(c, from)) == P.CountReport(ViewOf(cfg, c), from)
  {
    var v, q' := ViewOf(cfg, c), Counted(c, from).ranks[0];
    ViewChanged(cfg, c, Counted(c, from), 0, q');
    assert v.ranks[0 := RankViewOf(cfg, q', 0)] == v.ranks;
  }

  lemma CountReportKeeps(cfg: Config, c: Cluster, from: nat)
    requires Invariant(cfg, c) && 0 < from < |c.ranks| && !c.updating[0]
    requires RankWouldFinish(cfg, c, 0) && c.reports[from] != []
    ensures Invariant(cfg, Counted(c, from))
  {
    CountedRanks(cfg, c, from);
    CountedIsCounted(cfg, c, from);
    SomethingIssued(cfg, c);
    P.CountReportKeeps(ViewOf(cfg, c), from);
  }

  lemma AnnounceKeeps(cfg: Config, c: Cluster)
    requires Invariant(cfg, c) && !c.updating[0] && RankWouldFinish(cfg, c, 0)
    requires c.ranks[0].finishedRanks == |c.ranks| - 1
    ensures Invariant(cfg, Announced(c))
  {
    assert c.ranks[0 := c.ranks[0]] == c.ranks;
    ChannelsChanged(cfg, c, Announced(c));
    SomethingIssued(cfg, c);
    var v := ViewOf(cfg, c);
    assert Announced(c).allFinished == P.Announce(v).allFinished;
    assert ViewOf(cfg, Announced(c)) == P.Announce(v);
    P.AnnounceKeeps(v);
  }

  lemma NoticeKeeps(cfg: Config, c: Cluster, r: nat)
    requires Invariant(cfg, c) && 0 < r < |c.ranks| && c.allFinished[r] > 0 && !c.updating[r]
    ensures Invariant(cfg, Noticed(c, r))
  {
    assert c.ranks[0 := c.ranks[0]] == c.ranks;
    ChannelsChanged(cfg, c, Noticed(c, r));
    P.NoticeKeeps(ViewOf(cfg, c), r);
  }

  // ----- the update step ---------------------------------------------------

  lemma UpdatingIsFinished(cfg: Config, c: Cluster, r: nat)
    requires Invariant(cfg, c) && c.updating[0] && r < |c.ranks|
    ensures RankWouldFinish(cfg, c, r)
  {
    P.AnnouncedMeansFinished(ViewOf(cfg, c));
    assert ViewOf(cfg, c).ranks[r].done;
  }

  lemma FinishedHoldsAll(q: RankState, ranks: seq<nat>, ensembleSize: nat)
    requires RankSound(q, ranks, ensembleSize) && WouldFinish(q, ensembleSize, |ranks|)
    ensures q.holder.Keys == Members(ensembleSize)
  {
  }

  lemma AllHeldAtUpdate(cfg: Config, c: Cluster, r: nat)
    requires Invariant(cfg, c) && c.updating[0] && r < |c.ranks|
    ensures P.AllHeld(ViewOf(cfg, c).ranks[r], Members(cfg.ensembleSize))
  {
    assert SoundAt(cfg, c, r);
    UpdatingIsFinished(cfg, c, r);
    FinishedHoldsAll(c.ranks[r], cfg.ranks[r], cfg.ensembleSize);
  }

  lemma SameKillsAtUpdate(cfg: Config, c: Cluster)
    requires Invariant(cfg, c) && c.updating[0]
    ensures forall r :: 0 < r < |c.ranks| ==> c.ranks[r].killed == c.ranks[0].killed
  {
    AllHeldAtUpdate(cfg, c, 0);
    forall r | 0 < r < |c.ranks| ensures c.ranks[r].killed == c.ranks[0].killed {
      AllHeldAtUpdate(cfg, c, r);
      P.SameKills(ViewOf(cfg, c), Members(cfg.ensembleSize), r);
      assert ViewOf(cfg, c).ranks[r].killed == c.ranks[r].killed;
    }
  }

  lemma {:induction false} SumOfZeros(n: nat)
    ensures Sum(seq(n, _ => 0)) == 0
  {
    if n > 0 {
      assert seq<nat>(n, _ => 0)[..n - 1] == seq<nat>(n - 1, _ => 0);
      SumOfZeros(n - 1);
    }
  }

  lemma NewStepRanks(cfg: Config, c: Cluster, nsteps: int)
    requires Invariant(cfg, c) && AllUpdating(c) && nsteps > 0
    ensures RanksInvariant(cfg, NewStep(cfg, c, nsteps))
  {
    var c' := NewStep(cfg, c, nsteps);
    forall r | 0 <= r < |c'.ranks| ensures SoundAt(cfg, c', r) && c'.ranks[r].step == c.ranks[0].step + nsteps {
      assert SoundAt(cfg, c, r);
      UpdatingIsFinished(cfg, c, r);
      NewStepKeepsInvariant(c.ranks[r], cfg.ranks[r], cfg.ensembleSize, nsteps);
    }
    SumOfZeros(cfg.ensembleSize);
  }

  lemma NewStepView(cfg: Config, c: Cluster, nsteps: int)
    requires WellFormed(cfg, c)
    ensures WellFormed(cfg, NewStep(cfg, c, nsteps))
    ensures ViewOf(cfg, NewStep(cfg, c, nsteps)) == P.NewStep(ViewOf(cfg, c))
  {
    var c', v' := NewStep(cfg, c, nsteps), P.NewStep(ViewOf(cfg, c));
    forall r | 0 <= r < |c.ranks| ensures ViewOf(cfg, c').ranks[r] == v'.ranks[r] {
      assert 0 in Members(cfg.ensembleSize);
    }
    assert ViewOf(cfg, c').ranks == v'.ranks;
  }

  lemma NewStepKeeps(cfg: Config, c: Cluster, nsteps: int)
    requires Invariant(cfg, c) && AllUpdating(c) && nsteps > 0
    ensures Invariant(cfg, NewStep(cfg, c, nsteps))
  {
    NewStepRanks(cfg, c, nsteps);
    NewStepView(cfg, c, nsteps);
    SameKillsAtUpdate(cfg, c);
    P.NewStepKeeps(ViewOf(cfg, c));
    NewStepRunners(cfg, c, nsteps);
  }

  lemma NewStepRunners(cfg: Config, c: Cluster, nsteps: int)
    requires Invariant(cfg, c) && AllUpdating(c) && nsteps > 0
    requires forall r :: 0 < r < |c.ranks| ==> c.ranks[r].killed == c.ranks[0].killed
    ensures WellFormed(cfg, NewStep(cfg, c, nsteps)) && RoundsSound(cfg, NewStep(cfg, c, nsteps))
  {
    var c' := NewStep(cfg, c, nsteps);
    forall r | 0 <= r < |c'.ranks| ensures RoundsAt(cfg, c', r) {
      assert SoundAt(cfg, c, r) && RoundsAt(cfg, c, r);
      UpdatingIsFinished(cfg, c, r);
      NewStepRounds(c.ranks[r], cfg.ensembleSize, nsteps, SeenBy(c, r), c.gone, c.runners, c'.runners, r, cfg.ranks[r]);
    }
  }

  lemma {:induction false} ScheduleIdleKeeps(cfg: Config, c: Cluster, due: int)
    requires Invariant(cfg, c) && !c.updating[0]
    ensures EffectKeeps(cfg, c, ScheduleIdle(c.ranks[0], due, cfg.ranks[0]))
    decreases |c.ranks[0].unscheduled|
  {
    var q, idle := c.ranks[0], CompletelyIdleRunners(c.ranks[0].idle, |cfg.ranks[0]|);
    if idle != {} && q.unscheduled != {} {
      assert SoundAt(cfg, c, 0);
      ScheduleOneKeeps(cfg, c, ScheduledTask(q, Least(idle), due), due);
    } else {
      RootIdleKeeps(cfg, c);
    }
  }

  lemma ScheduleOneKeeps(cfg: Config, c: Cluster, nt: NewTask, due: int)
    requires Invariant(cfg, c) && !c.updating[0] && Issuable(c.ranks[0], nt)
    ensures EffectKeeps(cfg, c, After([nt], ScheduleIdle(Issue(c.ranks[0], nt, cfg.ranks[0]), due, cfg.ranks[0])))
    decreases |c.ranks[0].unscheduled|, 0
  {
    var q' := Issue(c.ranks[0], nt, cfg.ranks[0]);
    IssueKeeps(cfg, c, nt);
    AssignFrame(c.ranks[0].(taskId := nt.id, finishedRanks := 0), nt, cfg.ranks[0]);
    ScheduleIdleKeeps(cfg, AfterIssue(cfg, c, nt), due);
    AfterKeeps(cfg, c, q', [nt], ScheduleIdle(q', due, cfg.ranks[0]));
  }

  // ----- all runs ----------------------------------------------------------

  lemma UpdateKeeps(cfg: Config, c: Cluster, nsteps: int, due: int)
    requires Invariant(cfg, c) && AllUpdating(c) && nsteps > 0
    ensures forall r :: 0 <= r < |c.ranks| ==> NewStepAssertions(c.ranks[r], cfg.ensembleSize, |cfg.ranks[r]|)
    ensures var c' := NewStep(cfg, c, nsteps);
            EffectKeeps(cfg, c', ScheduleIdle(c'.ranks[0], due, cfg.ranks[0]))
  {
    forall r | 0 <= r < |c.ranks| ensures NewStepAssertions(c.ranks[r], cfg.ensembleSize, |cfg.ranks[r]|) {
      UpdatingIsFinished(cfg, c, r);
    }
    NewStepKeeps(cfg, c, nsteps);
    ScheduleIdleKeeps(cfg, NewStep(cfg, c, nsteps), due);
  }

  /** No assertion of the code fails, and the invariant is kept. */
  ghost predicate Fine(cfg: Config, o: Outcome) {
    !o.AssertionFailed? && (o.Next? ==> Invariant(cfg, o.c))
  }

  lemma DataStep(cfg: Config, c: Cluster, e: Event)
    requires Invariant(cfg, c) && e.Data?
    ensures Fine(cfg, Step(cfg, c, e))
  {
    if e.r < |c.ranks| && !c.updating[e.r] && IsUnderWay(cfg, c, e.r, e.runner, e.rank) {
      assert SoundAt(cfg, c, e.r);
      DataIsExpected(cfg, c, e.r, e.runner, e.rank);
      if !IsDead(c.ranks[e.r].killed, e.runner) {
        DataAssertionsHold(c.ranks[e.r], cfg.ranks[e.r], MessageOf(c, e.runner, e.rank));
      }
      if e.r == 0 {
        RootDataKeeps(cfg, c, e.runner, e.rank, e.due);
      } else {
        DataKeeps(cfg, c, e.r, e.runner, e.rank);
      }
    }
  }

  /** Runner ranks change nothing on the server. */
  lemma RunnersChanged(cfg: Config, c: Cluster, c': Cluster)
    requires Invariant(cfg, c) && c' == c.(runners := c'.runners) && RoundsSound(cfg, c')
    ensures Invariant(cfg, c')
  {
    assert ViewOf(cfg, c') == ViewOf(cfg, c);
    assert c.ranks[0 := c.ranks[0]] == c.ranks;
    assert SoundAt(cfg, c, 0);
    RankChanged(cfg, c, c', 0, c.ranks[0]);
  }

  lemma RunnerStep(cfg: Config, c: Cluster, e: Event)
    requires Invariant(cfg, c) && (e.Connect? || e.NextRound?)
    ensures Fine(cfg, Step(cfg, c, e))
  {
    if Step(cfg, c, e) != Next(c) {
      match e
      case Connect(x, p) =>
        ConnectRounds(cfg, c, x, p);
        RunnersChanged(cfg, c, Contacting(cfg, c, x, p));
      case NextRound(x, p, from) =>
        forall r | 0 <= r < |c.ranks|
          ensures LinkInvariant(c.ranks[r], cfg.ranks[r]) && c.ranks[r].step == c.ranks[0].step
        {
          assert SoundAt(cfg, c, r);
        }
        NextRoundRounds(cfg, c, x, p, from);
        RunnersChanged(cfg, c, GoingOn(cfg, c, x, p, c.ranks[from].orders[(x, p)]));
    }
  }

  lemma KillStep(cfg: Config, c: Cluster, e: Event)
    requires Invariant(cfg, c) && (e.DueDates? || e.KillRequest?)
    ensures Fine(cfg, Step(cfg, c, e))
  {
    if Step(cfg, c, e) != Next(c) {
      match e
      case DueDates(r, now, due) =>
        if r == 0 { RootDueDatesKeep(cfg, c, now, due); } else { RankDueDatesKeep(cfg, c, r, now); }
      case KillRequest(from, due) => KillRequestKeeps(cfg, c, from, due);
    }
  }

  lemma FinishStep(cfg: Config, c: Cluster, e: Event)
    requires Invariant(cfg, c) && (e.Report? || e.CountReport? || e.Announce? || e.Notice?)
    ensures Fine(cfg, Step(cfg, c, e))
  {
    if Step(cfg, c, e) != Next(c) {
      match e
      case Report(r) => ReportKeeps(cfg, c, r);
      case CountReport(from) => CountReportKeeps(cfg, c, from);
      case Announce => AnnounceKeeps(cfg, c);
      case Notice(r) => NoticeKeeps(cfg, c, r);
    }
  }

  lemma UpdateStep(cfg: Config, c: Cluster, e: Event)
    requires Invariant(cfg, c) && e.Update?
    ensures Fine(cfg, Step(cfg, c, e))
  {
    if Step(cfg, c, e) != Next(c) && e.nsteps > 0 {
      UpdateKeeps(cfg, c, e.nsteps, e.due);
    }
  }

  lemma ArrivalStep(cfg: Config, c: Cluster, e: Event)
    requires Invariant(cfg, c) && e.TaskArrival?
    ensures Fine(cfg, Step(cfg, c, e))
  {
    if Step(cfg, c, e) != Next(c) {
      ArrivalKeeps(cfg, c, e.r);
    }
  }

  lemma StepKeeps(cfg: Config, c: Cluster, e: Event)
    requires Invariant(cfg, c)
    ensures Fine(cfg, Step(cfg, c, e))
  {
    match e
    case Connect(_, _) => RunnerStep(cfg, c, e);
    case NextRound(_, _, _) => RunnerStep(cfg, c, e);
    case Data(_, _, _, _) => DataStep(cfg, c, e);
    case DueDates(_, _, _) => KillStep(cfg, c, e);
    case KillRequest(_, _) => KillStep(cfg, c, e);
    case TaskArrival(_) => ArrivalStep(cfg, c, e);
    case Report(_) => FinishStep(cfg, c, e);
    case CountReport(_) => FinishStep(cfg, c, e);
    case Announce => FinishStep(cfg, c, e);
    case Notice(_) => FinishStep(cfg, c, e);
    case Update(_, _) => UpdateStep(cfg, c, e);
  }

  lemma {:induction false} RunKeeps(cfg: Config, c: Cluster, events: seq<Event>)
    requires Invariant(cfg, c)
    ensures Fine(cfg, Run(cfg, c, events))
    decreases |events|
  {
    if events != [] {
      StepKeeps(cfg, c, events[0]);
      var o := Step(cfg, c, events[0]);
      if o.Next? {
        RunKeeps(cfg, o.c, events[1..]);
      }
    }
  }
}
