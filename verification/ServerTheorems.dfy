/**
  What the server promises in every state a run can reach, told without the invariants it is
  proved with; history variables appear only where the orders of a step are compared.
 */
module ServerTheorems {
  import opened TaskState
  import opened RankInvariant
  import opened ServerCluster
  import opened RunnerRounds
  import opened RunnerRegisters
  import opened ClusterProof
  import opened ClusterRuns
  import P = Protocol

  lemma InitialRankSound(cfg: Config, step: int, r: nat)
    requires ValidConfig(cfg) && step > 0 && r < |cfg.ranks|
    ensures RankSound(InitialRank(cfg, step), cfg.ranks[r], cfg.ensembleSize)
  {
    assert forall st :: Count(InitialRank(cfg, step), st) == 0;
  }

  lemma InitialIsSound(cfg: Config, step: int)
    requires ValidConfig(cfg) && step > 0
    ensures Invariant(cfg, Initial(cfg, step))
  {
    InitialRanks(cfg, step);
    InitialView(cfg, step);
    InitialRounds(cfg, step);
  }

  lemma InitialRounds(cfg: Config, step: int)
    requires ValidConfig(cfg)
    ensures WellFormed(cfg, Initial(cfg, step)) && RoundsSound(cfg, Initial(cfg, step))
  {
    var c := Initial(cfg, step);
    forall r | 0 <= r < |c.ranks| ensures RoundsAt(cfg, c, r) {
    }
  }

  lemma InitialRanks(cfg: Config, step: int)
    requires ValidConfig(cfg) && step > 0
    ensures RanksInvariant(cfg, Initial(cfg, step))
  {
    var c := Initial(cfg, step);
    forall r | 0 <= r < |c.ranks| ensures SoundAt(cfg, c, r) {
      InitialRankSound(cfg, step, r);
    }
    SumOfZeros(cfg.ensembleSize);
  }

  lemma InitialView(cfg: Config, step: int)
    requires ValidConfig(cfg)
    ensures WellFormed(cfg, Initial(cfg, step)) && P.Invariant(ViewOf(cfg, Initial(cfg, step)))
  {
    var v := ViewOf(cfg, Initial(cfg, step));
    forall r | 0 <= r < |v.ranks| ensures P.Received(v, r) == 0 && v.newTasks[r] == v.issued[0..] {
    }
    forall r | 0 < r < |v.ranks| ensures P.RankKillsSound(v, r) {
    }
  }

  /** The states a run can come to. */
  ghost predicate Reachable(cfg: Config, c: Cluster)
    requires ValidConfig(cfg)
  {
    exists step, events :: step > 0 && Run(cfg, Initial(cfg, step), events) == Next(c)
  }

  lemma ReachableIsSound(cfg: Config, c: Cluster)
    requires ValidConfig(cfg) && Reachable(cfg, c)
    ensures Invariant(cfg, c)
  {
    var step, events :| step > 0 && Run(cfg, Initial(cfg, step), events) == Next(c);
    InitialIsSound(cfg, step);
    RunKeeps(cfg, Initial(cfg, step), events);
  }

  /** None of the assertions on incoming states, on new tasks and at the end of a step ever fails. */
  lemma NoAssertionFails(cfg: Config, step: int, events: seq<Event>)
    requires ValidConfig(cfg) && step > 0
    ensures !Run(cfg, Initial(cfg, step), events).AssertionFailed?
  {
    InitialIsSound(cfg, step);
    RunKeeps(cfg, Initial(cfg, step), events);
  }

  // ----- runner ranks and server ranks --------------------------------------

  lemma ConnectionIsSound(cfg: Config, c: Cluster, r: nat, x: int, p: nat)
    requires Invariant(cfg, c) && r < |c.ranks| && p in cfg.ranks[r]
    ensures SeenBy(c, r) <= c.issued
    ensures Contact(c.ranks[r], SeenBy(c, r), c.gone, StageOf(c.runners, r, x, p), x, p)
    ensures c.gone <= c.ranks[r].killed && c.ranks[r].step == c.ranks[0].step
    ensures LinkInvariant(c.ranks[r], cfg.ranks[r])
  {
    assert SoundAt(cfg, c, r) && RoundsAt(cfg, c, r);
    assert ContactAt(c.ranks[r], SeenBy(c, r), c.gone, c.runners, r, x, p);
  }

  /** What a server rank has ordered from a runner rank in this step are the first of the members
      that rank 0 has handed to the runner, in that order; the latest of them is the open order. */
  lemma OrdersArePrefixes(cfg: Config, c: Cluster, r: nat, x: int, p: nat)
    requires ValidConfig(cfg) && Reachable(cfg, c)
    requires r < |c.ranks| && r < |cfg.ranks| && p in cfg.ranks[r]
    ensures var given := Given(c.ranks[r].given, x, p);
            && given <= MembersFor(c.issued, x)
            && (HasWork(c.ranks[r], x, p) && c.ranks[r].orders[(x, p)].step == c.ranks[r].step ==>
                  given != [] && given[|given| - 1] == c.ranks[r].orders[(x, p)].state)
  {
    ReachableIsSound(cfg, c);
    ConnectionIsSound(cfg, c, r, x, p);
    MembersKept(SeenBy(c, r), c.issued, x);
  }

  /** The message of a runner rank fits what this server rank has ordered, although the runner rank
      has only one register and sends it to all its server ranks. */
  lemma MessagesFitOrders(cfg: Config, c: Cluster, r: nat, x: int, p: nat)
    requires ValidConfig(cfg) && Reachable(cfg, c)
    requires r < |c.ranks| && IsUnderWay(cfg, c, r, x, p) && !IsDead(c.ranks[r].killed, x)
    ensures IsExpected(c.ranks[r], MessageOf(c, x, p))
  {
    ReachableIsSound(cfg, c);
    DataIsExpected(cfg, c, r, x, p);
  }

  /** A runner rank with all its answers has been given one and the same member by all its server
      ranks, unless all of these have killed the runner: no result mixes two members. */
  lemma AnswersAreEqual(cfg: Config, c: Cluster, x: int, p: nat, k: nat, r: nat)
    requires ValidConfig(cfg) && Reachable(cfg, c) && |c.ranks| == |cfg.ranks|
    requires (x, p) in c.runners && c.runners[(x, p)].pending == {} && HasAnswers(cfg, c, x, p)
    requires k in ServersOf(cfg, p) && r in ServersOf(cfg, p) && !IsDead(c.ranks[k].killed, x)
    ensures c.ranks[r].orders[(x, p)] == c.ranks[k].orders[(x, p)]
  {
    ReachableIsSound(cfg, c);
    SameOrders(cfg, c, x, p, k, r);
  }

  lemma SameOrders(cfg: Config, c: Cluster, x: int, p: nat, k: nat, r: nat)
    requires Invariant(cfg, c)
    requires (x, p) in c.runners && c.runners[(x, p)].pending == {} && HasAnswers(cfg, c, x, p)
    requires k in ServersOf(cfg, p) && r in ServersOf(cfg, p) && !IsDead(c.ranks[k].killed, x)
    ensures c.ranks[r].orders[(x, p)] == c.ranks[k].orders[(x, p)]
  {
    ConnectionIsSound(cfg, c, k, x, p);
    ConnectionIsSound(cfg, c, r, x, p);
    EqualAnswers(c.ranks[k], SeenBy(c, k), cfg.ranks[k], c.ranks[r], SeenBy(c, r), c.issued, c.gone,
                 c.runners[(x, p)].rounds, x, p);
  }

  /** Two ranks of a runner that have got work equally often in this step work on the same member. */
  lemma SameRoundSameMember(cfg: Config, c: Cluster, x: int, p: nat, o: nat)
    requires ValidConfig(cfg) && Reachable(cfg, c) && (x, p) in c.runners && (x, o) in c.runners
    requires c.runners[(x, p)].rounds == c.runners[(x, o)].rounds > 0
    ensures c.runners[(x, p)].state == c.runners[(x, o)].state && c.runners[(x, p)].step == c.runners[(x, o)].step
  {
    ReachableIsSound(cfg, c);
    assert RegistersSound(cfg, c);
  }

  // ----- partition of the work ---------------------------------------------

  /** No sub-task for an unscheduled member; else one for each runner rank, all on one runner. */
  ghost predicate OnOneRunner(q: RankState, ranks: seq<nat>, s: int, held: Held) {
    forall st: SubTask :: st.state == s ==>
      Count(q, st) == if Held(st.runner, st.due) == held && st.rank in ranks then 1 else 0
  }

  ghost predicate Partitioned(q: RankState, ranks: seq<nat>, s: int) {
    if s in q.unscheduled then forall st: SubTask :: st.state == s ==> Count(q, st) == 0
    else exists held :: OnOneRunner(q, ranks, s, held)
  }

  lemma EveryMemberIsPartitioned(cfg: Config, c: Cluster, r: nat, s: int)
    requires ValidConfig(cfg) && Reachable(cfg, c) && r < |c.ranks| && 0 <= s < cfg.ensembleSize
    ensures r < |cfg.ranks| && Partitioned(c.ranks[r], cfg.ranks[r], s)
  {
    ReachableIsSound(cfg, c);
    assert SoundAt(cfg, c, r);
    assert s in Members(cfg.ensembleSize);
    if s !in c.ranks[r].unscheduled {
      assert OnOneRunner(c.ranks[r], cfg.ranks[r], s, c.ranks[r].holder[s]);
    }
  }

  /** The assertion at the end of the main loop, on every rank. */
  lemma AllTasksSomewhere(cfg: Config, c: Cluster, r: nat)
    requires ValidConfig(cfg) && Reachable(cfg, c) && r < |c.ranks|
    ensures r < |cfg.ranks| && AllSomewhere(c.ranks[r], |cfg.ranks[r]|, cfg.ensembleSize)
  {
    ReachableIsSound(cfg, c);
    assert SoundAt(cfg, c, r);
    EveryTaskIsSomewhere(c.ranks[r], cfg.ranks[r], cfg.ensembleSize);
  }

  /** A scheduled sub-task never waits for a runner rank that is idle. */
  lemma NobodyWaitsForIdle(cfg: Config, c: Cluster, r: nat, st: SubTask)
    requires ValidConfig(cfg) && Reachable(cfg, c) && r < |c.ranks|
    requires st in c.ranks[r].scheduled
    ensures !HasConnection(c.ranks[r].idle, st.runner, st.rank)
  {
    ReachableIsSound(cfg, c);
    assert SoundAt(cfg, c, r);
  }

  // ----- termination detection ---------------------------------------------

  /** When rank 0 has sent ALL_FINISHED, every rank has finished every sub-task, no NewTask is on
      its way, and no report is left that could be counted again. */
  lemma TerminationDetection(cfg: Config, c: Cluster)
    requires ValidConfig(cfg) && Reachable(cfg, c) && |c.updating| > 0 && c.updating[0]
    ensures WellFormed(cfg, c)
    ensures forall r :: 0 <= r < |c.ranks| ==> RankWouldFinish(cfg, c, r) && c.newTasks[r] == []
    ensures forall r :: 0 < r < |c.ranks| ==> c.reports[r] == []
    ensures c.ranks[0].finishedRanks == |c.ranks| - 1
  {
    ReachableIsSound(cfg, c);
    P.AnnouncedMeansFinished(ViewOf(cfg, c));
    forall r | 0 <= r < |c.ranks| ensures RankWouldFinish(cfg, c, r) {
      UpdatingIsFinished(cfg, c, r);
    }
  }

  /** Rank 0 counts a rank at most once for a task, and only when that rank has received all tasks
      and has nothing left to do. */
  lemma ReportCountsOnce(cfg: Config, c: Cluster, from: nat)
    requires ValidConfig(cfg) && Reachable(cfg, c)
    requires 0 < from < |c.ranks| && from < |c.reports| && c.reports[from] != []
    requires !c.updating[0] && RankWouldFinish(cfg, c, 0)
    requires c.reports[from][0] == c.ranks[0].taskId
    ensures WellFormed(cfg, c)
    ensures Counted(c, from).reports[from] == []
    ensures c.newTasks[from] == [] && RankWouldFinish(cfg, c, from)
  {
    ReachableIsSound(cfg, c);
    SomethingIssued(cfg, c);
    var v := ViewOf(cfg, c);
    P.CountReportCounts(v, from, from);
    CountReportKeeps(cfg, c, from);
    CountedIsCounted(cfg, c, from);
    P.CountedIsDone(ViewOf(cfg, Counted(c, from)), from);
  }

  /** All ranks enter the update step together, and all messages about tasks have been consumed. */
  lemma UpdateIsCollective(cfg: Config, c: Cluster)
    requires ValidConfig(cfg) && Reachable(cfg, c) && AllUpdating(c)
    ensures WellFormed(cfg, c) && forall r :: 0 < r < |c.ranks| ==> c.allFinished[r] == 0
  {
    ReachableIsSound(cfg, c);
    assert P.PhaseSound(ViewOf(cfg, c));
  }

  // ----- the update step ---------------------------------------------------

  /** On all server ranks all parts of the member come from this runner, and from this step. */
  ghost predicate WrittenBy(cfg: Config, c: Cluster, s: int, x: int)
    requires WellFormed(cfg, c)
  {
    forall r, p :: 0 <= r < |c.ranks| && p in cfg.ranks[r] ==>
      && (s, p) in c.ranks[r].background
      && c.ranks[r].background[(s, p)] == Origin(x, c.ranks[r].step)
  }

  lemma AgreedRunner(cfg: Config, c: Cluster, r: nat, s: int)
    requires Invariant(cfg, c) && c.updating[0] && r < |c.ranks| && 0 <= s < cfg.ensembleSize
    ensures s in c.ranks[0].holder && s in c.ranks[r].holder
    ensures c.ranks[r].holder[s] == c.ranks[0].holder[s]
  {
    assert s in Members(cfg.ensembleSize);
    forall k | k == 0 || k == r ensures s in c.ranks[k].holder {
      assert SoundAt(cfg, c, k);
      UpdatingIsFinished(cfg, c, k);
    }
    var v := ViewOf(cfg, c);
    assert v.ranks[0].holder == c.ranks[0].holder && v.ranks[r].holder == c.ranks[r].holder;
    P.OneRunnerPerMember(v, r, s);
  }

  /** Whatever timeouts, kills and reschedules there were: the background state of a member that
      goes into the update step is the result of one runner for this step, on every server rank. */
  lemma BackgroundFromOneRunner(cfg: Config, c: Cluster, s: int)
    requires ValidConfig(cfg) && Reachable(cfg, c) && |c.updating| > 0 && c.updating[0]
    requires 0 <= s < cfg.ensembleSize
    ensures WellFormed(cfg, c) && exists x :: WrittenBy(cfg, c, s, x)
  {
    ReachableIsSound(cfg, c);
    AgreedRunner(cfg, c, 0, s);
    var x := c.ranks[0].holder[s].runner;
    forall r, p | 0 <= r < |c.ranks| && p in cfg.ranks[r]
      ensures (s, p) in c.ranks[r].background
      ensures c.ranks[r].background[(s, p)] == Origin(x, c.ranks[r].step)
    {
      assert SoundAt(cfg, c, r);
      UpdatingIsFinished(cfg, c, r);
      AgreedRunner(cfg, c, r, s);
      FinishedBackground(c.ranks[r], cfg.ranks[r], cfg.ensembleSize, s, p);
    }
    assert WrittenBy(cfg, c, s, x);
  }

  /** All ranks are in the same step. */
  lemma OneStep(cfg: Config, c: Cluster, r: nat)
    requires ValidConfig(cfg) && Reachable(cfg, c) && r < |c.ranks|
    ensures c.ranks[r].step == c.ranks[0].step
  {
    ReachableIsSound(cfg, c);
  }

  // ----- why the update has to be a barrier ----------------------------------

  /** A new task leaves a rank with something to do. */
  lemma AssignedIsUnfinished(q: RankState, nt: NewTask, ranks: seq<nat>, ensembleSize: nat)
    requires ranks != [] && Distinct(ranks)
    ensures !WouldFinish(Assign(q, nt, ranks), ensembleSize, |ranks|)
  {
    var st := SubTaskOf(nt, ranks[0]);
    AssignFrame(q, nt, ranks);
    AddSubTasksCount(Take(q, nt), nt, ranks, st);
    assert Count(Assign(q, nt, ranks), st) > multiset(q.finished)[st];
  }

  /** Were rank 0 to go on without waiting for the others, a task of the next step could reach a rank
      before that rank has noticed the end of this one.  The rank would give up a runner that rank 0
      has not, and, having something to do again, would not notice the end any more. */
  lemma EarlyTaskKillsGoodRunner(cfg: Config, c: Cluster, r: nat, nt: NewTask)
    requires ValidConfig(cfg) && Reachable(cfg, c) && |c.updating| > 0 && c.updating[0]
    requires 0 < r < |c.ranks| && 0 <= nt.state < cfg.ensembleSize
    ensures r < |cfg.ranks|
    ensures var q' := ReceiveTask(c.ranks[r], nt, cfg.ranks[r]);
            && !WouldFinish(q', cfg.ensembleSize, |cfg.ranks[r]|)
            && exists t :: t in q'.killed && t !in c.ranks[0].killed && t !in c.ranks[r].killed
  {
    ReachableIsSound(cfg, c);
    AgreedRunner(cfg, c, r, nt.state);
    assert SoundAt(cfg, c, 0) && SoundAt(cfg, c, r);
    var q := c.ranks[r];
    var q1 := q.(highestReceived := Max(nt.id, q.highestReceived));
    RelabelSound(q, q1, cfg.ranks[r], cfg.ensembleSize);
    SupersedeIsKill(q1, cfg.ranks[r], cfg.ensembleSize, nt.state);
    var q2 := Supersede(q1, nt.state);
    AssignedIsUnfinished(q2, nt, cfg.ranks[r], cfg.ensembleSize);
    AssignFrame(q2, nt, cfg.ranks[r]);
    assert Task(nt.state, q.holder[nt.state].runner) in q2.killed;
  }

  // ----- killing and retrying ----------------------------------------------

  /** The task whose sub-tasks rank 0 has on its lists for this member. */
  ghost predicate RunsOn(q: RankState, ranks: seq<nat>, t: Task) {
    exists due :: OnOneRunner(q, ranks, t.state, Held(t.runner, due))
  }

  /** A kill request rank 0 acts on names the runner that has the member there at the moment:
      requests that are late, repeated or from an earlier step are among the known ones. */
  lemma KillRequestsAreExact(cfg: Config, c: Cluster, from: nat)
    requires ValidConfig(cfg) && Reachable(cfg, c)
    requires 0 < from < |c.ranks| && from < |c.kills| && c.kills[from] != []
    ensures |cfg.ranks| > 0
    ensures c.kills[from][0] in c.ranks[0].killed || RunsOn(c.ranks[0], cfg.ranks[0], c.kills[from][0])
  {
    ReachableIsSound(cfg, c);
    RequestIsExact(cfg, c, from);
    assert SoundAt(cfg, c, 0);
    var q, t := c.ranks[0], c.kills[from][0];
    if t !in q.killed {
      assert OnOneRunner(q, cfg.ranks[0], t.state, Held(t.runner, q.holder[t.state].due));
    }
  }

  /** The runner of a killed task is not idle on that rank. */
  lemma DeadIsNotIdle(cfg: Config, c: Cluster, r: nat, t: Task)
    requires ValidConfig(cfg) && Reachable(cfg, c) && r < |c.ranks| && t in c.ranks[r].killed
    ensures t.runner !in c.ranks[r].idle
  {
    ReachableIsSound(cfg, c);
    assert SoundAt(cfg, c, r);
  }

  lemma {:induction false} SumIsBounded(s: seq<nat>, bound: nat)
    requires forall i :: 0 <= i < |s| ==> s[i] <= bound
    ensures Sum(s) <= |s| * bound
  {
    if s != [] {
      SumIsBounded(s[..|s| - 1], bound);
    }
  }

  /** A member is handed out once in a step, and once more after each of its failures, but not more
      than six times; so no step that does not give up issues more than six tasks per member. */
  lemma TasksAreBounded(cfg: Config, c: Cluster)
    requires ValidConfig(cfg) && Reachable(cfg, c)
    ensures |c.ranks| > 0 && |c.ranks[0].failcount| == cfg.ensembleSize
    ensures forall s :: 0 <= s < cfg.ensembleSize ==>
              && TimesIssued(c.issued, s) == c.ranks[0].failcount[s] + (if s in c.ranks[0].unscheduled then 0 else 1)
              && TimesIssued(c.issued, s) <= 6
    ensures c.ranks[0].taskId - 1 == |c.issued| <= 6 * cfg.ensembleSize
  {
    ReachableIsSound(cfg, c);
    var q := c.ranks[0];
    forall s | 0 <= s < cfg.ensembleSize
      ensures TimesIssued(c.issued, s) == q.failcount[s] + (if s in q.unscheduled then 0 else 1) <= 6
    {
      assert MemberCounted(q, c.issued, s);
    }
    SumIsBounded(q.failcount, 5);
    assert ViewOf(cfg, c).taskId == |c.issued| + 1;
  }
}
