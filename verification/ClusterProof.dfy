/**
  Every run of the server keeps the agreement of module Protocol, so none of the assertions
  in the code fires, and at every update step the background states are what they should be.
 */
module ClusterProof {
  import opened TaskState
  import opened RankInvariant
  import opened ServerCluster
  import opened RunnerRegisters
  import P = Protocol

  // ----- the server seen as the protocol -----------------------------------

  function RankViewOf(cfg: Config, q: RankState, r: nat): P.RankView
    requires r < |cfg.ranks|
  {
    P.RankView(q.holder, q.killed, q.highestReceived, q.highestSent,
               WouldFinish(q, cfg.ensembleSize, |cfg.ranks[r]|))
  }

  ghost function ViewOf(cfg: Config, c: Cluster): P.View
    requires WellFormed(cfg, c)
  {
    P.View(seq(|c.ranks|, r requires 0 <= r < |c.ranks| => RankViewOf(cfg, c.ranks[r], r)),
           c.newTasks, c.kills, c.reports, c.allFinished, c.updating,
           c.issued, c.counted, c.ranks[0].taskId, c.ranks[0].finishedRanks)
  }

  function Sum(s: seq<nat>): nat {
    if s == [] then 0 else Sum(s[..|s| - 1]) + s[|s| - 1]
  }

  /** How often a member has been handed out. */
  function TimesIssued(log: seq<NewTask>, s: int): nat {
    if log == [] then 0 else TimesIssued(log[..|log| - 1], s) + if log[|log| - 1].state == s then 1 else 0
  }

  lemma IssuedOnceMore(log: seq<NewTask>, nt: NewTask, s: int)
    ensures TimesIssued(log + [nt], s) == TimesIssued(log, s) + if nt.state == s then 1 else 0
  {
    assert (log + [nt])[..|log|] == log;
  }

  /** A member is handed out once, and once more after each of its failures. */
  ghost predicate MemberCounted(q: RankState, log: seq<NewTask>, s: int)
    requires 0 <= s < |q.failcount|
  {
    TimesIssued(log, s) == q.failcount[s] + if s in q.unscheduled then 0 else 1
  }

  /** Every task beyond the first of a member is a retry. */
  ghost predicate RetriesCounted(cfg: Config, q: RankState, log: seq<NewTask>) {
    && |q.failcount| == cfg.ensembleSize
    && (forall s :: 0 <= s < |q.failcount| ==> q.failcount[s] <= MAX_FAIL_COUNT)
    && (forall s :: 0 <= s < |q.failcount| ==> MemberCounted(q, log, s))
    && q.taskId - 1 == Sum(q.failcount) + cfg.ensembleSize - |q.unscheduled|
  }

  ghost predicate RanksSound(cfg: Config, c: Cluster)
    requires WellFormed(cfg, c)
  {
    forall r :: 0 <= r < |c.ranks| ==> SoundAt(cfg, c, r)
  }

  ghost predicate SoundAt(cfg: Config, c: Cluster, r: nat)
    requires r < |c.ranks| && r < |cfg.ranks|
  {
    RankSound(c.ranks[r], cfg.ranks[r], cfg.ensembleSize)
  }

  ghost predicate SameStep(c: Cluster) {
    forall r :: 0 <= r < |c.ranks| ==> c.ranks[r].step == c.ranks[0].step
  }

  ghost predicate MembersIssued(cfg: Config, log: seq<NewTask>) {
    forall i :: 0 <= i < |log| ==> log[i].state in Members(cfg.ensembleSize)
  }

  ghost predicate RanksInvariant(cfg: Config, c: Cluster) {
    && WellFormed(cfg, c)
    && RanksSound(cfg, c)
    && SameStep(c)
    && MembersIssued(cfg, c.issued)
    && RetriesCounted(cfg, c.ranks[0], c.issued)
  }

  ghost predicate Invariant(cfg: Config, c: Cluster) {
    RanksInvariant(cfg, c) && P.Invariant(ViewOf(cfg, c)) && RoundsSound(cfg, c)
  }

  // ----- one rank changes --------------------------------------------------

  /** All but rank r is the same; the channels may have changed. */
  ghost predicate OnlyRank(c: Cluster, c': Cluster, r: nat, q: RankState) {
    && r < |c.ranks| && c'.ranks == c.ranks[r := q]
    && |c'.newTasks| == |c.newTasks| && |c'.kills| == |c.kills| && |c'.reports| == |c.reports|
    && |c'.allFinished| == |c.allFinished| && |c'.updating| == |c.updating|
  }

  lemma RankChanged(cfg: Config, c: Cluster, c': Cluster, r: nat, q: RankState)
    requires RanksInvariant(cfg, c) && OnlyRank(c, c', r, q)
    requires RankSound(q, cfg.ranks[r], cfg.ensembleSize) && q.step == c.ranks[r].step
    requires if r == 0 then RetriesCounted(cfg, q, c'.issued) else c'.issued == c.issued
    requires MembersIssued(cfg, c'.issued)
    ensures RanksInvariant(cfg, c')
  {
    forall k | 0 <= k < |c'.ranks|
      ensures SoundAt(cfg, c', k) && c'.ranks[k].step == q.step
    {
      assert SoundAt(cfg, c, k);
      assert c.ranks[k].step == c.ranks[0].step;
    }
  }

  lemma ViewChanged(cfg: Config, c: Cluster, c': Cluster, r: nat, q: RankState)
    requires WellFormed(cfg, c) && OnlyRank(c, c', r, q)
    ensures WellFormed(cfg, c')
    ensures ViewOf(cfg, c')
            == P.View(ViewOf(cfg, c).ranks[r := RankViewOf(cfg, q, r)],
                      c'.newTasks, c'.kills, c'.reports, c'.allFinished, c'.updating,
                      c'.issued, c'.counted, c'.ranks[0].taskId, c'.ranks[0].finishedRanks)
  {
    assert ViewOf(cfg, c').ranks == ViewOf(cfg, c).ranks[r := RankViewOf(cfg, q, r)];
  }

  // ----- rank 0 issues a task ----------------------------------------------

  /** Rank 0 takes the task from its unscheduled members, for a runner it has not given up. */
  ghost predicate Issuable(q: RankState, nt: NewTask) {
    nt.state in q.unscheduled && !IsDead(q.killed, nt.runner) && nt.id == q.taskId + 1
  }

  /** Counters do not matter to the lists. */
  lemma RelabelSound(q: RankState, q': RankState, ranks: seq<nat>, ensembleSize: nat)
    requires RankSound(q, ranks, ensembleSize)
    requires q == q'.(taskId := q.taskId, finishedRanks := q.finishedRanks, failcount := q.failcount,
                      highestReceived := q.highestReceived, highestSent := q.highestSent)
    ensures RankSound(q', ranks, ensembleSize)
  {
    assert forall st :: Count(q', st) == Count(q, st);
  }

  lemma IssueSound(q: RankState, nt: NewTask, ranks: seq<nat>, ensembleSize: nat)
    requires RankSound(q, ranks, ensembleSize) && Distinct(ranks) && Issuable(q, nt)
    ensures RankSound(Issue(q, nt, ranks), ranks, ensembleSize)
  {
    var q1 := q.(taskId := nt.id, finishedRanks := 0);
    RelabelSound(q, q1, ranks, ensembleSize);
    AssignKeepsInvariant(q1, nt, ranks, ensembleSize);
  }

  /** What issuing a task does to rank 0. */
  lemma IssueRank(cfg: Config, q: RankState, nt: NewTask, ranks: seq<nat>, log: seq<NewTask>)
    requires HolderInvariant(q, cfg.ensembleSize) && RetriesCounted(cfg, q, log) && Issuable(q, nt)
    ensures nt.state !in q.holder && nt.state in Members(cfg.ensembleSize)
    ensures RetriesCounted(cfg, Issue(q, nt, ranks), log + [nt])
    ensures SameLedger(Take(q, nt).(taskId := nt.id, finishedRanks := 0), Issue(q, nt, ranks))
  {
    AssignFrame(q.(taskId := nt.id, finishedRanks := 0), nt, ranks);
    var q' := Issue(q, nt, ranks);
    forall s | 0 <= s < |q'.failcount| ensures MemberCounted(q', log + [nt], s) {
      assert MemberCounted(q, log, s);
      IssuedOnceMore(log, nt, s);
    }
  }

  ghost function AfterIssue(cfg: Config, c: Cluster, nt: NewTask): Cluster
    requires WellFormed(cfg, c)
  {
    Broadcast(c, Issue(c.ranks[0], nt, cfg.ranks[0]), [nt])
  }

  lemma IssueKeepsRanks(cfg: Config, c: Cluster, nt: NewTask)
    requires RanksInvariant(cfg, c) && Issuable(c.ranks[0], nt)
    ensures RanksInvariant(cfg, AfterIssue(cfg, c, nt))
  {
    var q, c' := c.ranks[0], AfterIssue(cfg, c, nt);
    assert SoundAt(cfg, c, 0);
    IssueSound(q, nt, cfg.ranks[0], cfg.ensembleSize);
    IssueRank(cfg, q, nt, cfg.ranks[0], c.issued);
    RankChanged(cfg, c, c', 0, Issue(q, nt, cfg.ranks[0]));
  }

  lemma IssueIsIssue(cfg: Config, c: Cluster, nt: NewTask)
    requires WellFormed(cfg, c) && nt.id == c.ranks[0].taskId + 1
    ensures WellFormed(cfg, AfterIssue(cfg, c, nt))
    ensures ViewOf(cfg, AfterIssue(cfg, c, nt))
            == P.Issue(ViewOf(cfg, c), nt,
                       WouldFinish(Issue(c.ranks[0], nt, cfg.ranks[0]), cfg.ensembleSize, |cfg.ranks[0]|))
  {
    var q' := Issue(c.ranks[0], nt, cfg.ranks[0]);
    AssignFrame(c.ranks[0].(taskId := nt.id, finishedRanks := 0), nt, cfg.ranks[0]);
    ViewChanged(cfg, c, AfterIssue(cfg, c, nt), 0, q');
  }

  /** What the other ranks have seen of the log is the same, and rank 0 has seen all of it. */
  lemma IssueSeen(cfg: Config, c: Cluster, nt: NewTask)
    requires WellFormed(cfg, c) && P.LogSound(ViewOf(cfg, c))
    ensures var c' := AfterIssue(cfg, c, nt);
            && SeenBy(c', 0) == SeenBy(c, 0) + [nt]
            && forall k :: 0 < k < |c.ranks| ==> SeenBy(c', k) == SeenBy(c, k)
  {
    var v := ViewOf(cfg, c);
    forall k | 0 <= k < |c.ranks| ensures |c.newTasks[k]| <= |c.issued| {
      assert 0 <= P.Received(v, k);
    }
  }

  lemma IssueRounds(cfg: Config, c: Cluster, nt: NewTask)
    requires Invariant(cfg, c) && RanksInvariant(cfg, AfterIssue(cfg, c, nt))
    ensures RoundsSound(cfg, AfterIssue(cfg, c, nt))
  {
    var q, c' := c.ranks[0], AfterIssue(cfg, c, nt);
    var q1 := q.(taskId := nt.id, finishedRanks := 0);
    assert SoundAt(cfg, c, 0) && RoundsAt(cfg, c, 0);
    RelabelSound(q, q1, cfg.ranks[0], cfg.ensembleSize);
    FrameRounds(q, q1, SeenBy(c, 0), c.gone, c.runners, 0, cfg.ranks[0]);
    AssignRounds(q1, nt, SeenBy(c, 0), c.gone, c.runners, 0, cfg.ranks[0]);
    AssignFrame(q1, nt, cfg.ranks[0]);
    IssueSeen(cfg, c, nt);
    RootMoved(cfg, c, c', Issue(q, nt, cfg.ranks[0]), nt);
  }

  /** Rank 0 has changed and has seen one task more, which is on its way to the others. */
  lemma RootMoved(cfg: Config, c: Cluster, c': Cluster, q: RankState, nt: NewTask)
    requires WellFormed(cfg, c) && WellFormed(cfg, c') && RoundsSound(cfg, c)
    requires c' == Broadcast(c, q, [nt]) && q.step == c.ranks[0].step
    requires SeenBy(c', 0) == SeenBy(c, 0) + [nt]
    requires forall k :: 0 < k < |c.ranks| ==> SeenBy(c', k) == SeenBy(c, k)
    requires RankRounds(q, SeenBy(c, 0) + [nt], c.gone, c.runners, 0, cfg.ranks[0])
    ensures RoundsSound(cfg, c')
  {
    assert RoundsAt(cfg, c', 0);
    RoundsChanged(cfg, c, c', 0);
  }

  lemma IssueKeeps(cfg: Config, c: Cluster, nt: NewTask)
    requires Invariant(cfg, c) && !c.updating[0] && Issuable(c.ranks[0], nt)
    ensures Invariant(cfg, AfterIssue(cfg, c, nt))
  {
    IssueView(cfg, c, nt);
    IssueKeepsRanks(cfg, c, nt);
    IssueRounds(cfg, c, nt);
  }

  lemma IssueView(cfg: Config, c: Cluster, nt: NewTask)
    requires Invariant(cfg, c) && !c.updating[0] && Issuable(c.ranks[0], nt)
    ensures WellFormed(cfg, AfterIssue(cfg, c, nt)) && P.Invariant(ViewOf(cfg, AfterIssue(cfg, c, nt)))
  {
    IssueIsIssue(cfg, c, nt);
    assert SoundAt(cfg, c, 0);
    P.IssueKeeps(ViewOf(cfg, c), nt,
                 WouldFinish(Issue(c.ranks[0], nt, cfg.ranks[0]), cfg.ensembleSize, |cfg.ranks[0]|));
  }

  lemma AppendNothing<T>(channels: seq<seq<T>>)
    ensures Append(channels, []) == channels
  {
    forall r | 0 <= r < |channels| ensures Append(channels, [])[r] == channels[r] {
    }
  }

  lemma AppendTwice<T>(channels: seq<seq<T>>, a: seq<T>, b: seq<T>)
    ensures Append(Append(channels, a), b) == Append(channels, a + b)
  {
    forall r | 0 <= r < |channels| ensures Append(Append(channels, a), b)[r] == Append(channels, a + b)[r] {
    }
  }

  lemma BroadcastTwice(c: Cluster, q: RankState, sent: seq<NewTask>, q': RankState, sent': seq<NewTask>)
    requires |c.ranks| > 0
    ensures Broadcast(Broadcast(c, q, sent), q', sent') == Broadcast(c, q', sent + sent')
  {
    AppendTwice(c.newTasks, sent, sent');
    assert c.issued + sent + sent' == c.issued + (sent + sent');
    assert c.ranks[0 := q][0 := q'] == c.ranks[0 := q'];
  }

  lemma BroadcastNothing(c: Cluster, q: RankState)
    requires |c.ranks| > 0
    ensures Broadcast(c, q, []) == c.(ranks := c.ranks[0 := q])
  {
    AppendNothing(c.newTasks);
  }

  /** What rank 0 is after one of its handlers, seen from the cluster before. */
  ghost predicate EffectKeeps(cfg: Config, c: Cluster, e: Effect) {
    e.Effect? ==> |c.ranks| > 0 && Invariant(cfg, Broadcast(c, e.q, e.sent))
  }

  lemma TryScheduleKeeps(cfg: Config, c: Cluster, q: RankState, runner: int, due: int)
    requires |c.ranks| > 0 && |cfg.ranks| > 0
    requires Invariant(cfg, Broadcast(c, q, [])) && !c.updating[0] && !IsDead(q.killed, runner)
    ensures EffectKeeps(cfg, c, TrySchedule(q, runner, due, cfg.ranks[0]))
  {
    if q.unscheduled != {} {
      var nt := ScheduledTask(q, runner, due);
      IssueKeeps(cfg, Broadcast(c, q, []), nt);
      BroadcastTwice(c, q, [], Issue(q, nt, cfg.ranks[0]), [nt]);
      assert [] + [nt] == [nt];
    }
  }

  lemma RescheduleKeeps(cfg: Config, c: Cluster, q: RankState, due: int)
    requires |c.ranks| > 0 && |cfg.ranks| > 0
    requires Invariant(cfg, Broadcast(c, q, [])) && !c.updating[0]
    ensures EffectKeeps(cfg, c, Reschedule(q, due, cfg.ranks[0]))
  {
    if CompletelyIdleRunners(q.idle, |cfg.ranks[0]|) != {} {
      assert exists x :: x in q.idle.Keys;
      var runner := Least(q.idle.Keys);
      assert SoundAt(cfg, Broadcast(c, q, []), 0);
      TryScheduleKeeps(cfg, c, q, runner, due);
    }
  }

  // ----- messages of runner ranks ------------------------------------------

  /** Nothing that is counted has changed. */
  lemma RetriesFrame(cfg: Config, q: RankState, q': RankState, log: seq<NewTask>)
    requires RetriesCounted(cfg, q, log)
    requires q'.failcount == q.failcount && q'.unscheduled == q.unscheduled && q'.taskId == q.taskId
    ensures RetriesCounted(cfg, q', log)
  {
    forall s | 0 <= s < |q'.failcount| ensures MemberCounted(q', log, s) {
      assert MemberCounted(q, log, s);
    }
  }

  lemma DataKeepsRetries(cfg: Config, q: RankState, m: DataMessage, log: seq<NewTask>)
    requires RetriesCounted(cfg, q, log)
    ensures RetriesCounted(cfg, HandleData(q, m), log)
  {
    HandleDataFrame(q, m);
    RetriesFrame(cfg, q, HandleData(q, m), log);
  }

  /** The message of a runner rank arrives, before rank 0 looks for new work. */
  ghost function AfterData(cfg: Config, c: Cluster, r: nat, x: int, p: nat): Cluster
    requires r < |c.ranks| && IsUnderWay(cfg, c, r, x, p)
  {
    Delivered(c, r, x, p).(ranks := c.ranks[r := HandleData(c.ranks[r], MessageOf(c, x, p))])
  }

  /** The message is what the rank expects of a living runner. */
  lemma DataIsExpected(cfg: Config, c: Cluster, r: nat, x: int, p: nat)
    requires Invariant(cfg, c) && r < |c.ranks| && IsUnderWay(cfg, c, r, x, p)
    ensures !IsDead(c.ranks[r].killed, x) ==> IsExpected(c.ranks[r], MessageOf(c, x, p))
  {
    assert SoundAt(cfg, c, r);
    if !IsDead(c.ranks[r].killed, x) {
      MessageIsExpected(cfg, c, r, x, p);
    }
  }

  lemma DataKeepsRanks(cfg: Config, c: Cluster, r: nat, x: int, p: nat)
    requires Invariant(cfg, c) && r < |c.ranks| && IsUnderWay(cfg, c, r, x, p)
    ensures RanksInvariant(cfg, AfterData(cfg, c, r, x, p))
  {
    var q, m := c.ranks[r], MessageOf(c, x, p);
    assert SoundAt(cfg, c, r);
    DataIsExpected(cfg, c, r, x, p);
    HandleDataKeepsInvariant(q, cfg.ranks[r], cfg.ensembleSize, m);
    HandleDataFrame(q, m);
    if r == 0 { DataKeepsRetries(cfg, q, m, c.issued); }
    RankChanged(cfg, c, AfterData(cfg, c, r, x, p), r, HandleData(q, m));
  }

  lemma DataView(cfg: Config, c: Cluster, r: nat, x: int, p: nat)
    requires Invariant(cfg, c) && r < |c.ranks| && IsUnderWay(cfg, c, r, x, p)
    ensures WellFormed(cfg, AfterData(cfg, c, r, x, p)) && P.Invariant(ViewOf(cfg, AfterData(cfg, c, r, x, p)))
  {
    var q, m, c' := c.ranks[r], MessageOf(c, x, p), AfterData(cfg, c, r, x, p);
    HandleDataFrame(q, m);
    ViewChanged(cfg, c, c', r, HandleData(q, m));
    var done := WouldFinish(HandleData(q, m), cfg.ensembleSize, |cfg.ranks[r]|);
    assert ViewOf(cfg, c') == P.Work(ViewOf(cfg, c), r, done);
    if ViewOf(cfg, c).ranks[r].done { DataKeepsFinished(q, m, cfg.ensembleSize, |cfg.ranks[r]|); }
    P.WorkKeeps(ViewOf(cfg, c), r, done);
  }

  lemma DataKeeps(cfg: Config, c: Cluster, r: nat, x: int, p: nat)
    requires Invariant(cfg, c) && r < |c.ranks| && IsUnderWay(cfg, c, r, x, p)
    ensures Invariant(cfg, AfterData(cfg, c, r, x, p))
  {
    DataKeepsRanks(cfg, c, r, x, p);
    DataView(cfg, c, r, x, p);
    HandleDataFrame(c.ranks[r], MessageOf(c, x, p));
    DeliveredRounds(cfg, c, r, x, p);
  }

  lemma RootDataKeeps(cfg: Config, c: Cluster, x: int, p: nat, due: int)
    requires Invariant(cfg, c) && !c.updating[0] && IsUnderWay(cfg, c, 0, x, p)
    ensures EffectKeeps(cfg, Delivered(c, 0, x, p),
                        RootHandleData(c.ranks[0], MessageOf(c, x, p), due, cfg.ranks[0]))
  {
    var m, c1 := MessageOf(c, x, p), Delivered(c, 0, x, p);
    DataKeeps(cfg, c, 0, x, p);
    BroadcastNothing(c1, HandleData(c.ranks[0], m));
    if BecomesIdle(c.ranks[0], m, |cfg.ranks[0]|) {
      HandleDataFrame(c.ranks[0], m);
      TryScheduleKeeps(cfg, c1, HandleData(c.ranks[0], m), x, due);
    }
  }

  // ----- rank 0 kills ------------------------------------------------------

  lemma {:induction false} SumOfUpdate(s: seq<nat>, i: nat)
    requires i < |s|
    ensures Sum(s[i := s[i] + 1]) == Sum(s) + 1
  {
    var n, t := |s| - 1, s[i := s[i] + 1];
    if i < n {
      SumOfUpdate(s[..n], i);
      assert t[..n] == s[..n][i := s[..n][i] + 1];
    } else {
      assert t[..n] == s[..n];
    }
  }

  ghost function Killed(q: RankState, t: Task): RankState
    requires !FailsTooOften(KillTask(q, t), t.state)
  {
    FailState(KillTask(q, t), t.state)
  }

  lemma KillFrame(q: RankState, t: Task)
    ensures var q' := KillTask(q, t);
            && q'.unscheduled == q.unscheduled + {t.state} && q'.holder == q.holder - {t.state}
            && q'.killed == q.killed + {t} && q'.step == q.step
            && q'.highestReceived == q.highestReceived && q'.highestSent == q.highestSent
            && q'.taskId == q.taskId && q'.finishedRanks == q.finishedRanks && q'.failcount == q.failcount
  {
  }

  /** A failure is counted, and the member is unscheduled again. */
  lemma CountersKept(cfg: Config, q: RankState, q': RankState, s: int, log: seq<NewTask>)
    requires RetriesCounted(cfg, q, log) && s !in q.unscheduled && 0 <= s < |q.failcount|
    requires q.failcount[s] + 1 <= MAX_FAIL_COUNT
    requires q'.failcount == q.failcount[s := q.failcount[s] + 1]
    requires q'.unscheduled == q.unscheduled + {s} && q'.taskId == q.taskId
    ensures RetriesCounted(cfg, q', log)
  {
    SumOfUpdate(q.failcount, s);
    assert |q'.unscheduled| == |q.unscheduled| + 1;
    forall u | 0 <= u < |q'.failcount| ensures MemberCounted(q', log, u) {
      assert MemberCounted(q, log, u);
    }
  }

  lemma KilledRetries(cfg: Config, q: RankState, t: Task, log: seq<NewTask>)
    requires RetriesCounted(cfg, q, log) && HolderInvariant(q, cfg.ensembleSize)
    requires P.Holds(q.holder, t) && !FailsTooOften(KillTask(q, t), t.state)
    ensures RetriesCounted(cfg, Killed(q, t), log)
  {
    KillFrame(q, t);
    assert t.state !in q.unscheduled;
    CountersKept(cfg, q, Killed(q, t), t.state, log);
  }

  lemma KilledSound(q: RankState, t: Task, ranks: seq<nat>, ensembleSize: nat)
    requires RankSound(q, ranks, ensembleSize)
    requires P.Holds(q.holder, t) && !FailsTooOften(KillTask(q, t), t.state)
    ensures RankSound(Killed(q, t), ranks, ensembleSize)
  {
    KillKeepsInvariant(q, t, ranks, ensembleSize);
    RelabelSound(KillTask(q, t), Killed(q, t), ranks, ensembleSize);
  }

  lemma KilledKeeps(cfg: Config, c: Cluster, t: Task)
    requires Invariant(cfg, c) && !c.updating[0] && P.Holds(c.ranks[0].holder, t)
    requires !FailsTooOften(KillTask(c.ranks[0], t), t.state)
    ensures Invariant(cfg, c.(ranks := c.ranks[0 := Killed(c.ranks[0], t)]))
  {
    var q, q' := c.ranks[0], Killed(c.ranks[0], t);
    var c' := c.(ranks := c.ranks[0 := q']);
    assert SoundAt(cfg, c, 0);
    KilledSound(q, t, cfg.ranks[0], cfg.ensembleSize);
    KilledRetries(cfg, q, t, c.issued);
    KillFrame(q, t);
    RankChanged(cfg, c, c', 0, q');
    ViewChanged(cfg, c, c', 0, q');
    assert ViewOf(cfg, c') == P.RootKill(ViewOf(cfg, c), t, false);
    P.RootKillKeeps(ViewOf(cfg, c), t, false);
    KilledRounds(cfg, c, t);
  }

  lemma KilledRounds(cfg: Config, c: Cluster, t: Task)
    requires Invariant(cfg, c) && !FailsTooOften(KillTask(c.ranks[0], t), t.state)
    ensures var c' := c.(ranks := c.ranks[0 := Killed(c.ranks[0], t)]);
            WellFormed(cfg, c') && RoundsSound(cfg, c')
  {
    var q, c' := c.ranks[0], c.(ranks := c.ranks[0 := Killed(c.ranks[0], t)]);
    assert RoundsAt(cfg, c, 0);
    KillRounds(q, t, SeenBy(c, 0), c.gone, c.runners, 0, cfg.ranks[0]);
    FrameRounds(KillTask(q, t), Killed(q, t), SeenBy(c, 0), c.gone, c.runners, 0, cfg.ranks[0]);
    KillFrame(q, t);
    RankMoved(cfg, c, c', 0, Killed(q, t), SeenBy(c, 0));
  }

  lemma RootKillKeeps(cfg: Config, c: Cluster, t: Task, due: int)
    requires Invariant(cfg, c) && !c.updating[0] && P.Holds(c.ranks[0].holder, t)
    ensures EffectKeeps(cfg, c, RootKill(c.ranks[0], t, due, cfg.ranks[0]))
  {
    KillFrame(c.ranks[0], t);
    if !FailsTooOften(c.ranks[0], t.state) {
      KilledKeeps(cfg, c, t);
      BroadcastNothing(c, Killed(c.ranks[0], t));
      RescheduleKeeps(cfg, c, Killed(c.ranks[0], t), due);
    }
  }

  // ----- due dates ---------------------------------------------------------

  /** Whatever is overdue is held. */
  lemma OverdueIsHeld(q: RankState, ranks: seq<nat>, now: int, t: Task)
    requires CountInvariant(q, ranks) && t in Overdue(q, now)
    ensures P.Holds(q.holder, t)
  {
    var st :| (st in q.scheduled || st in q.running) && t == Task(st.state, st.runner);
    CountMembers(q, st);
    assert Expected(q.holder, ranks, st);
  }

  lemma OverdueAllHeld(q: RankState, ranks: seq<nat>, now: int)
    requires CountInvariant(q, ranks)
    ensures AllHeld(q, InOrder(Overdue(q, now)))
  {
    var tasks := InOrder(Overdue(q, now));
    forall t | t in tasks ensures P.Holds(q.holder, t) {
      OverdueIsHeld(q, ranks, now, t);
    }
    forall i, j | 0 <= i < j < |tasks| ensures tasks[i].state != tasks[j].state {
      assert P.Holds(q.holder, tasks[i]) && P.Holds(q.holder, tasks[j]);
      assert TaskLess(tasks[i], tasks[j]);
    }
  }

  /** After a kill all other tasks are still there. */
  lemma RootKillLeaves(q: RankState, t: Task, due: int, ranks: seq<nat>, u: Task)
    requires P.Holds(q.holder, t) && P.Holds(q.holder, u) && u != t
    requires q.unscheduled !! q.holder.Keys
    ensures RootKill(q, t, due, ranks).Effect? ==> P.Holds(RootKill(q, t, due, ranks).q.holder, u)
  {
    KillFrame(q, t);
    if !FailsTooOften(q, t.state) {
      RescheduleLeaves(Killed(q, t), due, ranks, u);
    }
  }

  lemma RescheduleLeaves(q: RankState, due: int, ranks: seq<nat>, u: Task)
    requires P.Holds(q.holder, u) && u.state !in q.unscheduled
    ensures P.Holds(Reschedule(q, due, ranks).q.holder, u)
  {
    if CompletelyIdleRunners(q.idle, |ranks|) != {} && q.unscheduled != {} {
      assert exists x :: x in q.idle.Keys;
      IssueLeaves(q, ScheduledTask(q, Least(q.idle.Keys), due), ranks, u);
    }
  }

  lemma IssueLeaves(q: RankState, nt: NewTask, ranks: seq<nat>, u: Task)
    requires P.Holds(q.holder, u) && u.state !in q.unscheduled && nt.state in q.unscheduled
    ensures P.Holds(Issue(q, nt, ranks).holder, u)
  {
    AssignFrame(q.(taskId := nt.id, finishedRanks := 0), nt, ranks);
  }

  /** Tasks that are all held on a rank concern different members. */
  ghost predicate AllHeld(q: RankState, tasks: seq<Task>) {
    && (forall t :: t in tasks ==> P.Holds(q.holder, t))
    && (forall i, j :: 0 <= i < j < |tasks| ==> tasks[i].state != tasks[j].state)
  }

  lemma RestHeld(q: RankState, tasks: seq<Task>)
    requires tasks != [] && AllHeld(q, tasks)
    ensures P.Holds(q.holder, tasks[0])
    ensures forall t :: t in tasks[1..] ==> P.Holds(q.holder, t) && t.state != tasks[0].state
    ensures AllHeld(KillTask(q, tasks[0]), tasks[1..])
  {
    KillFrame(q, tasks[0]);
  }

  lemma RootKillLeavesRest(q: RankState, tasks: seq<Task>, due: int, ranks: seq<nat>)
    requires tasks != [] && AllHeld(q, tasks) && q.unscheduled !! q.holder.Keys
    ensures var e := RootKill(q, tasks[0], due, ranks); e.Effect? ==> AllHeld(e.q, tasks[1..])
  {
    RestHeld(q, tasks);
    forall u | u in tasks[1..]
      ensures RootKill(q, tasks[0], due, ranks).Effect? ==> P.Holds(RootKill(q, tasks[0], due, ranks).q.holder, u)
    {
      RootKillLeaves(q, tasks[0], due, ranks, u);
    }
  }

  lemma {:induction false} RootKillAllKeeps(cfg: Config, c: Cluster, tasks: seq<Task>, due: int)
    requires Invariant(cfg, c) && !c.updating[0] && AllHeld(c.ranks[0], tasks)
    ensures EffectKeeps(cfg, c, RootKillAll(c.ranks[0], tasks, due, cfg.ranks[0]))
    decreases |tasks|, 0
  {
    if tasks == [] {
      RootIdleKeeps(cfg, c);
    } else {
      assert tasks[0] in tasks;
      RootKillKeeps(cfg, c, tasks[0], due);
      assert SoundAt(cfg, c, 0);
      RootKillLeavesRest(c.ranks[0], tasks, due, cfg.ranks[0]);
      RootKillRestKeeps(cfg, c, RootKill(c.ranks[0], tasks[0], due, cfg.ranks[0]), tasks[1..], due);
    }
  }

  lemma {:induction false} RootKillRestKeeps(cfg: Config, c: Cluster, e: Effect, rest: seq<Task>, due: int)
    requires WellFormed(cfg, c) && EffectKeeps(cfg, c, e) && !c.updating[0]
    requires e.Effect? ==> AllHeld(e.q, rest)
    ensures e.Effect? ==> EffectKeeps(cfg, c, After(e.sent, RootKillAll(e.q, rest, due, cfg.ranks[0])))
    decreases |rest|, 1
  {
    if e.Effect? {
      RootKillAllKeeps(cfg, Broadcast(c, e.q, e.sent), rest, due);
      AfterKeeps(cfg, c, e.q, e.sent, RootKillAll(e.q, rest, due, cfg.ranks[0]));
    }
  }

  lemma RootIdleKeeps(cfg: Config, c: Cluster)
    requires Invariant(cfg, c)
    ensures EffectKeeps(cfg, c, Effect(c.ranks[0], []))
  {
    BroadcastNothing(c, c.ranks[0]);
    assert c.ranks[0 := c.ranks[0]] == c.ranks;
  }

  lemma AfterKeeps(cfg: Config, c: Cluster, q: RankState, sent: seq<NewTask>, e: Effect)
    requires |c.ranks| > 0 && EffectKeeps(cfg, Broadcast(c, q, sent), e)
    ensures EffectKeeps(cfg, c, After(sent, e))
  {
    if e.Effect? {
      BroadcastTwice(c, q, sent, e.q, e.sent);
    }
  }

  lemma RootDueDatesKeep(cfg: Config, c: Cluster, now: int, due: int)
    requires Invariant(cfg, c) && !c.updating[0]
    ensures EffectKeeps(cfg, c, RootKillAll(c.ranks[0], InOrder(Overdue(c.ranks[0], now)), due, cfg.ranks[0]))
  {
    assert SoundAt(cfg, c, 0);
    OverdueAllHeld(c.ranks[0], cfg.ranks[0], now);
    RootKillAllKeeps(cfg, c, InOrder(Overdue(c.ranks[0], now)), due);
  }

  lemma RankKillKeeps(cfg: Config, c: Cluster, r: nat, t: Task)
    requires Invariant(cfg, c) && 0 < r < |c.ranks| && P.Holds(c.ranks[r].holder, t)
    requires !(0 < c.ranks[r].highestSent == c.ranks[r].highestReceived)
    ensures Invariant(cfg, Asked(c, r, KillTask(c.ranks[r], t), [t]))
  {
    var q, q' := c.ranks[r], KillTask(c.ranks[r], t);
    var c' := Asked(c, r, q', [t]);
    assert SoundAt(cfg, c, r);
    KillKeepsInvariant(q, t, cfg.ranks[r], cfg.ensembleSize);
    KillFrame(q, t);
    RankChanged(cfg, c, c', r, q');
    ViewChanged(cfg, c, c', r, q');
    assert ViewOf(cfg, c') == P.RankKill(ViewOf(cfg, c), r, t, false);
    P.RankKillKeeps(ViewOf(cfg, c), r, t, false);
    RankKillRounds(cfg, c, r, t);
  }

  lemma RankKillRounds(cfg: Config, c: Cluster, r: nat, t: Task)
    requires Invariant(cfg, c) && 0 < r < |c.ranks|
    ensures var c' := Asked(c, r, KillTask(c.ranks[r], t), [t]);
            WellFormed(cfg, c') && RoundsSound(cfg, c')
  {
    var q' := KillTask(c.ranks[r], t);
    assert RoundsAt(cfg, c, r);
    KillRounds(c.ranks[r], t, SeenBy(c, r), c.gone, c.runners, r, cfg.ranks[r]);
    KillFrame(c.ranks[r], t);
    RankMoved(cfg, c, Asked(c, r, q', [t]), r, q', SeenBy(c, r));
  }

  lemma AskedNothing(c: Cluster, r: nat)
    requires r < |c.ranks| && r < |c.kills|
    ensures Asked(c, r, c.ranks[r], []) == c
  {
    assert c.kills[r] + [] == c.kills[r];
    assert c.ranks[r := c.ranks[r]] == c.ranks && c.kills[r := c.kills[r]] == c.kills;
  }

  lemma AskedTwice(c: Cluster, r: nat, q: RankState, requests: seq<Task>, q': RankState, requests': seq<Task>)
    requires r < |c.ranks| && r < |c.kills|
    ensures Asked(Asked(c, r, q, requests), r, q', requests') == Asked(c, r, q', requests + requests')
  {
    assert c.kills[r] + requests + requests' == c.kills[r] + (requests + requests');
    assert c.ranks[r := q][r := q'] == c.ranks[r := q'];
  }

  lemma {:induction false} RankKillAllKeeps(cfg: Config, c: Cluster, r: nat, tasks: seq<Task>)
    requires Invariant(cfg, c) && 0 < r < |c.ranks| && AllHeld(c.ranks[r], tasks)
    requires tasks != [] ==> !(0 < c.ranks[r].highestSent == c.ranks[r].highestReceived)
    ensures Invariant(cfg, Asked(c, r, RankKillAll(c.ranks[r], tasks), tasks))
    decreases |tasks|, 0
  {
    if tasks == [] {
      AskedNothing(c, r);
    } else {
      RestHeld(c.ranks[r], tasks);
      RankKillKeeps(cfg, c, r, tasks[0]);
      KillFrame(c.ranks[r], tasks[0]);
      RankKillRestKeeps(cfg, c, r, KillTask(c.ranks[r], tasks[0]), tasks[0], tasks[1..]);
      assert [tasks[0]] + tasks[1..] == tasks;
    }
  }

  lemma {:induction false} RankKillRestKeeps(cfg: Config, c: Cluster, r: nat, q: RankState, t: Task, rest: seq<Task>)
    requires 0 < r < |c.ranks| && r < |c.kills| && Invariant(cfg, Asked(c, r, q, [t])) && AllHeld(q, rest)
    requires !(0 < q.highestSent == q.highestReceived)
    ensures Invariant(cfg, Asked(c, r, RankKillAll(q, rest), [t] + rest))
    decreases |rest|, 1
  {
    RankKillAllKeeps(cfg, Asked(c, r, q, [t]), r, rest);
    AskedTwice(c, r, q, [t], RankKillAll(q, rest), rest);
  }

  lemma RankDueDatesKeep(cfg: Config, c: Cluster, r: nat, now: int)
    requires Invariant(cfg, c) && 0 < r < |c.ranks|
    ensures var tasks := InOrder(Overdue(c.ranks[r], now));
            Invariant(cfg, Asked(c, r, RankKillAll(c.ranks[r], tasks), tasks))
  {
    assert SoundAt(cfg, c, r);
    OverdueAllHeld(c.ranks[r], cfg.ranks[r], now);
    if 0 < c.ranks[r].highestSent == c.ranks[r].highestReceived {
      ReportedIsDone(cfg, c, r);
    }
    RankKillAllKeeps(cfg, c, r, InOrder(Overdue(c.ranks[r], now)));
  }

  /** A rank whose report is up to date would still finish. */
  lemma ReportedIsDone(cfg: Config, c: Cluster, r: nat)
    requires Invariant(cfg, c) && 0 < r < |c.ranks|
    requires 0 < c.ranks[r].highestSent == c.ranks[r].highestReceived
    ensures RankWouldFinish(cfg, c, r)
  {
    var v := ViewOf(cfg, c);
    assert P.RankReportsSound(v.ranks[r], P.Received(v, r), v.reports[r]);
  }
}
