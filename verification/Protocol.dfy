/**
  The agreement between the server ranks, without their lists and connections: who holds
  which member on which rank, which tasks have been killed, and what is under way.

  The tasks of a step, in the order of issue, are the log.  Another rank than rank 0 has
  received a prefix of it, the rest is in its channel.  Who holds a member on a rank is
  decided by the prefix the rank has seen and by what it has killed.
 */
module Protocol {
  import opened Helpers
  import opened TaskState

  datatype RankView = RankView(
    holder: map<int, Held>,
    killed: set<Task>,
    highestReceived: int,
    highestSent: int,
    done: bool)

  datatype View = View(
    ranks: seq<RankView>,
    newTasks: seq<seq<NewTask>>,
    kills: seq<seq<Task>>,
    reports: seq<seq<int>>,
    allFinished: seq<nat>,
    updating: seq<bool>,
    issued: seq<NewTask>,
    counted: set<nat>,
    taskId: int,
    finishedRanks: int)

  function TaskOf(nt: NewTask): Task { Task(nt.state, nt.runner) }

  /** The last entry of the log for a member, or -1. */
  function LastIndex(log: seq<NewTask>, s: int): (i: int)
    ensures -1 <= i < |log|
    ensures i >= 0 ==> log[i].state == s
    ensures forall j :: i < j < |log| ==> log[j].state != s
  {
    if log == [] then -1
    else if log[|log| - 1].state == s then |log| - 1
    else LastIndex(log[..|log| - 1], s)
  }

  ghost predicate Holds(holder: map<int, Held>, t: Task) {
    t.state in holder && holder[t.state].runner == t.runner
  }

  /** On a rank that has seen this log, the holder of s is the runner of the last entry for s;
      if nobody holds s although there is an entry, that entry has been killed. */
  ghost predicate FollowsLog(holder: map<int, Held>, killed: set<Task>, log: seq<NewTask>, s: int) {
    var i := LastIndex(log, s);
    && (s in holder ==> i >= 0 && holder[s] == Held(log[i].runner, log[i].due))
    && (s !in holder && i >= 0 ==> TaskOf(log[i]) in killed)
  }

  ghost predicate Follows(holder: map<int, Held>, killed: set<Task>, log: seq<NewTask>) {
    forall s :: FollowsLog(holder, killed, log, s)
  }

  /** The rank remembers killing every task it has seen that does not hold its member any more. */
  ghost predicate Remembers(holder: map<int, Held>, killed: set<Task>, log: seq<NewTask>) {
    forall i :: 0 <= i < |log| ==> TaskOf(log[i]) in killed || Holds(holder, TaskOf(log[i]))
  }

  ghost predicate WellFormed(v: View) {
    && |v.ranks| > 0
    && |v.ranks| == |v.newTasks| == |v.kills| == |v.reports| == |v.allFinished| == |v.updating|
  }

  /** How much of the log rank r has received. */
  function Received(v: View, r: nat): int
    requires r < |v.newTasks|
  {
    |v.issued| - |v.newTasks[r]|
  }

  function Seen(v: View, r: nat): seq<NewTask>
    requires r < |v.newTasks| && |v.newTasks[r]| <= |v.issued|
  {
    v.issued[..Received(v, r)]
  }

  // ----- the invariant -----------------------------------------------------

  ghost predicate EachTaskOnce(log: seq<NewTask>) {
    forall i, j :: 0 <= i < j < |log| ==> TaskOf(log[i]) != TaskOf(log[j])
  }

  ghost predicate LogNumbered(v: View) {
    && v.taskId == |v.issued| + 1
    && forall i :: 0 <= i < |v.issued| ==> v.issued[i].id == i + 2
  }

  ghost predicate ChannelsCarryLog(v: View)
    requires WellFormed(v)
  {
    && v.newTasks[0] == []
    && forall r :: 0 <= r < |v.ranks| ==>
         0 <= Received(v, r) && v.newTasks[r] == v.issued[Received(v, r)..]
  }

  ghost predicate RankFollows(v: View, r: nat)
    requires WellFormed(v) && ChannelsCarryLog(v) && r < |v.ranks|
  {
    && Follows(v.ranks[r].holder, v.ranks[r].killed, Seen(v, r))
    && Remembers(v.ranks[r].holder, v.ranks[r].killed, Seen(v, r))
  }

  ghost predicate HoldersFollowLog(v: View)
    requires WellFormed(v) && ChannelsCarryLog(v)
  {
    forall r :: 0 <= r < |v.ranks| ==> RankFollows(v, r)
  }

  ghost predicate LogSound(v: View)
    requires WellFormed(v)
  {
    && LogNumbered(v)
    && EachTaskOnce(v.issued)
    && ChannelsCarryLog(v)
    && HoldersFollowLog(v)
  }

  /** A rank's kill is known to rank 0, or names the present holder there and is being reported. */
  ghost predicate KillsReported(q: RankView, requests: seq<Task>, root: RankView) {
    forall t :: t in q.killed ==> t in root.killed || (Holds(root.holder, t) && t in requests)
  }

  ghost predicate RequestsKilled(q: RankView, requests: seq<Task>) {
    forall t :: t in requests ==> t in q.killed
  }

  ghost predicate InLog(log: seq<NewTask>, t: Task) {
    exists i :: 0 <= i < |log| && TaskOf(log[i]) == t
  }

  /** A rank knows what rank 0 has killed, but for tasks of this step. */
  ghost predicate KillsLearnt(q: RankView, root: RankView, log: seq<NewTask>) {
    forall t :: t in root.killed ==> t in q.killed || InLog(log, t)
  }

  /** No rank has killed a task that is still on its way to it. */
  ghost predicate FreshAhead(q: RankView, pending: seq<NewTask>) {
    forall i :: 0 <= i < |pending| ==> TaskOf(pending[i]) !in q.killed
  }

  ghost predicate RankKillsSound(v: View, r: nat)
    requires WellFormed(v) && r < |v.ranks|
  {
    && KillsReported(v.ranks[r], v.kills[r], v.ranks[0])
    && RequestsKilled(v.ranks[r], v.kills[r])
    && FreshAhead(v.ranks[r], v.newTasks[r])
    && KillsLearnt(v.ranks[r], v.ranks[0], v.issued)
  }

  ghost predicate KillsSound(v: View)
    requires WellFormed(v)
  {
    forall r :: 0 < r < |v.ranks| ==> RankKillsSound(v, r)
  }

  ghost predicate Increasing(s: seq<int>) {
    forall i, j :: 0 <= i < j < |s| ==> s[i] < s[j]
  }

  /** The ids a rank has heard of and has reported, and that an up-to-date report stays true. */
  ghost predicate RankReportsSound(q: RankView, received: int, reports: seq<int>) {
    && q.highestReceived == (if received == 0 then 0 else received + 1)
    && 0 <= q.highestSent <= q.highestReceived
    && Increasing(reports)
    && (forall i :: 0 <= i < |reports| ==> reports[i] <= q.highestSent)
    && (0 < q.highestSent == q.highestReceived ==> q.done)
  }

  /** A rank has been counted for the latest task, or its report is the last in the channel,
      or it has not reported that task yet. */
  ghost predicate RankCountSound(q: RankView, reports: seq<int>, counted: bool, taskId: int) {
    if counted then q.highestSent == taskId && reports == []
    else q.highestSent == taskId ==> reports != [] && reports[|reports| - 1] == taskId
  }

  ghost predicate ReportsSound(v: View)
    requires WellFormed(v)
  {
    && (forall r :: 0 < r < |v.ranks| ==>
          && RankReportsSound(v.ranks[r], Received(v, r), v.reports[r])
          && RankCountSound(v.ranks[r], v.reports[r], r in v.counted, v.taskId))
    && (forall r :: r in v.counted ==> 0 < r < |v.ranks|)
    && (v.issued != [] ==> v.finishedRanks == |v.counted|)
  }

  /** ALL_FINISHED goes out when everybody has been counted, and once per step. */
  ghost predicate PhaseSound(v: View)
    requires WellFormed(v)
  {
    && (v.updating[0] ==>
          && (forall r :: 0 < r < |v.ranks| ==> r in v.counted)
          && v.issued != [] && v.ranks[0].done)
    && (forall r :: 0 < r < |v.ranks| ==>
          v.allFinished[r] + (if v.updating[r] then 1 else 0) == if v.updating[0] then 1 else 0)
  }

  ghost predicate Invariant(v: View) {
    && WellFormed(v)
    && LogSound(v)
    && KillsSound(v)
    && ReportsSound(v)
    && PhaseSound(v)
  }

  // ----- what stays --------------------------------------------------------

  /** The two views differ at most in what rank r holds and has killed; the tasks are the same. */
  ghost predicate SameLog(v: View, v': View, r: nat) {
    && WellFormed(v) && WellFormed(v') && |v'.ranks| == |v.ranks|
    && v'.issued == v.issued && v'.newTasks == v.newTasks && v'.taskId == v.taskId
    && forall k :: 0 <= k < |v.ranks| && k != r ==>
         v'.ranks[k].holder == v.ranks[k].holder && v'.ranks[k].killed == v.ranks[k].killed
  }

  lemma LogFrame(v: View, v': View, r: nat)
    requires SameLog(v, v', r) && LogSound(v)
    requires r < |v.ranks| ==> Follows(v'.ranks[r].holder, v'.ranks[r].killed, Seen(v, r))
    requires r < |v.ranks| ==> Remembers(v'.ranks[r].holder, v'.ranks[r].killed, Seen(v, r))
    ensures LogSound(v')
  {
    forall k | 0 <= k < |v.ranks| ensures Received(v', k) == Received(v, k) && Seen(v', k) == Seen(v, k) {
    }
    forall k | 0 <= k < |v.ranks| ensures RankFollows(v', k) {
      assert RankFollows(v, k);
    }
  }

  /** Nobody holds or kills anything else, and no request is under way that was not. */
  lemma KillsFrame(v: View, v': View)
    requires SameLog(v, v', |v.ranks|) && v'.kills == v.kills && KillsSound(v)
    ensures KillsSound(v')
  {
    forall r | 0 < r < |v.ranks| ensures RankKillsSound(v', r) {
      assert RankKillsSound(v, r);
    }
  }

  /** What is reported and counted. */
  lemma ReportsFrame(v: View, v': View, r: nat)
    requires SameReports(v, v', r) && ReportsSound(v)
    requires 0 < r < |v.ranks| ==>
               && RankReportsSound(v'.ranks[r], Received(v, r), v'.reports[r])
               && RankCountSound(v'.ranks[r], v'.reports[r], r in v.counted, v.taskId)
    ensures ReportsSound(v')
  {
    forall k | 0 < k < |v.ranks|
      ensures RankReportsSound(v'.ranks[k], Received(v', k), v'.reports[k])
      ensures RankCountSound(v'.ranks[k], v'.reports[k], k in v'.counted, v'.taskId)
    {
      assert RankReportsSound(v.ranks[k], Received(v, k), v.reports[k]);
      assert RankCountSound(v.ranks[k], v.reports[k], k in v.counted, v.taskId);
    }
  }

  /** The two views differ at most in what rank r has heard of, reported and finished. */
  ghost predicate SameReports(v: View, v': View, r: nat) {
    && WellFormed(v) && WellFormed(v') && |v'.ranks| == |v.ranks|
    && v'.issued == v.issued && v'.newTasks == v.newTasks && v'.taskId == v.taskId
    && v'.counted == v.counted && v'.finishedRanks == v.finishedRanks
    && forall k :: 0 < k < |v.ranks| && k != r ==>
         && v'.reports[k] == v.reports[k] && v'.ranks[k].done == v.ranks[k].done
         && v'.ranks[k].highestSent == v.ranks[k].highestSent
         && v'.ranks[k].highestReceived == v.ranks[k].highestReceived
  }

  // ----- rank 0 issues a task ----------------------------------------------

  function Issue(v: View, nt: NewTask, done: bool): View
    requires WellFormed(v)
  {
    var root := v.ranks[0];
    v.(ranks := v.ranks[0 := root.(holder := root.holder[nt.state := Held(nt.runner, nt.due)], done := done)],
       newTasks := Append(v.newTasks, [nt]),
       issued := v.issued + [nt],
       counted := {},
       taskId := v.taskId + 1,
       finishedRanks := 0)
  }

  ghost predicate CanIssue(v: View, nt: NewTask) {
    && Invariant(v) && !v.updating[0]
    && nt.id == v.taskId + 1
    && nt.state !in v.ranks[0].holder
    && !IsDead(v.ranks[0].killed, nt.runner)
  }

  lemma IssueSeen(v: View, nt: NewTask, done: bool)
    requires WellFormed(v) && ChannelsCarryLog(v)
    ensures var v' := Issue(v, nt, done);
            && ChannelsCarryLog(v')
            && Seen(v', 0) == Seen(v, 0) + [nt]
            && forall r :: 0 < r < |v.ranks| ==>
                 Received(v', r) == Received(v, r) && Seen(v', r) == Seen(v, r)
                 && v'.newTasks[r] == v.newTasks[r] + [nt]
  {
  }

  /** A rank that takes a task, having killed the one that held the member. */
  lemma TaskTaken(holder: map<int, Held>, killed: set<Task>, log: seq<NewTask>, nt: NewTask, killed': set<Task>)
    requires Follows(holder, killed, log) && Remembers(holder, killed, log) && killed <= killed'
    requires nt.state in holder ==> Task(nt.state, holder[nt.state].runner) in killed'
    ensures Follows(holder[nt.state := Held(nt.runner, nt.due)], killed', log + [nt])
    ensures Remembers(holder[nt.state := Held(nt.runner, nt.due)], killed', log + [nt])
  {
    var holder' := holder[nt.state := Held(nt.runner, nt.due)];
    assert (log + [nt])[..|log|] == log;
    forall s ensures FollowsLog(holder', killed', log + [nt], s) {
      assert FollowsLog(holder, killed, log, s);
    }
    forall i | 0 <= i < |log + [nt]|
      ensures TaskOf((log + [nt])[i]) in killed' || Holds(holder', TaskOf((log + [nt])[i]))
    {
      if i < |log| {
        assert TaskOf(log[i]) in killed || Holds(holder, TaskOf(log[i]));
      }
    }
  }

  /** The task is new: rank 0 has never given this member to this runner in this step. */
  lemma IssuedIsNew(v: View, nt: NewTask)
    requires CanIssue(v, nt)
    ensures forall i :: 0 <= i < |v.issued| ==> TaskOf(v.issued[i]) != TaskOf(nt)
    ensures forall r :: 0 <= r < |v.ranks| ==> TaskOf(nt) !in v.ranks[r].killed
  {
    assert TaskOf(nt) !in v.ranks[0].killed;
    assert !Holds(v.ranks[0].holder, TaskOf(nt));
    assert RankFollows(v, 0) && Seen(v, 0) == v.issued;
    forall r | 0 < r < |v.ranks| ensures TaskOf(nt) !in v.ranks[r].killed {
      assert RankKillsSound(v, r);
    }
  }

  lemma IssueLog(v: View, nt: NewTask, done: bool)
    requires CanIssue(v, nt)
    ensures LogSound(Issue(v, nt, done))
  {
    IssueSeen(v, nt, done);
    IssuedIsNew(v, nt);
    var v' := Issue(v, nt, done);
    forall r | 0 <= r < |v.ranks| ensures RankFollows(v', r) {
      assert RankFollows(v, r);
      if r == 0 {
        TaskTaken(v.ranks[0].holder, v.ranks[0].killed, Seen(v, 0), nt, v.ranks[0].killed);
      }
    }
  }

  lemma StillInLog(log: seq<NewTask>, more: seq<NewTask>, t: Task)
    requires InLog(log, t)
    ensures InLog(log + more, t)
  {
    var i :| 0 <= i < |log| && TaskOf(log[i]) == t;
    assert (log + more)[i] == log[i];
  }

  lemma IssueKills(v: View, nt: NewTask, done: bool)
    requires CanIssue(v, nt)
    ensures KillsSound(Issue(v, nt, done))
  {
    IssueSeen(v, nt, done);
    IssuedIsNew(v, nt);
    var v' := Issue(v, nt, done);
    forall r | 0 < r < |v.ranks| ensures RankKillsSound(v', r) {
      assert RankKillsSound(v, r);
      NewTaskKills(v.ranks[r], v.kills[r], v.newTasks[r], v.ranks[0], v.issued, nt, v'.ranks[0]);
    }
  }

  lemma NewTaskKills(q: RankView, requests: seq<Task>, pending: seq<NewTask>, root: RankView, log: seq<NewTask>,
                     nt: NewTask, root': RankView)
    requires KillsReported(q, requests, root) && FreshAhead(q, pending) && KillsLearnt(q, root, log)
    requires root'.killed == root.killed && root'.holder == root.holder[nt.state := Held(nt.runner, nt.due)]
    requires nt.state !in root.holder && TaskOf(nt) !in q.killed
    ensures KillsReported(q, requests, root') && FreshAhead(q, pending + [nt]) && KillsLearnt(q, root', log + [nt])
  {
    forall t | t in root.killed ensures t in q.killed || InLog(log + [nt], t) {
      if InLog(log, t) { StillInLog(log, [nt], t); }
    }
  }

  lemma IssueReports(v: View, nt: NewTask, done: bool)
    requires CanIssue(v, nt)
    ensures ReportsSound(Issue(v, nt, done))
  {
    IssueSeen(v, nt, done);
    var v' := Issue(v, nt, done);
    forall r | 0 < r < |v.ranks|
      ensures RankReportsSound(v'.ranks[r], Received(v', r), v'.reports[r])
      ensures RankCountSound(v'.ranks[r], v'.reports[r], r in v'.counted, v'.taskId)
    {
      assert RankReportsSound(v.ranks[r], Received(v, r), v.reports[r]);
    }
  }

  lemma IssueKeeps(v: View, nt: NewTask, done: bool)
    requires CanIssue(v, nt)
    ensures Invariant(Issue(v, nt, done))
  {
    IssueLog(v, nt, done);
    IssueKills(v, nt, done);
    IssueReports(v, nt, done);
  }

  // ----- a task is killed --------------------------------------------------

  function Kill(q: RankView, t: Task, done: bool): RankView {
    q.(holder := q.holder - {t.state}, killed := q.killed + {t}, done := done)
  }

  lemma TaskKilled(holder: map<int, Held>, killed: set<Task>, log: seq<NewTask>, t: Task)
    requires Follows(holder, killed, log) && Remembers(holder, killed, log) && Holds(holder, t)
    ensures Follows(holder - {t.state}, killed + {t}, log)
    ensures Remembers(holder - {t.state}, killed + {t}, log)
  {
    forall s ensures FollowsLog(holder - {t.state}, killed + {t}, log, s) {
      assert FollowsLog(holder, killed, log, s);
    }
  }

  /** What a rank holds has been issued to it. */
  lemma HeldIsSeen(v: View, r: nat, t: Task) returns (i: nat)
    requires WellFormed(v) && LogSound(v) && r < |v.ranks| && Holds(v.ranks[r].holder, t)
    ensures i < Received(v, r) && TaskOf(v.issued[i]) == t && i == LastIndex(Seen(v, r), t.state)
  {
    assert RankFollows(v, r);
    assert FollowsLog(v.ranks[r].holder, v.ranks[r].killed, Seen(v, r), t.state);
    i := LastIndex(Seen(v, r), t.state);
  }

  function RootKill(v: View, t: Task, done: bool): View
    requires WellFormed(v)
  {
    v.(ranks := v.ranks[0 := Kill(v.ranks[0], t, done)])
  }

  lemma RootKillKills(v: View, t: Task, done: bool)
    requires Invariant(v) && Holds(v.ranks[0].holder, t)
    ensures KillsSound(RootKill(v, t, done))
  {
    var v' := RootKill(v, t, done);
    var i := HeldIsSeen(v, 0, t);
    assert InLog(v.issued, t);
    forall u | Holds(v.ranks[0].holder, u) && u != t ensures Holds(v'.ranks[0].holder, u) {
    }
    forall r | 0 < r < |v.ranks| ensures RankKillsSound(v', r) {
      assert RankKillsSound(v, r);
    }
  }

  lemma RootKillKeeps(v: View, t: Task, done: bool)
    requires Invariant(v) && !v.updating[0] && Holds(v.ranks[0].holder, t)
    ensures Invariant(RootKill(v, t, done))
  {
    assert RankFollows(v, 0);
    TaskKilled(v.ranks[0].holder, v.ranks[0].killed, Seen(v, 0), t);
    LogFrame(v, RootKill(v, t, done), 0);
    RootKillKills(v, t, done);
    ReportsFrame(v, RootKill(v, t, done), 0);
  }

  /** Another rank kills a task, and asks rank 0 to do so. */
  function RankKill(v: View, r: nat, t: Task, done: bool): View
    requires WellFormed(v) && 0 < r < |v.ranks|
  {
    v.(ranks := v.ranks[r := Kill(v.ranks[r], t, done)], kills := v.kills[r := v.kills[r] + [t]])
  }

  lemma RankKillKills(v: View, r: nat, t: Task, done: bool)
    requires Invariant(v) && 0 < r < |v.ranks| && Holds(v.ranks[r].holder, t)
    ensures KillsSound(RankKill(v, r, t, done))
  {
    var v' := RankKill(v, r, t, done);
    var i := HeldIsSeen(v, r, t);
    KilledIsKnown(v, r, t);
    forall k | 0 < k < |v.ranks| ensures RankKillsSound(v', k) {
      assert RankKillsSound(v, k);
      if k == r {
        forall j | 0 <= j < |v.newTasks[r]| ensures TaskOf(v.newTasks[r][j]) != t {
          assert v.newTasks[r][j] == v.issued[Received(v, r) + j];
        }
      }
    }
  }

  /** Rank 0 has killed the task a rank holds, or it holds the member there, too. */
  lemma KilledIsKnown(v: View, r: nat, t: Task)
    requires Invariant(v) && 0 < r < |v.ranks| && Holds(v.ranks[r].holder, t)
    ensures t in v.ranks[0].killed || Holds(v.ranks[0].holder, t)
  {
    var i := HeldIsSeen(v, r, t);
    assert RankFollows(v, 0) && Seen(v, 0) == v.issued;
    assert Remembers(v.ranks[0].holder, v.ranks[0].killed, v.issued);
  }

  lemma RankKillKeeps(v: View, r: nat, t: Task, done: bool)
    requires Invariant(v) && 0 < r < |v.ranks| && Holds(v.ranks[r].holder, t)
    requires !(0 < v.ranks[r].highestSent == v.ranks[r].highestReceived)
    ensures Invariant(RankKill(v, r, t, done))
  {
    var v' := RankKill(v, r, t, done);
    assert RankFollows(v, r);
    TaskKilled(v.ranks[r].holder, v.ranks[r].killed, Seen(v, r), t);
    LogFrame(v, v', r);
    RankKillKills(v, r, t, done);
    RankKillReports(v, r, t, done);
  }

  lemma RankKillReports(v: View, r: nat, t: Task, done: bool)
    requires Invariant(v) && 0 < r < |v.ranks|
    requires !(0 < v.ranks[r].highestSent == v.ranks[r].highestReceived)
    ensures ReportsSound(RankKill(v, r, t, done))
  {
    assert RankReportsSound(v.ranks[r], Received(v, r), v.reports[r]);
    assert RankCountSound(v.ranks[r], v.reports[r], r in v.counted, v.taskId);
    ReportsFrame(v, RankKill(v, r, t, done), r);
  }

  /** A kill request that rank 0 has taken out of its channel. */
  function TakeRequest(v: View, r: nat): View
    requires WellFormed(v) && 0 < r < |v.ranks| && v.kills[r] != []
  {
    v.(kills := v.kills[r := v.kills[r][1..]])
  }

  /** A request names a task that rank 0 has killed already, or the present holder. */
  lemma RequestIsExact(v: View, r: nat)
    requires Invariant(v) && 0 < r < |v.ranks| && v.kills[r] != []
    ensures v.kills[r][0] in v.ranks[0].killed || Holds(v.ranks[0].holder, v.kills[r][0])
  {
    assert RankKillsSound(v, r);
    assert v.kills[r][0] in v.kills[r];
  }

  lemma TakeRequestKills(v: View, r: nat)
    requires WellFormed(v) && KillsSound(v)
    requires 0 < r < |v.ranks| && v.kills[r] != [] && v.kills[r][0] in v.ranks[0].killed
    ensures KillsSound(TakeRequest(v, r))
  {
    var v' := TakeRequest(v, r);
    forall t | t in v.kills[r] && t != v.kills[r][0] ensures t in v'.kills[r] {
      var i :| 0 <= i < |v.kills[r]| && v.kills[r][i] == t;
      assert v'.kills[r][i - 1] == t;
    }
    forall k | 0 < k < |v.ranks| ensures RankKillsSound(v', k) {
      assert RankKillsSound(v, k);
    }
  }

  /** The kills channel of a rank concerns nothing but KillsSound. */
  lemma TakeRequestKeeps(v: View, r: nat)
    requires Invariant(v) && 0 < r < |v.ranks| && v.kills[r] != [] && v.kills[r][0] in v.ranks[0].killed
    ensures Invariant(TakeRequest(v, r))
  {
    TakeRequestKills(v, r);
    SameOutsideKills(v, TakeRequest(v, r));
  }

  lemma SameOutsideKills(v: View, v': View)
    requires Invariant(v) && |v'.kills| == |v.kills| && v' == v.(kills := v'.kills)
    ensures LogSound(v') && ReportsSound(v') && PhaseSound(v')
  {
    LogFrame(v, v', |v.ranks|);
    ReportsFrame(v, v', |v.ranks|);
  }

  // ----- another rank receives a task --------------------------------------

  function Receive(v: View, r: nat, done: bool): View
    requires WellFormed(v) && 0 < r < |v.ranks| && v.newTasks[r] != []
  {
    var nt, q := v.newTasks[r][0], v.ranks[r];
    var gone := if nt.state in q.holder then {Task(nt.state, q.holder[nt.state].runner)} else {};
    v.(ranks := v.ranks[r := q.(holder := q.holder[nt.state := Held(nt.runner, nt.due)],
                                killed := q.killed + gone,
                                highestReceived := Max(nt.id, q.highestReceived),
                                done := done)],
       newTasks := v.newTasks[r := v.newTasks[r][1..]])
  }

  lemma ReceiveSeen(v: View, r: nat, done: bool)
    requires WellFormed(v) && LogSound(v) && 0 < r < |v.ranks| && v.newTasks[r] != []
    ensures var v' := Receive(v, r, done);
            && ChannelsCarryLog(v')
            && v.newTasks[r][0] == v.issued[Received(v, r)]
            && Received(v', r) == Received(v, r) + 1
            && Seen(v', r) == Seen(v, r) + [v.newTasks[r][0]]
            && v.newTasks[r][0].id == Received(v, r) + 2
            && forall k :: 0 <= k < |v.ranks| && k != r ==>
                 Received(v', k) == Received(v, k) && Seen(v', k) == Seen(v, k)
  {
    var v' := Receive(v, r, done);
    forall k | 0 <= k < |v.ranks| ensures 0 <= Received(v', k) && v'.newTasks[k] == v'.issued[Received(v', k)..] {
    }
    assert v.newTasks[r][0] == v.issued[Received(v, r)..][0];
  }

  /** The task is not one the rank has killed, and not the one that holds the member there. */
  lemma ReceivedIsNew(v: View, r: nat)
    requires Invariant(v) && 0 < r < |v.ranks| && v.newTasks[r] != []
    ensures TaskOf(v.newTasks[r][0]) !in v.ranks[r].killed
    ensures !Holds(v.ranks[r].holder, TaskOf(v.newTasks[r][0]))
  {
    assert RankKillsSound(v, r);
    var nt := v.newTasks[r][0];
    assert nt == v.issued[Received(v, r)..][0];
    if Holds(v.ranks[r].holder, TaskOf(nt)) {
      var i := HeldIsSeen(v, r, TaskOf(nt));
    }
  }

  /** The runner a rank gives up for a newer task has been killed by rank 0. */
  lemma SupersededIsKilled(v: View, r: nat)
    requires Invariant(v) && 0 < r < |v.ranks| && v.newTasks[r] != []
    requires v.newTasks[r][0].state in v.ranks[r].holder
    ensures var gone := Task(v.newTasks[r][0].state, v.ranks[r].holder[v.newTasks[r][0].state].runner);
            && gone in v.ranks[0].killed
            && forall i :: 0 <= i < |v.newTasks[r]| ==> TaskOf(v.newTasks[r][i]) != gone
  {
    var nt := v.newTasks[r][0];
    var gone := Task(nt.state, v.ranks[r].holder[nt.state].runner);
    var i := HeldIsSeen(v, r, gone);
    assert nt == v.issued[Received(v, r)..][0] == v.issued[Received(v, r)];
    KilledIsKnown(v, r, gone);
    assert Seen(v, 0) == v.issued;
    if Holds(v.ranks[0].holder, gone) {
      var j := HeldIsSeen(v, 0, gone);
    }
    forall k | 0 <= k < |v.newTasks[r]| ensures TaskOf(v.newTasks[r][k]) != gone {
      assert v.newTasks[r][k] == v.issued[Received(v, r) + k];
    }
  }

  lemma ReceiveLog(v: View, r: nat, done: bool)
    requires Invariant(v) && 0 < r < |v.ranks| && v.newTasks[r] != []
    ensures LogSound(Receive(v, r, done))
  {
    ReceiveSeen(v, r, done);
    var v', nt := Receive(v, r, done), v.newTasks[r][0];
    forall k | 0 <= k < |v.ranks| ensures RankFollows(v', k) {
      assert RankFollows(v, k);
      if k == r {
        TaskTaken(v.ranks[r].holder, v.ranks[r].killed, Seen(v, r), nt, v'.ranks[r].killed);
      }
    }
  }

  lemma ReceiveKills(v: View, r: nat, done: bool)
    requires Invariant(v) && 0 < r < |v.ranks| && v.newTasks[r] != []
    ensures KillsSound(Receive(v, r, done))
  {
    var v', nt := Receive(v, r, done), v.newTasks[r][0];
    if nt.state in v.ranks[r].holder {
      SupersededIsKilled(v, r);
    }
    forall k | 0 < k < |v.ranks| ensures RankKillsSound(v', k) {
      assert RankKillsSound(v, k);
    }
  }

  lemma ReceiveReports(v: View, r: nat, done: bool)
    requires Invariant(v) && 0 < r < |v.ranks| && v.newTasks[r] != []
    ensures ReportsSound(Receive(v, r, done))
    ensures PhaseSound(Receive(v, r, done))
  {
    ReceiveSeen(v, r, done);
    var v' := Receive(v, r, done);
    forall k | 0 < k < |v.ranks|
      ensures RankReportsSound(v'.ranks[k], Received(v', k), v'.reports[k])
      ensures RankCountSound(v'.ranks[k], v'.reports[k], k in v'.counted, v'.taskId)
    {
      assert RankReportsSound(v.ranks[k], Received(v, k), v.reports[k]);
      assert RankCountSound(v.ranks[k], v.reports[k], k in v.counted, v.taskId);
    }
  }

  lemma ReceiveKeeps(v: View, r: nat, done: bool)
    requires Invariant(v) && 0 < r < |v.ranks| && v.newTasks[r] != []
    ensures Invariant(Receive(v, r, done))
  {
    ReceiveLog(v, r, done);
    ReceiveKills(v, r, done);
    ReceiveReports(v, r, done);
  }

  // ----- a rank works on its lists -----------------------------------------

  /** Incoming states may complete a rank, and never undo that. */
  function Work(v: View, r: nat, done: bool): View
    requires WellFormed(v) && r < |v.ranks|
  {
    v.(ranks := v.ranks[r := v.ranks[r].(done := done)])
  }

  lemma WorkKeeps(v: View, r: nat, done: bool)
    requires Invariant(v) && r < |v.ranks| && (v.ranks[r].done ==> done)
    ensures Invariant(Work(v, r, done))
  {
    WorkReports(v, r, done);
    WorkPhase(v, r, done);
    SameTasks(v, Work(v, r, done));
  }

  /** Nothing about tasks and kills has changed. */
  lemma SameTasks(v: View, v': View)
    requires Invariant(v) && SameLog(v, v', |v.ranks|) && v'.kills == v.kills
    requires ReportsSound(v') && PhaseSound(v')
    ensures Invariant(v')
  {
    LogFrame(v, v', |v.ranks|);
    KillsFrame(v, v');
  }

  lemma WorkPhase(v: View, r: nat, done: bool)
    requires WellFormed(v) && PhaseSound(v) && r < |v.ranks| && (v.ranks[r].done ==> done)
    ensures SameLog(v, Work(v, r, done), |v.ranks|) && PhaseSound(Work(v, r, done))
  {
  }

  lemma WorkReports(v: View, r: nat, done: bool)
    requires Invariant(v) && r < |v.ranks| && (v.ranks[r].done ==> done)
    ensures ReportsSound(Work(v, r, done))
  {
    if r > 0 {
      assert RankReportsSound(v.ranks[r], Received(v, r), v.reports[r]);
      assert RankCountSound(v.ranks[r], v.reports[r], r in v.counted, v.taskId);
    }
    ReportsFrame(v, Work(v, r, done), r);
  }

  // ----- termination detection ---------------------------------------------

  function Report(v: View, r: nat): View
    requires WellFormed(v) && 0 < r < |v.ranks|
  {
    var id := v.ranks[r].highestReceived;
    v.(ranks := v.ranks[r := v.ranks[r].(highestSent := id)], reports := v.reports[r := v.reports[r] + [id]])
  }

  lemma ReportReports(v: View, r: nat)
    requires Invariant(v) && 0 < r < |v.ranks|
    requires v.ranks[r].done && v.ranks[r].highestSent < v.ranks[r].highestReceived
    ensures ReportsSound(Report(v, r))
  {
    assert v.ranks[r].highestReceived <= v.taskId;
    assert RankReportsSound(v.ranks[r], Received(v, r), v.reports[r]);
    assert RankCountSound(v.ranks[r], v.reports[r], r in v.counted, v.taskId);
    ReportsFrame(v, Report(v, r), r);
  }

  lemma ReportKeeps(v: View, r: nat)
    requires Invariant(v) && 0 < r < |v.ranks|
    requires v.ranks[r].done && v.ranks[r].highestSent < v.ranks[r].highestReceived
    ensures Invariant(Report(v, r))
  {
    LogFrame(v, Report(v, r), |v.ranks|);
    KillsFrame(v, Report(v, r));
    ReportReports(v, r);
  }

  /** Rank 0 receives a report and counts the sender if the report is about the latest task. */
  function CountReport(v: View, r: nat): View
    requires WellFormed(v) && 0 < r < |v.ranks| && v.reports[r] != []
  {
    var v1 := v.(reports := v.reports[r := v.reports[r][1..]]);
    if v.reports[r][0] == v.taskId then v1.(finishedRanks := v.finishedRanks + 1, counted := v.counted + {r})
    else v1
  }

  /** Reports grow, so the latest task's is the last one in the channel, and there is only one. */
  lemma LatestReportIsLast(q: RankView, received: int, reports: seq<int>, taskId: int)
    requires RankReportsSound(q, received, reports) && reports != [] && received + 1 <= taskId
    requires reports[0] == taskId > 1
    ensures reports[1..] == [] && q.highestSent == taskId
  {
    var last := |reports| - 1;
    assert reports[0] + (if last > 0 then 1 else 0) <= reports[last] <= q.highestSent;
  }

  lemma CountReportCounts(v: View, r: nat, k: nat)
    requires Invariant(v) && 0 < r < |v.ranks| && v.reports[r] != [] && v.issued != [] && 0 < k < |v.ranks|
    ensures var v' := CountReport(v, r);
            && RankReportsSound(v'.ranks[k], Received(v', k), v'.reports[k])
            && RankCountSound(v'.ranks[k], v'.reports[k], k in v'.counted, v'.taskId)
    ensures v.reports[r][0] == v.taskId ==> r !in v.counted
  {
    assert RankReportsSound(v.ranks[k], Received(v, k), v.reports[k]);
    assert RankCountSound(v.ranks[k], v.reports[k], k in v.counted, v.taskId);
    assert RankCountSound(v.ranks[r], v.reports[r], r in v.counted, v.taskId);
    if k == r && v.reports[r][0] == v.taskId {
      LatestReportIsLast(v.ranks[r], Received(v, r), v.reports[r], v.taskId);
    }
  }

  lemma CountReportKeeps(v: View, r: nat)
    requires Invariant(v) && 0 < r < |v.ranks| && v.reports[r] != [] && v.issued != [] && !v.updating[0]
    ensures Invariant(CountReport(v, r))
  {
    var v' := CountReport(v, r);
    CountReportReports(v, r);
    SameOutsideReports(v, v');
  }

  lemma CountReportReports(v: View, r: nat)
    requires Invariant(v) && 0 < r < |v.ranks| && v.reports[r] != [] && v.issued != [] && !v.updating[0]
    ensures ReportsSound(CountReport(v, r))
  {
    var v' := CountReport(v, r);
    forall k | 0 < k < |v.ranks|
      ensures RankReportsSound(v'.ranks[k], Received(v', k), v'.reports[k])
      ensures RankCountSound(v'.ranks[k], v'.reports[k], k in v'.counted, v'.taskId)
    {
      CountReportCounts(v, r, k);
    }
    CountReportSize(v, r);
  }

  lemma CountReportSize(v: View, r: nat)
    requires Invariant(v) && 0 < r < |v.ranks| && v.reports[r] != [] && v.issued != []
    ensures CountReport(v, r).finishedRanks == |CountReport(v, r).counted|
  {
    CountReportCounts(v, r, r);
  }

  lemma SameOutsideReports(v: View, v': View)
    requires Invariant(v) && !v.updating[0] && |v'.reports| == |v.reports|
    requires v' == v.(reports := v'.reports, counted := v'.counted, finishedRanks := v'.finishedRanks)
    ensures LogSound(v') && KillsSound(v') && PhaseSound(v')
  {
    LogFrame(v, v', |v.ranks|);
    KillsFrame(v, v');
  }

  function Others(n: nat): (s: set<nat>)
    ensures forall r :: r in s <==> 0 < r < n
    ensures |s| == if n == 0 then 0 else n - 1
  {
    if n <= 1 then {} else Others(n - 1) + {n - 1}
  }

  function Announce(v: View): View
    requires WellFormed(v)
  {
    v.(allFinished := seq(|v.ranks|, r requires 0 <= r < |v.ranks| =>
                        if r == 0 then v.allFinished[r] else v.allFinished[r] + 1),
       updating := v.updating[0 := true])
  }

  lemma EverybodyCounted(v: View)
    requires Invariant(v) && v.issued != [] && v.finishedRanks == |v.ranks| - 1
    ensures forall r :: 0 < r < |v.ranks| ==> r in v.counted
  {
    SubsetOfSameSize(v.counted, Others(|v.ranks|));
  }

  lemma AnnounceKeeps(v: View)
    requires Invariant(v) && !v.updating[0] && v.ranks[0].done && v.issued != []
    requires v.finishedRanks == |v.ranks| - 1
    ensures Invariant(Announce(v))
  {
    EverybodyCounted(v);
    SamePhaseApart(v, Announce(v));
  }

  lemma SamePhaseApart(v: View, v': View)
    requires Invariant(v) && |v'.allFinished| == |v'.updating| == |v.ranks|
    requires v' == v.(allFinished := v'.allFinished, updating := v'.updating)
    ensures LogSound(v') && ReportsSound(v') && KillsSound(v')
  {
    LogFrame(v, v', |v.ranks|);
    KillsFrame(v, v');
    ReportsFrame(v, v', |v.ranks|);
  }

  function Notice(v: View, r: nat): View
    requires WellFormed(v) && 0 < r < |v.ranks| && v.allFinished[r] > 0
  {
    v.(allFinished := v.allFinished[r := v.allFinished[r] - 1], updating := v.updating[r := true])
  }

  lemma NoticeKeeps(v: View, r: nat)
    requires Invariant(v) && 0 < r < |v.ranks| && v.allFinished[r] > 0 && !v.updating[r]
    ensures Invariant(Notice(v, r))
  {
    SamePhaseApart(v, Notice(v, r));
  }

  // ----- what holds once rank 0 has announced the end -----------------------

  /** A rank that has been counted for the latest task has received everything, would finish,
      and has nothing left on the way to rank 0. */
  lemma CountedIsDone(v: View, r: nat)
    requires Invariant(v) && v.issued != [] && r in v.counted
    ensures 0 < r < |v.ranks|
    ensures v.newTasks[r] == [] && v.ranks[r].done && v.reports[r] == []
  {
    assert RankReportsSound(v.ranks[r], Received(v, r), v.reports[r]);
    assert RankCountSound(v.ranks[r], v.reports[r], true, v.taskId);
  }

  /** Termination detection is safe. */
  lemma AnnouncedMeansFinished(v: View)
    requires Invariant(v) && v.updating[0]
    ensures forall r :: 0 <= r < |v.ranks| ==> v.ranks[r].done && v.newTasks[r] == []
    ensures forall r :: 0 < r < |v.ranks| ==> v.reports[r] == []
    ensures v.finishedRanks == |v.ranks| - 1
  {
    forall r | 0 < r < |v.ranks| ensures v.ranks[r].done && v.newTasks[r] == [] && v.reports[r] == [] {
      CountedIsDone(v, r);
    }
    assert v.counted == Others(|v.ranks|);
  }

  /** Everybody agrees on the runner of every member. */
  lemma OneRunnerPerMember(v: View, r: nat, s: int)
    requires Invariant(v) && v.updating[0] && r < |v.ranks|
    requires s in v.ranks[0].holder && s in v.ranks[r].holder
    ensures v.ranks[r].holder[s] == v.ranks[0].holder[s]
  {
    AnnouncedMeansFinished(v);
    assert Seen(v, r) == v.issued == Seen(v, 0);
    assert RankFollows(v, 0) && RankFollows(v, r);
    assert FollowsLog(v.ranks[0].holder, v.ranks[0].killed, v.issued, s);
    assert FollowsLog(v.ranks[r].holder, v.ranks[r].killed, v.issued, s);
  }

  /** On this rank all members are held, by runners that have not been killed for them. */
  ghost predicate AllHeld(q: RankView, members: set<int>) {
    q.holder.Keys == members && forall s :: s in q.holder ==> Task(s, q.holder[s].runner) !in q.killed
  }

  /** Then all ranks have killed the same tasks: no kill request is news to rank 0 any more, and no
      rank has missed what rank 0 has killed. */
  lemma SameKills(v: View, members: set<int>, r: nat)
    requires Invariant(v) && v.updating[0] && 0 < r < |v.ranks|
    requires AllHeld(v.ranks[0], members) && AllHeld(v.ranks[r], members)
    ensures v.ranks[r].killed == v.ranks[0].killed
  {
    AnnouncedMeansFinished(v);
    assert RankKillsSound(v, r);
    forall t | Holds(v.ranks[0].holder, t) || Holds(v.ranks[r].holder, t)
      ensures Holds(v.ranks[0].holder, t) && Holds(v.ranks[r].holder, t)
    {
      OneRunnerPerMember(v, r, t.state);
    }
    assert Seen(v, r) == v.issued && RankFollows(v, r);
    forall t | t in v.ranks[0].killed ensures t in v.ranks[r].killed {
      if InLog(v.issued, t) {
        var i :| 0 <= i < |v.issued| && TaskOf(v.issued[i]) == t;
      }
    }
  }

  /** All ranks begin a step: nobody holds anything, the ids restart, the log is empty. */
  function NewStep(v: View): View {
    v.(ranks := seq(|v.ranks|, r requires 0 <= r < |v.ranks| =>
                  v.ranks[r].(holder := map[], highestReceived := 0, highestSent := 0, done := false)),
       updating := seq(|v.updating|, _ => false),
       issued := [], counted := {}, taskId := 1)
  }

  /** Although ids restart, nothing of the old step is mistaken for something of the new one. */
  lemma NewStepKeeps(v: View)
    requires Invariant(v) && forall r :: 0 <= r < |v.updating| ==> v.updating[r]
    requires forall r :: 0 < r < |v.ranks| ==> v.ranks[r].killed == v.ranks[0].killed
    ensures Invariant(NewStep(v))
  {
    AnnouncedMeansFinished(v);
    NewStepLog(v);
    NewStepKills(v);
    NewStepReports(v);
  }

  lemma NewStepReports(v: View)
    requires WellFormed(v) && ReportsSound(v) && PhaseSound(v)
    requires forall r :: 0 <= r < |v.updating| ==> v.updating[r]
    requires forall r :: 0 < r < |v.ranks| ==> v.newTasks[r] == [] && v.reports[r] == []
    ensures ReportsSound(NewStep(v)) && PhaseSound(NewStep(v))
  {
    var v' := NewStep(v);
    forall r | 0 < r < |v.ranks|
      ensures RankReportsSound(v'.ranks[r], Received(v', r), v'.reports[r])
      ensures v'.allFinished[r] == 0
    {
    }
  }

  lemma NewStepLog(v: View)
    requires WellFormed(v) && forall r :: 0 <= r < |v.ranks| ==> v.newTasks[r] == []
    ensures LogSound(NewStep(v))
  {
    var v' := NewStep(v);
    forall r | 0 <= r < |v'.ranks| ensures Received(v', r) == 0 && v'.newTasks[r] == v'.issued[0..] {
    }
    forall r | 0 <= r < |v'.ranks| ensures RankFollows(v', r) {
      assert Seen(v', r) == [];
    }
  }

  lemma NewStepKills(v: View)
    requires WellFormed(v) && KillsSound(v)
    requires forall r :: 0 <= r < |v.ranks| ==> v.newTasks[r] == []
    requires forall r :: 0 < r < |v.ranks| ==> v.ranks[r].killed == v.ranks[0].killed
    ensures KillsSound(NewStep(v))
  {
    var v' := NewStep(v);
    forall r | 0 < r < |v.ranks| ensures RankKillsSound(v', r) {
      assert RankKillsSound(v, r);
    }
  }
}
