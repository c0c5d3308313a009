/**
  Runner ranks and server ranks in step with each other.

  A runner rank sends the member and the step of its one register to all its server ranks, so
  its answer fits the order of each of them only if all have ordered the same.  They have: the
  members that a server rank orders from a runner rank in a step are, one after the other, the
  members of the tasks that the rank has seen for this runner.
 */
module RunnerRounds {
  import opened Helpers
  import opened TaskState
  import opened RankInvariant
  import opened ServerCluster

  /** The members that a runner gets, according to the log. */
  function MembersFor(log: seq<NewTask>, x: int): seq<int> {
    if log == [] then []
    else
      var n := |log| - 1;
      MembersFor(log[..n], x) + if log[n].runner == x then [log[n].state] else []
  }

  /** The members that wait for a runner rank, first come first served. */
  function Waiting(sts: seq<SubTask>, x: int, p: nat): seq<int> {
    if sts == [] then []
    else
      var n := |sts| - 1;
      Waiting(sts[..n], x, p) + if sts[n].runner == x && sts[n].rank == p then [sts[n].state] else []
  }

  lemma {:induction false} MembersGrow(log: seq<NewTask>, more: seq<NewTask>, x: int)
    ensures MembersFor(log, x) <= MembersFor(log + more, x)
  {
    if more == [] {
      assert log + more == log;
    } else {
      var n := |more| - 1;
      MembersGrow(log, more[..n], x);
      assert (log + more)[..|log + more| - 1] == log + more[..n];
    }
  }

  lemma OneMore(log: seq<NewTask>, nt: NewTask, x: int)
    ensures MembersFor(log + [nt], x) == MembersFor(log, x) + if nt.runner == x then [nt.state] else []
  {
    assert (log + [nt])[..|log|] == log;
  }

  lemma OneMoreWaits(sts: seq<SubTask>, st: SubTask, x: int, p: nat)
    ensures Waiting(sts + [st], x, p)
            == Waiting(sts, x, p) + if st.runner == x && st.rank == p then [st.state] else []
  {
    assert (sts + [st])[..|sts|] == sts;
  }

  lemma {:induction false} OthersWait(sts: seq<SubTask>, t: Task, x: int, p: nat)
    requires x != t.runner
    ensures Waiting(WithoutTask(sts, t), x, p) == Waiting(sts, x, p)
  {
    if sts != [] {
      var n := |sts| - 1;
      OthersWait(sts[..n], t, x, p);
      if IsOf(sts[n], t) {
        assert WithoutTask(sts, t) == WithoutTask(sts[..n], t);
      } else {
        assert WithoutTask(sts, t) == WithoutTask(sts[..n], t) + [sts[n]];
        OneMoreWaits(WithoutTask(sts[..n], t), sts[n], x, p);
      }
    }
  }

  lemma {:induction false} NobodyFor(sts: seq<SubTask>, x: int, p: nat)
    requires forall k :: 0 <= k < |sts| ==> !(sts[k].runner == x && sts[k].rank == p)
    ensures Waiting(sts, x, p) == []
  {
    if sts != [] {
      NobodyFor(sts[..|sts| - 1], x, p);
    }
  }

  lemma RemoveBeforeLast<T>(s: seq<T>, i: nat)
    requires i < |s|
    ensures var n := |s| - 1;
            Remove(s, i) == if i == n then s[..n] else Remove(s[..n], i) + [s[n]]
  {
    var n := |s| - 1;
    if i < n {
      assert s[..n][..i] == s[..i] && s[i + 1..] == s[..n][i + 1..] + [s[n]];
    }
  }

  /** The first one that waits for the runner rank leaves the list, or one for another runner rank. */
  lemma {:induction false} OneLeaves(sts: seq<SubTask>, i: nat, x: int, p: nat)
    requires i < |sts|
    requires forall k :: 0 <= k < i ==> !(sts[k].runner == x && sts[k].rank == p)
    ensures Waiting(sts, x, p)
            == (if sts[i].runner == x && sts[i].rank == p then [sts[i].state] else [])
               + Waiting(Remove(sts, i), x, p)
  {
    var n := |sts| - 1;
    RemoveBeforeLast(sts, i);
    if i == n {
      NobodyFor(sts[..n], x, p);
    } else {
      OneLeaves(sts[..n], i, x, p);
      OneMoreWaits(Remove(sts[..n], i), sts[n], x, p);
    }
  }

  lemma {:induction false} AnotherLeaves(sts: seq<SubTask>, i: nat, x: int, p: nat)
    requires i < |sts| && !(sts[i].runner == x && sts[i].rank == p)
    ensures Waiting(Remove(sts, i), x, p) == Waiting(sts, x, p)
  {
    var n := |sts| - 1;
    RemoveBeforeLast(sts, i);
    if i < n {
      AnotherLeaves(sts[..n], i, x, p);
      OneMoreWaits(Remove(sts[..n], i), sts[n], x, p);
    }
  }

  // ----- one connection ----------------------------------------------------

  /** How a server rank and a runner rank stand: no contact yet, a message on its way, or reached.
      Rounds are counted from the begin of the step; the first message of all is marked. */
  datatype Stage = Unknown | Coming(first: bool, rounds: nat) | Reached(rounds: nat)

  function StageOf(runners: map<(int, nat), RunnerRank>, r: nat, x: int, p: nat): Stage {
    if (x, p) !in runners then Unknown
    else
      var rr := runners[(x, p)];
      if r in rr.pending then Coming(rr.state == -1 && rr.step == 0, rr.rounds) else Reached(rr.rounds)
  }

  predicate HasWork(q: RankState, x: int, p: nat) {
    (x, p) in q.orders && q.orders[(x, p)].Work?
  }

  ghost predicate Untouched(q: RankState, x: int, p: nat) {
    (x, p) !in q.orders && !HasConnection(q.idle, x, p) && Given(q.given, x, p) == []
  }

  /** The orders of this step are those of the log, in order; for a living runner the rest waits. */
  ghost predicate GivenFollowsLog(q: RankState, log: seq<NewTask>, x: int, p: nat) {
    var given := Given(q.given, x, p);
    && given <= MembersFor(log, x)
    && (!IsDead(q.killed, x) ==> MembersFor(log, x) == given + Waiting(q.scheduled, x, p))
    && (HasWork(q, x, p) && q.orders[(x, p)].step == q.step ==>
          given != [] && given[|given| - 1] == q.orders[(x, p)].state)
  }

  /** An order of an earlier step is one to a runner that was gone when this step began. */
  ghost predicate OldOrderGone(q: RankState, gone: set<Task>, x: int, p: nat) {
    HasWork(q, x, p) && q.orders[(x, p)].step != q.step ==> q.orders[(x, p)].step < q.step && IsDead(gone, x)
  }

  ghost predicate InRound(q: RankState, stage: Stage, x: int, p: nat) {
    match stage
    case Unknown => Untouched(q, x, p)
    case Coming(first, rounds) =>
      !IsDead(q.killed, x) ==>
        && |Given(q.given, x, p)| == rounds
        && (if rounds > 0 then (x, p) in q.orders else Untouched(q, x, p) && first)
    case Reached(rounds) =>
      && (HasConnection(q.idle, x, p) || (x, p) in q.orders)
      && (if HasWork(q, x, p) then
            if q.orders[(x, p)].step == q.step then |Given(q.given, x, p)| == rounds + 1 else rounds == 0
          else !IsDead(q.killed, x) ==> |Given(q.given, x, p)| == rounds)
  }

  ghost predicate Contact(q: RankState, log: seq<NewTask>, gone: set<Task>, stage: Stage, x: int, p: nat) {
    && GivenFollowsLog(q, log, x, p)
    && OldOrderGone(q, gone, x, p)
    && InRound(q, stage, x, p)
  }

  // ----- what the handlers keep --------------------------------------------

  /** Nothing that concerns this connection has changed. */
  ghost predicate SameContact(q: RankState, q': RankState, x: int, p: nat) {
    && q'.step == q.step
    && Given(q'.given, x, p) == Given(q.given, x, p)
    && (HasConnection(q'.idle, x, p) <==> HasConnection(q.idle, x, p))
    && ((x, p) in q'.orders <==> (x, p) in q.orders)
    && ((x, p) in q.orders ==> q'.orders[(x, p)] == q.orders[(x, p)])
    && Waiting(q'.scheduled, x, p) == Waiting(q.scheduled, x, p)
    && (IsDead(q'.killed, x) <==> IsDead(q.killed, x))
  }

  lemma ContactFrame(q: RankState, q': RankState, log: seq<NewTask>, gone: set<Task>, stage: Stage, x: int, p: nat)
    requires Contact(q, log, gone, stage, x, p) && SameContact(q, q', x, p)
    ensures Contact(q', log, gone, stage, x, p)
  {
  }

  lemma AddElsewhere(q: RankState, st: SubTask, x: int, p: nat)
    requires (st.runner, st.rank) != (x, p)
    ensures SameContact(q, AddSubTask(q, st), x, p)
  {
    if HasConnection(q.idle, st.runner, st.rank) {
      TakenElsewhere(q.idle, st.runner, st.rank, x, p);
    } else {
      OneMoreWaits(q.scheduled, st, x, p);
    }
  }

  lemma TakenElsewhere(idle: map<int, set<nat>>, runner: int, rank: nat, x: int, p: nat)
    requires HasConnection(idle, runner, rank)
    ensures HasConnection(TakeConnection(idle, runner, rank), x, p)
            <==> HasConnection(idle, x, p) && (x, p) != (runner, rank)
  {
    if x == runner {
      assert idle[runner] - {rank} != {} ==> TakeConnection(idle, runner, rank)[x] == idle[runner] - {rank};
      assert HasConnection(idle, x, p) && p != rank ==> p in idle[runner] - {rank};
    }
  }

  /** An idle runner rank has no unanswered order, so the message under way, if any, is no answer. */
  lemma IdleIsReached(q: RankState, ranks: seq<nat>, stage: Stage, x: int, p: nat)
    requires LinkInvariant(q, ranks) && InRound(q, stage, x, p) && HasConnection(q.idle, x, p)
    ensures (x, p) !in q.orders && stage.Reached? && |Given(q.given, x, p)| == stage.rounds
    ensures Waiting(q.scheduled, x, p) == []
    ensures !IsDead(q.killed, x)
  {
    assert !IsDead(q.killed, x);
    forall k | 0 <= k < |q.scheduled| ensures !(q.scheduled[k].runner == x && q.scheduled[k].rank == p) {
      assert q.scheduled[k] in q.scheduled;
    }
    NobodyFor(q.scheduled, x, p);
  }

  /** The log has one more task for this runner. */
  lemma AddHere(q: RankState, ranks: seq<nat>, nt: NewTask, log: seq<NewTask>, gone: set<Task>, stage: Stage, p: nat)
    requires LinkInvariant(q, ranks) && Contact(q, log, gone, stage, nt.runner, p)
    ensures Contact(AddSubTask(q, SubTaskOf(nt, p)), log + [nt], gone, stage, nt.runner, p)
  {
    var st := SubTaskOf(nt, p);
    OneMore(log, nt, nt.runner);
    if HasConnection(q.idle, st.runner, st.rank) {
      IdleIsReached(q, ranks, stage, st.runner, p);
      TakenElsewhere(q.idle, st.runner, p, st.runner, p);
    } else {
      OneMoreWaits(q.scheduled, st, st.runner, p);
    }
  }

  /** A task for another runner. */
  lemma LogElsewhere(q: RankState, nt: NewTask, log: seq<NewTask>, gone: set<Task>, stage: Stage, x: int, p: nat)
    requires Contact(q, log, gone, stage, x, p) && nt.runner != x
    ensures Contact(q, log + [nt], gone, stage, x, p)
  {
    OneMore(log, nt, x);
  }

  lemma {:induction false} AddSubTasksElsewhere(q: RankState, nt: NewTask, added: seq<nat>, x: int, p: nat)
    requires nt.runner != x || p !in added
    ensures SameContact(q, AddSubTasks(q, nt, added), x, p)
  {
    if added != [] {
      var n := |added| - 1;
      AddSubTasksElsewhere(q, nt, added[..n], x, p);
      AddElsewhere(AddSubTasks(q, nt, added[..n]), SubTaskOf(nt, added[n]), x, p);
    }
  }

  lemma {:induction false} AddSubTasksHere(q: RankState, ranks: seq<nat>, nt: NewTask, added: seq<nat>,
                                           log: seq<NewTask>, gone: set<Task>, stage: Stage, p: nat)
    requires LinkInvariant(q, ranks) && Contact(q, log, gone, stage, nt.runner, p)
    requires Distinct(added) && p in added
    ensures Contact(AddSubTasks(q, nt, added), log + [nt], gone, stage, nt.runner, p)
  {
    var n := |added| - 1;
    var q1, st := AddSubTasks(q, nt, added[..n]), SubTaskOf(nt, added[n]);
    if added[n] == p {
      AddSubTasksElsewhere(q, nt, added[..n], nt.runner, p);
      ContactFrame(q, q1, log, gone, stage, nt.runner, p);
      AddSubTasksLinks(q, nt, added[..n], ranks);
      AddHere(q1, ranks, nt, log, gone, stage, p);
    } else {
      AddSubTasksHere(q, ranks, nt, added[..n], log, gone, stage, p);
      AddElsewhere(q1, st, nt.runner, p);
      ContactFrame(q1, AddSubTask(q1, st), log + [nt], gone, stage, nt.runner, p);
    }
  }

  lemma AssignContact(q: RankState, ranks: seq<nat>, nt: NewTask, log: seq<NewTask>, gone: set<Task>,
                      stage: Stage, x: int, p: nat)
    requires LinkInvariant(q, ranks) && Contact(q, log, gone, stage, x, p) && Distinct(ranks) && p in ranks
    ensures Contact(Assign(q, nt, ranks), log + [nt], gone, stage, x, p)
  {
    var q1 := Take(q, nt);
    ContactFrame(q, q1, log, gone, stage, x, p);
    if x == nt.runner {
      AddSubTasksHere(q1, ranks, nt, ranks, log, gone, stage, p);
    } else {
      AddSubTasksElsewhere(q1, nt, ranks, x, p);
      ContactFrame(q1, Assign(q, nt, ranks), log, gone, stage, x, p);
      LogElsewhere(Assign(q, nt, ranks), nt, log, gone, stage, x, p);
    }
  }

  lemma KillContact(q: RankState, t: Task, log: seq<NewTask>, gone: set<Task>, stage: Stage, x: int, p: nat)
    requires Contact(q, log, gone, stage, x, p)
    ensures Contact(KillTask(q, t), log, gone, stage, x, p)
  {
    var q' := KillTask(q, t);
    if x == t.runner {
      KilledKeepsWork(q, t, p);
    } else {
      OtherKilled(q, t, x, p);
      ContactFrame(q, q', log, gone, stage, x, p);
    }
  }

  lemma OtherKilled(q: RankState, t: Task, x: int, p: nat)
    requires x != t.runner
    ensures SameContact(q, KillTask(q, t), x, p)
  {
    OthersWait(q.scheduled, t, x, p);
  }

  /** A runner that is given up keeps the work that it has not answered. */
  lemma KilledKeepsWork(q: RankState, t: Task, p: nat)
    ensures var q', x := KillTask(q, t), t.runner;
            && IsDead(q'.killed, x) && q'.step == q.step && q'.given == q.given
            && !HasConnection(q'.idle, x, p)
            && (HasWork(q', x, p) ==> HasWork(q, x, p) && q'.orders[(x, p)] == q.orders[(x, p)])
            && (HasConnection(q.idle, x, p) || ((x, p) in q'.orders <==> (x, p) in q.orders))
            && (HasConnection(q.idle, x, p) ==> (x, p) in q'.orders && q'.orders[(x, p)] == Stop)
            && (HasWork(q, x, p) && !HasConnection(q.idle, x, p) ==> HasWork(q', x, p))
  {
    assert t in KillTask(q, t).killed;
  }

  /** What the message of a runner rank brings its server rank to. */
  function Arrived(stage: Stage): Stage {
    if stage.Coming? then Reached(stage.rounds) else stage
  }

  lemma DataElsewhere(q: RankState, m: DataMessage, x: int, p: nat)
    requires (m.runner, m.rank) != (x, p)
    ensures SameContact(q, HandleData(q, m), x, p)
  {
    if !IsDead(q.killed, m.runner) {
      StoreContact(q, m, x, p);
      AnswerElsewhere(StoreData(q, m), m, x, p);
    }
  }

  lemma AnswerElsewhere(q: RankState, m: DataMessage, x: int, p: nat)
    requires (m.runner, m.rank) != (x, p)
    ensures SameContact(q, AnswerData(q, m), x, p)
  {
    var i := WaitingIndex(q, m);
    if i < |q.scheduled| {
      AnotherLeaves(q.scheduled, i, x, p);
    }
  }

  lemma StoreContact(q: RankState, m: DataMessage, x: int, p: nat)
    ensures SameContact(q, StoreData(q, m), x, p)
  {
  }

  /** The runner rank gets the next member that waits for it, or becomes idle. */
  lemma AnswerContact(q: RankState, m: DataMessage, log: seq<NewTask>, gone: set<Task>, stage: Stage)
    requires Contact(q, log, gone, stage, m.runner, m.rank) && stage.Coming? && !IsDead(q.killed, m.runner)
    ensures Contact(AnswerData(q, m), log, gone, Arrived(stage), m.runner, m.rank)
  {
    var i := WaitingIndex(q, m);
    var given := Given(q.given, m.runner, m.rank);
    if i < |q.scheduled| {
      OneLeaves(q.scheduled, i, m.runner, m.rank);
      NextGiven(given, Waiting(q.scheduled, m.runner, m.rank), q.scheduled[i].state,
                Waiting(Remove(q.scheduled, i), m.runner, m.rank));
    } else {
      NobodyFor(q.scheduled, m.runner, m.rank);
    }
  }

  lemma NextGiven(given: seq<int>, waiting: seq<int>, s: int, rest: seq<int>)
    requires waiting == [s] + rest
    ensures given + waiting == (given + [s]) + rest && given + [s] <= given + waiting
  {
  }

  lemma DataContact(q: RankState, m: DataMessage, log: seq<NewTask>, gone: set<Task>, stage: Stage)
    requires Contact(q, log, gone, stage, m.runner, m.rank) && stage.Coming?
    ensures Contact(HandleData(q, m), log, gone, Arrived(stage), m.runner, m.rank)
  {
    if !IsDead(q.killed, m.runner) {
      StoreContact(q, m, m.runner, m.rank);
      ContactFrame(q, StoreData(q, m), log, gone, stage, m.runner, m.rank);
      AnswerContact(StoreData(q, m), m, log, gone, stage);
    }
  }

  function Restarted(stage: Stage): Stage {
    match stage
    case Unknown => Unknown
    case Coming(first, _) => Coming(first, 0)
    case Reached(_) => Reached(0)
  }

  /** A step ends without running sub-tasks: living runners have answered every order. */
  lemma NewStepContact(q: RankState, ranks: seq<nat>, ensembleSize: nat, nsteps: int,
                       log: seq<NewTask>, gone: set<Task>, stage: Stage, x: int, p: nat)
    requires LinkInvariant(q, ranks) && Contact(q, log, gone, stage, x, p)
    requires q.scheduled == [] && q.running == [] && nsteps > 0
    ensures Contact(InitNewTimestep(q, ensembleSize, nsteps), [], q.killed, Restarted(stage), x, p)
  {
    assert forall s :: !RunningFor(q.running, x, p, s);
  }
}
