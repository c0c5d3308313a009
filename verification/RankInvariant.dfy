/**
  What every handler of a server rank keeps.

  CountInvariant is the partition of the work: a member that is held has, for every
  connected runner rank, exactly one sub-task somewhere on the three lists, all on the
  same runner, and there are no other sub-tasks.  LinkInvariant says how the lists fit
  the connections.
 */
module RankInvariant {
  import opened Helpers
  import opened TaskState

  ghost predicate Distinct<T>(s: seq<T>) {
    forall i, j :: 0 <= i < j < |s| ==> s[i] != s[j]
  }

  ghost function Count(q: RankState, st: SubTask): nat {
    multiset(q.scheduled)[st] + multiset(q.running)[st] + multiset(q.finished)[st]
  }

  ghost predicate Expected(holder: map<int, Held>, ranks: seq<nat>, st: SubTask) {
    st.state in holder && holder[st.state] == Held(st.runner, st.due) && st.rank in ranks
  }

  ghost predicate CountInvariant(q: RankState, ranks: seq<nat>) {
    forall st :: Count(q, st) == if Expected(q.holder, ranks, st) then 1 else 0
  }

  ghost predicate HolderInvariant(q: RankState, ensembleSize: nat) {
    && q.unscheduled !! q.holder.Keys
    && q.unscheduled + q.holder.Keys == Members(ensembleSize)
    && (forall s :: s in q.holder ==> Task(s, q.holder[s].runner) !in q.killed)
  }

  // ----- lists and connections ---------------------------------------------

  ghost predicate RunningFor(running: seq<SubTask>, runner: int, rank: nat, state: int) {
    exists st :: st in running && st.runner == runner && st.rank == rank && st.state == state
  }

  /** Idle connections belong to living runners. */
  ghost predicate IdleAlive(q: RankState, ranks: seq<nat>) {
    forall x :: x in q.idle ==>
      !IsDead(q.killed, x) && q.idle[x] != {} && forall p :: p in q.idle[x] ==> p in ranks
  }

  /** No scheduled sub-task waits although its runner rank is idle. */
  ghost predicate NobodyWaits(q: RankState) {
    forall st :: st in q.scheduled ==> !HasConnection(q.idle, st.runner, st.rank)
  }

  /** The unanswered orders of living runners are exactly the running sub-tasks. */
  ghost predicate OrdersRun(q: RankState) {
    forall x, p :: (x, p) in q.orders && !IsDead(q.killed, x) ==>
      && !HasConnection(q.idle, x, p)
      && q.orders[(x, p)].Work?
      && q.orders[(x, p)].step == q.step
      && RunningFor(q.running, x, p, q.orders[(x, p)].state)
  }

  ghost predicate RunningOrdered(q: RankState) {
    forall st :: st in q.running && !IsDead(q.killed, st.runner) ==>
      && (st.runner, st.rank) in q.orders
      && q.orders[(st.runner, st.rank)] == Work(st.state, q.step)
  }

  /** A finished sub-task has left its result of this step in the background state. */
  ghost predicate FinishedStored(q: RankState) {
    forall st :: st in q.finished ==>
      && (st.state, st.rank) in q.background
      && q.background[(st.state, st.rank)] == Origin(st.runner, q.step)
  }

  ghost predicate LinkInvariant(q: RankState, ranks: seq<nat>) {
    && IdleAlive(q, ranks)
    && NobodyWaits(q)
    && OrdersRun(q)
    && RunningOrdered(q)
    && FinishedStored(q)
    && q.step > 0
  }

  ghost predicate RankSound(q: RankState, ranks: seq<nat>, ensembleSize: nat) {
    && CountInvariant(q, ranks)
    && HolderInvariant(q, ensembleSize)
    && LinkInvariant(q, ranks)
  }

  lemma CountMembers(q: RankState, st: SubTask)
    ensures Count(q, st) > 0 <==> st in AllSubTasks(q)
    ensures st in AllSubTasks(q) <==> st in q.scheduled || st in q.running || st in q.finished
  {
  }

  // ----- new tasks ---------------------------------------------------------

  lemma AddSubTaskLinks(q: RankState, st: SubTask, ranks: seq<nat>)
    requires LinkInvariant(q, ranks)
    ensures LinkInvariant(AddSubTask(q, st), ranks)
  {
    var q' := AddSubTask(q, st);
    if HasConnection(q.idle, st.runner, st.rank) {
      assert q'.running == q.running + [st];
      assert st in q'.running;
      assert forall u :: u in q.running ==> u in q'.running;
      forall x, p | (x, p) in q'.orders && !IsDead(q'.killed, x)
        ensures !HasConnection(q'.idle, x, p) && q'.orders[(x, p)].Work? && q'.orders[(x, p)].step == q'.step
        ensures RunningFor(q'.running, x, p, q'.orders[(x, p)].state)
      {
        if (x, p) != (st.runner, st.rank) {
          assert (x, p) in q.orders;
        }
      }
    }
  }

  lemma {:induction false} AddSubTasksLinks(q: RankState, nt: NewTask, added: seq<nat>, ranks: seq<nat>)
    requires LinkInvariant(q, ranks)
    ensures LinkInvariant(AddSubTasks(q, nt, added), ranks)
  {
    if added != [] {
      AddSubTasksLinks(q, nt, added[..|added| - 1], ranks);
      AddSubTaskLinks(AddSubTasks(q, nt, added[..|added| - 1]), SubTaskOf(nt, added[|added| - 1]), ranks);
    }
  }

  ghost predicate IsPartOf(st: SubTask, nt: NewTask, ranks: seq<nat>) {
    st.runner == nt.runner && st.state == nt.state && st.due == nt.due && st.rank in ranks
  }

  lemma AddSubTaskCount(q: RankState, added: SubTask, st: SubTask)
    ensures Count(AddSubTask(q, added), st) == Count(q, st) + if st == added then 1 else 0
  {
  }

  lemma {:induction false} AddSubTasksCount(q: RankState, nt: NewTask, added: seq<nat>, st: SubTask)
    requires Distinct(added)
    ensures Count(AddSubTasks(q, nt, added), st) == Count(q, st) + if IsPartOf(st, nt, added) then 1 else 0
  {
    if added != [] {
      var n := |added| - 1;
      AddSubTasksCount(q, nt, added[..n], st);
      AddSubTaskCount(AddSubTasks(q, nt, added[..n]), SubTaskOf(nt, added[n]), st);
      assert added == added[..n] + [added[n]];
      assert added[n] !in added[..n];
    }
  }

  lemma AssignCount(q: RankState, nt: NewTask, ranks: seq<nat>)
    requires CountInvariant(q, ranks) && Distinct(ranks) && nt.state !in q.holder
    ensures CountInvariant(Assign(q, nt, ranks), ranks)
  {
    AssignFrame(q, nt, ranks);
    forall st ensures Count(Assign(q, nt, ranks), st) == if Expected(Take(q, nt).holder, ranks, st) then 1 else 0 {
      AddSubTasksCount(Take(q, nt), nt, ranks, st);
      assert Count(Take(q, nt), st) == Count(q, st);
    }
  }

  lemma AssignLinks(q: RankState, nt: NewTask, ranks: seq<nat>)
    requires LinkInvariant(q, ranks)
    ensures LinkInvariant(Assign(q, nt, ranks), ranks)
  {
    AddSubTasksLinks(Take(q, nt), nt, ranks, ranks);
  }

  lemma AssignHolder(q: RankState, nt: NewTask, ranks: seq<nat>, ensembleSize: nat)
    requires HolderInvariant(q, ensembleSize)
    requires nt.state in q.unscheduled && Task(nt.state, nt.runner) !in q.killed
    ensures HolderInvariant(Assign(q, nt, ranks), ensembleSize)
  {
    TakeHolder(q, nt, ensembleSize);
    AssignFrame(q, nt, ranks);
  }

  lemma TakeHolder(q: RankState, nt: NewTask, ensembleSize: nat)
    requires HolderInvariant(q, ensembleSize)
    requires nt.state in q.unscheduled && Task(nt.state, nt.runner) !in q.killed
    ensures HolderInvariant(Take(q, nt), ensembleSize)
  {
    MoveAcross(q.unscheduled, q.holder.Keys, nt.state);
    OneMoreKey(q.holder, nt.state, Held(nt.runner, nt.due));
  }

  lemma OneMoreKey<K, V>(m: map<K, V>, k: K, v: V)
    ensures m[k := v].Keys == m.Keys + {k}
  {
  }

  lemma MoveAcross(from: set<int>, to: set<int>, s: int)
    requires from !! to && s in from
    ensures from - {s} !! to + {s}
    ensures (from - {s}) + (to + {s}) == from + to
  {
  }

  lemma AssignKeepsInvariant(q: RankState, nt: NewTask, ranks: seq<nat>, ensembleSize: nat)
    requires RankSound(q, ranks, ensembleSize) && Distinct(ranks)
    requires nt.state in q.unscheduled && Task(nt.state, nt.runner) !in q.killed
    ensures RankSound(Assign(q, nt, ranks), ranks, ensembleSize)
  {
    AssignCount(q, nt, ranks);
    AssignLinks(q, nt, ranks);
    AssignHolder(q, nt, ranks, ensembleSize);
  }

  // ----- killing -----------------------------------------------------------

  lemma WithoutTaskCounts(sts: seq<SubTask>, t: Task, st: SubTask)
    ensures multiset(WithoutTask(sts, t))[st] == if IsOf(st, t) then 0 else multiset(sts)[st]
  {
    FilterCounts(sts, (st: SubTask) => !IsOf(st, t), st);
  }

  lemma WithoutTaskMembers(sts: seq<SubTask>, t: Task)
    ensures forall st :: st in WithoutTask(sts, t) <==> st in sts && !IsOf(st, t)
  {
    FilterKeepsMembers(sts, (st: SubTask) => !IsOf(st, t));
  }

  lemma KillCount(q: RankState, t: Task, st: SubTask)
    ensures Count(KillTask(q, t), st) == if IsOf(st, t) then 0 else Count(q, st)
  {
    WithoutTaskCounts(q.scheduled, t, st);
    WithoutTaskCounts(q.running, t, st);
    WithoutTaskCounts(q.finished, t, st);
  }

  lemma OneMoreDead(killed: set<Task>, t: Task)
    ensures forall x :: IsDead(killed + {t}, x) <==> IsDead(killed, x) || x == t.runner
  {
    assert t in killed + {t};
    forall x | IsDead(killed, x) ensures IsDead(killed + {t}, x) {
      var u :| u in killed && u.runner == x;
      assert u in killed + {t};
    }
  }

  lemma KillLinks(q: RankState, t: Task, ranks: seq<nat>)
    requires LinkInvariant(q, ranks)
    ensures LinkInvariant(KillTask(q, t), ranks)
  {
    WithoutTaskMembers(q.scheduled, t);
    WithoutTaskMembers(q.running, t);
    WithoutTaskMembers(q.finished, t);
    var q' := KillTask(q, t);
    OneMoreDead(q.killed, t);
    forall x, p | (x, p) in q'.orders && !IsDead(q'.killed, x)
      ensures (x, p) in q.orders && q'.orders[(x, p)] == q.orders[(x, p)]
      ensures RunningFor(q'.running, x, p, q'.orders[(x, p)].state)
    {
      var st :| st in q.running && st.runner == x && st.rank == p && st.state == q.orders[(x, p)].state;
      assert st in q'.running;
    }
  }

  lemma KillKeepsInvariant(q: RankState, t: Task, ranks: seq<nat>, ensembleSize: nat)
    requires RankSound(q, ranks, ensembleSize)
    requires t.state in q.holder && q.holder[t.state].runner == t.runner
    ensures RankSound(KillTask(q, t), ranks, ensembleSize)
  {
    KillLinks(q, t, ranks);
    var q' := KillTask(q, t);
    forall st ensures Count(q', st) == if Expected(q'.holder, ranks, st) then 1 else 0 {
      KillCount(q, t, st);
    }
  }

  // ----- a rescheduled member ----------------------------------------------

  lemma {:induction false} FilterSame<T>(s: seq<T>, keep: T -> bool, keep': T -> bool)
    requires forall x :: x in s ==> keep(x) == keep'(x)
    ensures Filter(s, keep) == Filter(s, keep')
  {
    if s != [] {
      FilterSame(s[..|s| - 1], keep, keep');
    }
  }

  lemma {:induction false} FilterAll<T>(s: seq<T>, keep: T -> bool)
    requires forall x :: x in s ==> keep(x)
    ensures Filter(s, keep) == s
  {
    if s != [] {
      var n := |s| - 1;
      assert s == s[..n] + [s[n]];
      FilterAll(s[..n], keep);
    }
  }

  /** All sub-tasks of a held member are on the runner that holds it, and there is one. */
  lemma SubTasksOfHeld(q: RankState, ranks: seq<nat>, s: int)
    requires CountInvariant(q, ranks) && ranks != []
    ensures forall st :: st in AllSubTasks(q) && st.state == s ==> s in q.holder && st.runner == q.holder[s].runner
    ensures s in q.holder ==>
              SubTask(q.holder[s].runner, ranks[0], s, q.holder[s].due) in AllSubTasks(q)
  {
    forall st | st in AllSubTasks(q) && st.state == s ensures s in q.holder && st.runner == q.holder[s].runner {
      CountMembers(q, st);
      assert Count(q, st) > 0;
    }
    if s in q.holder {
      var st := SubTask(q.holder[s].runner, ranks[0], s, q.holder[s].due);
      assert Count(q, st) == 1;
      CountMembers(q, st);
    }
  }

  lemma {:induction false} GiveUpOne(q: RankState, sts: seq<SubTask>, s: int, x: int)
    requires forall st :: st in sts && st.state == s ==> st.runner == x
    requires Task(s, x) !in q.killed
    ensures GiveUpAll(q, sts, s)
            == if exists st :: st in sts && st.state == s then
                 StopRunner(q, x).(unscheduled := q.unscheduled + {s}, killed := q.killed + {Task(s, x)})
               else q
  {
    if sts != [] {
      var n := |sts| - 1;
      assert sts == sts[..n] + [sts[n]];
      GiveUpOne(q, sts[..n], s, x);
    }
  }

  lemma NothingWithout(sts: seq<SubTask>, s: int)
    requires forall st :: st in sts ==> st.state != s
    ensures WithoutMember(sts, s) == sts
  {
    FilterAll(sts, (st: SubTask) => st.state != s);
  }

  lemma SupersedeNothing(q: RankState, ranks: seq<nat>, ensembleSize: nat, s: int)
    requires RankSound(q, ranks, ensembleSize) && ranks != [] && s !in q.holder
    ensures Supersede(q, s) == q
  {
    SubTasksOfHeld(q, ranks, s);
    forall st | st in AllSubTasks(q) ensures st.state != s {
    }
    NothingWithout(q.scheduled, s);
    NothingWithout(q.running, s);
    NothingWithout(q.finished, s);
    GiveUpNone(q, AllSubTasks(q), s);
    assert q.holder - {s} == q.holder;
  }

  lemma {:induction false} GiveUpNone(q: RankState, sts: seq<SubTask>, s: int)
    requires forall st :: st in sts ==> st.state != s
    ensures GiveUpAll(q, sts, s) == q
  {
    if sts != [] {
      GiveUpNone(q, sts[..|sts| - 1], s);
    }
  }

  lemma MemberIsTask(sts: seq<SubTask>, s: int, x: int)
    requires forall st :: st in sts && st.state == s ==> st.runner == x
    ensures WithoutMember(sts, s) == WithoutTask(sts, Task(s, x))
  {
    FilterSame(sts, (st: SubTask) => st.state != s, (st: SubTask) => !IsOf(st, Task(s, x)));
  }

  /** A reschedule of a held member amounts to killing the task that holds it. */
  lemma SupersedeIsKill(q: RankState, ranks: seq<nat>, ensembleSize: nat, s: int)
    requires RankSound(q, ranks, ensembleSize) && ranks != [] && s in q.holder
    ensures Supersede(q, s) == KillTask(q, Task(s, q.holder[s].runner))
  {
    SubTasksOfHeld(q, ranks, s);
    var x := q.holder[s].runner;
    forall st | st in AllSubTasks(q) && st.state == s ensures st.runner == x {
    }
    MemberIsTask(q.scheduled, s, x);
    MemberIsTask(q.running, s, x);
    MemberIsTask(q.finished, s, x);
    GiveUpOne(q, AllSubTasks(q), s, x);
  }

  // ----- a message of a runner rank ----------------------------------------

  /** Two running sub-tasks of a living runner rank are the same one. */
  lemma OneRunning(q: RankState, ranks: seq<nat>, i: nat, j: nat)
    requires CountInvariant(q, ranks) && RunningOrdered(q)
    requires i < |q.running| && j < |q.running| && !IsDead(q.killed, q.running[i].runner)
    requires q.running[i].runner == q.running[j].runner && q.running[i].rank == q.running[j].rank
    ensures i == j
  {
    var a, b := q.running[i], q.running[j];
    assert a in q.running && b in q.running;
    assert Count(q, a) > 0 && Count(q, b) > 0;
    assert Expected(q.holder, ranks, a) && Expected(q.holder, ranks, b);
    assert a == b;
    if i != j {
      ListedTwice(q.running, if i < j then i else j, if i < j then j else i);
    }
  }

  lemma StoreCount(q: RankState, m: DataMessage, st: SubTask)
    ensures Count(StoreData(q, m), st) == Count(q, st)
  {
    var i := RunningIndex(q, m);
    if i < |q.running| {
      RemoveCounts(q.running, i);
    }
  }

  lemma AnswerCount(q: RankState, m: DataMessage, st: SubTask)
    ensures Count(AnswerData(q, m), st) == Count(q, st)
  {
    var i := WaitingIndex(q, m);
    if i < |q.scheduled| {
      RemoveCounts(q.scheduled, i);
    }
  }

  lemma RemoveMembers<T>(s: seq<T>, i: nat)
    requires i < |s|
    ensures forall x :: x in Remove(s, i) ==> x in s
    ensures forall j :: 0 <= j < |s| && j != i ==> s[j] in Remove(s, i)
  {
    var t := Remove(s, i);
    forall j | 0 <= j < |s| && j != i ensures s[j] in t {
      assert s[j] == t[if j < i then j else j - 1];
    }
  }

  /** The sub-task an answer belongs to is found, and it is of this step. */
  lemma AnswerIsExpected(q: RankState, m: DataMessage)
    requires OrdersRun(q) && !IsDead(q.killed, m.runner)
    requires (m.runner, m.rank) in q.orders && q.orders[(m.runner, m.rank)] == Work(m.state, m.step)
    ensures m.step == q.step && RunningIndex(q, m) < |q.running|
  {
    var st :| st in q.running && st.runner == m.runner && st.rank == m.rank && st.state == m.state;
    var k :| 0 <= k < |q.running| && q.running[k] == st;
  }

  /** Neither assertion of the handler fires. */
  lemma DataAssertionsHold(q: RankState, ranks: seq<nat>, m: DataMessage)
    requires LinkInvariant(q, ranks) && IsExpected(q, m) && !IsDead(q.killed, m.runner)
    ensures DataAssertions(q, m)
  {
    if (m.runner, m.rank) in q.orders {
      AnswerIsExpected(q, m);
    }
  }

  /** The state between storing and answering, with the answered order struck out. */
  ghost function Stored(q: RankState, m: DataMessage): RankState {
    StoreData(q, m).(orders := q.orders - {(m.runner, m.rank)})
  }

  lemma StoredFinished(q: RankState, ranks: seq<nat>, m: DataMessage)
    requires CountInvariant(q, ranks) && LinkInvariant(q, ranks)
    requires !IsDead(q.killed, m.runner)
    requires (m.runner, m.rank) in q.orders && q.orders[(m.runner, m.rank)] == Work(m.state, m.step)
    ensures FinishedStored(Stored(q, m))
  {
    AnswerIsExpected(q, m);
    var q' := Stored(q, m);
    var done := q.running[RunningIndex(q, m)];
    assert Count(q, done) > 0;
    assert Expected(q.holder, ranks, done);
    forall st | st in q'.finished
      ensures (st.state, st.rank) in q'.background
      ensures q'.background[(st.state, st.rank)] == Origin(st.runner, q'.step)
    {
      if st in q.finished {
        assert Count(q, st) > 0;
        assert Expected(q.holder, ranks, st);
      }
    }
  }

  lemma StoredLinks(q: RankState, ranks: seq<nat>, m: DataMessage)
    requires CountInvariant(q, ranks) && LinkInvariant(q, ranks)
    requires IsExpected(q, m) && !IsDead(q.killed, m.runner)
    ensures LinkInvariant(Stored(q, m), ranks)
    ensures !HasConnection(Stored(q, m).idle, m.runner, m.rank)
  {
    var q' := Stored(q, m);
    var i := RunningIndex(q, m);
    if (m.runner, m.rank) in q.orders {
      AnswerIsExpected(q, m);
      StoredFinished(q, ranks, m);
      RemoveMembers(q.running, i);
      forall st | st in q'.running && !IsDead(q'.killed, st.runner)
        ensures (st.runner, st.rank) in q'.orders && q'.orders[(st.runner, st.rank)] == Work(st.state, q'.step)
      {
        NotThisOne(q, ranks, i, st);
      }
      forall x, p | (x, p) in q'.orders && !IsDead(q'.killed, x)
        ensures RunningFor(q'.running, x, p, q'.orders[(x, p)].state)
      {
        var st :| st in q.running && st.runner == x && st.rank == p && st.state == q.orders[(x, p)].state;
        var k :| 0 <= k < |q.running| && q.running[k] == st;
        assert k != i;
        assert st in q'.running;
      }
    } else {
      assert q.orders - {(m.runner, m.rank)} == q.orders;
      assert forall k :: 0 <= k < |q.running| ==> q.running[k] in q.running;
    }
  }

  lemma NotThisOne(q: RankState, ranks: seq<nat>, i: nat, st: SubTask)
    requires CountInvariant(q, ranks) && RunningOrdered(q)
    requires i < |q.running| && st in Remove(q.running, i) && !IsDead(q.killed, st.runner)
    ensures st in q.running && (st.runner, st.rank) != (q.running[i].runner, q.running[i].rank)
  {
    var rest := Remove(q.running, i);
    var k :| 0 <= k < |rest| && rest[k] == st;
    var j := if k < i then k else k + 1;
    assert q.running[j] == st;
    if (st.runner, st.rank) == (q.running[i].runner, q.running[i].rank) {
      OneRunning(q, ranks, i, j);
    }
  }

  lemma AnswerLinks(q: RankState, ranks: seq<nat>, m: DataMessage)
    requires LinkInvariant(q, ranks) && !IsDead(q.killed, m.runner) && m.rank in ranks
    requires (m.runner, m.rank) !in q.orders && !HasConnection(q.idle, m.runner, m.rank)
    ensures LinkInvariant(AnswerData(q, m), ranks)
  {
    var q' := AnswerData(q, m);
    var i := WaitingIndex(q, m);
    if i < |q.scheduled| {
      var st := q.scheduled[i];
      RemoveMembers(q.scheduled, i);
      assert q'.running == q.running + [st];
      assert st in q'.running;
      assert forall u :: u in q.running ==> u in q'.running;
      forall x, p | (x, p) in q'.orders && !IsDead(q'.killed, x)
        ensures RunningFor(q'.running, x, p, q'.orders[(x, p)].state)
      {
        if (x, p) != (m.runner, m.rank) {
          assert (x, p) in q.orders;
        }
      }
    } else {
      forall st | st in q'.scheduled ensures !HasConnection(q'.idle, st.runner, st.rank) {
        var k :| 0 <= k < |q.scheduled| && q.scheduled[k] == st;
      }
    }
  }

  ghost predicate SameAssignment(q: RankState, q': RankState) {
    && q'.unscheduled == q.unscheduled && q'.holder == q.holder && q'.killed == q.killed
    && q'.step == q.step && q'.highestReceived == q.highestReceived && q'.highestSent == q.highestSent
    && q'.taskId == q.taskId && q'.finishedRanks == q.finishedRanks && q'.failcount == q.failcount
  }

  lemma AnswerFrame(q: RankState, m: DataMessage)
    ensures SameLedger(q, AnswerData(q, m))
  {
  }

  lemma StoreFrame(q: RankState, m: DataMessage)
    ensures SameAssignment(q, StoreData(q, m))
  {
  }

  /** Everything that decides who holds what is untouched by incoming states. */
  lemma HandleDataFrame(q: RankState, m: DataMessage)
    ensures SameAssignment(q, HandleData(q, m))
  {
    StoreFrame(q, m);
    AnswerFrame(StoreData(q, m), m);
  }

  lemma HandleDataKeepsInvariant(q: RankState, ranks: seq<nat>, ensembleSize: nat, m: DataMessage)
    requires RankSound(q, ranks, ensembleSize) && m.rank in ranks
    requires !IsDead(q.killed, m.runner) ==> IsExpected(q, m)
    ensures RankSound(HandleData(q, m), ranks, ensembleSize)
  {
    HandleDataFrame(q, m);
    var q' := HandleData(q, m);
    if IsDead(q.killed, m.runner) {
      assert forall st :: Count(q', st) == Count(q, st);
    } else {
      StoredLinks(q, ranks, m);
      AnswerLinks(Stored(q, m), ranks, m);
      AnswerOverwrites(q, m);
      forall st ensures Count(q', st) == Count(q, st) {
        StoreCount(q, m, st);
        AnswerCount(StoreData(q, m), m, st);
      }
    }
  }

  lemma AnswerOverwrites(q: RankState, m: DataMessage)
    ensures AnswerData(StoreData(q, m), m) == AnswerData(Stored(q, m), m)
  {
    AnswerStruckOut(StoreData(q, m), m);
  }

  lemma AnswerStruckOut(q: RankState, m: DataMessage)
    ensures AnswerData(q.(orders := q.orders - {(m.runner, m.rank)}), m) == AnswerData(q, m)
  {
    var c := (m.runner, m.rank);
    var q' := q.(orders := q.orders - {c});
    var i := WaitingIndex(q, m);
    assert WaitingIndex(q', m) == i;
    if i < |q.scheduled| {
      var w := Work(q.scheduled[i].state, q.step);
      assert q.orders[c := w] == q'.orders[c := w];
    } else {
      assert q'.orders - {c} == q.orders - {c};
    }
  }

  // ----- how many sub-tasks there are --------------------------------------

  function SubTasksFor(s: int, held: Held, ranks: seq<nat>): (sts: seq<SubTask>)
    ensures |sts| == |ranks|
  {
    seq(|ranks|, i requires 0 <= i < |ranks| => SubTask(held.runner, ranks[i], s, held.due))
  }

  lemma {:induction false} SubTasksForCount(s: int, held: Held, ranks: seq<nat>, st: SubTask)
    requires Distinct(ranks)
    ensures multiset(SubTasksFor(s, held, ranks))[st]
            == if st.state == s && Held(st.runner, st.due) == held && st.rank in ranks then 1 else 0
  {
    if ranks != [] {
      var n := |ranks| - 1;
      SubTasksForCount(s, held, ranks[..n], st);
      assert SubTasksFor(s, held, ranks)
          == SubTasksFor(s, held, ranks[..n]) + [SubTask(held.runner, ranks[n], s, held.due)];
      assert ranks == ranks[..n] + [ranks[n]];
      assert ranks[n] !in ranks[..n];
    }
  }

  /** A collection of one sub-task per held member and connected rank. */
  lemma {:induction false} SizeOfWork(m: multiset<SubTask>, holder: map<int, Held>, ranks: seq<nat>)
    requires Distinct(ranks)
    requires forall st :: m[st] == if Expected(holder, ranks, st) then 1 else 0
    ensures |m| == |holder| * |ranks|
    decreases |holder|
  {
    if holder == map[] {
      assert m == multiset{};
    } else {
      var s := AnyOf(holder.Keys);
      var rest := PeelWork(m, holder, ranks, s);
      SizeOfWork(rest, holder - {s}, ranks);
      assert holder.Keys == (holder - {s}).Keys + {s};
      Share(|holder| - 1, 1, |ranks|);
    }
  }

  lemma PeelWork(m: multiset<SubTask>, holder: map<int, Held>, ranks: seq<nat>, s: int)
    returns (rest: multiset<SubTask>)
    requires Distinct(ranks) && s in holder
    requires forall st :: m[st] == if Expected(holder, ranks, st) then 1 else 0
    ensures forall st :: rest[st] == if Expected(holder - {s}, ranks, st) then 1 else 0
    ensures |m| == |rest| + |ranks|
  {
    var mine := multiset(SubTasksFor(s, holder[s], ranks));
    rest := m - mine;
    forall st
      ensures mine[st] <= m[st]
      ensures rest[st] == if Expected(holder - {s}, ranks, st) then 1 else 0
    {
      SubTasksForCount(s, holder[s], ranks, st);
    }
    assert m == rest + mine;
  }

  lemma SubTasksAddUp(q: RankState, ranks: seq<nat>)
    requires CountInvariant(q, ranks) && Distinct(ranks)
    ensures |q.scheduled| + |q.running| + |q.finished| == |q.holder| * |ranks|
  {
    var all := multiset(q.scheduled) + multiset(q.running) + multiset(q.finished);
    forall st ensures all[st] == if Expected(q.holder, ranks, st) then 1 else 0 {
      assert all[st] == Count(q, st);
    }
    SizeOfWork(all, q.holder, ranks);
  }

  /** The assertion at the end of every round of the main loop. */
  ghost predicate AllSomewhere(q: RankState, connections: nat, ensembleSize: nat) {
    |q.unscheduled| * connections + |q.scheduled| + |q.running| + |q.finished| == connections * ensembleSize
  }

  lemma EveryTaskIsSomewhere(q: RankState, ranks: seq<nat>, ensembleSize: nat)
    requires CountInvariant(q, ranks) && HolderInvariant(q, ensembleSize) && Distinct(ranks)
    ensures AllSomewhere(q, |ranks|, ensembleSize)
  {
    SubTasksAddUp(q, ranks);
    HeldOrNot(q, ensembleSize);
    AllCounted(q, |ranks|, |q.holder|, ensembleSize);
  }

  lemma AllCounted(q: RankState, connections: nat, held: nat, ensembleSize: nat)
    requires |q.scheduled| + |q.running| + |q.finished| == held * connections
    requires |q.unscheduled| + held == ensembleSize
    ensures AllSomewhere(q, connections, ensembleSize)
  {
    Share(|q.unscheduled|, held, connections);
  }

  lemma HeldOrNot(q: RankState, ensembleSize: nat)
    requires HolderInvariant(q, ensembleSize)
    ensures |q.unscheduled| + |q.holder| == ensembleSize
  {
    assert |q.holder| == |q.holder.Keys|;
    assert |q.unscheduled + q.holder.Keys| == |q.unscheduled| + |q.holder.Keys|;
  }

  lemma Share(a: nat, b: nat, c: nat)
    ensures a * c + b * c == c * (a + b)
  {
  }

  // ----- the end of a step -------------------------------------------------

  lemma NewStepKeepsInvariant(q: RankState, ranks: seq<nat>, ensembleSize: nat, nsteps: int)
    requires RankSound(q, ranks, ensembleSize) && nsteps > 0
    requires q.scheduled == [] && q.running == []
    ensures RankSound(InitNewTimestep(q, ensembleSize, nsteps), ranks, ensembleSize)
  {
    var q' := InitNewTimestep(q, ensembleSize, nsteps);
    assert forall st :: Count(q', st) == 0;
    assert forall x, p, s :: !RunningFor(q.running, x, p, s);
  }

  /** An incoming state cannot undo that a rank would finish. */
  lemma DataKeepsFinished(q: RankState, m: DataMessage, ensembleSize: nat, connections: nat)
    requires WouldFinish(q, ensembleSize, connections)
    ensures WouldFinish(HandleData(q, m), ensembleSize, connections)
  {
  }

  /** The rank really has every member's result of this step from the runner that holds it. */
  lemma FinishedBackground(q: RankState, ranks: seq<nat>, ensembleSize: nat, s: int, p: nat)
    requires RankSound(q, ranks, ensembleSize) && WouldFinish(q, ensembleSize, |ranks|)
    requires 0 <= s < ensembleSize && p in ranks
    ensures s in q.holder
    ensures (s, p) in q.background && q.background[(s, p)] == Origin(q.holder[s].runner, q.step)
  {
    assert s in Members(ensembleSize);
    var st := SubTask(q.holder[s].runner, p, s, q.holder[s].due);
    assert Expected(q.holder, ranks, st);
    assert Count(q, st) == 1;
    assert st in q.finished;
  }
}
