/**
  What the particle server's books keep over every run: no particle is lost or propagated
  twice, an update has everything it needs, and as long as no due date is violated there is
  always a parent for a runner that asks.
 */
module ParticleInvariant {
  import opened Helpers
  import opened ParticleState

  /** Every particle of the cycle is to be propagated, under way, or weighted. */
  ghost predicate Conserved(w: Work, particles: nat) {
    if w.cycle == 1 then
      && w.stealable + |w.due| + w.weights == particles
      && w.scheduled == map[] && w.stealable >= 0
      && |w.alpha| == w.timeouts
    else
      && |w.alpha| + |w.due| + w.weights == particles
      && w.stealable == |w.alpha| + |w.scheduled|
  }

  /** A scheduled job has its due date, and its runner is not given up. */
  ghost predicate ScheduledIsDue(w: Work) {
    forall r :: r in w.scheduled ==> r in w.last && HasDue(w, r, w.scheduled[r])
  }

  ghost predicate HasDue(w: Work, runner: int, job: Job) {
    exists due :: Entry(due, runner, job.job, job.parent) in w.due
  }

  /** Job ids are never used twice. */
  ghost predicate JobsAreNew(w: Work) {
    && w.nextJobId >= 0 && w.cycle >= 1
    && (forall e :: e in w.due ==> e.job.t == w.cycle && e.job.id < w.nextJobId && e.job !in w.weighted)
    && (forall e, f :: e in w.due && f in w.due && e.job == f.job ==> e == f)
    && (forall s :: s in w.weighted ==> s.t < w.cycle || (s.t == w.cycle && s.id < w.nextJobId))
    && |ThisCycle(w)| == w.weights
  }

  ghost predicate RunnersKnown(w: Work) {
    && w.last.Keys == w.known - w.faulty
    && w.faulty <= w.known
    && forall e :: e in w.due ==> e.runner in w.known
  }

  /** Parents are base states in the first cycle, and weighted states of the last cycle later. */
  ghost predicate ParentsKnown(w: Work) {
    && (forall e :: e in w.due ==> IsParent(w, e.parent) && (w.cycle == 1 ==> e.parent.id == e.runner))
    && (forall p :: p in w.alpha ==> IsParent(w, p) && (w.cycle == 1 ==> p.id in w.faulty))
    && (forall r :: r in w.last && w.last[r].Some? && w.cycle == 1 ==> w.last[r].value == StateId(0, r))
    && (forall r :: r in w.last && w.last[r].Some? ==> w.last[r].value.t < w.cycle)
  }

  ghost predicate IsParent(w: Work, p: StateId) {
    p.t == w.cycle - 1 && (w.cycle > 1 ==> p in w.weighted)
  }

  /** The parent a runner works on, or has been promised. */
  function Newest(w: Work, runner: int): Option<StateId> {
    if runner in w.scheduled then Some(w.scheduled[runner].parent)
    else if runner in w.last then w.last[runner]
    else None
  }

  /** While no due date has been violated, a runner has only one parent that is still needed. */
  ghost predicate OneParentEach(w: Work) {
    w.timeouts == 0 ==>
      forall e :: e in w.due ==> e.runner in w.last && (e.parent in w.alpha ==> Newest(w, e.runner) == Some(e.parent))
  }

  /** A runner with a due date has a list, and so has a living one that has got a job. */
  ghost predicate RunnersListed(w: Work) {
    && (forall e :: e in w.due ==> e.runner in w.listed)
    && (forall r :: r in w.last && w.last[r].Some? ==> r in w.listed)
  }

  ghost predicate Sound(w: Work, particles: nat) {
    && Conserved(w, particles)
    && ScheduledIsDue(w)
    && JobsAreNew(w)
    && RunnersKnown(w)
    && ParentsKnown(w)
    && OneParentEach(w)
    && RunnersListed(w)
  }

  // ----- due dates come and go ---------------------------------------------

  lemma WithoutOne(w: Work, e: Entry)
    requires JobsAreNew(w) && e in w.due
    ensures Without(w.due, e.runner, e.job) == w.due - {e}
    ensures |w.due - {e}| == |w.due| - 1
  {
  }

  /** The new job is unlike all others. */
  lemma NewEntry(w: Work, e: Entry)
    requires JobsAreNew(w) && e.job == NextJob(w)
    ensures e !in w.due && |w.due + {e}| == |w.due| + 1
  {
  }

  lemma DueOfScheduled(w: Work, r: int) returns (e: Entry)
    requires ScheduledIsDue(w) && r in w.scheduled
    ensures e in w.due && e.runner == r && e.job == w.scheduled[r].job && e.parent == w.scheduled[r].parent
  {
    assert HasDue(w, r, w.scheduled[r]);
    var due :| Entry(due, r, w.scheduled[r].job, w.scheduled[r].parent) in w.due;
    e := Entry(due, r, w.scheduled[r].job, w.scheduled[r].parent);
  }

  lemma OneLess<T>(m: multiset<T>, x: T)
    requires x in m
    ensures |m - multiset{x}| == |m| - 1
  {
    assert m == (m - multiset{x}) + multiset{x};
  }

  // ----- a runner connects -------------------------------------------------

  lemma ConnectSound(w: Work, runner: int, particles: nat)
    requires Sound(w, particles) && runner !in w.faulty
    ensures Sound(Connect(w, runner), particles)
    ensures runner in Connect(w, runner).last
  {
    ConnectSchedules(w, runner);
    ConnectParents(w, runner);
    assert ThisCycle(Connect(w, runner)) == ThisCycle(w);
  }

  lemma ConnectSchedules(w: Work, runner: int)
    requires ScheduledIsDue(w)
    ensures ScheduledIsDue(Connect(w, runner))
  {
    var w' := Connect(w, runner);
    forall r | r in w'.scheduled ensures r in w'.last && HasDue(w', r, w'.scheduled[r]) {
      assert HasDue(w, r, w.scheduled[r]);
    }
  }

  lemma ConnectParents(w: Work, runner: int)
    requires RunnersKnown(w) && ParentsKnown(w) && OneParentEach(w) && runner !in w.faulty && w.cycle >= 1
    ensures var w' := Connect(w, runner);
            RunnersKnown(w') && ParentsKnown(w') && OneParentEach(w') && runner in w'.last
  {
    var w' := Connect(w, runner);
    if w.timeouts == 0 {
      forall e | e in w'.due
        ensures e.runner in w'.last && (e.parent in w'.alpha ==> Newest(w', e.runner) == Some(e.parent))
      {
        assert e.runner in w.known;
      }
    }
  }

  // ----- a job is launched -------------------------------------------------

  lemma LaunchJobs(w: Work, runner: int, parent: StateId, due: int)
    requires JobsAreNew(w)
    ensures JobsAreNew(Launch(w, runner, parent, due))
    ensures |Launch(w, runner, parent, due).due| == |w.due| + 1
  {
    var w' := Launch(w, runner, parent, due);
    NewEntry(w, Entry(due, runner, NextJob(w), parent));
    assert ThisCycle(w') == ThisCycle(w);
  }

  lemma LaunchSchedules(w: Work, runner: int, parent: StateId, due: int)
    requires ScheduledIsDue(w) && runner in w.last
    ensures ScheduledIsDue(Launch(w, runner, parent, due))
  {
    var w' := Launch(w, runner, parent, due);
    forall r | r in w'.scheduled ensures r in w'.last && HasDue(w', r, w'.scheduled[r]) {
      var e := DueOfScheduled(w, r);
      assert Entry(e.due, r, e.job, e.parent) in w'.due;
    }
  }

  /** In cycles from the second on, the particle moves from alpha to the due dates. */
  lemma LaunchNewSound(w: Work, runner: int, parent: StateId, due: int, particles: nat)
    requires Sound(w, particles) && w.stealable > 0 && MayGet(w, runner, parent)
    ensures Sound(LaunchNew(w, runner, parent, due), particles)
  {
    LaunchNewBooks(w, runner, parent, due);
    LaunchNewConserves(w, runner, parent, due, particles);
    LaunchedParents(w, runner, parent, due);
    LaunchedOneParent(w, runner, parent, due);
    LaunchedListed(w, runner, parent, due);
  }

  lemma LaunchNewBooks(w: Work, runner: int, parent: StateId, due: int)
    requires JobsAreNew(w) && ScheduledIsDue(w) && runner in w.last
    ensures var w' := LaunchNew(w, runner, parent, due); JobsAreNew(w') && ScheduledIsDue(w')
    ensures |LaunchNew(w, runner, parent, due).due| == |w.due| + 1
  {
    var w1 := w.(alpha := if w.cycle == 1 then w.alpha else w.alpha - multiset{parent});
    assert ThisCycle(w1) == ThisCycle(w);
    forall r | r in w1.scheduled ensures HasDue(w1, r, w1.scheduled[r]) {
      assert HasDue(w, r, w.scheduled[r]);
    }
    LaunchJobs(w1, runner, parent, due);
    LaunchSchedules(w1, runner, parent, due);
  }

  lemma LaunchNewConserves(w: Work, runner: int, parent: StateId, due: int, particles: nat)
    requires Conserved(w, particles) && w.stealable > 0 && MayGet(w, runner, parent)
    requires |LaunchNew(w, runner, parent, due).due| == |w.due| + 1
    ensures Conserved(LaunchNew(w, runner, parent, due), particles)
  {
    if w.cycle > 1 { OneLess(w.alpha, parent); }
  }

  lemma LaunchedListed(w: Work, runner: int, parent: StateId, due: int)
    requires RunnersListed(w)
    ensures RunnersListed(LaunchNew(w, runner, parent, due))
  {
  }

  /** The parent is one the runner may get, and it does not leave a parent that is still needed. */
  ghost predicate MayGet(w: Work, runner: int, parent: StateId) {
    && runner in w.last && runner !in w.scheduled && w.cycle >= 1
    && (w.cycle == 1 ==> parent == StateId(0, runner))
    && (w.cycle > 1 ==> parent in w.alpha)
    && (w.cycle > 1 && KeepsParent(w, runner) ==> w.last[runner] == Some(parent))
  }

  lemma LaunchedParents(w: Work, runner: int, parent: StateId, due: int)
    requires RunnersKnown(w) && ParentsKnown(w) && MayGet(w, runner, parent)
    ensures var w' := LaunchNew(w, runner, parent, due); RunnersKnown(w') && ParentsKnown(w')
  {
  }

  lemma LaunchedOneParent(w: Work, runner: int, parent: StateId, due: int)
    requires RunnersKnown(w) && ParentsKnown(w) && OneParentEach(w) && MayGet(w, runner, parent)
    ensures OneParentEach(LaunchNew(w, runner, parent, due))
  {
    var w' := LaunchNew(w, runner, parent, due);
    if w.timeouts == 0 {
      forall e | e in w'.due
        ensures e.runner in w'.last && (e.parent in w'.alpha ==> Newest(w', e.runner) == Some(e.parent))
      {
        if e in w.due && e.parent in w'.alpha {
          assert Newest(w, e.runner) == Some(e.parent);
        }
      }
    }
  }

  // ----- a scheduled job is launched ---------------------------------------

  /** The entry of the scheduled job makes way for that of the launched one. */
  lemma UnscheduleSound(w: Work, runner: int)
    requires JobsAreNew(w) && ScheduledIsDue(w) && runner in w.scheduled
    ensures var w1 := w.(scheduled := w.scheduled - {runner},
                         due := Without(w.due, runner, w.scheduled[runner].job));
            && JobsAreNew(w1) && ScheduledIsDue(w1)
            && |w1.due| == |w.due| - 1 && w1.due <= w.due
            && |w1.scheduled| == |w.scheduled| - 1
  {
    var w1 := w.(scheduled := w.scheduled - {runner},
                 due := Without(w.due, runner, w.scheduled[runner].job));
    var e := DueOfScheduled(w, runner);
    WithoutOne(w, e);
    assert ThisCycle(w1) == ThisCycle(w);
    assert w.scheduled.Keys == w1.scheduled.Keys + {runner};
    forall r | r in w1.scheduled ensures HasDue(w1, r, w1.scheduled[r]) {
      var f := DueOfScheduled(w, r);
      assert Entry(f.due, r, f.job, f.parent) in w1.due;
    }
  }

  lemma LaunchScheduledSound(w: Work, runner: int, due: int, particles: nat)
    requires Sound(w, particles) && runner in w.scheduled
    ensures Sound(LaunchScheduled(w, runner, due), particles)
  {
    LaunchScheduledBooks(w, runner, due);
    LaunchScheduledParents(w, runner, due);
    LaunchScheduledOneParent(w, runner, due);
    LaunchScheduledListed(w, runner, due);
  }

  lemma LaunchScheduledBooks(w: Work, runner: int, due: int)
    requires JobsAreNew(w) && ScheduledIsDue(w) && runner in w.scheduled
    ensures var w' := LaunchScheduled(w, runner, due);
            && JobsAreNew(w') && ScheduledIsDue(w')
            && |w'.due| == |w.due| && |w'.scheduled| == |w.scheduled| - 1
  {
    var w1 := w.(scheduled := w.scheduled - {runner},
                 due := Without(w.due, runner, w.scheduled[runner].job));
    UnscheduleSound(w, runner);
    LaunchJobs(w1, runner, w.scheduled[runner].parent, due);
    LaunchSchedules(w1, runner, w.scheduled[runner].parent, due);
  }

  lemma LaunchScheduledListed(w: Work, runner: int, due: int)
    requires RunnersListed(w) && runner in w.scheduled
    ensures RunnersListed(LaunchScheduled(w, runner, due))
  {
  }

  lemma LaunchScheduledParents(w: Work, runner: int, due: int)
    requires RunnersKnown(w) && ParentsKnown(w) && ScheduledIsDue(w) && runner in w.scheduled
    requires w.cycle > 1
    ensures var w' := LaunchScheduled(w, runner, due); RunnersKnown(w') && ParentsKnown(w')
  {
    var e := DueOfScheduled(w, runner);
  }

  lemma LaunchScheduledOneParent(w: Work, runner: int, due: int)
    requires OneParentEach(w) && runner in w.scheduled && runner in w.last
    ensures OneParentEach(LaunchScheduled(w, runner, due))
  {
    var w' := LaunchScheduled(w, runner, due);
    if w.timeouts == 0 {
      forall e | e in w'.due
        ensures e.runner in w'.last && (e.parent in w'.alpha ==> Newest(w', e.runner) == Some(e.parent))
      {
        if e in w.due && e.parent in w'.alpha {
          assert Newest(w, e.runner) == Some(e.parent);
        }
      }
    }
  }

  // ----- a job is scheduled ------------------------------------------------

  lemma ScheduleSound(w: Work, runner: int, parent: StateId, due: int, particles: nat)
    requires Sound(w, particles) && w.cycle > 1 && MayGet(w, runner, parent)
    ensures Sound(Schedule(w, runner, parent, due), particles)
  {
    ScheduleConserves(w, runner, parent, due, particles);
    ScheduleJobs(w, runner, parent, due);
    ScheduleParents(w, runner, parent, due);
    ScheduleOneParent(w, runner, parent, due);
  }

  lemma ScheduleConserves(w: Work, runner: int, parent: StateId, due: int, particles: nat)
    requires Conserved(w, particles) && JobsAreNew(w) && w.cycle > 1 && MayGet(w, runner, parent)
    ensures Conserved(Schedule(w, runner, parent, due), particles)
  {
    OneLess(w.alpha, parent);
    NewEntry(w, Entry(due, runner, NextJob(w), parent));
    assert Schedule(w, runner, parent, due).scheduled.Keys == w.scheduled.Keys + {runner};
  }

  lemma ScheduleJobs(w: Work, runner: int, parent: StateId, due: int)
    requires JobsAreNew(w) && ScheduledIsDue(w) && runner in w.last
    ensures JobsAreNew(Schedule(w, runner, parent, due)) && ScheduledIsDue(Schedule(w, runner, parent, due))
  {
    var w' := Schedule(w, runner, parent, due);
    assert ThisCycle(w') == ThisCycle(w);
    forall r | r in w'.scheduled ensures r in w'.last && HasDue(w', r, w'.scheduled[r]) {
      if r == runner {
        assert Entry(due, runner, NextJob(w), parent) in w'.due;
      } else {
        var e := DueOfScheduled(w, r);
        assert Entry(e.due, r, e.job, e.parent) in w'.due;
      }
    }
  }

  lemma ScheduleParents(w: Work, runner: int, parent: StateId, due: int)
    requires RunnersKnown(w) && ParentsKnown(w) && w.cycle > 1 && MayGet(w, runner, parent)
    ensures var w' := Schedule(w, runner, parent, due); RunnersKnown(w') && ParentsKnown(w')
  {
  }

  lemma ScheduleOneParent(w: Work, runner: int, parent: StateId, due: int)
    requires RunnersKnown(w) && ParentsKnown(w) && OneParentEach(w) && w.cycle > 1 && MayGet(w, runner, parent)
    ensures OneParentEach(Schedule(w, runner, parent, due))
  {
    var w' := Schedule(w, runner, parent, due);
    if w.timeouts == 0 {
      forall e | e in w'.due
        ensures e.runner in w'.last && (e.parent in w'.alpha ==> Newest(w', e.runner) == Some(e.parent))
      {
        if e in w.due && e.parent in w'.alpha {
          assert Newest(w, e.runner) == Some(e.parent);
        }
      }
    }
  }

  /** Whatever the server chooses, the runner may get. */
  lemma ChoiceMayGet(w: Work, runner: int, cached: seq<StateId>, parent: Option<StateId>, particles: nat)
    requires Sound(w, particles) && runner in w.last && runner !in w.scheduled && parent.Some?
    requires IsChoice(w, runner, cached, parent)
    ensures MayGet(w, runner, parent.value)
  {
  }

  // ----- a weight arrives --------------------------------------------------

  lemma WeightSound(w: Work, runner: int, job: StateId, particles: nat)
    requires Sound(w, particles) && job.t != 0 && IsRunning(w, runner, job)
    ensures Sound(AcceptWeight(w, runner, job), particles)
  {
    var e :| e in w.due && e.runner == runner && e.job == job;
    WithoutOne(w, e);
    WeightJobs(w, e);
    WeightSchedules(w, runner, job);
    WeightParents(w, runner, job);
  }

  lemma WeightSchedules(w: Work, runner: int, job: StateId)
    requires ScheduledIsDue(w) && IsRunning(w, runner, job)
    ensures ScheduledIsDue(AcceptWeight(w, runner, job))
  {
    var w' := AcceptWeight(w, runner, job);
    forall r | r in w'.scheduled ensures r in w'.last && HasDue(w', r, w'.scheduled[r]) {
      var f := DueOfScheduled(w, r);
      if job.t != 0 {
        assert Entry(f.due, r, f.job, f.parent) in w'.due;
      }
    }
  }

  lemma WeightParents(w: Work, runner: int, job: StateId)
    requires RunnersKnown(w) && ParentsKnown(w) && OneParentEach(w)
    ensures var w' := AcceptWeight(w, runner, job); RunnersKnown(w') && ParentsKnown(w') && OneParentEach(w')
  {
    var w' := AcceptWeight(w, runner, job);
    if w.timeouts == 0 {
      forall f | f in w'.due
        ensures f.runner in w'.last && (f.parent in w'.alpha ==> Newest(w', f.runner) == Some(f.parent))
      {
        assert f in w.due;
      }
    }
  }

  lemma WeightJobs(w: Work, e: Entry)
    requires JobsAreNew(w) && e in w.due && e.job.t != 0
    ensures JobsAreNew(AcceptWeight(w, e.runner, e.job))
  {
    var w' := AcceptWeight(w, e.runner, e.job);
    WithoutOne(w, e);
    assert ThisCycle(w') == ThisCycle(w) + {e.job};
    assert e.job !in ThisCycle(w);
  }

  // ----- the update --------------------------------------------------------

  /** When all weights are there, nothing is left to propagate, and nothing is under way. */
  lemma AllWeighted(w: Work, particles: nat)
    requires Sound(w, particles) && w.weights == particles
    ensures w.due == {} && w.scheduled == map[] && w.stealable == 0
    ensures |w.alpha| == if w.cycle == 1 then w.timeouts else 0
  {
    assert w.due == {};
    forall r | r in w.scheduled ensures false {
      var e := DueOfScheduled(w, r);
    }
    assert w.scheduled == map[];
  }

  /** The number of weights alone decides about the update; only in the first cycle a violated
      due date prevents it, for good. */
  lemma UpdateWhenAllWeighted(w: Work, particles: nat)
    requires Sound(w, particles)
    ensures CanUpdate(w, particles) <==> w.weights == particles && (w.cycle == 1 ==> w.timeouts == 0)
  {
    if w.weights == particles {
      AllWeighted(w, particles);
    }
  }

  lemma UpdateSound(w: Work, sample: seq<StateId>, particles: nat)
    requires Sound(w, particles) && CanUpdate(w, particles) && IsSample(w, sample)
    ensures Sound(Update(w, sample, particles), particles)
    ensures Update(w, sample, particles).alpha == multiset(sample) && |sample| == particles
    ensures forall i :: 0 <= i < |sample| ==> sample[i] in w.weighted && sample[i].t == w.cycle
    ensures var w' := Update(w, sample, particles);
            w'.cycle == w.cycle + 1 && w'.weights == 0 && w'.stealable == particles && w'.nextJobId == 0
  {
    var w' := Update(w, sample, particles);
    AllWeighted(w, particles);
    assert w.alpha == multiset{};
    assert |multiset(sample)| == |sample| == particles;
    assert ThisCycle(w') == {};
    forall p | p in w'.alpha ensures p in ThisCycle(w) {
      assert p in multiset(sample);
    }
  }

  // ----- violated due dates ------------------------------------------------

  lemma ExpireConserves(w: Work, e: Entry, particles: nat)
    requires Conserved(w, particles) && e in w.due
    ensures Conserved(Expire(w, e), particles)
  {
    OneMore(w.alpha, e.parent);
    OneGone(w.due, e);
    Unscheduled(w.scheduled, e.runner);
  }

  lemma OneMore<T>(m: multiset<T>, x: T)
    ensures |m + multiset{x}| == |m| + 1
  {
  }

  lemma OneGone<T>(s: set<T>, x: T)
    requires x in s
    ensures |s - {x}| == |s| - 1
  {
  }

  lemma Unscheduled(scheduled: map<int, Job>, runner: int)
    ensures |scheduled - {runner}| == |scheduled| - if runner in scheduled then 1 else 0
  {
    if runner in scheduled {
      assert scheduled.Keys == (scheduled - {runner}).Keys + {runner};
    } else {
      assert scheduled - {runner} == scheduled;
    }
  }

  lemma ExpireJobs(w: Work, e: Entry)
    requires JobsAreNew(w) && ScheduledIsDue(w) && e in w.due
    ensures JobsAreNew(Expire(w, e)) && ScheduledIsDue(Expire(w, e))
  {
    var w' := Expire(w, e);
    assert ThisCycle(w') == ThisCycle(w);
    forall r | r in w'.scheduled ensures r in w'.last && HasDue(w', r, w'.scheduled[r]) {
      var f := DueOfScheduled(w, r);
      assert Entry(f.due, r, f.job, f.parent) in w'.due;
    }
  }

  lemma ExpireParents(w: Work, e: Entry)
    requires RunnersKnown(w) && ParentsKnown(w) && e in w.due
    ensures RunnersKnown(Expire(w, e)) && ParentsKnown(Expire(w, e))
  {
  }

  lemma ExpireSound(w: Work, e: Entry, particles: nat)
    requires Sound(w, particles) && e in w.due
    ensures Sound(Expire(w, e), particles)
  {
    ExpireConserves(w, e, particles);
    ExpireJobs(w, e);
    ExpireParents(w, e);
  }

  lemma {:induction false} ExpireAllDue(w: Work, entries: seq<Entry>)
    ensures forall e :: e in ExpireAll(w, entries).due <==> e in w.due && e !in entries
  {
    if entries != [] {
      ExpireAllDue(w, entries[..|entries| - 1]);
      assert entries == entries[..|entries| - 1] + [entries[|entries| - 1]];
    }
  }

  lemma {:induction false} ExpireAllSound(w: Work, entries: seq<Entry>, particles: nat)
    requires Sound(w, particles) && forall e :: e in entries ==> e in w.due
    requires forall i, j :: 0 <= i < j < |entries| ==> entries[i] != entries[j]
    ensures Sound(ExpireAll(w, entries), particles)
  {
    if entries != [] {
      var n := |entries| - 1;
      ExpireAllSound(w, entries[..n], particles);
      ExpireAllDue(w, entries[..n]);
      assert entries[n] in entries && entries[n] !in entries[..n];
      ExpireSound(ExpireAll(w, entries[..n]), entries[n], particles);
    }
  }

  /** What is late is gone, its runners are given up, without a last parent or a scheduled job; every
      parent is needed once more for each of its entries; and nothing else has changed. */
  ghost predicate LateGivenUp(w: Work, now: int, w': Work) {
    && (forall e :: e in w'.due <==> e in w.due && e.due > now)
    && (forall r :: r in w'.faulty <==> r in w.faulty || exists e :: e in w.due && e.due <= now && e.runner == r)
    && (forall r :: r in w'.last <==> r in w.last && forall e :: e in w.due && e.due <= now ==> e.runner != r)
    && (forall r :: r in w'.last ==> w'.last[r] == w.last[r])
    && (forall r :: r in w'.scheduled <==> r in w.scheduled && forall e :: e in w.due && e.due <= now ==> e.runner != r)
    && (forall r :: r in w'.scheduled ==> w'.scheduled[r] == w.scheduled[r])
    && (forall p :: w'.alpha[p] == w.alpha[p] + |set e | e in w.due && e.due <= now && e.parent == p|)
    && w'.weighted == w.weighted && w'.weights == w.weights && w'.cycle == w.cycle && w'.nextJobId == w.nextJobId
  }

  lemma {:induction false} ExpireAllRunners(w: Work, entries: seq<Entry>)
    ensures var w' := ExpireAll(w, entries);
            && (forall r :: r in w'.faulty <==> r in w.faulty || exists e :: e in entries && e.runner == r)
            && (forall r :: r in w'.last <==> r in w.last && forall e :: e in entries ==> e.runner != r)
            && (forall r :: r in w'.last ==> w'.last[r] == w.last[r])
            && w'.weighted == w.weighted && w'.weights == w.weights && w'.cycle == w.cycle && w'.nextJobId == w.nextJobId
  {
    if entries != [] {
      var n := |entries| - 1;
      ExpireAllRunners(w, entries[..n]);
      assert entries == entries[..n] + [entries[n]];
    }
  }

  lemma {:induction false} ExpireAllScheduled(w: Work, entries: seq<Entry>)
    ensures var w' := ExpireAll(w, entries);
            && (forall r :: r in w'.scheduled <==> r in w.scheduled && forall e :: e in entries ==> e.runner != r)
            && (forall r :: r in w'.scheduled ==> w'.scheduled[r] == w.scheduled[r])
  {
    if entries != [] {
      var n := |entries| - 1;
      ExpireAllScheduled(w, entries[..n]);
      assert entries == entries[..n] + [entries[n]];
    }
  }

  /** The entries of a list with the given parent. */
  ghost function EntriesOf(entries: seq<Entry>, p: StateId): set<Entry> {
    set e | e in entries && e.parent == p
  }

  lemma OneMoreEntry(entries: seq<Entry>, e: Entry, p: StateId)
    requires e !in entries
    ensures |EntriesOf(entries + [e], p)| == |EntriesOf(entries, p)| + if e.parent == p then 1 else 0
  {
    assert EntriesOf(entries + [e], p) == EntriesOf(entries, p) + if e.parent == p then {e} else {};
  }

  lemma {:induction false} ExpireAllParents(w: Work, entries: seq<Entry>, p: StateId)
    requires forall i, j :: 0 <= i < j < |entries| ==> entries[i] != entries[j]
    ensures ExpireAll(w, entries).alpha[p] == w.alpha[p] + |EntriesOf(entries, p)|
  {
    if entries != [] {
      var n := |entries| - 1;
      ExpireAllParents(w, entries[..n], p);
      assert entries == entries[..n] + [entries[n]];
      OneMoreEntry(entries[..n], entries[n], p);
    } else {
      assert EntriesOf(entries, p) == {};
    }
  }

  lemma ExpireAllMeans(w: Work, entries: seq<Entry>, now: int)
    requires AreOverdue(w, entries, now)
    ensures LateGivenUp(w, now, ExpireAll(w, entries))
  {
    ExpireAllDue(w, entries);
    ExpireAllRunners(w, entries);
    ExpireAllScheduled(w, entries);
    forall p ensures ExpireAll(w, entries).alpha[p] == w.alpha[p] + |set e | e in w.due && e.due <= now && e.parent == p| {
      ExpireAllParents(w, entries, p);
      assert EntriesOf(entries, p) == set e | e in w.due && e.due <= now && e.parent == p;
    }
  }

  // ----- all runs ----------------------------------------------------------

  lemma InitialSound(particles: nat)
    ensures Sound(Initial(particles), particles)
  {
  }

  lemma AfterWeightSound(w: Work, sample: seq<StateId>, particles: nat)
    requires Sound(w, particles) && (CanUpdate(w, particles) ==> IsSample(w, sample))
    ensures Sound(AfterWeight(w, sample, particles), particles)
  {
    if CanUpdate(w, particles) {
      UpdateSound(w, sample, particles);
    }
  }

  lemma JobRequestSound(w: Work, e: Event, particles: nat)
    requires Sound(w, particles) && e.JobRequest? && Enabled(w, e, particles)
    ensures Sound(Step(w, e, particles), particles)
  {
    var w1 := Connect(w, e.runner);
    ConnectSound(w, e.runner, particles);
    if e.runner in w1.scheduled {
      LaunchScheduledSound(w1, e.runner, e.due, particles);
    } else if e.parent.Some? {
      ChoiceMayGet(w1, e.runner, e.cached, e.parent, particles);
      LaunchNewSound(w1, e.runner, e.parent.value, e.due, particles);
    }
  }

  lemma StepSound(w: Work, e: Event, particles: nat)
    requires Sound(w, particles) && Enabled(w, e, particles)
    ensures Sound(Step(w, e, particles), particles)
  {
    match e
    case JobRequest(_, _, _, _) => JobRequestSound(w, e, particles);
    case PrefetchRequest(runner, cached, parent, due) =>
      if w.cycle > 1 && runner !in w.scheduled && parent.Some? {
        ChoiceMayGet(w, runner, cached, parent, particles);
        ScheduleSound(w, runner, parent.value, due, particles);
      }
    case Weight(runner, job, sample) =>
      if job.t != 0 { WeightSound(w, runner, job, particles); }
      AfterWeightSound(AcceptWeight(w, runner, job), sample, particles);
    case RunnerRequest(runner) => ConnectSound(w, runner, particles);
    case CheckViolations(entries, _) => ExpireAllSound(w, entries, particles);
  }

  /** The law holds in every state of every run. */
  lemma {:induction false} RunSound(ws: seq<Work>, events: seq<Event>, particles: nat, i: nat)
    requires IsRun(ws, events, particles) && i < |ws|
    ensures Sound(ws[i], particles)
  {
    if i == 0 {
      InitialSound(particles);
    } else {
      RunSound(ws, events, particles, i - 1);
      StepSound(ws[i - 1], events[i - 1], particles);
    }
  }

  // ----- a parent can always be chosen -------------------------------------

  function AllRunners(due: set<Entry>, parents: set<StateId>): set<int> {
    set e | e in due && e.parent in parents :: e.runner
  }

  lemma RoundedUp(x: nat, m: nat, n: nat)
    requires m > 0 && (x + m - 1) / m <= n
    ensures x <= m * n
  {
    var q := (x + m - 1) / m;
    assert m * q >= x;
    TimesGrows(m, q, n);
  }

  lemma TimesGrows(m: nat, q: nat, n: nat)
    requires q <= n
    ensures m * q <= m * n
  {
  }

  ghost predicate NoRunnerTwice(due: set<Entry>, parents: set<StateId>) {
    forall p, q :: p in parents && q in parents && p != q ==> RunnersOf(due, p) !! RunnersOf(due, q)
  }

  /** Whatever adds up, and holds of the particles and the runners of every single parent, holds of
      all of them together. */
  lemma {:induction false} RunnersAtWork(due: set<Entry>, alpha: multiset<StateId>, parents: set<StateId>,
                                         bag: multiset<StateId>, share: (int, int) -> bool)
    requires NoRunnerTwice(due, parents)
    requires share(0, 0) && forall x, y, n, k :: share(x, n) && share(y, k) ==> share(x + y, n + k)
    requires forall p :: p in parents ==> share(alpha[p], |RunnersOf(due, p)|)
    requires forall p :: bag[p] == if p in parents then alpha[p] else 0
    ensures share(|bag|, |AllRunners(due, parents)|)
    decreases |parents|
  {
    if parents == {} {
      assert bag == multiset{};
      assert AllRunners(due, parents) == {};
    } else {
      var p :| p in parents;
      var rest := parents - {p};
      RunnersAtWork(due, alpha, rest, bag[p := 0], share);
      AddRunners(due, rest, p);
      assert parents == rest + {p};
      assert share(|bag[p := 0]|, |AllRunners(due, rest)|) && share(alpha[p], |RunnersOf(due, p)|);
    }
  }

  lemma AddRunners(due: set<Entry>, rest: set<StateId>, p: StateId)
    requires p !in rest && NoRunnerTwice(due, rest + {p})
    ensures |AllRunners(due, rest + {p})| == |AllRunners(due, rest)| + |RunnersOf(due, p)|
  {
    forall r | r in AllRunners(due, rest) ensures r !in RunnersOf(due, p) {
      var e :| e in due && e.parent in rest && e.runner == r;
      assert r in RunnersOf(due, e.parent);
    }
    assert AllRunners(due, rest + {p}) == AllRunners(due, rest) + RunnersOf(due, p);
  }

  /** A runner works for one needed parent only. */
  lemma OneParentOnly(w: Work, parents: set<StateId>)
    requires OneParentEach(w) && w.timeouts == 0 && forall p :: p in parents ==> p in w.alpha
    ensures NoRunnerTwice(w.due, parents)
  {
    forall p, q | p in parents && q in parents && p != q ensures RunnersOf(w.due, p) !! RunnersOf(w.due, q) {
      forall r | r in RunnersOf(w.due, p) ensures r !in RunnersOf(w.due, q) {
        var e :| e in w.due && e.parent == p && e.runner == r;
        assert Newest(w, r) == Some(p);
      }
    }
  }

  /** Of m particles and r runners, x particles have no more than their share with n runners. */
  ghost predicate InProportion(m: nat, r: nat, x: int, n: int) {
    x * r <= m * n
  }

  /** A parent that needs no runner has its share of them. */
  lemma HasItsShare(w: Work, p: StateId)
    requires |w.alpha| > 0 && !NeedsRunner(w, p)
    ensures InProportion(|w.alpha|, |w.last|, w.alpha[p], |RunnersOf(w.due, p)|)
  {
    RoundedUp(w.alpha[p] * |w.last|, |w.alpha|, |RunnersOf(w.due, p)|);
  }

  lemma AddShares(m: nat, r: nat, x: int, y: int, n: int, k: int)
    requires InProportion(m, r, x, n) && InProportion(m, r, y, k)
    ensures InProportion(m, r, x + y, n + k)
  {
  }

  lemma NoShares(m: nat, r: nat)
    ensures InProportion(m, r, 0, 0)
  {
  }

  lemma AllShares(m: nat, r: nat, n: nat)
    requires m > 0 && InProportion(m, r, m, n)
    ensures n >= r
  {
    if n < r {
      TimesGrows(m, n + 1, r);
    }
  }

  /** Were no parent in need, the runners at work would be as many as there are. */
  lemma NobodyInNeed(w: Work, parents: set<StateId>)
    requires NoRunnerTwice(w.due, parents) && |w.alpha| > 0
    requires forall p :: p in parents <==> p in w.alpha
    requires forall p :: p in parents ==> !NeedsRunner(w, p)
    ensures |AllRunners(w.due, parents)| >= |w.last|
  {
    var m, r := |w.alpha|, |w.last|;
    var share := (x: int, n: int) => InProportion(m, r, x, n);
    forall x, y, n, k | share(x, n) && share(y, k) ensures share(x + y, n + k) {
      AddShares(m, r, x, y, n, k);
    }
    forall p | p in parents ensures share(w.alpha[p], |RunnersOf(w.due, p)|) {
      HasItsShare(w, p);
    }
    NoShares(m, r);
    RunnersAtWork(w.due, w.alpha, parents, w.alpha, share);
    AllShares(m, r, |AllRunners(w.due, parents)|);
  }

  /** Rounding up does not matter: a parent needs a runner exactly if it has less than its share. */
  lemma RoundedUpBelow(x: nat, m: nat, n: nat)
    requires m > 0
    ensures (x + m - 1) / m - n >= 1 <==> n * m < x
  {
    var q := (x + m - 1) / m;
    assert m * q <= x + m - 1 < m * q + m;
    if q <= n {
      TimesGrows(m, q, n);
    } else {
      TimesGrows(m, n + 1, q);
      assert m * (n + 1) == m * n + m;
    }
    assert n * m == m * n;
  }

  /** A parent needs a runner if and only if the runners that work for it are, in proportion to all
      runners, fewer than its particles among all that are still to be propagated. */
  lemma NeedsRunnerExactly(w: Work, p: StateId, runners: set<int>)
    requires |w.alpha| > 0
    requires forall r :: r in runners <==> exists e :: e in w.due && e.parent == p && e.runner == r
    ensures NeedsRunner(w, p) <==> |runners| * |w.alpha| < w.alpha[p] * |w.last|
  {
    forall r ensures r in RunnersOf(w.due, p) <==> r in runners {
    }
    assert RunnersOf(w.due, p) == runners;
    RoundedUpBelow(w.alpha[p] * |w.last|, |w.alpha|, |runners|);
  }

  /** Whom a runner gets: the parent it has worked for, as long as that one is needed; in the first cycle
      its own base state; the first of its cached states that is needed; or else one that has less than
      its share of the runners.  Nobody, only if nothing is left to propagate. */
  lemma ChoiceMeans(w: Work, runner: int, cached: seq<StateId>, parent: Option<StateId>, runners: set<int>)
    requires runner in w.last && IsChoice(w, runner, cached, parent)
    requires parent.Some? ==>
               forall r :: r in runners <==> exists e :: e in w.due && e.parent == parent.value && e.runner == r
    ensures if w.last[runner].Some? && w.last[runner].value in w.alpha then parent == w.last[runner]
            else if w.cycle == 1 then parent == Some(StateId(0, runner))
            else if w.alpha == multiset{} then parent == None
            else if exists i :: 0 <= i < |cached| && cached[i] in w.alpha then
              exists i :: 0 <= i < |cached| && cached[i] in w.alpha && parent == Some(cached[i])
                          && forall j :: 0 <= j < i ==> cached[j] !in w.alpha
            else parent.Some? && parent.value in w.alpha && |runners| * |w.alpha| < w.alpha[parent.value] * |w.last|
  {
    if |w.alpha| == 0 {
      assert w.alpha == multiset{};
    }
    var i := FirstNeeded(cached, w.alpha);
    if parent.Some? && |w.alpha| > 0 {
      NeedsRunnerExactly(w, parent.value, runners);
    }
  }

  function Needed(w: Work): set<StateId> {
    set p | p in w.alpha
  }

  /** By counting runners against shares rounded up: if no runner has due dates for two needed parents,
      and one runner at least has none for any of them, then some parent needs a runner. */
  lemma SomeParentNeedsRunner(w: Work)
    requires |w.alpha| > 0 && NoRunnerTwice(w.due, Needed(w)) && |AllRunners(w.due, Needed(w))| < |w.last|
    ensures exists p :: p in w.alpha && NeedsRunner(w, p)
  {
    if forall p :: p in w.alpha ==> !NeedsRunner(w, p) {
      NobodyInNeed(w, Needed(w));
    }
  }

  /** All runners that work for a needed parent, but not the one that asks. */
  lemma OthersAtWork(w: Work, runner: int, parents: set<StateId>)
    requires OneParentEach(w) && w.timeouts == 0 && forall p :: p in parents ==> p in w.alpha
    requires runner in w.last && runner !in w.scheduled && !KeepsParent(w, runner)
    ensures |AllRunners(w.due, parents)| < |w.last|
  {
    forall r | r in AllRunners(w.due, parents) ensures r in w.last && r != runner {
      var e :| e in w.due && e.parent in parents && e.runner == r;
    }
    SubsetSize(AllRunners(w.due, parents), w.last.Keys - {runner});
  }

  /** Without violated due dates in the cycle the assertion in select_good_new_parent is never
      reached: if there is anything to propagate, some parent needs the runner that asks. */
  lemma NeverBlocked(w: Work, runner: int, particles: nat)
    requires Sound(w, particles) && w.timeouts == 0 && |w.alpha| > 0
    requires runner in w.last && runner !in w.scheduled && !KeepsParent(w, runner)
    ensures exists p :: p in w.alpha && NeedsRunner(w, p)
    ensures forall cached :: !Blocked(w, runner, cached)
  {
    OneParentOnly(w, Needed(w));
    OthersAtWork(w, runner, Needed(w));
    SomeParentNeedsRunner(w);
  }

  // ----- what the law means ------------------------------------------------

  /** In every state of every run: no particle is lost, and none is propagated twice. */
  lemma ParticlesAreConserved(ws: seq<Work>, events: seq<Event>, particles: nat, i: nat)
    requires IsRun(ws, events, particles) && i < |ws|
    ensures ws[i].cycle > 1 ==> |ws[i].alpha| + |ws[i].due| + ws[i].weights == particles
    ensures ws[i].cycle > 1 ==> ws[i].stealable == |ws[i].alpha| + |ws[i].scheduled|
    ensures ws[i].cycle == 1 ==> ws[i].stealable + |ws[i].due| + ws[i].weights == particles
    ensures |ThisCycle(ws[i])| == ws[i].weights
    ensures ws[i].stealable >= 0
  {
    RunSound(ws, events, particles, i);
  }

  /** The parent of a job given out, or of a job to prefetch for, is a state of the cycle before
      whose weight has come in. */
  lemma ParentsAreWeighted(w: Work, e: Event, particles: nat)
    requires Sound(w, particles) && Enabled(w, e, particles) && w.cycle > 1
    requires e.JobRequest? || e.PrefetchRequest?
    ensures forall f :: f in Step(w, e, particles).due ==> f.parent.t == w.cycle - 1 && f.parent in w.weighted
    ensures Step(w, e, particles).weighted == w.weighted
  {
    StepSound(w, e, particles);
    SameCycle(w, e, particles);
    WeightedParents(Step(w, e, particles));
  }

  lemma SameCycle(w: Work, e: Event, particles: nat)
    requires e.JobRequest? || e.PrefetchRequest?
    ensures Step(w, e, particles).cycle == w.cycle && Step(w, e, particles).weighted == w.weighted
  {
  }

  lemma WeightedParents(w: Work)
    requires ParentsKnown(w) && w.cycle > 1
    ensures forall e :: e in w.due ==> e.parent.t == w.cycle - 1 && e.parent in w.weighted
  {
    forall e | e in w.due ensures e.parent.t == w.cycle - 1 && e.parent in w.weighted {
      assert IsParent(w, e.parent);
    }
  }

  /** After a violated due date in the first cycle every later state of the run is one of the first
      cycle: there is no update any more. */
  lemma {:induction false} FirstCycleStaysBlocked(ws: seq<Work>, events: seq<Event>, particles: nat, i: nat, j: nat)
    requires IsRun(ws, events, particles) && i <= j < |ws|
    requires ws[i].cycle == 1 && ws[i].timeouts > 0
    ensures ws[j].cycle == 1 && ws[j].timeouts > 0 && !CanUpdate(ws[j], particles)
  {
    if i < j {
      FirstCycleStaysBlocked(ws, events, particles, i, j - 1);
      StillFirstCycle(ws, events, particles, j - 1);
    }
    NoUpdateAfterTimeout(ws, events, particles, j);
  }

  lemma StillFirstCycle(ws: seq<Work>, events: seq<Event>, particles: nat, i: nat)
    requires IsRun(ws, events, particles) && i < |events| && ws[i].cycle == 1 && ws[i].timeouts > 0
    ensures ws[i + 1].cycle == 1 && ws[i + 1].timeouts > 0
  {
    RunSound(ws, events, particles, i);
    StaysInFirstCycle(ws[i], events[i], particles);
  }

  lemma NoUpdateAfterTimeout(ws: seq<Work>, events: seq<Event>, particles: nat, i: nat)
    requires IsRun(ws, events, particles) && i < |ws| && ws[i].cycle == 1 && ws[i].timeouts > 0
    ensures !CanUpdate(ws[i], particles)
  {
    RunSound(ws, events, particles, i);
    UpdateWhenAllWeighted(ws[i], particles);
  }

  lemma StaysInFirstCycle(w: Work, e: Event, particles: nat)
    requires Sound(w, particles) && Enabled(w, e, particles) && w.cycle == 1 && w.timeouts > 0
    ensures Step(w, e, particles).cycle == 1 && Step(w, e, particles).timeouts > 0
  {
    match e
    case Weight(runner, job, sample) =>
      if job.t != 0 { WeightSound(w, runner, job, particles); }
    case CheckViolations(entries, _) => ExpireAllCycle(w, entries);
    case _ =>
  }

  lemma {:induction false} ExpireAllCycle(w: Work, entries: seq<Entry>)
    ensures ExpireAll(w, entries).cycle == w.cycle && ExpireAll(w, entries).timeouts == w.timeouts + |entries|
  {
    if entries != [] {
      ExpireAllCycle(w, entries[..|entries| - 1]);
    }
  }
}
