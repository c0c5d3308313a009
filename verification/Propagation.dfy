/**
  The law of conservation parent by parent: every particle that is drawn in an update is
  propagated from its own parent, and its result weighted, exactly once in the cycle.
 */
module Propagation {
  import opened ParticleState
  import opened ParticleInvariant

  /** The jobs under way or scheduled from a parent. */
  function OpenFor(due: set<Entry>, p: StateId): set<Entry> {
    set e | e in due && e.parent == p
  }

  /** Particles of a parent that are not weighted yet. */
  ghost function Unweighted(w: Work, p: StateId): nat {
    w.alpha[p] + |OpenFor(w.due, p)|
  }

  lemma OpenWithout(due: set<Entry>, e: Entry, p: StateId)
    requires e in due
    ensures |OpenFor(due - {e}, p)| == |OpenFor(due, p)| - if e.parent == p then 1 else 0
  {
    if e.parent == p {
      assert OpenFor(due - {e}, p) == OpenFor(due, p) - {e};
    } else {
      assert OpenFor(due - {e}, p) == OpenFor(due, p);
    }
  }

  lemma OpenWith(due: set<Entry>, e: Entry, p: StateId)
    requires e !in due
    ensures |OpenFor(due + {e}, p)| == |OpenFor(due, p)| + if e.parent == p then 1 else 0
  {
    assert (due + {e}) - {e} == due;
    OpenWithout(due + {e}, e, p);
  }

  // ----- one event ---------------------------------------------------------

  /** The parent whose particle comes back with this weight. */
  ghost function ParentOf(w: Work, runner: int, job: StateId): StateId
    requires IsRunning(w, runner, job)
  {
    var e :| e in w.due && e.runner == runner && e.job == job;
    e.parent
  }

  ghost function ReturnedBy(w: Work, e: Event): multiset<StateId> {
    if e.Weight? && e.job.t != 0 && IsRunning(w, e.runner, e.job) then multiset{ParentOf(w, e.runner, e.job)}
    else multiset{}
  }

  lemma LaunchNewBalance(w: Work, runner: int, parent: StateId, due: int, p: StateId)
    requires JobsAreNew(w) && w.cycle > 1 && parent in w.alpha
    ensures Unweighted(LaunchNew(w, runner, parent, due), p) == Unweighted(w, p)
    ensures Unweighted(Schedule(w, runner, parent, due), p) == Unweighted(w, p)
  {
    var e := Entry(due, runner, NextJob(w), parent);
    NewEntry(w, e);
    OpenWith(w.due, e, p);
  }

  lemma LaunchScheduledBalance(w: Work, runner: int, due: int, p: StateId)
    requires JobsAreNew(w) && ScheduledIsDue(w) && runner in w.scheduled
    ensures Unweighted(LaunchScheduled(w, runner, due), p) == Unweighted(w, p)
  {
    var before := DueOfScheduled(w, runner);
    var after := Entry(due, runner, NextJob(w), w.scheduled[runner].parent);
    WithoutOne(w, before);
    NewEntry(w, after);
    OpenWithout(w.due, before, p);
    OpenWith(w.due - {before}, after, p);
  }

  lemma WeightBalance(w: Work, runner: int, job: StateId, p: StateId)
    requires JobsAreNew(w) && job.t != 0 && IsRunning(w, runner, job)
    ensures Unweighted(AcceptWeight(w, runner, job), p) + multiset{ParentOf(w, runner, job)}[p] == Unweighted(w, p)
  {
    var e :| e in w.due && e.runner == runner && e.job == job && e.parent == ParentOf(w, runner, job);
    WithoutOne(w, e);
    OpenWithout(w.due, e, p);
  }

  lemma {:induction false} ExpireBalance(w: Work, entries: seq<Entry>, p: StateId)
    requires forall e :: e in entries ==> e in w.due
    requires forall i, j :: 0 <= i < j < |entries| ==> entries[i] != entries[j]
    ensures Unweighted(ExpireAll(w, entries), p) == Unweighted(w, p)
  {
    if entries != [] {
      var n := |entries| - 1;
      ExpireBalance(w, entries[..n], p);
      ExpireAllDue(w, entries[..n]);
      assert entries[n] in entries && entries[n] !in entries[..n];
      ExpireOne(ExpireAll(w, entries[..n]), entries[n], p);
    }
  }

  lemma ExpireOne(w: Work, e: Entry, p: StateId)
    requires e in w.due
    ensures Unweighted(Expire(w, e), p) == Unweighted(w, p)
  {
    OpenWithout(w.due, e, p);
  }

  /** Whatever happens before the update: a parent's particles are given out, come back or are still to be
      given out, and a weight takes one of them away. */
  lemma StepBalance(w: Work, e: Event, particles: nat, p: StateId)
    requires Sound(w, particles) && Enabled(w, e, particles) && w.cycle > 1
    ensures var w' := if e.Weight? then AcceptWeight(w, e.runner, e.job) else Step(w, e, particles);
            Unweighted(w', p) + ReturnedBy(w, e)[p] == Unweighted(w, p)
  {
    match e
    case JobRequest(runner, cached, parent, due) => RequestBalance(w, e, particles, p);
    case PrefetchRequest(runner, cached, parent, due) =>
      if runner !in w.scheduled && parent.Some? {
        ChoiceMayGet(w, runner, cached, parent, particles);
        LaunchNewBalance(w, runner, parent.value, due, p);
      }
    case Weight(runner, job, _) =>
      if job.t != 0 { WeightBalance(w, runner, job, p); }
    case RunnerRequest(_) =>
    case CheckViolations(entries, _) => ExpireBalance(w, entries, p);
  }

  lemma RequestBalance(w: Work, e: Event, particles: nat, p: StateId)
    requires Sound(w, particles) && e.JobRequest? && Enabled(w, e, particles) && w.cycle > 1
    ensures Unweighted(Step(w, e, particles), p) == Unweighted(w, p)
  {
    var w1 := Connect(w, e.runner);
    ConnectSound(w, e.runner, particles);
    if e.runner in w1.scheduled {
      LaunchScheduledBalance(w1, e.runner, e.due, p);
    } else if e.parent.Some? {
      ChoiceMayGet(w1, e.runner, e.cached, e.parent, particles);
      LaunchNewBalance(w1, e.runner, e.parent.value, e.due, p);
    }
  }

  // ----- over the cycle ----------------------------------------------------

  /** The state with which the cycle has begun. */
  function Begin(ws: seq<Work>, i: nat): (b: nat)
    requires i < |ws|
    ensures b <= i
  {
    if i == 0 || ws[i].cycle != ws[i - 1].cycle then i else Begin(ws, i - 1)
  }

  /** What has been drawn for the cycle. */
  function Drawn(ws: seq<Work>, i: nat): multiset<StateId>
    requires i < |ws|
  {
    ws[Begin(ws, i)].alpha
  }

  /** The parents of the particles whose weights have come in since then. */
  ghost function Returned(ws: seq<Work>, events: seq<Event>, i: nat): multiset<StateId>
    requires i < |ws| && i <= |events|
  {
    if i == Begin(ws, i) then multiset{} else Returned(ws, events, i - 1) + ReturnedBy(ws[i - 1], events[i - 1])
  }

  /** Nothing is left when the update draws new particles. */
  lemma UpdateDraws(w: Work, e: Event, particles: nat, p: StateId)
    requires Sound(w, particles) && Enabled(w, e, particles) && Step(w, e, particles).cycle != w.cycle
    ensures e.Weight? && Unweighted(AcceptWeight(w, e.runner, e.job), p) == 0
    ensures Step(w, e, particles).due == {}
  {
    OnlyWeightsUpdate(w, e, particles);
    if e.job.t != 0 {
      WeightSound(w, e.runner, e.job, particles);
    }
    AllWeighted(AcceptWeight(w, e.runner, e.job), particles);
    assert AcceptWeight(w, e.runner, e.job).alpha == multiset{};
    assert OpenFor({}, p) == {};
  }

  lemma OnlyWeightsUpdate(w: Work, e: Event, particles: nat)
    requires Step(w, e, particles).cycle != w.cycle
    ensures e.Weight? && CanUpdate(AcceptWeight(w, e.runner, e.job), particles)
  {
    match e
    case CheckViolations(entries, _) => ExpireAllCycle(w, entries);
    case _ =>
  }

  lemma FirstOfCycle(w: Work, w': Work, e: Event, particles: nat, p: StateId)
    requires Sound(w, particles) && Enabled(w, e, particles) && w' == Step(w, e, particles) && w'.cycle != w.cycle
    ensures |OpenFor(w'.due, p)| == 0
  {
    UpdateDraws(w, e, particles, p);
    assert OpenFor({}, p) == {};
  }

  lemma NextInCycle(w: Work, w': Work, e: Event, particles: nat, p: StateId)
    requires Sound(w, particles) && Enabled(w, e, particles) && w' == Step(w, e, particles)
    requires w'.cycle == w.cycle > 1
    ensures w'.alpha[p] + |OpenFor(w'.due, p)| + ReturnedBy(w, e)[p] == w.alpha[p] + |OpenFor(w.due, p)|
  {
    StepBalance(w, e, particles, p);
    if e.Weight? {
      SameInCycle(w, e, particles);
    }
  }

  lemma Begins(ws: seq<Work>, events: seq<Event>, i: nat)
    requires 0 < i < |ws| && i <= |events|
    ensures if ws[i].cycle != ws[i - 1].cycle then Returned(ws, events, i) == multiset{} && Drawn(ws, i) == ws[i].alpha
            else Returned(ws, events, i) == Returned(ws, events, i - 1) + ReturnedBy(ws[i - 1], events[i - 1])
                 && Drawn(ws, i) == Drawn(ws, i - 1)
  {
  }

  /** In every state of every run, for every parent: what is still to be given out, what is under way and
      what has come back are together what has been drawn. */
  lemma {:induction false} ParentsAreConserved(ws: seq<Work>, events: seq<Event>, particles: nat, i: nat, p: StateId)
    requires IsRun(ws, events, particles) && i < |ws| && ws[i].cycle > 1
    ensures ws[i].alpha[p] + |OpenFor(ws[i].due, p)| + Returned(ws, events, i)[p] == Drawn(ws, i)[p]
  {
    if i > 0 {
      RunSound(ws, events, particles, i - 1);
      Begins(ws, events, i);
      if ws[i].cycle != ws[i - 1].cycle {
        FirstOfCycle(ws[i - 1], ws[i], events[i - 1], particles, p);
      } else {
        ParentsAreConserved(ws, events, particles, i - 1, p);
        NextInCycle(ws[i - 1], ws[i], events[i - 1], particles, p);
      }
    }
  }

  lemma SameInCycle(w: Work, e: Event, particles: nat)
    requires e.Weight? && Step(w, e, particles).cycle == w.cycle
    ensures Step(w, e, particles) == AcceptWeight(w, e.runner, e.job)
  {
  }

  /** When the next update comes, exactly the particles that had been drawn have been propagated and
      weighted, each from its own parent and each once. */
  lemma EveryParticleOnce(ws: seq<Work>, events: seq<Event>, particles: nat, i: nat)
    requires IsRun(ws, events, particles) && i < |events| && ws[i].cycle > 1
    requires ws[i + 1].cycle != ws[i].cycle
    ensures Returned(ws, events, i) + ReturnedBy(ws[i], events[i]) == Drawn(ws, i)
  {
    RunSound(ws, events, particles, i);
    forall p ensures (Returned(ws, events, i) + ReturnedBy(ws[i], events[i]))[p] == Drawn(ws, i)[p] {
      ParentsAreConserved(ws, events, particles, i, p);
      UpdateDraws(ws[i], events[i], particles, p);
      StepBalance(ws[i], events[i], particles, p);
    }
  }
}
