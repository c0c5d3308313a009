/**
  The books of the peer-to-peer particle server (server-p2p/server.py): how many particles
  of each parent still have to be propagated, which jobs are under way, and what every
  message makes of it.  The functions specify the handlers; class ParticleServer implements
  them with the server's own dictionaries.
 */
module ParticleState {
  import opened Helpers

  /** A particle: the cycle it belongs to, and a number. */
  datatype StateId = StateId(t: int, id: int)

  /** A job a runner has got or is going to get, with the time it has to be done by. */
  datatype Entry = Entry(due: int, runner: int, job: StateId, parent: StateId)

  datatype Job = Job(job: StateId, parent: StateId)

  /** `alpha` counts the propagations each parent still needs.  `weighted` are the states whose
      weight has come in, `listed` the runners that have a list of due dates, if only an empty one.
      `timeouts`, the due dates violated in this cycle, is a history variable. */
  datatype Work = Work(
    cycle: int,
    alpha: multiset<StateId>,
    due: set<Entry>,
    scheduled: map<int, Job>,
    stealable: int,
    weights: int,
    weighted: set<StateId>,
    known: set<int>,
    faulty: set<int>,
    last: map<int, Option<StateId>>,
    nextJobId: int,
    timeouts: nat,
    listed: set<int>)

  function NextJob(w: Work): StateId { StateId(w.cycle, w.nextJobId) }

  /** A runner that is heard of for the first time. */
  function Connect(w: Work, runner: int): Work {
    if runner in w.known then w
    else w.(known := w.known + {runner}, last := w.last[runner := None])
  }

  // ----- the choice of a parent --------------------------------------------

  function RunnersOf(due: set<Entry>, parent: StateId): set<int> {
    set e | e in due && e.parent == parent :: e.runner
  }

  /** Rounded up: the share of the runners that a parent deserves, alpha[parent] / (M / R). */
  function Share(w: Work, parent: StateId): nat
    requires |w.alpha| > 0
  {
    (w.alpha[parent] * |w.last| + |w.alpha| - 1) / |w.alpha|
  }

  predicate NeedsRunner(w: Work, parent: StateId)
    requires |w.alpha| > 0
  {
    Share(w, parent) - |RunnersOf(w.due, parent)| >= 1
  }

  /** The first of the runner's cached states that is still needed, or the number of states. */
  function FirstNeeded(cached: seq<StateId>, alpha: multiset<StateId>): (i: nat)
    ensures i <= |cached|
    ensures i < |cached| ==> cached[i] in alpha
    ensures forall j :: 0 <= j < i ==> cached[j] !in alpha
  {
    if cached == [] then 0
    else
      var i := FirstNeeded(cached[..|cached| - 1], alpha);
      if i < |cached| - 1 || cached[|cached| - 1] in alpha then i else |cached|
  }

  /** What select_good_new_parent may return; where it runs into its assertion, nothing. */
  ghost predicate IsNewParent(w: Work, runner: int, cached: seq<StateId>, parent: Option<StateId>) {
    if w.cycle == 1 then parent == Some(StateId(0, runner))
    else if |w.alpha| == 0 then parent == None
    else if FirstNeeded(cached, w.alpha) < |cached| then parent == Some(cached[FirstNeeded(cached, w.alpha)])
    else parent.Some? && parent.value in w.alpha && NeedsRunner(w, parent.value)
  }

  predicate KeepsParent(w: Work, runner: int)
    requires runner in w.last
  {
    w.last[runner].Some? && w.last[runner].value in w.alpha
  }

  /** A runner stays with its parent as long as that one is needed. */
  ghost predicate IsChoice(w: Work, runner: int, cached: seq<StateId>, parent: Option<StateId>)
    requires runner in w.last
  {
    if KeepsParent(w, runner) then parent == w.last[runner] else IsNewParent(w, runner, cached, parent)
  }

  /** There are particles to propagate, but no parent needs a runner. */
  ghost predicate NobodyNeeded(w: Work) {
    w.cycle != 1 && |w.alpha| > 0 && forall p :: p in w.alpha ==> !NeedsRunner(w, p)
  }

  /** Where select_good_new_parent asserts that it does not get. */
  ghost predicate Blocked(w: Work, runner: int, cached: seq<StateId>)
    requires runner in w.last
  {
    !KeepsParent(w, runner) && NobodyNeeded(w) && FirstNeeded(cached, w.alpha) == |cached|
  }

  /** The runner is blocked exactly if there is no choice for it. */
  lemma BlockedMeansNoChoice(w: Work, runner: int, cached: seq<StateId>)
    requires runner in w.last
    ensures Blocked(w, runner, cached) <==> forall parent :: !IsChoice(w, runner, cached, parent)
  {
    if !Blocked(w, runner, cached) {
      var parent := SomeChoice(w, runner, cached);
      assert IsChoice(w, runner, cached, parent);
    }
  }

  lemma SomeChoice(w: Work, runner: int, cached: seq<StateId>) returns (parent: Option<StateId>)
    requires runner in w.last && !Blocked(w, runner, cached)
    ensures IsChoice(w, runner, cached, parent)
  {
    var i := FirstNeeded(cached, w.alpha);
    if KeepsParent(w, runner) {
      parent := w.last[runner];
    } else if w.cycle == 1 {
      parent := Some(StateId(0, runner));
    } else if |w.alpha| == 0 {
      parent := None;
    } else if i < |cached| {
      parent := Some(cached[i]);
    } else {
      var p :| p in w.alpha && NeedsRunner(w, p);
      parent := Some(p);
    }
  }

  // ----- job requests and prefetching --------------------------------------

  function Without(due: set<Entry>, runner: int, job: StateId): set<Entry> {
    set e | e in due && !(e.runner == runner && e.job == job)
  }

  /** The runner gets a job with this parent. */
  function Launch(w: Work, runner: int, parent: StateId, due: int): Work {
    w.(last := w.last[runner := Some(parent)],
       stealable := w.stealable - 1,
       nextJobId := w.nextJobId + 1,
       due := w.due + {Entry(due, runner, NextJob(w), parent)},
       listed := w.listed + {runner})
  }

  /** The parent that was scheduled for the runner when it prefetched. */
  function LaunchScheduled(w: Work, runner: int, due: int): Work
    requires runner in w.scheduled
  {
    Launch(w.(scheduled := w.scheduled - {runner}, due := Without(w.due, runner, w.scheduled[runner].job)),
           runner, w.scheduled[runner].parent, due)
  }

  /** In the first cycle the parent is counted into alpha and out again. */
  function LaunchNew(w: Work, runner: int, parent: StateId, due: int): Work {
    Launch(w.(alpha := if w.cycle == 1 then w.alpha else w.alpha - multiset{parent}), runner, parent, due)
  }

  function AnswerJobRequest(w: Work, runner: int, parent: Option<StateId>, due: int): Work {
    if runner in w.scheduled then LaunchScheduled(w, runner, due)
    else if parent.Some? then LaunchNew(w, runner, parent.value, due)
    else w
  }

  /** The parent of the runner's next job is decided in advance. */
  function Promise(w: Work, runner: int, parent: StateId, due: int): Work {
    w.(scheduled := w.scheduled[runner := Job(NextJob(w), parent)],
       nextJobId := w.nextJobId + 1,
       due := w.due + {Entry(due, runner, NextJob(w), parent)},
       listed := w.listed + {runner})
  }

  function Schedule(w: Work, runner: int, parent: StateId, due: int): Work {
    Promise(w.(alpha := w.alpha - multiset{parent}), runner, parent, due)
  }

  function AnswerPrefetch(w: Work, runner: int, parent: Option<StateId>, due: int): Work {
    if w.cycle > 1 && runner !in w.scheduled && parent.Some? then Schedule(w, runner, parent.value, due) else w
  }

  // ----- deleting states ---------------------------------------------------

  /** What a runner must keep: its jobs, their parents, and at first its base state. */
  ghost predicate MustKeep(w: Work, runner: int, s: StateId) {
    || (exists e :: e in w.due && e.runner == runner && (e.job == s || e.parent == s))
    || (runner in w.scheduled && w.scheduled[runner].parent == s)
    || (w.cycle == 1 && s.t == 0)
  }

  /** What a delete request of the runner finds in the books: a list of its due dates, a state that is
      not kept, and the weights of the new states. */
  ghost predicate CanDelete(w: Work, runner: int, cached: seq<StateId>) {
    && runner in w.listed
    && (exists s :: s in cached && !MustKeep(w, runner, s))
    && forall s :: s in cached && s.t == w.cycle && !MustKeep(w, runner, s) ==> s in w.weighted
  }

  // ----- weights and the update --------------------------------------------

  /** A runner reports a job it has been given: not the one that is only scheduled. */
  predicate IsRunning(w: Work, runner: int, job: StateId) {
    && (exists e :: e in w.due && e.runner == runner && e.job == job)
    && (runner in w.scheduled ==> w.scheduled[runner].job != job)
  }

  /** States of cycle 0 only say that a runner has started. */
  function AcceptWeight(w: Work, runner: int, job: StateId): Work {
    if job.t == 0 then w
    else w.(due := Without(w.due, runner, job), weights := w.weights + 1, weighted := w.weighted + {job})
  }

  predicate CanUpdate(w: Work, particles: nat) {
    w.weights == particles && |w.alpha| == 0 && w.stealable == 0
  }

  function ThisCycle(w: Work): set<StateId> {
    set s | s in w.weighted && s.t == w.cycle
  }

  /** What sampling with replacement may give: as many states of this cycle as there are. */
  predicate IsSample(w: Work, sample: seq<StateId>) {
    |sample| == |ThisCycle(w)| && forall i :: 0 <= i < |sample| ==> sample[i] in ThisCycle(w)
  }

  function Update(w: Work, sample: seq<StateId>, particles: nat): Work {
    w.(cycle := w.cycle + 1, stealable := particles, nextJobId := 0, weights := 0,
       alpha := w.alpha + multiset(sample), timeouts := 0)
  }

  // ----- due dates ---------------------------------------------------------

  /** A list from which the last entry expires disappears. */
  function ListedWithout(w: Work, e: Entry): set<int> {
    if exists f :: f in w.due && f != e && f.runner == e.runner then w.listed else w.listed - {e.runner}
  }

  /** A due date is violated: the runner is given up, its parent needs one more propagation. */
  function Expire(w: Work, e: Entry): Work {
    w.(faulty := w.faulty + {e.runner},
       last := w.last - {e.runner},
       scheduled := w.scheduled - {e.runner},
       stealable := if e.runner in w.scheduled then w.stealable else w.stealable + 1,
       alpha := w.alpha + multiset{e.parent},
       due := w.due - {e},
       timeouts := w.timeouts + 1,
       listed := ListedWithout(w, e))
  }

  function ExpireAll(w: Work, entries: seq<Entry>): Work {
    if entries == [] then w else Expire(ExpireAll(w, entries[..|entries| - 1]), entries[|entries| - 1])
  }

  /** The entries that are due, each once, in the order they are worked off. */
  ghost predicate AreOverdue(w: Work, entries: seq<Entry>, now: int) {
    && (forall e :: e in entries <==> e in w.due && e.due <= now)
    && (forall i, j :: 0 <= i < j < |entries| ==> entries[i] != entries[j])
    && (forall i, j :: 0 <= i < j < |entries| ==> entries[i].due <= entries[j].due)
  }

  // ----- runs --------------------------------------------------------------

  /** Choices the server makes by chance or by the order of a dictionary are part of the event. */
  datatype Event =
    | JobRequest(runner: int, cached: seq<StateId>, parent: Option<StateId>, due: int)
    | PrefetchRequest(runner: int, cached: seq<StateId>, parent: Option<StateId>, due: int)
    | Weight(runner: int, job: StateId, sample: seq<StateId>)
    | RunnerRequest(runner: int)
    | CheckViolations(entries: seq<Entry>, now: int)

  function AfterWeight(w: Work, sample: seq<StateId>, particles: nat): Work {
    if CanUpdate(w, particles) then Update(w, sample, particles) else w
  }

  /** Whether the event can happen: requests are only answered while there are jobs to steal, a
      runner is known before it prefetches, and messages of faulty runners are ignored. */
  ghost predicate Enabled(w: Work, e: Event, particles: nat) {
    match e
    case JobRequest(runner, cached, parent, _) =>
      && runner !in w.faulty && w.stealable > 0
      && var w1 := Connect(w, runner);
         runner in w1.last && (runner in w.scheduled || IsChoice(w1, runner, cached, parent))
    case PrefetchRequest(runner, cached, parent, _) =>
      && runner !in w.faulty
      && (w.cycle > 1 && runner !in w.scheduled ==> runner in w.last && IsChoice(w, runner, cached, parent))
    case Weight(runner, job, sample) =>
      && runner !in w.faulty && (job.t == 0 || IsRunning(w, runner, job))
      && (CanUpdate(AcceptWeight(w, runner, job), particles) ==> IsSample(AcceptWeight(w, runner, job), sample))
    case RunnerRequest(runner) => runner !in w.faulty
    case CheckViolations(entries, now) => AreOverdue(w, entries, now)
  }

  function Step(w: Work, e: Event, particles: nat): Work {
    match e
    case JobRequest(runner, _, parent, due) => AnswerJobRequest(Connect(w, runner), runner, parent, due)
    case PrefetchRequest(runner, _, parent, due) => AnswerPrefetch(w, runner, parent, due)
    case Weight(runner, job, sample) => AfterWeight(AcceptWeight(w, runner, job), sample, particles)
    case RunnerRequest(runner) => Connect(w, runner)
    case CheckViolations(entries, _) => ExpireAll(w, entries)
  }

  function Initial(particles: nat): Work {
    Work(1, multiset{}, {}, map[], particles, 0, {}, {}, {}, map[], 0, 0, {})
  }

  /** The states w runs through, from the initial one on. */
  ghost predicate IsRun(ws: seq<Work>, events: seq<Event>, particles: nat) {
    && |ws| == |events| + 1
    && ws[0] == Initial(particles)
    && forall i :: 0 <= i < |events| ==>
         Enabled(ws[i], events[i], particles) && ws[i + 1] == Step(ws[i], events[i], particles)
  }
}
