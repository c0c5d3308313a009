/**
  The particle server's handlers, with its dictionaries and counters changed in place.
 */
module ParticleServers {
  import opened Dictionaries
  import opened Helpers
  import opened ParticleState
  import opened ParticleInvariant
  import opened DueDateIndex

  /** What a runner is told to do next. */
  datatype Reply = Reply(job: StateId, parent: StateId)

  class ParticleServer {
    const particles: nat
    const runnerTimeout: int
    const dates: DueDates
    const cache: StateCache
    var assimilationCycle: int
    var alpha: map<StateId, nat>
    var scheduledJobs: map<int, Job>
    var stealableJobs: int
    var weightsThisCycle: int
    var stateWeights: map<StateId, real>
    var knownRunners: set<int>
    var faultyRunners: set<int>
    var runnersLast: map<int, Option<StateId>>
    var nextJobId: int
    var lastCheck: int
    var runners: map<int, map<int, int>>   // the address of every head rank of a runner
    ghost var bag: multiset<StateId>
    ghost var timeouts: nat

    /** alpha counts the elements of the bag, and has no zeros. */
    ghost predicate Counts()
      reads this
    {
      && (forall p :: p in alpha <==> p in bag)
      && forall p :: p in alpha ==> alpha[p] == bag[p]
    }

    ghost predicate Valid()
      reads this, dates, cache
    {
      Counts() && dates.Valid() && cache.Valid()
    }

    ghost function View(): Work
      reads this, dates
    {
      Work(assimilationCycle, bag, dates.entries, scheduledJobs, stealableJobs, weightsThisCycle,
           stateWeights.Keys, knownRunners, faultyRunners, runnersLast, nextJobId, timeouts,
           dates.allPerRunner.Keys)
    }

    constructor (particles: nat, runnerTimeout: int)
      ensures Valid() && View() == Initial(particles) && this.particles == particles
      ensures fresh(dates) && fresh(cache)
    {
      this.particles, this.runnerTimeout := particles, runnerTimeout;
      dates := new DueDates();
      cache := new StateCache();
      assimilationCycle, alpha, scheduledJobs := 1, map[], map[];
      stealableJobs, weightsThisCycle, stateWeights := particles, 0, map[];
      knownRunners, faultyRunners, runnersLast := {}, {}, map[];
      nextJobId, lastCheck, runners, bag, timeouts := 0, 0, map[], multiset{}, 0;
    }

    // ----- alpha -----------------------------------------------------------

    method CountMembers() returns (n: nat)
      requires Counts()
      ensures n == |bag|
    {
      n := 0;
      var left := alpha.Keys;
      ghost var rest := bag;
      while left != {}
        invariant left <= alpha.Keys
        invariant forall p :: rest[p] == if p in left then bag[p] else 0
        invariant n + |rest| == |bag|
        decreases |left|
      {
        var p :| p in left;
        n := n + alpha[p];
        rest := rest[p := 0];
        left := left - {p};
      }
      assert rest == multiset{};
    }

    method Increment(p: StateId)
      requires Counts()
      modifies this`alpha, this`bag
      ensures Counts() && bag == old(bag) + multiset{p}
    {
      if p !in alpha {
        alpha := alpha[p := 0];
      }
      alpha := alpha[p := alpha[p] + 1];
      bag := bag + multiset{p};
    }

    method Decrement(p: StateId)
      requires Counts() && p in bag
      modifies this`alpha, this`bag
      ensures Counts() && bag == old(bag) - multiset{p}
    {
      alpha := alpha[p := alpha[p] - 1];
      if alpha[p] == 0 {
        alpha := alpha - {p};
      }
      bag := bag - multiset{p};
    }

    // ----- runners ---------------------------------------------------------

    method NotifyRunnerConnect(runner: int)
      modifies this`knownRunners, this`runnersLast
      ensures View() == Connect(old(View()), runner)
      ensures knownRunners == old(knownRunners) + {runner}
      ensures runnersLast == if runner in old(knownRunners) then old(runnersLast) else old(runnersLast)[runner := None]
    {
      if runner !in knownRunners {
        knownRunners := knownRunners + {runner};
        runnersLast := runnersLast[runner := None];
      }
    }

    // ----- the choice of a parent ------------------------------------------

    method ParentNeedsRunner(parent: StateId, m: nat) returns (needed: bool)
      requires Valid() && m == |bag| > 0 && parent in alpha
      ensures needed == NeedsRunner(View(), parent)
      ensures needed <==> |RunnersOf(dates.entries, parent)| * |bag| < bag[parent] * |runnersLast|
    {
      RoundedUpBelow(alpha[parent] * |runnersLast|, m, |RunnersOf(dates.entries, parent)|);
      var n := dates.RunnersPerParent(parent);
      needed := (alpha[parent] * |runnersLast| + m - 1) / m - n >= 1;
    }

    static ghost predicate NoneNeeded(cached: seq<StateId>, bag: multiset<StateId>) {
      FirstNeeded(cached, bag) == |cached|
    }

    /** Walks through the cached states, then through alpha.  `found` is false where the code
        asserts that it does not get. */
    method FindParent(runner: int, m: nat) returns (parent: Option<StateId>)
      requires Valid() && m == |bag| > 0 && assimilationCycle != 1
      ensures parent.Some? ==> IsNewParent(View(), runner, cache.GetByRunner(runner), parent)
      ensures parent.None? <==> NobodyNeeded(View()) && NoneNeeded(cache.GetByRunner(runner), bag)
    {
      var cached := cache.GetByRunner(runner);
      var i := FirstNeededState(cached);
      if i < |cached| { return Some(cached[i]); }
      var left := alpha.Keys;
      while left != {}
        invariant left <= alpha.Keys
        invariant forall p :: p in alpha && p !in left ==> !NeedsRunner(View(), p)
        decreases |left|
      {
        var p :| p in left;
        left := left - {p};
        var needed := ParentNeedsRunner(p, m);
        if needed { return Some(p); }
      }
      return None;
    }

    method FirstNeededState(cached: seq<StateId>) returns (i: nat)
      requires Counts()
      ensures i == FirstNeeded(cached, bag)
    {
      i := 0;
      while i < |cached| && cached[i] !in alpha
        invariant i <= |cached| && forall j :: 0 <= j < i ==> cached[j] !in alpha
      {
        i := i + 1;
      }
    }

    /** In the first cycle the runner starts from its own base state, which is counted into alpha.
        `reached` says that the final assertion has been run into: neither a cached state nor any
        other parent was needed. */
    method SelectGoodNewParent(runner: int) returns (parent: Option<StateId>, reached: bool)
      requires Valid()
      modifies this`alpha, this`bag
      ensures Valid()
      ensures bag == if assimilationCycle == 1 then old(bag) + multiset{StateId(0, runner)} else old(bag)
      ensures !reached ==> IsNewParent(old(View()), runner, cache.GetByRunner(runner), parent)
      ensures reached <==> NobodyNeeded(old(View())) && NoneNeeded(cache.GetByRunner(runner), old(bag))
    {
      reached := false;
      if assimilationCycle == 1 {
        parent := Some(StateId(0, runner));
        Increment(parent.value);
      } else {
        var m := CountMembers();
        parent := None;
        if m > 0 {
          parent := FindParent(runner, m);
          reached := parent.None?;
        }
      }
    }

    // ----- job requests ----------------------------------------------------

    method GenerateJobId() returns (job: StateId)
      modifies this`nextJobId
      ensures job == NextJob(old(View())) && nextJobId == old(nextJobId) + 1
    {
      job := StateId(assimilationCycle, nextJobId);
      nextJobId := nextJobId + 1;
    }

    /** The job that was scheduled when the runner prefetched gives up its place in the books. */
    method TakeScheduled(runner: int) returns (parent: StateId)
      requires Valid() && JobsAreNew(View()) && ScheduledIsDue(View()) && runner in scheduledJobs
      modifies this`scheduledJobs, dates
      ensures Valid() && parent == old(scheduledJobs)[runner].parent
      ensures View() == old(View()).(scheduled := old(scheduledJobs) - {runner},
                                     due := Without(old(View()).due, runner, old(scheduledJobs)[runner].job))
    {
      var job := scheduledJobs[runner].job;
      parent := scheduledJobs[runner].parent;
      ghost var e := DueOfScheduled(View(), runner);
      scheduledJobs := scheduledJobs - {runner};
      var p := dates.Remove(runner, job, e);
    }

    ghost predicate NextIsNew()
      reads this, dates
    {
      forall e :: e in dates.entries ==> e.job != StateId(assimilationCycle, nextJobId)
    }

    static lemma NewJob(w: Work)
      requires JobsAreNew(w)
      ensures forall e :: e in w.due ==> e.job != NextJob(w)
    {
    }

    method LaunchJob(runner: int, parent: StateId, now: int) returns (job: StateId)
      requires Valid() && NextIsNew()
      modifies this`runnersLast, this`stealableJobs, this`nextJobId, dates
      ensures Valid() && job == NextJob(old(View()))
      ensures View() == Launch(old(View()), runner, parent, now + runnerTimeout)
    {
      job := NoteLaunched(runner, parent);
      dates.Add(now + runnerTimeout, runner, job, parent);
    }

    method NoteLaunched(runner: int, parent: StateId) returns (job: StateId)
      modifies this`runnersLast, this`stealableJobs, this`nextJobId
      ensures job == NextJob(old(View())) && nextJobId == old(nextJobId) + 1
      ensures runnersLast == old(runnersLast)[runner := Some(parent)] && stealableJobs == old(stealableJobs) - 1
    {
      runnersLast := runnersLast[runner := Some(parent)];
      stealableJobs := stealableJobs - 1;
      job := GenerateJobId();
    }

    /** The parent of a runner that has nothing scheduled. */
    method KeepOrSelect(runner: int) returns (parent: Option<StateId>, reached: bool)
      requires Valid() && runner in runnersLast && !(assimilationCycle == 1 && KeepsParent(View(), runner))
      modifies this`alpha, this`bag
      ensures Counts()
      ensures !reached ==> IsChoice(old(View()), runner, cache.GetByRunner(runner), parent)
      ensures !reached ==> Offered(bag, parent, LeftIn(assimilationCycle, old(bag), parent))
      ensures reached <==> Blocked(old(View()), runner, cache.GetByRunner(runner))
    {
      reached := false;
      if runnersLast[runner].Some? && runnersLast[runner].value in alpha {
        parent := runnersLast[runner];
      } else {
        InAndOut(bag, StateId(0, runner));
        parent, reached := SelectGoodNewParent(runner);
      }
    }

    /** In the first cycle the parent has been counted in just before. */
    static ghost function LeftIn(cycle: int, alpha: multiset<StateId>, parent: Option<StateId>): multiset<StateId> {
      if parent.None? || cycle == 1 then alpha else alpha - multiset{parent.value}
    }

    /** ... and taken out of alpha. */
    method ChooseParent(runner: int) returns (parent: Option<StateId>, reached: bool)
      requires Valid() && runner in runnersLast && !(assimilationCycle == 1 && KeepsParent(View(), runner))
      modifies this`alpha, this`bag
      ensures Counts()
      ensures !reached ==> IsChoice(old(View()), runner, cache.GetByRunner(runner), parent)
      ensures !reached ==> bag == LeftIn(assimilationCycle, old(bag), parent)
      ensures reached <==> Blocked(old(View()), runner, cache.GetByRunner(runner))
    {
      ghost var before := bag;
      parent, reached := KeepOrSelect(runner);
      if !reached {
        TakeOut(parent, LeftIn(assimilationCycle, before, parent));
      }
    }

    static ghost predicate Offered(alpha: multiset<StateId>, parent: Option<StateId>, rest: multiset<StateId>) {
      if parent.None? then alpha == rest else parent.value in alpha && alpha - multiset{parent.value} == rest
    }

    method TakeOut(parent: Option<StateId>, ghost rest: multiset<StateId>)
      requires Counts()
      requires Offered(bag, parent, rest)
      modifies this`alpha, this`bag
      ensures Counts() && bag == rest
    {
      if parent.Some? {
        Decrement(parent.value);
      }
    }

    static lemma InAndOut<T>(m: multiset<T>, x: T)
      ensures m + multiset{x} - multiset{x} == m
    {
    }

    method AnswerScheduled(runner: int, now: int) returns (reply: Reply)
      requires Valid() && JobsAreNew(View()) && ScheduledIsDue(View()) && runner in scheduledJobs
      modifies this`scheduledJobs, this`runnersLast, this`stealableJobs, this`nextJobId, dates
      ensures Valid() && View() == LaunchScheduled(old(View()), runner, now + runnerTimeout)
      ensures reply == Reply(NextJob(old(View())), old(scheduledJobs)[runner].parent)
    {
      UnscheduleSound(View(), runner);
      var parent := TakeScheduled(runner);
      NewJob(View());
      var job := LaunchJob(runner, parent, now);
      reply := Reply(job, parent);
    }

    method AnswerNew(runner: int, now: int) returns (reply: Option<Reply>, reached: bool, ghost parent: Option<StateId>)
      requires Valid() && NextIsNew() && runner in runnersLast && runner !in scheduledJobs
      requires !(assimilationCycle == 1 && KeepsParent(View(), runner))
      modifies this`alpha, this`bag, this`runnersLast, this`stealableJobs, this`nextJobId, dates
      ensures !reached ==> Valid() && IsChoice(old(View()), runner, cache.GetByRunner(runner), parent)
      ensures !reached ==> View() == AnswerJobRequest(old(View()), runner, parent, now + runnerTimeout)
      ensures !reached ==> reply == if parent.None? then None else Some(Reply(NextJob(old(View())), parent.value))
      ensures reached <==> Blocked(old(View()), runner, cache.GetByRunner(runner))
    {
      reply := None;
      var p, asserted := ChooseParent(runner);
      parent, reached := p, asserted;
      assert View() == old(View()).(alpha := bag);
      if !reached && p.Some? {
        var job := LaunchJob(runner, p.value, now);
        reply := Some(Reply(job, p.value));
      }
    }

    /** What a handler needs of the books once the runner is known. */
    static ghost predicate Ready(w: Work, runner: int) {
      && runner in w.last
      && (forall e :: e in w.due ==> e.job != NextJob(w))
      && (runner in w.scheduled ==> JobsAreNew(w) && ScheduledIsDue(w))
      && !(w.cycle == 1 && KeepsParent(w, runner))
      && (w.timeouts == 0 && runner !in w.scheduled ==> KeepsParent(w, runner) || !NobodyNeeded(w))
    }

    static lemma SoundIsReady(w: Work, runner: int, particles: nat)
      requires Sound(w, particles) && runner in w.last
      ensures Ready(w, runner)
    {
      if w.timeouts == 0 && runner !in w.scheduled && !KeepsParent(w, runner) && NobodyNeeded(w) {
        NeverBlocked(w, runner, particles);
      }
    }

    /** In every state a run can reach, the server is ready for a request of a living runner. */
    static lemma RequestFindsReady(w: Work, runner: int, particles: nat)
      requires Sound(w, particles) && runner !in w.faulty
      ensures Ready(Connect(w, runner), runner)
    {
      ConnectSound(w, runner, particles);
      SoundIsReady(Connect(w, runner), runner, particles);
    }

    /** What a job request of this runner is answered; `parent` is what a new job would get. */
    static ghost function ReplyTo(w: Work, runner: int, parent: Option<StateId>): Option<Reply> {
      if runner in w.scheduled then Some(Reply(NextJob(w), w.scheduled[runner].parent))
      else if parent.None? then None
      else Some(Reply(NextJob(w), parent.value))
    }

    /** The step of an enabled JobRequest event, unless the assertion is reached, and exactly when. */
    method HandleJobRequest(runner: int, now: int)
      returns (reply: Option<Reply>, reached: bool, ghost e: Event)
      requires Valid() && Ready(Connect(View(), runner), runner) && runner !in faultyRunners && stealableJobs > 0
      modifies this, dates
      ensures e.JobRequest? && e.runner == runner && e.due == now + runnerTimeout
      ensures e.cached == cache.GetByRunner(runner)
      ensures !reached ==> Valid() && Enabled(old(View()), e, particles) && View() == Step(old(View()), e, particles)
      ensures !reached ==> reply == ReplyTo(old(View()), runner, e.parent)
      ensures !reached && reply.Some? ==>
                Entry(now + runnerTimeout, runner, reply.value.job, reply.value.parent) in dates.entries
      ensures runner in Connect(old(View()), runner).last
      ensures reached <==>
                runner !in old(scheduledJobs) && Blocked(Connect(old(View()), runner), runner, cache.GetByRunner(runner))
      ensures old(timeouts) == 0 ==> !reached
    {
      if timeouts == 0 && runner !in scheduledJobs {
        NotBlocked(View(), runner, cache.GetByRunner(runner));
      }
      ghost var parent;
      reply, reached, parent := ConnectAndAnswer(runner, now);
      e := JobRequest(runner, cache.GetByRunner(runner), parent, now + runnerTimeout);
      if !reached {
        RequestIsStep(old(View()), View(), e, particles);
        SameReply(old(View()), runner, parent);
      }
    }

    static lemma NotBlocked(w: Work, runner: int, cached: seq<StateId>)
      requires Ready(Connect(w, runner), runner) && w.timeouts == 0 && runner !in w.scheduled
      ensures !Blocked(Connect(w, runner), runner, cached)
    {
    }

    method ConnectAndAnswer(runner: int, now: int)
      returns (reply: Option<Reply>, reached: bool, ghost parent: Option<StateId>)
      requires Valid() && Ready(Connect(View(), runner), runner)
      modifies this, dates
      ensures runner in Connect(old(View()), runner).last
      ensures !reached ==>
                Valid() && View() == AnswerJobRequest(Connect(old(View()), runner), runner, parent, now + runnerTimeout)
      ensures !reached && runner !in old(scheduledJobs) ==>
                IsChoice(Connect(old(View()), runner), runner, cache.GetByRunner(runner), parent)
      ensures !reached ==> reply == ReplyTo(Connect(old(View()), runner), runner, parent)
      ensures !reached && reply.Some? ==>
                Entry(now + runnerTimeout, runner, reply.value.job, reply.value.parent) in dates.entries
      ensures reached <==>
                runner !in old(scheduledJobs) && Blocked(Connect(old(View()), runner), runner, cache.GetByRunner(runner))
    {
      NotifyRunnerConnect(runner);
      reply, reached, parent := AnswerReady(runner, now);
    }

    /** A runner that is heard of for the first time has nothing scheduled. */
    static lemma SameReply(w: Work, runner: int, parent: Option<StateId>)
      ensures ReplyTo(Connect(w, runner), runner, parent) == ReplyTo(w, runner, parent)
    {
    }

    /** What a job request leads to: a job with the next id and the parent promised before, or else the
        parent chosen, which then has one particle less to propagate; the runner stays with its last
        parent as long as that one is needed. */
    static lemma RequestMeans(w: Work, e: Event, particles: nat)
      requires e.JobRequest? && Enabled(w, e, particles)
      ensures var w', reply := Step(w, e, particles), ReplyTo(w, e.runner, e.parent);
              && (reply.Some? ==>
                    && reply.value.job == StateId(w.cycle, w.nextJobId) && w'.nextJobId == w.nextJobId + 1
                    && e.runner in w'.last && w'.last[e.runner] == Some(reply.value.parent)
                    && e.runner !in w'.scheduled && w'.stealable == w.stealable - 1
                    && Entry(e.due, e.runner, reply.value.job, reply.value.parent) in w'.due)
              && (e.runner in w.scheduled ==>
                    reply.Some? && reply.value.parent == w.scheduled[e.runner].parent && w'.alpha == w.alpha)
      ensures var w', reply := Step(w, e, particles), ReplyTo(w, e.runner, e.parent);
              e.runner !in w.scheduled ==>
                && (e.runner in w.known && w.last[e.runner].Some? && w.last[e.runner].value in w.alpha ==>
                      reply.Some? && Some(reply.value.parent) == w.last[e.runner])
                && (w.cycle != 1 && reply.Some? ==>
                      reply.value.parent in w.alpha && w'.alpha == w.alpha - multiset{reply.value.parent})
    {
      assert e.runner in w.known ==> Connect(w, e.runner) == w;
    }

    /** Nothing changes for the others. */
    static lemma RequestOfOne(w: Work, e: Event, particles: nat, f: Entry)
      requires e.JobRequest? && Enabled(w, e, particles) && f.runner != e.runner
      ensures var w', x := Step(w, e, particles), f.runner;
              && (f in w'.due <==> f in w.due)
              && (x in w'.last <==> x in w.last) && (x in w'.last ==> w'.last[x] == w.last[x])
              && (x in w'.scheduled <==> x in w.scheduled) && (x in w'.scheduled ==> w'.scheduled[x] == w.scheduled[x])
    {
      var w1 := Connect(w, e.runner);
      AnswerOfOne(w1, Step(w, e, particles), e.runner, e.parent, e.due, f);
    }

    static lemma AnswerOfOne(w: Work, w': Work, runner: int, parent: Option<StateId>, due: int, f: Entry)
      requires w' == AnswerJobRequest(w, runner, parent, due) && f.runner != runner
      ensures f in w'.due <==> f in w.due
      ensures f.runner in w'.last <==> f.runner in w.last
      ensures f.runner in w.last ==> w'.last[f.runner] == w.last[f.runner]
      ensures f.runner in w'.scheduled <==> f.runner in w.scheduled
      ensures f.runner in w.scheduled ==> w'.scheduled[f.runner] == w.scheduled[f.runner]
    {
    }

    static lemma RequestIsStep(w: Work, w': Work, e: Event, particles: nat)
      requires e.JobRequest? && e.runner !in w.faulty && w.stealable > 0 && e.runner in Connect(w, e.runner).last
      requires e.runner !in w.scheduled ==> IsChoice(Connect(w, e.runner), e.runner, e.cached, e.parent)
      requires w' == AnswerJobRequest(Connect(w, e.runner), e.runner, e.parent, e.due)
      ensures Enabled(w, e, particles) && w' == Step(w, e, particles)
    {
    }

    method AnswerReady(runner: int, now: int)
      returns (reply: Option<Reply>, reached: bool, ghost parent: Option<StateId>)
      requires Valid() && Ready(View(), runner)
      modifies this`alpha, this`bag, this`scheduledJobs, this`runnersLast, this`stealableJobs, this`nextJobId, dates
      ensures !reached ==> Valid() && View() == AnswerJobRequest(old(View()), runner, parent, now + runnerTimeout)
      ensures !reached && runner !in old(scheduledJobs) ==>
                IsChoice(old(View()), runner, cache.GetByRunner(runner), parent)
      ensures !reached ==> reply == ReplyTo(old(View()), runner, parent)
      ensures !reached && reply.Some? ==>
                Entry(now + runnerTimeout, runner, reply.value.job, reply.value.parent) in dates.entries
      ensures reached <==>
                runner !in old(scheduledJobs) && Blocked(old(View()), runner, cache.GetByRunner(runner))
    {
      reached, parent := false, None;
      if runner in scheduledJobs {
        var r := AnswerScheduled(runner, now);
        reply := Some(r);
      } else {
        reply, reached, parent := AnswerNew(runner, now);
      }
    }

    // ----- prefetching -----------------------------------------------------

    method ScheduleJob(runner: int, parent: StateId, now: int)
      requires Valid() && NextIsNew()
      modifies this`scheduledJobs, this`nextJobId, dates
      ensures Valid()
      ensures View() == Promise(old(View()), runner, parent, now + runnerTimeout)
    {
      var job := GenerateJobId();
      scheduledJobs := scheduledJobs[runner := Job(job, parent)];
      dates.Add(now + runnerTimeout, runner, job, parent);
    }

    method ScheduleNew(runner: int, now: int) returns (reached: bool, ghost parent: Option<StateId>)
      requires Valid() && NextIsNew() && runner in runnersLast && runner !in scheduledJobs
      requires assimilationCycle > 1
      modifies this`alpha, this`bag, this`scheduledJobs, this`nextJobId, dates
      ensures !reached ==> Valid() && IsChoice(old(View()), runner, cache.GetByRunner(runner), parent)
      ensures !reached ==> View() == AnswerPrefetch(old(View()), runner, parent, now + runnerTimeout)
      ensures reached <==> Blocked(old(View()), runner, cache.GetByRunner(runner))
    {
      var p, asserted := ChooseParent(runner);
      parent, reached := p, asserted;
      if !reached {
        assert View() == old(View()).(alpha := LeftIn(assimilationCycle, old(bag), p));
        PromiseIsAnswer(old(View()), runner, p, now + runnerTimeout);
        ScheduleIfAny(runner, p, now);
      }
    }

    method ScheduleIfAny(runner: int, p: Option<StateId>, now: int)
      requires Valid() && NextIsNew()
      modifies this`scheduledJobs, this`nextJobId, dates
      ensures Valid()
      ensures View() == if p.None? then old(View()) else Promise(old(View()), runner, p.value, now + runnerTimeout)
    {
      if p.Some? {
        ScheduleJob(runner, p.value, now);
      }
    }

    static lemma PromiseIsAnswer(w: Work, runner: int, parent: Option<StateId>, due: int)
      requires w.cycle > 1 && runner !in w.scheduled
      ensures var w' := w.(alpha := LeftIn(w.cycle, w.alpha, parent));
              AnswerPrefetch(w, runner, parent, due)
              == if parent.None? then w' else Promise(w', runner, parent.value, due)
    {
    }

    /** The runner learns the parent of its next job if it does not hold that state yet. */
    method AcceptPrefetch(runner: int, cachedStates: seq<StateId>, now: int)
      returns (pull: Option<StateId>, reached: bool, ghost e: Event)
      requires Valid() && runner !in faultyRunners && runner in cache.cr
      requires assimilationCycle > 1 ==> Ready(View(), runner)
      modifies this`alpha, this`bag, this`scheduledJobs, this`nextJobId, dates, cache
      ensures e.PrefetchRequest? && e.runner == runner && e.cached == cachedStates && e.due == now + runnerTimeout
      ensures !reached ==> Valid() && Enabled(old(View()), e, particles) && View() == Step(old(View()), e, particles)
      ensures !reached ==> pull == if assimilationCycle > 1 then StateToPull(cachedStates, runner) else None
      ensures !reached && assimilationCycle > 1 && runner in scheduledJobs ==>
                if scheduledJobs[runner].parent in cachedStates then pull == None
                else pull == Some(scheduledJobs[runner].parent)
      ensures !reached && (assimilationCycle == 1 || runner !in scheduledJobs) ==> pull == None
      ensures !reached && runner in scheduledJobs && runner !in old(scheduledJobs) ==>
                Entry(now + runnerTimeout, runner, scheduledJobs[runner].job, scheduledJobs[runner].parent) in dates.entries
      ensures cache.cr == old(cache.cr)[runner := cachedStates]
      ensures reached <==> assimilationCycle > 1 && PrefetchBlocked(old(View()), runner, cachedStates)
      ensures old(timeouts) == 0 ==> !reached
    {
      cache.Update(runner, cachedStates);
      pull, reached := None, false;
      e := PrefetchRequest(runner, cachedStates, None, now + runnerTimeout);
      if assimilationCycle > 1 {
        pull, reached, e := DecidePrefetch(runner, cachedStates, now);
      }
    }

    static ghost predicate PrefetchBlocked(w: Work, runner: int, cached: seq<StateId>) {
      runner !in w.scheduled && runner in w.last && Blocked(w, runner, cached)
    }

    method DecidePrefetch(runner: int, cachedStates: seq<StateId>, now: int)
      returns (pull: Option<StateId>, reached: bool, ghost e: Event)
      requires Valid() && Ready(View(), runner) && assimilationCycle > 1 && runner !in faultyRunners
      requires cache.GetByRunner(runner) == cachedStates
      modifies this`alpha, this`bag, this`scheduledJobs, this`nextJobId, dates
      ensures e.PrefetchRequest? && e.runner == runner && e.cached == cachedStates && e.due == now + runnerTimeout
      ensures !reached ==> Valid() && Enabled(old(View()), e, particles) && View() == Step(old(View()), e, particles)
      ensures !reached ==> pull == StateToPull(cachedStates, runner)
      ensures !reached && runner in scheduledJobs && runner !in old(scheduledJobs) ==>
                Entry(now + runnerTimeout, runner, scheduledJobs[runner].job, scheduledJobs[runner].parent) in dates.entries
      ensures reached <==> PrefetchBlocked(old(View()), runner, cachedStates)
      ensures old(timeouts) == 0 ==> !reached
    {
      ghost var parent;
      reached, parent := PrefetchReady(runner, now);
      e := PrefetchRequest(runner, cachedStates, parent, now + runnerTimeout);
      pull := None;
      if !reached {
        PrefetchIsStep(old(View()), e, particles);
        pull := FindStateToPull(cachedStates, runner);
      }
    }

    static lemma PrefetchIsStep(w: Work, e: Event, particles: nat)
      requires e.PrefetchRequest? && e.runner !in w.faulty && e.runner in w.last
      requires e.runner !in w.scheduled ==> IsChoice(w, e.runner, e.cached, e.parent)
      ensures Enabled(w, e, particles) && Step(w, e, particles) == AnswerPrefetch(w, e.runner, e.parent, e.due)
    {
    }

    method PrefetchReady(runner: int, now: int) returns (reached: bool, ghost parent: Option<StateId>)
      requires Valid() && Ready(View(), runner) && assimilationCycle > 1
      modifies this`alpha, this`bag, this`scheduledJobs, this`nextJobId, dates
      ensures !reached ==> Valid() && View() == AnswerPrefetch(old(View()), runner, parent, now + runnerTimeout)
      ensures !reached && runner !in old(scheduledJobs) ==>
                IsChoice(old(View()), runner, cache.GetByRunner(runner), parent)
      ensures reached <==>
                runner !in old(scheduledJobs) && Blocked(old(View()), runner, cache.GetByRunner(runner))
    {
      reached, parent := false, None;
      if runner !in scheduledJobs {
        reached, parent := ScheduleNew(runner, now);
      }
    }

    ghost function StateToPull(cachedStates: seq<StateId>, runner: int): Option<StateId>
      reads this
    {
      if runner in scheduledJobs && scheduledJobs[runner].parent !in cachedStates then Some(scheduledJobs[runner].parent)
      else None
    }

    method FindStateToPull(cachedStates: seq<StateId>, runner: int) returns (pull: Option<StateId>)
      requires cache.Valid() && runner !in faultyRunners && cache.GetByRunner(runner) == cachedStates
      ensures pull == StateToPull(cachedStates, runner)
    {
      pull := None;
      if runner in scheduledJobs {
        var holders := cache.GetRunners(scheduledJobs[runner].parent, faultyRunners);
        if runner !in holders {
          pull := Some(scheduledJobs[runner].parent);
        }
      }
    }

    // ----- weights and the update ------------------------------------------

    method RecordWeight(runner: int, state: StateId, weight: real)
      requires Valid() && JobsAreNew(View()) && state.t != 0 && IsRunning(View(), runner, state)
      modifies this`weightsThisCycle, this`stateWeights, dates
      ensures Valid() && View() == ParticleState.AcceptWeight(old(View()), runner, state)
      ensures stateWeights == old(stateWeights)[state := weight]
    {
      ghost var e :| e in dates.entries && e.runner == runner && e.job == state;
      var parent := dates.Remove(runner, state, e);
      weightsThisCycle := weightsThisCycle + 1;
      stateWeights := stateWeights[state := weight];
    }

    lemma NothingCounted()
      requires Counts()
      ensures alpha == map[] <==> |bag| == 0
    {
      if alpha == map[] {
        assert bag == multiset{};
      }
      if |bag| == 0 {
        assert alpha.Keys == {};
      }
    }

    method FillAlpha(sample: seq<StateId>)
      requires Counts()
      modifies this`alpha, this`bag
      ensures Counts() && bag == old(bag) + multiset(sample)
    {
      for i := 0 to |sample|
        invariant Counts() && bag == old(bag) + multiset(sample[..i])
      {
        assert sample[..i + 1] == sample[..i] + [sample[i]];
        Increment(sample[i]);
      }
      assert sample[..|sample|] == sample;
    }

    method DoUpdateStep(sample: seq<StateId>)
      requires Valid() && CanUpdate(View(), particles)
      modifies this`alpha, this`bag, this`stealableJobs, this`assimilationCycle, this`nextJobId
      modifies this`weightsThisCycle, this`timeouts
      ensures Valid() && View() == Update(old(View()), sample, particles)
    {
      FillAlpha(sample);
      ghost var w := View();
      assert w == old(View()).(alpha := bag);
      stealableJobs := particles;
      assimilationCycle := assimilationCycle + 1;
      nextJobId, weightsThisCycle := 0, 0;
      timeouts := 0;
      assert View() == w.(cycle := w.cycle + 1, stealable := particles, nextJobId := 0, weights := 0, timeouts := 0);
    }

    method MaybeUpdate(sample: seq<StateId>)
      requires Valid()
      modifies this`alpha, this`bag, this`stealableJobs, this`assimilationCycle, this`nextJobId
      modifies this`weightsThisCycle, this`timeouts
      ensures Valid() && View() == AfterWeight(old(View()), sample, particles)
    {
      NothingCounted();
      if weightsThisCycle == particles && alpha == map[] && stealableJobs == 0 {
        DoUpdateStep(sample);
      }
    }

    /** `sample` is what the random choice would give, should there be an update.  A state of cycle 0
        only tells that the runner has it. */
    method AcceptWeight(runner: int, state: StateId, weight: real, sample: seq<StateId>)
      requires Valid() && JobsAreNew(View())
      requires Enabled(View(), Weight(runner, state, sample), particles)
      modifies this, dates, cache
      ensures Valid() && View() == Step(old(View()), Weight(runner, state, sample), particles)
      ensures cache.cr == Append(old(cache.cr), runner, state)
      ensures stateWeights == if state.t != 0 then old(stateWeights)[state := weight] else old(stateWeights)
    {
      if state.t != 0 {
        RecordWeight(runner, state, weight);
      }
      cache.AddRunner(state, runner);
      MaybeUpdate(sample);
    }

    /** The runner has the state, as far as is known, and its head rank the address. */
    ghost predicate Offers(r: int, headRank: int, searched: StateId, address: int)
      reads this, cache
    {
      && r !in faultyRunners && searched in cache.GetByRunner(r)
      && r in runners && headRank in runners[r] && runners[r][headRank] == address
    }

    static predicate HasAddress(runners: map<int, map<int, int>>, runner: int, headRank: int) {
      runner in runners && headRank in runners[runner]
    }

    static function WithAddress(runners: map<int, map<int, int>>, runner: int, headRank: int, socket: int)
      : map<int, map<int, int>>
    {
      runners[runner := (if runner in runners then runners[runner] else map[])[headRank := socket]]
    }

    /** All other addresses are what they were. */
    static lemma OthersKept(runners: map<int, map<int, int>>, runner: int, headRank: int, socket: int)
      ensures var runners' := WithAddress(runners, runner, headRank, socket);
              && HasAddress(runners', runner, headRank) && runners'[runner][headRank] == socket
              && forall r, h :: (r, h) != (runner, headRank) ==>
                   && (HasAddress(runners', r, h) <==> HasAddress(runners, r, h))
                   && (HasAddress(runners', r, h) ==> runners'[r][h] == runners[r][h])
    {
    }

    method NoteAddress(runner: int, headRank: int, socket: int)
      modifies this`runners
      ensures runners == WithAddress(old(runners), runner, headRank, socket)
    {
      if runner !in runners {
        runners := runners[runner := map[]];
      }
      runners := runners[runner := runners[runner][headRank := socket]];
    }

    /** A head rank registers, and asks where else a state is.  The code shuffles the addresses. */
    method AcceptRunnerRequest(runner: int, headRank: int, socket: int, searched: StateId) returns (sockets: seq<int>)
      requires Valid() && runner !in faultyRunners
      modifies this`knownRunners, this`runnersLast, this`runners
      ensures Valid() && View() == Step(old(View()), RunnerRequest(runner), particles)
      ensures knownRunners == old(knownRunners) + {runner}
      ensures runnersLast == if runner in old(knownRunners) then old(runnersLast) else old(runnersLast)[runner := None]
      ensures runner in runners && headRank in runners[runner] && runners[runner][headRank] == socket
      ensures forall r, h :: (r, h) != (runner, headRank) ==>
                (HasAddress(runners, r, h) <==> HasAddress(old(runners), r, h))
                && (HasAddress(runners, r, h) ==> runners[r][h] == old(runners)[r][h])
      ensures forall a :: a in sockets <==> exists r :: r != runner && Offers(r, headRank, searched, a)
    {
      NotifyRunnerConnect(runner);
      OthersKept(runners, runner, headRank, socket);
      NoteAddress(runner, headRank, socket);
      sockets := FindAddresses(runner, headRank, searched);
    }

    /** The other runners that have the state, as far as their addresses are known. */
    method FindAddresses(runner: int, headRank: int, searched: StateId) returns (sockets: seq<int>)
      requires cache.Valid()
      ensures forall a :: a in sockets <==> exists r :: r != runner && Offers(r, headRank, searched, a)
    {
      var holders := cache.GetRunners(searched, faultyRunners);
      sockets := [];
      for i := 0 to |holders|
        invariant forall a :: a in sockets ==> exists r :: r != runner && Offers(r, headRank, searched, a)
        invariant forall k, a :: 0 <= k < i && holders[k] != runner && Offers(holders[k], headRank, searched, a) ==>
                    a in sockets
      {
        var r := holders[i];
        if r != runner && r in runners && headRank in runners[r] {
          assert Offers(r, headRank, searched, runners[r][headRank]);
          sockets := sockets + [runners[r][headRank]];
        }
      }
      forall r, a | r != runner && Offers(r, headRank, searched, a) ensures a in sockets {
        assert r in holders;
        var k :| 0 <= k < |holders| && holders[k] == r;
      }
    }

    // ----- due dates -------------------------------------------------------

    method GiveUpRunner(runner: int)
      requires faultyRunners !! runnersLast.Keys
      modifies this`faultyRunners, this`runnersLast
      ensures faultyRunners == old(faultyRunners) + {runner} && runnersLast == old(runnersLast) - {runner}
      ensures faultyRunners !! runnersLast.Keys
    {
      if runner !in faultyRunners {
        faultyRunners := faultyRunners + {runner};
        runnersLast := runnersLast - {runner};
      }
      assert runnersLast == old(runnersLast) - {runner};
    }

    method FreeJob(runner: int)
      modifies this`scheduledJobs, this`stealableJobs
      ensures scheduledJobs == old(scheduledJobs) - {runner}
      ensures stealableJobs == old(stealableJobs) + if runner in old(scheduledJobs) then 0 else 1
    {
      if runner in scheduledJobs {
        scheduledJobs := scheduledJobs - {runner};
      } else {
        stealableJobs := stealableJobs + 1;
      }
      assert scheduledJobs == old(scheduledJobs) - {runner};
    }

    /** The representation while the list of a time is worked off. */
    ghost predicate Expiring(listed: set<Entry>)
      reads this, dates
    {
      Counts() && dates.Dropping(listed) && faultyRunners !! runnersLast.Keys
    }

    /** One entry of the list of a time. */
    method ExpireEntry(ghost listed: set<Entry>, ghost e: Entry, runner: int, due: int, job: StateId, parent: StateId)
      requires Expiring(listed) && e in dates.entries && e == Entry(due, runner, job, parent)
      modifies this`faultyRunners, this`runnersLast, this`scheduledJobs, this`stealableJobs
      modifies this`alpha, this`bag, this`timeouts, dates`rpp, dates`allPerRunner, dates`entries
      ensures Expiring(listed) && View() == Expire(old(View()), e)
    {
      ghost var before := View();
      ReturnJob(runner, parent);
      ghost var w := View();
      dates.Unlist(listed, e, runner, due, job, parent);
      assert View() == w.(due := dates.entries, listed := dates.allPerRunner.Keys);
      ReturnedIsExpired(before, w, View(), e);
    }

    static ghost predicate IsReturned(w: Work, w': Work, runner: int, parent: StateId) {
      && w'.faulty == w.faulty + {runner} && w'.last == w.last - {runner} && w'.scheduled == w.scheduled - {runner}
      && w'.stealable == w.stealable + (if runner in w.scheduled then 0 else 1)
      && w'.alpha == w.alpha + multiset{parent} && w'.timeouts == w.timeouts + 1
      && w'.cycle == w.cycle && w'.weights == w.weights && w'.weighted == w.weighted && w'.known == w.known
      && w'.nextJobId == w.nextJobId
    }

    /** Giving the job back and dropping its entry is all that happens. */
    static lemma ReturnedIsExpired(before: Work, w: Work, w': Work, e: Entry)
      requires IsReturned(before, w, e.runner, e.parent)
      requires w' == w.(due := before.due - {e}, listed := ListedWithout(before, e))
      ensures w' == Expire(before, e)
    {
    }

    /** The runner is given up, and its parent needs one propagation more. */
    method ReturnJob(runner: int, parent: StateId)
      requires Counts() && faultyRunners !! runnersLast.Keys
      modifies this`faultyRunners, this`runnersLast, this`scheduledJobs, this`stealableJobs
      modifies this`alpha, this`bag, this`timeouts
      ensures Counts() && faultyRunners !! runnersLast.Keys
      ensures faultyRunners == old(faultyRunners) + {runner} && runnersLast == old(runnersLast) - {runner}
      ensures scheduledJobs == old(scheduledJobs) - {runner}
      ensures stealableJobs == old(stealableJobs) + if runner in old(scheduledJobs) then 0 else 1
      ensures bag == old(bag) + multiset{parent} && timeouts == old(timeouts) + 1
    {
      GiveUpRunner(runner);
      FreeJob(runner);
      Increment(parent);
      timeouts := timeouts + 1;
    }

    static function EntriesOf(due: int, list: seq<(int, StateId, StateId)>): (entries: seq<Entry>)
      ensures |entries| == |list|
    {
      seq(|list|, i requires 0 <= i < |list| => Entry(due, list[i].0, list[i].1, list[i].2))
    }

    method ExpireList(ghost listed: set<Entry>, due: int, list: seq<(int, StateId, StateId)>, ghost expired: seq<Entry>)
      requires Expiring(listed) && dates.entries == listed && expired == EntriesOf(due, list)
      requires forall i :: 0 <= i < |expired| ==> expired[i] in listed
      requires forall i, j :: 0 <= i < j < |expired| ==> expired[i] != expired[j]
      modifies this`faultyRunners, this`runnersLast, this`scheduledJobs, this`stealableJobs
      modifies this`alpha, this`bag, this`timeouts, dates`rpp, dates`allPerRunner, dates`entries
      ensures Expiring(listed) && View() == ExpireAll(old(View()), expired)
    {
      ghost var w := View();
      for i := 0 to |list|
        invariant Expiring(listed)
        invariant View() == ExpireAll(w, expired[..i])
      {
        ExpireAllDue(w, expired[..i]);
        assert expired[i] !in expired[..i];
        assert expired[..i + 1][..i] == expired[..i];
        ExpireEntry(listed, expired[i], list[i].0, due, list[i].1, list[i].2);
      }
      assert expired[..|list|] == expired;
    }

    /** All entries of a time. */
    static ghost predicate AllOfTime(entries: set<Entry>, due: int, expired: seq<Entry>) {
      && (forall e :: e in expired <==> e in entries && e.due == due)
      && (forall i, j :: 0 <= i < j < |expired| ==> expired[i] != expired[j])
    }

    lemma ListIsAllOfTime(due: int, expired: seq<Entry>)
      requires dates.Valid() && due in dates.dueDates && expired == EntriesOf(due, dates.dueDates[due])
      ensures AllOfTime(dates.entries, due, expired)
    {
      var list := dates.dueDates[due];
      dates.TimeList(due);
      forall e ensures e in expired <==> e in dates.entries && e.due == due {
        if e in dates.entries && e.due == due {
          var k :| 0 <= k < |list| && list[k] == (e.runner, e.job, e.parent);
          assert expired[k] == e;
        }
      }
    }

    method ExpireTime(due: int) returns (ghost expired: seq<Entry>)
      requires Valid() && due in dates.dueDates && faultyRunners !! runnersLast.Keys
      modifies this`faultyRunners, this`runnersLast, this`scheduledJobs, this`stealableJobs
      modifies this`alpha, this`bag, this`timeouts, dates
      ensures Valid() && faultyRunners !! runnersLast.Keys
      ensures View() == ExpireAll(old(View()), expired)
      ensures AllOfTime(old(dates.entries), due, expired)
      ensures dates.dueDates == old(dates.dueDates) - {due}
    {
      var list := dates.dueDates[due];
      ghost var listed, w := dates.entries, View();
      expired := EntriesOf(due, list);
      ListIsAllOfTime(due, expired);
      ExpireList(listed, due, list, expired);
      ExpireAllDue(w, expired);
      assert dates.entries == set e | e in listed && e.due != due;
      dates.DropTime(listed, due);
    }

    static method Earliest(times: set<int>) returns (t: int)
      requires times != {}
      ensures t in times && forall u :: u in times ==> t <= u
    {
      t := PickFrom(times);
      var left := times - {t};
      while left != {}
        invariant left <= times && t in times
        invariant forall u :: u in times && u !in left ==> t <= u
        decreases |left|
      {
        var u := PickFrom(left);
        if u < t { t := u; }
        left := left - {u};
      }
    }

    /** The entries of all times up to now but those that are left, in order. */
    static ghost predicate WorkedOff(due: set<Entry>, expired: seq<Entry>, left: set<int>, now: int) {
      && (forall e :: e in expired <==> e in due && e.due <= now && e.due !in left)
      && (forall i, j :: 0 <= i < j < |expired| ==> expired[i] != expired[j])
      && (forall i, j :: 0 <= i < j < |expired| ==> expired[i].due <= expired[j].due)
      && (forall e, t :: e in expired && t in left ==> e.due < t)
    }

    static lemma WorkOff(due: set<Entry>, expired: seq<Entry>, left: set<int>, now: int, time: int, more: seq<Entry>)
      requires WorkedOff(due, expired, left, now) && time in left && time <= now
      requires forall t :: t in left ==> time <= t
      requires AllOfTime((set e | e in due && e !in expired), time, more)
      ensures WorkedOff(due, expired + more, left - {time}, now)
    {
      forall e ensures e in expired + more <==> e in due && e.due <= now && e.due !in left - {time} {
      }
      var all := expired + more;
      forall i, j | 0 <= i < j < |all| ensures all[i] != all[j] && all[i].due <= all[j].due {
        if i < |expired| <= j {
          assert all[i] in expired && all[j] in more;
        } else if |expired| <= i {
          assert all[i] in more && all[j] in more;
        }
      }
    }

    /** Everything that is due by now, the earliest first; looked at once a second. */
    method CheckViolations(now: int) returns (ghost expired: seq<Entry>)
      requires Valid() && faultyRunners !! runnersLast.Keys
      modifies this, dates
      ensures Valid() && lastCheck == now && View() == ExpireAll(old(View()), expired)
      ensures if old(lastCheck) == now then expired == [] else AreOverdue(old(View()), expired, now)
      ensures old(lastCheck) != now ==> LateGivenUp(old(View()), now, View())
    {
      expired := [];
      if lastCheck == now { return; }
      lastCheck := now;
      expired := ExpireUntil(now);
      LateOnes(old(View()), View(), expired, now);
    }

    static lemma LateOnes(w: Work, w': Work, expired: seq<Entry>, now: int)
      requires AreOverdue(w, expired, now) && w' == ExpireAll(w, expired)
      ensures LateGivenUp(w, now, w')
    {
      ExpireAllMeans(w, expired, now);
    }

    /** The times that are still in the index. */
    static ghost predicate AreTimes(times: set<int>, d: map<int, seq<(int, StateId, StateId)>>, now: int) {
      forall t :: t in times <==> t in d && t <= now
    }

    method ExpireUntil(now: int) returns (ghost expired: seq<Entry>)
      requires Valid() && faultyRunners !! runnersLast.Keys
      modifies this`faultyRunners, this`runnersLast, this`scheduledJobs, this`stealableJobs
      modifies this`alpha, this`bag, this`timeouts, dates
      ensures Valid() && View() == ExpireAll(old(View()), expired)
      ensures AreOverdue(old(View()), expired, now)
    {
      expired := [];
      ghost var w := View();
      var times := set t | t in dates.dueDates.Keys && t <= now;
      dates.AllListed();
      while times != {}
        invariant Valid() && faultyRunners !! runnersLast.Keys
        invariant View() == ExpireAll(w, expired)
        invariant AreTimes(times, dates.dueDates, now) && WorkedOff(w.due, expired, times, now)
        decreases |times|
      {
        var due := Earliest(times);
        ghost var more := ExpireTime(due);
        WorkOffTime(w, expired, times, now, due, more);
        expired := expired + more;
        times := times - {due};
      }
    }

    /** One time more has been worked off. */
    static lemma WorkOffTime(w: Work, expired: seq<Entry>, left: set<int>, now: int, time: int, more: seq<Entry>)
      requires WorkedOff(w.due, expired, left, now) && time in left && time <= now
      requires forall t :: t in left ==> time <= t
      requires AllOfTime(ExpireAll(w, expired).due, time, more)
      ensures WorkedOff(w.due, expired + more, left - {time}, now)
      ensures ExpireAll(w, expired + more) == ExpireAll(ExpireAll(w, expired), more)
    {
      ExpireAllDue(w, expired);
      assert ExpireAll(w, expired).due == set e | e in w.due && e !in expired;
      WorkOff(w.due, expired, left, now, time, more);
      ExpireMore(w, expired, more);
    }

    static lemma {:induction false} ExpireMore(w: Work, a: seq<Entry>, b: seq<Entry>)
      ensures ExpireAll(w, a + b) == ExpireAll(ExpireAll(w, a), b)
    {
      if b == [] {
        assert a + b == a;
      } else {
        var n := |b| - 1;
        ExpireMore(w, a, b[..n]);
        assert (a + b)[..|a + b| - 1] == a + b[..n] && (a + b)[|a + b| - 1] == b[n];
      }
    }

    // ----- deleting states -------------------------------------------------

    method Blacklist(runner: int, cachedStates: seq<StateId>) returns (blacklist: seq<StateId>)
      requires dates.Valid() && runner in dates.allPerRunner
      ensures forall s :: s in cachedStates ==> (s in blacklist <==> MustKeep(View(), runner, s))
    {
      blacklist := dates.GetByRunner(runner);
      if runner in scheduledJobs {
        blacklist := blacklist + [scheduledJobs[runner].parent];
      }
      if assimilationCycle == 1 {
        ghost var before := blacklist;
        for i := 0 to |cachedStates|
          invariant forall s :: s in blacklist <==> s in before || (s in cachedStates[..i] && s.t == 0)
        {
          if cachedStates[i].t == 0 {
            blacklist := blacklist + [cachedStates[i]];
          }
        }
      }
    }

    static method WithoutAll(states: seq<StateId>, blacklist: seq<StateId>) returns (rest: seq<StateId>)
      ensures forall s :: s in rest <==> s in states && s !in blacklist
    {
      rest := [];
      for i := 0 to |states|
        invariant forall s :: s in rest <==> s in states[..i] && s !in blacklist
      {
        if states[i] !in blacklist {
          rest := rest + [states[i]];
        }
      }
    }

    predicate TooOld(s: StateId)
      reads this
    {
      s.t < assimilationCycle - 1
    }

    predicate NotImportant(s: StateId)
      reads this
    {
      s.t == assimilationCycle - 1 && s !in alpha
    }

    predicate TooNew(s: StateId)
      reads this
    {
      s.t == assimilationCycle
    }

    /** The order in which states are given up: those no cycle needs any more, those no particle of
        this cycle needs any more, and those of the next cycle, the lowest weight first. */
    ghost predicate IsGoodDelete(from: seq<StateId>, s: StateId)
      requires forall x :: x in from && TooNew(x) ==> x in stateWeights
      reads this
    {
      && s in from
      && ((exists x :: x in from && TooOld(x)) ==> TooOld(s))
      && ((forall x :: x in from ==> !TooOld(x)) && (exists x :: x in from && NotImportant(x)) ==> NotImportant(s))
      && ((forall x :: x in from ==> !TooOld(x) && !NotImportant(x)) && (exists x :: x in from && TooNew(x)) ==>
            TooNew(s) && forall x :: x in from && TooNew(x) ==> stateWeights[s] <= stateWeights[x])
    }

    /** Sorts the states into the three lists; once a state is too old, the rest does not matter. */
    method Classify(from: seq<StateId>) returns (tooOld: seq<StateId>, notImportant: seq<StateId>, tooNew: seq<StateId>)
      ensures forall s :: s in tooOld ==> s in from && TooOld(s)
      ensures forall s :: s in notImportant ==> s in from && NotImportant(s)
      ensures forall s :: s in tooNew ==> s in from && TooNew(s)
      ensures tooOld == [] ==> forall s :: s in from ==>
                !TooOld(s) && (NotImportant(s) ==> s in notImportant) && (TooNew(s) ==> s in tooNew)
    {
      tooOld, notImportant, tooNew := [], [], [];
      for i := 0 to |from|
        invariant tooOld == []
        invariant forall s :: s in notImportant <==> s in from[..i] && NotImportant(s)
        invariant forall s :: s in tooNew <==> s in from[..i] && TooNew(s)
        invariant forall s :: s in from[..i] ==> !TooOld(s)
      {
        var s := from[i];
        if TooOld(s) {
          tooOld := [s];
          return;
        } else if NotImportant(s) {
          notImportant := notImportant + [s];
        } else if TooNew(s) {
          tooNew := tooNew + [s];
        }
      }
    }

    method LowestWeight(states: seq<StateId>) returns (s: StateId)
      requires states != [] && forall x :: x in states ==> x in stateWeights
      ensures s in states && forall x :: x in states ==> stateWeights[s] <= stateWeights[x]
    {
      s := states[0];
      for i := 1 to |states|
        invariant s in states && forall x :: x in states[..i] ==> stateWeights[s] <= stateWeights[x]
      {
        if stateWeights[states[i]] < stateWeights[s] {
          s := states[i];
        }
      }
    }

    method SelectDelete(from: seq<StateId>) returns (s: StateId)
      requires from != [] && forall x :: x in from && TooNew(x) ==> x in stateWeights
      ensures IsGoodDelete(from, s)
    {
      var tooOld, notImportant, tooNew := Classify(from);
      var all := tooOld + notImportant;
      if all != [] {
        s := all[0];
        assert s in all;
      } else if tooNew != [] {
        s := LowestWeight(tooNew);
      } else {
        s := from[0];
      }
    }

    /** A state a runner may delete is never one its own jobs depend on. */
    method AcceptDelete(runner: int, cachedStates: seq<StateId>) returns (toDelete: StateId, from: seq<StateId>)
      requires Valid() && runner in cache.cr && CanDelete(View(), runner, cachedStates)
      modifies cache
      ensures Valid() && View() == old(View())
      ensures forall s :: s in from <==> s in cachedStates && !MustKeep(View(), runner, s)
      ensures forall e :: e in dates.entries && e.runner == runner ==> e.job != toDelete && e.parent != toDelete
      ensures runner in scheduledJobs ==> scheduledJobs[runner].parent != toDelete
      ensures assimilationCycle == 1 ==> toDelete.t != 0
      ensures forall s :: s in cachedStates && s !in from ==>
                || (runner in scheduledJobs && s == scheduledJobs[runner].parent)
                || (assimilationCycle == 1 && s.t == 0)
                || exists e :: e in dates.entries && e.runner == runner && (s == e.job || s == e.parent)
      ensures IsGoodDelete(from, toDelete)
      ensures toDelete.t >= assimilationCycle - 1 ==> forall s :: s in from ==> s.t >= assimilationCycle - 1
      ensures toDelete.t == assimilationCycle - 1 && toDelete in alpha ==>
                forall s :: s in from ==> s.t != assimilationCycle && (s.t == assimilationCycle - 1 ==> s in alpha)
      ensures toDelete.t == assimilationCycle ==>
                forall s :: s in from ==>
                  && (s.t == assimilationCycle - 1 ==> s in alpha)
                  && (s.t == assimilationCycle ==> stateWeights[toDelete] <= stateWeights[s])
      ensures cache.cr == Remove(old(cache.cr)[runner := cachedStates], runner, toDelete)
    {
      cache.Update(runner, cachedStates);
      var blacklist := Blacklist(runner, cachedStates);
      from := WithoutAll(cachedStates, blacklist);
      toDelete := SelectDelete(from);
      cache.RemoveRunner(toDelete, runner);
    }
  }
}
