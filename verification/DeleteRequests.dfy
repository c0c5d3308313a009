/**
  Requests to delete a state, over all histories of server and heads: the server finds in its
  books what its answer is made from, and leaves the head the room it asks for.
 */
module DeleteRequests {
  import opened Helpers
  import opened ParticleState
  import opened ParticleInvariant
  import opened HeadState
  import opened Durability

  // ----- where cached states come from -------------------------------------

  /** A starting state, or one whose weight has come in; and its runner has got a job. */
  ghost predicate Sourced(w: Work, runner: int, s: StateId) {
    s.t == 0 || (s in w.weighted && runner in w.listed)
  }

  ghost predicate NamesSourced(u: World) {
    forall r, s :: (r, s) in u.named && r !in u.w.faulty ==> Sourced(u.w, r, s)
  }

  ghost predicate CachesSourced(u: World) {
    forall r, s :: r in u.heads && r !in u.w.faulty && s in u.heads[r].cached ==> Sourced(u.w, r, s)
  }

  /** What has a source keeps it, as long as the runner is not given up. */
  lemma SourceStays(u: World, w': Work, weighted: set<StateId>)
    requires NamesSourced(u) && CachesSourced(u) && Onward(u.w, w', weighted)
    ensures NamesSourced(u.(w := w')) && CachesSourced(u.(w := w'))
  {
  }

  lemma NotedSourced(u: World, particles: nat)
    requires Sound(u.w, particles) && NamesSourced(u)
    ensures NamesSourced(Noted(u))
  {
    forall r, s | (r, s) in Noted(u).named && r !in u.w.faulty ensures Sourced(u.w, r, s) {
      if (r, s) !in u.named {
        var e :| e in u.w.due && e.runner == r && e.parent == s;
        assert IsParent(u.w, e.parent);
      }
    }
  }

  lemma PostSourced(u: World, runner: int, sample: seq<StateId>, particles: nat)
    requires Durable(u, particles) && NamesSourced(u) && CachesSourced(u)
    requires runner in u.heads && u.heads[runner].staged.Some? && MayPost(u, runner, sample, particles)
    ensures var u' := Posted(u, runner, sample, particles); NamesSourced(u') && CachesSourced(u')
  {
    if runner !in u.w.faulty {
      var s := u.heads[runner].staged.value;
      var w' := Step(u.w, Weight(runner, s, sample), particles);
      WeightFrame(u.w, runner, s, sample, particles);
      SourceStays(u, w', if s.t == 0 then {} else {s});
      PostedIsSourced(u.w, runner, s, sample, particles);
    }
  }

  lemma PostedIsSourced(w: Work, runner: int, s: StateId, sample: seq<StateId>, particles: nat)
    requires Sound(w, particles) && Enabled(w, Weight(runner, s, sample), particles)
    ensures var w' := Step(w, Weight(runner, s, sample), particles); runner !in w'.faulty ==> Sourced(w', runner, s)
  {
    WeightFrame(w, runner, s, sample, particles);
  }

  lemma PrefetchSourced(u: World, a: Action, particles: nat)
    requires Durable(u, particles) && NamesSourced(u) && CachesSourced(u)
    requires a.Prefetch? && CanDo(u, a, particles)
    ensures var u' := Prefetched(u, a.runner, a.parent, a.due, particles); NamesSourced(u') && CachesSourced(u')
  {
    if a.runner !in u.w.faulty {
      var e := PrefetchRequest(a.runner, [], a.parent, a.due);
      ServeFrame(u.w, e, particles);
      SourceStays(u, Step(u.w, e, particles), {});
    }
  }

  lemma ActSourced(u: World, a: Action, particles: nat)
    requires Durable(u, particles) && NamesSourced(u) && CachesSourced(u) && CanDo(u, a, particles)
    ensures NamesSourced(Act(u, a, particles)) && CachesSourced(Act(u, a, particles))
  {
    match a {
      case Serve(e) =>
        ServeFrame(u.w, e, particles);
        SourceStays(u, Step(u.w, e, particles), {});
      case Post(runner, sample) => PostSourced(u, runner, sample, particles);
      case Prefetch(_, _, _) => PrefetchSourced(u, a, particles);
      case _ =>
    }
    DoneKeeps(u, a, particles);
    NotedSourced(Done(u, a, particles), particles);
  }

  ghost predicate AllSourced(u: World, particles: nat) {
    Durable(u, particles) && NamesSourced(u) && CachesSourced(u)
  }

  lemma StartSourced(u: World, particles: nat)
    requires Start(u, particles)
    ensures AllSourced(u, particles)
  {
    InitialSound(particles);
  }

  lemma NextSourced(u: World, a: Action, particles: nat, u': World)
    requires AllSourced(u, particles) && CanDo(u, a, particles) && u' == Act(u, a, particles)
    ensures AllSourced(u', particles)
  {
    ActKeeps(u, a, particles);
    ActSourced(u, a, particles);
  }

  lemma {:induction false} HistorySourced(us: seq<World>, actions: seq<Action>, particles: nat, i: nat)
    requires IsHistory(us, actions, particles) && i < |us|
    ensures AllSourced(us[i], particles)
  {
    if i == 0 {
      StartSourced(us[0], particles);
    } else {
      HistorySourced(us, actions, particles, i - 1);
      NextSourced(us[i - 1], actions[i - 1], particles, us[i]);
    }
  }

  // ----- what is kept ------------------------------------------------------

  /** The due dates of a runner: what it works on, and what it has prefetched for. */
  function OpenJobs(w: Work, runner: int): set<Entry> {
    set e | e in w.due && e.runner == runner
  }

  ghost function Kept(w: Work, runner: int, cached: set<StateId>): set<StateId> {
    set s | s in cached && MustKeep(w, runner, s)
  }

  function Parents(jobs: set<Entry>): set<StateId> {
    set e | e in jobs :: e.parent
  }

  lemma {:induction false} FewParents(jobs: set<Entry>)
    ensures |Parents(jobs)| <= |jobs|
    decreases |jobs|
  {
    if jobs != {} {
      var e := AnyOf(jobs);
      FewParents(jobs - {e});
      assert Parents(jobs) == Parents(jobs - {e}) + {e.parent};
    }
  }

  /** Nobody has a state in the cache that is still to be computed. */
  lemma KeptAreParents(w: Work, runner: int, cached: set<StateId>, particles: nat)
    requires Sound(w, particles) && w.cycle > 1 && forall s :: s in cached ==> Sourced(w, runner, s)
    ensures Kept(w, runner, cached) <= Parents(OpenJobs(w, runner)) * cached
  {
    forall s | s in Kept(w, runner, cached) ensures s in Parents(OpenJobs(w, runner)) {
      if runner in w.scheduled && w.scheduled[runner].parent == s {
        var e := DueOfScheduled(w, runner);
        assert e in OpenJobs(w, runner);
      } else {
        var e :| e in w.due && e.runner == runner && (e.job == s || e.parent == s);
        assert e in OpenJobs(w, runner);
      }
    }
  }

  /** Of the cached states no more are kept than the runner has open jobs; and fewer, if the parent of
      one of them is still to be fetched. */
  lemma KeptAreFew(us: seq<World>, actions: seq<Action>, particles: nat, i: nat, runner: int)
    requires IsHistory(us, actions, particles) && i < |us| && us[i].w.cycle > 1
    requires runner in us[i].heads && runner !in us[i].w.faulty
    ensures var jobs, cached := OpenJobs(us[i].w, runner), us[i].heads[runner].cached;
            && |Kept(us[i].w, runner, cached)| <= |jobs|
            && ((exists e :: e in jobs && e.parent !in cached) ==> |Kept(us[i].w, runner, cached)| < |jobs|)
  {
    HistorySourced(us, actions, particles, i);
    var w, jobs, cached := us[i].w, OpenJobs(us[i].w, runner), us[i].heads[runner].cached;
    KeptAreParents(w, runner, cached, particles);
    FewerParents(jobs, cached, Kept(w, runner, cached));
  }

  /** A pool with more slots than the runner has open jobs: after a result one of the states can go, and
      for a state that is fetched for an open job two slots can be made free. */
  lemma PoolHasRoom(us: seq<World>, actions: seq<Action>, particles: nat, i: nat, runner: int, capacity: nat)
    requires IsHistory(us, actions, particles) && i < |us| && us[i].w.cycle > 1
    requires runner in us[i].heads && runner !in us[i].w.faulty && |OpenJobs(us[i].w, runner)| < capacity
    ensures var jobs, cached := OpenJobs(us[i].w, runner), us[i].heads[runner].cached;
            var kept := Kept(us[i].w, runner, cached);
            && |kept * cached| < capacity
            && ((exists e :: e in jobs && e.parent !in cached) ==> |kept * cached| + 1 < capacity)
  {
    KeptAreFew(us, actions, particles, i, runner);
    var cached := us[i].heads[runner].cached;
    assert Kept(us[i].w, runner, cached) * cached == Kept(us[i].w, runner, cached);
  }

  lemma FewerParents(jobs: set<Entry>, cached: set<StateId>, kept: set<StateId>)
    requires kept <= Parents(jobs) * cached
    ensures |kept| <= |jobs|
    ensures (exists e :: e in jobs && e.parent !in cached) ==> |kept| < |jobs|
  {
    FewParents(jobs);
    SubsetSize(kept, Parents(jobs));
    if e :| e in jobs && e.parent !in cached {
      SubsetSize(kept, Parents(jobs) - {e.parent});
      assert e.parent in Parents(jobs);
    }
  }

  // ----- the answer --------------------------------------------------------

  /** A state that is not kept: from the second cycle on, as soon as more states are cached than the
      runner has open jobs; in the first one, as soon as a result is. */
  lemma SomethingToDelete(w: Work, runner: int, cached: set<StateId>, particles: nat)
    requires Sound(w, particles) && forall s :: s in cached ==> Sourced(w, runner, s)
    requires if w.cycle == 1 then exists s :: s in cached && s.t != 0 else |cached| > |OpenJobs(w, runner)|
    ensures exists s :: s in cached && !MustKeep(w, runner, s)
  {
    if w.cycle == 1 {
      var s :| s in cached && s.t != 0;
      FirstResult(w, runner, s, particles);
    } else {
      KeptAreParents(w, runner, cached, particles);
      FewerParents(OpenJobs(w, runner), cached, Kept(w, runner, cached));
      var kept := Kept(w, runner, cached);
      assert cached == kept + (cached - kept);
      var s := AnyOf(cached - kept);
      assert s in cached && s !in kept;
    }
  }

  lemma FirstResult(w: Work, runner: int, s: StateId, particles: nat)
    requires Sound(w, particles) && w.cycle == 1 && s.t != 0 && Sourced(w, runner, s)
    ensures !MustKeep(w, runner, s)
  {
    forall e | e in w.due ensures e.job != s && e.parent != s {
      assert IsParent(w, e.parent);
    }
  }

  /** The request of a living runner that has a result, or a state it was told to fetch, and in later
      cycles more states than open jobs, can be answered: there is a list of its due dates, a state
      that is not kept, and a weight for every new state. */
  lemma DeleteIsAnswered(us: seq<World>, actions: seq<Action>, particles: nat, i: nat, runner: int,
                         cached: seq<StateId>)
    requires IsHistory(us, actions, particles) && i < |us|
    requires runner in us[i].heads && runner !in us[i].w.faulty
    requires forall s :: s in cached <==> s in us[i].heads[runner].cached
    requires exists s :: s in cached && s.t != 0
    requires us[i].w.cycle > 1 ==> |us[i].heads[runner].cached| > |OpenJobs(us[i].w, runner)|
    ensures CanDelete(us[i].w, runner, cached)
  {
    HistorySourced(us, actions, particles, i);
    SomethingToDelete(us[i].w, runner, us[i].heads[runner].cached, particles);
  }
}
