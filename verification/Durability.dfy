/**
  Server and heads together: a parent the server names is on the global store, and what the
  server believes a runner to have in its cache, the runner's head really has.

  A head sends the weight of a state only after it has staged the state, and it removes a
  state from the global store only when it has seen a cycle two later.
 */
module Durability {
  import opened Helpers
  import opened ParticleState
  import opened ParticleInvariant
  import opened HeadState

  /** `named`, the parents that the server has ever named to a runner, is a history variable. */
  datatype World = World(w: Work, cr: map<int, set<StateId>>, global: set<StateId>, heads: map<int, Head>,
                         named: set<(int, StateId)>)

  datatype Action =
    | Serve(e: Event)                                       // the server handles a message or checks due dates
    | Stage(runner: int, s: StateId)                        // a head copies a result to the global store
    | Post(runner: int, sample: seq<StateId>)               // ... and sends its weight
    | Prefetch(runner: int, parent: Option<StateId>, due: int)  // a head tells what it has
    | Delete(runner: int, s: StateId)                       // a head asks what to delete, and deletes it
    | Pull(runner: int, s: StateId)                         // a head fetches a state
    | CleanUp(runner: int)                                  // a head removes old states from the global store

  // ----- the steps ---------------------------------------------------------

  function Known(cr: map<int, set<StateId>>, runner: int): set<StateId> {
    if runner in cr then cr[runner] else {}
  }

  /** The server learns about the state, unless it has given up the runner. */
  function Posted(u: World, runner: int, sample: seq<StateId>, particles: nat): World
    requires runner in u.heads && u.heads[runner].staged.Some?
  {
    var s := u.heads[runner].staged.value;
    var u1 := u.(heads := u.heads[runner := Sent(u.heads[runner])]);
    if runner in u.w.faulty then u1
    else u1.(w := Step(u.w, Weight(runner, s, sample), particles),
             cr := u.cr[runner := Known(u.cr, runner) + {s}])
  }

  function Prefetched(u: World, runner: int, parent: Option<StateId>, due: int, particles: nat): World
    requires runner in u.heads
  {
    if runner in u.w.faulty then u
    else u.(w := Step(u.w, PrefetchRequest(runner, [], parent, due), particles),
            cr := u.cr[runner := u.heads[runner].cached])
  }

  function Deleted(u: World, runner: int, s: StateId): World
    requires runner in u.heads
  {
    var h := Dropped(u.heads[runner], s);
    u.(heads := u.heads[runner := h], cr := u.cr[runner := h.cached])
  }

  function CleanedUp(u: World, runner: int): World
    requires runner in u.heads
  {
    var h := u.heads[runner];
    u.(global := u.global - Outdated(h), heads := u.heads[runner := Cleaned(h)])
  }

  /** A runner that is given up may still send results of jobs it was given before. */
  ghost predicate MayPost(u: World, runner: int, sample: seq<StateId>, particles: nat)
    requires runner in u.heads && u.heads[runner].staged.Some?
  {
    var s := u.heads[runner].staged.value;
    if runner in u.w.faulty then s.t <= u.w.cycle else Enabled(u.w, Weight(runner, s, sample), particles)
  }

  ghost predicate CanDo(u: World, a: Action, particles: nat) {
    match a
    case Serve(e) => (e.JobRequest? || e.RunnerRequest? || e.CheckViolations?) && Enabled(u.w, e, particles)
    case Stage(runner, s) => runner in u.heads && u.heads[runner].staged.None?
    case Post(runner, sample) =>
      runner in u.heads && u.heads[runner].staged.Some? && MayPost(u, runner, sample, particles)
    case Prefetch(runner, parent, due) =>
      && runner in u.heads && u.heads[runner].staged.None?
      && (runner !in u.w.faulty ==> exists cached ::
            (forall s :: s in cached <==> s in u.heads[runner].cached)
            && Enabled(u.w, PrefetchRequest(runner, cached, parent, due), particles))
    case Delete(runner, s) =>
      runner in u.heads && runner !in u.w.faulty && u.heads[runner].staged.None? && s in u.heads[runner].cached
    case Pull(runner, s) =>
      runner in u.heads && u.heads[runner].staged.None? && s in u.global && (runner, s) in u.named
    case CleanUp(runner) => runner in u.heads && u.heads[runner].staged.None?
  }

  /** Every due date names a parent to its runner. */
  function Noted(u: World): World {
    u.(named := u.named + set e | e in u.w.due :: (e.runner, e.parent))
  }

  function Act(u: World, a: Action, particles: nat): World {
    Noted(Done(u, a, particles))
  }

  function Done(u: World, a: Action, particles: nat): World {
    match a
    case Serve(e) => u.(w := Step(u.w, e, particles))
    case Stage(runner, s) =>
      if runner in u.heads then
        u.(global := u.global + {s}, heads := u.heads[runner := Staged(u.heads[runner], s)])
      else u
    case Post(runner, sample) =>
      if runner in u.heads && u.heads[runner].staged.Some? then Posted(u, runner, sample, particles) else u
    case Prefetch(runner, parent, due) =>
      if runner in u.heads then Prefetched(u, runner, parent, due, particles) else u
    case Delete(runner, s) => if runner in u.heads then Deleted(u, runner, s) else u
    case Pull(runner, s) =>
      if runner in u.heads then u.(heads := u.heads[runner := Fetched(u.heads[runner], s)]) else u
    case CleanUp(runner) => if runner in u.heads then CleanedUp(u, runner) else u
  }

  // ----- the invariant -----------------------------------------------------

  /** Weighted states of this cycle and the one before have not left the global store. */
  ghost predicate Stored(u: World) {
    forall s :: s in u.w.weighted && s.t >= u.w.cycle - 1 ==> s in u.global
  }

  /** No head has seen a later cycle than the server. */
  ghost predicate HeadsBehind(u: World) {
    forall r :: r in u.heads ==>
      && u.heads[r].last <= u.w.cycle
      && (u.heads[r].staged.Some? && u.heads[r].staged.value.t >= u.w.cycle - 1 ==> u.heads[r].staged.value in u.global)
  }

  /** What the server believes of a runner it has not given up is in the runner's cache. */
  ghost predicate CachesKnown(u: World) {
    forall r :: r in u.heads && r !in u.w.faulty ==> Known(u.cr, r) <= u.heads[r].cached
  }

  ghost predicate Durable(u: World, particles: nat) {
    Sound(u.w, particles) && Stored(u) && HeadsBehind(u) && CachesKnown(u)
  }

  // ----- the steps keep it -------------------------------------------------

  /** Cycles only go up, weighted states stay known, runners that are given up stay so, and the others
      keep their lists. */
  ghost predicate Onward(w: Work, w': Work, weighted: set<StateId>) {
    && w.cycle <= w'.cycle && w.faulty <= w'.faulty && w'.weighted == w.weighted + weighted
    && forall r :: r in w.listed && r !in w'.faulty ==> r in w'.listed
  }

  lemma ServeFrame(w: Work, e: Event, particles: nat)
    requires !e.Weight?
    ensures Onward(w, Step(w, e, particles), {})
  {
    match e
    case CheckViolations(entries, _) => ExpireFrame(w, entries);
    case _ =>
  }

  lemma WeightFrame(w: Work, runner: int, s: StateId, sample: seq<StateId>, particles: nat)
    ensures Onward(w, Step(w, Weight(runner, s, sample), particles), if s.t == 0 then {} else {s})
  {
    var w1 := AcceptWeight(w, runner, s);
    assert Onward(w, w1, if s.t == 0 then {} else {s});
  }

  lemma {:induction false} ExpireFrame(w: Work, entries: seq<Entry>)
    ensures Onward(w, ExpireAll(w, entries), {}) && ExpireAll(w, entries).cycle == w.cycle
  {
    if entries != [] {
      ExpireFrame(w, entries[..|entries| - 1]);
    }
  }

  lemma ServeKeeps(u: World, e: Event, particles: nat)
    requires Durable(u, particles) && CanDo(u, Serve(e), particles)
    ensures Durable(Done(u, Serve(e), particles), particles)
  {
    StepSound(u.w, e, particles);
    ServeFrame(u.w, e, particles);
  }

  /** A state whose weight is accepted is of the present cycle, unless a runner only starts. */
  lemma PostedCycle(w: Work, runner: int, s: StateId, sample: seq<StateId>, particles: nat)
    requires Sound(w, particles) && Enabled(w, Weight(runner, s, sample), particles)
    ensures s.t == 0 || s.t == w.cycle
    ensures s.t <= w.cycle
  {
  }

  /** A head that has sent a weight, while the server has moved on from w to w'. */
  lemma SentKeeps(u: World, runner: int, w': Work, weighted: set<StateId>, cr': map<int, set<StateId>>)
    requires Stored(u) && HeadsBehind(u) && CachesKnown(u)
    requires runner in u.heads && u.heads[runner].staged.Some? && Onward(u.w, w', weighted)
    requires var s := u.heads[runner].staged.value;
             && s.t <= u.w.cycle && weighted <= {s} && (weighted != {} ==> s.t == u.w.cycle)
             && (forall r :: r in u.heads && r != runner ==> Known(cr', r) == Known(u.cr, r))
             && Known(cr', runner) <= Known(u.cr, runner) + {s}
    ensures var u' := u.(w := w', cr := cr', heads := u.heads[runner := Sent(u.heads[runner])]);
            Stored(u') && HeadsBehind(u') && CachesKnown(u')
  {
  }

  lemma PostKeeps(u: World, runner: int, sample: seq<StateId>, particles: nat)
    requires Durable(u, particles) && runner in u.heads && u.heads[runner].staged.Some?
    requires MayPost(u, runner, sample, particles)
    ensures Durable(Posted(u, runner, sample, particles), particles)
  {
    if runner in u.w.faulty {
      SentKeeps(u, runner, u.w, {}, u.cr);
    } else {
      AcceptedPostKeeps(u, runner, u.heads[runner].staged.value, sample, particles);
    }
  }

  lemma AcceptedPostKeeps(u: World, runner: int, s: StateId, sample: seq<StateId>, particles: nat)
    requires Sound(u.w, particles) && Stored(u) && HeadsBehind(u) && CachesKnown(u)
    requires runner in u.heads && u.heads[runner].staged == Some(s) && runner !in u.w.faulty
    requires Enabled(u.w, Weight(runner, s, sample), particles)
    ensures Durable(Posted(u, runner, sample, particles), particles)
  {
    PostedCycle(u.w, runner, s, sample, particles);
    StepSound(u.w, Weight(runner, s, sample), particles);
    WeightFrame(u.w, runner, s, sample, particles);
    MovedOn(u, runner, s, Step(u.w, Weight(runner, s, sample), particles), particles);
  }

  lemma MovedOn(u: World, runner: int, s: StateId, w': Work, particles: nat)
    requires Stored(u) && HeadsBehind(u) && CachesKnown(u)
    requires runner in u.heads && u.heads[runner].staged == Some(s)
    requires Sound(w', particles) && Onward(u.w, w', if s.t == 0 then {} else {s})
    requires s.t <= u.w.cycle && (s.t == 0 || s.t == u.w.cycle)
    ensures Durable(u.(w := w', cr := u.cr[runner := Known(u.cr, runner) + {s}],
                       heads := u.heads[runner := Sent(u.heads[runner])]), particles)
  {
    SentKeeps(u, runner, w', if s.t == 0 then {} else {s}, u.cr[runner := Known(u.cr, runner) + {s}]);
  }

  /** The order in which the cache is listed does not matter to the books. */
  lemma PrefetchStep(w: Work, runner: int, cached: seq<StateId>, parent: Option<StateId>, due: int, particles: nat)
    ensures Step(w, PrefetchRequest(runner, cached, parent, due), particles)
            == Step(w, PrefetchRequest(runner, [], parent, due), particles)
  {
  }

  lemma PrefetchMoves(u: World, runner: int, w': Work)
    requires Stored(u) && HeadsBehind(u) && CachesKnown(u) && runner in u.heads && Onward(u.w, w', {})
    ensures var u' := u.(w := w', cr := u.cr[runner := u.heads[runner].cached]);
            Stored(u') && HeadsBehind(u') && CachesKnown(u')
  {
  }

  lemma PrefetchKeeps(u: World, a: Action, particles: nat)
    requires Durable(u, particles) && a.Prefetch? && CanDo(u, a, particles)
    ensures Durable(Prefetched(u, a.runner, a.parent, a.due, particles), particles)
  {
    if a.runner !in u.w.faulty {
      var cached :| Enabled(u.w, PrefetchRequest(a.runner, cached, a.parent, a.due), particles);
      PrefetchStep(u.w, a.runner, cached, a.parent, a.due, particles);
      StepSound(u.w, PrefetchRequest(a.runner, cached, a.parent, a.due), particles);
      ServeFrame(u.w, PrefetchRequest(a.runner, [], a.parent, a.due), particles);
      PrefetchMoves(u, a.runner, Step(u.w, PrefetchRequest(a.runner, [], a.parent, a.due), particles));
    }
  }

  lemma CleanUpKeeps(u: World, runner: int, particles: nat)
    requires Durable(u, particles) && runner in u.heads && u.heads[runner].staged.None?
    ensures Durable(CleanedUp(u, runner), particles)
  {
  }

  lemma ActKeeps(u: World, a: Action, particles: nat)
    requires Durable(u, particles) && CanDo(u, a, particles)
    ensures Durable(Act(u, a, particles), particles)
  {
    DoneKeeps(u, a, particles);
  }

  lemma DoneKeeps(u: World, a: Action, particles: nat)
    requires Durable(u, particles) && CanDo(u, a, particles)
    ensures Durable(Done(u, a, particles), particles)
  {
    match a
    case Serve(e) => ServeKeeps(u, e, particles);
    case Stage(_, _) =>
    case Post(runner, sample) => PostKeeps(u, runner, sample, particles);
    case Prefetch(_, _, _) => PrefetchKeeps(u, a, particles);
    case Delete(_, _) =>
    case Pull(_, _) =>
    case CleanUp(runner) => CleanUpKeeps(u, runner, particles);
  }

  // ----- all runs ----------------------------------------------------------

  ghost predicate Start(u: World, particles: nat) {
    && u.w == Initial(particles) && u.cr == map[] && u.global == {} && u.named == {}
    && forall r :: r in u.heads ==> u.heads[r] == NEW_HEAD
  }

  ghost predicate IsHistory(us: seq<World>, actions: seq<Action>, particles: nat) {
    && |us| == |actions| + 1 && Start(us[0], particles)
    && forall i :: 0 <= i < |actions| ==>
         CanDo(us[i], actions[i], particles) && us[i + 1] == Act(us[i], actions[i], particles)
  }

  lemma {:induction false} HistoryDurable(us: seq<World>, actions: seq<Action>, particles: nat, i: nat)
    requires IsHistory(us, actions, particles) && i < |us|
    ensures Durable(us[i], particles)
  {
    if i == 0 {
      InitialSound(particles);
    } else {
      HistoryDurable(us, actions, particles, i - 1);
      ActKeeps(us[i - 1], actions[i - 1], particles);
    }
  }

  /** From the second cycle on, every parent the server has given out, or promised, and not got a
      result for, is on the global store, and so is every parent it may still give out. */
  lemma ParentsAreStored(us: seq<World>, actions: seq<Action>, particles: nat, i: nat)
    requires IsHistory(us, actions, particles) && i < |us| && us[i].w.cycle > 1
    ensures forall e :: e in us[i].w.due ==> e.parent in us[i].global
    ensures forall p :: p in us[i].w.alpha ==> p in us[i].global
    ensures forall r :: r in us[i].w.scheduled ==> us[i].w.scheduled[r].parent in us[i].global
  {
    HistoryDurable(us, actions, particles, i);
    var w := us[i].w;
    forall e | e in w.due ensures e.parent in us[i].global {
      assert IsParent(w, e.parent);
    }
    forall p | p in w.alpha ensures p in us[i].global {
      assert IsParent(w, p);
    }
    forall r | r in w.scheduled ensures w.scheduled[r].parent in us[i].global {
      var e := DueOfScheduled(w, r);
    }
  }

  /** What the server believes a runner it has not given up to have cached, the runner's head has. */
  lemma CacheKnowledge(us: seq<World>, actions: seq<Action>, particles: nat, i: nat, r: int)
    requires IsHistory(us, actions, particles) && i < |us| && r in us[i].heads && r !in us[i].w.faulty
    ensures Known(us[i].cr, r) <= us[i].heads[r].cached
  {
    HistoryDurable(us, actions, particles, i);
  }
}
