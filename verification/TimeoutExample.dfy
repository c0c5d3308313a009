/**
  A violated due date can lead the particle server into the assertion that is out of reach
  without one.  Two particles have the same parent; runner 1 works on one of them and has
  prefetched the other when its first due date passes.  Its second due date still counts it
  as a runner of that parent, so the parent seems to need nobody when runner 2 asks.
 */
module TimeoutExample {
  import opened Helpers
  import opened ParticleState
  import opened ParticleInvariant

  const BASE := StateId(0, 1)
  const PARENT := StateId(1, 0)
  const OTHER := StateId(1, 1)

  // the first cycle: runner 1 does both particles
  const W0 := Initial(2)
  const E0 := JobRequest(1, [], Some(BASE), 5)
  const W1 := Work(1, multiset{}, {Entry(5, 1, PARENT, BASE)}, map[], 1, 0, {}, {1}, {}, map[1 := Some(BASE)],
                   1, 0, {1})
  const E1 := Weight(1, PARENT, [])
  const W2 := Work(1, multiset{}, {}, map[], 1, 1, {PARENT}, {1}, {}, map[1 := Some(BASE)], 1, 0, {1})
  const E2 := JobRequest(1, [], Some(BASE), 6)
  const W3 := Work(1, multiset{}, {Entry(6, 1, OTHER, BASE)}, map[], 0, 1, {PARENT}, {1}, {},
                   map[1 := Some(BASE)], 2, 0, {1})
  const E3 := Weight(1, OTHER, [PARENT, PARENT])

  // the second cycle
  const W4 := Work(2, multiset{PARENT, PARENT}, {}, map[], 2, 0, {PARENT, OTHER}, {1}, {}, map[1 := Some(BASE)],
                   0, 0, {1})
  const E4 := JobRequest(1, [], Some(PARENT), 10)
  const FIRST := Entry(10, 1, StateId(2, 0), PARENT)
  const W5 := Work(2, multiset{PARENT}, {FIRST}, map[], 1, 0, {PARENT, OTHER}, {1}, {}, map[1 := Some(PARENT)],
                   1, 0, {1})
  const E5 := PrefetchRequest(1, [], Some(PARENT), 11)
  const SECOND := Entry(11, 1, StateId(2, 1), PARENT)
  const W6 := Work(2, multiset{}, {FIRST, SECOND}, map[1 := Job(StateId(2, 1), PARENT)], 1, 0, {PARENT, OTHER}, {1}, {},
                   map[1 := Some(PARENT)], 2, 0, {1})
  const E6 := RunnerRequest(2)
  const W7 := Work(2, multiset{}, {FIRST, SECOND}, map[1 := Job(StateId(2, 1), PARENT)], 1, 0, {PARENT, OTHER}, {1, 2}, {},
                   map[1 := Some(PARENT), 2 := None], 2, 0, {1})
  const E7 := CheckViolations([FIRST], 10)
  const W8 := Work(2, multiset{PARENT}, {SECOND}, map[], 1, 0, {PARENT, OTHER}, {1, 2}, {1}, map[2 := None], 2, 1, {1})

  lemma Step0()
    ensures Enabled(W0, E0, 2) && Step(W0, E0, 2) == W1
  {
  }

  lemma Step1()
    ensures Enabled(W1, E1, 2) && Step(W1, E1, 2) == W2
  {
    assert Entry(5, 1, PARENT, BASE) in W1.due;
    assert Without(W1.due, 1, PARENT) == {};
  }

  lemma Step2()
    ensures Enabled(W2, E2, 2) && Step(W2, E2, 2) == W3
  {
  }

  lemma Step3()
    ensures Enabled(W3, E3, 2) && Step(W3, E3, 2) == W4
  {
    assert Entry(6, 1, OTHER, BASE) in W3.due;
    assert Without(W3.due, 1, OTHER) == {};
    var w := AcceptWeight(W3, 1, OTHER);
    assert ThisCycle(w) == {PARENT, OTHER};
    assert multiset([PARENT, PARENT]) == multiset{PARENT, PARENT};
  }

  lemma ParentNeedsRunner()
    ensures PARENT in W4.alpha && NeedsRunner(W4, PARENT)
  {
    assert |W4.alpha| == 2 && W4.alpha[PARENT] == 2 && |W4.last| == 1;
    assert Share(W4, PARENT) == (2 * 1 + 2 - 1) / 2;
    assert RunnersOf(W4.due, PARENT) == {};
  }

  lemma Step4()
    ensures Enabled(W4, E4, 2) && Step(W4, E4, 2) == W5
  {
    ParentNeedsRunner();
    assert Connect(W4, 1) == W4;
    assert FirstNeeded([], W4.alpha) == |E4.cached|;
    assert IsChoice(W4, 1, [], Some(PARENT));
    assert multiset{PARENT, PARENT} - multiset{PARENT} == multiset{PARENT};
    assert LaunchNew(W4, 1, PARENT, 10) == W5;
  }

  lemma Step5()
    ensures Enabled(W5, E5, 2) && Step(W5, E5, 2) == W6
  {
    assert multiset{PARENT} - multiset{PARENT} == multiset{};
  }

  lemma Step6()
    ensures Enabled(W6, E6, 2) && Step(W6, E6, 2) == W7
  {
  }

  lemma Step7()
    ensures Enabled(W7, E7, 2) && Step(W7, E7, 2) == W8
  {
    assert [FIRST][..0] == [];
    assert ExpireAll(W7, [FIRST]) == Expire(W7, FIRST);
    assert {FIRST, SECOND} - {FIRST} == {SECOND};
    assert W7.last - {1} == W8.last;
    assert W7.scheduled - {1} == W8.scheduled;
  }

  /** No parent can be chosen for runner 2, although one is still to be propagated. */
  lemma NobodyIsNeeded()
    ensures Blocked(W8, 2, [])
  {
    assert RunnersOf(W8.due, PARENT) == {1};
    assert FirstNeeded([], W8.alpha) == 0;
  }

  lemma OneEvent(ws: seq<Work>, events: seq<Event>, e: Event, w: Work) returns (ws': seq<Work>, events': seq<Event>)
    requires IsRun(ws, events, 2)
    requires Enabled(ws[|events|], e, 2) && Step(ws[|events|], e, 2) == w
    ensures IsRun(ws', events', 2) && ws'[|events'|] == w
  {
    ws', events' := ws + [w], events + [e];
    forall i | 0 <= i < |events'| ensures Enabled(ws'[i], events'[i], 2) && ws'[i + 1] == Step(ws'[i], events'[i], 2) {
      if i < |events| {
        assert ws'[i] == ws[i] && ws'[i + 1] == ws[i + 1] && events'[i] == events[i];
      }
    }
  }

  lemma FirstCycle() returns (ws: seq<Work>, events: seq<Event>)
    ensures IsRun(ws, events, 2) && ws[|events|] == W4
  {
    Step0();
    ws, events := OneEvent([W0], [], E0, W1);
    Step1();
    ws, events := OneEvent(ws, events, E1, W2);
    Step2();
    ws, events := OneEvent(ws, events, E2, W3);
    Step3();
    ws, events := OneEvent(ws, events, E3, W4);
  }

  // the first cycle again, with a due date violated before any weight has come in
  const EARLY := CheckViolations([Entry(5, 1, PARENT, BASE)], 5)
  const STUCK := Work(1, multiset{BASE}, {}, map[], 2, 0, {}, {1}, {1}, map[], 1, 1, {})

  lemma StepEarly()
    ensures Enabled(W1, EARLY, 2) && Step(W1, EARLY, 2) == STUCK
  {
    var e := Entry(5, 1, PARENT, BASE);
    assert [e][..0] == [];
    assert ExpireAll(W1, [e]) == Expire(W1, e);
    assert W1.last - {1} == map[] && W1.scheduled - {1} == map[];
    assert multiset{} + multiset{BASE} == multiset{BASE};
  }

  /** A run of two events after which the first cycle never ends. */
  lemma FirstCycleTimeout() returns (ws: seq<Work>, events: seq<Event>)
    ensures IsRun(ws, events, 2)
    ensures ws[|events|].cycle == 1 && ws[|events|].timeouts > 0
    ensures forall ws': seq<Work>, events': seq<Event> ::
              IsRun(ws', events', 2) && |events| <= |events'| && ws'[|events|] == ws[|events|] ==>
                ws'[|events'|].cycle == 1
  {
    Step0();
    ws, events := OneEvent([W0], [], E0, W1);
    StepEarly();
    ws, events := OneEvent(ws, events, EARLY, STUCK);
    var i := |events|;
    forall ws': seq<Work>, events': seq<Event> | IsRun(ws', events', 2) && i <= |events'| && ws'[i] == STUCK
      ensures ws'[|events'|].cycle == 1
    {
      FirstCycleStaysBlocked(ws', events', 2, i, |events'|);
    }
  }

  lemma BlockedAfterTimeout() returns (ws: seq<Work>, events: seq<Event>)
    ensures IsRun(ws, events, 2)
    ensures var w := ws[|events|];
            && w.stealable > 0 && |w.alpha| > 0 && 2 in w.last && 2 !in w.scheduled
            && Blocked(w, 2, [])
  {
    ws, events := FirstCycle();
    Step4();
    ws, events := OneEvent(ws, events, E4, W5);
    Step5();
    ws, events := OneEvent(ws, events, E5, W6);
    Step6();
    ws, events := OneEvent(ws, events, E6, W7);
    Step7();
    ws, events := OneEvent(ws, events, E7, W8);
    NobodyIsNeeded();
  }
}
