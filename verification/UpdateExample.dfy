/**
  A run to the end of a step: two server ranks, a runner with one rank, one ensemble member.
  Rank 0 comes to announce the end before rank 1 has noticed it, and then both update.
 */
module UpdateExample {
  import opened Helpers
  import opened TaskState
  import opened RankInvariant
  import opened ServerCluster
  import opened ServerTheorems

  const CFG := Config(1, [[0], [0]])
  const TASK := NewTask(7, 0, 5, 2)
  const PART := SubTask(7, 0, 0, 5)

  // one server rank: at first, with the runner rank waiting, at work, and done
  const NEW := RankState({0}, [], [], [], {}, map[], map[], map[], 1, 0, 0, 1, -1, [0], map[], map[])
  const IDLE := NEW.(idle := map[7 := {0}])

  function Busy(heard: int, id: int, counted: int): RankState {
    RankState({}, [], [PART], [], {}, map[], map[(7, 0) := Work(0, 1)], map[], 1, heard, 0, id, counted, [0],
              map[0 := Held(7, 5)], map[(7, 0) := [0]])
  }

  function Done(heard: int, told: int, id: int, counted: int): RankState {
    RankState({}, [], [], [PART], {}, map[7 := {0}], map[], map[(0, 0) := Origin(7, 1)], 1, heard, told, id, counted,
              [0], map[0 := Held(7, 5)], map[(7, 0) := [0]])
  }

  // the runner rank: its first message, then its result, on the way to these server ranks
  function First(pending: set<nat>): map<(int, nat), RunnerRank> {
    map[(7, 0) := RunnerRank(-1, 0, pending, 0, {})]
  }

  function Result(pending: set<nat>): map<(int, nat), RunnerRank> {
    map[(7, 0) := RunnerRank(0, 1, pending, 1, {Work(0, 1)})]
  }

  // the states of the run and the events between them
  function Both(q: RankState, q': RankState, newTasks: seq<NewTask>, runners: map<(int, nat), RunnerRank>,
                issued: seq<NewTask>): Cluster
  {
    Cluster([q, q'], [[], newTasks], [[], []], [[], []], [0, 0], [false, false], runners, issued, {}, {})
  }

  function Ending(counted: int, reports: seq<int>, known: set<nat>, allFinished: nat, updating: seq<bool>): Cluster {
    Cluster([Done(0, 0, 2, counted), Done(2, 2, 1, -1)], [[], []], [[], []], [[], reports], [0, allFinished], updating,
            Result({}), [TASK], known, {})
  }

  const C0 := Both(NEW, NEW, [], map[], [])
  const E0 := Connect(7, 0)
  const C1 := Both(NEW, NEW, [], First({0, 1}), [])
  const E1 := Data(1, 7, 0, 5)
  const C2 := Both(NEW, IDLE, [], First({0}), [])
  const E2 := Data(0, 7, 0, 5)
  const C3 := Both(Busy(0, 2, 0), IDLE, [TASK], First({}), [TASK])
  const E3 := TaskArrival(1)
  const C4 := Both(Busy(0, 2, 0), Busy(2, 1, -1), [], First({}), [TASK])
  const E4 := NextRound(7, 0, 0)
  const C5 := Both(Busy(0, 2, 0), Busy(2, 1, -1), [], Result({0, 1}), [TASK])
  const E5 := Data(1, 7, 0, 5)
  const C6 := Both(Busy(0, 2, 0), Done(2, 0, 1, -1), [], Result({0}), [TASK])
  const E6 := Data(0, 7, 0, 5)
  const C7 := Both(Done(0, 0, 2, 0), Done(2, 0, 1, -1), [], Result({}), [TASK])
  const E7 := Event.Report(1)
  const C8 := Ending(0, [2], {}, 0, [false, false])
  const E8 := Event.CountReport(1)
  const C9 := Ending(1, [], {1}, 0, [false, false])
  const E9 := Announce
  const C10 := Ending(1, [], {1}, 1, [true, false])
  const E10 := Notice(1)
  const C11 := Ending(1, [], {1}, 0, [true, true])

  lemma Formed()
    ensures ValidConfig(CFG) && Initial(CFG, 1) == C0
  {
    assert Members(1) == {0} && NoFailures(1) == [0];
    assert InitialRank(CFG, 1) == NEW;
  }

  lemma Servers()
    ensures ServersOf(CFG, 0) == {0, 1}
  {
  }

  lemma Step0()
    ensures WellFormed(CFG, C0) && Step(CFG, C0, E0) == Next(C1)
  {
    Servers();
  }

  // ----- what the handlers do here -----------------------------------------

  lemma FirstMessage(q: RankState)
    requires q.killed == {} && q.running == [] && q.scheduled == [] && q.step == 1
    requires q.orders == map[] && q.idle == map[]
    ensures HandleData(q, DataMessage(7, 0, -1, 0)) == q.(idle := map[7 := {0}])
    ensures DataAssertions(q, DataMessage(7, 0, -1, 0))
  {
    var m := DataMessage(7, 0, -1, 0);
    assert !IsDead(q.killed, 7) && StoreData(q, m) == q;
    assert {} + {0} == {0} && SaveConnection(q.idle, 7, 0) == map[7 := {0}] && q.orders - {(7, 0)} == map[];
  }

  lemma Launches(q: RankState)
    requires q.idle == map[7 := {0}] && q.orders == map[] && q.given == map[] && q.running == [] && q.step == 1
    requires q.unscheduled == {0} && q.holder == map[]
    ensures Assign(q, TASK, [0])
            == q.(unscheduled := {}, holder := map[0 := Held(7, 5)], idle := map[], running := [PART],
                  orders := map[(7, 0) := Work(0, 1)], given := map[(7, 0) := [0]])
  {
    var q1 := Take(q, TASK);
    assert [0][..0] == [] && AddSubTasks(q1, TASK, []) == q1;
    assert AddSubTasks(q1, TASK, [0]) == AddSubTask(q1, PART);
    assert {0} - {0} == {} && TakeConnection(q.idle, 7, 0) == map[];
    assert q1.unscheduled == {} && q1.holder == map[0 := Held(7, 5)];
    assert [] + [0] == [0] && Give(q.given, 7, 0, 0) == map[(7, 0) := [0]];
    assert q.orders[(7, 0) := Work(0, 1)] == map[(7, 0) := Work(0, 1)];
  }

  lemma SecondMessage(q: RankState)
    requires q.killed == {} && q.running == [PART] && q.scheduled == [] && q.finished == [] && q.step == 1
    requires q.orders == map[(7, 0) := Work(0, 1)] && q.idle == map[] && q.background == map[]
    ensures HandleData(q, DataMessage(7, 0, 0, 1))
            == q.(running := [], finished := [PART], idle := map[7 := {0}], orders := map[],
                  background := map[(0, 0) := Origin(7, 1)])
    ensures DataAssertions(q, DataMessage(7, 0, 0, 1))
  {
    var m := DataMessage(7, 0, 0, 1);
    assert [PART][..0] == [];
    assert RunningIndex(q, m) == 0 && Remove([PART], 0) == [] && [] + [PART] == [PART];
    assert q.background[(0, 0) := Origin(7, 1)] == map[(0, 0) := Origin(7, 1)];
    assert {} + {0} == {0} && SaveConnection(q.idle, 7, 0) == map[7 := {0}] && q.orders - {(7, 0)} == map[];
    assert !IsDead(q.killed, 7);
  }

  lemma Channels(a: seq<NewTask>, b: seq<NewTask>, sent: seq<NewTask>)
    ensures Append([a, b], sent) == [a, b + sent]
  {
  }

  lemma Shape(c: Cluster)
    requires |c.ranks| == |c.newTasks| == |c.kills| == |c.reports| == |c.allFinished| == |c.updating| == 2
    ensures WellFormed(CFG, c)
  {
  }

  function Less(x: RunnerRank, r: nat): map<(int, nat), RunnerRank> {
    map[(7, 0) := x.(pending := x.pending - {r})]
  }

  lemma UnderWay(c: Cluster, r: nat, x: RunnerRank)
    requires c.runners == map[(7, 0) := x] && r in x.pending && r < 2
    ensures IsUnderWay(CFG, c, r, 7, 0) && MessageOf(c, 7, 0) == DataMessage(7, 0, x.state, x.step)
    ensures Delivered(c, r, 7, 0) == c.(runners := Less(x, r))
  {
    assert 0 in CFG.ranks[r] && (7, 0) in c.runners;
    assert c.runners[(7, 0) := x.(pending := x.pending - {r})] == Less(x, r);
  }

  lemma DataOnRankZero(c: Cluster, m: DataMessage, q: RankState, sent: seq<NewTask>)
    requires WellFormed(CFG, c) && !c.updating[0] && IsUnderWay(CFG, c, 0, 7, 0) && m == MessageOf(c, 7, 0)
    requires DataAssertions(c.ranks[0], m) && RootHandleData(c.ranks[0], m, 5, CFG.ranks[0]) == Effect(q, sent)
    ensures Step(CFG, c, Data(0, 7, 0, 5)) == Next(Broadcast(Delivered(c, 0, 7, 0), q, sent))
  {
  }

  lemma DataOnRankOne(c: Cluster, m: DataMessage, q: RankState)
    requires WellFormed(CFG, c) && !c.updating[1] && IsUnderWay(CFG, c, 1, 7, 0) && m == MessageOf(c, 7, 0)
    requires DataAssertions(c.ranks[1], m) && HandleData(c.ranks[1], m) == q
    ensures Step(CFG, c, Data(1, 7, 0, 5)) == Next(Delivered(c, 1, 7, 0).(ranks := c.ranks[1 := q]))
  {
  }

  /** The message of the runner rank reaches a server rank, whatever the two are. */
  lemma ReachesZero(a: RankState, b: RankState, x: RunnerRank, issued: seq<NewTask>, m: DataMessage,
                    a': RankState, sent: seq<NewTask>)
    requires 0 in x.pending && m == DataMessage(7, 0, x.state, x.step)
    requires DataAssertions(a, m) && RootHandleData(a, m, 5, CFG.ranks[0]) == Effect(a', sent)
    ensures var c := Both(a, b, [], map[(7, 0) := x], issued);
            WellFormed(CFG, c) && Step(CFG, c, Data(0, 7, 0, 5)) == Next(Both(a', b, sent, Less(x, 0), issued + sent))
  {
    var c := Both(a, b, [], map[(7, 0) := x], issued);
    Shape(c);
    UnderWay(c, 0, x);
    DataOnRankZero(c, m, a', sent);
    SentToOne(a, b, Less(x, 0), issued, a', sent);
  }

  lemma SentToOne(a: RankState, b: RankState, runners: map<(int, nat), RunnerRank>, issued: seq<NewTask>,
                  a': RankState, sent: seq<NewTask>)
    ensures Broadcast(Both(a, b, [], runners, issued), a', sent) == Both(a', b, sent, runners, issued + sent)
  {
    Channels([], [], sent);
    assert [] + sent == sent && [a, b][0 := a'] == [a', b];
  }

  lemma ReachesOne(a: RankState, b: RankState, x: RunnerRank, issued: seq<NewTask>, m: DataMessage, b': RankState)
    requires 1 in x.pending && m == DataMessage(7, 0, x.state, x.step)
    requires DataAssertions(b, m) && HandleData(b, m) == b'
    ensures var c := Both(a, b, [], map[(7, 0) := x], issued);
            WellFormed(CFG, c) && Step(CFG, c, Data(1, 7, 0, 5)) == Next(Both(a, b', [], Less(x, 1), issued))
  {
    var c := Both(a, b, [], map[(7, 0) := x], issued);
    Shape(c);
    UnderWay(c, 1, x);
    DataOnRankOne(c, m, b');
    assert [a, b][1 := b'] == [a, b'];
  }

  lemma Step1()
    ensures WellFormed(CFG, C1) && Step(CFG, C1, E1) == Next(C2)
  {
    FirstMessage(NEW);
    ReachesOne(NEW, NEW, RunnerRank(-1, 0, {0, 1}, 0, {}), [], DataMessage(7, 0, -1, 0), IDLE);
    assert {0, 1} - {1} == {0};
  }

  lemma FirstTask()
    ensures RootHandleData(NEW, DataMessage(7, 0, -1, 0), 5, CFG.ranks[0]) == Effect(Busy(0, 2, 0), [TASK])
    ensures DataAssertions(NEW, DataMessage(7, 0, -1, 0))
  {
    FirstMessage(NEW);
    assert BecomesIdle(NEW, DataMessage(7, 0, -1, 0), 1);
    assert ScheduledTask(IDLE, 7, 5) == TASK;
    Launches(IDLE.(taskId := 2, finishedRanks := 0));
  }

  lemma Step2()
    ensures WellFormed(CFG, C2) && Step(CFG, C2, E2) == Next(C3)
  {
    FirstTask();
    ReachesZero(NEW, IDLE, RunnerRank(-1, 0, {0}, 0, {}), [], DataMessage(7, 0, -1, 0), Busy(0, 2, 0), [TASK]);
    assert [] + [TASK] == [TASK] && {0} - {0} == {};
  }

  lemma NothingToClear(q: RankState)
    requires q.scheduled == [] && q.running == [] && q.finished == [] && q.holder == map[]
    ensures Supersede(q, 0) == q
  {
    assert AllSubTasks(q) == [] && q.holder - {0} == map[];
  }

  lemma TaskArrives()
    ensures ReceiveAssertion(IDLE, TASK) && ReceiveTask(IDLE, TASK, [0]) == Busy(2, 1, -1)
  {
    var q := IDLE.(highestReceived := 2);
    NothingToClear(IDLE);
    NothingToClear(q);
    Launches(q);
  }

  lemma Step3()
    ensures WellFormed(CFG, C3) && Step(CFG, C3, E3) == Next(C4)
  {
    TaskArrives();
    assert [Busy(0, 2, 0), IDLE][1 := Busy(2, 1, -1)] == [Busy(0, 2, 0), Busy(2, 1, -1)];
    assert [TASK][1..] == [] && [[], [TASK]][1 := []] == [[], []];
  }

  lemma Step4()
    ensures WellFormed(CFG, C4) && Step(CFG, C4, E4) == Next(C5)
  {
    Servers();
    assert AnswersTo(CFG, C4, 7, 0) == {Work(0, 1)};
  }

  lemma Step5()
    ensures WellFormed(CFG, C5) && Step(CFG, C5, E5) == Next(C6)
  {
    SecondMessage(Busy(2, 1, -1));
    ReachesOne(Busy(0, 2, 0), Busy(2, 1, -1), RunnerRank(0, 1, {0, 1}, 1, {Work(0, 1)}), [TASK],
               DataMessage(7, 0, 0, 1), Done(2, 0, 1, -1));
    assert {0, 1} - {1} == {0};
  }

  lemma NothingLeft()
    ensures RootHandleData(Busy(0, 2, 0), DataMessage(7, 0, 0, 1), 5, CFG.ranks[0]) == Effect(Done(0, 0, 2, 0), [])
    ensures DataAssertions(Busy(0, 2, 0), DataMessage(7, 0, 0, 1))
  {
    SecondMessage(Busy(0, 2, 0));
  }

  lemma Step6()
    ensures WellFormed(CFG, C6) && Step(CFG, C6, E6) == Next(C7)
  {
    NothingLeft();
    ReachesZero(Busy(0, 2, 0), Done(2, 0, 1, -1), RunnerRank(0, 1, {0}, 1, {Work(0, 1)}), [TASK],
                DataMessage(7, 0, 0, 1), Done(0, 0, 2, 0), []);
    assert [TASK] + [] == [TASK] && {0} - {0} == {};
  }

  lemma Step7()
    ensures WellFormed(CFG, C7) && Step(CFG, C7, E7) == Next(C8)
  {
    assert RankWouldFinish(CFG, C7, 1) && HasReport(C7.ranks[1]);
    assert SendReport(Done(2, 0, 1, -1)) == Done(2, 2, 1, -1);
    assert [] + [2] == [2] && [[], []][1 := [2]] == [[], [2]];
    assert [Done(0, 0, 2, 0), Done(2, 0, 1, -1)][1 := Done(2, 2, 1, -1)] == [Done(0, 0, 2, 0), Done(2, 2, 1, -1)];
  }

  lemma Step8()
    ensures WellFormed(CFG, C8) && Step(CFG, C8, E8) == Next(C9)
  {
    assert RankWouldFinish(CFG, C8, 0);
    assert TaskState.CountReport(Done(0, 0, 2, 0), 2) == Done(0, 0, 2, 1);
    assert [2][1..] == [] && [[], [2]][1 := []] == [[], []] && {} + {1} == {1};
    assert [Done(0, 0, 2, 0), Done(2, 2, 1, -1)][0 := Done(0, 0, 2, 1)] == [Done(0, 0, 2, 1), Done(2, 2, 1, -1)];
  }

  lemma Step9()
    ensures WellFormed(CFG, C9) && Step(CFG, C9, E9) == Next(C10)
  {
  }

  lemma Step10()
    ensures WellFormed(CFG, C10) && Step(CFG, C10, E10) == Next(C11)
  {
  }

  // ----- the run -----------------------------------------------------------

  lemma {:induction false} RunOneMore(c: Cluster, events: seq<Event>, c': Cluster, e: Event, c'': Cluster)
    requires WellFormed(CFG, c) && Run(CFG, c, events) == Next(c')
    requires WellFormed(CFG, c') && Step(CFG, c', e) == Next(c'')
    ensures Run(CFG, c, events + [e]) == Next(c'')
    decreases |events|
  {
    if events == [] {
      assert [e][1..] == [];
    } else {
      assert (events + [e])[1..] == events[1..] + [e];
      RunOneMore(Step(CFG, c, events[0]).c, events[1..], c', e, c'');
    }
  }

  lemma Comes(c: Cluster, e: Event, c': Cluster)
    requires ValidConfig(CFG) && WellFormed(CFG, c) && Reachable(CFG, c) && Step(CFG, c, e) == Next(c')
    ensures Reachable(CFG, c')
  {
    var step, events :| step > 0 && Run(CFG, Initial(CFG, step), events) == Next(c);
    RunOneMore(Initial(CFG, step), events, c, e, c');
  }

  lemma FirstHalf()
    ensures ValidConfig(CFG) && Reachable(CFG, C5)
  {
    Formed();
    assert Run(CFG, Initial(CFG, 1), []) == Next(C0);
    Step0(); Comes(C0, E0, C1);
    Step1(); Comes(C1, E1, C2);
    Step2(); Comes(C2, E2, C3);
    Step3(); Comes(C3, E3, C4);
    Step4(); Comes(C4, E4, C5);
  }

  /** After ten events rank 0 has announced the end of the step, and rank 1 has not noticed it. */
  lemma RankZeroIsFirst()
    ensures ValidConfig(CFG) && Reachable(CFG, C10) && C10.updating == [true, false]
  {
    FirstHalf();
    Step5(); Comes(C5, E5, C6);
    Step6(); Comes(C6, E6, C7);
    Step7(); Comes(C7, E7, C8);
    Step8(); Comes(C8, E8, C9);
    Step9(); Comes(C9, E9, C10);
  }

  /** After one more event both update. */
  lemma BothUpdate()
    ensures ValidConfig(CFG) && Reachable(CFG, C11) && AllUpdating(C11)
  {
    RankZeroIsFirst();
    Step10(); Comes(C10, E10, C11);
  }

  /** Did rank 0 go on alone, its first task of the next step would make rank 1 give up the runner,
      which has done nothing wrong. */
  lemma GoodRunnerIsKilled()
    ensures var q' := ReceiveTask(C10.ranks[1], TASK, [0]);
            (exists t :: t in q'.killed && t !in C10.ranks[0].killed) && !WouldFinish(q', 1, 1)
  {
    RankZeroIsFirst();
    EarlyTaskKillsGoodRunner(CFG, C10, 1, TASK);
  }
}
