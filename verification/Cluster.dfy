/**
  The server as a whole: all ranks, the message channels between them, and the steps a run
  is made of.  Every step is one call of a handler of server/server.cxx on one rank; an event
  whose message is not there leaves the cluster as it is, as the probing calls do.
 */
module ServerCluster {
  import opened TaskState
  import opened RankInvariant

  /** Number of ensemble members, and for each server rank the runner ranks it talks to. */
  datatype Config = Config(ensembleSize: nat, ranks: seq<seq<nat>>)

  ghost predicate ValidConfig(cfg: Config) {
    && cfg.ensembleSize > 0
    && |cfg.ranks| > 0
    && forall r :: 0 <= r < |cfg.ranks| ==> cfg.ranks[r] != [] && Distinct(cfg.ranks[r])
  }

  /** A runner rank has one register for the member and the step it works on.  It sends them to all
      its server ranks, waits for all their answers, and keeps what the last answer says.  `pending`
      are the server ranks that its message has not reached.  `rounds`, how often it has got new work
      in this step, and `answers`, what it works with, are history variables. */
  datatype RunnerRank = RunnerRank(state: int, step: int, pending: set<nat>, rounds: nat, answers: set<Order>)

  /** Channels are first in, first out, one per sender, receiver and tag.  `issued` (the tasks of
      this step), `counted` (the ranks counted for the latest of them) and `gone` (what had been
      killed when the step began) are history variables. */
  datatype Cluster = Cluster(
    ranks: seq<RankState>,
    newTasks: seq<seq<NewTask>>,
    kills: seq<seq<Task>>,
    reports: seq<seq<int>>,
    allFinished: seq<nat>,
    updating: seq<bool>,
    runners: map<(int, nat), RunnerRank>,
    issued: seq<NewTask>,
    counted: set<nat>,
    gone: set<Task>)

  datatype Event =
    | Connect(runner: int, rank: nat)             // a runner rank sends to all its server ranks, first
    | NextRound(runner: int, rank: nat, from: nat)  // ... and again, having got all answers
    | Data(r: nat, runner: int, rank: nat, due: int)  // its message arrives
    | DueDates(r: nat, now: int, due: int)        // the due dates are checked
    | KillRequest(from: nat, due: int)            // rank 0 receives a kill request
    | TaskArrival(r: nat)                         // another rank receives a NewTask
    | Report(r: nat)                              // another rank reports that it would finish
    | CountReport(from: nat)                      // rank 0 receives such a report
    | Announce                                    // rank 0 tells everybody that all have finished
    | Notice(r: nat)                              // another rank receives that message
    | Update(nsteps: int, due: int)               // the collective update step

  datatype Outcome =
    | Next(c: Cluster)
    | GaveUp            // a member failed too often: the server exits
    | Ended             // the assimilator has ended the study
    | AssertionFailed   // an assertion of the code does not hold

  /** Rank 0 has changed to q and sends NewTask messages to all others. */
  function Broadcast(c: Cluster, q: RankState, sent: seq<NewTask>): Cluster
    requires |c.ranks| > 0
  {
    c.(ranks := c.ranks[0 := q],
       newTasks := Append(c.newTasks, sent),
       issued := c.issued + sent,
       counted := if sent == [] then c.counted else {})
  }

  function Apply(c: Cluster, e: Effect): Outcome
    requires |c.ranks| > 0
  {
    match e
    case Exit => GaveUp
    case Effect(q, sent) => Next(Broadcast(c, q, sent))
  }

  ghost predicate WellFormed(cfg: Config, c: Cluster) {
    && ValidConfig(cfg)
    && |c.ranks| == |c.newTasks| == |c.kills| == |c.reports| == |c.allFinished| == |c.updating| == |cfg.ranks|
  }

  predicate AllUpdating(c: Cluster) {
    forall r :: 0 <= r < |c.updating| ==> c.updating[r]
  }

  predicate RankWouldFinish(cfg: Config, c: Cluster, r: nat)
    requires r < |c.ranks| && r < |cfg.ranks|
  {
    WouldFinish(c.ranks[r], cfg.ensembleSize, |cfg.ranks[r]|)
  }

  // ----- runner ranks ------------------------------------------------------

  /** The server ranks a runner rank exchanges data with. */
  function ServersOf(cfg: Config, rank: nat): set<nat> {
    set r | 0 <= r < |cfg.ranks| && rank in cfg.ranks[r]
  }

  function Contacting(cfg: Config, c: Cluster, runner: int, rank: nat): Cluster {
    c.(runners := c.runners[(runner, rank) := RunnerRank(-1, 0, ServersOf(cfg, rank), 0, {})])
  }

  /** All server ranks have told the runner rank to go on. */
  predicate HasAnswers(cfg: Config, c: Cluster, runner: int, rank: nat)
    requires |c.ranks| == |cfg.ranks|
  {
    forall r :: r in ServersOf(cfg, rank) ==>
      (runner, rank) in c.ranks[r].orders && c.ranks[r].orders[(runner, rank)].Work?
  }

  function AnswersTo(cfg: Config, c: Cluster, runner: int, rank: nat): set<Order>
    requires |c.ranks| == |cfg.ranks| && HasAnswers(cfg, c, runner, rank)
  {
    set r | r in ServersOf(cfg, rank) :: c.ranks[r].orders[(runner, rank)]
  }

  /** The runner rank goes on with the answer it has read last. */
  function GoingOn(cfg: Config, c: Cluster, runner: int, rank: nat, order: Order): Cluster
    requires (runner, rank) in c.runners && order.Work? && |c.ranks| == |cfg.ranks| > 0
    requires HasAnswers(cfg, c, runner, rank)
  {
    var rounds := c.runners[(runner, rank)].rounds + if order.step == c.ranks[0].step then 1 else 0;
    c.(runners := c.runners[(runner, rank) := RunnerRank(order.state, order.step, ServersOf(cfg, rank), rounds,
                                                         AnswersTo(cfg, c, runner, rank))])
  }

  predicate IsUnderWay(cfg: Config, c: Cluster, r: nat, runner: int, rank: nat) {
    && r < |cfg.ranks| && rank in cfg.ranks[r]
    && (runner, rank) in c.runners && r in c.runners[(runner, rank)].pending
  }

  function MessageOf(c: Cluster, runner: int, rank: nat): DataMessage
    requires (runner, rank) in c.runners
  {
    DataMessage(runner, rank, c.runners[(runner, rank)].state, c.runners[(runner, rank)].step)
  }

  function Delivered(c: Cluster, r: nat, runner: int, rank: nat): Cluster
    requires (runner, rank) in c.runners
  {
    var x := c.runners[(runner, rank)];
    c.(runners := c.runners[(runner, rank) := x.(pending := x.pending - {r})])
  }

  function NewStep(cfg: Config, c: Cluster, nsteps: int): Cluster {
    c.(ranks := seq(|c.ranks|, r requires 0 <= r < |c.ranks| => InitNewTimestep(c.ranks[r], cfg.ensembleSize, nsteps)),
       updating := seq(|c.updating|, _ => false),
       runners := map k | k in c.runners :: c.runners[k].(rounds := 0),
       issued := [],
       counted := {},
       gone := if c.ranks == [] then {} else c.ranks[0].killed)
  }

  /** Another rank has killed and asks rank 0 to do so, too. */
  function Asked(c: Cluster, r: nat, q: RankState, requests: seq<Task>): Cluster
    requires r < |c.ranks| && r < |c.kills|
  {
    c.(ranks := c.ranks[r := q], kills := c.kills[r := c.kills[r] + requests])
  }

  /** Rank 0 has taken a kill request out of its channel. */
  function Taken(c: Cluster, from: nat): Cluster
    requires from < |c.kills| && c.kills[from] != []
  {
    c.(kills := c.kills[from := c.kills[from][1..]])
  }

  /** Another rank has received a NewTask message. */
  function Arrived(cfg: Config, c: Cluster, r: nat): Cluster
    requires WellFormed(cfg, c) && r < |c.ranks| && c.newTasks[r] != []
  {
    c.(ranks := c.ranks[r := ReceiveTask(c.ranks[r], c.newTasks[r][0], cfg.ranks[r])],
       newTasks := c.newTasks[r := c.newTasks[r][1..]])
  }

  /** Another rank has told rank 0 the latest task it has heard of. */
  function Reported(c: Cluster, r: nat): Cluster
    requires r < |c.ranks| && r < |c.reports|
  {
    c.(ranks := c.ranks[r := SendReport(c.ranks[r])],
       reports := c.reports[r := c.reports[r] + [c.ranks[r].highestReceived]])
  }

  /** Rank 0 has received such a report and counts it if it is up to date. */
  function Counted(c: Cluster, from: nat): Cluster
    requires |c.ranks| > 0 && from < |c.reports| && c.reports[from] != []
  {
    var id := c.reports[from][0];
    c.(reports := c.reports[from := c.reports[from][1..]],
       ranks := c.ranks[0 := TaskState.CountReport(c.ranks[0], id)],
       counted := c.counted + if id == c.ranks[0].taskId then {from} else {})
  }

  /** Rank 0 has told everybody that all ranks have finished. */
  function Announced(c: Cluster): Cluster
    requires |c.updating| > 0 && |c.allFinished| == |c.ranks|
  {
    c.(allFinished := seq(|c.ranks|, r requires 0 <= r < |c.ranks| =>
                        if r == 0 then c.allFinished[r] else c.allFinished[r] + 1),
       updating := c.updating[0 := true])
  }

  /** Another rank has received that message. */
  function Noticed(c: Cluster, r: nat): Cluster
    requires r < |c.allFinished| && r < |c.updating| && c.allFinished[r] > 0
  {
    c.(allFinished := c.allFinished[r := c.allFinished[r] - 1], updating := c.updating[r := true])
  }

  /** The message of a runner rank arrives. */
  ghost function OnData(cfg: Config, c: Cluster, r: nat, runner: int, rank: nat, due: int): (o: Outcome)
    requires WellFormed(cfg, c) && r < |c.ranks| && IsUnderWay(cfg, c, r, runner, rank)
    ensures o.Next? ==> WellFormed(cfg, o.c)
  {
    var m, c' := MessageOf(c, runner, rank), Delivered(c, r, runner, rank);
    if !IsDead(c.ranks[r].killed, runner) && !DataAssertions(c.ranks[r], m) then AssertionFailed
    else if r == 0 then Apply(c', RootHandleData(c.ranks[0], m, due, cfg.ranks[0]))
    else Next(c'.(ranks := c.ranks[r := HandleData(c.ranks[r], m)]))
  }

  /** All ranks leave the update step. */
  ghost function OnUpdate(cfg: Config, c: Cluster, nsteps: int, due: int): (o: Outcome)
    requires WellFormed(cfg, c)
    ensures o.Next? ==> WellFormed(cfg, o.c)
  {
    if nsteps < 0 then Ended
    else if exists r :: 0 <= r < |c.ranks| && !NewStepAssertions(c.ranks[r], cfg.ensembleSize, |cfg.ranks[r]|)
    then AssertionFailed
    else
      var c' := NewStep(cfg, c, nsteps);
      Apply(c', ScheduleIdle(c'.ranks[0], due, cfg.ranks[0]))
  }

  ghost function Step(cfg: Config, c: Cluster, e: Event): (o: Outcome)
    requires WellFormed(cfg, c)
    ensures o.Next? ==> WellFormed(cfg, o.c)
  {
    match e
    case Connect(runner, rank) =>
      if (runner, rank) in c.runners then Next(c) else Next(Contacting(cfg, c, runner, rank))
    case NextRound(runner, rank, from) =>
      if (runner, rank) in c.runners && c.runners[(runner, rank)].pending == {}
         && from in ServersOf(cfg, rank) && HasAnswers(cfg, c, runner, rank)
      then Next(GoingOn(cfg, c, runner, rank, c.ranks[from].orders[(runner, rank)]))
      else Next(c)
    case Data(r, runner, rank, due) =>
      if r < |c.ranks| && !c.updating[r] && IsUnderWay(cfg, c, r, runner, rank)
      then OnData(cfg, c, r, runner, rank, due)
      else Next(c)
    case DueDates(r, now, due) =>
      if r < |c.ranks| && !c.updating[r] then
        var tasks := InOrder(Overdue(c.ranks[r], now));
        if r == 0 then Apply(c, RootKillAll(c.ranks[0], tasks, due, cfg.ranks[0]))
        else Next(Asked(c, r, RankKillAll(c.ranks[r], tasks), tasks))
      else Next(c)
    case KillRequest(from, due) =>
      if 0 < from < |c.ranks| && !c.updating[0] && c.kills[from] != [] then
        Apply(Taken(c, from), RootKillRequest(c.ranks[0], c.kills[from][0], due, cfg.ranks[0]))
      else Next(c)
    case TaskArrival(r) =>
      if 0 < r < |c.ranks| && !c.updating[r] && c.newTasks[r] != [] then
        if ReceiveAssertion(c.ranks[r], c.newTasks[r][0]) then Next(Arrived(cfg, c, r)) else AssertionFailed
      else Next(c)
    case Report(r) =>
      if 0 < r < |c.ranks| && !c.updating[r] && RankWouldFinish(cfg, c, r)
         && HasReport(c.ranks[r])
      then Next(Reported(c, r))
      else Next(c)
    case CountReport(from) =>
      if 0 < from < |c.ranks| && !c.updating[0] && RankWouldFinish(cfg, c, 0) && c.reports[from] != []
      then Next(Counted(c, from))
      else Next(c)
    case Announce =>
      if !c.updating[0] && RankWouldFinish(cfg, c, 0) && c.ranks[0].finishedRanks == |c.ranks| - 1
      then Next(Announced(c))
      else Next(c)
    case Notice(r) =>
      if 0 < r < |c.ranks| && !c.updating[r] && RankWouldFinish(cfg, c, r) && c.allFinished[r] > 0
      then Next(Noticed(c, r))
      else Next(c)
    case Update(nsteps, due) =>
      if AllUpdating(c) && IsAnswer(nsteps) then OnUpdate(cfg, c, nsteps, due) else Next(c)
  }

  /** The assimilator answers with the number of steps to propagate, or with -1 or -2 to end. */
  predicate IsAnswer(nsteps: int) {
    nsteps == -1 || nsteps == -2 || nsteps > 0
  }

  /** A run: the events in turn, until the server stops. */
  ghost function Run(cfg: Config, c: Cluster, events: seq<Event>): (o: Outcome)
    requires WellFormed(cfg, c)
    ensures o.Next? ==> WellFormed(cfg, o.c)
    decreases |events|
  {
    if events == [] then Next(c)
    else
      match Step(cfg, c, events[0])
      case Next(c') => Run(cfg, c', events[1..])
      case other => other
  }

  /** All ranks right after the first call of init_new_timestep. */
  function InitialRank(cfg: Config, step: int): RankState {
    InitNewTimestep(RankState({}, [], [], [], {}, map[], map[], map[], 0, 0, 0, 1, -1, [], map[], map[]),
                    cfg.ensembleSize, step)
  }

  function Initial(cfg: Config, step: int): Cluster {
    var n := |cfg.ranks|;
    Cluster(seq(n, _ => InitialRank(cfg, step)), seq(n, _ => []), seq(n, _ => []), seq(n, _ => []),
            seq(n, _ => 0), seq(n, _ => false), map[], [], {}, {})
  }
}
