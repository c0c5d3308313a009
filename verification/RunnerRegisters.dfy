/**
  All server ranks and all runner ranks: the register of a runner rank agrees with the orders of
  every server rank that its message is on the way to.
 */
module RunnerRegisters {
  import opened Helpers
  import opened TaskState
  import opened RankInvariant
  import opened ServerCluster
  import opened RunnerRounds

  // ----- the invariant -----------------------------------------------------

  ghost predicate ContactAt(q: RankState, log: seq<NewTask>, gone: set<Task>,
                            runners: map<(int, nat), RunnerRank>, r: nat, x: int, p: nat) {
    Contact(q, log, gone, StageOf(runners, r, x, p), x, p)
  }

  ghost predicate RankRounds(q: RankState, log: seq<NewTask>, gone: set<Task>,
                             runners: map<(int, nat), RunnerRank>, r: nat, ranks: seq<nat>) {
    gone <= q.killed && forall x, p :: p in ranks ==> ContactAt(q, log, gone, runners, r, x, p)
  }

  /** The tasks of this step that rank r has received. */
  function SeenBy(c: Cluster, r: nat): seq<NewTask>
    requires r < |c.newTasks|
  {
    if |c.newTasks[r]| <= |c.issued| then c.issued[..|c.issued| - |c.newTasks[r]|] else []
  }

  ghost predicate RoundsAt(cfg: Config, c: Cluster, r: nat)
    requires WellFormed(cfg, c) && r < |c.ranks|
  {
    RankRounds(c.ranks[r], SeenBy(c, r), c.gone, c.runners, r, cfg.ranks[r])
  }

  /** After k rounds the register holds the k-th member of the runner. */
  ghost predicate RegisterSound(servers: set<nat>, members: seq<int>, step: int, rr: RunnerRank) {
    && rr.pending <= servers
    && (rr.rounds > 0 ==>
          rr.rounds <= |members| && rr.state == members[rr.rounds - 1] && rr.step == step)
  }

  ghost predicate RegistersSound(cfg: Config, c: Cluster)
    requires |c.ranks| > 0
  {
    forall x, p :: (x, p) in c.runners ==>
      RegisterSound(ServersOf(cfg, p), MembersFor(c.issued, x), c.ranks[0].step, c.runners[(x, p)])
  }

  ghost predicate RoundsSound(cfg: Config, c: Cluster)
    requires WellFormed(cfg, c)
  {
    && (forall r :: 0 <= r < |c.ranks| ==> RoundsAt(cfg, c, r))
    && RegistersSound(cfg, c)
  }

  // ----- one rank ----------------------------------------------------------

  /** Only what does not concern connections and waiting sub-tasks may have changed. */
  lemma FrameRounds(q: RankState, q': RankState, log: seq<NewTask>, gone: set<Task>,
                    runners: map<(int, nat), RunnerRank>, r: nat, ranks: seq<nat>)
    requires RankRounds(q, log, gone, runners, r, ranks)
    requires q'.orders == q.orders && q'.idle == q.idle && q'.given == q.given && q'.killed == q.killed
    requires q'.scheduled == q.scheduled && q'.step == q.step
    ensures RankRounds(q', log, gone, runners, r, ranks)
  {
    forall x, p | p in ranks ensures ContactAt(q', log, gone, runners, r, x, p) {
      assert ContactAt(q, log, gone, runners, r, x, p);
      ContactFrame(q, q', log, gone, StageOf(runners, r, x, p), x, p);
    }
  }

  lemma AssignRounds(q: RankState, nt: NewTask, log: seq<NewTask>, gone: set<Task>,
                     runners: map<(int, nat), RunnerRank>, r: nat, ranks: seq<nat>)
    requires RankRounds(q, log, gone, runners, r, ranks) && LinkInvariant(q, ranks) && Distinct(ranks)
    ensures RankRounds(Assign(q, nt, ranks), log + [nt], gone, runners, r, ranks)
  {
    AssignFrame(q, nt, ranks);
    forall x, p | p in ranks ensures ContactAt(Assign(q, nt, ranks), log + [nt], gone, runners, r, x, p) {
      assert ContactAt(q, log, gone, runners, r, x, p);
      AssignContact(q, ranks, nt, log, gone, StageOf(runners, r, x, p), x, p);
    }
  }

  lemma KillRounds(q: RankState, t: Task, log: seq<NewTask>, gone: set<Task>,
                   runners: map<(int, nat), RunnerRank>, r: nat, ranks: seq<nat>)
    requires RankRounds(q, log, gone, runners, r, ranks)
    ensures RankRounds(KillTask(q, t), log, gone, runners, r, ranks)
  {
    forall x, p | p in ranks ensures ContactAt(KillTask(q, t), log, gone, runners, r, x, p) {
      assert ContactAt(q, log, gone, runners, r, x, p);
      KillContact(q, t, log, gone, StageOf(runners, r, x, p), x, p);
    }
  }

  lemma SupersedeRounds(q: RankState, s: int, log: seq<NewTask>, gone: set<Task>,
                        runners: map<(int, nat), RunnerRank>, r: nat, ranks: seq<nat>, ensembleSize: nat)
    requires RankRounds(q, log, gone, runners, r, ranks) && RankSound(q, ranks, ensembleSize) && ranks != []
    ensures RankRounds(Supersede(q, s), log, gone, runners, r, ranks)
  {
    if s in q.holder {
      SupersedeIsKill(q, ranks, ensembleSize, s);
      KillRounds(q, Task(s, q.holder[s].runner), log, gone, runners, r, ranks);
    } else {
      SupersedeNothing(q, ranks, ensembleSize, s);
    }
  }

  function Without(runners: map<(int, nat), RunnerRank>, r: nat, x: int, p: nat): map<(int, nat), RunnerRank>
    requires (x, p) in runners
  {
    runners[(x, p) := runners[(x, p)].(pending := runners[(x, p)].pending - {r})]
  }

  lemma DataRounds(q: RankState, m: DataMessage, log: seq<NewTask>, gone: set<Task>,
                   runners: map<(int, nat), RunnerRank>, r: nat, ranks: seq<nat>)
    requires RankRounds(q, log, gone, runners, r, ranks) && m.rank in ranks
    requires (m.runner, m.rank) in runners && r in runners[(m.runner, m.rank)].pending
    ensures RankRounds(HandleData(q, m), log, gone, Without(runners, r, m.runner, m.rank), r, ranks)
  {
    HandleDataFrame(q, m);
    var runners' := Without(runners, r, m.runner, m.rank);
    forall x, p | p in ranks ensures ContactAt(HandleData(q, m), log, gone, runners', r, x, p) {
      var stage := StageOf(runners, r, x, p);
      assert ContactAt(q, log, gone, runners, r, x, p);
      if (x, p) == (m.runner, m.rank) {
        DataContact(q, m, log, gone, stage);
      } else {
        DataElsewhere(q, m, x, p);
        ContactFrame(q, HandleData(q, m), log, gone, stage, x, p);
      }
    }
  }

  lemma NewStepRounds(q: RankState, ensembleSize: nat, nsteps: int, log: seq<NewTask>, gone: set<Task>,
                      runners: map<(int, nat), RunnerRank>, runners': map<(int, nat), RunnerRank>,
                      r: nat, ranks: seq<nat>)
    requires RankRounds(q, log, gone, runners, r, ranks) && LinkInvariant(q, ranks)
    requires q.scheduled == [] && q.running == [] && nsteps > 0
    requires runners' == map k | k in runners :: runners[k].(rounds := 0)
    ensures RankRounds(InitNewTimestep(q, ensembleSize, nsteps), [], q.killed, runners', r, ranks)
  {
    forall x, p | p in ranks
      ensures ContactAt(InitNewTimestep(q, ensembleSize, nsteps), [], q.killed, runners', r, x, p)
    {
      assert ContactAt(q, log, gone, runners, r, x, p);
      NewStepContact(q, ranks, ensembleSize, nsteps, log, gone, StageOf(runners, r, x, p), x, p);
    }
  }

  // ----- the cluster -------------------------------------------------------

  /** All but rank r is the same, and there may be new tasks on their way. */
  ghost predicate OthersSame(cfg: Config, c: Cluster, c': Cluster, r: nat) {
    && WellFormed(cfg, c) && WellFormed(cfg, c') && |c'.ranks| == |c.ranks|
    && c'.gone == c.gone && c.issued <= c'.issued && c'.ranks[0].step == c.ranks[0].step
    && (forall k :: 0 <= k < |c.ranks| && k != r ==> c'.ranks[k] == c.ranks[k] && SeenBy(c', k) == SeenBy(c, k))
  }

  lemma MembersKept(log: seq<NewTask>, log': seq<NewTask>, x: int)
    requires log <= log'
    ensures MembersFor(log, x) <= MembersFor(log', x)
  {
    MembersGrow(log, log'[|log|..], x);
    assert log' == log + log'[|log|..];
  }

  lemma RegistersKept(cfg: Config, c: Cluster, c': Cluster)
    requires |c.ranks| > 0 && |c'.ranks| > 0 && RegistersSound(cfg, c) && c.issued <= c'.issued
    requires c'.ranks[0].step == c.ranks[0].step && c'.runners == c.runners
    ensures RegistersSound(cfg, c')
  {
    forall x, p | (x, p) in c'.runners
      ensures RegisterSound(ServersOf(cfg, p), MembersFor(c'.issued, x), c'.ranks[0].step, c'.runners[(x, p)])
    {
      MembersKept(c.issued, c'.issued, x);
    }
  }

  lemma RoundsChanged(cfg: Config, c: Cluster, c': Cluster, r: nat)
    requires OthersSame(cfg, c, c', r) && c'.runners == c.runners && RoundsSound(cfg, c)
    requires r < |c.ranks| ==> RoundsAt(cfg, c', r)
    ensures RoundsSound(cfg, c')
  {
    forall k | 0 <= k < |c'.ranks| ensures RoundsAt(cfg, c', k) {
      if k != r {
        assert RoundsAt(cfg, c, k);
      }
    }
    RegistersKept(cfg, c, c');
  }

  /** One rank has changed, and has seen this log of the same tasks. */
  lemma RankMoved(cfg: Config, c: Cluster, c': Cluster, r: nat, q: RankState, log: seq<NewTask>)
    requires WellFormed(cfg, c) && WellFormed(cfg, c') && RoundsSound(cfg, c)
    requires r < |c.ranks| && c'.ranks == c.ranks[r := q] && q.step == c.ranks[r].step
    requires c'.issued == c.issued && c'.runners == c.runners && c'.gone == c.gone
    requires c'.newTasks == c.newTasks[r := c'.newTasks[r]] && SeenBy(c', r) == log
    requires RankRounds(q, log, c.gone, c.runners, r, cfg.ranks[r])
    ensures RoundsSound(cfg, c')
  {
    assert RoundsAt(cfg, c', r);
    RoundsChanged(cfg, c, c', r);
  }

  /** The message of a runner rank has reached rank r. */
  lemma DeliveredRounds(cfg: Config, c: Cluster, r: nat, x: int, p: nat)
    requires WellFormed(cfg, c) && RoundsSound(cfg, c) && r < |c.ranks| && IsUnderWay(cfg, c, r, x, p)
    requires HandleData(c.ranks[r], MessageOf(c, x, p)).step == c.ranks[r].step
    ensures var c' := Delivered(c, r, x, p).(ranks := c.ranks[r := HandleData(c.ranks[r], MessageOf(c, x, p))]);
            WellFormed(cfg, c') && RoundsSound(cfg, c')
  {
    var c' := Delivered(c, r, x, p).(ranks := c.ranks[r := HandleData(c.ranks[r], MessageOf(c, x, p))]);
    assert RoundsAt(cfg, c, r);
    DataRounds(c.ranks[r], MessageOf(c, x, p), SeenBy(c, r), c.gone, c.runners, r, cfg.ranks[r]);
    forall k | 0 <= k < |c'.ranks| ensures RoundsAt(cfg, c', k) {
      if k != r {
        assert RoundsAt(cfg, c, k);
        OtherStages(c.ranks[k], SeenBy(c, k), c.gone, c.runners, c'.runners, k, cfg.ranks[k]);
      }
    }
  }

  lemma OtherStages(q: RankState, log: seq<NewTask>, gone: set<Task>, runners: map<(int, nat), RunnerRank>,
                    runners': map<(int, nat), RunnerRank>, r: nat, ranks: seq<nat>)
    requires RankRounds(q, log, gone, runners, r, ranks)
    requires forall x, p :: StageOf(runners', r, x, p) == StageOf(runners, r, x, p)
    ensures RankRounds(q, log, gone, runners', r, ranks)
  {
    forall x, p | p in ranks ensures ContactAt(q, log, gone, runners', r, x, p) {
      assert ContactAt(q, log, gone, runners, r, x, p);
    }
  }

  // ----- the runner ranks move ---------------------------------------------

  /** It is enough to look at the connections of the runner rank that has moved. */
  lemma RunnerMoved(cfg: Config, c: Cluster, x: int, p: nat, rr: RunnerRank)
    requires WellFormed(cfg, c) && RoundsSound(cfg, c)
    requires RegisterSound(ServersOf(cfg, p), MembersFor(c.issued, x), c.ranks[0].step, rr)
    requires forall r :: 0 <= r < |c.ranks| && p in cfg.ranks[r] ==>
               ContactAt(c.ranks[r], SeenBy(c, r), c.gone, c.runners[(x, p) := rr], r, x, p)
    ensures WellFormed(cfg, c.(runners := c.runners[(x, p) := rr]))
    ensures RoundsSound(cfg, c.(runners := c.runners[(x, p) := rr]))
  {
    var c' := c.(runners := c.runners[(x, p) := rr]);
    forall r | 0 <= r < |c'.ranks| ensures RoundsAt(cfg, c', r) {
      assert RoundsAt(cfg, c, r);
      forall y, o | o in cfg.ranks[r] ensures ContactAt(c.ranks[r], SeenBy(c, r), c.gone, c'.runners, r, y, o) {
        assert ContactAt(c.ranks[r], SeenBy(c, r), c.gone, c.runners, r, y, o);
      }
    }
  }

  lemma ConnectRounds(cfg: Config, c: Cluster, x: int, p: nat)
    requires WellFormed(cfg, c) && RoundsSound(cfg, c) && (x, p) !in c.runners
    ensures WellFormed(cfg, Contacting(cfg, c, x, p)) && RoundsSound(cfg, Contacting(cfg, c, x, p))
  {
    var rr := RunnerRank(-1, 0, ServersOf(cfg, p), 0, {});
    forall r | 0 <= r < |c.ranks| && p in cfg.ranks[r]
      ensures ContactAt(c.ranks[r], SeenBy(c, r), c.gone, c.runners[(x, p) := rr], r, x, p)
    {
      assert RoundsAt(cfg, c, r);
      assert ContactAt(c.ranks[r], SeenBy(c, r), c.gone, c.runners, r, x, p);
    }
    RunnerMoved(cfg, c, x, p, rr);
  }

  /** Having all answers, the runner rank takes the member of any of them for the one of all. */
  lemma AnswersAgree(q: RankState, ranks: seq<nat>, log: seq<NewTask>, gone: set<Task>, rounds: nat, rounds': nat,
                     x: int, p: nat)
    requires LinkInvariant(q, ranks) && gone <= q.killed
    requires Contact(q, log, gone, Reached(rounds), x, p) && HasWork(q, x, p)
    requires rounds' == rounds + 1 || IsDead(gone, x)
    requires rounds' > 0 || IsDead(gone, x)
    ensures forall first :: Contact(q, log, gone, Coming(first, rounds'), x, p)
  {
    if IsDead(gone, x) {
      assert IsDead(q.killed, x);
    }
  }

  lemma NextRoundRounds(cfg: Config, c: Cluster, x: int, p: nat, from: nat)
    requires WellFormed(cfg, c) && RoundsSound(cfg, c) && (x, p) in c.runners && c.runners[(x, p)].pending == {}
    requires forall r :: 0 <= r < |c.ranks| ==>
               LinkInvariant(c.ranks[r], cfg.ranks[r]) && c.ranks[r].step == c.ranks[0].step
    requires from in ServersOf(cfg, p) && HasAnswers(cfg, c, x, p)
    ensures var c' := GoingOn(cfg, c, x, p, c.ranks[from].orders[(x, p)]);
            WellFormed(cfg, c') && RoundsSound(cfg, c')
  {
    var order, rounds := c.ranks[from].orders[(x, p)], c.runners[(x, p)].rounds;
    var rr := GoingOn(cfg, c, x, p, order).runners[(x, p)];
    assert RoundsAt(cfg, c, from);
    assert ContactAt(c.ranks[from], SeenBy(c, from), c.gone, c.runners, from, x, p);
    MembersKept(SeenBy(c, from), c.issued, x);
    forall r | 0 <= r < |c.ranks| && p in cfg.ranks[r]
      ensures ContactAt(c.ranks[r], SeenBy(c, r), c.gone, c.runners[(x, p) := rr], r, x, p)
    {
      assert RoundsAt(cfg, c, r) && r in ServersOf(cfg, p);
      assert ContactAt(c.ranks[r], SeenBy(c, r), c.gone, c.runners, r, x, p);
      AnswersAgree(c.ranks[r], cfg.ranks[r], SeenBy(c, r), c.gone, rounds, rr.rounds, x, p);
    }
    RunnerMoved(cfg, c, x, p, rr);
  }

  // ----- what it is for ----------------------------------------------------

  /** A message that reaches a server rank fits the order given there. */
  lemma MessageIsExpected(cfg: Config, c: Cluster, r: nat, x: int, p: nat)
    requires WellFormed(cfg, c) && RoundsSound(cfg, c) && r < |c.ranks| && IsUnderWay(cfg, c, r, x, p)
    requires LinkInvariant(c.ranks[r], cfg.ranks[r]) && c.ranks[r].step == c.ranks[0].step
    requires !IsDead(c.ranks[r].killed, x)
    ensures IsExpected(c.ranks[r], MessageOf(c, x, p))
  {
    assert RoundsAt(cfg, c, r);
    assert ContactAt(c.ranks[r], SeenBy(c, r), c.gone, c.runners, r, x, p);
    MembersKept(SeenBy(c, r), c.issued, x);
  }

  /** Two server ranks that have answered a runner rank equally often have ordered the same. */
  lemma EqualAnswers(q: RankState, log: seq<NewTask>, ranks: seq<nat>, q': RankState, log': seq<NewTask>,
                     issued: seq<NewTask>, gone: set<Task>, rounds: nat, x: int, p: nat)
    requires Contact(q, log, gone, Reached(rounds), x, p) && HasWork(q, x, p)
    requires Contact(q', log', gone, Reached(rounds), x, p) && HasWork(q', x, p)
    requires log <= issued && log' <= issued && q'.step == q.step
    requires LinkInvariant(q, ranks) && !IsDead(q.killed, x) && gone <= q.killed
    ensures q'.orders[(x, p)] == q.orders[(x, p)]
  {
    MembersKept(log, issued, x);
    MembersKept(log', issued, x);
    assert IsDead(gone, x) ==> IsDead(q.killed, x);
  }
}
