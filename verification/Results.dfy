/**
  Where the results come from that the server accepts: a runner rank has computed them from the
  parts of one member, although these have come from different server ranks.
 */
module Results {
  import opened TaskState
  import opened RankInvariant
  import opened ServerCluster
  import opened RunnerRounds
  import opened RunnerRegisters
  import opened ClusterProof
  import opened ClusterRuns
  import opened ServerTheorems
  import opened DeadRunners

  /** One of the server ranks of this runner rank takes the runner for alive. */
  ghost predicate AliveSomewhere(cfg: Config, c: Cluster, x: int, p: nat) {
    exists r :: r in ServersOf(cfg, p) && r < |c.ranks| && !IsDead(c.ranks[r].killed, x)
  }

  /** All answers it works with say the same, and so does its register. */
  ghost predicate UnmixedAt(cfg: Config, c: Cluster, x: int, p: nat) {
    (x, p) in c.runners && c.runners[(x, p)].rounds > 0 && AliveSomewhere(cfg, c, x, p) ==>
      var rr := c.runners[(x, p)];
      rr.answers == {Work(rr.state, rr.step)}
  }

  ghost predicate Unmixed(cfg: Config, c: Cluster) {
    forall x, p :: UnmixedAt(cfg, c, x, p)
  }

  /** Nobody comes back to life. */
  lemma AliveBefore(cfg: Config, c: Cluster, e: Event, x: int, p: nat)
    requires Invariant(cfg, c) && Step(cfg, c, e).Next? && AliveSomewhere(cfg, Step(cfg, c, e).c, x, p)
    ensures AliveSomewhere(cfg, c, x, p)
  {
    var c' := Step(cfg, c, e).c;
    var r :| r in ServersOf(cfg, p) && r < |c'.ranks| && !IsDead(c'.ranks[r].killed, x);
    assert SoundAt(cfg, c, r);
    StepSafe(cfg, c, e, r);
    assert c.ranks[r].killed <= c'.ranks[r].killed;
    assert IsDead(c.ranks[r].killed, x) ==> IsDead(c'.ranks[r].killed, x);
  }

  /** A round begins. */
  lemma NextRoundUnmixed(cfg: Config, c: Cluster, x: int, p: nat, from: nat)
    requires Invariant(cfg, c) && (x, p) in c.runners && c.runners[(x, p)].pending == {}
    requires from in ServersOf(cfg, p) && HasAnswers(cfg, c, x, p) && AliveSomewhere(cfg, c, x, p)
    ensures AnswersTo(cfg, c, x, p) == {c.ranks[from].orders[(x, p)]}
  {
    var k :| k in ServersOf(cfg, p) && k < |c.ranks| && !IsDead(c.ranks[k].killed, x);
    forall r | r in ServersOf(cfg, p) ensures c.ranks[r].orders[(x, p)] == c.ranks[k].orders[(x, p)] {
      SameOrders(cfg, c, x, p, k, r);
    }
    assert c.ranks[from].orders[(x, p)] in AnswersTo(cfg, c, x, p);
  }

  /** What an event makes of a runner rank: nothing, a message less, no rounds, or the next round. */
  ghost predicate Moves(cfg: Config, c: Cluster, c': Cluster, x: int, p: nat) {
    (x, p) in c'.runners && c'.runners[(x, p)].rounds > 0 ==>
      (x, p) in c.runners &&
      var rr, rr' := c.runners[(x, p)], c'.runners[(x, p)];
      || (rr'.state == rr.state && rr'.step == rr.step && rr'.answers == rr.answers && rr'.rounds == rr.rounds)
      || exists from :: Begins(cfg, c, x, p, from, rr')
  }

  ghost predicate Begins(cfg: Config, c: Cluster, x: int, p: nat, from: nat, rr: RunnerRank) {
    && |c.ranks| == |cfg.ranks| && (x, p) in c.runners && c.runners[(x, p)].pending == {}
    && from in ServersOf(cfg, p) && HasAnswers(cfg, c, x, p)
    && rr.answers == AnswersTo(cfg, c, x, p)
    && c.ranks[from].orders[(x, p)] == Work(rr.state, rr.step)
  }

  lemma NextRoundMoves(cfg: Config, c: Cluster, e: Event, x: int, p: nat)
    requires WellFormed(cfg, c) && e.NextRound? && Step(cfg, c, e).Next?
    ensures Moves(cfg, c, Step(cfg, c, e).c, x, p)
  {
    var c' := Step(cfg, c, e).c;
    if c' != c && (e.runner, e.rank) == (x, p) {
      assert Begins(cfg, c, x, p, e.from, c'.runners[(x, p)]);
    }
  }

  lemma MessageMoves(cfg: Config, c: Cluster, e: Event, x: int, p: nat)
    requires WellFormed(cfg, c) && (e.Connect? || e.Data?) && Step(cfg, c, e).Next?
    ensures Moves(cfg, c, Step(cfg, c, e).c, x, p)
  {
  }

  lemma UpdateMoves(cfg: Config, c: Cluster, e: Event, x: int, p: nat)
    requires WellFormed(cfg, c) && e.Update? && Step(cfg, c, e).Next?
    ensures Moves(cfg, c, Step(cfg, c, e).c, x, p)
  {
  }

  lemma StepMoves(cfg: Config, c: Cluster, e: Event, x: int, p: nat)
    requires WellFormed(cfg, c) && Step(cfg, c, e).Next?
    ensures Moves(cfg, c, Step(cfg, c, e).c, x, p)
  {
    match e
    case NextRound(_, _, _) => NextRoundMoves(cfg, c, e, x, p);
    case Connect(_, _) => MessageMoves(cfg, c, e, x, p);
    case Data(_, _, _, _) => MessageMoves(cfg, c, e, x, p);
    case Update(_, _) => UpdateMoves(cfg, c, e, x, p);
    case _ =>
  }

  lemma StepUnmixed(cfg: Config, c: Cluster, e: Event)
    requires Invariant(cfg, c) && Unmixed(cfg, c) && Step(cfg, c, e).Next?
    ensures Unmixed(cfg, Step(cfg, c, e).c)
  {
    var c' := Step(cfg, c, e).c;
    forall x, p ensures UnmixedAt(cfg, c', x, p) {
      if AliveSomewhere(cfg, c', x, p) {
        AliveBefore(cfg, c, e, x, p);
        StepMoves(cfg, c, e, x, p);
        MovedUnmixed(cfg, c, c', x, p);
      }
    }
  }

  lemma MovedUnmixed(cfg: Config, c: Cluster, c': Cluster, x: int, p: nat)
    requires Invariant(cfg, c) && UnmixedAt(cfg, c, x, p) && AliveSomewhere(cfg, c, x, p)
    requires Moves(cfg, c, c', x, p)
    ensures UnmixedAt(cfg, c', x, p)
  {
    if (x, p) in c'.runners && c'.runners[(x, p)].rounds > 0 {
      var rr' := c'.runners[(x, p)];
      if from :| Begins(cfg, c, x, p, from, rr') {
        NextRoundUnmixed(cfg, c, x, p, from);
      }
    }
  }

  lemma {:induction false} RunUnmixed(cfg: Config, c: Cluster, events: seq<Event>)
    requires Invariant(cfg, c) && Unmixed(cfg, c)
    ensures Run(cfg, c, events).Next? ==> Unmixed(cfg, Run(cfg, c, events).c)
    decreases |events|
  {
    if events != [] && Step(cfg, c, events[0]).Next? {
      StepKeeps(cfg, c, events[0]);
      StepUnmixed(cfg, c, events[0]);
      RunUnmixed(cfg, Step(cfg, c, events[0]).c, events[1..]);
    }
  }

  /** The message that a server rank accepts from a runner it has not killed is the first of the runner
      rank, or a result of one round: all server ranks have given the runner rank the member and the
      step that the message names, and nothing else. */
  lemma ResultsAreUnmixed(cfg: Config, c: Cluster, r: nat, x: int, p: nat)
    requires ValidConfig(cfg) && Reachable(cfg, c)
    requires r < |c.ranks| && IsUnderWay(cfg, c, r, x, p) && !IsDead(c.ranks[r].killed, x)
    ensures var m, rr := MessageOf(c, x, p), c.runners[(x, p)];
            if rr.rounds == 0 then m.state == -1 && m.step == 0
            else rr.answers == {Work(m.state, m.step)} && m.step == c.ranks[r].step
  {
    var step, events :| step > 0 && Run(cfg, Initial(cfg, step), events) == Next(c);
    InitialIsSound(cfg, step);
    assert Unmixed(cfg, Initial(cfg, step));
    RunUnmixed(cfg, Initial(cfg, step), events);
    assert UnmixedAt(cfg, c, x, p);
    assert r in ServersOf(cfg, p);
    ReachableIsSound(cfg, c);
    RoundOfMessage(cfg, c, r, x, p);
  }

  lemma RoundOfMessage(cfg: Config, c: Cluster, r: nat, x: int, p: nat)
    requires Invariant(cfg, c) && r < |c.ranks| && IsUnderWay(cfg, c, r, x, p) && !IsDead(c.ranks[r].killed, x)
    ensures var rr := c.runners[(x, p)];
            if rr.rounds == 0 then rr.state == -1 && rr.step == 0 else rr.step == c.ranks[r].step
  {
    ConnectionIsSound(cfg, c, r, x, p);
    assert RegistersSound(cfg, c);
  }
}
