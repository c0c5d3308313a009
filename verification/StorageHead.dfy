/**
  The head process of a runner in the peer-to-peer mode
  (api/p2p/StorageController/storage_controller.cxx): a bounded pool of local states, fed by
  the runner's own results and by states pulled from the global store.
 */
module StorageHeads {
  import opened Integers
  import opened Helpers
  import opened ParticleState
  import opened HeadState

  // ----- checkpoint ids (fti_controller.hpp) -------------------------------

  const MEMBERS := 100000

  function ToCkptId(s: StateId): int { Wrap32(s.t * MEMBERS + s.id) }

  /** Division and remainder round toward zero. */
  function Quotient(a: int, b: int): int
    requires b > 0
  {
    if a >= 0 then a / b else -(-a / b)
  }

  function ToStateId(ckptId: int): StateId {
    StateId(Quotient(ckptId, MEMBERS), ckptId - Quotient(ckptId, MEMBERS) * MEMBERS)
  }

  /** What the assertion in to_ckpt_id and the types allow. */
  predicate IsStateId(s: StateId) {
    0 <= s.t <= MAX_INT && 0 <= s.id < MEMBERS
  }

  /** An id leads back to its state exactly as long as it fits into an int. */
  lemma IdsLeadBack(s: StateId)
    requires IsStateId(s)
    ensures ToStateId(ToCkptId(s)) == s <==> s.t * MEMBERS + s.id <= MAX_INT
  {
  }

  predicate Fits(s: StateId) {
    IsStateId(s) && s.t * MEMBERS + s.id <= MAX_INT
  }

  // ----- the size of the pool ----------------------------------------------

  /** An unsigned difference. */
  function MinusSizeT(a: nat, b: nat): nat
    requires b <= MAX_SIZE_T
  {
    if a >= b then a - b else a + MAX_SIZE_T + 1 - b
  }

  const STORAGE_MAX_PREFETCH := 4

  /** Slots of the pool, for a node that can store so many states. */
  function PoolCapacity(slots: nat): nat
    requires slots >= 3
  {
    var capacity := MinusSizeT(slots, 2);
    var prefetch := MinusSizeT(capacity, 2);
    if prefetch < STORAGE_MAX_PREFETCH then prefetch else STORAGE_MAX_PREFETCH
  }

  /** A node passes the check with three slots, but the pool works, and leaves the four slots alone
      that are set aside, from six slots on: with three it is too large, with four and five too small. */
  lemma SixSlotsAreNeeded(slots: nat)
    requires 3 <= slots <= MAX_SIZE_T
    ensures PoolCapacity(slots) >= 2 && PoolCapacity(slots) + 4 <= slots <==> slots >= 6
    ensures PoolCapacity(3) == 4 && PoolCapacity(4) == 0 && PoolCapacity(5) == 1
    ensures slots >= 4 ==> PoolCapacity(slots) == if slots <= 8 then slots - 4 else 4
  {
  }

  // ----- the head ----------------------------------------------------------

  class StorageHead {
    const capacity: nat
    var usedSlots: int
    var cachedStates: map<int, StateId>
    var local: set<StateId>             // on the node's own disk
    var global: set<StateId>            // on the parallel file system
    var delQ: seq<StateId>
    var lastAssimilationCycle: int
    var pullRequests: seq<StateId>
    ghost var staged: Option<StateId>   // staged, its weight not sent yet

    /** What the others see of the head. */
    ghost function View(): Head
      reads this
    {
      Head(Cached(), staged, delQ, lastAssimilationCycle)
    }

    ghost function Cached(): set<StateId>
      reads this
    {
      ValuesOf(cachedStates)
    }

    static function ValuesOf(m: map<int, StateId>): set<StateId> {
      set k | k in m :: m[k]
    }

    /** The pool counts the cached states, each kept under its id; all of them are there. */
    ghost predicate Counted()
      reads this
    {
      && usedSlots == |cachedStates|
      && (forall k :: k in cachedStates ==> Fits(cachedStates[k]) && ToCkptId(cachedStates[k]) == k)
      && forall k :: k in cachedStates ==> cachedStates[k] in local
    }

    /** Between two events at least one slot is free. */
    ghost predicate Valid()
      reads this
    {
      Counted() && usedSlots < capacity
    }

    constructor (capacity: nat)
      ensures this.capacity == capacity && Counted() && (capacity >= 1 ==> Valid()) && View() == NEW_HEAD
    {
      this.capacity := capacity;
      usedSlots, cachedStates, local, global := 0, map[], {}, {};
      delQ, lastAssimilationCycle, pullRequests, staged := [], 1, [], None;
    }

    function Free(): int
      reads this
    {
      capacity - usedSlots
    }

    /** A pool of no or one slot never has the two free ones that fetching a state waits for; one of
        none cannot even take a result. */
    lemma SmallPoolNeverFree()
      requires Counted() && capacity <= 1
      ensures Free() <= 1 && (capacity == 0 ==> !Valid())
    {
      assert |cachedStates| >= 0;
    }

    /** The pool asserts that it does not overflow ... */
    method TakeSlot()
      requires 0 <= usedSlots < capacity
      modifies this`usedSlots
      ensures usedSlots == old(usedSlots) + 1
    {
      usedSlots := usedSlots + 1;
      assert usedSlots <= capacity;
    }

    /** ... and does not underflow. */
    method FreeSlot()
      requires usedSlots > 0
      modifies this`usedSlots
      ensures usedSlots == old(usedSlots) - 1
    {
      usedSlots := usedSlots - 1;
      assert usedSlots >= 0;
    }

    lemma CachedUnderItsId(s: StateId)
      requires Counted() && Fits(s)
      ensures s in Cached() <==> ToCkptId(s) in cachedStates
      ensures s in Cached() ==> cachedStates[ToCkptId(s)] == s && s in local
    {
      var id := ToCkptId(s);
      IdsLeadBack(s);
      if id in cachedStates {
        IdsLeadBack(cachedStates[id]);
        assert cachedStates[id] in Cached();
      }
      if s in Cached() {
        var k :| k in cachedStates && cachedStates[k] == s;
      }
    }

    lemma {:induction false} AsManyValues(m: map<int, StateId>)
      requires forall k :: k in m ==> Fits(m[k]) && ToCkptId(m[k]) == k
      ensures |ValuesOf(m)| == |m|
      decreases |m|
    {
      if m != map[] {
        var k := AnyOf(m.Keys);
        var rest := m - {k};
        AsManyValues(rest);
        assert m.Keys == rest.Keys + {k};
        assert ValuesOf(m) == ValuesOf(rest) + {m[k]};
        assert m[k] !in ValuesOf(rest);
      }
    }

    /** The server answers with a cached state, but not with one that is kept for the runner's jobs.
        When all are kept there is nothing to choose from: the server fails. */
    method AskServer(kept: set<StateId>) returns (answer: Option<StateId>)
      requires Counted()
      ensures answer.None? <==> Cached() <= kept
      ensures answer.Some? ==> answer.value in Cached() && answer.value !in kept && Fits(answer.value)
    {
      var deleteFrom := ValuesOf(cachedStates) - kept;
      if deleteFrom == {} {
        assert forall x :: x in Cached() && x !in kept ==> x in deleteFrom;
        return None;
      }
      var s := PickFrom(deleteFrom);
      assert s in Cached();
      return Some(s);
    }

    lemma WithoutOne(s: StateId)
      requires Counted() && Fits(s) && s in Cached()
      ensures ValuesOf(cachedStates - {ToCkptId(s)}) == Cached() - {s}
      ensures |cachedStates - {ToCkptId(s)}| == |cachedStates| - 1
    {
      var id := ToCkptId(s);
      CachedUnderItsId(s);
      var rest := cachedStates - {id};
      assert cachedStates.Keys == rest.Keys + {id};
      forall x ensures x in ValuesOf(rest) <==> x in Cached() - {s} {
        if x in Cached() - {s} {
          var k :| k in cachedStates && cachedStates[k] == x;
          assert k in rest;
        }
      }
    }

    lemma WithOneMore(s: StateId)
      requires Counted() && Fits(s) && s !in Cached()
      ensures ValuesOf(cachedStates[ToCkptId(s) := s]) == Cached() + {s}
      ensures |cachedStates[ToCkptId(s) := s]| == |cachedStates| + 1
    {
      var id := ToCkptId(s);
      CachedUnderItsId(s);
      var more := cachedStates[id := s];
      assert more.Keys == cachedStates.Keys + {id};
      forall x ensures x in ValuesOf(more) <==> x in Cached() + {s} {
        if x in Cached() {
          var k :| k in cachedStates && cachedStates[k] == x;
          assert k in more && more[k] == x;
        }
        assert more[id] == s;
      }
    }

    /** The state the server names is deleted; without an answer nothing is. */
    method DeleteRequest(kept: set<StateId>) returns (deleted: Option<StateId>)
      requires Counted()
      modifies this`usedSlots, this`cachedStates, this`local
      ensures Counted()
      ensures deleted.None? <==> old(Cached()) <= kept
      ensures deleted.None? ==> View() == old(View()) && local == old(local) && usedSlots == old(usedSlots)
      ensures deleted.Some? ==>
                && deleted.value in old(Cached()) && deleted.value !in kept
                && local == old(local) - {deleted.value} && usedSlots == old(usedSlots) - 1
                && View() == Dropped(old(View()), deleted.value)
                && Cached() == old(Cached()) - {deleted.value}
    {
      deleted := AskServer(kept);
      if deleted.Some? {
        Erase(deleted.value);
      }
    }

    method Erase(s: StateId)
      requires Counted() && Fits(s) && s in Cached()
      modifies this`usedSlots, this`cachedStates, this`local
      ensures Counted() && usedSlots == old(usedSlots) - 1
      ensures local == old(local) - {s} && View() == Dropped(old(View()), s)
    {
      CachedUnderItsId(s);
      WithoutOne(s);
      local := local - {s};
      FreeSlot();
      cachedStates := cachedStates - {ToCkptId(s)};
    }

    method Insert(s: StateId)
      requires Counted() && Fits(s) && s in local && s !in Cached() && usedSlots < capacity
      modifies this`usedSlots, this`cachedStates
      ensures Counted() && usedSlots == old(usedSlots) + 1
      ensures Cached() == old(Cached()) + {s}
    {
      WithOneMore(s);
      cachedStates := cachedStates[ToCkptId(s) := s];
      TakeSlot();
    }

    /** The result is local, and is copied to the global store. */
    method StageOut(s: StateId)
      requires Counted()
      modifies this`local, this`global, this`staged
      ensures Counted() && View() == Staged(old(View()), s)
      ensures local == old(local) + {s} && global == old(global) + {s}
    {
      local := local + {s};
      global := global + {s};
      staged := Some(s);
    }

    /** The weight of a result has gone to the server and has been acknowledged. */
    method PushWeightToServer(s: StateId)
      modifies this`lastAssimilationCycle, this`delQ, this`staged
      ensures lastAssimilationCycle == if s.t > old(lastAssimilationCycle) then s.t else old(lastAssimilationCycle)
      ensures delQ == old(delQ) + [s] && staged == None
    {
      if s.t > lastAssimilationCycle {
        lastAssimilationCycle := s.t;
      }
      delQ := delQ + [s];
      staged := None;
    }

    method SendResult(s: StateId)
      requires Counted() && Fits(s) && s in local && s !in Cached() && usedSlots < capacity && staged == Some(s)
      modifies this`usedSlots, this`cachedStates, this`lastAssimilationCycle, this`delQ, this`staged
      ensures Counted() && usedSlots == old(usedSlots) + 1
      ensures View() == Sent(old(View()))
    {
      PushWeightToServer(s);
      Insert(s);
    }

    /** The server is told what is cached, and answers with states to fetch. */
    method PrefetchRequest(pulls: seq<StateId>) returns (told: set<StateId>)
      modifies this`pullRequests
      ensures told == Cached() && pullRequests == old(pullRequests) + pulls
    {
      told := ValuesOf(cachedStates);
      pullRequests := pullRequests + pulls;
    }

    /** A result of the runner: staged to the global store before its weight is sent; if the pool is
        full then, one state goes; and then the server is asked what to fetch.  `stuck` says that the
        server could not name a state to delete. */
    method RequestPost(s: StateId, kept: set<StateId>, pulls: seq<StateId>)
      returns (deleted: seq<StateId>, told: set<StateId>, stuck: bool)
      requires Valid() && Fits(s) && s !in Cached()
      modifies this`usedSlots, this`cachedStates, this`local, this`global, this`lastAssimilationCycle
      modifies this`delQ, this`staged, this`pullRequests
      ensures Counted() && (!stuck ==> Valid()) && global == old(global) + {s}
      ensures View() == DroppedAll(Sent(Staged(old(View()), s)), deleted)
      ensures Cached() == old(Cached()) + {s} - Elements(deleted)
      ensures local == old(local) + {s} - Elements(deleted)
      ensures delQ == old(delQ) + [s]
      ensures lastAssimilationCycle >= s.t && lastAssimilationCycle >= old(lastAssimilationCycle)
      ensures lastAssimilationCycle == s.t || lastAssimilationCycle == old(lastAssimilationCycle)
      ensures stuck <==> old(usedSlots) + 1 == capacity && old(Cached()) + {s} <= kept
      ensures |deleted| == (if old(usedSlots) + 1 == capacity && !stuck then 1 else 0)
      ensures forall d :: d in deleted ==> d !in kept
      ensures !stuck ==> told == Cached() && pullRequests == old(pullRequests) + pulls
    {
      StageOut(s);
      SendResult(s);
      deleted, told, stuck := [], {}, false;
      if Free() == 0 {
        var d := DeleteRequest(kept);
        if d.None? {
          assert Elements([]) == {};
          return [], {}, true;
        }
        deleted := [d.value];
        assert [d.value][..0] == [] && Elements(deleted) == {d.value};
      }
      DropsCached(Sent(Staged(old(View()), s)), deleted);
      told := PrefetchRequest(pulls);
    }

    /** The states kept that are cached are as many, whatever else is deleted. */
    lemma RoomIsLeft(kept: set<StateId>)
      requires Counted()
      ensures |Cached()| == usedSlots
      ensures |kept * Cached()| <= usedSlots
      ensures Cached() <= kept ==> |kept * Cached()| == usedSlots
    {
      AsManyValues(cachedStates);
      SubsetSize(kept * Cached(), Cached());
      if Cached() <= kept {
        assert kept * Cached() == Cached();
      }
    }

    /** Deletes until two slots are free.  That works if and only if the kept states among the cached
        ones leave so many; else the server comes to have nothing left to choose from. */
    method MakeRoom(kept: set<StateId>) returns (deleted: seq<StateId>, stuck: bool)
      requires Valid()
      modifies this`usedSlots, this`cachedStates, this`local
      ensures Valid() && View() == DroppedAll(old(View()), deleted)
      ensures Cached() == old(Cached()) - Elements(deleted) && local == old(local) - Elements(deleted)
      ensures forall d :: d in deleted ==> d !in kept && d in old(Cached())
      ensures stuck <==> |kept * old(Cached())| + 1 >= capacity
      ensures if stuck then Cached() <= kept else Free() >= 2
      ensures old(Free()) >= 2 ==> deleted == []
    {
      deleted, stuck := DeleteUntilFree(kept);
      DropsCached(old(View()), deleted);
      assert kept * Cached() == kept * old(Cached());
      RoomIsLeft(kept);
    }

    method DeleteUntilFree(kept: set<StateId>) returns (deleted: seq<StateId>, stuck: bool)
      requires Valid()
      modifies this`usedSlots, this`cachedStates, this`local
      ensures Valid() && Elements(deleted) !! kept && Elements(deleted) <= old(Cached())
      ensures Cached() == old(Cached()) - Elements(deleted) && local == old(local) - Elements(deleted)
      ensures if stuck then Cached() <= kept && Free() <= 1 else Free() >= 2
      ensures old(Free()) >= 2 ==> deleted == []
    {
      deleted, stuck := [], false;
      while Free() <= 1 && !stuck
        invariant Valid() && Elements(deleted) !! kept && Elements(deleted) <= old(Cached())
        invariant Cached() == old(Cached()) - Elements(deleted) && local == old(local) - Elements(deleted)
        invariant stuck ==> Cached() <= kept && Free() <= 1
        invariant old(Free()) >= 2 ==> deleted == [] && usedSlots == old(usedSlots)
        decreases usedSlots, !stuck
      {
        var d := DeleteRequest(kept);
        if d.None? {
          stuck := true;
        } else {
          OneMoreElement(deleted, d.value);
          deleted := deleted + [d.value];
        }
      }
    }

    /** Fetches a state from the global store, unless it is there. */
    method PullHead(s: StateId, kept: set<StateId>) returns (deleted: seq<StateId>, stuck: bool)
      requires Valid() && Fits(s)
      requires s in local || s in global
      modifies this`usedSlots, this`cachedStates, this`local
      ensures Valid() && (!stuck ==> s in local)
      ensures stuck <==> s !in old(local) && |kept * old(Cached())| + 1 >= capacity
      ensures !stuck ==> View() == if s in old(local) then old(View()) else Fetched(DroppedAll(old(View()), deleted), s)
      ensures !stuck && s !in old(local) ==>
                && Cached() == old(Cached()) - Elements(deleted) + {s}
                && local == old(local) - Elements(deleted) + {s}
      ensures forall d :: d in deleted ==> d !in kept
      ensures forall x :: x in kept && x in old(Cached()) ==> x in Cached()
    {
      deleted, stuck := [], false;
      if s in local { return; }
      CachedUnderItsId(s);
      deleted, stuck := MakeRoom(kept);
      DropsCached(old(View()), deleted);
      if !stuck {
        local := local + {s};
        Insert(s);
      }
    }

    /** Works off the first pull request. */
    method RequestPull(kept: set<StateId>) returns (stuck: bool)
      requires Valid()
      requires forall s :: s in pullRequests ==> Fits(s) && (s in local || s in global)
      modifies this`usedSlots, this`cachedStates, this`local, this`pullRequests
      ensures Valid()
      ensures stuck <==> old(pullRequests) != [] && old(pullRequests)[0] !in old(local)
                         && |kept * old(Cached())| + 1 >= capacity
      ensures old(pullRequests) != [] && !stuck ==>
                pullRequests == old(pullRequests)[1..] && old(pullRequests)[0] in local
      ensures old(pullRequests) == [] ==> pullRequests == [] && View() == old(View())
      ensures forall x :: x in kept && x in old(Cached()) ==> x in Cached()
    {
      stuck := false;
      if pullRequests != [] {
        if pullRequests[0] !in local {
          var deleted;
          deleted, stuck := PullHead(pullRequests[0], kept);
          if stuck { return; }
        }
        pullRequests := pullRequests[1..];
      }
    }

    static lemma NextOld(q: seq<StateId>, n: nat)
      requires n < |q|
      ensures q[n..][1..] == q[n + 1..] && Front(q, n + 1) == Front(q, n) + {q[n]}
    {
      assert q[..n + 1] == q[..n] + [q[n]];
    }

    /** Every ten seconds: states of old cycles leave the global store, in the order of their posting. */
    method CleanUp()
      modifies this`delQ, this`global
      ensures View() == Cleaned(old(View())) && global == old(global) - Outdated(old(View()))
      ensures |delQ| <= |old(delQ)| && delQ == old(delQ)[|old(delQ)| - |delQ|..]
      ensures delQ != [] ==> delQ[0].t >= lastAssimilationCycle - 1
      ensures forall i :: 0 <= i < |old(delQ)| - |delQ| ==> old(delQ)[i].t < lastAssimilationCycle - 1
      ensures forall s :: s in global <==> s in old(global) && s !in old(delQ)[..|old(delQ)| - |delQ|]
    {
      ghost var all, n := delQ, 0;
      while delQ != [] && delQ[0].t < lastAssimilationCycle - 1
        invariant n <= Old(all, lastAssimilationCycle) && delQ == all[n..]
        invariant global == old(global) - Front(all, n)
        decreases |delQ|
      {
        NextOld(all, n);
        global := global - {delQ[0]};
        delQ := delQ[1..];
        n := n + 1;
      }
      assert n == Old(all, lastAssimilationCycle);
    }
  }
}
