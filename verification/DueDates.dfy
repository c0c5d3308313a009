/**
  The two helper classes of the particle server: the due dates, which are kept in three
  dictionaries for quicker access, and what is known about the runners' caches.
 */
module DueDateIndex {
  import opened Dictionaries
  import opened Helpers
  import opened ParticleState

  ghost predicate JobsDiffer(entries: set<Entry>) {
    forall e, f :: e in entries && f in entries && e.job == f.job ==> e == f
  }

  // ----- the three indexes -------------------------------------------------

  ghost predicate ByTime(d: map<int, seq<(int, StateId, StateId)>>, entries: set<Entry>) {
    && NoEmptyLists(d)
    && forall t, r, j, p :: Occurrences(d, t, (r, j, p)) == if Entry(t, r, j, p) in entries then 1 else 0
  }

  ghost predicate ByRunner(d: map<int, seq<(int, StateId, StateId)>>, entries: set<Entry>) {
    forall r, t, j, p :: Occurrences(d, r, (t, j, p)) == if Entry(t, r, j, p) in entries then 1 else 0
  }

  function Pairs(entries: set<Entry>, parent: StateId, runner: int): set<Entry> {
    set e | e in entries && e.parent == parent && e.runner == runner
  }

  ghost predicate ByParent(d: map<StateId, seq<int>>, entries: set<Entry>) {
    && NoEmptyLists(d)
    && forall p, r :: Occurrences(d, p, r) == |Pairs(entries, p, r)|
  }

  lemma ByTimeChanges(d: map<int, seq<(int, StateId, StateId)>>, d': map<int, seq<(int, StateId, StateId)>>,
                      entries: set<Entry>, e: Entry)
    requires OneMore(d, d', e.due, (e.runner, e.job, e.parent)) && NoEmptyLists(d) && NoEmptyLists(d')
    requires e !in entries
    ensures ByTime(d, entries) <==> ByTime(d', entries + {e})
  {
  }

  lemma ByRunnerChanges(d: map<int, seq<(int, StateId, StateId)>>, d': map<int, seq<(int, StateId, StateId)>>,
                        entries: set<Entry>, e: Entry)
    requires OneMore(d, d', e.runner, (e.due, e.job, e.parent))
    requires e !in entries
    ensures ByRunner(d, entries) <==> ByRunner(d', entries + {e})
  {
  }

  lemma PairsChange(entries: set<Entry>, e: Entry, p: StateId, r: int)
    requires e !in entries
    ensures |Pairs(entries + {e}, p, r)| == |Pairs(entries, p, r)| + if e.parent == p && e.runner == r then 1 else 0
  {
    if e.parent == p && e.runner == r {
      assert Pairs(entries + {e}, p, r) == Pairs(entries, p, r) + {e};
    } else {
      assert Pairs(entries + {e}, p, r) == Pairs(entries, p, r);
    }
  }

  lemma ByParentChanges(d: map<StateId, seq<int>>, d': map<StateId, seq<int>>, entries: set<Entry>, e: Entry)
    requires OneMore(d, d', e.parent, e.runner) && NoEmptyLists(d) && NoEmptyLists(d')
    requires e !in entries
    ensures ByParent(d, entries) <==> ByParent(d', entries + {e})
  {
    forall p, r
      ensures |Pairs(entries + {e}, p, r)| - |Pairs(entries, p, r)| == Occurrences(d', p, r) - Occurrences(d, p, r)
    {
      PairsChange(entries, e, p, r);
    }
  }

  class DueDates {
    var dueDates: map<int, seq<(int, StateId, StateId)>>       // time: runner, job, parent
    var rpp: map<StateId, seq<int>>                            // runners per parent
    var allPerRunner: map<int, seq<(int, StateId, StateId)>>   // runner: time, job, parent
    ghost var entries: set<Entry>

    /** The three dictionaries hold the same entries. */
    ghost predicate Valid()
      reads this
    {
      && ByTime(dueDates, entries)
      && ByRunner(allPerRunner, entries)
      && ByParent(rpp, entries)
      && JobsDiffer(entries)
    }

    constructor ()
      ensures Valid() && entries == {} && allPerRunner == map[]
    {
      dueDates, rpp, allPerRunner, entries := map[], map[], map[], {};
    }

    method Add(due: int, runner: int, job: StateId, parent: StateId)
      requires Valid() && forall e :: e in entries ==> e.job != job
      modifies this
      ensures Valid() && entries == old(entries) + {Entry(due, runner, job, parent)}
      ensures allPerRunner.Keys == old(allPerRunner.Keys) + {runner}
    {
      ghost var e := Entry(due, runner, job, parent);
      Adding(e);
      dueDates := Append(dueDates, due, (runner, job, parent));
      rpp := Append(rpp, parent, runner);
      allPerRunner := Append(allPerRunner, runner, (due, job, parent));
      entries := entries + {e};
    }

    lemma Adding(e: Entry)
      requires Valid() && forall f :: f in entries ==> f.job != e.job
      ensures ByTime(Append(dueDates, e.due, (e.runner, e.job, e.parent)), entries + {e})
      ensures ByParent(Append(rpp, e.parent, e.runner), entries + {e})
      ensures ByRunner(Append(allPerRunner, e.runner, (e.due, e.job, e.parent)), entries + {e})
      ensures JobsDiffer(entries + {e})
    {
      AppendAdds(dueDates, e.due, (e.runner, e.job, e.parent));
      ByTimeChanges(dueDates, Append(dueDates, e.due, (e.runner, e.job, e.parent)), entries, e);
      AppendAdds(rpp, e.parent, e.runner);
      ByParentChanges(rpp, Append(rpp, e.parent, e.runner), entries, e);
      AppendAdds(allPerRunner, e.runner, (e.due, e.job, e.parent));
      ByRunnerChanges(allPerRunner, Append(allPerRunner, e.runner, (e.due, e.job, e.parent)), entries, e);
    }

    lemma Found(e: Entry)
      requires Valid() && e in entries
      ensures e.runner in allPerRunner && (e.due, e.job, e.parent) in allPerRunner[e.runner]
      ensures e.due in dueDates && (e.runner, e.job, e.parent) in dueDates[e.due]
      ensures e.parent in rpp && e.runner in rpp[e.parent]
    {
      OccursInList(allPerRunner, e.runner, (e.due, e.job, e.parent));
      OccursInList(dueDates, e.due, (e.runner, e.job, e.parent));
      assert e in Pairs(entries, e.parent, e.runner);
      OccursInList(rpp, e.parent, e.runner);
    }

    /** The job of a runner, in its list. */
    method FindByRunner(runner: int, job: StateId, ghost e: Entry) returns (i: nat)
      requires Valid() && e in entries && e.runner == runner && e.job == job
      ensures runner in allPerRunner && i < |allPerRunner[runner]|
      ensures allPerRunner[runner][i] == (e.due, e.job, e.parent)
    {
      Found(e);
      var list := allPerRunner[runner];
      ghost var k :| 0 <= k < |list| && list[k] == (e.due, e.job, e.parent);
      i := 0;
      while list[i].1 != job
        invariant i <= k
        decreases k - i
      {
        i := i + 1;
      }
      OccursInList(allPerRunner, runner, list[i]);
      assert Entry(list[i].0, runner, list[i].1, list[i].2) in entries;
    }

    method FindByTime(due: int, runner: int, job: StateId, ghost e: Entry) returns (i: nat)
      requires Valid() && e in entries && e.runner == runner && e.job == job && e.due == due
      ensures due in dueDates && i < |dueDates[due]|
      ensures dueDates[due][i] == (e.runner, e.job, e.parent)
    {
      Found(e);
      var list := dueDates[due];
      ghost var k :| 0 <= k < |list| && list[k] == (e.runner, e.job, e.parent);
      i := 0;
      while !(list[i].0 == runner && list[i].1 == job)
        invariant i <= k
        decreases k - i
      {
        i := i + 1;
      }
      OccursInList(dueDates, due, list[i]);
      assert Entry(due, list[i].0, list[i].1, list[i].2) in entries;
    }

    /** Takes the due date of a job out of all three dictionaries. */
    method Remove(runner: int, job: StateId, ghost e: Entry) returns (parent: StateId)
      requires Valid() && e in entries && e.runner == runner && e.job == job
      modifies this
      ensures Valid() && entries == Without(old(entries), runner, job) == old(entries) - {e}
      ensures parent == e.parent && allPerRunner.Keys == old(allPerRunner.Keys)
    {
      var i := FindByRunner(runner, job, e);
      var (due, _, p) := allPerRunner[runner][i];
      var k := FindByTime(due, runner, job, e);
      parent := p;
      Found(e);
      Removing(e, i, k);
      allPerRunner := DeleteAt(allPerRunner, runner, i, false);
      dueDates := DeleteAt(dueDates, due, k, true);
      rpp := Dictionaries.Remove(rpp, parent, runner);
      entries := entries - {e};
    }

    lemma Removing(e: Entry, i: nat, k: nat)
      requires Valid() && e in entries
      requires e.runner in allPerRunner && i < |allPerRunner[e.runner]|
      requires allPerRunner[e.runner][i] == (e.due, e.job, e.parent)
      requires e.due in dueDates && k < |dueDates[e.due]|
      requires dueDates[e.due][k] == (e.runner, e.job, e.parent)
      requires e.parent in rpp && e.runner in rpp[e.parent]
      ensures ByRunner(DeleteAt(allPerRunner, e.runner, i, false), entries - {e})
      ensures ByTime(DeleteAt(dueDates, e.due, k, true), entries - {e})
      ensures ByParent(Dictionaries.Remove(rpp, e.parent, e.runner), entries - {e})
    {
      assert (entries - {e}) + {e} == entries;
      DeleteRemoves(allPerRunner, e.runner, i, false);
      ByRunnerChanges(DeleteAt(allPerRunner, e.runner, i, false), allPerRunner, entries - {e}, e);
      DeleteRemoves(dueDates, e.due, k, true);
      ByTimeChanges(DeleteAt(dueDates, e.due, k, true), dueDates, entries - {e}, e);
      RemoveRemoves(rpp, e.parent, e.runner);
      ByParentChanges(Dictionaries.Remove(rpp, e.parent, e.runner), rpp, entries - {e}, e);
    }

    // ----- a violated due date, whose time is dropped from the index by itself -----

    /** While a time is being worked off, its list is only dropped at the end. */
    ghost predicate Dropping(listed: set<Entry>)
      reads this
    {
      && ByTime(dueDates, listed)
      && ByRunner(allPerRunner, entries)
      && ByParent(rpp, entries)
      && JobsDiffer(listed)
      && entries <= listed
    }

    static predicate HasEntry(entries: set<Entry>, runner: int) {
      exists f :: f in entries && f.runner == runner
    }

    static lemma RemovedKeys(d: map<int, seq<(int, StateId, StateId)>>, k: int, v: (int, StateId, StateId))
      requires k in d && v in d[k]
      ensures var d' := Dictionaries.Remove(d, k, v);
              d'.Keys == (if k in d' then d.Keys else d.Keys - {k}) && (k in d' ==> d'[k] != [])
    {
    }

    /** A runner whose list is not empty has an entry, and one without a list has none. */
    lemma ListedOrNot(runner: int)
      requires ByRunner(allPerRunner, entries) && (runner in allPerRunner ==> allPerRunner[runner] != [])
      ensures runner in allPerRunner <==> HasEntry(entries, runner)
    {
      if runner in allPerRunner {
        var (due, job, parent) := allPerRunner[runner][0];
        assert Occurrences(allPerRunner, runner, (due, job, parent)) > 0;
        assert Entry(due, runner, job, parent) in entries;
      }
      forall f | f in entries && f.runner == runner ensures runner in allPerRunner {
        OccursInList(allPerRunner, runner, (f.due, f.job, f.parent));
      }
    }

    method Unlist(ghost listed: set<Entry>, ghost e: Entry, runner: int, due: int, job: StateId, parent: StateId)
      requires Dropping(listed) && e in entries && e == Entry(due, runner, job, parent)
      modifies this`rpp, this`allPerRunner, this`entries
      ensures Dropping(listed) && entries == old(entries) - {e}
      ensures allPerRunner.Keys == if HasEntry(entries, runner) then old(allPerRunner.Keys)
                                   else old(allPerRunner.Keys) - {runner}
    {
      assert (entries - {e}) + {e} == entries;
      assert e in Pairs(entries, parent, runner);
      OccursInList(rpp, parent, runner);
      OccursInList(allPerRunner, runner, (due, job, parent));
      RemoveRemoves(rpp, parent, runner);
      ByParentChanges(Dictionaries.Remove(rpp, parent, runner), rpp, entries - {e}, e);
      RemoveRemoves(allPerRunner, runner, (due, job, parent));
      ByRunnerChanges(Dictionaries.Remove(allPerRunner, runner, (due, job, parent)), allPerRunner, entries - {e}, e);
      RemovedKeys(allPerRunner, runner, (due, job, parent));
      rpp := Dictionaries.Remove(rpp, parent, runner);
      allPerRunner := Dictionaries.Remove(allPerRunner, runner, (due, job, parent));
      entries := entries - {e};
      ListedOrNot(runner);
    }

    method DropTime(ghost listed: set<Entry>, due: int)
      requires Dropping(listed) && due in dueDates
      requires entries == set e | e in listed && e.due != due
      modifies this`dueDates
      ensures Valid() && dueDates == old(dueDates) - {due}
    {
      dueDates := dueDates - {due};
    }

    /** The list of a time has every entry of that time once. */
    lemma TimeList(due: int)
      requires Valid() && due in dueDates
      ensures forall i :: 0 <= i < |dueDates[due]| ==>
                Entry(due, dueDates[due][i].0, dueDates[due][i].1, dueDates[due][i].2) in entries
      ensures forall i, j :: 0 <= i < j < |dueDates[due]| ==> dueDates[due][i] != dueDates[due][j]
      ensures forall e :: e in entries && e.due == due ==> (e.runner, e.job, e.parent) in dueDates[due]
    {
      var list := dueDates[due];
      forall i | 0 <= i < |list| ensures Entry(due, list[i].0, list[i].1, list[i].2) in entries {
        OccursInList(dueDates, due, list[i]);
      }
      forall i, j | 0 <= i < j < |list| ensures list[i] != list[j] {
        ListedTwice(list, i, j);
        assert Occurrences(dueDates, due, (list[i].0, list[i].1, list[i].2)) <= 1;
      }
      forall e | e in entries && e.due == due ensures (e.runner, e.job, e.parent) in list {
        OccursInList(dueDates, due, (e.runner, e.job, e.parent));
      }
    }

    /** The jobs of a runner and their parents. */
    method GetByRunner(runner: int) returns (states: seq<StateId>)
      requires Valid() && runner in allPerRunner
      ensures forall s :: s in states <==>
                          exists e :: e in entries && e.runner == runner && (e.job == s || e.parent == s)
    {
      var list := allPerRunner[runner];
      var jobs, parents := [], [];
      for i := 0 to |list|
        invariant forall s :: s in jobs <==> exists k :: 0 <= k < i && list[k].1 == s
        invariant forall s :: s in parents <==> exists k :: 0 <= k < i && list[k].2 == s
      {
        jobs := jobs + [list[i].1];
        parents := parents + [list[i].2];
      }
      states := jobs + parents;
      RunnerList(runner);
    }

    lemma RunnerList(runner: int)
      requires Valid() && runner in allPerRunner
      ensures forall k :: 0 <= k < |allPerRunner[runner]| ==>
                Entry(allPerRunner[runner][k].0, runner, allPerRunner[runner][k].1, allPerRunner[runner][k].2) in entries
      ensures forall e :: e in entries && e.runner == runner ==> (e.due, e.job, e.parent) in allPerRunner[runner]
    {
      var list := allPerRunner[runner];
      forall k | 0 <= k < |list| ensures Entry(list[k].0, runner, list[k].1, list[k].2) in entries {
        OccursInList(allPerRunner, runner, list[k]);
        assert Occurrences(allPerRunner, runner, (list[k].0, list[k].1, list[k].2)) > 0;
      }
      forall e | e in entries && e.runner == runner ensures (e.due, e.job, e.parent) in list {
        Found(e);
      }
    }

    lemma AllListed()
      requires Valid()
      ensures forall e :: e in entries ==> e.due in dueDates
    {
      forall e | e in entries ensures e.due in dueDates {
        Found(e);
      }
    }

    /** How many runners work on a parent. */
    method RunnersPerParent(parent: StateId) returns (n: nat)
      requires Valid()
      ensures n == |RunnersOf(entries, parent)|
    {
      if parent in rpp {
        var runners := set r | r in rpp[parent];
        n := |runners|;
        assert runners == RunnersOf(entries, parent) by {
          forall r ensures r in runners <==> r in RunnersOf(entries, parent) {
            RunnerCounted(parent, r);
          }
        }
      } else {
        n := 0;
        forall r ensures r !in RunnersOf(entries, parent) {
          RunnerCounted(parent, r);
        }
      }
    }

    lemma RunnerCounted(parent: StateId, r: int)
      requires Valid()
      ensures r in RunnersOf(entries, parent) <==> parent in rpp && r in rpp[parent]
    {
      OccursInList(rpp, parent, r);
      if r in RunnersOf(entries, parent) {
        var e :| e in entries && e.parent == parent && e.runner == r;
        assert e in Pairs(entries, parent, r);
      } else {
        assert Pairs(entries, parent, r) == {};
      }
    }
  }

  // ----- the runners' caches -----------------------------------------------

  class StateCache {
    var c: map<StateId, seq<int>>     // which runners have a state
    var cr: map<int, seq<StateId>>    // which states a runner has

    /** The two dictionaries are the same relation, read from both sides. */
    ghost predicate Valid()
      reads this
    {
      forall s, r :: Occurrences(c, s, r) == Occurrences(cr, r, s)
    }

    constructor ()
      ensures Valid() && c == map[] && cr == map[]
    {
      c, cr := map[], map[];
    }

    function GetByRunner(runner: int): seq<StateId>
      reads this
    {
      if runner in cr then cr[runner] else []
    }

    method AddRunner(state: StateId, runner: int)
      requires Valid()
      modifies this
      ensures Valid()
      ensures cr == Append(old(cr), runner, state)
    {
      AppendAdds(c, state, runner);
      AppendAdds(cr, runner, state);
      c := Append(c, state, runner);
      cr := Append(cr, runner, state);
    }

    method RemoveRunner(state: StateId, runner: int)
      requires Valid() && runner in cr && state in cr[runner]
      modifies this
      ensures Valid()
      ensures cr == Remove(old(cr), runner, state)
    {
      OccursInList(cr, runner, state);
      OccursInList(c, state, runner);
      RemoveRemoves(c, state, runner);
      RemoveRemoves(cr, runner, state);
      c := Remove(c, state, runner);
      cr := Remove(cr, runner, state);
    }

    /** How often a state is listed for the runner, when only these are left. */
    ghost predicate Listed(runner: int, states: seq<StateId>)
      reads this
    {
      forall s, r :: Occurrences(c, s, r) == if r == runner then multiset(states)[s] else Occurrences(cr, r, s)
    }

    method Forget(runner: int)
      requires Valid() && runner in cr
      modifies this`c
      ensures Listed(runner, [])
    {
      var states := cr[runner];
      for i := 0 to |states|
        invariant Listed(runner, states[i..])
      {
        assert states[i..] == [states[i]] + states[i + 1..];
        OccursInList(c, states[i], runner);
        assert multiset(states[i..])[states[i]] > 0;
        RemoveRemoves(c, states[i], runner);
        c := Remove(c, states[i], runner);
      }
    }

    /** A runner tells what its cache holds. */
    method Update(runner: int, cachedStates: seq<StateId>)
      requires Valid() && runner in cr
      modifies this
      ensures Valid() && cr == old(cr)[runner := cachedStates]
    {
      Forget(runner);
      cr := cr[runner := cachedStates];
      for i := 0 to |cachedStates|
        invariant Listed(runner, cachedStates[..i]) && cr == old(cr)[runner := cachedStates]
      {
        assert cachedStates[..i + 1] == cachedStates[..i] + [cachedStates[i]];
        AppendAdds(c, cachedStates[i], runner);
        c := Append(c, cachedStates[i], runner);
      }
      assert cachedStates[..|cachedStates|] == cachedStates;
    }

    /** The runners that have a state and are not given up. */
    method GetRunners(state: StateId, faulty: set<int>) returns (runners: seq<int>)
      requires Valid()
      ensures forall r :: r in runners <==> r !in faulty && state in GetByRunner(r)
    {
      runners := [];
      if state in c {
        for i := 0 to |c[state]|
          invariant forall r :: r in runners <==> r in c[state][..i] && r !in faulty
        {
          if c[state][i] !in faulty {
            runners := runners + [c[state][i]];
          }
        }
      }
      forall r ensures (state in c && r in c[state]) <==> state in GetByRunner(r) {
        OccursInList(c, state, r);
        OccursInList(cr, r, state);
      }
    }
  }
}
