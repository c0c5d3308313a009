/**
  What matters of the head process of a runner to the others
  (api/p2p/StorageController/storage_controller.cxx): the states it has cached, the states it
  has staged to the global store, in order, and the last cycle it has seen.  The functions
  specify the head's handlers; class StorageHead implements them.
 */
module HeadState {
  import opened Helpers
  import opened ParticleState

  /** `staged` is a state that is on the global store, but whose weight is still to be sent. */
  datatype Head = Head(cached: set<StateId>, staged: Option<StateId>, delQ: seq<StateId>, last: int)

  const NEW_HEAD := Head({}, None, [], 1)

  function Staged(h: Head, s: StateId): Head {
    h.(staged := Some(s))
  }

  /** The weight of the staged state has gone to the server, and the state is cached. */
  function Sent(h: Head): Head
    requires h.staged.Some?
  {
    var s := h.staged.value;
    Head(h.cached + {s}, None, h.delQ + [s], if s.t > h.last then s.t else h.last)
  }

  function Dropped(h: Head, s: StateId): Head {
    h.(cached := h.cached - {s})
  }

  function DroppedAll(h: Head, states: seq<StateId>): Head {
    if states == [] then h else Dropped(DroppedAll(h, states[..|states| - 1]), states[|states| - 1])
  }

  function Fetched(h: Head, s: StateId): Head {
    h.(cached := h.cached + {s})
  }

  /** How many states at the front of the queue are older than the cycle before the last one seen. */
  function Old(delQ: seq<StateId>, last: int): (n: nat)
    ensures n <= |delQ| && forall i :: 0 <= i < n ==> delQ[i].t < last - 1
    ensures n < |delQ| ==> delQ[n].t >= last - 1
  {
    if delQ == [] || delQ[0].t >= last - 1 then 0 else 1 + Old(delQ[1..], last)
  }

  /** They leave the queue, and the global store. */
  function Cleaned(h: Head): Head {
    h.(delQ := h.delQ[Old(h.delQ, h.last)..])
  }

  function Outdated(h: Head): set<StateId> {
    Front(h.delQ, Old(h.delQ, h.last))
  }

  function Front(q: seq<StateId>, n: nat): set<StateId>
    requires n <= |q|
  {
    set s | s in q[..n]
  }

  function Elements(states: seq<StateId>): set<StateId> {
    set s | s in states
  }

  lemma OneMoreElement(states: seq<StateId>, s: StateId)
    ensures Elements(states + [s]) == Elements(states) + {s}
  {
  }

  lemma {:induction false} DropsCached(h: Head, states: seq<StateId>)
    ensures DroppedAll(h, states) == h.(cached := h.cached - Elements(states))
  {
    if states != [] {
      var n := |states| - 1;
      DropsCached(h, states[..n]);
      OneMoreElement(states[..n], states[n]);
      assert states == states[..n] + [states[n]];
    }
  }
}
