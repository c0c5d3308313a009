/** Dictionaries of lists (dict_append and dict_remove in server-p2p/server.py). */
module Dictionaries {

  /** How often v is in the list of k. */
  function Occurrences<K, V(==)>(d: map<K, seq<V>>, k: K, v: V): nat {
    if k in d then multiset(d[k])[v] else 0
  }

  /** d' is d with v once more in the list of k, and with nothing else changed. */
  ghost predicate OneMore<K(!new), V(!new)>(d: map<K, seq<V>>, d': map<K, seq<V>>, k: K, v: V) {
    forall k', v' :: Occurrences(d', k', v') == Occurrences(d, k', v') + if k' == k && v' == v then 1 else 0
  }

  ghost predicate NoEmptyLists<K, V>(d: map<K, seq<V>>) {
    forall k :: k in d ==> d[k] != []
  }

  lemma OccursInList<K, V>(d: map<K, seq<V>>, k: K, v: V)
    ensures Occurrences(d, k, v) > 0 <==> k in d && v in d[k]
  {
  }

  function Append<K, V>(d: map<K, seq<V>>, k: K, v: V): map<K, seq<V>> {
    d[k := (if k in d then d[k] else []) + [v]]
  }

  lemma AppendAdds<K(!new), V(!new)>(d: map<K, seq<V>>, k: K, v: V)
    ensures OneMore(d, Append(d, k, v), k, v)
    ensures NoEmptyLists(d) ==> NoEmptyLists(Append(d, k, v))
  {
  }

  function FirstIndex<V(==)>(s: seq<V>, v: V): (i: nat)
    requires v in s
    ensures i < |s| && s[i] == v
  {
    if s[0] == v then 0 else 1 + FirstIndex(s[1..], v)
  }

  /** Deletes the element at this place; a list that becomes empty disappears, if so desired. */
  function DeleteAt<K, V>(d: map<K, seq<V>>, k: K, i: nat, dropEmpty: bool): map<K, seq<V>>
    requires k in d && i < |d[k]|
  {
    var rest := d[k][..i] + d[k][i + 1..];
    if rest == [] && dropEmpty then d - {k} else d[k := rest]
  }

  lemma DeleteRemoves<K(!new), V(!new)>(d: map<K, seq<V>>, k: K, i: nat, dropEmpty: bool)
    requires k in d && i < |d[k]|
    ensures OneMore(DeleteAt(d, k, i, dropEmpty), d, k, d[k][i])
    ensures NoEmptyLists(d) && dropEmpty ==> NoEmptyLists(DeleteAt(d, k, i, dropEmpty))
  {
    var s := d[k];
    assert s == s[..i] + ([s[i]] + s[i + 1..]);
    assert multiset(s) == multiset(s[..i] + s[i + 1..]) + multiset{s[i]};
  }

  /** dict_remove */
  function Remove<K, V(==)>(d: map<K, seq<V>>, k: K, v: V): map<K, seq<V>>
    requires k in d && v in d[k]
  {
    DeleteAt(d, k, FirstIndex(d[k], v), true)
  }

  lemma RemoveRemoves<K(!new), V(!new)>(d: map<K, seq<V>>, k: K, v: V)
    requires k in d && v in d[k]
    ensures OneMore(Remove(d, k, v), d, k, v)
    ensures NoEmptyLists(d) ==> NoEmptyLists(Remove(d, k, v))
  {
    DeleteRemoves(d, k, FirstIndex(d[k], v), true);
  }
}
