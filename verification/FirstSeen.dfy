/** An index from each key of a list to the first place where it occurs, kept up to date as the list
    grows and shrinks at its end. */
module FirstSeen {

  /** `index` holds exactly the keys of the list, each with its least position. */
  ghost predicate IsFirstSeen<K>(index: map<K, nat>, keys: seq<K>) {
    && (forall k :: k in index ==> index[k] < |keys| && keys[index[k]] == k)
    && (forall j :: 0 <= j < |keys| ==> keys[j] in index && index[keys[j]] <= j)
  }

  /** Drop the last key: only an entry first seen there goes. */
  function Forget<K(==)>(index: map<K, nat>, k: K, ply: nat): map<K, nat> {
    if k in index && index[k] == ply then index - {k} else index
  }

  /** Append a key: an entry already there stays. */
  function SetDefault<K(==)>(index: map<K, nat>, k: K, ply: nat): map<K, nat> {
    if k in index then index else index[k := ply]
  }

  lemma ForgetLast<K>(index: map<K, nat>, keys: seq<K>)
    requires keys != [] && IsFirstSeen(index, keys)
    ensures IsFirstSeen(Forget(index, keys[|keys| - 1], |keys| - 1), keys[..|keys| - 1])
  {
  }

  lemma AppendOne<K>(index: map<K, nat>, keys: seq<K>, k: K)
    requires IsFirstSeen(index, keys)
    ensures IsFirstSeen(SetDefault(index, k, |keys|), keys + [k])
  {
  }

  /** The lookup the legality check makes: `get(k, ply + 1) <= ply` finds a key exactly when a scan of
      places 0 to `ply` would, even while later places are still indexed. */
  lemma LookupIsScan<K>(index: map<K, nat>, keys: seq<K>, k: K, ply: nat)
    requires IsFirstSeen(index, keys) && ply < |keys|
    ensures (if k in index then index[k] else ply + 1) <= ply <==> exists j :: 0 <= j <= ply && keys[j] == k
  {
  }
}
