/** Counting dictionaries: what a loop of `counts[key] = counts.get(key, 0) + 1` leaves. */
module Tallies {

  function Count<K(==)>(keys: seq<K>, key: K): nat {
    if keys == [] then 0
    else Count(keys[..|keys| - 1], key) + if keys[|keys| - 1] == key then 1 else 0
  }

  /** `counts` holds each key that occurs, with the number of its occurrences. */
  ghost predicate IsTally<K(!new)>(counts: map<K, nat>, keys: seq<K>) {
    forall key: K :: (key in counts <==> Count(keys, key) > 0) && (key in counts ==> counts[key] == Count(keys, key))
  }

  method Tally<K(==,!new)>(keys: seq<K>) returns (counts: map<K, nat>)
    ensures IsTally(counts, keys)
  {
    counts := map[];
    for i := 0 to |keys|
      invariant IsTally(counts, keys[..i])
    {
      assert keys[..i + 1][..i] == keys[..i];
      var before := if keys[i] in counts then counts[keys[i]] else 0;
      counts := counts[keys[i] := before + 1];
    }
    assert keys[..|keys|] == keys;
  }

  ghost function Total<K>(counts: map<K, nat>): nat {
    if counts == map[] then 0 else
      var key :| key in counts;
      counts[key] + Total(counts - {key})
  }

  lemma {:induction false} TotalWithout<K>(counts: map<K, nat>, key: K)
    requires key in counts
    ensures Total(counts) == counts[key] + Total(counts - {key})
    decreases |counts|
  {
    var first :| first in counts && Total(counts) == counts[first] + Total(counts - {first});
    if first != key {
      TotalWithout(counts - {first}, key);
      TotalWithout(counts - {key}, first);
      assert counts - {first} - {key} == counts - {key} - {first};
    }
  }

  /** A tally adds up to the number of keys counted. */
  lemma {:induction false} TallyTotal<K(!new)>(counts: map<K, nat>, keys: seq<K>)
    requires IsTally(counts, keys)
    ensures Total(counts) == |keys|
  {
    if keys == [] {
      forall key: K
        ensures key !in counts
      {
        assert Count(keys, key) == 0;
      }
    } else {
      var front, last := keys[..|keys| - 1], keys[|keys| - 1];
      assert Count(keys, last) == Count(front, last) + 1;
      var before := if counts[last] == 1 then counts - {last} else counts[last := counts[last] - 1 as nat];
      assert IsTally(before, front);
      TallyTotal(before, front);
      TotalWithout(counts, last);
      if counts[last] > 1 {
        TotalWithout(before, last);
        assert before - {last} == counts - {last};
      }
    }
  }
}
