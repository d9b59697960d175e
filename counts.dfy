/**
 * Counter maps as Go's `map[string]int` with `m[k]++`: a missing key reads as
 * zero. `Tally` is the histogram such increments build over a list of keys.
 */
module Counts {

  /** Reading a Go counter map: zero for an absent key. */
  function Count(m: map<string, int>, k: string): int
  {
    if k in m then m[k] else 0
  }

  /** `m[k]++`. */
  function Inc(m: map<string, int>, k: string): map<string, int>
  {
    m[k := Count(m, k) + 1]
  }

  /** The counter map after `m[k]++` for each `k` of `keys` in turn, starting empty. */
  function Tally(keys: seq<string>): map<string, int>
  {
    if keys == [] then map[] else Inc(Tally(keys[..|keys| - 1]), keys[|keys| - 1])
  }

  /** Some key of a non-empty map. */
  ghost function AnyKey(m: map<string, int>): (k: string)
    requires |m| != 0
    ensures k in m
  {
    var k :| k in m; k
  }

  /** The sum of all counters. */
  ghost function Total(m: map<string, int>): int
    decreases |m|
  {
    if |m| == 0 then 0
    else
      var k := AnyKey(m);
      m[k] + Total(m - {k})
  }

  /** A histogram has exactly the keys that occur, each with its number of occurrences. */
  lemma {:induction false} TallyCounts(keys: seq<string>)
    ensures forall k :: k in Tally(keys) <==> k in keys
    ensures forall k :: Count(Tally(keys), k) == multiset(keys)[k]
  {
    if keys != [] {
      var init := keys[..|keys| - 1];
      TallyCounts(init);
      assert keys == init + [keys[|keys| - 1]];
    }
  }

  lemma RemoveKeyCard(m: map<string, int>, k: string)
    requires k in m
    ensures |m - {k}| == |m| - 1
  {
    assert (m - {k}).Keys == m.Keys - {k};
    assert |m.Keys - {k}| == |m.Keys| - 1;
  }

  lemma {:induction false} TotalWithout(m: map<string, int>, k: string)
    requires k in m
    ensures Total(m) == m[k] + Total(m - {k})
    decreases |m|, 1
  {
    var j := AnyKey(m);
    if j != k {
      TotalSwap(m, j, k);
    }
  }

  lemma {:induction false} TotalSwap(m: map<string, int>, j: string, k: string)
    requires j in m && k in m && j != k
    requires Total(m) == m[j] + Total(m - {j})
    ensures Total(m) == m[k] + Total(m - {k})
    decreases |m|, 0
  {
    var mj, mk := m - {j}, m - {k};
    RemoveKeyCard(m, j);
    RemoveKeyCard(m, k);
    TotalWithout(mj, k);
    TotalWithout(mk, j);
    RemoveBoth(m, j, k);
  }

  lemma RemoveBoth(m: map<string, int>, j: string, k: string)
    ensures (m - {j}) - {k} == (m - {k}) - {j}
    ensures k in m && k != j ==> (m - {j})[k] == m[k]
  {
    assert ((m - {j}) - {k}).Keys == ((m - {k}) - {j}).Keys;
  }

  lemma TotalInc(m: map<string, int>, k: string)
    ensures Total(Inc(m, k)) == Total(m) + 1
  {
    TotalWithout(Inc(m, k), k);
    IncRemove(m, k);
    if k in m {
      TotalWithout(m, k);
    }
  }

  lemma IncRemove(m: map<string, int>, k: string)
    ensures Inc(m, k) - {k} == m - {k}
    ensures k !in m ==> m - {k} == m
  {
    assert (Inc(m, k) - {k}).Keys == (m - {k}).Keys;
  }

  /** The counters of a histogram add up to the number of keys counted. */
  lemma {:induction false} TallyTotal(keys: seq<string>)
    ensures Total(Tally(keys)) == |keys|
  {
    if keys != [] {
      TallyTotal(keys[..|keys| - 1]);
      TotalInc(Tally(keys[..|keys| - 1]), keys[|keys| - 1]);
    }
  }
}
