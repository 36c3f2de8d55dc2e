/** Counting into a table, and sorting durations: what the metrics are made of. */
module Tallies {
  /** One more of a key, in a table that starts at zero. */
  function Bump<K>(table: map<K, nat>, key: K): map<K, nat> {
    table[key := (if key in table then table[key] else 0) + 1]
  }

  /** The sum of a table. */
  ghost function Total<K>(table: map<K, nat>): nat
    decreases |table|
  {
    if table == map[] then 0
    else
      var k :| k in table;
      table[k] + Total(table - {k})
  }

  /** The sum does not depend on the order of summation. */
  lemma {:induction false} TotalFrom<K>(table: map<K, nat>, key: K)
    requires key in table
    ensures Total(table) == table[key] + Total(table - {key})
    decreases |table|
  {
    var k :| k in table && Total(table) == table[k] + Total(table - {k});
    if k != key {
      TotalFrom(table - {k}, key);
      TotalFrom(table - {key}, k);
      assert table - {k} - {key} == table - {key} - {k};
    }
  }

  lemma TotalOfBump<K>(table: map<K, nat>, key: K)
    ensures Total(Bump(table, key)) == Total(table) + 1
  {
    var bumped := Bump(table, key);
    TotalFrom(bumped, key);
    assert bumped - {key} == table - {key};
    if key in table {
      TotalFrom(table, key);
    } else {
      assert table - {key} == table;
    }
  }

  /** The table a counting loop over the keys fills. */
  function TallyOf<K>(keys: seq<K>): map<K, nat> {
    if keys == [] then map[] else Bump(TallyOf(keys[..|keys| - 1]), keys[|keys| - 1])
  }

  /** It holds every key as often as it occurs, and sums up to the number of keys. */
  lemma {:induction false} TallyFacts<K>(keys: seq<K>)
    ensures Total(TallyOf(keys)) == |keys|
    ensures forall k :: k in TallyOf(keys) <==> k in keys
    ensures forall k :: k in keys ==> TallyOf(keys)[k] == multiset(keys)[k]
  {
    if keys != [] {
      var init, last := keys[..|keys| - 1], keys[|keys| - 1];
      TallyFacts(init);
      TotalOfBump(TallyOf(init), last);
      assert keys == init + [last];
    }
  }

  // ---------- durations ----------

  predicate Ascending(s: seq<nat>) {
    forall i, j | 0 <= i < j < |s| :: s[i] <= s[j]
  }

  function Insert(x: nat, s: seq<nat>): seq<nat> {
    if s == [] || x <= s[0] then [x] + s else [s[0]] + Insert(x, s[1..])
  }

  /** A sorted copy. */
  function Sort(s: seq<nat>): seq<nat> {
    if s == [] then [] else Insert(s[0], Sort(s[1..]))
  }

  /** How many are at most `x`. */
  function AtMost(s: seq<nat>, x: int): (n: nat)
    ensures n <= |s|
  {
    if s == [] then 0 else (if s[0] <= x then 1 else 0) + AtMost(s[1..], x)
  }

  lemma {:induction false} InsertFacts(x: nat, s: seq<nat>, y: int)
    requires Ascending(s)
    ensures Ascending(Insert(x, s)) && |Insert(x, s)| == |s| + 1
    ensures AtMost(Insert(x, s), y) == AtMost(s, y) + (if x <= y then 1 else 0)
    ensures Insert(x, s)[0] == (if s == [] || x <= s[0] then x else s[0])
  {
    if s == [] || x <= s[0] {
      assert ([x] + s)[1..] == s;
    } else {
      InsertFacts(x, s[1..], y);
      var rest := Insert(x, s[1..]);
      assert ([s[0]] + rest)[1..] == rest;
      assert forall j | 0 <= j < |rest| :: rest[0] <= rest[j];
      assert s[0] <= rest[0];
    }
  }

  lemma {:induction false} SortFacts(s: seq<nat>, y: int)
    ensures Ascending(Sort(s)) && |Sort(s)| == |s| && AtMost(Sort(s), y) == AtMost(s, y)
  {
    if s != [] {
      SortFacts(s[1..], y);
      InsertFacts(s[0], Sort(s[1..]), y);
    }
  }

  lemma {:induction false} ManyAtMost(s: seq<nat>, n: nat, y: int)
    requires n <= |s| && forall i | 0 <= i < n :: s[i] <= y
    ensures AtMost(s, y) >= n
  {
    if n > 0 {
      ManyAtMost(s[1..], n - 1, y);
    }
  }

  lemma {:induction false} FewAtMost(s: seq<nat>, n: nat, y: int)
    requires n <= |s| && forall i | n <= i < |s| :: s[i] > y
    ensures AtMost(s, y) <= n
  {
    if s != [] {
      FewAtMost(s[1..], if n == 0 then 0 else n - 1, y);
    }
  }

  /** The i-th duration in order: more than i durations are at most as long, and at most i are shorter. */
  lemma RankOf(s: seq<nat>, i: nat)
    requires i < |s|
    ensures |Sort(s)| == |s|
    ensures AtMost(s, Sort(s)[i]) > i && AtMost(s, Sort(s)[i] as int - 1) <= i
  {
    SortFacts(s, 0);
    var t := Sort(s);
    SortFacts(s, t[i]);
    SortFacts(s, t[i] as int - 1);
    ManyAtMost(t, i + 1, t[i]);
    FewAtMost(t, i, t[i] as int - 1);
  }
}
