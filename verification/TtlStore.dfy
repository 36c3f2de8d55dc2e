/**
 The in-memory TTL store behind the cache when Redis is away: an insertion-ordered table of at most 5000
 entries, a fixed-window counter, and glob deletion. It is proved to be a timed map from which nothing is
 missing but what it evicted.
 */
module TtlStore {
  import opened Options
  import opened GlobPatterns

  const MAX_ENTRIES: nat := 5000
  const DROP: nat := 500
  const DAY: int := 86400

  /** A cached text, or one that reads as an integer. */
  datatype Value = Text(text: string) | Number(n: int)
  datatype Entry = Entry(key: string, expires: int, value: Value)
  datatype Timed = Timed(expires: int, value: Value)

  // ---------- the ordered table ----------

  function Keys(data: seq<Entry>): set<string> {
    set e | e in data :: e.key
  }

  predicate Distinct(data: seq<Entry>) {
    forall i, j | 0 <= i < j < |data| :: data[i].key != data[j].key
  }

  /** The place of a key, or the number of entries. */
  function Index(data: seq<Entry>, key: string): (i: nat)
    ensures i <= |data| && (i < |data| ==> data[i].key == key && data[i] in data)
    ensures i < |data| <==> key in Keys(data)
  {
    if data == [] then 0
    else if data[0].key == key then
      assert data[0] in data;
      0
    else
      var i := Index(data[1..], key);
      assert Keys(data) == {data[0].key} + Keys(data[1..]) by { assert data == [data[0]] + data[1..]; }
      1 + i
  }

  /** Assignment to a key of a dict: in place, or at the end. */
  function Put(data: seq<Entry>, e: Entry): seq<Entry> {
    var i := Index(data, e.key);
    if i < |data| then data[i := e] else data + [e]
  }

  function Without(data: seq<Entry>, keys: set<string>): (rest: seq<Entry>)
    ensures forall e :: e in rest <==> e in data && e.key !in keys
  {
    if data == [] then []
    else
      var rest := Without(data[..|data| - 1], keys);
      if data[|data| - 1].key in keys then rest else rest + [data[|data| - 1]]
  }

  lemma PutFacts(data: seq<Entry>, e: Entry)
    requires Distinct(data)
    ensures Distinct(Put(data, e)) && Keys(Put(data, e)) == Keys(data) + {e.key}
    ensures forall x :: x in Put(data, e) <==> x == e || (x in data && x.key != e.key)
    ensures |Put(data, e)| == |data| + (if e.key in Keys(data) then 0 else 1)
    ensures forall i | 0 <= i < |data| :: Put(data, e)[i].key == data[i].key
  {
    var i := Index(data, e.key);
    var after := Put(data, e);
    if i < |data| {
      assert forall j | 0 <= j < |data| && j != i :: data[j].key != e.key && after[j] == data[j];
      forall x | x in data && x.key != e.key
        ensures x in after
      {
        var j :| 0 <= j < |data| && data[j] == x;
        assert after[j] == x;
      }
      assert after[i] == e;
    } else {
      assert forall j | 0 <= j < |data| :: data[j] in data;
    }
  }

  lemma {:induction false} WithoutFacts(data: seq<Entry>, keys: set<string>)
    requires Distinct(data)
    ensures Distinct(Without(data, keys)) && Keys(Without(data, keys)) == Keys(data) - keys
  {
    if data != [] {
      var init, last := data[..|data| - 1], data[|data| - 1];
      WithoutFacts(init, keys);
      if last.key !in keys {
        forall e | e in Without(init, keys)
          ensures e.key != last.key
        {
          var j :| 0 <= j < |init| && init[j] == e;
          assert data[j] == e;
        }
      }
    }
  }

  lemma Dropped(data: seq<Entry>, n: nat)
    requires Distinct(data) && n <= |data|
    ensures Distinct(data[n..]) && Keys(data[n..]) == Keys(data) - Keys(data[..n])
  {
    assert data == data[..n] + data[n..];
    forall e | e in data[n..]
      ensures e in data && e.key !in Keys(data[..n])
    {
      var j :| 0 <= j < |data[n..]| && data[n..][j] == e;
      assert data[n + j] == e;
    }
  }

  // ---------- operations on the table ----------

  datatype Op =
    | GetOp(key: string, now: int)
    | SetOp(key: string, ttl: int, value: Value, now: int)
    | DeleteOp(keys: seq<string>)
    | IncrOp(key: string, now: int)
    | ExpireOp(key: string, ttl: int, now: int)

  function Elements(keys: seq<string>): set<string> {
    set k | k in keys
  }

  predicate Fresh(data: seq<Entry>, key: string) {
    key !in Keys(data)
  }

  /** What a fresh key at capacity leaves of the table. */
  function MakeRoom(data: seq<Entry>, key: string): seq<Entry> {
    if |data| >= MAX_ENTRIES && Fresh(data, key) then data[DROP..] else data
  }

  /** The entry the counter writes. */
  function Counted(data: seq<Entry>, key: string, now: int): (e: Entry)
    ensures e.key == key && e.value.Number?
  {
    var i := Index(data, key);
    if i < |data| && data[i].expires >= now then
      Entry(key, data[i].expires, Number(if data[i].value.Number? then data[i].value.n + 1 else 1))
    else Entry(key, now + DAY, Number(1))
  }

  function AfterOp(data: seq<Entry>, op: Op): seq<Entry> {
    match op
    case GetOp(key, now) =>
      var i := Index(data, key);
      if i < |data| && data[i].expires < now then Without(data, {key}) else data
    case SetOp(key, ttl, value, now) => Put(MakeRoom(data, key), Entry(key, now + ttl, value))
    case DeleteOp(keys) => Without(data, Elements(keys))
    case IncrOp(key, now) => Put(data, Counted(data, key, now))
    case ExpireOp(key, ttl, now) =>
      var i := Index(data, key);
      if i < |data| then Put(data, Entry(key, now + ttl, data[i].value)) else data
  }

  /** What a hit answers, and the table after it: a hit that counts one sets the window. */
  function CountOf(data: seq<Entry>, key: string, now: int): int {
    Counted(data, key, now).value.n
  }

  function AfterHit(data: seq<Entry>, key: string, ttl: int, now: int, later: int): seq<Entry> {
    var counted := AfterOp(data, IncrOp(key, now));
    if CountOf(data, key, now) == 1 then AfterOp(counted, ExpireOp(key, ttl, later)) else counted
  }

  function AfterOps(data: seq<Entry>, ops: seq<Op>): seq<Entry>
    decreases |ops|
  {
    if ops == [] then data else AfterOps(AfterOp(data, ops[0]), ops[1..])
  }

  /** The size bound holds now and after every operation. */
  predicate StaysBounded(data: seq<Entry>, ops: seq<Op>)
    decreases |ops|
  {
    |data| <= 5000 && (ops != [] ==> StaysBounded(AfterOp(data, ops[0]), ops[1..]))
  }

  /** The one operation that passes the bound: the counter adding a fresh key to a full table. */
  predicate Overflows(data: seq<Entry>, op: Op) {
    op.IncrOp? && Fresh(data, op.key) && |data| >= 5000
  }

  predicate NeverOverflows(data: seq<Entry>, ops: seq<Op>)
    decreases |ops|
  {
    ops != [] ==> !Overflows(data, ops[0]) && NeverOverflows(AfterOp(data, ops[0]), ops[1..])
  }

  /** One key leaves with one entry. */
  lemma {:induction false} WithoutOne(data: seq<Entry>, key: string)
    requires Distinct(data)
    ensures |Without(data, {key})| == |data| - (if key in Keys(data) then 1 else 0)
  {
    hide Distinct, Keys;
    if data == [] {
      NoKeys(data);
    } else {
      LastKey(data);
      WithoutOne(data[..|data| - 1], key);
    }
  }

  lemma NoKeys(data: seq<Entry>)
    requires data == []
    ensures Keys(data) == {}
  {
  }

  lemma LastKey(data: seq<Entry>)
    requires data != [] && Distinct(data)
    ensures var init, last := data[..|data| - 1], data[|data| - 1];
            Distinct(init) && Keys(data) == Keys(init) + {last.key} && last.key !in Keys(init)
  {
    assert data == data[..|data| - 1] + [data[|data| - 1]];
  }

  lemma RoomFacts(data: seq<Entry>, key: string)
    requires Distinct(data)
    ensures var room := MakeRoom(data, key);
            && Distinct(room) && (Fresh(room, key) <==> Fresh(data, key))
            && |room| == (if |data| >= 5000 && Fresh(data, key) then |data| - 500 else |data|)
  {
    if |data| >= MAX_ENTRIES && Fresh(data, key) {
      Dropped(data, DROP);
    }
  }

  /** The size after each operation. */
  lemma SizeAfter(data: seq<Entry>, op: Op)
    requires Distinct(data)
    ensures Distinct(AfterOp(data, op))
    ensures (op.GetOp? || op.DeleteOp? ==> |AfterOp(data, op)| <= |data|)
    ensures op.ExpireOp? ==> |AfterOp(data, op)| == |data|
    ensures op.IncrOp? ==> |AfterOp(data, op)| == |data| + (if Fresh(data, op.key) then 1 else 0)
    ensures op.SetOp? ==>
              |AfterOp(data, op)| == (if !Fresh(data, op.key) then |data|
                                      else if |data| >= 5000 then |data| - 499 else |data| + 1)
  {
    hide Distinct, Without, Put, MakeRoom, Keys, Elements;
    match op
    case GetOp(key, _) =>
      WithoutFacts(data, {key});
      NotLonger(data, {key});
    case DeleteOp(keys) =>
      WithoutFacts(data, Elements(keys));
      NotLonger(data, Elements(keys));
    case SetOp(key, ttl, value, now) =>
      RoomFacts(data, key);
      PutFacts(MakeRoom(data, key), Entry(key, now + ttl, value));
    case IncrOp(key, now) => PutFacts(data, Counted(data, key, now));
    case ExpireOp(key, ttl, now) =>
      var i := Index(data, key);
      if i < |data| {
        PutFacts(data, Entry(key, now + ttl, data[i].value));
      }
  }

  /** Over any operations the bound is kept exactly when the counter never adds a fresh key to a full table. */
  lemma {:induction false} BoundedIffNeverOverflows(data: seq<Entry>, ops: seq<Op>)
    requires Distinct(data) && |data| <= 5000
    ensures StaysBounded(data, ops) <==> NeverOverflows(data, ops)
    decreases |ops|
  {
    if ops != [] {
      SizeAfter(data, ops[0]);
      var next := AfterOp(data, ops[0]);
      if |next| <= 5000 {
        BoundedIffNeverOverflows(next, ops[1..]);
      }
    }
  }

  /** Nothing holds the excess down: each fresh counter adds an entry, however many there are. */
  lemma {:induction false} FreshCountersPileUp(data: seq<Entry>, keys: seq<string>, now: int)
    requires Distinct(data) && (forall key | key in keys :: Fresh(data, key))
    requires forall i, j | 0 <= i < j < |keys| :: keys[i] != keys[j]
    ensures |AfterOps(data, Counters(keys, now))| == |data| + |keys|
    decreases |keys|
  {
    if keys != [] {
      var op, rest := IncrOp(keys[0], now), keys[1..];
      SizeAfter(data, op);
      PutFacts(data, Counted(data, keys[0], now));
      forall key | key in rest
        ensures Fresh(AfterOp(data, op), key)
      {
        var i :| 0 <= i < |rest| && rest[i] == key;
        assert keys[i + 1] == key && keys[0] != keys[i + 1] && key in keys;
        assert Keys(AfterOp(data, op)) == Keys(data) + {keys[0]};
      }
      assert keys[0] in keys;
      FreshCountersPileUp(AfterOp(data, op), rest, now);
      assert Counters(keys, now)[1..] == Counters(rest, now);
    }
  }

  function Counters(keys: seq<string>, now: int): (ops: seq<Op>)
    ensures |ops| == |keys|
  {
    if keys == [] then [] else [IncrOp(keys[0], now)] + Counters(keys[1..], now)
  }

  // ---------- the timed map ----------

  /** `model` is the timed map; `evicted` the keys thrown out to make room. */
  predicate Refines(data: seq<Entry>, model: map<string, Timed>, evicted: set<string>, clock: int) {
    && Distinct(data)
    && (forall e | e in data :: e.key in model && model[e.key] == Timed(e.expires, e.value) && e.key !in evicted)
    && (forall k | k in model && k !in Keys(data) :: k in evicted || model[k].expires < clock)
  }

  lemma AfterPut(data: seq<Entry>, model: map<string, Timed>, evicted: set<string>, clock: int, now: int, e: Entry)
    requires Refines(data, model, evicted, clock) && clock <= now
    ensures Refines(Put(data, e), model[e.key := Timed(e.expires, e.value)], evicted - {e.key}, now)
  {
    PutFacts(data, e);
  }

  lemma AfterEviction(data: seq<Entry>, model: map<string, Timed>, evicted: set<string>, clock: int, n: nat)
    requires Refines(data, model, evicted, clock) && n <= |data|
    ensures Refines(data[n..], model, evicted + Keys(data[..n]), clock)
  {
    Dropped(data, n);
    forall e | e in data[n..]
      ensures e in data && e.key !in Keys(data[..n])
    {
      assert e.key in Keys(data[n..]);
    }
  }

  lemma AfterExpiry(data: seq<Entry>, model: map<string, Timed>, evicted: set<string>, clock: int, now: int, key: string)
    requires Refines(data, model, evicted, clock) && clock <= now
    requires key in Keys(data) && data[Index(data, key)].expires < now
    ensures Refines(Without(data, {key}), model, evicted, now)
  {
    WithoutFacts(data, {key});
  }

  lemma AfterDelete(data: seq<Entry>, model: map<string, Timed>, evicted: set<string>, clock: int, keys: set<string>)
    requires Refines(data, model, evicted, clock)
    ensures Refines(Without(data, keys), model - keys, evicted, clock)
  {
    WithoutFacts(data, keys);
  }

  lemma LookUp(data: seq<Entry>, model: map<string, Timed>, evicted: set<string>, clock: int, now: int, key: string)
    requires Refines(data, model, evicted, clock) && clock <= now
    ensures key in Keys(data) ==>
              && key in model && key !in evicted
              && model[key] == Timed(data[Index(data, key)].expires, data[Index(data, key)].value)
    ensures key !in Keys(data) && key in model ==> key in evicted || model[key].expires < now
  {
  }

  // ---------- the store ----------

  /** What `fnmatchcase` makes of patterns with `?` or `[` is not spelled out here. */
  predicate Globs(foreign: (string, string) -> bool, pattern: string, key: string) {
    if '?' in pattern || '[' in pattern then foreign(pattern, key) else Match(pattern, key)
  }

  class Store {
    const foreign: (string, string) -> bool
    var data: seq<Entry>
    ghost var model: map<string, Timed>
    ghost var evicted: set<string>
    ghost var clock: int

    constructor (foreign: (string, string) -> bool, ghost start: int)
      ensures Valid() && data == [] && model == map[] && evicted == {} && clock == start && this.foreign == foreign
    {
      this.foreign, this.data, this.model, this.evicted, this.clock := foreign, [], map[], {}, start;
    }

    ghost predicate Valid()
      reads this
    {
      Refines(data, model, evicted, clock)
    }

    /** The timed map holds the key, not expired, and the store has not evicted it. */
    ghost predicate Live(key: string, now: int)
      reads this
    {
      key in model && now <= model[key].expires && key !in evicted
    }

    /** A value exactly when the key is live, and then the last one set. */
    method Get(key: string, now: int) returns (value: Option<Value>)
      requires Valid() && clock <= now
      modifies this`data, this`clock
      ensures Valid() && clock == now && evicted == old(evicted) && model == old(model)
      ensures data == AfterOp(old(data), GetOp(key, now))
      ensures value == (if old(Live(key, now)) then Some(old(model)[key].value) else None)
    {
      hide Refines, Keys;
      LookUp(data, model, evicted, clock, now, key);
      var i := Index(data, key);
      if i == |data| {
        Later(data, model, evicted, clock, now);
        clock := now;
        return None;
      }
      if data[i].expires < now {
        AfterExpiry(data, model, evicted, clock, now, key);
        data := Without(data, {key});
        clock := now;
        return None;
      }
      value := Some(data[i].value);
      Later(data, model, evicted, clock, now);
      clock := now;
    }

    /** A fresh key at capacity first throws out the oldest entries; the size never passes the bound. */
    method SetEx(key: string, ttl: int, value: Value, now: int)
      requires Valid() && clock <= now
      modifies this
      ensures Valid() && clock == now
      ensures model == old(model)[key := Timed(now + ttl, value)] && key !in evicted
      ensures data == AfterOp(old(data), SetOp(key, ttl, value, now))
      ensures |old(data)| < 5000 || key in old(Keys(data)) ==> evicted == old(evicted) - {key}
      ensures |old(data)| >= 5000 && key !in old(Keys(data)) ==>
                evicted == old(evicted) + old(Keys(data[..500])) - {key}
    {
      hide Refines, Keys;
      if |data| >= MAX_ENTRIES && Index(data, key) == |data| {
        AfterEviction(data, model, evicted, clock, DROP);
        evicted := evicted + Keys(data[..DROP]);
        data := data[DROP..];
      }
      Assign(key, now + ttl, value, now);
    }

    /** Assignment to a key of the table. */
    method Assign(key: string, expires: int, value: Value, ghost now: int)
      requires Valid() && clock <= now
      modifies this
      ensures Valid() && clock == now
      ensures model == old(model)[key := Timed(expires, value)] && evicted == old(evicted) - {key}
      ensures data == Put(old(data), Entry(key, expires, value))
      ensures |data| == |old(data)| + (if key in old(Keys(data)) then 0 else 1)
    {
      var e := Entry(key, expires, value);
      AfterPut(data, model, evicted, clock, now, e);
      PutFacts(data, e);
      data := Put(data, e);
      model := model[key := Timed(expires, value)];
      evicted := evicted - {key};
      clock := now;
    }

    method Delete(keys: seq<string>) returns (n: nat)
      requires Valid()
      modifies this`data, this`model
      ensures Valid() && n == |old(data)| - |data|
      ensures model == old(model) - Elements(keys) && data == AfterOp(old(data), DeleteOp(keys))
    {
      hide Refines, Keys, Without;
      n := 0;
      ghost var before, timed := data, model;
      WithoutNothing(data);
      var i := 0;
      assert Elements(keys[..0]) == {};
      while i < |keys|
        invariant 0 <= i <= |keys| && n == |before| - |data|
        invariant Valid() && clock == old(clock) && evicted == old(evicted)
        invariant data == Without(before, Elements(keys[..i])) && model == timed - Elements(keys[..i])
      {
        OneMore(keys, i, timed);
        if Index(data, keys[i]) < |data| {
          n := n + 1;
        }
        OneDeleted(data, model, evicted, clock, keys[i]);
        AfterDelete(data, model, evicted, clock, {keys[i]});
        WithoutTwice(before, Elements(keys[..i]), {keys[i]});
        data := Without(data, {keys[i]});
        model := model - {keys[i]};
        i := i + 1;
      }
      assert keys[..|keys|] == keys;
    }

    /** The keys a pattern matches, in the order of the table. */
    method ScanKeys(pattern: string) returns (keys: seq<string>)
      requires Valid()
      ensures forall k :: k in keys <==> k in Keys(data) && Globs(foreign, pattern, k)
    {
      keys := [];
      var i := 0;
      while i < |data|
        invariant 0 <= i <= |data|
        invariant forall k :: k in keys <==> k in Keys(data[..i]) && Globs(foreign, pattern, k)
      {
        assert data[..i + 1] == data[..i] + [data[i]];
        assert Keys(data[..i + 1]) == Keys(data[..i]) + {data[i].key};
        if Globs(foreign, pattern, data[i].key) {
          keys := keys + [data[i].key];
        }
        i := i + 1;
      }
      assert data[..|data|] == data;
    }

    /** The counter: one more while the key is live and holds a number, else 1; an expired or missing key gets a day. */
    method Incr(key: string, now: int) returns (count: int)
      requires Valid() && clock <= now
      modifies this
      ensures Valid() && clock == now && evicted == old(evicted) - {key}
      ensures old(Live(key, now)) ==>
                && count == (if old(model)[key].value.Number? then old(model)[key].value.n + 1 else 1)
                && model == old(model)[key := Timed(old(model)[key].expires, Number(count))]
      ensures !old(Live(key, now)) ==> count == 1 && model == old(model)[key := Timed(now + 86400, Number(1))]
      ensures data == AfterOp(old(data), IncrOp(key, now)) && count == CountOf(old(data), key, now)
      ensures |data| == |old(data)| + (if old(Fresh(data, key)) then 1 else 0)
    {
      hide Refines, Keys;
      LookUp(data, model, evicted, clock, now, key);
      var i := Index(data, key);
      var expires := now + DAY;
      count := 1;
      if i < |data| && data[i].expires >= now {
        expires := data[i].expires;
        if data[i].value.Number? {
          count := data[i].value.n + 1;
        }
      }
      Assign(key, expires, Number(count), now);
    }

    method Expire(key: string, ttl: int, now: int) returns (found: bool)
      requires Valid() && clock <= now
      modifies this
      ensures Valid() && clock == now && evicted == old(evicted) && (found <==> key in old(Keys(data)))
      ensures data == AfterOp(old(data), ExpireOp(key, ttl, now)) && |data| == |old(data)|
      ensures found ==> key in old(model) && model == old(model)[key := Timed(now + ttl, old(model)[key].value)]
      ensures !found ==> model == old(model)
    {
      hide Refines, Keys;
      LookUp(data, model, evicted, clock, now, key);
      var i := Index(data, key);
      if i == |data| {
        Later(data, model, evicted, clock, now);
        clock := now;
        return false;
      }
      Assign(key, now + ttl, data[i].value, now);
      found := true;
    }

    /** The fixed-window counter: the window is set by a hit that counts 1 and never moved by another. */
    method IncrWithTtl(key: string, ttl: int, now: int, later: int) returns (count: int)
      requires Valid() && clock <= now <= later
      modifies this
      ensures Valid() && clock <= later && evicted == old(evicted) - {key}
      ensures count == (if old(Live(key, now)) && old(model)[key].value.Number? then old(model)[key].value.n + 1 else 1)
      ensures count != 1 ==> key in old(model)
      ensures model == old(model)[key := Timed(if count == 1 then later + ttl else old(model)[key].expires, Number(count))]
      ensures |data| == |old(data)| + (if old(Fresh(data, key)) then 1 else 0)
      ensures data == AfterHit(old(data), key, ttl, now, later) && count == CountOf(old(data), key, now)
    {
      hide Refines, Keys, AfterOp, CountOf;
      count := Incr(key, now);
      CountedIsThere(data, model, evicted, clock, key);
      if count == 1 {
        var found := Expire(key, ttl, later);
      }
    }
  }

  lemma CountedIsThere(data: seq<Entry>, model: map<string, Timed>, evicted: set<string>, clock: int, key: string)
    requires Refines(data, model, evicted, clock) && key in model && key !in evicted && clock <= model[key].expires
    ensures key in Keys(data)
  {
  }

  lemma OneDeleted(data: seq<Entry>, model: map<string, Timed>, evicted: set<string>, clock: int, key: string)
    requires Refines(data, model, evicted, clock)
    ensures |Without(data, {key})| == |data| - (if key in Keys(data) then 1 else 0)
  {
    WithoutOne(data, key);
  }

  lemma Later(data: seq<Entry>, model: map<string, Timed>, evicted: set<string>, clock: int, now: int)
    requires Refines(data, model, evicted, clock) && clock <= now
    ensures Refines(data, model, evicted, now)
  {
  }

  lemma {:induction false} NotLonger(data: seq<Entry>, keys: set<string>)
    ensures |Without(data, keys)| <= |data|
  {
    if data != [] {
      NotLonger(data[..|data| - 1], keys);
    }
  }

  lemma OneMore(keys: seq<string>, i: nat, timed: map<string, Timed>)
    requires i < |keys|
    ensures Elements(keys[..i + 1]) == Elements(keys[..i]) + {keys[i]}
    ensures timed - Elements(keys[..i]) - {keys[i]} == timed - Elements(keys[..i + 1])
  {
    assert Elements(keys[..i + 1]) == Elements(keys[..i]) + {keys[i]};
  }

  lemma {:induction false} WithoutNothing(data: seq<Entry>)
    ensures Without(data, {}) == data
  {
    if data != [] {
      WithoutNothing(data[..|data| - 1]);
    }
  }

  lemma {:induction false} WithoutTwice(data: seq<Entry>, a: set<string>, b: set<string>)
    ensures Without(Without(data, a), b) == Without(data, a + b)
  {
    if data != [] {
      var init, last := data[..|data| - 1], data[|data| - 1];
      WithoutTwice(init, a, b);
      var once := Without(data, a);
      if last.key !in a {
        assert once[..|once| - 1] == Without(init, a) && once[|once| - 1] == last;
      }
    }
  }
}
