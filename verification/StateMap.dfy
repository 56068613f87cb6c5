// Maps whose entries expire.
module StateMaps {
  import opened Records

  datatype Entry<+V> = Entry(value: V, expiresAt: int)

  type Table<!K, +V> = map<K, Entry<V>>

  // ---- The map as a value

  function Live<K, V>(m: Table<K, V>, k: K, now: int): Option<Entry<V>>
  {
    if k in m && now <= m[k].expiresAt then Some(m[k]) else None
  }

  function Lookup<K, V>(m: Table<K, V>, k: K, now: int): Option<V>
  {
    if k in m && now <= m[k].expiresAt then Some(m[k].value) else None
  }

  // With a limit, a full map takes no new key.
  predicate HasRoom<K, V>(m: Table<K, V>, k: K, maxEntries: int)
  {
    maxEntries > 0 && |m| >= maxEntries ==> k in m
  }

  function Store<K, V>(m: Table<K, V>, k: K, v: V, now: int, ttl: nat, maxEntries: int): Table<K, V>
  {
    if HasRoom(m, k, maxEntries) then m[k := Entry(v, now + ttl)] else m
  }

  function Remove<K, V>(m: Table<K, V>, k: K): Table<K, V>
  {
    map k' | k' in m && k' != k :: m[k']
  }

  function Swept<K, V>(m: Table<K, V>, now: int): Table<K, V>
  {
    map k | k in m && now <= m[k].expiresAt :: m[k]
  }

  function Snapshot<K, V>(m: Table<K, V>, now: int): map<K, V>
  {
    map k | k in m && now <= m[k].expiresAt :: m[k].value
  }

  // ---- The map as the program keeps it; `now` is what the clock shows

  class StateMap<V> {
    var entries: map<string, Entry<V>>
    const ttl: nat
    const maxEntries: int

    constructor (ttl: nat, maxEntries: int)
      ensures entries == map[] && this.ttl == ttl && this.maxEntries == maxEntries
    {
      entries := map[];
      this.ttl := ttl;
      this.maxEntries := maxEntries;
    }

    method Set(key: string, value: V, now: int) returns (stored: bool)
      modifies this
      ensures stored == HasRoom(old(entries), key, maxEntries)
      ensures entries == Store(old(entries), key, value, now, ttl, maxEntries)
    {
      if maxEntries > 0 && |entries| >= maxEntries {
        if key !in entries {
          return false;
        }
      }
      entries := entries[key := Entry(value, now + ttl)];
      return true;
    }

    method Get(key: string, now: int) returns (value: Option<V>)
      ensures value == Lookup(entries, key, now)
    {
      if key !in entries {
        return None;
      }
      var entry := entries[key];
      if now > entry.expiresAt {
        return None;
      }
      return Some(entry.value);
    }

    method Delete(key: string)
      modifies this
      ensures entries == Remove(old(entries), key)
    {
      entries := entries - {key};
    }

    method Size() returns (n: nat)
      ensures n == |entries|
    {
      n := |entries|;
    }

    method Cleanup(now: int) returns (evicted: nat)
      modifies this
      ensures entries == Swept(old(entries), now)
      ensures evicted + |entries| == old(|entries|)
    {
      var keys := entries.Keys;
      evicted := 0;
      while keys != {}
        invariant keys <= old(entries).Keys
        invariant entries.Keys <= old(entries).Keys
        invariant forall k :: k in entries ==> entries[k] == old(entries)[k]
        invariant forall k :: k in old(entries) ==>
                    (k in entries <==> k in keys || now <= old(entries)[k].expiresAt)
        invariant evicted + |entries| == old(|entries|)
      {
        var key :| key in keys;
        if now > entries[key].expiresAt {
          Shrink(entries, key);
          entries := entries - {key};
          evicted := evicted + 1;
        }
        keys := keys - {key};
      }
    }

    // Exactly the keys a Get answers, each with its answer.
    method GetAll(now: int) returns (result: map<string, V>)
      ensures forall key :: Lookup(entries, key, now) == if key in result then Some(result[key]) else None
      ensures result == Snapshot(entries, now)
    {
      result := map[];
      var keys := entries.Keys;
      while keys != {}
        invariant keys <= entries.Keys && result.Keys <= entries.Keys
        invariant forall k :: k in entries ==>
                    (k in result <==> k !in keys && now <= entries[k].expiresAt)
        invariant forall k :: k in result ==> result[k] == entries[k].value
      {
        var key :| key in keys;
        if !(now > entries[key].expiresAt) {
          result := result[key := entries[key].value];
        }
        keys := keys - {key};
      }
    }
  }

  lemma Shrink<K, V>(m: map<K, V>, k: K)
    requires k in m
    ensures |m - {k}| == |m| - 1
  {
    assert (m - {k}).Keys == m.Keys - {k};
  }

  // ---- Against an ideal map that forgets nothing but what has expired

  datatype Op<V> = SetOp(key: string, value: V, at: int) | DeleteOp(key: string, at: int) | CleanupOp(at: int)

  function Apply<V>(m: Table<string, V>, op: Op<V>, ttl: nat, maxEntries: int): Table<string, V>
  {
    match op
    case SetOp(k, v, at) => Store(m, k, v, at, ttl, maxEntries)
    case DeleteOp(k, _) => Remove(m, k)
    case CleanupOp(at) => Swept(m, at)
  }

  function Run<V>(ops: seq<Op<V>>, ttl: nat, maxEntries: int): Table<string, V>
  {
    if ops == [] then map[]
    else Apply(Run(ops[..|ops| - 1], ttl, maxEntries), ops[|ops| - 1], ttl, maxEntries)
  }

  // The clock never runs backwards.
  predicate Monotone<V>(ops: seq<Op<V>>, now: int)
  {
    && (forall i, j :: 0 <= i < j < |ops| ==> ops[i].at <= ops[j].at)
    && (forall i :: 0 <= i < |ops| ==> ops[i].at <= now)
  }

  // What the last Set or Delete of a key left, whatever was cleaned up since.
  function LastWrite<V>(ops: seq<Op<V>>, key: string, ttl: nat): Option<Entry<V>>
  {
    if ops == [] then None
    else
      match ops[|ops| - 1]
      case SetOp(k, v, at) => if k == key then Some(Entry(v, at + ttl)) else LastWrite(ops[..|ops| - 1], key, ttl)
      case DeleteOp(k, _) => if k == key then None else LastWrite(ops[..|ops| - 1], key, ttl)
      case CleanupOp(_) => LastWrite(ops[..|ops| - 1], key, ttl)
  }

  lemma {:induction false} IdealLive<V>(ops: seq<Op<V>>, key: string, ttl: nat, now: int)
    requires Monotone(ops, now)
    ensures Live(Run(ops, ttl, 0), key, now) ==
            var w := LastWrite(ops, key, ttl);
            if w.Some? && now <= w.value.expiresAt then w else None
  {
    if ops != [] {
      IdealLive(ops[..|ops| - 1], key, ttl, now);
    }
  }

  // Without a limit, Get and GetAll answer from the last Set or Delete and the
  // clock alone.
  lemma AnswersAsIdeal<V>(ops: seq<Op<V>>, ttl: nat, now: int)
    requires Monotone(ops, now)
    ensures forall key ::
              Lookup(Run(ops, ttl, 0), key, now) ==
              var w := LastWrite(ops, key, ttl);
              if w.Some? && now <= w.value.expiresAt then Some(w.value.value) else None
    ensures forall key ::
              var w := LastWrite(ops, key, ttl);
              key in Snapshot(Run(ops, ttl, 0), now) <==> w.Some? && now <= w.value.expiresAt
    ensures forall key :: key in Snapshot(Run(ops, ttl, 0), now) ==>
              Lookup(Run(ops, ttl, 0), key, now) == Some(Snapshot(Run(ops, ttl, 0), now)[key])
  {
    forall key {
      IdealLive(ops, key, ttl, now);
    }
  }

  // With a limit the map never outgrows it, and the next Get answers a Set with
  // the new value exactly if the key was present or the map was not full; a
  // refused Set changes nothing.
  lemma LimitHolds<V>(ops: seq<Op<V>>, ttl: nat, maxEntries: int, key: string, value: V, now: int)
    requires maxEntries > 0
    ensures var m := Run(ops, ttl, maxEntries);
            var m' := Run(ops + [SetOp(key, value, now)], ttl, maxEntries);
            && |m| <= maxEntries && |m'| <= maxEntries
            && (Lookup(m', key, now) == Some(value) <==> key in m || |m| < maxEntries)
            && (key !in m && |m| == maxEntries ==> m' == m)
  {
    var all := ops + [SetOp(key, value, now)];
    assert all[..|all| - 1] == ops;
    WithinLimit(ops, ttl, maxEntries);
    WithinLimit(all, ttl, maxEntries);
  }

  lemma {:induction false} WithinLimit<V>(ops: seq<Op<V>>, ttl: nat, maxEntries: int)
    requires maxEntries > 0
    ensures |Run(ops, ttl, maxEntries)| <= maxEntries
  {
    if ops != [] {
      var front := ops[..|ops| - 1];
      WithinLimit(front, ttl, maxEntries);
      var m, last := Run(front, ttl, maxEntries), ops[|ops| - 1];
      var m' := Apply(m, last, ttl, maxEntries);
      if last.SetOp? {
        if last.key !in m && m' != m {
          assert m' - {last.key} == m;
          Shrink(m', last.key);
        } else {
          assert m'.Keys == m.Keys;
          SizeIsKeys(m);
          SizeIsKeys(m');
        }
      } else {
        assert m'.Keys <= m.Keys;
        Subset(m'.Keys, m.Keys);
      }
    }
  }

  lemma SizeIsKeys<K, V>(m: map<K, V>)
    ensures |m| == |m.Keys|
  {}

  lemma Subset<T>(a: set<T>, b: set<T>)
    requires a <= b
    ensures |a| <= |b|
  {
    assert a + (b - a) == b;
  }
}
