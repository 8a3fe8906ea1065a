/**
 The key-value store behind leases and execution claims.

 `Timed` is the abstract store: a map whose entries exist exactly while now < expiresAt, dropped
 the moment the clock reaches their expiry. `InMemoryKV` is the store as written, which leaves
 expired entries in place and deletes them when it next reads their key.
 */
module TimedStore {
  import opened Core

  datatype Entry<V> = Entry(value: V, expiresAt: real)

  datatype Timed<K, V> = Timed(now: real, live: map<K, Entry<V>>, counters: map<K, nat>)

  /** The entries that have not expired. */
  function Sweep<K, V>(entries: map<K, Entry<V>>, now: real): map<K, Entry<V>> {
    map k | k in entries && now < entries[k].expiresAt :: entries[k]
  }

  /** SET NX EX on live entries; it succeeds exactly when the key is absent. */
  function Take<K, V>(live: map<K, Entry<V>>, now: real, key: K, value: V, ttl: real): map<K, Entry<V>> {
    if key in live || ttl <= 0.0 then live else live[key := Entry(value, now + ttl)]
  }

  predicate Holds<K, V(==)>(live: map<K, Entry<V>>, key: K, expected: V) {
    key in live && live[key].value == expected
  }

  /** Delete the key only if it currently holds `expected`. */
  function Drop<K, V(==)>(live: map<K, Entry<V>>, key: K, expected: V): map<K, Entry<V>> {
    if Holds(live, key, expected) then live - {key} else live
  }

  function Counter<K>(counters: map<K, nat>, key: K): nat {
    if key in counters then counters[key] else 0
  }

  datatype Op<K, V> =
    | Get(key: K)
    | SetIfAbsent(key: K, value: V, ttl: real)
    | Incr(key: K)
    | CompareAndDelete(key: K, expected: V)
    | Pass(seconds: real)

  datatype Answer<V> = Found(value: Option<V>) | Flag(ok: bool) | Number(n: nat) | Silent

  /** The clock never runs backwards. */
  predicate Forward<K, V>(ops: seq<Op<K, V>>) {
    forall i :: 0 <= i < |ops| && ops[i].Pass? ==> 0.0 <= ops[i].seconds
  }

  function Do<K, V(==)>(t: Timed<K, V>, op: Op<K, V>): Timed<K, V> {
    match op
    case Get(_) => t
    case SetIfAbsent(k, v, ttl) => t.(live := Take(t.live, t.now, k, v, ttl))
    case Incr(k) => t.(counters := t.counters[k := Counter(t.counters, k) + 1])
    case CompareAndDelete(k, v) => t.(live := Drop(t.live, k, v))
    case Pass(dt) => t.(now := t.now + dt, live := Sweep(t.live, t.now + dt))
  }

  function Reply<K, V(==)>(t: Timed<K, V>, op: Op<K, V>): Answer<V> {
    match op
    case Get(k) => Found(if k in t.live then Some(t.live[k].value) else None)
    case SetIfAbsent(k, _, _) => Flag(k !in t.live)
    case Incr(k) => Number(Counter(t.counters, k) + 1)
    case CompareAndDelete(k, v) => Flag(Holds(t.live, k, v))
    case Pass(_) => Silent
  }

  /** The store after a script, and the answer to the script's i-th operation. */
  function After<K, V(==)>(t: Timed<K, V>, ops: seq<Op<K, V>>): Timed<K, V> {
    if ops == [] then t else Do(After(t, ops[..|ops| - 1]), ops[|ops| - 1])
  }

  function AnswerAt<K, V(==)>(t: Timed<K, V>, ops: seq<Op<K, V>>, i: nat): Answer<V>
    requires i < |ops|
  {
    Reply(After(t, ops[..i]), ops[i])
  }

  lemma AfterNext<K, V>(t: Timed<K, V>, ops: seq<Op<K, V>>, i: nat)
    requires i < |ops|
    ensures After(t, ops[..i + 1]) == Do(After(t, ops[..i]), ops[i])
  {
    assert ops[..i + 1][..i] == ops[..i];
  }

  class FakeClock {
    var now: real

    constructor (start: real)
      ensures now == start
    {
      now := start;
    }

    method Advance(seconds: real)
      modifies this
      ensures now == old(now) + seconds
    {
      now := now + seconds;
    }
  }

  class InMemoryKV<K(==), V(==)> {
    const clock: FakeClock
    var data: map<K, Entry<V>>
    var counters: map<K, nat>

    /** What a client of the store can observe. */
    ghost function View(): Timed<K, V>
      reads this, clock
    {
      Timed(clock.now, Sweep(data, clock.now), counters)
    }

    constructor (clock: FakeClock)
      ensures this.clock == clock && View() == Timed(clock.now, map[], map[])
    {
      this.clock := clock;
      data := map[];
      counters := map[];
    }

    /** `_live`: the unexpired entry of a key; an expired one is deleted on the way. */
    method Live(key: K) returns (entry: Option<Entry<V>>)
      modifies this`data
      ensures View() == old(View())
      ensures entry == (if key in View().live then Some(View().live[key]) else None)
      ensures key in data <==> key in View().live
    {
      if key !in data {
        return None;
      }
      if data[key].expiresAt <= clock.now {
        data := data - {key};
        return None;
      }
      return Some(data[key]);
    }

    method Get(key: K) returns (value: Option<V>)
      modifies this`data
      ensures View() == Do(old(View()), Op.Get(key))
      ensures Found(value) == Reply(old(View()), Op.Get(key))
    {
      var entry := Live(key);
      value := if entry.Some? then Some(entry.value.value) else None;
    }

    method SetIfAbsent(key: K, value: V, ttl: real) returns (ok: bool)
      modifies this`data
      ensures View() == Do(old(View()), Op.SetIfAbsent(key, value, ttl))
      ensures Flag(ok) == Reply(old(View()), Op.SetIfAbsent(key, value, ttl))
    {
      var entry := Live(key);
      if entry.Some? {
        return false;
      }
      data := data[key := Entry(value, clock.now + ttl)];
      return true;
    }

    method Incr(key: K) returns (n: nat)
      modifies this`counters
      ensures View() == Do(old(View()), Op.Incr(key))
      ensures Answer<V>.Number(n) == Reply(old(View()), Op.Incr(key))
    {
      counters := counters[key := Counter(counters, key) + 1];
      n := counters[key];
    }

    method CompareAndDelete(key: K, expected: V) returns (ok: bool)
      modifies this`data
      ensures View() == Do(old(View()), Op.CompareAndDelete(key, expected))
      ensures Flag(ok) == Reply(old(View()), Op.CompareAndDelete(key, expected))
    {
      var entry := Live(key);
      if entry.None? || entry.value.value != expected {
        return false;
      }
      data := data - {key};
      return true;
    }

    /** The clock moves while the store is not looking. */
    method Wait(seconds: real)
      requires 0.0 <= seconds
      modifies clock
      ensures View() == Do(old(View()), Pass(seconds))
    {
      clock.Advance(seconds);
    }

    /**
     Lazy expiry is invisible: for every script of operations and forward clock movements, the
     store gives the abstract store's answers, one by one, and ends in its state.
     */
    method RunScript(ops: seq<Op<K, V>>) returns (answers: seq<Answer<V>>)
      requires Forward(ops)
      modifies this, clock
      ensures View() == After(old(View()), ops)
      ensures |answers| == |ops|
      ensures forall i :: 0 <= i < |ops| ==> answers[i] == AnswerAt(old(View()), ops, i)
    {
      answers := [];
      for i := 0 to |ops|
        invariant View() == After(old(View()), ops[..i])
        invariant |answers| == i
        invariant forall k :: 0 <= k < i ==> answers[k] == AnswerAt(old(View()), ops, k)
      {
        AfterNext(old(View()), ops, i);
        var answer: Answer<V>;
        match ops[i] {
          case Get(k) => var v := Get(k); answer := Found(v);
          case SetIfAbsent(k, v, ttl) => var ok := SetIfAbsent(k, v, ttl); answer := Flag(ok);
          case Incr(k) => var n := Incr(k); answer := Number(n);
          case CompareAndDelete(k, v) => var ok := CompareAndDelete(k, v); answer := Flag(ok);
          case Pass(dt) => Wait(dt); answer := Silent;
        }
        answers := answers + [answer];
      }
      assert ops[..|ops|] == ops;
    }
  }

  /** `ops[i]` is a SET NX on `key` that succeeded, leaving an entry that lives until `Until`. */
  predicate Granted<K(==), V(==)>(t: Timed<K, V>, ops: seq<Op<K, V>>, i: nat, key: K) {
    i < |ops| && ops[i].SetIfAbsent? && ops[i].key == key && AnswerAt(t, ops, i) == Flag(true)
  }

  function Until<K, V(==)>(t: Timed<K, V>, ops: seq<Op<K, V>>, i: nat): real
    requires i < |ops| && ops[i].SetIfAbsent?
  {
    After(t, ops[..i]).now + ops[i].ttl
  }

  /** `ops[d]` deleted `key` on behalf of the owner that stored `value`. */
  predicate Released<K(==), V(==)>(t: Timed<K, V>, ops: seq<Op<K, V>>, d: nat, key: K, value: V) {
    d < |ops| && ops[d] == CompareAndDelete(key, value) && AnswerAt(t, ops, d) == Flag(true)
  }

  lemma {:induction false} ClockForward<K, V>(t: Timed<K, V>, ops: seq<Op<K, V>>, i: nat, j: nat)
    requires Forward(ops) && i <= j <= |ops|
    ensures After(t, ops[..i]).now <= After(t, ops[..j]).now
  {
    if i < j {
      ClockForward(t, ops, i, j - 1);
      AfterNext(t, ops, j - 1);
    }
  }

  /** While a granted entry is neither expired nor released by its owner, it is what the key holds. */
  lemma {:induction false} GrantPersists<K, V>(t: Timed<K, V>, ops: seq<Op<K, V>>, i: nat, j: nat, key: K)
    requires Forward(ops) && Granted(t, ops, i, key) && i < j <= |ops|
    requires After(t, ops[..j]).now < Until(t, ops, i)
    requires forall d :: i < d < j ==> !Released(t, ops, d, key, ops[i].value)
    ensures key in After(t, ops[..j]).live
    ensures After(t, ops[..j]).live[key] == Entry(ops[i].value, Until(t, ops, i))
  {
    AfterNext(t, ops, j - 1);
    ClockForward(t, ops, j - 1, j);
    if i < j - 1 {
      GrantPersists(t, ops, i, j - 1, key);
      assert !Released(t, ops, j - 1, key, ops[i].value);
    }
  }

  /**
   A store that starts empty holds a key exactly while some grant of it is neither expired nor
   released, and then the value and the expiry of that grant: entries exist for their TTL, no longer
   and no shorter.
   */
  lemma {:induction false} LiveExactlyWhileGranted<K, V>(t: Timed<K, V>, ops: seq<Op<K, V>>, key: K)
    requires Forward(ops) && t.live == map[]
    ensures key in After(t, ops).live <==> exists i :: Standing(t, ops, i, key)
    ensures forall i: nat :: Standing(t, ops, i, key) ==>
              key in After(t, ops).live && After(t, ops).live[key] == Entry(ops[i].value, Until(t, ops, i))
  {
    assert ops[..|ops|] == ops;
    forall i: nat | Standing(t, ops, i, key)
      ensures key in After(t, ops).live && After(t, ops).live[key] == Entry(ops[i].value, Until(t, ops, i))
    {
      GrantPersists(t, ops, i, |ops|, key);
    }
    if key in After(t, ops).live {
      var i := GrantOf(t, ops, |ops|, key);
      assert Standing(t, ops, i, key);
    }
  }

  predicate Standing<K(==), V(==)>(t: Timed<K, V>, ops: seq<Op<K, V>>, i: nat, key: K) {
    && Granted(t, ops, i, key)
    && After(t, ops).now < Until(t, ops, i)
    && forall d :: i < d < |ops| ==> !Released(t, ops, d, key, ops[i].value)
  }

  /** The grant behind a live entry. */
  lemma {:induction false} GrantOf<K, V>(t: Timed<K, V>, ops: seq<Op<K, V>>, n: nat, key: K) returns (i: nat)
    requires Forward(ops) && t.live == map[] && n <= |ops| && key in After(t, ops[..n]).live
    ensures i < n && Granted(t, ops, i, key)
    ensures After(t, ops[..n]).live[key] == Entry(ops[i].value, Until(t, ops, i))
    ensures After(t, ops[..n]).now < Until(t, ops, i)
    ensures forall d :: i < d < n ==> !Released(t, ops, d, key, ops[i].value)
  {
    AfterNext(t, ops, n - 1);
    if key in After(t, ops[..n - 1]).live {
      i := GrantOf(t, ops, n - 1, key);
    } else {
      i := n - 1;
    }
  }

  /**
   Timed mutual exclusion, for leases and claims alike: two successful SET NX on one key are a
   full TTL apart, unless the first owner released its entry in between.
   */
  lemma MutualExclusion<K, V>(t: Timed<K, V>, ops: seq<Op<K, V>>, i: nat, j: nat, key: K)
    requires Forward(ops) && i < j && Granted(t, ops, i, key) && Granted(t, ops, j, key)
    ensures || Until(t, ops, i) <= After(t, ops[..j]).now
            || exists d :: i < d < j && Released(t, ops, d, key, ops[i].value)
  {
    if After(t, ops[..j]).now < Until(t, ops, i)
       && forall d :: i < d < j ==> !Released(t, ops, d, key, ops[i].value) {
      GrantPersists(t, ops, i, j, key);
    }
  }

  /** Fencing tokens: of two increments of one counter, in any script, the later returns more. */
  lemma {:induction false} TokensIncrease<K, V>(t: Timed<K, V>, ops: seq<Op<K, V>>, i: nat, j: nat, key: K)
    requires i < j < |ops| && ops[i] == Incr(key) && ops[j] == Incr(key)
    ensures AnswerAt(t, ops, i).Number? && AnswerAt(t, ops, j).Number?
    ensures AnswerAt(t, ops, i).n < AnswerAt(t, ops, j).n
  {
    AfterNext(t, ops, i);
    CountersGrow(t, ops, i + 1, j, key);
  }

  lemma {:induction false} CountersGrow<K, V>(t: Timed<K, V>, ops: seq<Op<K, V>>, i: nat, j: nat, key: K)
    requires i <= j <= |ops|
    ensures Counter(After(t, ops[..i]).counters, key) <= Counter(After(t, ops[..j]).counters, key)
  {
    if i < j {
      CountersGrow(t, ops, i, j - 1, key);
      AfterNext(t, ops, j - 1);
    }
  }
}
