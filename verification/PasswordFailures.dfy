/**
 The wrong-password limiter: a table of recent failures per source and lobby,
 pruned on every use and bounded in size, proved against a log that forgets
 nothing except on success or eviction.
 */
module PasswordFailures {
  import opened Options
  import opened Addresses
  import opened Clock
  import opened Lobbies
  import opened Sets

  const MAX_FAILURES: nat := 5
  const WINDOW: nat := 300 * SECOND
  const MAX_KEYS: nat := 4096

  datatype Key = Key(source: IpAddr, lobby: LobbyId)

  type Table = map<Key, seq<Instant>>

  function Queue(table: Table, key: Key): seq<Instant> {
    if key in table then table[key] else []
  }

  function DropExpired(q: seq<Instant>, now: Instant): seq<Instant> {
    if q != [] && Elapsed(now, q[0]) > WINDOW then DropExpired(q[1..], now) else q
  }

  function PruneAll(table: Table, now: Instant): Table {
    map k | k in table && DropExpired(table[k], now) != [] :: DropExpired(table[k], now)
  }

  /** How many entries lie in the closed interval `[from, to]`. */
  function CountBetween(q: seq<Instant>, from: Instant, to: Instant): nat {
    if q == [] then 0 else (if from <= q[0] <= to then 1 else 0) + CountBetween(q[1..], from, to)
  }

  /** The oldest instant still inside the window at `now`. */
  function Horizon(now: Instant): Instant {
    if now >= WINDOW then now - WINDOW else 0
  }

  /** How many failures are no older than the window at `now`. */
  function CountRecent(q: seq<Instant>, now: Instant): nat {
    CountBetween(q, Horizon(now), now)
  }

  ghost predicate Sorted(q: seq<Instant>) {
    forall i, j :: 0 <= i <= j < |q| ==> q[i] <= q[j]
  }

  /** No window ever holds more than `MAX_FAILURES` entries: the sixth after any entry is more than a window later. */
  ghost predicate Spaced(q: seq<Instant>) {
    forall i :: 0 <= i && i + MAX_FAILURES < |q| ==> q[i + MAX_FAILURES] > q[i] + WINDOW
  }

  ghost predicate LogOk(q: seq<Instant>, clock: Instant) {
    Sorted(q) && Spaced(q) && (q != [] ==> q[|q| - 1] <= clock)
  }

  function Without(log: Table, evicted: Option<Key>): Table {
    if evicted.Some? then log - {evicted.value} else log
  }

  /** The pruned table is the log seen through the window at `clock`. */
  ghost predicate Refines(table: Table, log: Table, clock: Instant) {
    && (forall k :: Queue(table, k) == DropExpired(Queue(log, k), clock))
    && (forall k :: k in table ==> table[k] != [])
    && (forall k :: LogOk(Queue(log, k), clock))
    && |table| <= MAX_KEYS
  }

  // ----- Facts about one queue -----

  lemma {:induction false} DropTwice(q: seq<Instant>, t: Instant, now: Instant)
    requires t <= now
    ensures DropExpired(DropExpired(q, t), now) == DropExpired(q, now)
  {
    if q != [] && Elapsed(t, q[0]) > WINDOW {
      DropTwice(q[1..], t, now);
    }
  }

  lemma {:induction false} DropIsSuffix(q: seq<Instant>, now: Instant) returns (n: nat)
    ensures n <= |q| && DropExpired(q, now) == q[n..]
    ensures forall i :: 0 <= i < n ==> Elapsed(now, q[i]) > WINDOW
    ensures Sorted(q) ==> forall i :: n <= i < |q| ==> Elapsed(now, q[i]) <= WINDOW
  {
    if q != [] && Elapsed(now, q[0]) > WINDOW {
      var m := DropIsSuffix(q[1..], now);
      n := m + 1;
      assert q[1..][m..] == q[n..];
    } else {
      n := 0;
    }
  }

  lemma {:induction false} CountAll(q: seq<Instant>, from: Instant, to: Instant)
    requires forall i :: 0 <= i < |q| ==> from <= q[i] <= to
    ensures CountBetween(q, from, to) == |q|
  {
    if q != [] {
      CountAll(q[1..], from, to);
    }
  }

  /** In a sorted queue, what survives pruning is exactly what the window holds. */
  lemma {:induction false} DropKeepsRecent(q: seq<Instant>, now: Instant)
    requires Sorted(q) && (q != [] ==> q[|q| - 1] <= now)
    ensures |DropExpired(q, now)| == CountRecent(q, now)
  {
    if q != [] && Elapsed(now, q[0]) > WINDOW {
      DropKeepsRecent(q[1..], now);
    } else if q != [] {
      CountAll(q, Horizon(now), now);
    }
  }

  lemma {:induction false} DropThenPush(q: seq<Instant>, now: Instant)
    ensures DropExpired(q + [now], now) == DropExpired(q, now) + [now]
  {
    if q != [] && Elapsed(now, q[0]) > WINDOW {
      assert (q + [now])[1..] == q[1..] + [now];
      DropThenPush(q[1..], now);
    }
  }

  /** A spaced log has at most five entries still in the window. */
  lemma SpacedBoundsRecent(q: seq<Instant>, now: Instant)
    requires LogOk(q, now)
    ensures |DropExpired(q, now)| <= MAX_FAILURES
  {
    var n := DropIsSuffix(q, now);
    if |q| > MAX_FAILURES {
      var m := |q| - 1 - MAX_FAILURES;
      assert q[m + MAX_FAILURES] > q[m] + WINDOW;
      assert Elapsed(now, q[m]) > WINDOW;
    }
  }

  /** Pushing while fewer than five are recent keeps the log spaced. */
  lemma PushKeepsLog(q: seq<Instant>, now: Instant)
    requires LogOk(q, now) && |DropExpired(q, now)| < MAX_FAILURES
    ensures LogOk(q + [now], now)
  {
    var n := DropIsSuffix(q, now);
    var r := q + [now];
    forall i | 0 <= i && i + MAX_FAILURES < |r| ensures r[i + MAX_FAILURES] > r[i] + WINDOW {
      if i + MAX_FAILURES == |q| {
        assert i < n;
      } else {
        assert q[i + MAX_FAILURES] > q[i] + WINDOW;
      }
    }
  }

  /** In any interval of one window, however placed, a spaced log records at most five failures. */
  lemma {:induction false} GuessesPerWindow(q: seq<Instant>, from: Instant)
    requires Sorted(q) && Spaced(q)
    ensures CountBetween(q, from, from + WINDOW) <= MAX_FAILURES
  {
    if |q| <= MAX_FAILURES {
      CountAtMostLength(q, from, from + WINDOW);
    } else if from <= q[0] {
      assert q[MAX_FAILURES] > q[0] + WINDOW;
      var head, tail := q[..MAX_FAILURES], q[MAX_FAILURES..];
      assert q == head + tail;
      CountSplit(head, tail, from, from + WINDOW);
      CountAtMostLength(head, from, from + WINDOW);
      CountNone(tail, from, from + WINDOW);
    } else {
      forall i | 0 <= i && i + MAX_FAILURES < |q[1..]| ensures q[1..][i + MAX_FAILURES] > q[1..][i] + WINDOW {
        assert q[i + 1 + MAX_FAILURES] > q[i + 1] + WINDOW;
      }
      GuessesPerWindow(q[1..], from);
    }
  }

  lemma {:induction false} CountAtMostLength(q: seq<Instant>, from: Instant, to: Instant)
    ensures CountBetween(q, from, to) <= |q|
  {
    if q != [] {
      CountAtMostLength(q[1..], from, to);
    }
  }

  lemma {:induction false} CountNone(q: seq<Instant>, from: Instant, to: Instant)
    requires forall i :: 0 <= i < |q| ==> q[i] > to
    ensures CountBetween(q, from, to) == 0
  {
    if q != [] {
      CountNone(q[1..], from, to);
    }
  }

  lemma {:induction false} CountSplit(a: seq<Instant>, b: seq<Instant>, from: Instant, to: Instant)
    ensures CountBetween(a + b, from, to) == CountBetween(a, from, to) + CountBetween(b, from, to)
  {
    if a == [] {
      assert a + b == b;
    } else {
      assert (a + b)[1..] == a[1..] + b;
      CountSplit(a[1..], b, from, to);
    }
  }

  // ----- Facts about the table -----

  /** Pruning to a later clock keeps the refinement. */
  lemma PruneRefines(table: Table, log: Table, clock: Instant, now: Instant)
    requires Refines(table, log, clock) && clock <= now
    ensures Refines(PruneAll(table, now), log, now)
  {
    var pruned := PruneAll(table, now);
    forall k ensures Queue(pruned, k) == DropExpired(Queue(log, k), now) {
      DropTwice(Queue(log, k), clock, now);
    }
    Smaller(pruned.Keys, table.Keys);
  }

  /** A key is locked exactly when its log has five failures inside the window; no other key matters. */
  lemma LockedIffFiveRecent(table: Table, log: Table, now: Instant, key: Key)
    requires Refines(table, log, now)
    ensures |Queue(table, key)| >= MAX_FAILURES <==> CountRecent(Queue(log, key), now) >= MAX_FAILURES
    ensures |Queue(table, key)| <= MAX_FAILURES
  {
    DropKeepsRecent(Queue(log, key), now);
    SpacedBoundsRecent(Queue(log, key), now);
  }

  lemma PushRefines(table: Table, log: Table, now: Instant, key: Key)
    requires Refines(table, log, now) && |Queue(table, key)| < MAX_FAILURES
    requires key in table || |table| < MAX_KEYS
    ensures Refines(table[key := Queue(table, key) + [now]], log[key := Queue(log, key) + [now]], now)
  {
    var table2, log2 := table[key := Queue(table, key) + [now]], log[key := Queue(log, key) + [now]];
    DropThenPush(Queue(log, key), now);
    PushKeepsLog(Queue(log, key), now);
    forall k ensures Queue(table2, k) == DropExpired(Queue(log2, k), now) && LogOk(Queue(log2, k), now) {
      assert k != key ==> Queue(table2, k) == Queue(table, k) && Queue(log2, k) == Queue(log, k);
    }
    assert table2.Keys == table.Keys + {key};
  }

  lemma RemoveRefines(table: Table, log: Table, clock: Instant, key: Key)
    requires Refines(table, log, clock)
    ensures Refines(table - {key}, log - {key}, clock)
    ensures key in table ==> |table - {key}| < MAX_KEYS
  {
    forall k ensures Queue(table - {key}, k) == DropExpired(Queue(log - {key}, k), clock)
      ensures LogOk(Queue(log - {key}, k), clock)
    {
      assert k != key ==> Queue(table - {key}, k) == Queue(table, k) && Queue(log - {key}, k) == Queue(log, k);
    }
    assert (table - {key}).Keys == table.Keys - {key};
    Smaller((table - {key}).Keys, table.Keys);
  }

  /** The time of the last failure; no tracked queue is empty. */
  function Newest(q: seq<Instant>): Instant {
    if q == [] then 0 else q[|q| - 1]
  }

  predicate LeastRecent(table: Table, key: Key) {
    key in table && forall k :: k in table ==> Newest(table[key]) <= Newest(table[k])
  }

  /** Who is retired when `key` fails: the least recently failed key, and only if a new key meets a full table. */
  ghost predicate EvictionRule(pruned: Table, key: Key, evicted: Option<Key>) {
    && (evicted.Some? <==> key !in pruned && |pruned| >= MAX_KEYS)
    && (evicted.Some? ==> LeastRecent(pruned, evicted.value))
  }

  /** The pruned table after one more failure of `key`; a queue that already holds five is left alone. */
  function Recorded(pruned: Table, key: Key, now: Instant, evicted: Option<Key>): Table {
    var room := Without(pruned, evicted);
    if |Queue(pruned, key)| < MAX_FAILURES then room[key := Queue(pruned, key) + [now]] else room
  }

  lemma PruneTwice(table: Table, now: Instant)
    ensures PruneAll(PruneAll(table, now), now) == PruneAll(table, now)
  {
    forall k | k in table ensures DropExpired(DropExpired(table[k], now), now) == DropExpired(table[k], now) {
      DropTwice(table[k], now, now);
    }
  }

  lemma LeastRecentExists(table: Table) returns (key: Key)
    requires table != map[]
    ensures LeastRecent(table, key)
    decreases |table|
  {
    var first :| first in table;
    var rest := table - {first};
    assert rest.Keys == table.Keys - {first};
    if rest == map[] {
      key := first;
      assert forall k :: k in table && k != first ==> k in rest;
    } else {
      var least := LeastRecentExists(rest);
      key := if Newest(table[first]) <= Newest(table[least]) then first else least;
      assert forall k :: k in table && k != first ==> k in rest && rest[k] == table[k];
    }
  }

  class FailureTable {
    var attempts: Table
    ghost var log: Table
    ghost var clock: Instant

    ghost predicate Valid()
      reads this
    {
      Refines(attempts, log, clock)
    }

    constructor ()
      ensures Valid() && attempts == map[] && log == map[] && clock == 0
    {
      attempts, log, clock := map[], map[], 0;
    }

    method Prune(now: Instant)
      requires Valid() && clock <= now
      modifies this
      ensures Valid() && log == old(log) && clock == now
      ensures attempts == PruneAll(old(attempts), now)
    {
      var kept: Table := map[];
      var pending := attempts.Keys;
      while pending != {}
        invariant pending <= attempts.Keys
        invariant attempts == old(attempts) && log == old(log) && clock == old(clock)
        invariant forall k :: k in kept <==> k in attempts && k !in pending && DropExpired(attempts[k], now) != []
        invariant forall k :: k in kept ==> kept[k] == DropExpired(attempts[k], now)
        decreases pending
      {
        var k :| k in pending;
        var queue := attempts[k];
        while queue != [] && Elapsed(now, queue[0]) > WINDOW
          invariant DropExpired(queue, now) == DropExpired(attempts[k], now)
          decreases |queue|
        {
          queue := queue[1..];
        }
        if queue != [] {
          kept := kept[k := queue];
        }
        pending := pending - {k};
      }
      PruneRefines(attempts, log, clock, now);
      assert kept == PruneAll(attempts, now);
      attempts, clock := kept, now;
    }

    method IsLocked(key: Key, now: Instant) returns (locked: bool)
      requires Valid() && clock <= now
      modifies this
      ensures Valid() && log == old(log) && clock == now && attempts == PruneAll(old(attempts), now)
      ensures locked <==> CountRecent(Queue(log, key), now) >= MAX_FAILURES
    {
      Prune(now);
      LockedIffFiveRecent(attempts, log, now, key);
      locked := key in attempts && |attempts[key]| >= MAX_FAILURES;
    }

    /** If a new key would overflow the table, retire the least recently failed one. */
    method MakeRoom(key: Key) returns (evicted: Option<Key>)
      requires Valid()
      modifies this
      ensures Valid() && clock == old(clock)
      ensures key in attempts || |attempts| < MAX_KEYS
      ensures evicted.Some? <==> key !in old(attempts) && |old(attempts)| >= MAX_KEYS
      ensures evicted.None? ==> log == old(log) && attempts == old(attempts)
      ensures evicted.Some? ==>
                && LeastRecent(old(attempts), evicted.value)
                && log == old(log) - {evicted.value} && attempts == old(attempts) - {evicted.value}
    {
      evicted := None;
      if key !in attempts && |attempts| >= MAX_KEYS {
        ghost var least := LeastRecentExists(attempts);
        var oldest :| oldest in attempts && LeastRecent(attempts, oldest);
        RemoveRefines(attempts, log, clock, oldest);
        attempts, log := attempts - {oldest}, log - {oldest};
        evicted := Some(oldest);
      }
    }

    /** Append the current instant to the key's queue unless it already holds five. */
    method Push(key: Key, now: Instant)
      requires Valid() && clock == now && (key in attempts || |attempts| < MAX_KEYS)
      modifies this
      ensures Valid() && clock == now
      ensures attempts == Recorded(old(attempts), key, now, None)
      ensures log == if CountRecent(Queue(old(log), key), now) >= MAX_FAILURES then old(log)
                     else old(log)[key := Queue(old(log), key) + [now]]
    {
      LockedIffFiveRecent(attempts, log, now, key);
      var queue := if key in attempts then attempts[key] else [];
      if |queue| < MAX_FAILURES {
        PushRefines(attempts, log, now, key);
        attempts, log := attempts[key := queue + [now]], log[key := Queue(log, key) + [now]];
      }
    }

    /** Record a failure; a queue that already holds five is left alone. */
    method RecordFailure(key: Key, now: Instant) returns (evicted: Option<Key>)
      requires Valid() && clock <= now
      modifies this
      ensures Valid() && clock == now
      ensures log == if CountRecent(Queue(old(log), key), now) >= MAX_FAILURES then Without(old(log), evicted)
                     else Without(old(log), evicted)[key := Queue(old(log), key) + [now]]
      ensures EvictionRule(PruneAll(old(attempts), now), key, evicted)
      ensures attempts == Recorded(PruneAll(old(attempts), now), key, now, evicted)
    {
      Prune(now);
      evicted := MakeRoom(key);
      assert Queue(log, key) == Queue(old(log), key);
      Push(key, now);
    }

    /** Between two successes or evictions, one source gets at most five guesses at a lobby in any five minutes. */
    lemma GuessBound(key: Key, from: Instant)
      requires Valid()
      ensures CountBetween(Queue(log, key), from, from + WINDOW) <= MAX_FAILURES
    {
      assert LogOk(Queue(log, key), clock);
      GuessesPerWindow(Queue(log, key), from);
    }

    method Clear(key: Key)
      requires Valid()
      modifies this
      ensures Valid() && clock == old(clock) && log == old(log) - {key} && attempts == old(attempts) - {key}
    {
      RemoveRefines(attempts, log, clock, key);
      attempts, log := attempts - {key}, log - {key};
    }
  }
}
