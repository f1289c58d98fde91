/** Connection pools: counted slots, per-source charges, and leases that give both back. */
module Pools {
  import opened Options
  import opened Addresses

  const DEFAULT_PENDING_SOURCE_LIMIT: nat := 16

  datatype Limits = Limits(total: nat, source: Option<nat>)

  datatype Counts = Counts(total: nat, bySource: map<IpAddr, nat>)

  datatype Refusal = PoolFull | SourceFull

  datatype Grant = Refused(why: Refusal) | Granted(charged: Option<IpAddr>)

  function CountOf(m: map<IpAddr, nat>, ip: IpAddr): nat {
    if ip in m then m[ip] else 0
  }

  function Increment(m: map<IpAddr, nat>, ip: IpAddr): map<IpAddr, nat> {
    m[ip := CountOf(m, ip) + 1]
  }

  /** Take one off a source's count, dropping the entry when it reaches zero. */
  function Decrement(m: map<IpAddr, nat>, ip: IpAddr): map<IpAddr, nat> {
    if ip !in m then m else if m[ip] <= 1 then m - {ip} else m[ip := m[ip] - 1]
  }

  function Acquire(lim: Limits, c: Counts, source: Option<IpAddr>): (Counts, Grant) {
    if c.total >= lim.total then (c, Refused(PoolFull))
    else if source.Some? && lim.source.Some? then
      if CountOf(c.bySource, source.value) >= lim.source.value then (c, Refused(SourceFull))
      else (Counts(c.total + 1, Increment(c.bySource, source.value)), Granted(source))
    else (c.(total := c.total + 1), Granted(None))
  }

  function Release(c: Counts, charged: Option<IpAddr>): Counts
    requires c.total > 0
  {
    Counts(c.total - 1, if charged.Some? then Decrement(c.bySource, charged.value) else c.bySource)
  }

  /** Move a live lease's charge to the (folded) source, keeping its slot. */
  function Resolve(lim: Limits, c: Counts, charged: Option<IpAddr>, source: IpAddr): (Counts, Grant) {
    var ip := QuotaSource(source);
    if charged == Some(ip) then (c, Granted(charged))
    else if lim.source.None? || CountOf(c.bySource, ip) >= lim.source.value then (c, Refused(SourceFull))
    else
      var added := Increment(c.bySource, ip);
      (c.(bySource := if charged.Some? then Decrement(added, charged.value) else added), Granted(Some(ip)))
  }

  // ----- Conservation -----

  /** The live leases and the source each is charged to. */
  type Ledger = map<nat, Option<IpAddr>>

  function Holders(ledger: Ledger, ip: IpAddr): set<nat> {
    set id | id in ledger && ledger[id] == Some(ip)
  }

  /** The counters say exactly what the ledger of live leases says. */
  ghost predicate Balanced(c: Counts, ledger: Ledger) {
    && c.total == |ledger|
    && (forall ip :: CountOf(c.bySource, ip) == |Holders(ledger, ip)|)
    && (forall ip :: ip in c.bySource ==> c.bySource[ip] > 0)
  }

  ghost predicate Within(lim: Limits, c: Counts) {
    && c.total <= lim.total
    && (lim.source.Some? ==> forall ip :: ip in c.bySource ==> c.bySource[ip] <= lim.source.value)
    && (lim.source.None? ==> c.bySource == map[])
  }

  lemma HoldersInsert(ledger: Ledger, id: nat, charged: Option<IpAddr>, ip: IpAddr)
    requires id !in ledger
    ensures |Holders(ledger[id := charged], ip)| == |Holders(ledger, ip)| + if charged == Some(ip) then 1 else 0
  {
    assert Holders(ledger[id := charged], ip) == Holders(ledger, ip) + if charged == Some(ip) then {id} else {};
  }

  lemma HoldersRemove(ledger: Ledger, id: nat, ip: IpAddr)
    requires id in ledger
    ensures |Holders(ledger - {id}, ip)| == |Holders(ledger, ip)| - if ledger[id] == Some(ip) then 1 else 0
  {
    assert Holders(ledger - {id}, ip) == Holders(ledger, ip) - {id};
    assert ledger[id] == Some(ip) ==> id in Holders(ledger, ip);
  }

  lemma HoldersMove(ledger: Ledger, id: nat, ip: IpAddr, x: IpAddr)
    requires id in ledger && ledger[id] != Some(ip)
    ensures |Holders(ledger[id := Some(ip)], x)| ==
            |Holders(ledger, x)| + (if x == ip then 1 else 0) - (if ledger[id] == Some(x) then 1 else 0)
  {
    HoldersRemove(ledger, id, x);
    HoldersInsert(ledger - {id}, id, Some(ip), x);
    assert (ledger - {id})[id := Some(ip)] == ledger[id := Some(ip)];
  }

  /**
   A slot is granted exactly while fewer leases are live than the total and, if
   a source is given and limited, fewer than its limit are charged to it. The
   refusal says which of the two was reached, the total first.
   The lease is charged to the source exactly when there is one and a limit on it.
   */
  lemma GrantDecided(lim: Limits, c: Counts, ledger: Ledger, source: Option<IpAddr>)
    requires Balanced(c, ledger)
    ensures
      var g := Acquire(lim, c, source).1;
      var limited := source.Some? && lim.source.Some?;
      && (g == Refused(PoolFull) <==> |ledger| >= lim.total)
      && (g == Refused(SourceFull) <==>
            |ledger| < lim.total && limited && |Holders(ledger, source.value)| >= lim.source.value)
      && (g.Granted? ==> g.charged == if limited then source else None)
  {
    if source.Some? {
      assert CountOf(c.bySource, source.value) == |Holders(ledger, source.value)|;
    }
  }

  /**
   A charge can be moved exactly if it is already there, or sources are limited
   and fewer than the limit are charged to the new one.
   */
  lemma MoveDecided(lim: Limits, c: Counts, ledger: Ledger, id: nat, source: IpAddr)
    requires Balanced(c, ledger) && id in ledger
    ensures
      var (ip, g) := (QuotaSource(source), Resolve(lim, c, ledger[id], source).1);
      && (g.Granted? <==>
            ledger[id] == Some(ip) || (lim.source.Some? && |Holders(ledger, ip)| < lim.source.value))
      && (g.Granted? ==> g.charged == Some(ip)) && (g.Refused? ==> g.why == SourceFull)
  {
    assert CountOf(c.bySource, QuotaSource(source)) == |Holders(ledger, QuotaSource(source))|;
  }

  lemma AcquireConserves(lim: Limits, c: Counts, ledger: Ledger, id: nat, source: Option<IpAddr>)
    requires Balanced(c, ledger) && Within(lim, c) && id !in ledger
    ensures
      var (c2, g) := Acquire(lim, c, source);
      && Within(lim, c2)
      && (g.Refused? ==> c2 == c)
      && (g.Granted? ==> Balanced(c2, ledger[id := g.charged]))
  {
    var (c2, g) := Acquire(lim, c, source);
    if g.Granted? {
      assert (ledger[id := g.charged]).Keys == ledger.Keys + {id};
      forall ip ensures CountOf(c2.bySource, ip) == |Holders(ledger[id := g.charged], ip)| {
        HoldersInsert(ledger, id, g.charged, ip);
      }
    }
  }

  /** A live lease can always be given back: neither counter can underflow, and no zero entry is left. */
  lemma ReleaseConserves(lim: Limits, c: Counts, ledger: Ledger, id: nat)
    requires Balanced(c, ledger) && Within(lim, c) && id in ledger
    ensures c.total > 0 && (ledger[id].Some? ==> CountOf(c.bySource, ledger[id].value) > 0)
    ensures Balanced(Release(c, ledger[id]), ledger - {id}) && Within(lim, Release(c, ledger[id]))
  {
    assert id in ledger.Keys && |ledger.Keys| > 0;
    assert (ledger - {id}).Keys == ledger.Keys - {id};
    if ledger[id].Some? {
      assert id in Holders(ledger, ledger[id].value);
    }
    var c2 := Release(c, ledger[id]);
    forall ip ensures CountOf(c2.bySource, ip) == |Holders(ledger - {id}, ip)| {
      HoldersRemove(ledger, id, ip);
    }
  }

  /** Moving a charge keeps the slot, conserves every count, and changes nothing at all when it fails. */
  lemma ResolveConserves(lim: Limits, c: Counts, ledger: Ledger, id: nat, source: IpAddr)
    requires Balanced(c, ledger) && Within(lim, c) && id in ledger
    ensures
      var (c2, g) := Resolve(lim, c, ledger[id], source);
      && Within(lim, c2) && c2.total == c.total
      && (g.Refused? ==> c2 == c)
      && (g.Granted? ==> g.charged == Some(QuotaSource(source)) && Balanced(c2, ledger[id := g.charged]))
  {
    var ip := QuotaSource(source);
    var (c2, g) := Resolve(lim, c, ledger[id], source);
    if ledger[id] == Some(ip) {
      assert ledger[id := Some(ip)] == ledger;
    } else if g.Granted? {
      assert (ledger[id := Some(ip)]).Keys == ledger.Keys;
      if ledger[id].Some? {
        assert id in Holders(ledger, ledger[id].value);
      }
      forall x ensures CountOf(c2.bySource, x) == |Holders(ledger[id := Some(ip)], x)| {
        HoldersMove(ledger, id, ip, x);
      }
    }
  }

  // ----- Any sequence of operations -----

  datatype Op = OpAcquire(id: nat, source: Option<IpAddr>) | OpResolve(id: nat, to: IpAddr) | OpDrop(id: nat)

  datatype PoolState = PoolState(counts: Counts, ledger: Ledger)

  /** Leases exist only between acquire and drop; operations on others do not occur. */
  predicate Allowed(s: PoolState, op: Op) {
    if op.OpAcquire? then op.id !in s.ledger else op.id in s.ledger
  }

  /** A decrement that would take a counter below zero. */
  predicate Underflows(c: Counts, charged: Option<IpAddr>) {
    charged.Some? && charged.value in c.bySource && c.bySource[charged.value] == 0
  }

  /** The state after an operation, or `None` if a counter would underflow. */
  function Apply(lim: Limits, s: PoolState, op: Op): Option<PoolState>
    requires Allowed(s, op)
  {
    match op
    case OpAcquire(id, source) =>
      var (c, g) := Acquire(lim, s.counts, source);
      Some(PoolState(c, if g.Granted? then s.ledger[id := g.charged] else s.ledger))
    case OpResolve(id, to) =>
      var (c, g) := Resolve(lim, s.counts, s.ledger[id], to);
      if g.Granted? && c != s.counts && Underflows(s.counts, s.ledger[id]) then None
      else Some(PoolState(c, if g.Granted? then s.ledger[id := g.charged] else s.ledger))
    case OpDrop(id) =>
      if s.counts.total == 0 || Underflows(s.counts, s.ledger[id]) then None
      else Some(PoolState(Release(s.counts, s.ledger[id]), s.ledger - {id}))
  }

  ghost predicate Reaches(lim: Limits, ops: seq<Op>, states: seq<PoolState>) {
    && |states| == |ops| + 1
    && states[0] == PoolState(Counts(0, map[]), map[])
    && forall i :: 0 <= i < |ops| ==> Allowed(states[i], ops[i]) && Apply(lim, states[i], ops[i]) == Some(states[i + 1])
  }

  lemma OpConserves(lim: Limits, s: PoolState, op: Op)
    requires Balanced(s.counts, s.ledger) && Within(lim, s.counts) && Allowed(s, op)
    ensures Apply(lim, s, op).Some?
    ensures
      var s2 := Apply(lim, s, op).value;
      Balanced(s2.counts, s2.ledger) && Within(lim, s2.counts)
  {
    match op
    case OpAcquire(id, source) => AcquireConserves(lim, s.counts, s.ledger, id, source);
    case OpResolve(id, to) => ResolveConserves(lim, s.counts, s.ledger, id, to);
    case OpDrop(id) => ReleaseConserves(lim, s.counts, s.ledger, id);
  }

  /**
   Over any sequence of acquires, resolves and drops the counters equal the live
   leases, respect the limits, and no operation on a live lease can underflow.
   */
  lemma {:induction false} PoolRunConserves(lim: Limits, ops: seq<Op>, states: seq<PoolState>, i: nat)
    requires Reaches(lim, ops, states) && i < |states|
    ensures Balanced(states[i].counts, states[i].ledger) && Within(lim, states[i].counts)
    ensures forall op :: Allowed(states[i], op) ==> Apply(lim, states[i], op).Some?
  {
    if i > 0 {
      PoolRunConserves(lim, ops, states, i - 1);
      OpConserves(lim, states[i - 1], ops[i - 1]);
    } else {
      forall ip ensures |Holders(map[], ip)| == 0 {
        assert Holders(map[], ip) == {};
      }
    }
    forall op | Allowed(states[i], op) ensures Apply(lim, states[i], op).Some? {
      OpConserves(lim, states[i], op);
    }
  }

  // ----- The two pools of the server -----

  function Clamp(n: nat, low: nat, high: nat): nat
    requires low <= high
  {
    if n < low then low else if n > high then high else n
  }

  function PendingLimits(max: nat, perSource: Option<nat>): Limits {
    Limits(Clamp(max, 1, 128),
           Some(Clamp(if perSource.Some? then perSource.value else DEFAULT_PENDING_SOURCE_LIMIT,
                      1, DEFAULT_PENDING_SOURCE_LIMIT)))
  }

  function AtLeastOne(n: nat): nat {
    if n < 1 then 1 else n
  }

  function ActiveLimits(max: nat, perSource: Option<nat>): Limits {
    var room := AtLeastOne(if max > 0 then max - 1 else 0);
    Limits(AtLeastOne(max),
           if perSource.Some?
           then Some(if AtLeastOne(perSource.value) < room then AtLeastOne(perSource.value) else room)
           else None)
  }

  /** The pending pool has 1 to 128 slots, as near to `max` as that allows, and 1 to 16 for each source. */
  lemma PendingLimitsAre(max: nat, perSource: Option<nat>)
    ensures
      var lim := PendingLimits(max, perSource);
      && (lim.total == max || (max < 1 && lim.total == 1) || (max > 128 && lim.total == 128)) && 1 <= lim.total <= 128
      && lim.source.Some? && 1 <= lim.source.value <= 16
      && (perSource.None? ==> lim.source == Some(16))
      && (perSource.Some? ==>
            || lim.source == perSource
            || (perSource.value < 1 && lim.source == Some(1)) || (perSource.value > 16 && lim.source == Some(16)))
  {}

  /** The active pool has `max` slots, at least one; a limit on sources is at least one and leaves one slot over. */
  lemma ActiveLimitsAre(max: nat, perSource: Option<nat>)
    ensures
      var lim := ActiveLimits(max, perSource);
      && lim.total >= 1 && (lim.total == max || (max == 0 && lim.total == 1))
      && (lim.source.Some? <==> perSource.Some?)
      && (perSource.Some? ==>
            && 1 <= lim.source.value && (max >= 2 ==> lim.source.value <= max - 1)
            && (1 <= perSource.value < max ==> lim.source == perSource)
            && (perSource.value >= max >= 2 ==> lim.source == Some(max - 1))
            && (perSource.value == 0 || max <= 1 ==> lim.source == Some(1)))
  {}

  /** With a per-source limit and room for two, one source never holds every active slot, whatever happens. */
  lemma OneSourceCannotFillActive(max: nat, perSource: Option<nat>, ops: seq<Op>, states: seq<PoolState>,
                                  i: nat, ip: IpAddr)
    requires max >= 2 && perSource.Some?
    requires Reaches(ActiveLimits(max, perSource), ops, states) && i < |states|
    ensures |Holders(states[i].ledger, ip)| < ActiveLimits(max, perSource).total
  {
    PoolRunConserves(ActiveLimits(max, perSource), ops, states, i);
    assert CountOf(states[i].counts.bySource, ip) == |Holders(states[i].ledger, ip)|;
  }

  /** The source a pending handshake is charged to: nobody yet, if it comes from a trusted proxy. */
  function PendingSource(trusted: set<IpAddr>, peer: IpAddr): Option<IpAddr> {
    if Canonical(peer) in trusted then None else Some(QuotaSource(Canonical(peer)))
  }

  /**
   A lease that the pending pool grants to a direct peer carries that peer's
   final source: however the counts move meanwhile, resolving the lease to the
   address the handshake is attributed to neither fails nor recounts.
   */
  lemma DirectPeerResolvesInPlace(max: nat, perSource: Option<nat>, granted: Counts, later: Counts,
                                  trusted: set<IpAddr>, peer: IpAddr)
    requires Canonical(peer) !in trusted
    requires Acquire(PendingLimits(max, perSource), granted, PendingSource(trusted, peer)).1.Granted?
    ensures
      var charged := Acquire(PendingLimits(max, perSource), granted, PendingSource(trusted, peer)).1.charged;
      && charged == Some(QuotaSource(peer))
      && Resolve(PendingLimits(max, perSource), later, charged, Canonical(peer)) == (later, Granted(charged))
  {
    QuotaSourceIdempotent(peer);
  }

  /** A handshake through a trusted proxy takes a slot but is charged to nobody until its client is known. */
  lemma ProxiedPeerIsCharged(max: nat, perSource: Option<nat>, granted: Counts, later: Counts, trusted: set<IpAddr>,
                             peer: IpAddr, client: IpAddr)
    requires Canonical(peer) in trusted
    requires Acquire(PendingLimits(max, perSource), granted, PendingSource(trusted, peer)).1.Granted?
    ensures
      var (lim, ip) := (PendingLimits(max, perSource), QuotaSource(client));
      var charged := Acquire(lim, granted, PendingSource(trusted, peer)).1.charged;
      && charged.None?
      && Resolve(lim, later, charged, client) ==
         if CountOf(later.bySource, ip) < lim.source.value
         then (later.(bySource := Increment(later.bySource, ip)), Granted(Some(ip)))
         else (later, Refused(SourceFull))
  {}

  class Pool {
    const limits: Limits
    var total: nat
    var bySource: map<IpAddr, nat>
    ghost var ledger: Ledger

    ghost function State(): Counts
      reads this
    {
      Counts(total, bySource)
    }

    ghost predicate Valid()
      reads this
    {
      Balanced(State(), ledger) && Within(limits, State())
    }

    constructor (limits: Limits)
      ensures Valid() && this.limits == limits && ledger == map[] && State() == Counts(0, map[])
    {
      this.limits := limits;
      total, bySource, ledger := 0, map[], map[];
      new;
      forall ip ensures |Holders(ledger, ip)| == 0 {
        assert Holders(ledger, ip) == {};
      }
    }

    method TryAcquire(source: Option<IpAddr>, ghost id: nat) returns (grant: Grant)
      requires Valid() && id !in ledger
      modifies this
      ensures Valid() && (State(), grant) == Acquire(limits, old(State()), source)
      ensures ledger == if grant.Granted? then old(ledger)[id := grant.charged] else old(ledger)
      ensures
        var limited := source.Some? && limits.source.Some?;
        && (grant == Refused(PoolFull) <==> |old(ledger)| >= limits.total)
        && (grant == Refused(SourceFull) <==>
              |old(ledger)| < limits.total && limited && |Holders(old(ledger), source.value)| >= limits.source.value)
        && (grant.Granted? ==> grant.charged == if limited then source else None)
    {
      GrantDecided(limits, State(), ledger, source);
      AcquireConserves(limits, State(), ledger, id, source);
      if total >= limits.total {
        return Refused(PoolFull);
      }
      var charged: Option<IpAddr> := None;
      if source.Some? && limits.source.Some? {
        if CountOf(bySource, source.value) >= limits.source.value {
          return Refused(SourceFull);
        }
        bySource := bySource[source.value := CountOf(bySource, source.value) + 1];
        charged := source;
      }
      total := total + 1;
      ledger := ledger[id := charged];
      grant := Granted(charged);
    }

    method Uncharge(ip: IpAddr)
      requires CountOf(bySource, ip) > 0
      modifies this`bySource
      ensures bySource == Decrement(old(bySource), ip)
    {
      bySource := bySource[ip := bySource[ip] - 1];
      if bySource[ip] == 0 {
        bySource := bySource - {ip};
      }
    }
  }

  class Lease {
    const pool: Pool
    ghost const id: nat
    var source: Option<IpAddr>

    ghost predicate Valid()
      reads this, pool
    {
      pool.Valid() && id in pool.ledger && pool.ledger[id] == source
    }

    constructor (pool: Pool, ghost id: nat, charged: Option<IpAddr>)
      requires pool.Valid() && id in pool.ledger && pool.ledger[id] == charged
      ensures Valid() && this.pool == pool && this.id == id && source == charged
    {
      this.pool := pool;
      this.id := id;
      source := charged;
    }

    method Drop()
      requires Valid()
      modifies pool
      ensures pool.Valid() && pool.ledger == old(pool.ledger) - {id}
      ensures old(pool.State()).total > 0 && pool.State() == Release(old(pool.State()), source)
    {
      ReleaseConserves(pool.limits, pool.State(), pool.ledger, id);
      pool.total := pool.total - 1;
      if source.Some? {
        pool.Uncharge(source.value);
      }
      pool.ledger := pool.ledger - {id};
    }

    method ResolveSource(ip: IpAddr) returns (ok: bool)
      requires Valid()
      modifies this, pool
      ensures Valid() && pool.ledger == old(pool.ledger)[id := source]
      ensures
        var (c, g) := Resolve(pool.limits, old(pool.State()), old(source), ip);
        pool.State() == c && ok == g.Granted? && source == if ok then Some(QuotaSource(ip)) else old(source)
      ensures
        var (lim, ledger, target) := (pool.limits, old(pool.ledger), QuotaSource(ip));
        ok <==> old(source) == Some(target) || (lim.source.Some? && |Holders(ledger, target)| < lim.source.value)
    {
      MoveDecided(pool.limits, pool.State(), pool.ledger, id, ip);
      ResolveConserves(pool.limits, pool.State(), pool.ledger, id, ip);
      var target := QuotaSource(ip);
      if source == Some(target) {
        return true;
      }
      if pool.limits.source.None? || CountOf(pool.bySource, target) >= pool.limits.source.value {
        return false;
      }
      assert source.Some? ==> id in Holders(pool.ledger, source.value);
      pool.bySource := pool.bySource[target := CountOf(pool.bySource, target) + 1];
      if source.Some? {
        pool.Uncharge(source.value);
      }
      source := Some(target);
      pool.ledger := pool.ledger[id := source];
      ok := true;
    }
  }
}
