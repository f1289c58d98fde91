/**
 What the password gate of a registration decides and records, and what that
 amounts to over any sequence of registrations.
 */
module Lockout {
  import opened Options
  import opened Addresses
  import opened Clock
  import opened Lobbies
  import opened Registration
  import opened PasswordFailures

  /** How far an attempt got at the gate. */
  datatype Finding = NotReached | LockedOut | NoLobby | Right | Wrong

  function GateKey(source: IpAddr, r: Request): Key {
    Key(QuotaSource(source), r.lobby)
  }

  /** Attempts count against one another exactly when they try one lobby from one IPv4 host or one /64. */
  lemma SameKeyIffSameOrigin(a: IpAddr, r: Request, b: IpAddr, q: Request)
    ensures GateKey(a, r) == GateKey(b, q) <==> r.lobby == q.lobby && (SameHost(a, b) || SameNetwork(a, b))
  {
    SameQuotaIffSameOrigin(a, b);
  }

  /** The checks that come before the lock test let the attempt through. */
  ghost predicate ReachesGate(d: Directory, r: Request) {
    WellFormed(r) && Expected(d, r)
  }

  ghost function Judge(hash: Hash, d: Directory, r: Request, locked: bool): Finding {
    if ReachesGate(d, r) then AtGate(hash, d, r, locked) else NotReached
  }

  function AtGate(hash: Hash, d: Directory, r: Request, locked: bool): Finding {
    if locked then LockedOut
    else if r.lobby !in d.lobbies then NoLobby
    else if hash(d.lobbies[r.lobby].salt, r.password) == d.lobbies[r.lobby].passwordHash then Right
    else Wrong
  }

  /** The failure table after an attempt. */
  function Bookkept(table: Table, key: Key, now: Instant, finding: Finding, evicted: Option<Key>): Table {
    match finding
    case NotReached => table
    case LockedOut => PruneAll(table, now)
    case NoLobby => PruneAll(table, now)
    case Right => PruneAll(table, now) - {key}
    case Wrong => Recorded(PruneAll(table, now), key, now, evicted)
  }

  /** The log after an attempt: a wrong password is added, a right one or an eviction forgets a key. */
  function Logged(log: Table, key: Key, now: Instant, finding: Finding, evicted: Option<Key>): Table {
    match finding
    case Wrong => Without(log, evicted)[key := Queue(log, key) + [now]]
    case Right => log - {key}
    case _ => log
  }

  /** Only a wrong password can evict, and then by the table's rule. */
  ghost predicate Evicts(table: Table, key: Key, now: Instant, finding: Finding, evicted: Option<Key>) {
    if finding == Wrong then EvictionRule(PruneAll(table, now), key, evicted) else evicted.None?
  }

  /**
   What the log remembers of an attempt, said of the directory and the hash: an
   unlocked attempt at an existing lobby wipes its key's slate if the password
   is right and adds one failure to it if not; any other attempt leaves it.
   No other key changes unless it is evicted.
   */
  ghost predicate Remembered(hash: Hash, d: Directory, r: Request, locked: bool, key: Key, now: Instant,
                             evicted: Option<Key>, log: Table, log2: Table, attempts2: Table) {
    && (forall k :: k != key && evicted != Some(k) ==> Queue(log2, k) == Queue(log, k))
    && if !ReachesGate(d, r) || locked || r.lobby !in d.lobbies then Queue(log2, key) == Queue(log, key)
       else if hash(d.lobbies[r.lobby].salt, r.password) == d.lobbies[r.lobby].passwordHash
       then Queue(log2, key) == [] && key !in attempts2
       else Queue(log2, key) == Queue(log, key) + [now] && key in attempts2
  }

  lemma BookingRemembers(hash: Hash, d: Directory, r: Request, locked: bool, key: Key, now: Instant,
                         evicted: Option<Key>, log: Table, attempts: Table)
    requires Evicts(attempts, key, now, Judge(hash, d, r, locked), evicted)
    requires !locked ==> |Queue(PruneAll(attempts, now), key)| < MAX_FAILURES
    ensures
      var finding := Judge(hash, d, r, locked);
      Remembered(hash, d, r, locked, key, now, evicted, log, Logged(log, key, now, finding, evicted),
                 Bookkept(attempts, key, now, finding, evicted))
  {
    hide ReachesGate, PruneAll, LeastRecent;
  }

  /** The same for an attempt that is known to have got as far as the gate. */
  lemma GateRemembers(hash: Hash, d: Directory, r: Request, locked: bool, key: Key, now: Instant,
                      evicted: Option<Key>, log: Table, attempts: Table)
    requires Evicts(attempts, key, now, AtGate(hash, d, r, locked), evicted)
    requires !locked ==> |Queue(PruneAll(attempts, now), key)| < MAX_FAILURES
    ensures
      var finding := AtGate(hash, d, r, locked);
      ReachesGate(d, r) ==>
        Remembered(hash, d, r, locked, key, now, evicted, log, Logged(log, key, now, finding, evicted),
                   Bookkept(attempts, key, now, finding, evicted))
  {
    hide ReachesGate, AtGate, Evicts, Bookkept, Logged, Remembered, PruneAll;
    if ReachesGate(d, r) {
      BookingRemembers(hash, d, r, locked, key, now, evicted, log, attempts);
    }
  }

  /** An attempt that tests no password only prunes; a right one then drops its key. */
  lemma BookedByPruning(table: Table, log: Table, key: Key, now: Instant)
    ensures forall f | f == LockedOut || f == NoLobby ::
              && Bookkept(table, key, now, f, None) == PruneAll(table, now)
              && Logged(log, key, now, f, None) == log && Evicts(table, key, now, f, None)
    ensures Bookkept(table, key, now, Right, None) == PruneAll(table, now) - {key}
    ensures Logged(log, key, now, Right, None) == log - {key} && Evicts(table, key, now, Right, None)
  {}

  /** Pruning once more before a failure is booked makes no difference. */
  lemma BookedAfterPruning(table: Table, key: Key, now: Instant, evicted: Option<Key>)
    ensures Bookkept(PruneAll(table, now), key, now, Wrong, evicted) == Bookkept(table, key, now, Wrong, evicted)
    ensures Evicts(PruneAll(table, now), key, now, Wrong, evicted) <==> Evicts(table, key, now, Wrong, evicted)
  {
    PruneTwice(table, now);
  }

  lemma UnreachedIsUnbooked(table: Table, log: Table, key: Key, now: Instant)
    ensures Bookkept(table, key, now, NotReached, None) == table && Logged(log, key, now, NotReached, None) == log
    ensures Evicts(table, key, now, NotReached, None)
  {}

  lemma BookkeepingRefines(table: Table, log: Table, clock: Instant, key: Key, now: Instant, finding: Finding,
                           evicted: Option<Key>)
    requires Refines(table, log, clock) && clock <= now && Evicts(table, key, now, finding, evicted)
    requires finding == Wrong ==> |Queue(PruneAll(table, now), key)| < MAX_FAILURES
    ensures Refines(Bookkept(table, key, now, finding, evicted), Logged(log, key, now, finding, evicted),
                    if finding == NotReached then clock else now)
  {
    hide Refines, PruneAll;
    var pruned := PruneAll(table, now);
    PruneRefines(table, log, clock, now);
    match finding
    case Right => RemoveRefines(pruned, log, now, key);
    case Wrong => RecordingRefines(pruned, log, now, key, evicted);
    case _ =>
  }

  lemma RecordingRefines(pruned: Table, log: Table, now: Instant, key: Key, evicted: Option<Key>)
    requires Refines(pruned, log, now) && EvictionRule(pruned, key, evicted) && |Queue(pruned, key)| < MAX_FAILURES
    ensures Refines(Recorded(pruned, key, now, evicted), Without(log, evicted)[key := Queue(log, key) + [now]], now)
  {
    assert |pruned| <= MAX_KEYS;
    hide Refines;
    if evicted.Some? {
      RemoveRefines(pruned, log, now, evicted.value);
    }
    PushRefines(Without(pruned, evicted), Without(log, evicted), now, key);
  }

  /** The lock test on the pruned table is the lock test on the log. */
  lemma GateAgrees(table: Table, log: Table, clock: Instant, now: Instant, key: Key)
    requires Refines(table, log, clock) && clock <= now
    ensures |Queue(PruneAll(table, now), key)| >= MAX_FAILURES <==> CountRecent(Queue(log, key), now) >= MAX_FAILURES
  {
    PruneRefines(table, log, clock, now);
    LockedIffFiveRecent(PruneAll(table, now), log, now, key);
  }

  // ----- Any sequence of registrations -----

  /** One attempt: the lobbies it found, what it asked for, from where, when, and whom it evicted. */
  datatype Trial = Trial(dir: Directory, request: Request, source: IpAddr, at: Instant, evicted: Option<Key>)

  /** Attempts, and the failure table before, between and after them. */
  datatype Campaign = Campaign(trials: seq<Trial>, tables: seq<Table>)

  function KeyAt(run: Campaign, i: nat): Key
    requires i < |run.trials|
  {
    GateKey(run.trials[i].source, run.trials[i].request)
  }

  /** What attempt `i` finds, going by the pruned table it meets. */
  ghost function FindingAt(hash: Hash, run: Campaign, i: nat): Finding
    requires i < |run.trials| < |run.tables|
  {
    var t := run.trials[i];
    Judge(hash, t.dir, t.request, |Queue(PruneAll(run.tables[i], t.at), KeyAt(run, i))| >= MAX_FAILURES)
  }

  ghost predicate TrialAt(hash: Hash, run: Campaign, i: nat)
    requires i < |run.trials| < |run.tables|
  {
    var (t, key, finding) := (run.trials[i], KeyAt(run, i), FindingAt(hash, run, i));
    && Evicts(run.tables[i], key, t.at, finding, t.evicted)
    && run.tables[i + 1] == Bookkept(run.tables[i], key, t.at, finding, t.evicted)
  }

  /** Attempts are serialised by the lobby lock, under which each reads its clock; lobbies may change in between. */
  ghost predicate IsCampaign(hash: Hash, run: Campaign) {
    && |run.tables| == |run.trials| + 1 && run.tables[0] == map[]
    && (forall i :: 0 <= i < |run.trials| ==> TrialAt(hash, run, i))
    && (forall i, j :: 0 <= i <= j < |run.trials| ==> run.trials[i].at <= run.trials[j].at)
  }

  /** An attempt that books its finding, locked or not by the log, carries a sequence of attempts on. */
  lemma AttemptExtends(hash: Hash, run: Campaign, t: Trial, log: Table, clock: Instant, next: Table)
    requires IsCampaign(hash, run) && Refines(run.tables[|run.trials|], log, clock) && clock <= t.at
    requires forall i :: 0 <= i < |run.trials| ==> run.trials[i].at <= t.at
    requires
      var (table, key) := (run.tables[|run.trials|], GateKey(t.source, t.request));
      var finding := Judge(hash, t.dir, t.request, CountRecent(Queue(log, key), t.at) >= MAX_FAILURES);
      Evicts(table, key, t.at, finding, t.evicted) && next == Bookkept(table, key, t.at, finding, t.evicted)
    ensures IsCampaign(hash, Campaign(run.trials + [t], run.tables + [next]))
  {
    hide Judge, Bookkept, Evicts, Refines;
    var n := |run.trials|;
    var longer := Campaign(run.trials + [t], run.tables + [next]);
    GateAgrees(run.tables[n], log, clock, t.at, GateKey(t.source, t.request));
    forall i | 0 <= i <= n ensures TrialAt(hash, longer, i) {
      assert i < n ==> TrialAt(hash, run, i);
    }
  }

  /** Attempt `i` reaches the gate with its key not locked, at a lobby that exists. */
  ghost predicate TriesPassword(run: Campaign, i: nat)
    requires i < |run.trials| < |run.tables|
  {
    var t := run.trials[i];
    && ReachesGate(t.dir, t.request) && t.request.lobby in t.dir.lobbies
    && |Queue(PruneAll(run.tables[i], t.at), KeyAt(run, i))| < 5
  }

  /** The password attempt `i` gives is the lobby's. */
  ghost predicate KnowsPassword(hash: Hash, run: Campaign, i: nat)
    requires i < |run.trials|
  {
    var (lobbies, r) := (run.trials[i].dir.lobbies, run.trials[i].request);
    r.lobby in lobbies && hash(lobbies[r.lobby].salt, r.password) == lobbies[r.lobby].passwordHash
  }

  lemma FindingsMean(hash: Hash, run: Campaign, i: nat)
    requires i < |run.trials| < |run.tables|
    ensures FindingAt(hash, run, i) == Wrong <==> TriesPassword(run, i) && !KnowsPassword(hash, run, i)
    ensures FindingAt(hash, run, i) == Right <==> TriesPassword(run, i) && KnowsPassword(hash, run, i)
  {
    hide ReachesGate, PruneAll;
  }

  /** Attempt `j` was refused for a wrong password under `key`. */
  ghost predicate WrongAt(hash: Hash, run: Campaign, j: nat, key: Key)
    requires j < |run.trials| < |run.tables|
  {
    TriesPassword(run, j) && !KnowsPassword(hash, run, j) && KeyAt(run, j) == key
  }

  /** Attempt `j` wiped the slate of `key`: by its own right password, or by another key's eviction of it. */
  ghost predicate ResetAt(hash: Hash, run: Campaign, j: nat, key: Key)
    requires j < |run.trials| < |run.tables|
  {
    || (TriesPassword(run, j) && KnowsPassword(hash, run, j) && KeyAt(run, j) == key)
    || run.trials[j].evicted == Some(key)
  }

  /** The wrong-password refusals of `key` before attempt `i` that lie in `[from, to]` and have not been wiped. */
  ghost function Standing(hash: Hash, run: Campaign, i: nat, key: Key, from: Instant, to: Instant): set<nat>
    requires i <= |run.trials| < |run.tables|
  {
    set j: nat | j < i && WrongAt(hash, run, j, key) && from <= run.trials[j].at <= to
                 && (forall m :: j < m < i ==> !ResetAt(hash, run, m, key))
  }

  ghost function LogAt(hash: Hash, run: Campaign, i: nat): Table
    requires i <= |run.trials| < |run.tables|
  {
    if i == 0 then map[]
    else Logged(LogAt(hash, run, i - 1), KeyAt(run, i - 1), run.trials[i - 1].at, FindingAt(hash, run, i - 1),
                run.trials[i - 1].evicted)
  }

  lemma {:induction false} CampaignRefines(hash: Hash, run: Campaign, i: nat) returns (clock: Instant)
    requires IsCampaign(hash, run) && i <= |run.trials|
    ensures forall j :: i <= j < |run.trials| ==> clock <= run.trials[j].at
    ensures Refines(run.tables[i], LogAt(hash, run, i), clock)
  {
    hide Refines, Judge;
    if i == 0 {
      clock := 0;
      EmptyRefines();
    } else {
      var before := CampaignRefines(hash, run, i - 1);
      var (t, finding) := (run.trials[i - 1], FindingAt(hash, run, i - 1));
      assert TrialAt(hash, run, i - 1);
      WrongIsUnlocked(hash, run, i - 1);
      BookkeepingRefines(run.tables[i - 1], LogAt(hash, run, i - 1), before, KeyAt(run, i - 1), t.at, finding,
                         t.evicted);
      clock := if finding == NotReached then before else t.at;
    }
  }

  lemma EmptyRefines()
    ensures Refines(map[], map[], 0)
  {}

  lemma WrongIsUnlocked(hash: Hash, run: Campaign, i: nat)
    requires i < |run.trials| < |run.tables|
    ensures FindingAt(hash, run, i) == Wrong ==>
              |Queue(PruneAll(run.tables[i], run.trials[i].at), KeyAt(run, i))| < MAX_FAILURES
  {}

  lemma StandingStep(hash: Hash, run: Campaign, i: nat, key: Key, from: Instant, to: Instant)
    requires i < |run.trials| < |run.tables|
    ensures i !in Standing(hash, run, i, key, from, to)
    ensures Standing(hash, run, i + 1, key, from, to) ==
            (if ResetAt(hash, run, i, key) then {} else Standing(hash, run, i, key, from, to)) +
            (if WrongAt(hash, run, i, key) && from <= run.trials[i].at <= to then {i} else {})
  {
    hide WrongAt, ResetAt;
  }

  /** How one attempt changes the log of one key. */
  lemma LogStep(hash: Hash, run: Campaign, i: nat, key: Key)
    requires i < |run.trials| < |run.tables| && TrialAt(hash, run, i)
    ensures WrongAt(hash, run, i, key) ==> !ResetAt(hash, run, i, key)
    ensures Queue(LogAt(hash, run, i + 1), key) ==
            if ResetAt(hash, run, i, key) then []
            else Queue(LogAt(hash, run, i), key) + if WrongAt(hash, run, i, key) then [run.trials[i].at] else []
  {
    FindingsMean(hash, run, i);
    hide FindingAt, PruneAll, TriesPassword, KnowsPassword;
  }

  /** Counting a log and counting a set of attempts go in step. */
  lemma Tally(q: seq<Instant>, q2: seq<Instant>, a: set<nat>, a2: set<nat>, wrong: bool, reset: bool,
              i: nat, t: Instant, from: Instant, to: Instant)
    requires CountBetween(q, from, to) == |a| && i !in a && !(wrong && reset)
    requires q2 == if reset then [] else q + if wrong then [t] else []
    requires a2 == (if reset then {} else a) + (if wrong && from <= t <= to then {i} else {})
    ensures CountBetween(q2, from, to) == |a2|
  {
    CountSplit(q, if wrong then [t] else [], from, to);
  }

  /** The log of `key` holds exactly its standing refusals. */
  ghost predicate Tallied(hash: Hash, run: Campaign, i: nat, key: Key, from: Instant, to: Instant)
    requires i <= |run.trials| < |run.tables|
  {
    CountBetween(Queue(LogAt(hash, run, i), key), from, to) == |Standing(hash, run, i, key, from, to)|
  }

  lemma TallyStep(hash: Hash, run: Campaign, i: nat, key: Key, from: Instant, to: Instant)
    requires i < |run.trials| < |run.tables| && TrialAt(hash, run, i) && Tallied(hash, run, i, key, from, to)
    ensures Tallied(hash, run, i + 1, key, from, to)
  {
    hide WrongAt, ResetAt, LogAt, TrialAt, Queue, CountBetween, Standing;
    StandingStep(hash, run, i, key, from, to);
    LogStep(hash, run, i, key);
    Tally(Queue(LogAt(hash, run, i), key), Queue(LogAt(hash, run, i + 1), key),
          Standing(hash, run, i, key, from, to), Standing(hash, run, i + 1, key, from, to),
          WrongAt(hash, run, i, key), ResetAt(hash, run, i, key), i, run.trials[i].at, from, to);
  }

  lemma TallyStart(hash: Hash, run: Campaign, key: Key, from: Instant, to: Instant)
    requires |run.trials| < |run.tables|
    ensures Tallied(hash, run, 0, key, from, to)
  {
    assert Standing(hash, run, 0, key, from, to) == {};
  }

  lemma {:induction false} LogCountsStanding(hash: Hash, run: Campaign, i: nat, key: Key, from: Instant, to: Instant)
    requires IsCampaign(hash, run) && i <= |run.trials|
    ensures Tallied(hash, run, i, key, from, to)
  {
    hide Tallied, TrialAt;
    if i == 0 {
      TallyStart(hash, run, key, from, to);
    } else {
      LogCountsStanding(hash, run, i - 1, key, from, to);
      TallyStep(hash, run, i - 1, key, from, to);
    }
  }

  /**
   Over any sequence of registrations, an attempt that reaches the lock test is
   locked out exactly when its key has five standing wrong-password refusals no
   older than the window; nothing else in the sequence matters.
   */
  lemma LockoutIsExact(hash: Hash, run: Campaign, i: nat)
    requires IsCampaign(hash, run) && i < |run.trials| && ReachesGate(run.trials[i].dir, run.trials[i].request)
    ensures
      var now := run.trials[i].at;
      FindingAt(hash, run, i) == LockedOut <==>
      |Standing(hash, run, i, KeyAt(run, i), if now >= 300 * SECOND then now - 300 * SECOND else 0, now)| >= 5
  {
    hide Refines, Standing, LogAt, PruneAll, CountBetween;
    var now, key := run.trials[i].at, KeyAt(run, i);
    var clock := CampaignRefines(hash, run, i);
    GateAgrees(run.tables[i], LogAt(hash, run, i), clock, now, key);
    LogCountsStanding(hash, run, i, key, Horizon(now), now);
  }

  /** However a source spaces its attempts, no window of five minutes holds more than five standing refusals. */
  lemma FiveRefusalsPerWindow(hash: Hash, run: Campaign, i: nat, key: Key, from: Instant)
    requires IsCampaign(hash, run) && i <= |run.trials|
    ensures |Standing(hash, run, i, key, from, from + 300 * SECOND)| <= 5
  {
    var clock := CampaignRefines(hash, run, i);
    assert LogOk(Queue(LogAt(hash, run, i), key), clock);
    GuessesPerWindow(Queue(LogAt(hash, run, i), key), from);
    LogCountsStanding(hash, run, i, key, from, from + WINDOW);
  }

  /** Every key the pruned table tracks has a standing refusal inside the window. */
  lemma TrackedIsStanding(hash: Hash, run: Campaign, i: nat, now: Instant, key: Key)
    requires IsCampaign(hash, run) && i <= |run.trials|
    requires Refines(PruneAll(run.tables[i], now), LogAt(hash, run, i), now) && key in PruneAll(run.tables[i], now)
    ensures Standing(hash, run, i, key, Horizon(now), now) != {}
  {
    var queue := Queue(LogAt(hash, run, i), key);
    assert DropExpired(queue, now) != [] && LogOk(queue, now);
    DropKeepsRecent(queue, now);
    LogCountsStanding(hash, run, i, key, Horizon(now), now);
  }

  /** Each of `keys`, a full table's worth and more, has a standing refusal inside the window at attempt `i`. */
  ghost predicate Crowded(hash: Hash, run: Campaign, i: nat, keys: set<Key>)
    requires i < |run.trials| < |run.tables|
  {
    var now := run.trials[i].at;
    |keys| >= 4096 && forall k :: k in keys ==> Standing(hash, run, i, k, Horizon(now), now) != {}
  }

  /** A slate is wiped by eviction only while 4096 keys, its own among them, fail alongside the one being recorded. */
  lemma EvictionNeedsFullTable(hash: Hash, run: Campaign, i: nat)
    requires IsCampaign(hash, run) && i < |run.trials| && run.trials[i].evicted.Some?
    ensures exists keys :: Crowded(hash, run, i, keys) && run.trials[i].evicted.value in keys && KeyAt(run, i) !in keys
  {
    hide Standing, LogAt, Refines, FindingAt, PruneAll;
    var now := run.trials[i].at;
    var clock := CampaignRefines(hash, run, i);
    PruneRefines(run.tables[i], LogAt(hash, run, i), clock, now);
    assert TrialAt(hash, run, i);
    var keys := PruneAll(run.tables[i], now).Keys;
    forall k | k in keys ensures Standing(hash, run, i, k, Horizon(now), now) != {} {
      TrackedIsStanding(hash, run, i, now, k);
    }
    assert Crowded(hash, run, i, keys);
  }
}
