/**
 The submission quota table: one fixed-window budget per source, forgotten once
 it is two windows old, proved to decide exactly as a table that never forgets.
 */
module SubmitQuotas {
  import opened Addresses
  import opened Clock
  import opened FixedWindows
  import opened Sets

  const SUBMIT_MAX: nat := 8
  const SUBMIT_WINDOW: nat := 600 * SECOND
  const MAX_SUBMITTERS: nat := 8192

  type Quotas = map<IpAddr, Window>

  datatype Decision = Allowed | Denied | TableFull

  /**
   The clock is read afresh at each use: when a new source is entered, for the
   elapsed test, and to restart a window. A reading that turns out not to be
   needed may be taken equal to the one before it.
   */
  datatype Readings = Readings(inserted: Instant, checked: Instant, restarted: Instant)

  /** One submission; the retain pass reads the clock once for every source it looks at. */
  datatype Submission = Submission(source: IpAddr, retained: IpAddr -> Instant, at: Readings)

  /** The readings of one submission come in order, none before `clock`. */
  ghost predicate InOrder(clock: Instant, s: Submission) {
    && clock <= s.at.inserted <= s.at.checked <= s.at.restarted
    && forall ip :: clock <= s.retained(ip) <= s.at.inserted
  }

  /** One submission against one source's budget. */
  function AllowSubmit(w: Window, at: Readings): (Window, bool) {
    var rolled := Roll(w, SUBMIT_WINDOW, at.checked, at.restarted);
    if rolled.used >= SUBMIT_MAX then (rolled, false) else (rolled.(used := rolled.used + 1), true)
  }

  function Prune(t: Quotas, retained: IpAddr -> Instant): Quotas {
    map ip | ip in t && Elapsed(retained(ip), t[ip].started) < 2 * SUBMIT_WINDOW :: t[ip]
  }

  function Charge(t: Quotas, ip: IpAddr, at: Readings): (Quotas, Decision) {
    var (w, ok) := AllowSubmit(if ip in t then t[ip] else Window(at.inserted, 0), at);
    (t[ip := w], if ok then Allowed else Denied)
  }

  function SubmitStep(t: Quotas, s: Submission): (Quotas, Decision) {
    var pruned := Prune(t, s.retained);
    if s.source !in pruned && |pruned| >= MAX_SUBMITTERS then (pruned, TableFull)
    else Charge(pruned, s.source, s.at)
  }

  /** The pruned table `t` knows all that matters of the table `full` that never forgets. */
  ghost predicate Agrees(t: Quotas, full: Quotas, clock: Instant) {
    && (forall ip :: ip in t ==> ip in full && full[ip] == t[ip])
    && (forall ip :: ip in full ==> full[ip].started <= clock)
    && (forall ip :: ip in full && ip !in t ==> full[ip].started + 2 * SUBMIT_WINDOW <= clock)
  }

  lemma PruneAgrees(t: Quotas, full: Quotas, clock: Instant, s: Submission)
    requires Agrees(t, full, clock) && InOrder(clock, s)
    ensures Agrees(Prune(t, s.retained), full, s.at.inserted)
  {
    forall ip | ip in full && ip !in Prune(t, s.retained)
      ensures full[ip].started + 2 * SUBMIT_WINDOW <= s.at.inserted
    {
      assert s.retained(ip) <= s.at.inserted;
    }
  }

  /** Readings that could have been taken during the submission that took `at`. */
  predicate Meanwhile(r: Readings, at: Readings) {
    at.inserted <= r.inserted <= r.checked <= r.restarted <= at.restarted
  }

  /** What the clock would have shown a table that still remembered the source. */
  function Remembering(t: Quotas, full: Quotas, ip: IpAddr, at: Readings): Readings {
    if ip in full && ip !in t && Elapsed(at.checked, at.inserted) < SUBMIT_WINDOW
    then Readings(at.inserted, at.inserted, at.inserted) else at
  }

  lemma ChargeAgrees(t: Quotas, full: Quotas, ip: IpAddr, at: Readings)
    requires Agrees(t, full, at.inserted) && at.inserted <= at.checked <= at.restarted
    ensures
      var r := Remembering(t, full, ip, at);
      && Meanwhile(r, at)
      && Charge(t, ip, at).1 == Charge(full, ip, r).1
      && Agrees(Charge(t, ip, at).0, Charge(full, ip, r).0, at.restarted)
  {}

  /** A run of submissions through the pruned table: the decisions, in order. */
  function Decisions(t: Quotas, subs: seq<Submission>): seq<Decision>
    decreases |subs|
  {
    if subs == [] then []
    else
      var (t2, d) := SubmitStep(t, subs[0]);
      [d] + Decisions(t2, subs[1..])
  }

  /**
   The same run through a table that never forgets, at its own readings, shown
   only the submissions the real table considered.
   */
  function Verdicts(full: Quotas, subs: seq<Submission>, at: seq<Readings>, turnedAway: seq<bool>): seq<Decision>
    requires |subs| == |at| == |turnedAway|
    decreases |subs|
  {
    if subs == [] then []
    else if turnedAway[0] then [TableFull] + Verdicts(full, subs[1..], at[1..], turnedAway[1..])
    else
      var (full2, d) := Charge(full, subs[0].source, at[0]);
      [d] + Verdicts(full2, subs[1..], at[1..], turnedAway[1..])
  }

  lemma {:induction false} DecisionsLength(t: Quotas, subs: seq<Submission>)
    ensures |Decisions(t, subs)| == |subs|
    decreases |subs|
  {
    if subs != [] {
      DecisionsLength(SubmitStep(t, subs[0]).0, subs[1..]);
    }
  }

  function TurnedAway(ds: seq<Decision>): seq<bool> {
    seq(|ds|, i requires 0 <= i < |ds| => ds[i] == TableFull)
  }

  /** Submissions are serialised by the table's lock, so their readings follow one another. */
  ghost predicate Serial(clock: Instant, subs: seq<Submission>)
    decreases |subs|
  {
    subs != [] ==> InOrder(clock, subs[0]) && Serial(subs[0].at.restarted, subs[1..])
  }

  lemma StepAgrees(t: Quotas, full: Quotas, clock: Instant, s: Submission) returns (full2: Quotas, r: Readings)
    requires Agrees(t, full, clock) && InOrder(clock, s)
    ensures Meanwhile(r, s.at) && Agrees(SubmitStep(t, s).0, full2, s.at.restarted)
    ensures if SubmitStep(t, s).1 == TableFull then full2 == full
            else (full2, SubmitStep(t, s).1) == Charge(full, s.source, r)
  {
    var pruned := Prune(t, s.retained);
    PruneAgrees(t, full, clock, s);
    hide Prune;
    r := s.at;
    if SubmitStep(t, s).1 == TableFull {
      full2 := full;
    } else {
      r := Remembering(pruned, full, s.source, s.at);
      ChargeAgrees(pruned, full, s.source, s.at);
      full2 := Charge(full, s.source, r).0;
    }
  }

  /**
   Forgetting sources after two windows never changes a decision: whatever the
   clock showed, a table that never forgets decides the same, submission by
   submission, at readings it could have taken during those submissions.
   */
  lemma {:induction false} ForgettingIsInvisible(t: Quotas, full: Quotas, clock: Instant, subs: seq<Submission>)
    returns (at: seq<Readings>)
    requires Agrees(t, full, clock) && Serial(clock, subs)
    ensures |Decisions(t, subs)| == |subs| == |at|
    ensures forall i :: 0 <= i < |subs| ==> Meanwhile(at[i], subs[i].at)
    ensures Verdicts(full, subs, at, TurnedAway(Decisions(t, subs))) == Decisions(t, subs)
    decreases |subs|
  {
    at := [];
    if subs != [] {
      hide Agrees, SubmitStep, Charge, InOrder, Meanwhile;
      var s := subs[0];
      var (t2, d) := SubmitStep(t, s);
      var full2, r := StepAgrees(t, full, clock, s);
      var rest := ForgettingIsInvisible(t2, full2, s.at.restarted, subs[1..]);
      at := [r] + rest;
      assert at[1..] == rest;
      assert TurnedAway(Decisions(t, subs))[1..] == TurnedAway(Decisions(t2, subs[1..]));
      forall i | 0 <= i < |subs| ensures Meanwhile(at[i], subs[i].at) {
        assert i > 0 ==> Meanwhile(rest[i - 1], subs[1..][i - 1].at);
      }
    }
  }

  type Logs = map<IpAddr, seq<Entry>>

  function LogOf(logs: Logs, ip: IpAddr): seq<Entry> {
    if ip in logs then logs[ip] else []
  }

  /** The log lies wholly in windows that have run their width. */
  ghost predicate RunOut(log: seq<Entry>, clock: Instant) {
    WindowLog(log, SUBMIT_WINDOW, SUBMIT_MAX) && forall i :: 0 <= i < |log| ==> log[i].window + SUBMIT_WINDOW <= clock
  }

  /** Each tracked source's budget summarises its whole log; a forgotten source's log has run out. */
  ghost predicate TableOk(quotas: Quotas, logs: Logs, clock: Instant) {
    && |quotas| <= MAX_SUBMITTERS
    && (forall ip :: ip in quotas ==>
          quotas[ip].started <= clock && Tracks(quotas[ip], LogOf(logs, ip), SUBMIT_WINDOW, SUBMIT_MAX))
    && (forall ip :: ip !in quotas ==> RunOut(LogOf(logs, ip), clock))
  }

  lemma PruneKeepsTable(quotas: Quotas, logs: Logs, clock: Instant, retained: IpAddr -> Instant, now: Instant)
    requires TableOk(quotas, logs, clock) && clock <= now && forall ip :: clock <= retained(ip) <= now
    ensures TableOk(Prune(quotas, retained), logs, now)
  {
    var pruned := Prune(quotas, retained);
    Smaller(pruned.Keys, quotas.Keys);
    forall ip | ip !in pruned ensures RunOut(LogOf(logs, ip), now) {
      if ip in quotas {
        assert retained(ip) <= now;
        assert Tracks(quotas[ip], LogOf(logs, ip), SUBMIT_WINDOW, SUBMIT_MAX);
      } else {
        assert RunOut(LogOf(logs, ip), clock);
      }
    }
  }

  lemma LaterClock(quotas: Quotas, logs: Logs, clock: Instant, later: Instant)
    requires TableOk(quotas, logs, clock) && clock <= later
    ensures TableOk(quotas, logs, later)
  {
    hide Tracks;
    forall ip | ip !in quotas ensures RunOut(LogOf(logs, ip), later) {
      assert RunOut(LogOf(logs, ip), clock);
    }
  }

  lemma InsertKeepsTable(quotas: Quotas, logs: Logs, clock: Instant, ip: IpAddr, w: Window, log: seq<Entry>)
    requires TableOk(quotas, logs, clock) && (ip in quotas || |quotas| < MAX_SUBMITTERS)
    requires Tracks(w, log, SUBMIT_WINDOW, SUBMIT_MAX) && w.started <= clock
    ensures TableOk(quotas[ip := w], logs[ip := log], clock)
  {
    hide Tracks;
    hide RunOut;
    assert (quotas[ip := w]).Keys == quotas.Keys + {ip};
    forall x | x != ip ensures LogOf(logs[ip := log], x) == LogOf(logs, x) {}
  }

  /** A source seen for the first time, or again after being forgotten, starts from a clean window. */
  lemma OpenTracks(quotas: Quotas, logs: Logs, now: Instant, ip: IpAddr)
    requires TableOk(quotas, logs, now)
    ensures
      var quota := if ip in quotas then quotas[ip] else Window(now, 0);
      quota.started <= now && Tracks(quota, LogOf(logs, ip), SUBMIT_WINDOW, SUBMIT_MAX)
  {
    if ip !in quotas {
      assert RunOut(LogOf(logs, ip), now);
      SpentNothing(LogOf(logs, ip), now);
    }
  }

  /** One submission allowed or denied: the log grows by exactly the allowed one. */
  lemma AllowTracks(w: Window, log: seq<Entry>, at: Readings)
    requires Tracks(w, log, SUBMIT_WINDOW, SUBMIT_MAX) && w.started <= at.checked <= at.restarted
    ensures
      var (w2, ok) := AllowSubmit(w, at);
      var e := Entry(Stamp(w, SUBMIT_WINDOW, at.checked, at.restarted), w2.started, 1);
      w2.started <= at.restarted && Tracks(w2, log + if ok then [e] else [], SUBMIT_WINDOW, SUBMIT_MAX)
  {
    RollTracks(w, log, SUBMIT_WINDOW, SUBMIT_MAX, at.checked, at.restarted);
    var rolled := Roll(w, SUBMIT_WINDOW, at.checked, at.restarted);
    if rolled.used < SUBMIT_MAX {
      ChargeTracks(rolled, log, SUBMIT_WINDOW, SUBMIT_MAX, Stamp(w, SUBMIT_WINDOW, at.checked, at.restarted), 1);
    } else {
      assert log + [] == log;
    }
  }

  /** The sources still remembered: those whose window began less than two windows ago. */
  function Remembered(quotas: Quotas, retained: IpAddr -> Instant): set<IpAddr> {
    set ip | ip in quotas && Elapsed(retained(ip), quotas[ip].started) < 1200 * SECOND
  }

  /** When the window began that a submission counts against. */
  function WindowFor(quotas: Quotas, s: Submission): Instant {
    if s.source in Remembered(quotas, s.retained) then quotas[s.source].started else s.at.inserted
  }

  lemma AllowDecided(w: Window, log: seq<Entry>, at: Readings)
    requires Tracks(w, log, SUBMIT_WINDOW, SUBMIT_MAX)
    ensures AllowSubmit(w, at).1 <==> Elapsed(at.checked, w.started) >= 600 * SECOND || Spent(log, w.started) < 8
  {}

  /**
   A submission is turned away exactly when its source is forgotten and 8192
   others are not; otherwise it is allowed exactly when its window is over or
   fewer than eight submissions were allowed in it.
   */
  lemma SubmitDecided(quotas: Quotas, logs: Logs, clock: Instant, s: Submission)
    requires TableOk(quotas, logs, clock) && InOrder(clock, s)
    ensures
      var (d, known, began) := (SubmitStep(quotas, s).1, Remembered(quotas, s.retained), WindowFor(quotas, s));
      && (d == TableFull <==> s.source !in known && |known| >= 8192)
      && (d != TableFull ==>
            (d == Allowed <==>
               Elapsed(s.at.checked, began) >= 600 * SECOND || Spent(LogOf(logs, s.source), began) < 8))
  {
    var pruned := Prune(quotas, s.retained);
    assert pruned.Keys == Remembered(quotas, s.retained);
    PruneKeepsTable(quotas, logs, clock, s.retained, s.at.inserted);
    OpenTracks(pruned, logs, s.at.inserted, s.source);
    hide TableOk, Tracks, InOrder, Prune;
    var w := if s.source in pruned then pruned[s.source] else Window(s.at.inserted, 0);
    AllowDecided(w, LogOf(logs, s.source), s.at);
  }

  class SubmitQuotaTable {
    var quotas: Quotas
    ghost var logs: Logs
    ghost var clock: Instant

    ghost predicate Valid()
      reads this
    {
      TableOk(quotas, logs, clock)
    }

    constructor ()
      ensures Valid() && quotas == map[] && logs == map[] && clock == 0
    {
      quotas, logs, clock := map[], map[], 0;
    }

    static method Keep(quotas: Quotas, retained: IpAddr -> Instant) returns (kept: Quotas)
      ensures kept == Prune(quotas, retained)
    {
      kept := map[];
      var pending := quotas.Keys;
      while pending != {}
        invariant pending <= quotas.Keys
        invariant forall ip :: ip in kept <==>
          ip in quotas && ip !in pending && Elapsed(retained(ip), quotas[ip].started) < 2 * SUBMIT_WINDOW
        invariant forall ip :: ip in kept ==> kept[ip] == quotas[ip]
        decreases pending
      {
        var ip :| ip in pending;
        if Elapsed(retained(ip), quotas[ip].started) < 2 * SUBMIT_WINDOW {
          kept := kept[ip := quotas[ip]];
        }
        pending := pending - {ip};
      }
    }

    method Retain(s: Submission)
      requires Valid() && InOrder(clock, s)
      modifies this
      ensures Valid() && quotas == Prune(old(quotas), s.retained) && logs == old(logs) && clock == s.at.inserted
    {
      PruneKeepsTable(quotas, logs, clock, s.retained, s.at.inserted);
      hide TableOk;
      var kept := Keep(quotas, s.retained);
      quotas, clock := kept, s.at.inserted;
    }

    /** The window this submission counts against, before it is charged. */
    ghost function Budget(s: Submission): Window
      reads this
    {
      var pruned := Prune(quotas, s.retained);
      if s.source in pruned then pruned[s.source] else Window(s.at.inserted, 0)
    }

    method Submit(s: Submission) returns (d: Decision)
      requires Valid() && InOrder(clock, s)
      modifies this
      ensures Valid() && clock == s.at.restarted
      ensures (quotas, d) == SubmitStep(old(quotas), s)
      ensures d == Allowed ==> s.source in quotas
      ensures forall ip :: LogOf(logs, ip) == LogOf(old(logs), ip) +
                if d == Allowed && ip == s.source
                then [Entry(Stamp(old(Budget(s)), SUBMIT_WINDOW, s.at.checked, s.at.restarted),
                            quotas[s.source].started, 1)]
                else []
    {
      hide TableOk, Tracks;
      Retain(s);
      if s.source !in quotas && |quotas| >= MAX_SUBMITTERS {
        LaterClock(quotas, logs, clock, s.at.restarted);
        clock := s.at.restarted;
        return TableFull;
      }
      OpenTracks(quotas, logs, s.at.inserted, s.source);
      var quota := if s.source in quotas then quotas[s.source] else Window(s.at.inserted, 0);
      AllowTracks(quota, LogOf(logs, s.source), s.at);
      ghost var before := quota;
      if Elapsed(s.at.checked, quota.started) >= SUBMIT_WINDOW {
        quota := Window(s.at.restarted, 0);
      }
      d := Denied;
      ghost var log := LogOf(logs, s.source);
      if quota.used < SUBMIT_MAX {
        quota := quota.(used := quota.used + 1);
        d := Allowed;
        log := log + [Entry(Stamp(before, SUBMIT_WINDOW, s.at.checked, s.at.restarted), quota.started, 1)];
      }
      assert (quota, d == Allowed) == AllowSubmit(before, s.at);
      LaterClock(quotas, logs, clock, s.at.restarted);
      clock := s.at.restarted;
      InsertKeepsTable(quotas, logs, clock, s.source, quota, log);
      quotas, logs := quotas[s.source := quota], logs[s.source := log];
    }

    /** Forgotten or not, no source gets more than sixteen submissions into any ten minutes. */
    lemma TenMinuteBound(ip: IpAddr, from: Instant)
      requires Valid()
      ensures SpentBetween(LogOf(logs, ip), from, from + 600 * SECOND) <= 16
    {
      hide WindowLog;
      assert ip in quotas || RunOut(LogOf(logs, ip), clock);
      OneWidthBound(LogOf(logs, ip), SUBMIT_WINDOW, SUBMIT_MAX, from);
    }
  }
}
