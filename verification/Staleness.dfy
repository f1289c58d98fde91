/** Which part of the delivery-time test, token, epoch or sender, does what. */
module Staleness {
  import opened Options
  import opened Lobbies
  import opened Registration
  import opened Moderation
  import opened Departure
  import opened Sessions
  import opened SessionProofs
  import opened Runs
  import opened Histories
  import opened Endings

  // ----- Where a pending notice comes from -----

  /** The lobby holds the notice's token and epoch, and every target is a member over the captured sender. */
  ghost predicate Captured(d: Directory, n: Notice) {
    && n.lobby in d.lobbies && d.lobbies[n.lobby].token == n.token && d.lobbies[n.lobby].epoch == n.epoch
    && forall c :: c in n.targets ==> OwnedBy(d, n.lobby, c, n.targets[c])
  }

  /** The notice is in flight, or is held back by a registration that has not been welcomed yet. */
  ghost predicate Pending(s: State, n: Notice) {
    n in s.notices || exists k :: k in s.conns && s.conns[k].Committed? && s.conns[k].notice == n
  }

  lemma SubmitCaptures(hash: Hash, s: State, a: Label, n: Notice)
    requires DirectoryOk(s.dir) && Enabled(s, a) && a.Submit?
    ensures
      var s2 := ApplySubmit(hash, s, a.k, a.request, a.locked, a.draw);
      (Pending(s2, n) && !Pending(s, n) ==> Captured(s2.dir, n)) && s2.notices == s.notices
  {
    hide Admit, Admissible, DirectoryOk;
    if Screen(a.request).None? {
      AdmissionDecided(hash, s.dir, a.request, a.locked, a.draw, a.k);
      if Admissible(hash, s.dir, a.request, a.locked) {
        AdmissionEffect(hash, s.dir, a.request, a.locked, a.draw, a.k);
      }
    }
  }

  /** A change of membership by someone already in a lobby captures those who stay, and there are some. */
  lemma ChangeCaptures(s: State, s2: State, k: Conn, l: LobbyId, t: Token, p: Phase, n: Notice)
    requires MembershipStep(s, s2, k, l, t, p) && !p.Committed? && (l in s2.dir.lobbies ==> LobbyOk(s2.dir.lobbies[l]))
    ensures Pending(s2, n) && !Pending(s, n) ==> Captured(s2.dir, n)
    ensures n in s2.notices && n !in s.notices ==> n.targets != map[]
  {
    hide Advanced;
    if l in s2.dir.lobbies {
      assert s2.dir.lobbies[l].host in Senders(s2.dir.lobbies[l], None);
    }
  }

  lemma DecideCaptures(s: State, a: Label, n: Notice)
    requires Inv(s) && Enabled(s, a) && a.Decide?
    ensures
      var s2 := ApplyDecide(s, a.k, a.token);
      && (Pending(s2, n) && !Pending(s, n) ==> Captured(s2.dir, n))
      && (n in s2.notices && n !in s.notices ==> n.targets != map[])
  {
    var (session, action, s2) := (s.conns[a.k].session, s.conns[a.k].action, ApplyDecide(s, a.k, a.token));
    if KickLands(s.dir, session, a.k, action) {
      KickIsMembershipStep(s, a.k, a.token);
      ModerationKeepsDirectory(s.dir, session, a.k, action, a.token);
      hide Inv, ApplyDecide, LobbyOk, MembershipStep;
      ChangeCaptures(s, s2, a.k, session.lobby, a.token, s2.conns[a.k], n);
    } else {
      QuietDecideShape(s, a.k, a.token);
      hide Inv, ApplyDecide, SameMembers;
    }
  }

  lemma CleanupCaptures(s: State, a: Label, n: Notice)
    requires Inv(s) && Enabled(s, a) && a.Cleanup?
    ensures
      var s2 := ApplyCleanup(s, a.k, a.next, a.token);
      && (Pending(s2, n) && !Pending(s, n) ==> Captured(s2.dir, n))
      && (n in s2.notices && n !in s.notices ==> n.targets != map[])
  {
    hide Depart, LobbyOk, IndexOk, RecordsOwned, Confined, WelcomesExact, NoticesExact, AllCovered, TokensDistinct;
    hide TrafficIssued, MembershipStep;
    var (left, s2) := (s.conns[a.k].left, ApplyCleanup(s, a.k, a.next, a.token));
    if left.Some? && OwnedBy(s.dir, left.value.lobby, left.value.client, a.k) {
      LeavingIsMembershipStep(s, a.k, a.next, a.token);
      DepartureKeepsDirectory(s.dir, left.value, a.k, a.next, a.token);
      ChangeCaptures(s, s2, a.k, left.value.lobby, a.token, Done, n);
    } else if left.Some? {
      StaleDepartureIsInert(s.dir, left.value, a.k, a.next, a.token);
    }
  }

  /** A notice first becomes pending at the very step that captures it. */
  lemma NewNoticeIsCaptured(hash: Hash, s: State, a: Label, n: Notice)
    requires Inv(s) && Enabled(s, a)
    ensures
      var s2 := Apply(hash, s, a);
      && (Pending(s2, n) && !Pending(s, n) ==> Captured(s2.dir, n))
      && (n in s2.notices && n !in s.notices ==> n.targets != map[])
  {
    assert DirectoryOk(s.dir);
    hide Inv, DirectoryOk, ApplySubmit, ApplyDecide, ApplyCleanup, Captured;
    match a
    case Submit(_, _, _, _) => SubmitCaptures(hash, s, a, n);
    case Decide(_, _) => DecideCaptures(s, a, n);
    case Cleanup(_, _, _) => CleanupCaptures(s, a, n);
    case _ =>
  }

  /** Every pending notice was captured at some earlier moment of the run. */
  lemma {:induction false} CaptureMoment(hash: Hash, run: Run, i: nat, n: Notice) returns (m: nat)
    requires IsRun(hash, run) && i < |run.states| && Pending(run.states[i], n)
    ensures m <= i && Captured(run.states[m].dir, n)
  {
    m := i;
    if i > 0 {
      At(hash, run, i - 1);
      NewNoticeIsCaptured(hash, run.states[i - 1], run.labels[i - 1], n);
      if Pending(run.states[i - 1], n) {
        m := CaptureMoment(hash, run, i - 1, n);
      }
    }
  }

  lemma {:induction false} NoticeHasTargets(hash: Hash, run: Run, i: nat, n: Notice)
    requires IsRun(hash, run) && i < |run.states| && n in run.states[i].notices
    ensures n.targets != map[]
  {
    if i > 0 {
      At(hash, run, i - 1);
      NewNoticeIsCaptured(hash, run.states[i - 1], run.labels[i - 1], n);
      if n in run.states[i - 1].notices {
        NoticeHasTargets(hash, run, i - 1, n);
      }
    }
  }

  // ----- A member that never left has seen every change -----

  /** A connection's session never changes from one to another. */
  lemma SessionKept(hash: Hash, s: State, a: Label, k: Conn)
    requires Enabled(s, a) && k in s.conns && SessionOf(s.conns[k]).Some?
    ensures
      var s2 := Apply(hash, s, a);
      k in s2.conns && (SessionOf(s2.conns[k]) == SessionOf(s.conns[k]) || SessionOf(s2.conns[k]).None?)
  {}

  /** A record owned by the same connection at two moments was owned by it at the moment before the later one. */
  lemma OwnedJustBefore(hash: Hash, run: Run, i: nat, l: LobbyId, c: ClientId, k: Conn)
    requires IsRun(hash, run) && i < |run.labels|
    requires !Unregistered(run.states[i], k) && OwnedBy(run.states[i + 1].dir, l, c, k)
    ensures OwnedBy(run.states[i].dir, l, c, k)
  {
    SenderDecides(hash, run, i + 1, k, l, c);
    OwnsAt(hash, run, i, k);
    At(hash, run, i);
    SessionKept(hash, run.states[i], run.labels[i], k);
    SenderDecides(hash, run, i, k, l, c);
  }

  lemma {:induction false} StaysRegistered(hash: Hash, run: Run, i: nat, j: nat, k: Conn)
    requires IsRun(hash, run) && i <= j < |run.states| && !Unregistered(run.states[i], k)
    ensures !Unregistered(run.states[j], k)
    decreases j
  {
    if i < j {
      StaysRegistered(hash, run, i, j - 1, k);
      OwnsAt(hash, run, j - 1, k);
    }
  }

  lemma OwnerIsRegistered(hash: Hash, run: Run, i: nat, l: LobbyId, c: ClientId, k: Conn)
    requires IsRun(hash, run) && i < |run.states| && OwnedBy(run.states[i].dir, l, c, k)
    ensures !Unregistered(run.states[i], k)
  {
    SenderDecides(hash, run, i, k, l, c);
  }

  lemma EpochRises(hash: Hash, run: Run, i: nat, l: LobbyId)
    requires IsRun(hash, run) && i < |run.labels|
    requires l in run.states[i].dir.lobbies && l in run.states[i + 1].dir.lobbies
    ensures
      var (before, after) := (run.states[i].dir.lobbies[l], run.states[i + 1].dir.lobbies[l]);
      before.epoch <= after.epoch && (before.epoch == after.epoch < U64_MAX ==> before.token == after.token)
  {
    StepOn(hash, run, i, l);
    IndexIsMembership(hash, run, i, run.states[i].dir.lobbies[l].host, l);
  }

  /**
   While one connection keeps its record, the lobby's epoch never falls, and as
   long as it has not saturated an unchanged epoch means an unchanged token.
   */
  lemma {:induction false} SameEpochSameToken(hash: Hash, run: Run, m: nat, i: nat, l: LobbyId, c: ClientId, k: Conn)
    requires IsRun(hash, run) && m <= i < |run.states|
    requires OwnedBy(run.states[m].dir, l, c, k) && OwnedBy(run.states[i].dir, l, c, k)
    ensures
      var (before, after) := (run.states[m].dir.lobbies[l], run.states[i].dir.lobbies[l]);
      before.epoch <= after.epoch && (before.epoch == after.epoch < U64_MAX ==> before.token == after.token)
    decreases i
  {
    hide StepAt, Unregistered;
    if m < i {
      OwnerIsRegistered(hash, run, m, l, c, k);
      StaysRegistered(hash, run, m, i - 1, k);
      OwnedJustBefore(hash, run, i - 1, l, c, k);
      SameEpochSameToken(hash, run, m, i - 1, l, c, k);
      EpochRises(hash, run, i - 1, l);
    }
  }

  // ----- What the token comparison adds -----

  /** What would be handed out if delivery compared the epoch and the senders, but not the token. */
  function EpochRecipients(d: Directory, n: Notice): set<(Conn, Token)> {
    if n.lobby in d.lobbies && d.lobbies[n.lobby].epoch == n.epoch
    then set c | c in n.targets && OwnedBy(d, n.lobby, c, n.targets[c]) :: (n.targets[c], n.token)
    else {}
  }

  /** A stale notice whose epoch recurs finds none of its targets still on the captured sender, below saturation. */
  lemma StaleEpochReachesNobody(hash: Hash, run: Run, i: nat, n: Notice)
    requires IsRun(hash, run) && i < |run.states| && n in run.states[i].notices
    requires n.lobby in run.states[i].dir.lobbies
    requires run.states[i].dir.lobbies[n.lobby].epoch == n.epoch < U64_MAX
    ensures (forall c :: c in n.targets ==> !OwnedBy(run.states[i].dir, n.lobby, c, n.targets[c])) <==>
            run.states[i].dir.lobbies[n.lobby].token != n.token
  {
    var d := run.states[i].dir;
    var m := CaptureMoment(hash, run, i, n);
    NoticeHasTargets(hash, run, i, n);
    forall c | c in n.targets && OwnedBy(d, n.lobby, c, n.targets[c]) ensures d.lobbies[n.lobby].token == n.token {
      SameEpochSameToken(hash, run, m, i, n.lobby, c, n.targets[c]);
    }
    if d.lobbies[n.lobby].token == n.token {
      StalenessTestIsExact(hash, run, i, n);
      var c :| c in n.targets;
      assert OwnedBy(d, n.lobby, c, n.targets[c]);
    }
  }

  /** Below saturation delivery hands out just what it would without the token comparison. */
  lemma EpochSufficesBelowSaturation(hash: Hash, run: Run, i: nat, n: Notice)
    requires IsRun(hash, run) && i < |run.states| && n in run.states[i].notices && n.epoch < U64_MAX
    ensures
      var s := run.states[i];
      Apply(hash, s, Deliver(n)).offered == s.offered + EpochRecipients(s.dir, n)
  {
    var d := run.states[i].dir;
    if n.lobby in d.lobbies && d.lobbies[n.lobby].epoch == n.epoch {
      StaleEpochReachesNobody(hash, run, i, n);
    }
  }
}
