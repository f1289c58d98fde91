/** How sessions begin and end over a run, and what a connection can do after its session is over. */
module Endings {
  import opened Options
  import opened Lobbies
  import opened Registration
  import opened Moderation
  import opened Departure
  import opened Sessions
  import opened Runs
  import opened Histories

  predicate CommitStep(s: State, s2: State, a: Label, k: Conn) {
    a.Submit? && a.k == k && k in s2.conns && s2.conns[k].Committed?
  }

  /** The three ways a current session can end. */
  ghost predicate Replaced(hash: Hash, s: State, a: Label, ending: Session, k: Conn)
    requires Enabled(s, a)
  {
    a.Submit? && a.k != k && Touches(hash, s, a, ending.lobby) && a.request.identity == Some(ending.client)
  }

  ghost predicate Kicked(hash: Hash, s: State, a: Label, ending: Session, k: Conn)
    requires Enabled(s, a)
  {
    && a.Decide? && a.k != k && Touches(hash, s, a, ending.lobby)
    && s.conns[a.k].action == Kick(ending.client) && Authorized(s.dir, s.conns[a.k].session, a.k)
  }

  ghost predicate Left(hash: Hash, s: State, a: Label, ending: Session, k: Conn)
    requires Enabled(s, a)
  {
    a.Cleanup? && a.k == k && Touches(hash, s, a, ending.lobby)
  }

  // ----- One step -----

  /** The record of `c` in `l` is the same before and after, or absent both times. */
  predicate SameRecord(d: Directory, d2: Directory, l: LobbyId, c: ClientId) {
    && (IsMember(d, l, c) <==> IsMember(d2, l, c))
    && (IsMember(d, l, c) ==> d.lobbies[l].clients[c] == d2.lobbies[l].clients[c])
  }

  lemma OwnsFrame(s: State, s2: State, k: Conn)
    requires k in s.conns && k in s2.conns && SessionOf(s.conns[k]) == SessionOf(s2.conns[k])
    requires SessionOf(s.conns[k]).Some? ==>
               SameRecord(s.dir, s2.dir, SessionOf(s.conns[k]).value.lobby, SessionOf(s.conns[k]).value.client)
    ensures Owns(s, k) <==> Owns(s2, k)
  {}

  lemma AdmissionRecords(hash: Hash, d: Directory, r: Request, locked: bool, draw: Draw, k: Conn,
                         l: LobbyId, c: ClientId)
    requires Screen(r).None? && DirectoryOk(d) && Admissible(hash, d, r, locked)
    requires l != r.lobby || c != r.identity.value
    ensures SameRecord(d, Admit(hash, d, r, locked, draw, k).0, l, c)
  {
    AdmissionFrame(hash, d, r, locked, draw, k);
  }

  lemma KickRecords(d: Directory, s: Session, k: Conn, a: Action, token: Token, l: LobbyId, c: ClientId)
    requires DirectoryOk(d) && KickLands(d, s, k, a) && (l != s.lobby || c != a.target)
    ensures SameRecord(d, Moderate(d, s, k, a, token).0, l, c)
  {
    hide Moderate, DirectoryOk, SameSettings;
    KickEffect(d, s, k, a, token);
  }

  lemma DepartureRecords(d: Directory, s: Session, k: Conn, next: ClientId, token: Token, l: LobbyId, c: ClientId)
    requires DirectoryOk(d) && OwnedBy(d, s.lobby, s.client, k) && ValidSuccessor(d, s, k, next)
    requires l != s.lobby || c != s.client
    ensures SameRecord(d, Depart(d, s, k, next, token).0, l, c)
  {
    hide Depart, DirectoryOk, ValidSuccessor, SameSettings;
    DepartureEffect(d, s, k, next, token);
  }

  /** A registration by `j` does nothing to the session of another connection unless it replaces it. */
  lemma SubmitOwnsOther(hash: Hash, s: State, a: Label, k: Conn)
    requires DirectoryOk(s.dir) && Enabled(s, a) && a.Submit? && a.k != k && k in s.conns
    ensures
      var s2 := ApplySubmit(hash, s, a.k, a.request, a.locked, a.draw);
      && (Owns(s2, k) ==> Owns(s, k))
      && (Owns(s, k) && !Owns(s2, k) ==> Replaced(hash, s, a, SessionOf(s.conns[k]).value, k))
  {
    var (j, r, locked, draw) := (a.k, a.request, a.locked, a.draw);
    var s2 := ApplySubmit(hash, s, j, r, locked, draw);
    if Screen(r).Some? || !Admissible(hash, s.dir, r, locked) {
      if Screen(r).None? {
        AdmissionDecided(hash, s.dir, r, locked, draw, j);
      }
      OwnsFrame(s, s2, k);
    } else if SessionOf(s.conns[k]).Some? {
      var session := SessionOf(s.conns[k]).value;
      if session.lobby == r.lobby && session.client == r.identity.value {
        AdmissionEffect(hash, s.dir, r, locked, draw, j);
        assert !Owns(s2, k);
      } else {
        AdmissionRecords(hash, s.dir, r, locked, draw, j, session.lobby, session.client);
        OwnsFrame(s, s2, k);
      }
    }
  }

  lemma SubmitOwnsSelf(hash: Hash, s: State, a: Label)
    requires DirectoryOk(s.dir) && Enabled(s, a) && a.Submit?
    ensures
      var s2 := ApplySubmit(hash, s, a.k, a.request, a.locked, a.draw);
      !Owns(s, a.k) && (Owns(s2, a.k) <==> CommitStep(s, s2, a, a.k))
  {
    hide Admit, Admissible, DirectoryOk;
    var s2 := ApplySubmit(hash, s, a.k, a.request, a.locked, a.draw);
    if s2.conns[a.k].Committed? {
      AdmissionDecided(hash, s.dir, a.request, a.locked, a.draw, a.k);
      AdmissionEffect(hash, s.dir, a.request, a.locked, a.draw, a.k);
      assert IsCurrent(s2.dir, s2.conns[a.k].session, a.k);
    } else {
      assert SessionOf(s2.conns[a.k]).None?;
    }
  }

  lemma DecideOwns(s: State, a: Label, k: Conn)
    requires DirectoryOk(s.dir) && Enabled(s, a) && a.Decide? && k in s.conns
    ensures
      var s2 := ApplyDecide(s, a.k, a.token);
      && (Owns(s2, k) ==> Owns(s, k))
      && (Owns(s, k) && !Owns(s2, k) ==>
            && KickLands(s.dir, s.conns[a.k].session, a.k, s.conns[a.k].action) && a.k != k
            && s.conns[a.k].session.lobby == SessionOf(s.conns[k]).value.lobby
            && s.conns[a.k].action == Kick(SessionOf(s.conns[k]).value.client))
  {
    hide Moderate, DirectoryOk, SameSettings;
    var (actor, action) := (s.conns[a.k].session, s.conns[a.k].action);
    var s2 := ApplyDecide(s, a.k, a.token);
    if SessionOf(s.conns[k]).Some? {
      var session := SessionOf(s.conns[k]).value;
      if !KickLands(s.dir, actor, a.k, action) {
        QuietModeration(s.dir, actor, a.k, action, a.token);
        OwnsFrame(s, s2, k);
      } else if session.lobby == actor.lobby && session.client == action.target {
        KickEffect(s.dir, actor, a.k, action, a.token);
        assert !Owns(s2, k);
      } else {
        KickRecords(s.dir, actor, a.k, action, a.token, session.lobby, session.client);
        OwnsFrame(s, s2, k);
      }
    }
  }

  lemma CleanupOwnsOther(s: State, a: Label, k: Conn)
    requires DirectoryOk(s.dir) && Enabled(s, a) && a.Cleanup? && a.k != k && k in s.conns
    ensures Owns(ApplyCleanup(s, a.k, a.next, a.token), k) <==> Owns(s, k)
  {
    var left := s.conns[a.k].left;
    var s2 := ApplyCleanup(s, a.k, a.next, a.token);
    if left.None? || !OwnedBy(s.dir, left.value.lobby, left.value.client, a.k) {
      OwnsFrame(s, s2, k);
    } else if SessionOf(s.conns[k]).Some? {
      var session := SessionOf(s.conns[k]).value;
      if session.lobby == left.value.lobby && session.client == left.value.client {
        DepartureEffect(s.dir, left.value, a.k, a.next, a.token);
      } else {
        DepartureRecords(s.dir, left.value, a.k, a.next, a.token, session.lobby, session.client);
        OwnsFrame(s, s2, k);
      }
    }
  }

  lemma OtherStepsOwn(hash: Hash, s: State, a: Label, k: Conn)
    requires Enabled(s, a) && !a.Submit? && !a.Decide? && !a.Cleanup?
    ensures Owns(Apply(hash, s, a), k) <==> Owns(s, k)
  {
    var s2 := Apply(hash, s, a);
    assert s2.dir == s.dir;
    if k in s.conns {
      assert SessionOf(s2.conns[k]) == SessionOf(s.conns[k]);
      OwnsFrame(s, s2, k);
    }
  }

  /** A session starts only by its own commit and ends only by replacement, by a kick, or by its own cleanup. */
  ghost predicate SessionRule(hash: Hash, s: State, a: Label, s2: State, k: Conn)
    requires Enabled(s, a)
  {
    && (CommitStep(s, s2, a, k) ==> !Owns(s, k) && Owns(s2, k))
    && (!CommitStep(s, s2, a, k) && Owns(s2, k) ==> Owns(s, k))
    && (Owns(s, k) && !Owns(s2, k) ==>
          var ending := SessionOf(s.conns[k]).value;
          Replaced(hash, s, a, ending, k) || Kicked(hash, s, a, ending, k) || Left(hash, s, a, ending, k))
  }

  lemma SubmitRule(hash: Hash, s: State, a: Label, k: Conn)
    requires DirectoryOk(s.dir) && Enabled(s, a) && a.Submit?
    ensures SessionRule(hash, s, a, ApplySubmit(hash, s, a.k, a.request, a.locked, a.draw), k)
  {
    if a.k == k {
      SubmitOwnsSelf(hash, s, a);
    } else if k in s.conns {
      SubmitOwnsOther(hash, s, a, k);
    }
  }

  lemma DecideRule(hash: Hash, s: State, a: Label, k: Conn)
    requires DirectoryOk(s.dir) && Enabled(s, a) && a.Decide?
    ensures SessionRule(hash, s, a, ApplyDecide(s, a.k, a.token), k)
  {
    if k in s.conns {
      DecideOwns(s, a, k);
    }
  }

  lemma CleanupOwnsSelf(hash: Hash, s: State, a: Label, s2: State)
    requires Enabled(s, a) && a.Cleanup? && s2.conns == s.conns[a.k := Done]
    ensures !Owns(s2, a.k)
    ensures Owns(s, a.k) ==> Left(hash, s, a, SessionOf(s.conns[a.k]).value, a.k)
  {}

  lemma CleanupRule(hash: Hash, s: State, a: Label, k: Conn)
    requires DirectoryOk(s.dir) && Enabled(s, a) && a.Cleanup?
    ensures SessionRule(hash, s, a, ApplyCleanup(s, a.k, a.next, a.token), k)
  {
    var s2 := ApplyCleanup(s, a.k, a.next, a.token);
    if a.k == k {
      CleanupOwnsSelf(hash, s, a, s2);
    } else if k in s.conns {
      CleanupOwnsOther(s, a, k);
    } else {
      assert k !in s2.conns;
    }
  }

  lemma StepRule(hash: Hash, s: State, a: Label, k: Conn)
    requires DirectoryOk(s.dir) && Enabled(s, a)
    ensures SessionRule(hash, s, a, Apply(hash, s, a), k)
  {
    match a
    case Submit(_, _, _, _) => SubmitRule(hash, s, a, k);
    case Decide(_, _) => DecideRule(hash, s, a, k);
    case Cleanup(_, _, _) => CleanupRule(hash, s, a, k);
    case _ => OtherStepsOwn(hash, s, a, k);
  }

  // ----- Every committed session ends exactly once -----

  ghost predicate CommitsAt(run: Run, i: nat, k: Conn)
    requires i < |run.labels| < |run.states|
  {
    CommitStep(run.states[i], run.states[i + 1], run.labels[i], k)
  }

  ghost predicate EndsAt(run: Run, i: nat, k: Conn)
    requires i < |run.labels| < |run.states|
  {
    Owns(run.states[i], k) && !Owns(run.states[i + 1], k)
  }

  ghost function Commits(run: Run, k: Conn, n: nat): nat
    requires n <= |run.labels| < |run.states|
  {
    if n == 0 then 0 else Commits(run, k, n - 1) + if CommitsAt(run, n - 1, k) then 1 else 0
  }

  ghost function Ends(run: Run, k: Conn, n: nat): nat
    requires n <= |run.labels| < |run.states|
  {
    if n == 0 then 0 else Ends(run, k, n - 1) + if EndsAt(run, n - 1, k) then 1 else 0
  }

  /** Not yet past the point where a registration can commit. */
  predicate Unregistered(s: State, k: Conn) {
    k !in s.conns || s.conns[k].Connected?
  }

  lemma LeavesUnregisteredOnce(hash: Hash, s: State, a: Label, k: Conn)
    requires Enabled(s, a)
    ensures
      var s2 := Apply(hash, s, a);
      && (CommitStep(s, s2, a, k) ==> Unregistered(s, k) && !Unregistered(s2, k))
      && (Unregistered(s2, k) ==> Unregistered(s, k))
  {}

  lemma OwnsAt(hash: Hash, run: Run, i: nat, k: Conn)
    requires IsRun(hash, run) && i < |run.labels|
    ensures CommitsAt(run, i, k) ==> !Owns(run.states[i], k) && Owns(run.states[i + 1], k)
    ensures !CommitsAt(run, i, k) && Owns(run.states[i + 1], k) ==> Owns(run.states[i], k)
    ensures CommitsAt(run, i, k) ==> Unregistered(run.states[i], k) && !Unregistered(run.states[i + 1], k)
    ensures Unregistered(run.states[i + 1], k) ==> Unregistered(run.states[i], k)
  {
    At(hash, run, i);
    StepRule(hash, run.states[i], run.labels[i], k);
    LeavesUnregisteredOnce(hash, run.states[i], run.labels[i], k);
  }

  /** A connection commits at most once, and its session has ended exactly when it no longer owns a record. */
  lemma {:induction false} EveryCommitEndsOnce(hash: Hash, run: Run, k: Conn, n: nat)
    requires IsRun(hash, run) && n <= |run.labels|
    ensures Commits(run, k, n) <= 1
    ensures Commits(run, k, n) == Ends(run, k, n) + if Owns(run.states[n], k) then 1 else 0
    ensures Unregistered(run.states[n], k) ==> Commits(run, k, n) == 0
  {
    if n > 0 {
      EveryCommitEndsOnce(hash, run, k, n - 1);
      OwnsAt(hash, run, n - 1, k);
    }
  }

  /** A finished connection has ended every session it ever committed. */
  lemma FinishedMeansEnded(hash: Hash, run: Run, k: Conn, n: nat)
    requires IsRun(hash, run) && n <= |run.labels|
    requires k in run.states[n].conns && run.states[n].conns[k].Done?
    ensures Commits(run, k, n) == Ends(run, k, n) <= 1
  {
    EveryCommitEndsOnce(hash, run, k, n);
  }

  // ----- Stale sockets are inert -----

  /** The connection has been past registration and owns nothing. */
  predicate Stale(s: State, k: Conn) {
    !Unregistered(s, k) && !Owns(s, k)
  }

  predicate Actor(a: Label, k: Conn) {
    !a.Deliver? && a.k == k
  }

  lemma StaleStep(hash: Hash, s: State, a: Label, k: Conn)
    requires Inv(s) && Enabled(s, a) && Stale(s, k)
    ensures Stale(Apply(hash, s, a), k)
    ensures Actor(a, k) && (a.Decide? || a.Cleanup?) ==>
              Apply(hash, s, a).dir == s.dir && Apply(hash, s, a).notices == s.notices
  {
    StepRule(hash, s, a, k);
    LeavesUnregisteredOnce(hash, s, a, k);
    if a.Cleanup? && a.k == k && s.conns[k].left.Some? {
      var left := s.conns[k].left.value;
      assert IsMember(s.dir, left.lobby, left.client) ==> !OwnedBy(s.dir, left.lobby, left.client, k);
      StaleDepartureIsInert(s.dir, left, k, a.next, a.token);
    }
  }

  /**
   Once replaced, kicked or otherwise stale, a connection stays stale for the
   rest of the run: its queued host action and its cleanup change neither map
   and notify nobody, even if its lobby is destroyed and created again.
   */
  lemma {:induction false} StaleForever(hash: Hash, run: Run, i: nat, j: nat, k: Conn)
    requires IsRun(hash, run) && i <= j < |run.states| && Stale(run.states[i], k)
    ensures Stale(run.states[j], k)
    ensures j < |run.labels| && Actor(run.labels[j], k) && (run.labels[j].Decide? || run.labels[j].Cleanup?) ==>
              run.states[j + 1].dir == run.states[j].dir && run.states[j + 1].notices == run.states[j].notices
    decreases j
  {
    hide Inv, Enabled, Apply, Stale;
    if i < j {
      StaleForever(hash, run, i, j - 1, k);
      At(hash, run, j - 1);
      StaleStep(hash, run.states[j - 1], run.labels[j - 1], k);
    }
    if j < |run.labels| {
      At(hash, run, j);
      StaleStep(hash, run.states[j], run.labels[j], k);
    }
  }

  // ----- Only the host governs -----

  /**
   A step that changes a lobby without changing who its members are is a host
   action by the exact current session of that lobby's host, and it reaches no
   other lobby and no index entry.
   */
  lemma OnlyTheHostGoverns(hash: Hash, run: Run, i: nat, l: LobbyId)
    requires IsRun(hash, run) && i < |run.labels|
    requires
      var (d, d2) := (run.states[i].dir, run.states[i + 1].dir);
      && l in d.lobbies && l in d2.lobbies && d.lobbies[l] != d2.lobbies[l]
      && d.lobbies[l].clients == d2.lobbies[l].clients
    ensures
      var (s, s2, a) := (run.states[i], run.states[i + 1], run.labels[i]);
      && a.Decide? && In(s, a.k) && s.conns[a.k].Moderating? && s.conns[a.k].session.lobby == l
      && Authorized(s.dir, s.conns[a.k].session, a.k)
      && OnlyLobby(s.dir, s2.dir, l) && s2.dir.index == s.dir.index
  {
    At(hash, run, i);
    var s, a := run.states[i], run.labels[i];
    match a
    case Submit(_, _, _, _) => SubmitChangesMembers(hash, s, a, l);
    case Decide(_, _) => DecideGoverns(s, a, l);
    case Cleanup(_, _, _) => CleanupChangesMembers(s, a, l);
    case _ =>
  }

  /** A host action either changes who the members are, or is its own lobby's host governing. */
  lemma DecideGoverns(s: State, a: Label, l: LobbyId)
    requires DirectoryOk(s.dir) && Enabled(s, a) && a.Decide?
    ensures
      var d2 := ApplyDecide(s, a.k, a.token).dir;
      l in s.dir.lobbies && l in d2.lobbies && d2.lobbies[l] != s.dir.lobbies[l] &&
      d2.lobbies[l].clients == s.dir.lobbies[l].clients ==>
        && s.conns[a.k].session.lobby == l && Authorized(s.dir, s.conns[a.k].session, a.k)
        && OnlyLobby(s.dir, d2, l) && d2.index == s.dir.index
  {
    var (session, action) := (s.conns[a.k].session, s.conns[a.k].action);
    if KickLands(s.dir, session, a.k, action) {
      KickEffect(s.dir, session, a.k, action, a.token);
    } else {
      QuietModeration(s.dir, session, a.k, action, a.token);
    }
  }

  lemma CleanupChangesMembers(s: State, a: Label, l: LobbyId)
    requires DirectoryOk(s.dir) && Enabled(s, a) && a.Cleanup? && l in s.dir.lobbies
    ensures
      var d2 := ApplyCleanup(s, a.k, a.next, a.token).dir;
      l in d2.lobbies ==> d2.lobbies[l] == s.dir.lobbies[l] || d2.lobbies[l].clients != s.dir.lobbies[l].clients
  {
    hide LobbyOk, IndexOk;
    var left := s.conns[a.k].left;
    if left.Some? && OwnedBy(s.dir, left.value.lobby, left.value.client, a.k) {
      DepartureEffect(s.dir, left.value, a.k, a.next, a.token);
    }
  }

  lemma SubmitChangesMembers(hash: Hash, s: State, a: Label, l: LobbyId)
    requires DirectoryOk(s.dir) && RecordsOwned(s.dir, s.conns) && Enabled(s, a) && a.Submit? && l in s.dir.lobbies
    ensures
      var d2 := ApplySubmit(hash, s, a.k, a.request, a.locked, a.draw).dir;
      l in d2.lobbies && (d2.lobbies[l] == s.dir.lobbies[l] || d2.lobbies[l].clients != s.dir.lobbies[l].clients)
  {
    hide Admit, Admissible, DirectoryOk, RecordsOwned;
    if Screen(a.request).None? {
      AdmissionDecided(hash, s.dir, a.request, a.locked, a.draw, a.k);
      if Admissible(hash, s.dir, a.request, a.locked) {
        AdmissionChangesMembers(hash, s, a, l);
      }
    }
  }
}
