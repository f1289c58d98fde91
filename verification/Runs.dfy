/** What holds of every run of the server, under every interleaving. */
module Runs {
  import opened Lobbies
  import opened Registration
  import opened Moderation
  import opened Departure
  import opened Sessions
  import opened SessionProofs

  datatype Run = Run(states: seq<State>, labels: seq<Label>)

  ghost predicate IsRun(hash: Hash, run: Run) {
    && |run.states| == |run.labels| + 1
    && run.states[0] == Init
    && forall i :: 0 <= i < |run.labels| ==> StepAt(hash, run, i)
  }

  ghost predicate StepAt(hash: Hash, run: Run, i: nat)
    requires i < |run.labels| < |run.states|
  {
    Enabled(run.states[i], run.labels[i]) && run.states[i + 1] == Apply(hash, run.states[i], run.labels[i])
  }

  lemma {:induction false} RunKeepsInv(hash: Hash, run: Run, i: nat)
    requires IsRun(hash, run) && i < |run.states|
    ensures Inv(run.states[i])
  {
    if i == 0 {
      InitInv();
    } else {
      RunKeepsInv(hash, run, i - 1);
      assert StepAt(hash, run, i - 1);
      StepKeepsInv(hash, run.states[i - 1], run.labels[i - 1]);
    }
  }

  /** In every reachable state the index is exactly the membership relation, so a client is in at most one lobby. */
  lemma IndexIsMembership(hash: Hash, run: Run, i: nat, c: ClientId, l: LobbyId)
    requires IsRun(hash, run) && i < |run.states|
    ensures
      var d := run.states[i].dir;
      && (IsMember(d, l, c) <==> c in d.index && d.index[c] == l)
      && (l in d.lobbies ==> LobbyOk(d.lobbies[l]))
      && (forall m :: IsMember(d, l, c) && IsMember(d, m, c) ==> l == m)
  {
    RunKeepsInv(hash, run, i);
  }

  // ----- Tokens stay with, and reach, the current members -----

  /** `t` has been handed to `k`'s transport, or is captured in a notice or a welcome that names `k`. */
  ghost predicate Exposed(s: State, k: Conn, t: Token) {
    || (k, t) in s.offered
    || (exists n, c :: n in s.notices && NoticeCovers(n, t, c) && n.targets[c] == k)
    || (k in s.conns && s.conns[k].Committed? && s.conns[k].notice.token == t)
    || (exists j, c :: j in s.conns && s.conns[j].Committed? && NoticeCovers(s.conns[j].notice, t, c)
                       && s.conns[j].notice.targets[c] == k)
  }

  /** Anyone to whom a lobby's current token was sent, or for whom it is queued, is a current member of it. */
  lemma TokenConfinement(hash: Hash, run: Run, i: nat, l: LobbyId, k: Conn)
    requires IsRun(hash, run) && i < |run.states| && l in run.states[i].dir.lobbies
    requires Exposed(run.states[i], k, run.states[i].dir.lobbies[l].token)
    ensures exists c :: OwnedBy(run.states[i].dir, l, c, k)
  {
    RunKeepsInv(hash, run, i);
    ExposedOwns(run.states[i], l, k);
  }

  lemma ExposedOwns(s: State, l: LobbyId, k: Conn)
    requires Confined(s.dir, s.offered) && NoticesExact(s.dir, s.notices) && WelcomesExact(s.dir, s.conns)
    requires l in s.dir.lobbies && Exposed(s, k, s.dir.lobbies[l].token)
    ensures exists c :: OwnedBy(s.dir, l, c, k)
  {
    var t := s.dir.lobbies[l].token;
    if (k, t) in s.offered {
    } else if n, c :| n in s.notices && NoticeCovers(n, t, c) && n.targets[c] == k {
      assert Exact(s.dir, n);
      assert OwnedBy(s.dir, l, c, k);
    } else if k in s.conns && s.conns[k].Committed? && s.conns[k].notice.token == t {
      assert Exact(s.dir, s.conns[k].notice) && Live(s.dir, s.conns[k].notice);
      assert OwnedBy(s.dir, l, s.conns[k].session.client, k);
    } else {
      var j, c :| j in s.conns && s.conns[j].Committed? && NoticeCovers(s.conns[j].notice, t, c)
                  && s.conns[j].notice.targets[c] == k;
      assert Exact(s.dir, s.conns[j].notice);
      assert OwnedBy(s.dir, l, c, k);
    }
  }

  /** The delivery test is exact: a live notice reaches every captured target, a dead one carries nobody's token. */
  lemma StalenessTestIsExact(hash: Hash, run: Run, i: nat, n: Notice)
    requires IsRun(hash, run) && i < |run.states| && n in run.states[i].notices
    ensures
      var d := run.states[i].dir;
      && (Live(d, n) <==> n.lobby in d.lobbies && d.lobbies[n.lobby].token == n.token)
      && if Live(d, n) then forall c :: c in n.targets ==> OwnedBy(d, n.lobby, c, n.targets[c])
         else forall l :: l in d.lobbies ==> d.lobbies[l].token != n.token
  {
    RunKeepsInv(hash, run, i);
    assert Exact(run.states[i].dir, n);
  }

  /** Nothing is in flight: every notice delivered, every commit welcomed, every departure cleaned up. */
  ghost predicate Settled(s: State) {
    s.notices == {} && forall k :: k in s.conns ==> !s.conns[k].Committed? && !s.conns[k].Closing?
  }

  lemma SettledIsOffered(s: State, l: LobbyId, c: ClientId)
    requires AllCovered(s) && Settled(s) && IsMember(s.dir, l, c)
    ensures (s.dir.lobbies[l].clients[c].sender, s.dir.lobbies[l].token) in s.offered
  {
    assert Covered(s, l, c);
  }

  /** Once things settle, a lobby's token has been offered to exactly its current members. */
  lemma SettledTokensAreExact(hash: Hash, run: Run, i: nat, l: LobbyId, k: Conn)
    requires IsRun(hash, run) && i < |run.states| && Settled(run.states[i]) && l in run.states[i].dir.lobbies
    ensures (k, run.states[i].dir.lobbies[l].token) in run.states[i].offered <==>
            exists c :: OwnedBy(run.states[i].dir, l, c, k)
  {
    RunKeepsInv(hash, run, i);
    if c :| OwnedBy(run.states[i].dir, l, c, k) {
      SettledIsOffered(run.states[i], l, c);
    }
  }

  // ----- Ownership of records -----

  /** `k` has a session and that session is the current one. */
  predicate Owns(s: State, k: Conn) {
    k in s.conns && SessionOf(s.conns[k]).Some? && IsCurrent(s.dir, SessionOf(s.conns[k]).value, k)
  }

  /** Ownership of any record at all is ownership under the connection's own session: sender alone decides. */
  lemma SenderDecides(hash: Hash, run: Run, i: nat, k: Conn, l: LobbyId, c: ClientId)
    requires IsRun(hash, run) && i < |run.states|
    ensures
      var s := run.states[i];
      OwnedBy(s.dir, l, c, k) <==>
        Owns(s, k) && SessionOf(s.conns[k]).value.lobby == l && SessionOf(s.conns[k]).value.client == c
  {
    RunKeepsInv(hash, run, i);
    assert IsMember(run.states[i].dir, l, c) ==> RecordsOwned(run.states[i].dir, run.states[i].conns);
  }

  /** A lobby always has a member whose connection has not finished. */
  lemma LobbyHasLiveOwner(s: State, l: LobbyId)
    requires DirectoryOk(s.dir) && RecordsOwned(s.dir, s.conns) && l in s.dir.lobbies
    ensures exists k :: k in s.conns && !s.conns[k].Done?
  {
    assert IsMember(s.dir, l, s.dir.lobbies[l].host);
    assert s.dir.lobbies[l].clients[s.dir.lobbies[l].host].sender in s.conns;
  }

  /** When every connection has finished, nothing is left behind. */
  lemma NoLeak(hash: Hash, run: Run, i: nat)
    requires IsRun(hash, run) && i < |run.states|
    requires forall k :: k in run.states[i].conns ==> run.states[i].conns[k].Done?
    ensures run.states[i].dir == Directory(map[], map[])
  {
    RunKeepsInv(hash, run, i);
    var d := run.states[i].dir;
    forall c | c in d.index ensures d.index[c] in d.lobbies {
      assert IsMember(d, d.index[c], c);
    }
    if d.lobbies != map[] {
      var l :| l in d.lobbies;
      LobbyHasLiveOwner(run.states[i], l);
    }
  }

  // ----- How one step treats one lobby -----

  /** The step commits to, kicks from, or departs from lobby `l`. */
  ghost predicate Touches(hash: Hash, s: State, a: Label, l: LobbyId)
    requires Enabled(s, a)
  {
    match a
    case Submit(_, r, locked, _) => r.lobby == l && Screen(r).None? && Admissible(hash, s.dir, r, locked)
    case Decide(k, _) => s.conns[k].session.lobby == l && KickLands(s.dir, s.conns[k].session, k, s.conns[k].action)
    case Cleanup(k, _, _) =>
      s.conns[k].left.Some? && s.conns[k].left.value.lobby == l && OwnedBy(s.dir, l, s.conns[k].left.value.client, k)
    case _ => false
  }

  /** The lobby is as it was, members, token and epoch alike. */
  ghost predicate SameLobby(d: Directory, d2: Directory, l: LobbyId) {
    && (l in d.lobbies <==> l in d2.lobbies)
    && (l in d.lobbies ==>
          && d2.lobbies[l].clients == d.lobbies[l].clients
          && d2.lobbies[l].token == d.lobbies[l].token
          && d2.lobbies[l].epoch == d.lobbies[l].epoch)
  }

  /** The lobby has other members, the token just drawn and the next epoch; or it started at 1; or it is gone. */
  ghost predicate Renewed(d: Directory, d2: Directory, l: LobbyId, t: Token) {
    && (l in d.lobbies || l in d2.lobbies)
    && (l in d2.lobbies ==>
          && d2.lobbies[l].token == t
          && (l in d.lobbies ==> d2.lobbies[l].clients != d.lobbies[l].clients)
          && d2.lobbies[l].epoch == if l in d.lobbies then NextEpoch(d.lobbies[l].epoch) else 1)
  }

  /** An admission writes a record for a sender that had none, so it never leaves the members as they were. */
  lemma AdmissionChangesMembers(hash: Hash, s: State, a: Label, l: LobbyId)
    requires DirectoryOk(s.dir) && RecordsOwned(s.dir, s.conns) && Enabled(s, a) && a.Submit? && l in s.dir.lobbies
    requires Screen(a.request).None? && Admissible(hash, s.dir, a.request, a.locked)
    ensures
      var d2 := Admit(hash, s.dir, a.request, a.locked, a.draw, a.k).0;
      && l in d2.lobbies
      && if l == a.request.lobby then d2.lobbies[l].clients != s.dir.lobbies[l].clients
         else d2.lobbies[l] == s.dir.lobbies[l]
  {
    hide Admit, Admissible, LobbyOk, IndexOk;
    AdmissionFrame(hash, s.dir, a.request, a.locked, a.draw, a.k);
    if l == a.request.lobby {
      AdmissionEffect(hash, s.dir, a.request, a.locked, a.draw, a.k);
      var c := a.request.identity.value;
      assert IsMember(s.dir, l, c) ==> s.dir.lobbies[l].clients[c].sender != a.k;
    }
  }

  lemma SubmitTouches(hash: Hash, s: State, a: Label, l: LobbyId)
    requires Inv(s) && Enabled(s, a) && a.Submit?
    ensures
      var d2 := Apply(hash, s, a).dir;
      if Touches(hash, s, a, l) then Renewed(s.dir, d2, l, a.draw.token) else SameLobby(s.dir, d2, l)
  {
    hide AllCovered, WelcomesExact, NoticesExact, Confined, TrafficIssued, TokensDistinct, RecordsOwned;
    hide LobbyOk, IndexOk, Admit;
    var (k, r, locked, draw) := (a.k, a.request, a.locked, a.draw);
    if Screen(r).None? {
      AdmissionDecided(hash, s.dir, r, locked, draw, k);
      if Admissible(hash, s.dir, r, locked) {
        AdmissionFrame(hash, s.dir, r, locked, draw, k);
        AdmissionEffect(hash, s.dir, r, locked, draw, k);
        if l in s.dir.lobbies {
          AdmissionChangesMembers(hash, s, a, l);
        }
      }
    }
  }

  lemma DecideTouches(hash: Hash, s: State, a: Label, l: LobbyId)
    requires Inv(s) && Enabled(s, a) && a.Decide?
    ensures
      var d2 := Apply(hash, s, a).dir;
      if Touches(hash, s, a, l) then Renewed(s.dir, d2, l, a.token) else SameLobby(s.dir, d2, l)
  {
    hide AllCovered, WelcomesExact, NoticesExact, Confined, TrafficIssued, TokensDistinct, RecordsOwned;
    hide DirectoryOk, Moderate;
    var (session, action) := (s.conns[a.k].session, s.conns[a.k].action);
    if KickLands(s.dir, session, a.k, action) {
      KickEffect(s.dir, session, a.k, action, a.token);
    } else {
      QuietModeration(s.dir, session, a.k, action, a.token);
    }
  }

  lemma CleanupTouches(hash: Hash, s: State, a: Label, l: LobbyId)
    requires Inv(s) && Enabled(s, a) && a.Cleanup?
    ensures
      var d2 := Apply(hash, s, a).dir;
      if Touches(hash, s, a, l) then Renewed(s.dir, d2, l, a.token) else SameLobby(s.dir, d2, l)
  {
    hide AllCovered, WelcomesExact, NoticesExact, Confined, TrafficIssued, TokensDistinct, RecordsOwned, LobbyOk;
    var left := s.conns[a.k].left;
    if left.Some? && OwnedBy(s.dir, left.value.lobby, left.value.client, a.k) {
      DepartureEffect(s.dir, left.value, a.k, a.next, a.token);
    }
  }

  /** Every step either renews a lobby's token and epoch together with its membership, or changes none of the three. */
  lemma StepTouches(hash: Hash, s: State, a: Label, l: LobbyId)
    requires Inv(s) && Enabled(s, a)
    ensures
      var d2 := Apply(hash, s, a).dir;
      if Touches(hash, s, a, l) then Drawn(a).Some? && Renewed(s.dir, d2, l, Drawn(a).value)
      else SameLobby(s.dir, d2, l)
  {
    match a
    case Submit(_, _, _, _) => SubmitTouches(hash, s, a, l);
    case Decide(_, _) => DecideTouches(hash, s, a, l);
    case Cleanup(_, _, _) => CleanupTouches(hash, s, a, l);
    case _ =>
  }
}
