/** The member count against the cap the host sets: not an invariant, and exactly when it fails. */
module Capacity {
  import opened Options
  import opened Lobbies
  import opened Registration
  import opened Moderation
  import opened Departure
  import opened Sets
  import opened Text
  import opened Sessions
  import opened Runs
  import opened Histories
  import opened Progress
  import opened Scenarios
  import opened Broadcasts

  predicate WithinCap(lobby: Lobby) {
    lobby.maxPlayers.Some? ==> |lobby.clients| <= lobby.maxPlayers.value
  }

  /** The step is the host of `l` setting a cap that is below the number of members. */
  ghost predicate Undercuts(s: State, a: Label, l: LobbyId)
    requires Enabled(s, a) && l in s.dir.lobbies
  {
    && a.Decide? && s.conns[a.k].session.lobby == l && Authorized(s.dir, s.conns[a.k].session, a.k)
    && s.conns[a.k].action.SetOptions? && s.conns[a.k].action.maxPlayers.Some?
    && 0 < s.conns[a.k].action.maxPlayers.value < |s.dir.lobbies[l].clients|
  }

  lemma EnrolKeepsCap(lobby: Lobby, client: Client, token: Token)
    requires WithinCap(lobby) && !Full(lobby, client.playerId)
    ensures WithinCap(Enrol(lobby, client, token))
  {
    var clients := lobby.clients[client.playerId := client];
    assert clients.Keys == lobby.clients.Keys + {client.playerId};
  }

  /** An admitted registration keeps a lobby within its cap, and a new lobby starts without one. */
  lemma AdmissionKeepsCap(hash: Hash, d: Directory, r: Request, locked: bool, draw: Draw, k: Conn)
    requires Screen(r).None? && Admissible(hash, d, r, locked)
    requires r.lobby in d.lobbies ==> WithinCap(d.lobbies[r.lobby])
    ensures
      var d2 := Admit(hash, d, r, locked, draw, k).0;
      r.lobby in d2.lobbies && WithinCap(d2.lobbies[r.lobby])
  {
    var before := Entered(hash, d, r, draw);
    assert |before.clients| == 0 || r.lobby in d.lobbies;
    assert !Full(before, r.identity.value);
    AdmissionShape(hash, d, r, locked, draw, k);
    hide Admit, Admissible, Full, Enrol, WithinCap;
    EnrolKeepsCap(before, Client(r.identity.value, r.playerName, r.virtualIp.value, draw.generation, k), draw.token);
  }

  lemma SubmitKeepsCap(hash: Hash, s: State, a: Label, l: LobbyId)
    requires Enabled(s, a) && a.Submit? && (l in s.dir.lobbies ==> WithinCap(s.dir.lobbies[l]))
    ensures
      var d2 := ApplySubmit(hash, s, a.k, a.request, a.locked, a.draw).dir;
      l in d2.lobbies ==> WithinCap(d2.lobbies[l])
  {
    hide Admit, Admissible, WithinCap;
    if Screen(a.request).None? {
      AdmissionDecided(hash, s.dir, a.request, a.locked, a.draw, a.k);
      if Admissible(hash, s.dir, a.request, a.locked) {
        AdmissionFrame(hash, s.dir, a.request, a.locked, a.draw, a.k);
        if l == a.request.lobby {
          AdmissionKeepsCap(hash, s.dir, a.request, a.locked, a.draw, a.k);
        }
      }
    }
  }

  lemma FewerMembersKeepCap(before: Lobby, after: Lobby, c: ClientId)
    requires WithinCap(before) && after.maxPlayers == before.maxPlayers && after.clients == before.clients - {c}
    ensures WithinCap(after)
  {
    Smaller(after.clients.Keys, before.clients.Keys);
  }

  lemma CleanupKeepsCap(s: State, a: Label, l: LobbyId)
    requires DirectoryOk(s.dir) && Enabled(s, a) && a.Cleanup? && l in s.dir.lobbies && WithinCap(s.dir.lobbies[l])
    ensures
      var d2 := ApplyCleanup(s, a.k, a.next, a.token).dir;
      l in d2.lobbies ==> WithinCap(d2.lobbies[l])
  {
    hide Depart, DirectoryOk, WithinCap;
    var left := s.conns[a.k].left;
    if left.Some? {
      if OwnedBy(s.dir, left.value.lobby, left.value.client, a.k) {
        DepartureEffect(s.dir, left.value, a.k, a.next, a.token);
        var d2 := ApplyCleanup(s, a.k, a.next, a.token).dir;
        if l == left.value.lobby && l in d2.lobbies {
          FewerMembersKeepCap(s.dir.lobbies[l], d2.lobbies[l], left.value.client);
        }
      } else {
        StaleDepartureIsInert(s.dir, left.value, a.k, a.next, a.token);
      }
    }
  }

  /** Of the quiet actions only a cap below the member count breaks it. */
  lemma AdjustAndCap(lobby: Lobby, a: Action)
    requires LobbyOk(lobby) && WithinCap(lobby) && !a.Kick? && Adjust(lobby, a).Some?
    ensures WithinCap(Adjust(lobby, a).value) <==>
            !(a.SetOptions? && a.maxPlayers.Some? && 0 < a.maxPlayers.value < |lobby.clients|)
  {
    hide ValidText;
  }

  lemma ModerationAndCap(d: Directory, s: Session, k: Conn, a: Action, t: Token)
    requires DirectoryOk(d) && s.lobby in d.lobbies && WithinCap(d.lobbies[s.lobby])
    ensures
      var d2 := Moderate(d, s, k, a, t).0;
      && s.lobby in d2.lobbies
      && (!WithinCap(d2.lobbies[s.lobby]) <==>
            && Authorized(d, s, k) && a.SetOptions? && a.maxPlayers.Some?
            && 0 < a.maxPlayers.value < |d.lobbies[s.lobby].clients|)
  {
    hide WithinCap, LobbyOk, Adjust;
    if KickLands(d, s, k, a) {
      KickEffect(d, s, k, a, t);
      FewerMembersKeepCap(d.lobbies[s.lobby], Moderate(d, s, k, a, t).0.lobbies[s.lobby], a.target);
    } else if Authorized(d, s, k) && !a.Kick? {
      if Adjust(d.lobbies[s.lobby], a).Some? {
        AdjustAndCap(d.lobbies[s.lobby], a);
      } else {
        OptionsAlwaysApply(d.lobbies[s.lobby], a);
      }
    }
  }

  lemma OptionsAlwaysApply(lobby: Lobby, a: Action)
    requires !a.Kick?
    ensures a.SetOptions? ==> Adjust(lobby, a).Some?
  {}

  lemma DecideAndCap(s: State, a: Label, l: LobbyId)
    requires DirectoryOk(s.dir) && Enabled(s, a) && a.Decide? && l in s.dir.lobbies && WithinCap(s.dir.lobbies[l])
    ensures
      var d2 := ApplyDecide(s, a.k, a.token).dir;
      l in d2.lobbies && (!WithinCap(d2.lobbies[l]) <==> Undercuts(s, a, l))
  {
    hide Moderate, DirectoryOk, WithinCap;
    var (session, action) := (s.conns[a.k].session, s.conns[a.k].action);
    if session.lobby == l {
      ModerationAndCap(s.dir, session, a.k, action, a.token);
    } else if KickLands(s.dir, session, a.k, action) {
      KickEffect(s.dir, session, a.k, action, a.token);
    } else {
      QuietModeration(s.dir, session, a.k, action, a.token);
    }
  }

  lemma StepAndCap(hash: Hash, s: State, a: Label, l: LobbyId)
    requires DirectoryOk(s.dir) && Enabled(s, a) && l in s.dir.lobbies && WithinCap(s.dir.lobbies[l])
    ensures
      var d2 := Apply(hash, s, a).dir;
      l in d2.lobbies ==> (!WithinCap(d2.lobbies[l]) <==> Undercuts(s, a, l))
  {
    hide WithinCap, ApplySubmit, ApplyDecide, ApplyCleanup, DirectoryOk, Undercuts;
    NotUndercutting(s, a, l);
    match a
    case Submit(_, _, _, _) => SubmitKeepsCap(hash, s, a, l);
    case Decide(_, _) => DecideAndCap(s, a, l);
    case Cleanup(_, _, _) => CleanupKeepsCap(s, a, l);
    case _ =>
  }

  lemma NotUndercutting(s: State, a: Label, l: LobbyId)
    requires Enabled(s, a) && l in s.dir.lobbies
    ensures !a.Decide? ==> !Undercuts(s, a, l)
  {}

  /** A lobby passes from within its cap to over it exactly when its current host sets a cap below its size. */
  lemma OnlyTheHostExceedsTheCap(hash: Hash, run: Run, i: nat, l: LobbyId)
    requires IsRun(hash, run) && i < |run.labels|
    requires l in run.states[i].dir.lobbies && l in run.states[i + 1].dir.lobbies
    requires WithinCap(run.states[i].dir.lobbies[l])
    ensures Enabled(run.states[i], run.labels[i])
    ensures !WithinCap(run.states[i + 1].dir.lobbies[l]) <==> Undercuts(run.states[i], run.labels[i], l)
  {
    At(hash, run, i);
    hide WithinCap, Undercuts, Enabled, Apply;
    StepAndCap(hash, run.states[i], run.labels[i], l);
  }

  /** A lobby is born within its cap. */
  lemma BornWithinCap(hash: Hash, run: Run, i: nat, l: LobbyId)
    requires IsRun(hash, run) && i < |run.labels| && BornAt(run, i, l)
    ensures WithinCap(run.states[i + 1].dir.lobbies[l])
  {
    BirthIsAdmission(hash, run, i, l);
    At(hash, run, i);
    hide WithinCap, ApplySubmit, ApplyDecide, ApplyCleanup, Inv;
    SubmitKeepsCap(hash, run.states[i], run.labels[i], l);
  }

  /** The cap does get exceeded: a host of two may set it to one. */
  lemma CapCanBeExceeded(hash: Hash)
    ensures exists run, l :: IsRun(hash, run) && l in Last(run).dir.lobbies && !WithinCap(Last(run).dir.lobbies[l])
  {
    hide StepAt, WithinCap, ApplyDecide;
    var run, ka, a, kb, b := HostAndOther(hash);
    var (s, n) := (Last(run), |run.labels|);
    OwnerIsIndexed(hash, run, Session(a, LOBBY, 0), ka);
    var action := SetOptions(Some(1), None, None, None);
    var begun := Extend(hash, run, Begin(ka, action));
    var t := FreshToken(s.issued);
    var done := Extend(hash, begun, Decide(ka, t));
    TwoMembers(s.dir.lobbies[LOBBY], a, b);
    if WithinCap(s.dir.lobbies[LOBBY]) {
      RunKeepsInv(hash, begun, |begun.states| - 1);
      hide Inv;
      DecideAndCap(Last(begun), Decide(ka, t), LOBBY);
      assert !WithinCap(Last(done).dir.lobbies[LOBBY]);
    } else {
      assert !WithinCap(Last(run).dir.lobbies[LOBBY]);
    }
  }

  lemma TwoMembers(lobby: Lobby, a: ClientId, b: ClientId)
    requires a in lobby.clients && b in lobby.clients && a != b
    ensures |lobby.clients| >= 2
  {
    Smaller({a, b}, lobby.clients.Keys);
  }
}
