/**
 The server's critical sections as they are written: field by field, under the
 lobby lock, each proved to compute the step that the transition system takes.
 */
module Server {
  import opened Options
  import opened Addresses
  import opened Clock
  import opened Lobbies
  import opened Registration
  import opened Moderation
  import opened Departure
  import opened PasswordFailures
  import opened Lockout
  import opened Text
  import opened Sessions
  import opened Views

  class SignalingServer {
    var lobbies: map<LobbyId, Lobby>
    var clientLobby: map<ClientId, LobbyId>
    const failures: FailureTable
    const hash: Hash

    constructor (hash: Hash)
      ensures Valid() && lobbies == map[] && clientLobby == map[] && this.hash == hash && fresh(failures)
      ensures failures.clock == 0
    {
      this.hash := hash;
      lobbies, clientLobby := map[], map[];
      failures := new FailureTable();
    }

    ghost function Dir(): Directory
      reads this
    {
      Directory(lobbies, clientLobby)
    }

    ghost predicate Valid()
      reads this, failures
    {
      DirectoryOk(Dir()) && failures.Valid()
    }

    /** Is the source locked out of this lobby, going by the full log? */
    ghost predicate Locked(key: Key, now: Instant)
      reads this, failures
    {
      CountRecent(Queue(failures.log, key), now) >= MAX_FAILURES
    }

    /** Entry mode and duplicate identity; any lobby holding the client may be the one found. */
    method CheckEntry(r: Request) returns (refused: bool)
      requires Valid() && Screen(r).None?
      ensures refused <==> EntryRefused(Dir(), r) || MemberElsewhere(Dir(), r.identity.value, r.lobby)
    {
      var c, l := r.identity.value, r.lobby;
      if r.entryMode == Some(Create) && l in lobbies {
        return true;
      }
      if r.entryMode == Some(Join) && l !in lobbies {
        return true;
      }
      var existing: Option<LobbyId> := None;
      if m :| m in lobbies && c in lobbies[m].clients {
        assert IsMember(Dir(), m, c);
        existing := Some(m);
      }
      refused := existing.Some? && existing.value != l;
    }

    predicate PasswordMatches(r: Request)
      reads this
      requires r.lobby in lobbies
    {
      hash(lobbies[r.lobby].salt, r.password) == lobbies[r.lobby].passwordHash
    }

    /** A wrong password is always recorded: the key was not locked a moment ago, so it is not locked now. */
    method RejectPassword(key: Key, now: Instant) returns (evicted: Option<Key>)
      requires failures.Valid() && failures.clock == now && !Locked(key, now)
      modifies failures
      ensures failures.Valid() && failures.clock == now
      ensures failures.log == Logged(old(failures.log), key, now, Wrong, evicted)
      ensures failures.attempts == Bookkept(old(failures.attempts), key, now, Wrong, evicted)
      ensures Evicts(old(failures.attempts), key, now, Wrong, evicted)
    {
      PruneTwice(failures.attempts, now);
      evicted := None;
      var locked := failures.IsLocked(key, now);
      assert !locked;
      if !locked {
        evicted := failures.RecordFailure(key, now);
      }
    }

    /** Lockout and password, with the failure bookkeeping that goes with them. */
    method CheckPassword(r: Request, key: Key, now: Instant) returns (refused: bool, evicted: Option<Key>)
      requires failures.Valid() && failures.clock <= now
      modifies failures
      ensures failures.Valid() && failures.clock == now
      ensures
        var finding := AtGate(hash, Dir(), r, old(Locked(key, now)));
        && (refused <==> finding == LockedOut || finding == Wrong)
        && failures.log == Logged(old(failures.log), key, now, finding, evicted)
        && failures.attempts == Bookkept(old(failures.attempts), key, now, finding, evicted)
        && Evicts(old(failures.attempts), key, now, finding, evicted)
      ensures ReachesGate(Dir(), r) ==>
                Remembered(hash, Dir(), r, old(Locked(key, now)), key, now, evicted,
                           old(failures.log), failures.log, failures.attempts)
    {
      GateAgrees(failures.attempts, failures.log, failures.clock, now, key);
      ghost var (attempts, log, locked) := (failures.attempts, failures.log, Locked(key, now));
      ghost var finding := AtGate(hash, Dir(), r, locked);
      assert finding == if locked then LockedOut else if r.lobby !in lobbies then NoLobby
                        else if PasswordMatches(r) then Right else Wrong;
      hide AtGate, Bookkept, Logged, Evicts, Remembered, ReachesGate, PruneAll, CountRecent, Refines, PasswordMatches;
      BookedByPruning(attempts, log, key, now);
      evicted := None;
      refused := failures.IsLocked(key, now);
      if !refused && r.lobby in lobbies {
        if !PasswordMatches(r) {
          refused := true;
          evicted := RejectPassword(key, now);
          BookedAfterPruning(attempts, key, now, evicted);
        } else {
          failures.Clear(key);
        }
      }
      GateRemembers(hash, Dir(), r, locked, key, now, evicted, log, attempts);
    }

    /** Creation if needed, address and capacity checks, then the commit of both maps. */
    method Enter(sender: Conn, r: Request, draw: Draw) returns (verdict: Verdict)
      requires Valid() && Screen(r).None?
      requires !EntryRefused(Dir(), r) && !MemberElsewhere(Dir(), r.identity.value, r.lobby)
      requires r.lobby in lobbies ==> hash(lobbies[r.lobby].salt, r.password) == lobbies[r.lobby].passwordHash
      modifies this
      ensures Valid()
      ensures (Dir(), verdict) == Admit(hash, old(Dir()), r, false, draw, sender)
    {
      AdmissionKeepsDirectory(hash, Dir(), r, false, draw, sender);
      var c, l, ip := r.identity.value, r.lobby, r.virtualIp.value;
      if l !in lobbies {
        lobbies := lobbies[l := NewLobby(hash, r, c, draw)];
      }
      var lobby := lobbies[l];
      if exists m :: m in lobby.clients && lobby.clients[m].playerId != c && lobby.clients[m].virtualIp == ip {
        return Refused(Retry);
      }
      var client := Client(c, r.playerName, ip, draw.generation, sender);
      if |lobby.clients| >= MAX_LOBBY_MEMBERS ||
         (lobby.maxPlayers.Some? && c !in lobby.clients && |lobby.clients| >= lobby.maxPlayers.value)
      {
        return Refused(Retry);
      }
      var hadMembers := lobby.clients != map[];
      lobby := lobby.(clients := lobby.clients[c := client]);
      var targets: map<ClientId, Conn> := map[];
      if hadMembers {
        lobby := lobby.(token := draw.token, epoch := NextEpoch(lobby.epoch));
        targets := Senders(lobby, Some(c));
      }
      lobbies := lobbies[l := lobby];
      clientLobby := clientLobby[c := l];
      verdict := Admitted(Session(c, l, draw.generation), Notice(l, lobby.token, lobby.epoch, targets));
    }

    /** A well-formed attempt, from the moment it holds the lobby lock. */
    method TryEntry(sender: Conn, r: Request, source: IpAddr, now: Instant, draw: Draw)
      returns (verdict: Verdict, evicted: Option<Key>)
      requires Valid() && failures.clock <= now && Screen(r).None?
      modifies this, failures
      ensures Valid() && failures.clock <= now
      ensures (Dir(), verdict) == Admit(hash, old(Dir()), r, old(Locked(GateKey(source, r), now)), draw, sender)
      ensures Booked(old(failures.attempts), old(failures.log), source, r, now,
                Judge(hash, old(Dir()), r, old(Locked(GateKey(source, r), now))), evicted)
    {
      hide Remembered;
      evicted := None;
      var refused := CheckEntry(r);
      if refused {
        return Refused(Disconnect), None;
      }
      refused, evicted := CheckPassword(r, GateKey(source, r), now);
      if refused {
        return Refused(Disconnect), evicted;
      }
      verdict := Enter(sender, r, draw);
    }

    /**
     A whole registration attempt: what the caller is told, what becomes of both
     maps, and what the failure table remembers of it.
     */
    method HandleV3(sender: Conn, isRegistered: bool, r: Request, source: IpAddr, now: Instant, draw: Draw)
      returns (verdict: Verdict, evicted: Option<Key>)
      requires Valid() && failures.clock <= now
      modifies this, failures
      ensures Valid() && failures.clock <= now
      ensures isRegistered ==> verdict == Refused(Disconnect) && Dir() == old(Dir()) && unchanged(failures)
      ensures !isRegistered ==>
                (Dir(), verdict) == Answer(hash, old(Dir()), r, old(Locked(GateKey(source, r), now)), draw, sender)
      ensures !isRegistered ==> Booked(old(failures.attempts), old(failures.log), source, r, now,
                Judge(hash, old(Dir()), r, old(Locked(GateKey(source, r), now))), evicted)
      ensures !isRegistered ==>
                var locked := old(Locked(GateKey(source, r), now));
                && (verdict.Admitted? <==> WellFormed(r) && Admissible(hash, old(Dir()), r, locked))
                && (verdict == Refused(Retry) <==> RetryDue(hash, old(Dir()), r, locked))
                && Remembered(hash, old(Dir()), r, locked, GateKey(source, r), now, evicted,
                              old(failures.log), failures.log, failures.attempts)
    {
      hide Remembered, RetryDue, Admissible, Admit, AtGate, Bookkept, Logged, Evicts, PruneAll;
      if isRegistered {
        return Refused(Disconnect), None;
      }
      ghost var (d, locked) := (Dir(), Locked(GateKey(source, r), now));
      ghost var (attempts, log) := (failures.attempts, failures.log);
      GateAgrees(attempts, log, failures.clock, now, GateKey(source, r));
      ScreenDecided(r);
      var screened := Screen(r);
      if screened.Some? {
        verdict, evicted := Refused(screened.value), None;
        UnreachedIsUnbooked(attempts, log, GateKey(source, r), now);
      } else {
        verdict, evicted := TryEntry(sender, r, source, now, draw);
      }
      AnswerDecided(hash, d, r, locked, draw, sender);
      BookingRemembers(hash, d, r, locked, GateKey(source, r), now, evicted, log, attempts);
    }

    /** The failure table and its log are what an attempt with this finding makes of the old ones. */
    ghost predicate Booked(attempts: Table, log: Table, source: IpAddr, r: Request, now: Instant, finding: Finding,
                           evicted: Option<Key>)
      reads this, failures
    {
      && failures.attempts == Bookkept(attempts, GateKey(source, r), now, finding, evicted)
      && failures.log == Logged(log, GateKey(source, r), now, finding, evicted)
      && Evicts(attempts, GateKey(source, r), now, finding, evicted)
    }

    /** `None` when the actor is the current host, otherwise what becomes of the connection. */
    method AuthorizeHost(s: Session, sender: Conn) returns (denied: Option<Dispatch>)
      requires s.lobby in lobbies
      ensures denied.None? <==> Authorized(Dir(), s, sender)
      ensures denied.Some? ==> denied.value == if IsCurrent(Dir(), s, sender) then Handled else CloseConnection
    {
      var lobby := lobbies[s.lobby];
      var current := s.client in lobby.clients
        && lobby.clients[s.client].generation == s.generation && lobby.clients[s.client].sender == sender;
      if !current {
        return Some(CloseConnection);
      }
      if lobby.host != s.client {
        return Some(Handled);
      }
      denied := None;
    }

    method KickPlayer(s: Session, sender: Conn, target: ClientId, token: Token) returns (ruling: Ruling)
      modifies this
      ensures (Dir(), ruling) == Moderate(old(Dir()), s, sender, Kick(target), token)
    {
      if s.lobby !in lobbies {
        return Ruling(Handled, None, []);
      }
      var denied := AuthorizeHost(s, sender);
      if denied.Some? {
        return Ruling(denied.value, None, []);
      }
      var lobby := lobbies[s.lobby];
      if target == s.client || target !in lobby.clients {
        return Ruling(Handled, None, []);
      }
      lobby := lobby.(clients := lobby.clients - {target});
      lobby := lobby.(muted := lobby.muted - {target});
      lobby := lobby.(token := token, epoch := NextEpoch(lobby.epoch));
      lobbies := lobbies[s.lobby := lobby];
      if target in clientLobby && clientLobby[target] == s.lobby {
        clientLobby := clientLobby - {target};
      }
      var notice := Notice(s.lobby, lobby.token, lobby.epoch, Senders(lobby, None));
      ruling := Ruling(Handled, Some(notice), [PlayerLeft(target)]);
    }

    method MutePlayer(s: Session, sender: Conn, target: ClientId, on: bool, ghost token: Token) returns (ruling: Ruling)
      modifies this`lobbies
      ensures (Dir(), ruling) == Moderate(old(Dir()), s, sender, Mute(target, on), token)
    {
      ruling := Ruling(Handled, None, []);
      if s.lobby !in lobbies {
        return;
      }
      var denied := AuthorizeHost(s, sender);
      if denied.Some? {
        return Ruling(denied.value, None, []);
      }
      var lobby := lobbies[s.lobby];
      if (target == lobby.host && on) || target !in lobby.clients {
        return;
      }
      if on {
        if |lobby.muted| >= MAX_LOBBY_MEMBERS && target !in lobby.muted {
          return;
        }
        lobbies := lobbies[s.lobby := lobby.(muted := lobby.muted + {target})];
      } else {
        lobbies := lobbies[s.lobby := lobby.(muted := lobby.muted - {target})];
      }
      ruling := ruling.(news := [MuteChanged(target, on)]);
    }

    method TransferHost(s: Session, sender: Conn, target: ClientId, ghost token: Token) returns (ruling: Ruling)
      modifies this`lobbies
      ensures (Dir(), ruling) == Moderate(old(Dir()), s, sender, Action.TransferHost(target), token)
    {
      ruling := Ruling(Handled, None, []);
      if s.lobby !in lobbies {
        return;
      }
      var denied := AuthorizeHost(s, sender);
      if denied.Some? {
        return Ruling(denied.value, None, []);
      }
      var lobby := lobbies[s.lobby];
      if target !in lobby.clients {
        return;
      }
      lobby := lobby.(host := target);
      lobby := lobby.(muted := lobby.muted - {target});
      lobbies := lobbies[s.lobby := lobby];
      ruling := ruling.(news := [MuteChanged(target, false), HostChanged(target)]);
    }

    method SetLobbyOptions(s: Session, sender: Conn, a: Action, ghost token: Token) returns (ruling: Ruling)
      requires a.SetOptions?
      modifies this`lobbies
      ensures (Dir(), ruling) == Moderate(old(Dir()), s, sender, a, token)
      ensures if old(Authorized(Dir(), s, sender))
              then s.lobby in lobbies && OptionsTaken(old(lobbies)[s.lobby], lobbies[s.lobby], a)
              else Dir() == old(Dir())
    {
      OptionsEffect(Dir(), s, sender, a, token);
      hide ValidText, OptionsTaken;
      ruling := Ruling(Handled, None, []);
      if s.lobby !in lobbies {
        return;
      }
      var denied := AuthorizeHost(s, sender);
      if denied.Some? {
        return Ruling(denied.value, None, []);
      }
      var lobby := lobbies[s.lobby];
      if a.maxPlayers.Some? {
        lobby := lobby.(maxPlayers := CappedPlayers(a.maxPlayers.value));
      }
      if a.description.Some? && ValidText(a.description.value, 200, true) {
        lobby := lobby.(description := a.description.value);
      }
      if a.serverNode.Some? && ValidText(a.serverNode.value, 512, false) {
        lobby := lobby.(serverNode := a.serverNode.value);
      }
      if a.isPublic.Some? {
        lobby := lobby.(isPublic := a.isPublic.value && lobby.isPasswordless);
      }
      lobbies := lobbies[s.lobby := lobby];
      ruling := ruling.(news := [OptionsChanged(lobby.maxPlayers, lobby.isPublic)]);
    }

    /** A host action as it arrives: the index is consulted first, the lock is taken afterwards. */
    method HandleModeration(session: Option<Session>, sender: Conn, from: ClientId, a: Action, token: Token)
      returns (ruling: Ruling)
      requires Valid()
      modifies this
      ensures Valid()
      ensures session.None? ==> ruling == Ruling(CloseConnection, None, []) && Dir() == old(Dir())
      ensures session.Some? ==>
                var s := session.value;
                if from == s.client && s.client in old(clientLobby) && old(clientLobby)[s.client] == s.lobby
                then (Dir(), ruling) == Moderate(old(Dir()), s, sender, a, token)
                else ruling == Ruling(Handled, None, []) && Dir() == old(Dir())
    {
      if session.None? {
        return Ruling(CloseConnection, None, []);
      }
      var s := session.value;
      if from != s.client || s.client !in clientLobby || clientLobby[s.client] != s.lobby {
        return Ruling(Handled, None, []);
      }
      ModerationKeepsDirectory(Dir(), s, sender, a, token);
      match a
      case Kick(target) => ruling := KickPlayer(s, sender, target, token);
      case Mute(target, on) => ruling := MutePlayer(s, sender, target, on, token);
      case TransferHost(target) => ruling := TransferHost(s, sender, target, token);
      case SetOptions(_, _, _, _) => ruling := SetLobbyOptions(s, sender, a, token);
    }

    /** Who receives a captured rotation: nobody if it is stale, else the targets still on the same sender. */
    method RotationRecipients(n: Notice) returns (recipients: set<(Conn, Token)>)
      ensures forall s: State, hash: Hash :: s.dir == Dir() && n in s.notices ==>
                Apply(hash, s, Deliver(n)).offered == s.offered + recipients
      ensures recipients == if && n.lobby in lobbies
                               && lobbies[n.lobby].token == n.token && lobbies[n.lobby].epoch == n.epoch
                            then set c | c in n.targets && OwnedBy(Dir(), n.lobby, c, n.targets[c])
                                       :: (n.targets[c], n.token)
                            else {}
    {
      if n.lobby !in lobbies {
        return {};
      }
      var lobby := lobbies[n.lobby];
      if lobby.epoch != n.epoch || lobby.token != n.token {
        return {};
      }
      recipients := set c | c in n.targets && c in lobby.clients && lobby.clients[c].sender == n.targets[c]
                          :: (n.targets[c], n.token);
    }

    /** What a lobby that is not empty becomes when someone has left it; any member may be picked as the new host. */
    method Reassign(rest: Lobby, leaver: ClientId, token: Token) returns (after: Lobby, news: seq<News>, next: ClientId)
      requires rest.clients != map[]
      ensures next in rest.clients && after == Rotate(Handover(rest, leaver, next), token)
      ensures news == PartingNews(rest, leaver, next)
    {
      next :| next in rest.clients;
      after, news := rest, [PlayerLeft(leaver)];
      if after.host == leaver {
        after := after.(host := next);
        after := after.(muted := after.muted - {next});
        news := news + [MuteChanged(next, false), HostChanged(next)];
      }
      after := after.(token := token, epoch := NextEpoch(after.epoch));
    }

    /** Disconnect cleanup. */
    method CleanUp(s: Session, sender: Conn, token: Token) returns (farewell: Farewell)
      requires Valid()
      modifies this
      ensures Valid()
      ensures exists next :: ValidSuccessor(old(Dir()), s, sender, next) &&
                (Dir(), farewell) == Depart(old(Dir()), s, sender, next, token)
    {
      hide Handover, Rotate, LobbyOk, IndexOk;
      ghost var before := Dir();
      farewell := Farewell(None, []);
      ghost var chosen := s.client;
      if s.lobby in lobbies {
        var lobby := lobbies[s.lobby];
        if s.client in lobby.clients && lobby.clients[s.client].sender == sender {
          lobby := lobby.(clients := lobby.clients - {s.client}, muted := lobby.muted - {s.client});
          if lobby.clients == map[] {
            lobbies := lobbies - {s.lobby};
            farewell := Farewell(None, [PlayerLeft(s.client)]);
          } else {
            var after, news, next := Reassign(lobby, s.client, token);
            chosen := next;
            lobbies := lobbies[s.lobby := after];
            farewell := Farewell(Some(Notice(s.lobby, after.token, after.epoch, Senders(after, None))), news);
          }
          if s.client in clientLobby && clientLobby[s.client] == s.lobby {
            clientLobby := clientLobby - {s.client};
          }
        }
      }
      DepartureKeepsDirectory(before, s, sender, chosen, token);
      hide DirectoryOk;
      assert (Dir(), farewell) == Depart(before, s, sender, chosen, token);
    }
  }
}
