/**
 Lobby admission under the write lock: entry mode, duplicate identity, lockout,
 password, virtual-address uniqueness, capacity, replacement and commit.
 */
module Registration {
  import opened Options
  import opened Lobbies

  const SIGNALING_PROTOCOL_VERSION: nat := 3

  datatype EntryMode = Create | Join

  /**
   One registration attempt. `identity` is the verdict of the signature check,
   `lobby` the digest of the lobby name; `fieldsValid` and `versionOk` are the
   outcomes of the text-bound and client-version checks.
   */
  datatype Request = Request(
    entryMode: Option<EntryMode>,
    protocolVersion: nat,
    virtualIp: Option<VirtualIp>,
    identity: Option<ClientId>,
    fieldsValid: bool,
    versionOk: bool,
    playerName: string,
    lobby: LobbyId,
    lobbyName: string,
    password: string)

  /** The random values one attempt may consume. */
  datatype Draw = Draw(generation: nat, token: Token, salt: string)

  type Hash = (string, string) -> string

  datatype Refusal = Retry | Disconnect

  datatype Verdict =
    | Refused(refusal: Refusal)
    | Admitted(session: Session, notice: Notice)

  /** The checks made before the lobby lock is taken. */
  function Screen(r: Request): Option<Refusal> {
    if r.protocolVersion != SIGNALING_PROTOCOL_VERSION then Some(Disconnect)
    else if r.virtualIp.None? then Some(Retry)
    else if r.identity.None? then Some(Disconnect)
    else if !r.fieldsValid then Some(Retry)
    else if !r.versionOk then Some(Disconnect)
    else None
  }

  predicate EntryRefused(d: Directory, r: Request) {
    || (r.entryMode == Some(Create) && r.lobby in d.lobbies)
    || (r.entryMode == Some(Join) && r.lobby !in d.lobbies)
  }

  ghost predicate MemberElsewhere(d: Directory, c: ClientId, l: LobbyId) {
    exists m :: m != l && IsMember(d, m, c)
  }

  function NewLobby(hash: Hash, r: Request, host: ClientId, draw: Draw): Lobby {
    Lobby(r.lobbyName, hash(draw.salt, r.password), draw.salt, map[], host, None, false,
          r.password == "", "", "", {}, draw.token, 1)
  }

  predicate IpTaken(lobby: Lobby, c: ClientId, ip: VirtualIp) {
    exists m :: m in lobby.clients && lobby.clients[m].playerId != c && lobby.clients[m].virtualIp == ip
  }

  /** The absolute cap binds everyone; the configured one spares a reconnecting member. */
  predicate Full(lobby: Lobby, c: ClientId) {
    || |lobby.clients| >= MAX_LOBBY_MEMBERS
    || (lobby.maxPlayers.Some? && c !in lobby.clients && |lobby.clients| >= lobby.maxPlayers.value)
  }

  /** Insert or replace the member record, rotating the token unless the lobby was empty. */
  function Enrol(lobby: Lobby, client: Client, token: Token): Lobby {
    var joined := lobby.(clients := lobby.clients[client.playerId := client]);
    if lobby.clients == map[] then joined else Rotate(joined, token)
  }

  function EnrolNotice(l: LobbyId, before: Lobby, after: Lobby, c: ClientId): Notice {
    Notice(l, after.token, after.epoch,
           if before.clients == map[] then map[] else Senders(after, Some(c)))
  }

  /** The critical section of a registration, in the order the server performs it. */
  ghost function Admit(hash: Hash, d: Directory, r: Request, locked: bool, draw: Draw, k: Conn): (Directory, Verdict)
    requires Screen(r).None?
  {
    var c, l := r.identity.value, r.lobby;
    if EntryRefused(d, r) || MemberElsewhere(d, c, l) || locked then (d, Refused(Disconnect))
    else if l in d.lobbies && hash(d.lobbies[l].salt, r.password) != d.lobbies[l].passwordHash then
      (d, Refused(Disconnect))
    else
      var table := if l in d.lobbies then d.lobbies else d.lobbies[l := NewLobby(hash, r, c, draw)];
      var lobby := table[l];
      if IpTaken(lobby, c, r.virtualIp.value) || Full(lobby, c) then
        (d.(lobbies := table), Refused(Retry))
      else
        var client := Client(c, r.playerName, r.virtualIp.value, draw.generation, k);
        var enrolled := Enrol(lobby, client, draw.token);
        (Directory(table[l := enrolled], d.index[c := l]),
         Admitted(Session(c, l, draw.generation), EnrolNotice(l, lobby, enrolled, c)))
  }

  /** A whole attempt by a connection that is not yet registered. */
  ghost function Answer(hash: Hash, d: Directory, r: Request, locked: bool, draw: Draw, k: Conn): (Directory, Verdict) {
    var refused := Screen(r);
    if refused.Some? then (d, Refused(refused.value)) else Admit(hash, d, r, locked, draw, k)
  }

  // ----- What a request must be, said of the request and the directory alone -----

  /** The right protocol, an address, a proven identity, fields within bounds and a recent client. */
  predicate WellFormed(r: Request) {
    r.protocolVersion == 3 && r.virtualIp.Some? && r.identity.Some? && r.fieldsValid && r.versionOk
  }

  /** A malformed request is refused for good, unless only its address is missing or only its fields are bad. */
  lemma ScreenDecided(r: Request)
    ensures Screen(r).None? <==> WellFormed(r)
    ensures Screen(r) == Some(Retry) <==>
            r.protocolVersion == 3 && (r.virtualIp.None? || (r.identity.Some? && !r.fieldsValid))
  {}

  /** The entry mode fits the lobby's existence, and the client is in no other lobby. */
  ghost predicate Expected(d: Directory, r: Request)
    requires r.identity.Some?
  {
    && r.entryMode != Some(if r.lobby in d.lobbies then Create else Join)
    && forall m :: IsMember(d, m, r.identity.value) ==> m == r.lobby
  }

  predicate Knows(hash: Hash, d: Directory, r: Request) {
    r.lobby in d.lobbies ==> hash(d.lobbies[r.lobby].salt, r.password) == d.lobbies[r.lobby].passwordHash
  }

  /** Another member holds the address, or the lobby has all the members it may have. */
  ghost predicate NoRoom(d: Directory, r: Request)
    requires r.identity.Some? && r.virtualIp.Some?
  {
    && r.lobby in d.lobbies
    && var (clients, cap) := (d.lobbies[r.lobby].clients, d.lobbies[r.lobby].maxPlayers);
       || (exists m :: m in clients && clients[m].playerId != r.identity.value
                       && clients[m].virtualIp == r.virtualIp.value)
       || |clients| >= 64
       || (r.identity.value !in clients && cap.Some? && |clients| >= cap.value)
  }

  /** When a well-formed request is admitted. */
  ghost predicate Admissible(hash: Hash, d: Directory, r: Request, locked: bool)
    requires r.identity.Some? && r.virtualIp.Some?
  {
    !locked && Expected(d, r) && Knows(hash, d, r) && !NoRoom(d, r)
  }

  /** When a refused caller may try again on the same connection. */
  ghost predicate RetryDue(hash: Hash, d: Directory, r: Request, locked: bool) {
    || (r.protocolVersion == 3 && (r.virtualIp.None? || (r.identity.Some? && !r.fieldsValid)))
    || (WellFormed(r) && !locked && Expected(d, r) && Knows(hash, d, r) && NoRoom(d, r))
  }

  /** Admission happens exactly when the request is admissible; a refusal leaves both maps alone. */
  lemma AdmissionDecided(hash: Hash, d: Directory, r: Request, locked: bool, draw: Draw, k: Conn)
    requires Screen(r).None?
    ensures Admit(hash, d, r, locked, draw, k).1.Admitted? <==> Admissible(hash, d, r, locked)
    ensures Admit(hash, d, r, locked, draw, k).1 == Refused(Retry) <==>
            !locked && Expected(d, r) && Knows(hash, d, r) && NoRoom(d, r)
    ensures Admit(hash, d, r, locked, draw, k).1.Refused? ==> Admit(hash, d, r, locked, draw, k).0 == d
  {
    var empty := NewLobby(hash, r, r.identity.value, draw);
    assert |empty.clients| == 0;
    assert !IpTaken(empty, r.identity.value, r.virtualIp.value);
  }

  /** Which of the three answers an attempt gets. */
  lemma AnswerDecided(hash: Hash, d: Directory, r: Request, locked: bool, draw: Draw, k: Conn)
    ensures
      var (d2, v) := Answer(hash, d, r, locked, draw, k);
      && (v.Admitted? <==> WellFormed(r) && Admissible(hash, d, r, locked))
      && (v == Refused(Retry) <==> RetryDue(hash, d, r, locked))
      && (v.Refused? ==> d2 == d)
  {
    hide Admit, Expected, Knows, NoRoom;
    if Screen(r).None? {
      AdmissionDecided(hash, d, r, locked, draw, k);
    }
  }

  /** The lobby a registration enters: the existing one, or a new one still empty. */
  function Entered(hash: Hash, d: Directory, r: Request, draw: Draw): Lobby
    requires r.identity.Some?
  {
    if r.lobby in d.lobbies then d.lobbies[r.lobby] else NewLobby(hash, r, r.identity.value, draw)
  }

  lemma AdmissionShape(hash: Hash, d: Directory, r: Request, locked: bool, draw: Draw, k: Conn)
    requires Screen(r).None? && Admissible(hash, d, r, locked)
    ensures
      var (c, l, before) := (r.identity.value, r.lobby, Entered(hash, d, r, draw));
      var after := Enrol(before, Client(c, r.playerName, r.virtualIp.value, draw.generation, k), draw.token);
      && !IpTaken(before, c, r.virtualIp.value) && |before.clients| < MAX_LOBBY_MEMBERS
      && hash(before.salt, r.password) == before.passwordHash
      && Admit(hash, d, r, locked, draw, k) ==
         (Directory(d.lobbies[l := after], d.index[c := l]),
          Admitted(Session(c, l, draw.generation), EnrolNotice(l, before, after, c)))
  {
    AdmissionDecided(hash, d, r, locked, draw, k);
    var c, l, before := r.identity.value, r.lobby, Entered(hash, d, r, draw);
    var after := Enrol(before, Client(c, r.playerName, r.virtualIp.value, draw.generation, k), draw.token);
    if l !in d.lobbies {
      assert |before.clients| == 0;
      assert d.lobbies[l := before][l := after] == d.lobbies[l := after];
    }
  }

  /** A commit touches one lobby: every other lobby and every other member's record is intact. */
  lemma AdmissionFrame(hash: Hash, d: Directory, r: Request, locked: bool, draw: Draw, k: Conn)
    requires Screen(r).None? && Admissible(hash, d, r, locked)
    ensures
      var (d2, c, l) := (Admit(hash, d, r, locked, draw, k).0, r.identity.value, r.lobby);
      && OnlyLobby(d, d2, l) && l in d2.lobbies
      && d2.index == d.index[c := l]
      && (forall m :: m != c ==> (IsMember(d2, l, m) <==> IsMember(d, l, m)))
      && (forall m :: m != c && IsMember(d, l, m) ==> d2.lobbies[l].clients[m] == d.lobbies[l].clients[m])
      && (l in d.lobbies ==>
            && d2.lobbies[l].host == d.lobbies[l].host && d2.lobbies[l].muted == d.lobbies[l].muted
            && SameSettings(d.lobbies[l], d2.lobbies[l]))
  {
    hide Admit, Admissible;
    AdmissionShape(hash, d, r, locked, draw, k);
  }

  /**
   What a commit writes: the caller's record at its own address, the token just
   drawn, an epoch one further (or 1 for a new lobby, whose host is the caller),
   and a notice for exactly the other members.
   */
  lemma AdmissionEffect(hash: Hash, d: Directory, r: Request, locked: bool, draw: Draw, k: Conn)
    requires Screen(r).None? && DirectoryOk(d) && Admissible(hash, d, r, locked)
    ensures
      var (d2, v) := Admit(hash, d, r, locked, draw, k);
      var (c, l) := (r.identity.value, r.lobby);
      && v.Admitted? && v.session == Session(c, l, draw.generation) && IsCurrent(d2, v.session, k)
      && d2.lobbies[l].clients[c].virtualIp == r.virtualIp.value
      && d2.lobbies[l].clients[c].playerName == r.playerName
      && hash(d2.lobbies[l].salt, r.password) == d2.lobbies[l].passwordHash
      && d2.lobbies[l].token == draw.token
      && d2.lobbies[l].epoch == (if l in d.lobbies then NextEpoch(d.lobbies[l].epoch) else 1)
      && (l !in d.lobbies ==> d2.lobbies[l].host == c)
      && v.notice == Notice(l, d2.lobbies[l].token, d2.lobbies[l].epoch, Senders(d2.lobbies[l], Some(c)))
  {
    assert r.lobby in d.lobbies ==> d.lobbies[r.lobby].clients != map[];
    hide Admit, Admissible, DirectoryOk, Enrol, EnrolNotice, Senders;
    AdmissionShape(hash, d, r, locked, draw, k);
    var client := Client(r.identity.value, r.playerName, r.virtualIp.value, draw.generation, k);
    EnrolEffect(r.lobby, Entered(hash, d, r, draw), client, draw.token);
  }

  /** Enrolling writes one record; the others are whom the notice is for. */
  lemma EnrolEffect(l: LobbyId, before: Lobby, client: Client, token: Token)
    ensures
      var (c, after) := (client.playerId, Enrol(before, client, token));
      && after.clients == before.clients[c := client] && SameSettings(before, after)
      && after.host == before.host && after.muted == before.muted
      && (before.clients != map[] ==> after.token == token && after.epoch == NextEpoch(before.epoch))
      && (before.clients == map[] ==> after.token == before.token && after.epoch == before.epoch)
      && EnrolNotice(l, before, after, c) == Notice(l, after.token, after.epoch, Senders(after, Some(c)))
  {
    if before.clients == map[] {
      assert Senders(Enrol(before, client, token), Some(client.playerId)) == map[];
    }
  }

  /** A lobby as its first member finds it: named and locked as asked, unlisted, uncapped, with nobody muted. */
  ghost predicate NewlyFounded(hash: Hash, lobby: Lobby, r: Request, draw: Draw)
    requires r.identity.Some?
  {
    && lobby.name == r.lobbyName && lobby.salt == draw.salt && lobby.passwordHash == hash(draw.salt, r.password)
    && (lobby.isPasswordless <==> |r.password| == 0) && !lobby.isPublic && lobby.maxPlayers.None?
    && |lobby.description| == 0 && |lobby.serverNode| == 0 && lobby.muted == {}
    && lobby.host == r.identity.value && lobby.clients.Keys == {r.identity.value}
  }

  /** An admission that meets no lobby founds one. */
  lemma FoundingEffect(hash: Hash, d: Directory, r: Request, locked: bool, draw: Draw, k: Conn)
    requires Screen(r).None? && Admissible(hash, d, r, locked) && r.lobby !in d.lobbies
    ensures
      var d2 := Admit(hash, d, r, locked, draw, k).0;
      r.lobby in d2.lobbies && NewlyFounded(hash, d2.lobbies[r.lobby], r, draw)
  {
    hide Admit, Admissible;
    AdmissionShape(hash, d, r, locked, draw, k);
  }

  /** Enrolling into a non-full lobby at a free address keeps the lobby's own invariant. */
  lemma EnrolKeepsLobby(lobby: Lobby, client: Client, token: Token)
    requires LobbyOk(lobby) || (lobby.clients == map[] && LobbyOk(lobby.(clients := map[client.playerId := client])))
    requires !IpTaken(lobby, client.playerId, client.virtualIp) && |lobby.clients| < MAX_LOBBY_MEMBERS
    ensures LobbyOk(Enrol(lobby, client, token))
  {
    var after := Enrol(lobby, client, token);
    var c := client.playerId;
    assert after.clients == lobby.clients[c := client];
    assert after.clients.Keys == lobby.clients.Keys + {c};
    assert |after.clients.Keys| <= |lobby.clients.Keys| + 1;
    if lobby.clients == map[] {
      assert after.clients == map[c := client];
    } else {
      forall a, b | a in after.clients && b in after.clients && a != b
        ensures after.clients[a].virtualIp != after.clients[b].virtualIp
      {
        assert a != c ==> after.clients[a] == lobby.clients[a];
        assert b != c ==> after.clients[b] == lobby.clients[b];
      }
    }
  }

  lemma AdmissionKeepsIndex(hash: Hash, d: Directory, r: Request, locked: bool, draw: Draw, k: Conn)
    requires Screen(r).None? && IndexOk(d) && Admissible(hash, d, r, locked)
    ensures IndexOk(Admit(hash, d, r, locked, draw, k).0)
  {
    hide Admit, NoRoom, Knows;
    var d2 := Admit(hash, d, r, locked, draw, k).0;
    var c, l := r.identity.value, r.lobby;
    assert forall m :: IsMember(d, m, c) ==> m == l;
    hide Admissible;
    AdmissionFrame(hash, d, r, locked, draw, k);
    AdmissionShape(hash, d, r, locked, draw, k);
    assert IsMember(d2, l, c);
    forall m, x | IsMember(d2, m, x) ensures x in d2.index && d2.index[x] == m {
      assert x != c || m != l ==> IsMember(d, m, x);
    }
    forall x | x in d2.index ensures IsMember(d2, d2.index[x], x) {
      assert x != c ==> IsMember(d, d.index[x], x);
    }
  }

  lemma NewLobbyOk(hash: Hash, r: Request, c: ClientId, draw: Draw, client: Client)
    requires client.playerId == c
    ensures LobbyOk(NewLobby(hash, r, c, draw).(clients := map[c := client]))
  {}

  lemma AdmissionKeepsDirectory(hash: Hash, d: Directory, r: Request, locked: bool, draw: Draw, k: Conn)
    requires Screen(r).None? && DirectoryOk(d)
    ensures DirectoryOk(Admit(hash, d, r, locked, draw, k).0)
  {
    hide Admit, Admissible, IndexOk, LobbyOk, Enrol, NewLobby, IpTaken;
    AdmissionDecided(hash, d, r, locked, draw, k);
    if Admissible(hash, d, r, locked) {
      var c := r.identity.value;
      var client := Client(c, r.playerName, r.virtualIp.value, draw.generation, k);
      AdmissionKeepsIndex(hash, d, r, locked, draw, k);
      AdmissionShape(hash, d, r, locked, draw, k);
      EnteredKeepsLobby(hash, d, r, draw, client);
    }
  }

  lemma EnteredKeepsLobby(hash: Hash, d: Directory, r: Request, draw: Draw, client: Client)
    requires r.identity == Some(client.playerId)
    requires forall l :: l in d.lobbies ==> LobbyOk(d.lobbies[l])
    requires
      var before := Entered(hash, d, r, draw);
      !IpTaken(before, client.playerId, client.virtualIp) && |before.clients| < MAX_LOBBY_MEMBERS
    ensures LobbyOk(Enrol(Entered(hash, d, r, draw), client, draw.token))
  {
    NewLobbyOk(hash, r, client.playerId, draw, client);
    EnrolKeepsLobby(Entered(hash, d, r, draw), client, draw.token);
  }
}
