/**
 The shared lobby state: the lobby table, the member records in it, and the
 reverse index from client to lobby. Identities are opaque values; a `Conn`
 stands for the identity of a connection's sender handle.
 */
module Lobbies {
  import opened Options

  const MAX_LOBBY_MEMBERS: nat := 64
  const U64_MAX: nat := 0xFFFF_FFFF_FFFF_FFFF

  datatype ClientId = ClientId(digest: nat)
  datatype LobbyId = LobbyId(digest: nat)
  datatype Conn = Conn(serial: nat)
  datatype Token = Token(nonce: nat)

  /** A parsed IPv4 address in 10.126.126.1-254, named by its last octet. */
  type VirtualIp = nat

  datatype Client = Client(
    playerId: ClientId,
    playerName: string,
    virtualIp: VirtualIp,
    generation: nat,
    sender: Conn)

  datatype Lobby = Lobby(
    name: string,
    passwordHash: string,
    salt: string,
    clients: map<ClientId, Client>,
    host: ClientId,
    maxPlayers: Option<nat>,
    isPublic: bool,
    isPasswordless: bool,
    description: string,
    serverNode: string,
    muted: set<ClientId>,
    token: Token,
    epoch: nat)

  /** Both shared maps; every write to either happens under the lobby write lock. */
  datatype Directory = Directory(lobbies: map<LobbyId, Lobby>, index: map<ClientId, LobbyId>)

  /** What a connection remembers about its own registration. */
  datatype Session = Session(client: ClientId, lobby: LobbyId, generation: nat)

  /** A captured rotation: who was a member, and over which sender, when the token changed. */
  datatype Notice = Notice(lobby: LobbyId, token: Token, epoch: nat, targets: map<ClientId, Conn>)

  function NextEpoch(epoch: nat): nat {
    if epoch >= U64_MAX then U64_MAX else epoch + 1
  }

  function Rotate(lobby: Lobby, token: Token): Lobby {
    lobby.(token := token, epoch := NextEpoch(lobby.epoch))
  }

  /** The sender handles of all members but `except`. */
  function Senders(lobby: Lobby, except: Option<ClientId>): map<ClientId, Conn> {
    map c | c in lobby.clients && Some(c) != except :: lobby.clients[c].sender
  }

  predicate IsMember(d: Directory, l: LobbyId, c: ClientId) {
    l in d.lobbies && c in d.lobbies[l].clients
  }

  /** The record of client `c` in lobby `l` belongs to connection `k`. */
  predicate OwnedBy(d: Directory, l: LobbyId, c: ClientId, k: Conn) {
    IsMember(d, l, c) && d.lobbies[l].clients[c].sender == k
  }

  /** The exact-session test: same lobby, same client, same generation, same sender. */
  predicate IsCurrent(d: Directory, s: Session, k: Conn) {
    OwnedBy(d, s.lobby, s.client, k) && d.lobbies[s.lobby].clients[s.client].generation == s.generation
  }

  /** Everything but membership, host, mutes and token is the same in both. */
  predicate SameSettings(a: Lobby, b: Lobby) {
    && a.name == b.name && a.passwordHash == b.passwordHash && a.salt == b.salt
    && a.maxPlayers == b.maxPlayers && a.isPublic == b.isPublic && a.isPasswordless == b.isPasswordless
    && a.description == b.description && a.serverNode == b.serverNode
  }

  ghost predicate DistinctIps(clients: map<ClientId, Client>) {
    forall a, b :: a in clients && b in clients && a != b ==> clients[a].virtualIp != clients[b].virtualIp
  }

  ghost predicate LobbyOk(lobby: Lobby) {
    && lobby.clients != map[]
    && (forall c :: c in lobby.clients ==> lobby.clients[c].playerId == c)
    && lobby.host in lobby.clients
    && lobby.muted <= lobby.clients.Keys - {lobby.host}
    && DistinctIps(lobby.clients)
    && |lobby.clients| <= MAX_LOBBY_MEMBERS
    && (lobby.maxPlayers.Some? ==> 1 <= lobby.maxPlayers.value <= MAX_LOBBY_MEMBERS)
    && (lobby.isPublic ==> lobby.isPasswordless)
    && 1 <= lobby.epoch <= U64_MAX
  }

  /** The reverse index and the lobby table describe the same membership relation. */
  ghost predicate IndexOk(d: Directory) {
    && (forall l, c :: IsMember(d, l, c) ==> c in d.index && d.index[c] == l)
    && (forall c :: c in d.index ==> IsMember(d, d.index[c], c))
  }

  ghost predicate DirectoryOk(d: Directory) {
    && IndexOk(d)
    && (forall l :: l in d.lobbies ==> LobbyOk(d.lobbies[l]))
  }

  /** `d2` agrees with `d` on every lobby other than `l`. */
  ghost predicate OnlyLobby(d: Directory, d2: Directory, l: LobbyId) {
    && (forall m :: m != l ==> (m in d.lobbies <==> m in d2.lobbies))
    && (forall m :: m != l && m in d.lobbies && m in d2.lobbies ==> d.lobbies[m] == d2.lobbies[m])
  }

  lemma WritingIsLocal(d: Directory, l: LobbyId, lobby: Lobby, index: map<ClientId, LobbyId>)
    ensures OnlyLobby(d, Directory(d.lobbies[l := lobby], index), l)
    ensures OnlyLobby(d, Directory(d.lobbies - {l}, index), l)
  {}

  /** Taking one member out of a lobby and out of the index keeps the two maps in step. */
  lemma RemovalKeepsIndex(d: Directory, d2: Directory, l: LobbyId, c: ClientId)
    requires IndexOk(d) && OnlyLobby(d, d2, l) && IsMember(d, l, c)
    requires d2.index == d.index - {c}
    requires forall x :: IsMember(d2, l, x) <==> IsMember(d, l, x) && x != c
    ensures IndexOk(d2)
  {
    forall m, x | IsMember(d2, m, x) ensures x in d2.index && d2.index[x] == m {
      assert IsMember(d, m, x);
    }
    forall x | x in d2.index ensures IsMember(d2, d2.index[x], x) {
      assert IsMember(d, d.index[x], x);
    }
  }
}
