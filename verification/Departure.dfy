/** Disconnect cleanup: sender-checked removal, lobby destruction, host handover and rotation. */
module Departure {
  import opened Options
  import opened Lobbies
  import opened Sets
  import opened Views

  /** What the cleanup owes the remaining members. */
  datatype Farewell = Farewell(notice: Option<Notice>, news: seq<News>)

  function Remaining(lobby: Lobby, c: ClientId): Lobby {
    lobby.(clients := lobby.clients - {c}, muted := lobby.muted - {c})
  }

  /** Hand the lobby to `next` if the leaver was its host. */
  function Handover(lobby: Lobby, leaver: ClientId, next: ClientId): Lobby {
    if lobby.host == leaver then lobby.(host := next, muted := lobby.muted - {next}) else lobby
  }

  /** Those who stay hear who left and, if it was the host, who takes over. */
  function PartingNews(lobby: Lobby, leaver: ClientId, next: ClientId): seq<News> {
    if lobby.host == leaver then [PlayerLeft(leaver), MuteChanged(next, false), HostChanged(next)]
    else [PlayerLeft(leaver)]
  }

  /** The critical section of cleanup. `next` is the member the server happens to pick as new host. */
  function Depart(d: Directory, s: Session, k: Conn, next: ClientId, token: Token): (Directory, Farewell) {
    if !OwnedBy(d, s.lobby, s.client, k) then (d, Farewell(None, []))
    else
      var lobby := d.lobbies[s.lobby];
      var rest := Remaining(lobby, s.client);
      var index := if s.client in d.index && d.index[s.client] == s.lobby then d.index - {s.client} else d.index;
      if rest.clients == map[] then (Directory(d.lobbies - {s.lobby}, index), Farewell(None, [PlayerLeft(s.client)]))
      else
        var after := Rotate(Handover(rest, s.client, next), token);
        (Directory(d.lobbies[s.lobby := after], index),
         Farewell(Some(Notice(s.lobby, after.token, after.epoch, Senders(after, None))),
                  PartingNews(lobby, s.client, next)))
  }

  /** `next` is a possible choice of successor: a member who stays, if a successor is needed. */
  predicate ValidSuccessor(d: Directory, s: Session, k: Conn, next: ClientId) {
    OwnedBy(d, s.lobby, s.client, k) && d.lobbies[s.lobby].clients - {s.client} != map[] ==>
      next in d.lobbies[s.lobby].clients - {s.client}
  }

  /** Cleanup by a connection that no longer owns its record changes nothing and tells nobody. */
  lemma StaleDepartureIsInert(d: Directory, s: Session, k: Conn, next: ClientId, token: Token)
    requires !OwnedBy(d, s.lobby, s.client, k)
    ensures Depart(d, s, k, next, token) == (d, Farewell(None, []))
  {}

  /** What those who stay are left with when `c` goes. */
  ghost predicate LeftWith(lobby: Lobby, after: Lobby, c: ClientId, next: ClientId, token: Token) {
    && after.clients == lobby.clients - {c} && SameSettings(lobby, after)
    && after.host == (if lobby.host == c then next else lobby.host)
    && after.muted == lobby.muted - {c, after.host}
    && after.token == token && after.epoch == NextEpoch(lobby.epoch)
  }

  lemma Survives(lobby: Lobby, c: ClientId, next: ClientId, token: Token)
    requires LobbyOk(lobby)
    ensures LeftWith(lobby, Rotate(Handover(Remaining(lobby, c), c, next), token), c, next, token)
  {}

  /** The parting news carries a member's picture of the lobby to the lobby as it then is. */
  lemma PartingNewsTellsAll(lobby: Lobby, c: ClientId, next: ClientId, token: Token)
    ensures Replay(ViewOf(lobby), PartingNews(lobby, c, next)) ==
            ViewOf(Rotate(Handover(Remaining(lobby, c), c, next), token))
  {
    var v := ViewOf(lobby);
    if lobby.host == c {
      ReplayThree(v, PlayerLeft(c), MuteChanged(next, false), HostChanged(next));
    } else {
      ReplayOne(v, PlayerLeft(c));
    }
    assert (lobby.clients - {c}).Keys == lobby.clients.Keys - {c};
  }

  /** The lobby and index entries that cleanup by an owner writes. */
  lemma DepartureShape(d: Directory, s: Session, k: Conn, next: ClientId, token: Token)
    requires IndexOk(d) && OwnedBy(d, s.lobby, s.client, k)
    ensures
      var lobby := d.lobbies[s.lobby];
      var after := Rotate(Handover(Remaining(lobby, s.client), s.client, next), token);
      Depart(d, s, k, next, token) ==
      if lobby.clients - {s.client} == map[]
      then (Directory(d.lobbies - {s.lobby}, d.index - {s.client}), Farewell(None, [PlayerLeft(s.client)]))
      else (Directory(d.lobbies[s.lobby := after], d.index - {s.client}),
            Farewell(Some(Notice(s.lobby, after.token, after.epoch, Senders(after, None))),
                     PartingNews(lobby, s.client, next)))
  {
    assert IsMember(d, s.lobby, s.client);
    hide Handover, Rotate;
  }

  /** The leaver, and only the leaver, is gone; an emptied lobby goes with it. */
  lemma DepartureEffect(d: Directory, s: Session, k: Conn, next: ClientId, token: Token)
    requires DirectoryOk(d) && OwnedBy(d, s.lobby, s.client, k) && ValidSuccessor(d, s, k, next)
    ensures
      var (d2, farewell) := Depart(d, s, k, next, token);
      var lobby := d.lobbies[s.lobby];
      && OnlyLobby(d, d2, s.lobby)
      && d2.index == d.index - {s.client}
      && (s.lobby in d2.lobbies <==> lobby.clients.Keys != {s.client})
      && (s.lobby !in d2.lobbies ==> farewell.notice.None?)
      && (s.lobby in d2.lobbies ==>
            var after := d2.lobbies[s.lobby];
            && LeftWith(lobby, after, s.client, next, token)
            && farewell.notice == Some(Notice(s.lobby, after.token, after.epoch, Senders(after, None)))
            && Replay(ViewOf(lobby), farewell.news) == ViewOf(after))
  {
    var lobby := d.lobbies[s.lobby];
    DepartureShape(d, s, k, next, token);
    Survives(lobby, s.client, next, token);
    PartingNewsTellsAll(lobby, s.client, next, token);
    LastKey(lobby.clients, s.client);
    var after := Rotate(Handover(Remaining(lobby, s.client), s.client, next), token);
    WritingIsLocal(d, s.lobby, after, d.index - {s.client});
    hide OnlyLobby, Depart, DirectoryOk, Handover, Rotate, LeftWith, Replay, ViewOf;
  }

  lemma LastKey<K, V>(m: map<K, V>, k: K)
    requires k in m
    ensures m - {k} == map[] <==> m.Keys == {k}
  {
    assert (m - {k}).Keys == m.Keys - {k};
    if m - {k} == map[] {
      assert forall x :: x in m && x != k ==> x in m - {k};
    }
  }

  lemma RemainingKeepsLobby(lobby: Lobby, c: ClientId, next: ClientId, token: Token)
    requires LobbyOk(lobby) && c in lobby.clients && next in lobby.clients - {c}
    ensures LobbyOk(Rotate(Handover(Remaining(lobby, c), c, next), token))
  {
    var after := Rotate(Handover(Remaining(lobby, c), c, next), token);
    assert after.host in after.clients;
    Smaller(after.clients.Keys, lobby.clients.Keys);
  }

  lemma DepartureKeepsDirectory(d: Directory, s: Session, k: Conn, next: ClientId, token: Token)
    requires DirectoryOk(d) && ValidSuccessor(d, s, k, next)
    ensures DirectoryOk(Depart(d, s, k, next, token).0)
  {
    hide Depart, LobbyOk, Rotate, Handover, SameSettings;
    if !OwnedBy(d, s.lobby, s.client, k) {
      StaleDepartureIsInert(d, s, k, next, token);
    } else {
      var d2 := Depart(d, s, k, next, token).0;
      DepartureShape(d, s, k, next, token);
      DepartureEffect(d, s, k, next, token);
      if s.lobby in d2.lobbies {
        RemainingKeepsLobby(d.lobbies[s.lobby], s.client, next, token);
      }
      assert IsMember(d, s.lobby, s.client);
      RemovalKeepsIndex(d, d2, s.lobby, s.client);
    }
  }
}
