/** Host actions: each rechecks the actor's exact session and host status under the write lock. */
module Moderation {
  import opened Options
  import opened Lobbies
  import opened Sets
  import opened Text
  import opened Views

  datatype Action =
    | Kick(target: ClientId)
    | Mute(target: ClientId, muted: bool)
    | TransferHost(target: ClientId)
    | SetOptions(maxPlayers: Option<nat>, isPublic: Option<bool>,
                 description: Option<string>, serverNode: Option<string>)

  datatype Dispatch = Handled | CloseConnection

  /** What becomes of the connection, the rotation captured, and what the lobby is told. */
  datatype Ruling = Ruling(dispatch: Dispatch, notice: Option<Notice>, news: seq<News>)

  predicate Authorized(d: Directory, s: Session, k: Conn) {
    IsCurrent(d, s, k) && d.lobbies[s.lobby].host == s.client
  }

  function Evict(lobby: Lobby, target: ClientId, token: Token): Lobby {
    Rotate(lobby.(clients := lobby.clients - {target}, muted := lobby.muted - {target}), token)
  }

  function CappedPlayers(requested: nat): Option<nat> {
    if requested == 0 then None
    else Some(if requested < MAX_LOBBY_MEMBERS then requested else MAX_LOBBY_MEMBERS)
  }

  function Reconfigure(lobby: Lobby, a: Action): Lobby
    requires a.SetOptions?
  {
    lobby.(
      maxPlayers := if a.maxPlayers.Some? then CappedPlayers(a.maxPlayers.value) else lobby.maxPlayers,
      description := if a.description.Some? && ValidText(a.description.value, 200, true)
                     then a.description.value else lobby.description,
      serverNode := if a.serverNode.Some? && ValidText(a.serverNode.value, 512, false)
                    then a.serverNode.value else lobby.serverNode,
      isPublic := if a.isPublic.Some? then a.isPublic.value && lobby.isPasswordless else lobby.isPublic)
  }

  /** The lobby after an authorised action other than a kick, or `None` when the action is ignored. */
  function Adjust(lobby: Lobby, a: Action): Option<Lobby>
    requires !a.Kick?
  {
    match a
    case Mute(t, on) =>
      if (t == lobby.host && on) || t !in lobby.clients
         || (on && |lobby.muted| >= MAX_LOBBY_MEMBERS && t !in lobby.muted) then None
      else Some(lobby.(muted := if on then lobby.muted + {t} else lobby.muted - {t}))
    case TransferHost(t) =>
      if t !in lobby.clients then None
      else Some(lobby.(host := t, muted := lobby.muted - {t}))
    case SetOptions(_, _, _, _) => Some(Reconfigure(lobby, a))
  }

  /** What the lobby is told of an action other than a kick. */
  function Announced(after: Lobby, a: Action): seq<News>
    requires !a.Kick?
  {
    match a
    case Mute(t, on) => [MuteChanged(t, on)]
    case TransferHost(t) => [MuteChanged(t, false), HostChanged(t)]
    case SetOptions(_, _, _, _) => [OptionsChanged(after.maxPlayers, after.isPublic)]
  }

  /** The critical section of a host action. */
  function Moderate(d: Directory, s: Session, k: Conn, a: Action, token: Token): (Directory, Ruling) {
    if s.lobby !in d.lobbies then (d, Ruling(Handled, None, []))
    else if !IsCurrent(d, s, k) then (d, Ruling(CloseConnection, None, []))
    else
      var lobby := d.lobbies[s.lobby];
      if lobby.host != s.client then (d, Ruling(Handled, None, []))
      else if a.Kick? then
        if a.target == s.client || a.target !in lobby.clients then (d, Ruling(Handled, None, []))
        else
          var after := Evict(lobby, a.target, token);
          var index := if a.target in d.index && d.index[a.target] == s.lobby then d.index - {a.target} else d.index;
          (Directory(d.lobbies[s.lobby := after], index),
           Ruling(Handled, Some(Notice(s.lobby, after.token, after.epoch, Senders(after, None))),
                  [PlayerLeft(a.target)]))
      else
        var after := Adjust(lobby, a);
        if after.None? then (d, Ruling(Handled, None, []))
        else (d.(lobbies := d.lobbies[s.lobby := after.value]), Ruling(Handled, None, Announced(after.value, a)))
  }

  /** Whatever ran before the lock was taken, an unauthorised actor changes nothing and notifies nobody. */
  lemma OnlyTheHostActs(d: Directory, s: Session, k: Conn, a: Action, token: Token)
    ensures
      var (d2, ruling) := Moderate(d, s, k, a, token);
      && (d2 != d || ruling.notice.Some? || ruling.news != [] ==> Authorized(d, s, k))
      && (ruling.dispatch == CloseConnection <==> s.lobby in d.lobbies && !IsCurrent(d, s, k))
  {}

  /** One action's news, heard in order, carries the picture of players, host, mutes, cap and listing across it. */
  lemma NewsTellsAll(d: Directory, s: Session, k: Conn, a: Action, token: Token)
    requires s.lobby in d.lobbies
    ensures
      var (d2, ruling) := Moderate(d, s, k, a, token);
      s.lobby in d2.lobbies && Replay(ViewOf(d.lobbies[s.lobby]), ruling.news) == ViewOf(d2.lobbies[s.lobby])
  {
    var (d2, ruling) := Moderate(d, s, k, a, token);
    var v := ViewOf(d.lobbies[s.lobby]);
    if |ruling.news| == 1 {
      ReplayOne(v, ruling.news[0]);
    } else if ruling.news != [] {
      ReplayTwo(v, MuteChanged(a.target, false), HostChanged(a.target));
    }
  }

  predicate KickLands(d: Directory, s: Session, k: Conn, a: Action) {
    Authorized(d, s, k) && a.Kick? && a.target != s.client && a.target in d.lobbies[s.lobby].clients
  }

  /** Actions other than a kick leave membership and the chat token alone. */
  lemma AdjustIsQuiet(lobby: Lobby, a: Action)
    requires !a.Kick? && Adjust(lobby, a).Some?
    ensures Adjust(lobby, a).value.clients == lobby.clients
    ensures Adjust(lobby, a).value.token == lobby.token && Adjust(lobby, a).value.epoch == lobby.epoch
  {}

  /** Unless a kick lands, a host action keeps the index, the members and the token; no other lobby is touched. */
  lemma QuietModeration(d: Directory, s: Session, k: Conn, a: Action, token: Token)
    requires !KickLands(d, s, k, a)
    ensures
      var (d2, ruling) := Moderate(d, s, k, a, token);
      && ruling.notice.None? && d2.index == d.index && d2.lobbies.Keys == d.lobbies.Keys
      && (forall l :: l in d.lobbies ==>
            && (l != s.lobby ==> d2.lobbies[l] == d.lobbies[l])
            && d2.lobbies[l].clients == d.lobbies[l].clients
            && d2.lobbies[l].token == d.lobbies[l].token
            && d2.lobbies[l].epoch == d.lobbies[l].epoch)
  {
    if !a.Kick? && Authorized(d, s, k) && Adjust(d.lobbies[s.lobby], a).Some? {
      AdjustIsQuiet(d.lobbies[s.lobby], a);
    }
  }

  /** A kick that lands removes exactly its target, rotates the token and tells exactly those who stay. */
  lemma KickEffect(d: Directory, s: Session, k: Conn, a: Action, token: Token)
    requires DirectoryOk(d) && KickLands(d, s, k, a)
    ensures
      var (d2, ruling) := Moderate(d, s, k, a, token);
      var (lobby, after) := (d.lobbies[s.lobby], d2.lobbies[s.lobby]);
      && OnlyLobby(d, d2, s.lobby)
      && after.clients == lobby.clients - {a.target} && after.muted == lobby.muted - {a.target}
      && after.host == lobby.host == s.client && SameSettings(lobby, after)
      && d2.index == d.index - {a.target}
      && after.token == token && after.epoch == NextEpoch(lobby.epoch)
      && ruling.dispatch == Handled && IsCurrent(d2, s, k)
      && ruling.notice == Some(Notice(s.lobby, token, after.epoch, Senders(after, None)))
  {
    assert IsMember(d, s.lobby, a.target);
  }

  /** Unmuting undoes a mute, and handing the lobby back undoes a transfer up to the unmuting it implies. */
  lemma ActionsAreReversible(lobby: Lobby, t: ClientId)
    requires LobbyOk(lobby) && t in lobby.clients && t != lobby.host
    ensures
      var muted := Adjust(lobby, Mute(t, true));
      && muted.Some? && t in muted.value.muted
      && Adjust(muted.value, Mute(t, false)) == Some(lobby.(muted := lobby.muted - {t}))
    ensures
      var given := Adjust(lobby, TransferHost(t));
      && given.Some? && given.value.host == t && t !in given.value.muted
      && Adjust(given.value, TransferHost(lobby.host)) == Some(lobby.(muted := lobby.muted - {t}))
  {
    MuteCapNeverBinds(lobby, t, true);
    assert lobby.muted + {t} - {t} == lobby.muted - {t};
    assert lobby.muted - {t} - {lobby.host} == lobby.muted - {t};
  }

  /** Each option changes its own field only, an invalid text changes nothing, and repeating a change is harmless. */
  lemma OptionsAreIndependent(lobby: Lobby, a: Action)
    requires LobbyOk(lobby) && a.SetOptions?
    ensures
      var r := Reconfigure(lobby, a);
      && Reconfigure(r, a) == r
      && (a.maxPlayers == Some(0) ==> r.maxPlayers.None?)
      && (a.maxPlayers.Some? && a.maxPlayers.value > 0 ==>
            && r.maxPlayers.Some? && r.maxPlayers.value <= a.maxPlayers.value && r.maxPlayers.value <= MAX_LOBBY_MEMBERS
            && r.maxPlayers.value in {a.maxPlayers.value, MAX_LOBBY_MEMBERS})
      && (a.isPublic == Some(true) ==> (r.isPublic <==> lobby.isPasswordless))
      && (a.isPublic == Some(false) ==> !r.isPublic)
    ensures Reconfigure(lobby, SetOptions(None, None, None, None)) == lobby
    ensures forall n :: Reconfigure(lobby, SetOptions(Some(n), None, None, None)) ==
                        lobby.(maxPlayers := Reconfigure(lobby, SetOptions(Some(n), None, None, None)).maxPlayers)
    ensures forall on :: Reconfigure(lobby, SetOptions(None, Some(on), None, None)) ==
                         lobby.(isPublic := on && lobby.isPasswordless)
    ensures forall text :: ValidText(text, 200, true) ==>
              Reconfigure(lobby, SetOptions(None, None, Some(text), None)) == lobby.(description := text)
    ensures forall text :: ValidText(text, 512, false) ==>
              Reconfigure(lobby, SetOptions(None, None, None, Some(text))) == lobby.(serverNode := text)
  {}

  /** No control character, and at most `bytes` long in UTF-8. */
  predicate FitsIn(text: string, bytes: nat) {
    && Utf8Len(text) <= bytes
    && forall i :: 0 <= i < |text| ==> 0x20 <= text[i] as int && !(0x7F <= text[i] as int <= 0x9F)
  }

  predicate Blank(text: string) {
    forall i :: 0 <= i < |text| ==> IsWhitespace(text[i])
  }

  /** What a change of options comes to, field by field; whatever is not mentioned stays. */
  ghost predicate OptionsTaken(before: Lobby, after: Lobby, a: Action)
    requires a.SetOptions?
  {
    && after == before.(maxPlayers := after.maxPlayers, isPublic := after.isPublic,
                        description := after.description, serverNode := after.serverNode)
    && (a.maxPlayers.None? ==> after.maxPlayers == before.maxPlayers)
    && (a.maxPlayers == Some(0) ==> after.maxPlayers.None?)
    && (a.maxPlayers.Some? && a.maxPlayers.value > 0 ==>
          && after.maxPlayers.Some? && after.maxPlayers.value <= a.maxPlayers.value && after.maxPlayers.value <= 64
          && (after.maxPlayers.value == a.maxPlayers.value || after.maxPlayers.value == 64))
    && (a.isPublic.None? ==> after.isPublic == before.isPublic)
    && (a.isPublic.Some? ==> (after.isPublic <==> a.isPublic.value && before.isPasswordless))
    && (a.description.Some? && FitsIn(a.description.value, 200) ==> after.description == a.description.value)
    && (a.description.None? || !FitsIn(a.description.value, 200) ==> after.description == before.description)
    && (a.serverNode.Some? && FitsIn(a.serverNode.value, 512) && !Blank(a.serverNode.value) ==>
          after.serverNode == a.serverNode.value)
    && (a.serverNode.None? || !FitsIn(a.serverNode.value, 512) || Blank(a.serverNode.value) ==>
          after.serverNode == before.serverNode)
  }

  lemma FitsMeansValid(text: string)
    ensures ValidText(text, 200, true) <==> FitsIn(text, 200)
    ensures ValidText(text, 512, false) <==> FitsIn(text, 512) && !Blank(text)
  {}

  lemma ReconfigureTakesOptions(lobby: Lobby, a: Action)
    requires a.SetOptions?
    ensures OptionsTaken(lobby, Reconfigure(lobby, a), a)
  {
    if a.description.Some? {
      FitsMeansValid(a.description.value);
    }
    if a.serverNode.Some? {
      FitsMeansValid(a.serverNode.value);
    }
    hide ValidText, FitsIn, Blank;
  }

  /** Options are taken exactly from the current host; from anyone else nothing changes. */
  lemma OptionsEffect(d: Directory, s: Session, k: Conn, a: Action, token: Token)
    requires a.SetOptions?
    ensures
      var d2 := Moderate(d, s, k, a, token).0;
      if Authorized(d, s, k) then
        && s.lobby in d2.lobbies && d2 == Directory(d.lobbies[s.lobby := d2.lobbies[s.lobby]], d.index)
        && OptionsTaken(d.lobbies[s.lobby], d2.lobbies[s.lobby], a)
      else d2 == d
  {
    hide OptionsTaken, Reconfigure;
    if Authorized(d, s, k) {
      ReconfigureTakesOptions(d.lobbies[s.lobby], a);
    }
  }

  /** A mute takes exactly when the host asks it of a member and it would not mute the host. */
  lemma MuteEffect(d: Directory, s: Session, k: Conn, t: ClientId, on: bool, token: Token)
    requires DirectoryOk(d)
    ensures
      var d2 := Moderate(d, s, k, Mute(t, on), token).0;
      if Authorized(d, s, k) && t in d.lobbies[s.lobby].clients && !(on && t == d.lobbies[s.lobby].host) then
        var muted := d.lobbies[s.lobby].muted;
        var after := d.lobbies[s.lobby].(muted := if on then muted + {t} else muted - {t});
        d2 == Directory(d.lobbies[s.lobby := after], d.index)
      else d2 == d
  {
    if Authorized(d, s, k) {
      MuteCapNeverBinds(d.lobbies[s.lobby], t, on);
    }
  }

  function HandedTo(lobby: Lobby, heir: ClientId): Lobby {
    lobby.(host := heir, muted := lobby.muted - {heir})
  }

  /** The lobby is handed over exactly when the host asks it for a member. */
  lemma TransferEffect(d: Directory, s: Session, k: Conn, heir: ClientId, token: Token)
    ensures
      var d2 := Moderate(d, s, k, TransferHost(heir), token).0;
      if Authorized(d, s, k) && heir in d.lobbies[s.lobby].clients
      then d2 == Directory(d.lobbies[s.lobby := HandedTo(d.lobbies[s.lobby], heir)], d.index)
      else d2 == d
  {}

  /** A kick rotates the token exactly when the host asks it of another member; otherwise it does nothing. */
  lemma KickDecided(d: Directory, s: Session, k: Conn, target: ClientId, token: Token)
    ensures
      var (d2, ruling) := Moderate(d, s, k, Kick(target), token);
      && (ruling.notice.Some? <==> Authorized(d, s, k) && target != s.client && target in d.lobbies[s.lobby].clients)
      && (ruling.notice.None? ==> d2 == d && ruling.news == [])
  {}

  lemma AdjustKeepsLobby(lobby: Lobby, a: Action)
    requires LobbyOk(lobby) && !a.Kick? && Adjust(lobby, a).Some?
    ensures LobbyOk(Adjust(lobby, a).value)
  {
    hide ValidText;
  }

  /** The table cap on muted players can never be what refuses a mute. */
  lemma MuteCapNeverBinds(lobby: Lobby, target: ClientId, on: bool)
    requires LobbyOk(lobby)
    ensures Adjust(lobby, Mute(target, on)).None? <==> (target == lobby.host && on) || target !in lobby.clients
  {
    Smaller(lobby.muted, lobby.clients.Keys - {lobby.host});
  }

  lemma EvictKeepsLobby(lobby: Lobby, target: ClientId, token: Token)
    requires LobbyOk(lobby) && target != lobby.host
    ensures LobbyOk(Evict(lobby, target, token))
  {
    var after := Evict(lobby, target, token);
    assert lobby.host in after.clients;
    Smaller(after.clients.Keys, lobby.clients.Keys);
  }

  lemma ModerationKeepsDirectory(d: Directory, s: Session, k: Conn, a: Action, token: Token)
    requires DirectoryOk(d)
    ensures DirectoryOk(Moderate(d, s, k, a, token).0)
  {
    hide LobbyOk;
    var d2 := Moderate(d, s, k, a, token).0;
    if KickLands(d, s, k, a) {
      KickEffect(d, s, k, a, token);
      EvictKeepsLobby(d.lobbies[s.lobby], a.target, token);
      RemovalKeepsIndex(d, d2, s.lobby, a.target);
    } else if d2 != d {
      QuietModeration(d, s, k, a, token);
      AdjustKeepsLobby(d.lobbies[s.lobby], a);
      assert forall l, c :: IsMember(d2, l, c) <==> IsMember(d, l, c);
    }
  }
}
