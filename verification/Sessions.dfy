/**
 The whole server as a transition system. Every critical section under the
 lobby lock is one step; between them any number of connections interleave.
 Around the sections lie the unlocked gaps: a committed registration that has
 not yet been welcomed, a host action that has read the index but not yet taken
 the lock, and captured rotation notices that have not yet been delivered.
 */
module Sessions {
  import opened Options
  import opened Lobbies
  import opened Registration
  import opened Moderation
  import opened Departure

  datatype Phase =
    | Connected                                      // in the message loop, not registered
    | Committed(session: Session, notice: Notice)    // admitted, credentials not yet sent
    | Registered(session: Session)
    | Moderating(session: Session, action: Action)   // index read, lobby lock not yet taken
    | Closing(left: Option<Session>)                 // out of the loop, cleanup not yet run
    | Done

  /**
   `offered` records every token ever handed to a connection's transport;
   `issued` every token ever generated.
   */
  datatype State = State(
    dir: Directory,
    conns: map<Conn, Phase>,
    notices: set<Notice>,
    offered: set<(Conn, Token)>,
    issued: set<Token>)

  datatype Label =
    | Open(k: Conn)
    | Submit(k: Conn, request: Request, locked: bool, draw: Draw)
    | Welcome(k: Conn)
    | Abandon(k: Conn)
    | Begin(k: Conn, action: Action)
    | Decide(k: Conn, token: Token)
    | Hangup(k: Conn)
    | Cleanup(k: Conn, next: ClientId, token: Token)
    | Deliver(notice: Notice)

  ghost const Init: State := State(Directory(map[], map[]), map[], {}, {}, {})

  function SessionOf(p: Phase): Option<Session> {
    match p
    case Connected => None
    case Committed(s, _) => Some(s)
    case Registered(s) => Some(s)
    case Moderating(s, _) => Some(s)
    case Closing(left) => left
    case Done => None
  }

  predicate In(s: State, k: Conn) {
    k in s.conns
  }

  /** The token drawn by a step, if it draws one. Fresh tokens never repeat. */
  function Drawn(a: Label): Option<Token> {
    match a
    case Submit(_, _, _, draw) => Some(draw.token)
    case Decide(_, token) => Some(token)
    case Cleanup(_, _, token) => Some(token)
    case _ => None
  }

  ghost predicate Enabled(s: State, a: Label) {
    && (Drawn(a).Some? ==> Drawn(a).value !in s.issued)
    && match a
       case Open(k) => !In(s, k)
       case Submit(k, _, _, _) => In(s, k) && s.conns[k].Connected?
       case Welcome(k) => In(s, k) && s.conns[k].Committed?
       case Abandon(k) => In(s, k) && s.conns[k].Committed?
       case Begin(k, _) =>
         && In(s, k) && s.conns[k].Registered?
         && s.conns[k].session.client in s.dir.index
         && s.dir.index[s.conns[k].session.client] == s.conns[k].session.lobby
       case Decide(k, _) => In(s, k) && s.conns[k].Moderating?
       case Hangup(k) => In(s, k) && (s.conns[k].Connected? || s.conns[k].Registered?)
       case Cleanup(k, next, _) =>
         && In(s, k) && s.conns[k].Closing?
         && (s.conns[k].left.Some? ==> ValidSuccessor(s.dir, s.conns[k].left.value, k, next))
       case Deliver(n) => n in s.notices
  }

  function Goto(s: State, k: Conn, p: Phase): State {
    s.(conns := s.conns[k := p])
  }

  /** The delivery-time test: the lobby still holds the captured token under the captured epoch. */
  predicate Live(d: Directory, n: Notice) {
    n.lobby in d.lobbies && d.lobbies[n.lobby].token == n.token && d.lobbies[n.lobby].epoch == n.epoch
  }

  /** The targets that survive the per-target sender filter. */
  function Recipients(d: Directory, n: Notice): set<(Conn, Token)> {
    set c | c in n.targets && OwnedBy(d, n.lobby, c, n.targets[c]) :: (n.targets[c], n.token)
  }

  ghost function Apply(hash: Hash, s: State, a: Label): State
    requires Enabled(s, a)
  {
    match a
    case Open(k) => Goto(s, k, Connected)
    case Submit(k, r, locked, draw) => ApplySubmit(hash, s, k, r, locked, draw)
    case Welcome(k) => ApplyWelcome(s, k)
    case Abandon(k) => Goto(s, k, Closing(Some(s.conns[k].session)))
    case Begin(k, action) => Goto(s, k, Moderating(s.conns[k].session, action))
    case Decide(k, token) => ApplyDecide(s, k, token)
    case Hangup(k) => Goto(s, k, Closing(SessionOf(s.conns[k])))
    case Cleanup(k, next, token) => ApplyCleanup(s, k, next, token)
    case Deliver(n) =>
      s.(notices := s.notices - {n},
         offered := if Live(s.dir, n) then s.offered + Recipients(s.dir, n) else s.offered)
  }

  ghost function ApplySubmit(hash: Hash, s: State, k: Conn, r: Request, locked: bool, draw: Draw): State {
    var refused := Screen(r);
    if refused.Some? then
      Goto(s, k, if refused.value == Retry then Connected else Closing(None)).(issued := s.issued + {draw.token})
    else
      var (d2, v) := Admit(hash, s.dir, r, locked, draw, k);
      Goto(s, k,
           match v
           case Admitted(session, n) => Committed(session, n)
           case Refused(Retry) => Connected
           case Refused(Disconnect) => Closing(None))
      .(dir := d2, issued := s.issued + {draw.token})
  }

  /** Credentials go to the newcomer; the captured rotation, if anyone is in it, goes out after them. */
  ghost function ApplyWelcome(s: State, k: Conn): State
    requires In(s, k) && s.conns[k].Committed?
  {
    var n := s.conns[k].notice;
    Goto(s, k, Registered(s.conns[k].session)).(
      offered := s.offered + {(k, n.token)},
      notices := if n.targets == map[] then s.notices else s.notices + {n})
  }

  ghost function ApplyDecide(s: State, k: Conn, token: Token): State
    requires In(s, k) && s.conns[k].Moderating?
  {
    var (session, action) := (s.conns[k].session, s.conns[k].action);
    var (d2, ruling) := Moderate(s.dir, session, k, action, token);
    Goto(s, k, if ruling.dispatch == Handled then Registered(session) else Closing(Some(session))).(
      dir := d2,
      notices := if ruling.notice.Some? then s.notices + {ruling.notice.value} else s.notices,
      issued := s.issued + {token})
  }

  ghost function ApplyCleanup(s: State, k: Conn, next: ClientId, token: Token): State
    requires In(s, k) && s.conns[k].Closing?
  {
    if s.conns[k].left.None? then Goto(s, k, Done).(issued := s.issued + {token})
    else
      var (d2, farewell) := Depart(s.dir, s.conns[k].left.value, k, next, token);
      Goto(s, k, Done).(
        dir := d2,
        notices := if farewell.notice.Some? then s.notices + {farewell.notice.value} else s.notices,
        issued := s.issued + {token})
  }

  // ----- The invariant -----

  /** Every member record is owned by a connection whose own session names exactly that record. */
  ghost predicate RecordsOwned(d: Directory, conns: map<Conn, Phase>) {
    forall l, c :: IsMember(d, l, c) ==>
      var m := d.lobbies[l].clients[c];
      m.sender in conns && SessionOf(conns[m.sender]) == Some(Session(c, l, m.generation))
  }

  ghost predicate TokensDistinct(d: Directory, issued: set<Token>) {
    && (forall l :: l in d.lobbies ==> d.lobbies[l].token in issued)
    && (forall l, m :: l in d.lobbies && m in d.lobbies && l != m ==> d.lobbies[l].token != d.lobbies[m].token)
  }

  ghost predicate TrafficIssued(s: State) {
    && (forall p :: p in s.offered ==> p.1 in s.issued)
    && (forall n :: n in s.notices ==> n.token in s.issued)
    && (forall k :: k in s.conns && s.conns[k].Committed? ==> s.conns[k].notice.token in s.issued)
  }

  /** Confinement: whoever was offered a lobby's current token is a current member of it. */
  ghost predicate Confined(d: Directory, offered: set<(Conn, Token)>) {
    forall k, l :: l in d.lobbies && (k, d.lobbies[l].token) in offered ==> exists c :: OwnedBy(d, l, c, k)
  }

  /** If the lobby still holds the notice's token, then every captured target is still a member over the same sender. */
  ghost predicate Exact(d: Directory, n: Notice) {
    forall l :: l in d.lobbies && d.lobbies[l].token == n.token ==>
      && l == n.lobby && d.lobbies[l].epoch == n.epoch
      && forall c :: c in n.targets ==> OwnedBy(d, l, c, n.targets[c])
  }

  ghost predicate NoticesExact(d: Directory, notices: set<Notice>) {
    forall n :: n in notices ==> Exact(d, n)
  }

  /** A committed registration whose token is still current is itself still current. */
  ghost predicate WelcomesExact(d: Directory, conns: map<Conn, Phase>) {
    forall k :: k in conns && conns[k].Committed? ==>
      && conns[k].notice.lobby == conns[k].session.lobby
      && Exact(d, conns[k].notice)
      && (Live(d, conns[k].notice) ==> IsCurrent(d, conns[k].session, k))
  }

  predicate NoticeCovers(n: Notice, t: Token, c: ClientId) {
    n.token == t && c in n.targets
  }

  /** A committed registration still owes `t` to `c`: to itself, or to a captured target. */
  predicate WelcomeCovers(p: Phase, t: Token, c: ClientId) {
    p.Committed? && p.notice.token == t && (c in p.notice.targets || p.session.client == c)
  }

  /** A departing connection still owns a record in `l`, so its cleanup will rotate the token. */
  predicate LeaverCovers(d: Directory, p: Phase, k: Conn, l: LobbyId) {
    p.Closing? && p.left.Some? && p.left.value.lobby == l && IsCurrent(d, p.left.value, k)
  }

  /** The member has been offered the lobby's token, or some pending step is bound to offer it or replace it. */
  ghost predicate Covered(s: State, l: LobbyId, c: ClientId)
    requires IsMember(s.dir, l, c)
  {
    var t, k := s.dir.lobbies[l].token, s.dir.lobbies[l].clients[c].sender;
    || (k, t) in s.offered
    || (exists n :: n in s.notices && NoticeCovers(n, t, c))
    || (exists j :: j in s.conns && WelcomeCovers(s.conns[j], t, c))
    || (exists j :: j in s.conns && LeaverCovers(s.dir, s.conns[j], j, l))
  }

  ghost predicate AllCovered(s: State) {
    forall l, c :: IsMember(s.dir, l, c) ==> Covered(s, l, c)
  }

  ghost predicate Inv(s: State) {
    && DirectoryOk(s.dir)
    && RecordsOwned(s.dir, s.conns)
    && TokensDistinct(s.dir, s.issued)
    && TrafficIssued(s)
    && Confined(s.dir, s.offered)
    && NoticesExact(s.dir, s.notices)
    && WelcomesExact(s.dir, s.conns)
    && AllCovered(s)
  }
}
