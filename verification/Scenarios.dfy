/** Comings and goings as concrete runs, and two that show what the token comparison at delivery is for. */
module Scenarios {
  import opened Options
  import opened Lobbies
  import opened Registration
  import opened Departure
  import opened Sessions
  import opened Runs
  import opened Progress
  import opened Staleness

  /** An open lobby with exactly these members, over these senders. */
  ghost predicate Holding(hash: Hash, lobby: Lobby, who: map<ClientId, Conn>) {
    && lobby.clients.Keys == who.Keys
    && (forall c :: c in who ==> lobby.clients[c].sender == who[c] && lobby.clients[c].virtualIp == c.digest)
    && lobby.maxPlayers.None? && hash(lobby.salt, "") == lobby.passwordHash
  }

  /** `l` is the only lobby. */
  ghost predicate Houses(hash: Hash, d: Directory, l: LobbyId, who: map<ClientId, Conn>, epoch: nat) {
    d.lobbies.Keys == {l} && Holding(hash, d.lobbies[l], who) && d.lobbies[l].epoch == epoch
  }

  /** The lobby as its members find it, or no lobby at all while it has none. */
  ghost predicate Stage(hash: Hash, d: Directory, l: LobbyId, who: map<ClientId, Conn>, epoch: nat) {
    if who == map[] then d.lobbies == map[] else Houses(hash, d, l, who, epoch)
  }

  function Visit(c: ClientId, l: LobbyId): Request {
    Request(None, SIGNALING_PROTOCOL_VERSION, Some(c.digest), Some(c), true, true, "", l, "", "")
  }

  function AfterArrival(who: map<ClientId, Conn>, epoch: nat): nat {
    if who == map[] then 1 else NextEpoch(epoch)
  }

  lemma VisitIsAdmissible(hash: Hash, d: Directory, c: ClientId, l: LobbyId, who: map<ClientId, Conn>, epoch: nat)
    requires DirectoryOk(d) && Stage(hash, d, l, who, epoch) && c !in who && |who| < MAX_LOBBY_MEMBERS
    ensures Admissible(hash, d, Visit(c, l), false)
  {
    if who != map[] {
      assert |d.lobbies[l].clients.Keys| == |who.Keys|;
    }
  }

  lemma EnrolHolds(hash: Hash, lobby: Lobby, who: map<ClientId, Conn>, client: Client, token: Token)
    requires Holding(hash, lobby, who) && client.playerId !in who && client.virtualIp == client.playerId.digest
    ensures Holding(hash, Enrol(lobby, client, token), who[client.playerId := client.sender])
    ensures Senders(Enrol(lobby, client, token), Some(client.playerId)) == who
  {}

  lemma ArrivalShape(hash: Hash, d: Directory, c: ClientId, l: LobbyId, who: map<ClientId, Conn>, epoch: nat,
                     draw: Draw, k: Conn)
    requires Stage(hash, d, l, who, epoch) && c !in who
    requires Admissible(hash, d, Visit(c, l), false)
    ensures
      var (d2, v) := Admit(hash, d, Visit(c, l), false, draw, k);
      && Houses(hash, d2, l, who[c := k], AfterArrival(who, epoch)) && d2.lobbies[l].token == draw.token
      && v == Admitted(Session(c, l, draw.generation), Notice(l, draw.token, AfterArrival(who, epoch), who))
  {
    AdmissionShape(hash, d, Visit(c, l), false, draw, k);
    hide Admit, Admissible;
    var before := Entered(hash, d, Visit(c, l), draw);
    var client := Client(c, "", c.digest, draw.generation, k);
    assert Holding(hash, before, who) && (before.clients == map[] <==> who == map[]);
    EnrolHolds(hash, before, who, client, draw.token);
    hide Holding, Senders;
    assert d.lobbies[l := Enrol(before, client, draw.token)].Keys == {l};
  }

  lemma RemainingHolds(hash: Hash, lobby: Lobby, who: map<ClientId, Conn>, c: ClientId, next: ClientId, token: Token)
    requires Holding(hash, lobby, who) && c in who
    ensures
      var after := Rotate(Handover(Remaining(lobby, c), c, next), token);
      && Holding(hash, after, who - {c}) && Senders(after, None) == who - {c}
      && after.token == token && after.epoch == NextEpoch(lobby.epoch)
  {
    assert (lobby.clients - {c}).Keys == lobby.clients.Keys - {c};
    assert (who - {c}).Keys == who.Keys - {c};
  }

  lemma DepartureStage(hash: Hash, d: Directory, c: ClientId, l: LobbyId, who: map<ClientId, Conn>, epoch: nat,
                       next: ClientId, token: Token, k: Conn)
    requires IndexOk(d) && Houses(hash, d, l, who, epoch) && c in who && who[c] == k
    ensures
      var (d2, farewell) := Depart(d, Session(c, l, 0), k, next, token);
      && Stage(hash, d2, l, who - {c}, NextEpoch(epoch))
      && farewell.notice == if who - {c} == map[] then None else Some(Notice(l, token, NextEpoch(epoch), who - {c}))
  {
    var lobby := d.lobbies[l];
    DepartureShape(d, Session(c, l, 0), k, next, token);
    RemainingHolds(hash, lobby, who, c, next, token);
    assert (lobby.clients - {c}).Keys == (who - {c}).Keys;
    assert lobby.clients - {c} == map[] <==> who - {c} == map[];
    hide Depart, Holding, Senders, Rotate, Handover;
    assert (d.lobbies - {l}).Keys == {};
  }

  // ----- Comings and goings as runs -----

  /** What the registration of `c` over `k` makes of the state. */
  ghost predicate Arrived(hash: Hash, s: State, s2: State, k: Conn, c: ClientId, l: LobbyId, who: map<ClientId, Conn>,
                          epoch: nat, n: Notice) {
    && Houses(hash, s2.dir, l, who[c := k], AfterArrival(who, epoch))
    && n == Notice(l, s2.dir.lobbies[l].token, AfterArrival(who, epoch), who)
    && s2.conns == s.conns[k := Committed(Session(c, l, 0), n)] && s2.notices == s.notices
    && s2.issued == s.issued + {n.token} && s2.offered == s.offered
  }

  lemma SubmitArrives(hash: Hash, s: State, k: Conn, c: ClientId, l: LobbyId, who: map<ClientId, Conn>, epoch: nat,
                      t: Token)
    requires Stage(hash, s.dir, l, who, epoch) && c !in who && Admissible(hash, s.dir, Visit(c, l), false)
    ensures Arrived(hash, s, ApplySubmit(hash, s, k, Visit(c, l), false, Draw(0, t, "")), k, c, l, who, epoch,
                    Notice(l, t, AfterArrival(who, epoch), who))
  {
    ArrivalShape(hash, s.dir, c, l, who, epoch, Draw(0, t, ""), k);
    hide Admit, Admissible, Stage, Holding, AfterArrival;
  }

  lemma VisitorMayEnter(hash: Hash, run: Run, c: ClientId, l: LobbyId, who: map<ClientId, Conn>, epoch: nat)
    requires IsRun(hash, run) && Stage(hash, Last(run).dir, l, who, epoch) && c !in who && |who| < MAX_LOBBY_MEMBERS
    ensures Admissible(hash, Last(run).dir, Visit(c, l), false)
  {
    hide Stage, Admissible;
    RunKeepsInv(hash, run, |run.states| - 1);
    VisitIsAdmissible(hash, Last(run).dir, c, l, who, epoch);
  }

  /** `k` opens a connection and registers `c` in `l`; its welcome is still owed. */
  lemma Arrive(hash: Hash, run: Run, k: Conn, c: ClientId, l: LobbyId, who: map<ClientId, Conn>, epoch: nat)
    returns (longer: Run, n: Notice)
    requires IsRun(hash, run) && k !in Last(run).conns && c !in who && |who| < MAX_LOBBY_MEMBERS
    requires Stage(hash, Last(run).dir, l, who, epoch)
    ensures IsRun(hash, longer) && Arrived(hash, Last(run), Last(longer), k, c, l, who, epoch, n)
    ensures n.token !in Last(run).issued
  {
    hide StepAt, Stage, Houses, Admissible, ApplySubmit;
    var t := FreshToken(Last(run).issued);
    var ready := Extend(hash, run, Open(k));
    VisitorMayEnter(hash, ready, c, l, who, epoch);
    SubmitArrives(hash, Last(ready), k, c, l, who, epoch, t);
    longer := Extend(hash, ready, Submit(k, Visit(c, l), false, Draw(0, t, "")));
    n := Notice(l, t, AfterArrival(who, epoch), who);
  }

  /** The welcome goes out, and with it the rotation for those who were there. */
  lemma Greet(hash: Hash, run: Run, k: Conn) returns (longer: Run)
    requires IsRun(hash, run) && In(Last(run), k) && Last(run).conns[k].Committed?
    requires Last(run).conns[k].notice.targets != map[]
    ensures IsRun(hash, longer) && Last(longer).dir == Last(run).dir && Last(longer).issued == Last(run).issued
    ensures Last(longer).conns == Last(run).conns[k := Registered(Last(run).conns[k].session)]
    ensures Last(longer).notices == Last(run).notices + {Last(run).conns[k].notice}
  {
    longer := Extend(hash, run, Welcome(k));
  }

  /** A registered or just committed connection leaves its loop. */
  lemma Quit(hash: Hash, run: Run, k: Conn) returns (longer: Run)
    requires IsRun(hash, run) && k in Last(run).conns
    requires Last(run).conns[k].Committed? || Last(run).conns[k].Registered?
    ensures IsRun(hash, longer)
    ensures Last(longer) == Goto(Last(run), k, Closing(SessionOf(Last(run).conns[k])))
  {
    longer := Extend(hash, run, if Last(run).conns[k].Committed? then Abandon(k) else Hangup(k));
  }

  lemma CleanupStage(hash: Hash, s: State, k: Conn, c: ClientId, l: LobbyId, who: map<ClientId, Conn>, epoch: nat,
                     next: ClientId, t: Token)
    requires IndexOk(s.dir) && Houses(hash, s.dir, l, who, epoch) && c in who && who[c] == k
    requires k in s.conns && s.conns[k] == Closing(Some(Session(c, l, 0)))
    ensures
      var s2 := ApplyCleanup(s, k, next, t);
      && Stage(hash, s2.dir, l, who - {c}, NextEpoch(epoch))
      && s2.conns == s.conns[k := Done] && s2.issued == s.issued + {t} && s2.offered == s.offered
      && s2.notices == s.notices + if who - {c} == map[] then {} else {Notice(l, t, NextEpoch(epoch), who - {c})}
  {
    DepartureStage(hash, s.dir, c, l, who, epoch, next, t, k);
    hide Depart, Houses, Stage, IndexOk;
  }

  lemma RunKeepsIndex(hash: Hash, run: Run)
    requires IsRun(hash, run)
    ensures IndexOk(Last(run).dir)
  {
    RunKeepsInv(hash, run, |run.states| - 1);
  }

  /** `c` leaves `l` over its connection `k`. */
  lemma Leave(hash: Hash, run: Run, k: Conn, c: ClientId, l: LobbyId, who: map<ClientId, Conn>, epoch: nat)
    returns (longer: Run, t: Token)
    requires IsRun(hash, run) && Houses(hash, Last(run).dir, l, who, epoch) && c in who && who[c] == k
    requires k in Last(run).conns && SessionOf(Last(run).conns[k]) == Some(Session(c, l, 0))
    requires Last(run).conns[k].Committed? || Last(run).conns[k].Registered?
    ensures IsRun(hash, longer) && Stage(hash, Last(longer).dir, l, who - {c}, NextEpoch(epoch))
    ensures Last(longer).conns == Last(run).conns[k := Done]
    ensures Last(longer).notices ==
            Last(run).notices + if who - {c} == map[] then {} else {Notice(l, t, NextEpoch(epoch), who - {c})}
    ensures Last(longer).issued == Last(run).issued + {t} && t !in Last(run).issued
    ensures Last(longer).offered == Last(run).offered
  {
    hide StepAt, Houses, Stage, ApplyCleanup, ValidSuccessor, IndexOk;
    t := FreshToken(Last(run).issued);
    var closing := Quit(hash, run, k);
    var s := Last(closing);
    RunKeepsIndex(hash, closing);
    var next := SuccessorExists(s.dir, Session(c, l, 0), k);
    CleanupStage(hash, s, k, c, l, who, epoch, next, t);
    longer := Extend(hash, closing, Cleanup(k, next, t));
  }

  /** A connection that has never been opened. */
  lemma {:induction false} FreshConn(conns: set<Conn>) returns (k: Conn)
    ensures forall x :: x in conns ==> x.serial < k.serial
    decreases |conns|
  {
    if conns == {} {
      k := Conn(0);
    } else {
      var x :| x in conns;
      var rest := FreshConn(conns - {x});
      k := Conn(if rest.serial > x.serial then rest.serial else x.serial + 1);
      assert forall y :: y in conns ==> y == x || y in conns - {x};
    }
  }

  // ----- A recurring epoch -----

  ghost const LOBBY := LobbyId(0)
  ghost const HOST := ClientId(1)
  ghost const GUEST := ClientId(2)

  /** Someone creates the lobby. */
  lemma Founded(hash: Hash, run: Run) returns (longer: Run, k: Conn)
    requires IsRun(hash, run) && Last(run).dir.lobbies == map[]
    ensures IsRun(hash, longer) && Houses(hash, Last(longer).dir, LOBBY, map[HOST := k], 1)
    ensures k !in Last(run).conns && k in Last(longer).conns && Last(longer).conns[k].Committed?
    ensures SessionOf(Last(longer).conns[k]) == Some(Session(HOST, LOBBY, 0))
    ensures Last(longer).notices == Last(run).notices && Last(run).issued <= Last(longer).issued
  {
    k := FreshConn(Last(run).conns.Keys);
    var n;
    longer, n := Arrive(hash, run, k, HOST, LOBBY, map[], 0);
    assert map[][HOST := k] == map[HOST := k];
  }

  /** A guest arrives where the host is alone. */
  lemma Joined(hash: Hash, run: Run, kh: Conn, epoch: nat) returns (longer: Run, k: Conn, n: Notice)
    requires IsRun(hash, run) && Houses(hash, Last(run).dir, LOBBY, map[HOST := kh], epoch)
    ensures IsRun(hash, longer) && Houses(hash, Last(longer).dir, LOBBY, map[HOST := kh, GUEST := k], NextEpoch(epoch))
    ensures n == Notice(LOBBY, Last(longer).dir.lobbies[LOBBY].token, NextEpoch(epoch), map[HOST := kh])
    ensures k !in Last(run).conns && Last(longer).conns == Last(run).conns[k := Committed(Session(GUEST, LOBBY, 0), n)]
    ensures Last(longer).notices == Last(run).notices
    ensures Last(run).issued <= Last(longer).issued && n.token !in Last(run).issued
    ensures Last(longer).offered == Last(run).offered
  {
    k := FreshConn(Last(run).conns.Keys);
    longer, n := Arrive(hash, run, k, GUEST, LOBBY, map[HOST := kh], epoch);
    assert map[HOST := kh][GUEST := k] == map[HOST := kh, GUEST := k];
  }

  /** The guest leaves again. */
  lemma Parted(hash: Hash, run: Run, kh: Conn, k: Conn, epoch: nat) returns (longer: Run, t: Token)
    requires IsRun(hash, run) && Houses(hash, Last(run).dir, LOBBY, map[HOST := kh, GUEST := k], epoch)
    requires k in Last(run).conns && SessionOf(Last(run).conns[k]) == Some(Session(GUEST, LOBBY, 0))
    requires Last(run).conns[k].Committed? || Last(run).conns[k].Registered?
    ensures IsRun(hash, longer) && Houses(hash, Last(longer).dir, LOBBY, map[HOST := kh], NextEpoch(epoch))
    ensures Last(longer).conns == Last(run).conns[k := Done]
    ensures Last(longer).notices == Last(run).notices + {Notice(LOBBY, t, NextEpoch(epoch), map[HOST := kh])}
    ensures Last(longer).issued == Last(run).issued + {t} && t !in Last(run).issued
    ensures Last(longer).offered == Last(run).offered
  {
    assert map[HOST := kh, GUEST := k] - {GUEST} == map[HOST := kh];
    longer, t := Leave(hash, run, k, GUEST, LOBBY, map[HOST := kh, GUEST := k], epoch);
  }

  /** The lobby in which a notice is pending has the notice's epoch and another token. */
  ghost predicate Recurs(s: State, n: Notice) {
    && n in s.notices && n.lobby in s.dir.lobbies
    && s.dir.lobbies[n.lobby].epoch == n.epoch && s.dir.lobbies[n.lobby].token != n.token
  }

  /**
   The epoch alone is not an exact test of staleness: a lobby can be destroyed,
   created again and reach the epoch of a notice captured in its former life.
   */
  lemma EpochAloneIsInexact(hash: Hash)
    ensures exists run, n :: IsRun(hash, run) && Recurs(Last(run), n) && n.epoch == 2
  {
    hide Houses, IsRun, Inv;
    var empty := EmptyRun(hash);
    var founded, kh := Founded(hash, empty);
    var met, kg, n := Joined(hash, founded, kh, 1);
    assert HOST in n.targets;
    var greeted := Greet(hash, met, kg);
    var parted, t := Parted(hash, greeted, kh, kg, 2);
    assert map[HOST := kh] - {HOST} == map[];
    var gone, t2 := Leave(hash, parted, kh, HOST, LOBBY, map[HOST := kh], 3);
    NoticeTokenIssued(hash, gone, n);
    var again, kh2 := Founded(hash, gone);
    var back, kg2, n2 := Joined(hash, again, kh2, 1);
    HousesIsThere(hash, Last(back).dir, map[HOST := kh2, GUEST := kg2], 2);
    assert Recurs(Last(back), n);
  }

  lemma EmptyRun(hash: Hash) returns (run: Run)
    ensures IsRun(hash, run) && run == Run([Init], [])
  {
    run := Run([Init], []);
  }

  lemma HousesIsThere(hash: Hash, d: Directory, who: map<ClientId, Conn>, epoch: nat)
    requires Houses(hash, d, LOBBY, who, epoch)
    ensures LOBBY in d.lobbies && d.lobbies[LOBBY].epoch == epoch
  {}

  lemma NoticeTokenIssued(hash: Hash, run: Run, n: Notice)
    requires IsRun(hash, run) && n in Last(run).notices
    ensures n.token in Last(run).issued
  {
    RunKeepsInv(hash, run, |run.states| - 1);
  }

  // ----- Saturation -----

  /** Guests come and go until the epoch can rise no further; the host stays throughout. */
  lemma {:induction false} Saturate(hash: Hash, run: Run, kh: Conn, epoch: nat) returns (longer: Run)
    requires IsRun(hash, run) && Houses(hash, Last(run).dir, LOBBY, map[HOST := kh], epoch) && epoch <= U64_MAX
    ensures IsRun(hash, longer) && Houses(hash, Last(longer).dir, LOBBY, map[HOST := kh], U64_MAX)
    decreases U64_MAX - epoch
  {
    hide Houses, IsRun;
    longer := run;
    if epoch < U64_MAX {
      var met, k, n := Joined(hash, run, kh, epoch);
      var parted, t := Parted(hash, met, kh, k, NextEpoch(epoch));
      longer := Saturate(hash, parted, kh, NextEpoch(NextEpoch(epoch)));
    }
  }

  /**
   At saturation the token comparison is what keeps an outdated token from
   being sent: the epoch no longer moves, and the target has never left.
   */
  lemma TokenDecidesAtSaturation(hash: Hash)
    ensures exists run, n ::
              && IsRun(hash, run) && Recurs(Last(run), n) && n.epoch == U64_MAX
              && !(EpochRecipients(Last(run).dir, n) <= Apply(hash, Last(run), Deliver(n)).offered)
  {
    hide IsRun, Inv, Houses;
    var empty := EmptyRun(hash);
    var founded, kh := Founded(hash, empty);
    var full := Saturate(hash, founded, kh, 1);
    var met, k, n0 := Joined(hash, full, kh, U64_MAX);
    var parted, t := Parted(hash, met, kh, k, U64_MAX);
    var n := Notice(LOBBY, t, U64_MAX, map[HOST := kh]);
    var back, k2, n2 := Joined(hash, parted, kh, U64_MAX);
    HousesIsThere(hash, Last(back).dir, map[HOST := kh, GUEST := k2], U64_MAX);
    assert Recurs(Last(back), n);
    HostIsThere(hash, Last(back).dir, kh, k2, U64_MAX);
    assert HOST in n.targets && n.targets[HOST] == kh;
    assert (kh, t) in EpochRecipients(Last(back).dir, n);
    if (kh, t) in Last(met).offered {
      OfferedIsIssued(hash, met, kh, t);
    }
    assert !Live(Last(back).dir, n);
  }

  lemma OfferedIsIssued(hash: Hash, run: Run, k: Conn, t: Token)
    requires IsRun(hash, run) && (k, t) in Last(run).offered
    ensures t in Last(run).issued
  {
    RunKeepsInv(hash, run, |run.states| - 1);
    assert (k, t).1 in Last(run).issued;
  }

  lemma HostIsThere(hash: Hash, d: Directory, kh: Conn, k: Conn, epoch: nat)
    requires Houses(hash, d, LOBBY, map[HOST := kh, GUEST := k], epoch)
    ensures OwnedBy(d, LOBBY, HOST, kh)
  {
    assert HOST in map[HOST := kh, GUEST := k];
  }
}
