/** The per-connection loop's own bookkeeping, and the cleanup it owes the server. */
module Connections {
  import opened Options
  import opened Addresses
  import opened Clock
  import opened Lobbies
  import opened Registration
  import opened Departure
  import opened Lockout
  import opened Server
  import opened Endings
  import PasswordFailures

  class Connection {
    const sender: Conn
    var clientId: Option<ClientId>
    var lobbyId: Option<LobbyId>
    var generation: nat
    var isRegistered: bool

    constructor (sender: Conn)
      ensures this.sender == sender && !isRegistered && clientId.None? && lobbyId.None?
    {
      this.sender := sender;
      clientId, lobbyId, generation, isRegistered := None, None, 0, false;
    }

    /** The fields are set together, by a commit. */
    ghost predicate Valid()
      reads this
    {
      isRegistered == clientId.Some? == lobbyId.Some?
    }

    function MySession(): Session
      reads this
      requires clientId.Some? && lobbyId.Some?
    {
      Session(clientId.value, lobbyId.value, generation)
    }

    /** Any record that names this sender is the one the stored session names. */
    ghost predicate Tied(d: Directory)
      reads this
    {
      forall l, c :: OwnedBy(d, l, c, sender) ==>
        clientId == Some(c) && lobbyId == Some(l) && IsCurrent(d, Session(c, l, generation), sender)
    }

    /** Handle a registration message; a committed session is stored before anything else is decided. */
    method Register(server: SignalingServer, r: Request, source: IpAddr, now: Instant, draw: Draw, flagged: bool)
      returns (keepGoing: bool, evicted: Option<PasswordFailures.Key>)
      requires Valid() && server.Valid() && Tied(server.Dir()) && server.failures.clock <= now
      modifies this, server, server.failures
      ensures Valid() && server.Valid() && Tied(server.Dir())
      ensures old(isRegistered) ==> !keepGoing && server.Dir() == old(server.Dir()) && unchanged(this)
      ensures !old(isRegistered) && isRegistered ==> IsCurrent(server.Dir(), MySession(), sender)
      ensures !isRegistered ==> server.Dir() == old(server.Dir())
      ensures !old(isRegistered) ==>
                var locked := old(server.Locked(GateKey(source, r), now));
                var answer := Answer(server.hash, old(server.Dir()), r, locked, draw, sender);
                && server.Dir() == answer.0
                && (isRegistered <==> answer.1.Admitted?)
                && (isRegistered <==> WellFormed(r) && Admissible(server.hash, old(server.Dir()), r, locked))
                && (keepGoing <==> RetryDue(server.hash, old(server.Dir()), r, locked) || (isRegistered && !flagged))
                && Remembered(server.hash, old(server.Dir()), r, locked, GateKey(source, r), now, evicted,
                              old(server.failures.log), server.failures.log, server.failures.attempts)
      ensures !old(isRegistered) ==>
                var finding := Judge(server.hash, old(server.Dir()), r, old(server.Locked(GateKey(source, r), now)));
                server.Booked(old(server.failures.attempts), old(server.failures.log), source, r, now, finding, evicted)
      ensures server.failures.clock <= now && (old(isRegistered) ==> unchanged(server.failures))
    {
      hide Admit, DirectoryOk, Judge, Logged, Bookkept, Evicts, Remembered, RetryDue, Admissible;
      ghost var before := server.Dir();
      var verdict;
      verdict, evicted := server.HandleV3(sender, isRegistered, r, source, now, draw);
      match verdict
      case Refused(why) =>
        if !isRegistered && Screen(r).None? {
          AdmissionDecided(server.hash, before, r, old(server.Locked(GateKey(source, r), now)), draw, sender);
        }
        keepGoing := why == Retry;
      case Admitted(session, n) =>
        CommitTies(before, server.hash, r, old(server.Locked(GateKey(source, r), now)), draw);
        clientId := Some(session.client);
        lobbyId := Some(session.lobby);
        generation := session.generation;
        isRegistered := true;
        keepGoing := !flagged;
    }

    lemma CommitTies(d: Directory, hash: Hash, r: Request, locked: bool, draw: Draw)
      requires DirectoryOk(d) && Screen(r).None? && Admit(hash, d, r, locked, draw, sender).1.Admitted?
      requires forall l, c :: !OwnedBy(d, l, c, sender)
      ensures
        var (d2, v) := Admit(hash, d, r, locked, draw, sender);
        && IsCurrent(d2, v.session, sender)
        && forall l, c :: OwnedBy(d2, l, c, sender) ==> l == v.session.lobby && c == v.session.client
    {
      AdmissionDecided(hash, d, r, locked, draw, sender);
      AdmissionEffect(hash, d, r, locked, draw, sender);
      var d2 := Admit(hash, d, r, locked, draw, sender).0;
      forall l, c | l != r.lobby || c != r.identity.value ensures !OwnedBy(d2, l, c, sender) {
        AdmissionRecords(hash, d, r, locked, draw, sender, l, c);
        assert !OwnedBy(d, l, c, sender);
      }
    }

    /** Leave the loop: run the cleanup for the stored session, if there is one. */
    method Close(server: SignalingServer, token: Token) returns (farewell: Farewell)
      requires Valid() && server.Valid() && Tied(server.Dir())
      modifies server
      ensures server.Valid()
      ensures forall l, c :: !OwnedBy(server.Dir(), l, c, sender)
      ensures !isRegistered ==> server.Dir() == old(server.Dir()) && farewell == Farewell(None, [])
      ensures isRegistered ==>
                exists next :: ValidSuccessor(old(server.Dir()), MySession(), sender, next) &&
                  (server.Dir(), farewell) == Depart(old(server.Dir()), MySession(), sender, next, token)
      ensures isRegistered && !IsCurrent(old(server.Dir()), MySession(), sender) ==>
                server.Dir() == old(server.Dir()) && farewell == Farewell(None, [])
    {
      farewell := Farewell(None, []);
      if clientId.Some? && lobbyId.Some? {
        ghost var before := server.Dir();
        ghost var s := MySession();
        farewell := server.CleanUp(MySession(), sender, token);
        ghost var next :| ValidSuccessor(before, s, sender, next) &&
          (server.Dir(), farewell) == Depart(before, s, sender, next, token);
        LeavingFrees(before, s, next, token);
        assert s == MySession() && before == old(server.Dir());
        assert ValidSuccessor(old(server.Dir()), MySession(), sender, next);
      }
    }

    lemma LeavingFrees(d: Directory, s: Session, next: ClientId, token: Token)
      requires DirectoryOk(d) && ValidSuccessor(d, s, sender, next)
      requires forall l, c :: OwnedBy(d, l, c, sender) ==> l == s.lobby && c == s.client
      ensures forall l, c :: !OwnedBy(Depart(d, s, sender, next, token).0, l, c, sender)
    {
      var d2 := Depart(d, s, sender, next, token).0;
      if OwnedBy(d, s.lobby, s.client, sender) {
        DepartureEffect(d, s, sender, next, token);
        forall l, c ensures !OwnedBy(d2, l, c, sender) {
          if l != s.lobby || c != s.client {
            DepartureRecords(d, s, sender, next, token, l, c);
            assert !OwnedBy(d, l, c, sender);
          }
        }
      }
    }
  }
}
