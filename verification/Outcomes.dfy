/** What each step hands out and where it leaves its connection, said of the state before it. */
module Outcomes {
  import opened Options
  import opened Lobbies
  import opened Registration
  import opened Moderation
  import opened Departure
  import opened Sessions
  import opened SessionProofs
  import opened Runs
  import opened Histories

  // ----- What is handed out -----

  /** `l` holds the token `t` now, and `k` is the sender of one of its members. */
  ghost predicate CurrentFor(d: Directory, l: LobbyId, k: Conn, t: Token) {
    l in d.lobbies && d.lobbies[l].token == t && exists c :: OwnedBy(d, l, c, k)
  }

  /**
   Delivery hands the notice's token to exactly the captured targets, and to
   nobody at all once the lobby holds another token; nothing else changes.
   */
  lemma DeliveryIsExact(hash: Hash, s: State, n: Notice, k: Conn, t: Token)
    requires Inv(s) && n in s.notices
    ensures
      var s2 := Apply(hash, s, Deliver(n));
      && s2 == s.(notices := s.notices - {n}, offered := s2.offered)
      && ((k, t) in s2.offered <==>
            || (k, t) in s.offered
            || (t == n.token && n.lobby in s.dir.lobbies && s.dir.lobbies[n.lobby].token == t
                && exists c :: c in n.targets && n.targets[c] == k))
  {
    assert Exact(s.dir, n);
    hide Inv;
    if n.lobby in s.dir.lobbies && s.dir.lobbies[n.lobby].token == n.token {
      forall c | c in n.targets ensures (n.targets[c], n.token) in Recipients(s.dir, n) {
        assert OwnedBy(s.dir, n.lobby, c, n.targets[c]);
      }
    }
  }

  /** Welcome hands the drawn token to the newcomer alone, and leaves the rotation to the notice. */
  lemma WelcomeIsExact(hash: Hash, s: State, k: Conn)
    requires Enabled(s, Welcome(k))
    ensures
      var (n, s2) := (s.conns[k].notice, Apply(hash, s, Welcome(k)));
      && s2.dir == s.dir && s2.conns == s.conns[k := Registered(s.conns[k].session)] && s2.issued == s.issued
      && s2.offered == s.offered + {(k, n.token)}
      && (forall m :: m in s2.notices <==> m in s.notices || (m == n && |n.targets| > 0))
  {}

  lemma OthersOfferNothing(hash: Hash, s: State, a: Label)
    requires Enabled(s, a) && !a.Welcome? && !a.Deliver?
    ensures Apply(hash, s, a).offered == s.offered
  {
    hide Admit, Moderate, Depart;
  }

  lemma DeliveryIsCurrent(hash: Hash, s: State, n: Notice, k: Conn, t: Token)
    requires Inv(s) && n in s.notices
    requires (k, t) in Apply(hash, s, Deliver(n)).offered && (k, t) !in s.offered
    ensures CurrentFor(s.dir, n.lobby, k, t)
  {
    DeliveryIsExact(hash, s, n, k, t);
    assert Exact(s.dir, n);
    hide Inv, Apply;
    var c :| c in n.targets && n.targets[c] == k;
    assert OwnedBy(s.dir, n.lobby, c, k);
  }

  /** Over every run, but for a connection's own welcome, only a token in force is handed out, and only to a member. */
  lemma OffersAreCurrent(hash: Hash, run: Run, i: nat, k: Conn, t: Token)
    requires IsRun(hash, run) && i < |run.labels|
    requires (k, t) in run.states[i + 1].offered && (k, t) !in run.states[i].offered
    ensures
      var (s, a) := (run.states[i], run.labels[i]);
      || (a == Welcome(k) && In(s, k) && s.conns[k].Committed? && s.conns[k].notice.token == t)
      || (a.Deliver? && a.notice.token == t && CurrentFor(s.dir, a.notice.lobby, k, t))
  {
    At(hash, run, i);
    var s, a := run.states[i], run.labels[i];
    match a
    case Welcome(j) => WelcomeIsExact(hash, s, j);
    case Deliver(n) => DeliveryIsCurrent(hash, s, n, k, t);
    case _ => OthersOfferNothing(hash, s, a);
  }

  // ----- Where a step leaves its connection -----

  /** A refused attempt may go on exactly when a retry is due; an admitted one awaits its welcome. */
  lemma SubmitOutcome(hash: Hash, s: State, k: Conn, r: Request, locked: bool, draw: Draw)
    requires Enabled(s, Submit(k, r, locked, draw))
    ensures
      var s2 := Apply(hash, s, Submit(k, r, locked, draw));
      && In(s2, k) && s2.conns == s.conns[k := s2.conns[k]] && s2.notices == s.notices && s2.offered == s.offered
      && s2.issued == s.issued + {draw.token}
      && (s2.conns[k] == Connected <==> RetryDue(hash, s.dir, r, locked))
      && (s2.conns[k].Committed? <==> WellFormed(r) && Admissible(hash, s.dir, r, locked))
      && (!s2.conns[k].Committed? ==> s2.dir == s.dir && (s2.conns[k].Connected? || s2.conns[k] == Closing(None)))
  {
    hide Admit, Admissible, RetryDue, WellFormed;
    AnswerDecided(hash, s.dir, r, locked, draw, k);
  }

  /** A host action ends the connection exactly when its session has been superseded in a lobby that still exists. */
  lemma DecideOutcome(hash: Hash, s: State, k: Conn, t: Token)
    requires Enabled(s, Decide(k, t))
    ensures
      var (session, s2) := (s.conns[k].session, Apply(hash, s, Decide(k, t)));
      && In(s2, k) && s2.conns == s.conns[k := s2.conns[k]] && s2.offered == s.offered && s2.issued == s.issued + {t}
      && s2.conns[k] == (if session.lobby in s.dir.lobbies && !IsCurrent(s.dir, session, k)
                         then Closing(Some(session)) else Registered(session))
  {
    OnlyTheHostActs(s.dir, s.conns[k].session, k, s.conns[k].action, t);
    hide Moderate;
  }

  /** Cleanup finishes the connection; it tells somebody only if it still owned a record. */
  lemma CleanupOutcome(hash: Hash, s: State, k: Conn, next: ClientId, t: Token)
    requires Enabled(s, Cleanup(k, next, t))
    ensures
      var (left, s2) := (s.conns[k].left, Apply(hash, s, Cleanup(k, next, t)));
      && s2.conns == s.conns[k := Done] && s2.offered == s.offered && s2.issued == s.issued + {t}
      && (left.None? || !OwnedBy(s.dir, left.value.lobby, left.value.client, k) ==>
            s2.dir == s.dir && s2.notices == s.notices)
  {
    if s.conns[k].left.Some? && !OwnedBy(s.dir, s.conns[k].left.value.lobby, s.conns[k].left.value.client, k) {
      StaleDepartureIsInert(s.dir, s.conns[k].left.value, k, next, t);
    }
    hide Depart;
  }
}
