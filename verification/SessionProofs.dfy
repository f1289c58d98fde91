/** Every step of the transition system keeps the invariant. */
module SessionProofs {
  import opened Options
  import opened Lobbies
  import opened Registration
  import opened Moderation
  import opened Departure
  import opened Sessions

  /** Lobby `l` was given the token `t`, or vanished; no other lobby changed. */
  ghost predicate Advanced(d: Directory, d2: Directory, l: LobbyId, t: Token) {
    OnlyLobby(d, d2, l) && (l in d2.lobbies ==> d2.lobbies[l].token == t)
  }

  /** Members, tokens and epochs are as they were. */
  ghost predicate SameMembers(d: Directory, d2: Directory) {
    && d.lobbies.Keys == d2.lobbies.Keys
    && forall l :: l in d.lobbies ==>
         && d2.lobbies[l].clients == d.lobbies[l].clients
         && d2.lobbies[l].token == d.lobbies[l].token
         && d2.lobbies[l].epoch == d.lobbies[l].epoch
  }

  // ----- What a fresh token does to each conjunct -----

  lemma AdvanceTokens(d: Directory, d2: Directory, l: LobbyId, t: Token, issued: set<Token>)
    requires TokensDistinct(d, issued) && Advanced(d, d2, l, t) && t !in issued
    ensures TokensDistinct(d2, issued + {t})
  {}

  lemma AdvanceConfined(d: Directory, d2: Directory, l: LobbyId, t: Token, offered: set<(Conn, Token)>)
    requires Confined(d, offered) && Advanced(d, d2, l, t)
    requires forall p :: p in offered ==> p.1 != t
    ensures Confined(d2, offered)
  {
    forall k, m | m in d2.lobbies && (k, d2.lobbies[m].token) in offered ensures exists c :: OwnedBy(d2, m, c, k) {
      assert (k, d2.lobbies[m].token).1 != t;
      var c :| OwnedBy(d, m, c, k);
      assert OwnedBy(d2, m, c, k);
    }
  }

  lemma AdvanceExact(d: Directory, d2: Directory, l: LobbyId, t: Token, n: Notice)
    requires Exact(d, n) && Advanced(d, d2, l, t) && n.token != t
    ensures Exact(d2, n)
  {
    forall m | m in d2.lobbies && d2.lobbies[m].token == n.token
      ensures m == n.lobby && d2.lobbies[m].epoch == n.epoch
      ensures forall c :: c in n.targets ==> OwnedBy(d2, m, c, n.targets[c])
    {
      assert m in d.lobbies && d.lobbies[m] == d2.lobbies[m];
    }
  }

  lemma AdvanceTraffic(s: State, d2: Directory, l: LobbyId, t: Token)
    requires TrafficIssued(s) && t !in s.issued && Advanced(s.dir, d2, l, t)
    requires Confined(s.dir, s.offered) && NoticesExact(s.dir, s.notices) && WelcomesExact(s.dir, s.conns)
    ensures Confined(d2, s.offered) && NoticesExact(d2, s.notices) && WelcomesExact(d2, s.conns)
  {
    AdvanceConfined(s.dir, d2, l, t, s.offered);
    forall n | n in s.notices ensures Exact(d2, n) {
      AdvanceExact(s.dir, d2, l, t, n);
    }
    forall k | k in s.conns && s.conns[k].Committed?
      ensures Exact(d2, s.conns[k].notice)
      ensures Live(d2, s.conns[k].notice) ==> IsCurrent(d2, s.conns[k].session, k)
    {
      AdvanceExact(s.dir, d2, l, t, s.conns[k].notice);
    }
  }

  function Capture(d: Directory, l: LobbyId, except: Option<ClientId>): Notice
    requires l in d.lobbies
  {
    Notice(l, d.lobbies[l].token, d.lobbies[l].epoch, Senders(d.lobbies[l], except))
  }

  /** A notice captured at the change itself names exactly the members it was captured from. */
  lemma CaptureIsExact(d: Directory, l: LobbyId, issued: set<Token>, except: Option<ClientId>)
    requires TokensDistinct(d, issued) && l in d.lobbies
    ensures Exact(d, Capture(d, l, except))
  {}

  // ----- Carrying coverage across a step -----

  /** Nothing that member `c` of `m` was counting on is lost between `s` and `s2`. */
  ghost predicate Carried(s: State, s2: State, m: LobbyId, c: ClientId)
    requires IsMember(s.dir, m, c)
  {
    && IsMember(s2.dir, m, c)
    && s2.dir.lobbies[m].token == s.dir.lobbies[m].token
    && s2.dir.lobbies[m].clients == s.dir.lobbies[m].clients
    && s.offered <= s2.offered && s.notices <= s2.notices
    && forall j :: j in s.conns ==>
         || (j in s2.conns && s2.conns[j] == s.conns[j])
         || (!WelcomeCovers(s.conns[j], s.dir.lobbies[m].token, c) && !LeaverCovers(s.dir, s.conns[j], j, m))
  }

  lemma CarryCover(s: State, s2: State, m: LobbyId, c: ClientId)
    requires IsMember(s.dir, m, c) && Covered(s, m, c) && Carried(s, s2, m, c)
    ensures Covered(s2, m, c)
  {
    var t := s.dir.lobbies[m].token;
    if n :| n in s.notices && NoticeCovers(n, t, c) {
      assert n in s2.notices;
    } else if j :| j in s.conns && WelcomeCovers(s.conns[j], t, c) {
      assert j in s2.conns && s2.conns[j] == s.conns[j];
    } else if j :| j in s.conns && LeaverCovers(s.dir, s.conns[j], j, m) {
      assert j in s2.conns && s2.conns[j] == s.conns[j];
      assert LeaverCovers(s2.dir, s2.conns[j], j, m);
    }
  }

  // ----- Steps that leave the directory alone -----

  lemma GotoKeepsOwners(d: Directory, conns: map<Conn, Phase>, k: Conn, p: Phase)
    requires RecordsOwned(d, conns)
    requires k in conns ==> SessionOf(conns[k]) == SessionOf(p)
    ensures RecordsOwned(d, conns[k := p])
  {}

  /** Moving a connection between phases that owe nobody a token. */
  lemma GotoKeepsInv(s: State, k: Conn, p: Phase)
    requires Inv(s) && !p.Committed?
    requires if k in s.conns
             then SessionOf(s.conns[k]) == SessionOf(p) && !s.conns[k].Committed? && !s.conns[k].Closing?
             else SessionOf(p) == None
    ensures Inv(Goto(s, k, p))
  {
    hide DirectoryOk, RecordsOwned, TokensDistinct, Confined, Exact;
    var s2 := Goto(s, k, p);
    GotoKeepsOwners(s.dir, s.conns, k, p);
    forall m, c | IsMember(s2.dir, m, c) ensures Covered(s2, m, c) {
      CarryCover(s, s2, m, c);
    }
  }

  lemma AbandonKeepsInv(hash: Hash, s: State, k: Conn)
    requires Inv(s) && Enabled(s, Abandon(k))
    ensures Inv(Apply(hash, s, Abandon(k)))
  {
    hide DirectoryOk, TokensDistinct, Confined;
    var s2 := Apply(hash, s, Abandon(k));
    GotoKeepsOwners(s.dir, s.conns, k, s2.conns[k]);
    forall m, c | IsMember(s2.dir, m, c) ensures Covered(s2, m, c) {
      if WelcomeCovers(s.conns[k], s.dir.lobbies[m].token, c) {
        assert Live(s.dir, s.conns[k].notice);
        assert LeaverCovers(s2.dir, s2.conns[k], k, m);
      } else {
        CarryCover(s, s2, m, c);
      }
    }
  }

  lemma WelcomeKeepsConfined(s: State, k: Conn)
    requires Inv(s) && Enabled(s, Welcome(k))
    ensures Confined(s.dir, s.offered + {(k, s.conns[k].notice.token)})
  {
    hide DirectoryOk, RecordsOwned, TokensDistinct, TrafficIssued, NoticesExact, AllCovered;
    var t := s.conns[k].notice.token;
    forall j, m | m in s.dir.lobbies && (j, s.dir.lobbies[m].token) in s.offered + {(k, t)}
      ensures exists c :: OwnedBy(s.dir, m, c, j)
    {
      if (j, s.dir.lobbies[m].token) !in s.offered {
        assert Live(s.dir, s.conns[k].notice);
        assert OwnedBy(s.dir, m, s.conns[k].session.client, k);
      }
    }
  }

  lemma WelcomeKeepsCover(s: State, k: Conn)
    requires Inv(s) && Enabled(s, Welcome(k))
    ensures AllCovered(ApplyWelcome(s, k))
  {
    hide DirectoryOk, RecordsOwned, TokensDistinct, TrafficIssued, Confined, NoticesExact;
    var s2 := ApplyWelcome(s, k);
    var n := s.conns[k].notice;
    forall m, c | IsMember(s2.dir, m, c) ensures Covered(s2, m, c) {
      if WelcomeCovers(s.conns[k], s.dir.lobbies[m].token, c) {
        assert Live(s.dir, n);
        if c in n.targets {
          assert n in s2.notices && NoticeCovers(n, s.dir.lobbies[m].token, c);
        } else {
          assert s.dir.lobbies[m].clients[c].sender == k;
        }
      } else {
        CarryCover(s, s2, m, c);
      }
    }
  }

  lemma WelcomeKeepsTraffic(s: State, k: Conn)
    requires TrafficIssued(s) && NoticesExact(s.dir, s.notices) && WelcomesExact(s.dir, s.conns)
    requires k in s.conns && s.conns[k].Committed?
    ensures
      var s2 := ApplyWelcome(s, k);
      TrafficIssued(s2) && NoticesExact(s.dir, s2.notices) && WelcomesExact(s.dir, s2.conns)
  {}

  lemma WelcomeKeepsInv(s: State, k: Conn)
    requires Inv(s) && Enabled(s, Welcome(k))
    ensures Inv(ApplyWelcome(s, k))
  {
    GotoKeepsOwners(s.dir, s.conns, k, Registered(s.conns[k].session));
    WelcomeKeepsConfined(s, k);
    WelcomeKeepsTraffic(s, k);
    WelcomeKeepsCover(s, k);
  }

  /** While the token is current the sender filter drops nobody; otherwise nobody was counting on the notice. */
  lemma DeliveryIsComplete(s: State, n: Notice)
    requires Inv(s) && n in s.notices
    ensures Live(s.dir, n) ==> Recipients(s.dir, n) == set c | c in n.targets :: (n.targets[c], n.token)
    ensures !Live(s.dir, n) ==> forall l :: l in s.dir.lobbies ==> s.dir.lobbies[l].token != n.token
  {
    assert Exact(s.dir, n);
  }

  lemma DeliverKeepsConfined(s: State, n: Notice)
    requires Inv(s) && n in s.notices && Live(s.dir, n)
    ensures Confined(s.dir, s.offered + Recipients(s.dir, n))
  {
    forall j, m | m in s.dir.lobbies && (j, s.dir.lobbies[m].token) in s.offered + Recipients(s.dir, n)
      ensures exists c :: OwnedBy(s.dir, m, c, j)
    {
      if (j, s.dir.lobbies[m].token) !in s.offered {
        var c :| c in n.targets && OwnedBy(s.dir, n.lobby, c, n.targets[c]) && n.targets[c] == j;
        assert Exact(s.dir, n);
        assert OwnedBy(s.dir, m, c, j);
      }
    }
  }

  lemma DeliverKeepsCover(hash: Hash, s: State, n: Notice)
    requires Inv(s) && Enabled(s, Deliver(n))
    ensures AllCovered(Apply(hash, s, Deliver(n)))
  {
    hide DirectoryOk, RecordsOwned, TokensDistinct, TrafficIssued, Confined, WelcomesExact;
    var s2 := Apply(hash, s, Deliver(n));
    DeliveryIsComplete(s, n);
    forall m, c | IsMember(s2.dir, m, c) ensures Covered(s2, m, c) {
      var t := s.dir.lobbies[m].token;
      assert Covered(s, m, c);
      if NoticeCovers(n, t, c) {
        assert Exact(s.dir, n);
        assert (n.targets[c], n.token) in s2.offered;
      } else {
        var kept := s.(notices := s.notices - {n});
        if x :| x in s.notices && NoticeCovers(x, t, c) {
          assert x in kept.notices;
        }
        assert Covered(kept, m, c);
        CarryCover(kept, s2, m, c);
      }
    }
  }

  lemma DeliverKeepsInv(hash: Hash, s: State, n: Notice)
    requires Inv(s) && Enabled(s, Deliver(n))
    ensures Inv(Apply(hash, s, Deliver(n)))
  {
    if Live(s.dir, n) {
      DeliverKeepsConfined(s, n);
    }
    DeliverKeepsCover(hash, s, n);
  }

  // ----- Steps that change membership -----

  /**
   Connection `k` took lobby `l` to the fresh token `t` and moved to phase `p`.
   The change is recorded in a notice for every remaining member, or, when `k`
   has just been admitted, in the welcome it still owes.
   */
  ghost predicate MembershipStep(s: State, s2: State, k: Conn, l: LobbyId, t: Token, p: Phase) {
    && Advanced(s.dir, s2.dir, l, t) && t !in s.issued && k in s.conns
    && !s.conns[k].Committed?
    && (s.conns[k].Closing? && s.conns[k].left.Some? ==> s.conns[k].left.value.lobby == l)
    && s2 == State(s2.dir, s.conns[k := p], s2.notices, s.offered, s.issued + {t})
    && if p.Committed? then
         && s2.notices == s.notices && p.session.lobby == l && IsCurrent(s2.dir, p.session, k)
         && p.notice == Capture(s2.dir, l, Some(p.session.client))
       else
         s2.notices == if l in s2.dir.lobbies then s.notices + {Capture(s2.dir, l, None)} else s.notices
  }

  lemma MembershipStepTraffic(s: State, s2: State, k: Conn, l: LobbyId, t: Token, p: Phase)
    requires Inv(s) && MembershipStep(s, s2, k, l, t, p)
    ensures TokensDistinct(s2.dir, s2.issued) && TrafficIssued(s2)
    ensures Confined(s2.dir, s2.offered) && NoticesExact(s2.dir, s2.notices) && WelcomesExact(s2.dir, s2.conns)
  {
    hide DirectoryOk, RecordsOwned, AllCovered;
    AdvanceTokens(s.dir, s2.dir, l, t, s.issued);
    AdvanceTraffic(s, s2.dir, l, t);
    if l in s2.dir.lobbies {
      CaptureIsExact(s2.dir, l, s2.issued, if p.Committed? then Some(p.session.client) else None);
    }
  }

  lemma MembershipStepCover(s: State, s2: State, k: Conn, l: LobbyId, t: Token, p: Phase)
    requires AllCovered(s) && MembershipStep(s, s2, k, l, t, p)
    ensures AllCovered(s2)
  {
    forall m, c | IsMember(s2.dir, m, c) ensures Covered(s2, m, c) {
      if m != l {
        assert IsMember(s.dir, m, c);
        CarryCover(s, s2, m, c);
      } else if p.Committed? {
        assert WelcomeCovers(s2.conns[k], t, c);
      } else {
        assert NoticeCovers(Capture(s2.dir, l, None), t, c);
      }
    }
  }

  lemma MembershipStepKeepsInv(s: State, s2: State, k: Conn, l: LobbyId, t: Token, p: Phase)
    requires Inv(s) && MembershipStep(s, s2, k, l, t, p)
    requires DirectoryOk(s2.dir) && RecordsOwned(s2.dir, s2.conns)
    ensures Inv(s2)
  {
    MembershipStepTraffic(s, s2, k, l, t, p);
    MembershipStepCover(s, s2, k, l, t, p);
  }

  /** Drawing a token that ends up unused harms nothing. */
  lemma WastedTokenKeepsInv(s: State, t: Token)
    requires Inv(s)
    ensures Inv(s.(issued := s.issued + {t}))
  {
    var s2 := s.(issued := s.issued + {t});
    forall m, c | IsMember(s2.dir, m, c) ensures Covered(s2, m, c) {
      CarryCover(s, s2, m, c);
    }
  }

  /** One record was written for `k`, which owned none before. */
  lemma InsertionKeepsOwners(d: Directory, d2: Directory, conns: map<Conn, Phase>, k: Conn, p: Phase, session: Session)
    requires RecordsOwned(d, conns) && k in conns && SessionOf(conns[k]).None? && SessionOf(p) == Some(session)
    requires IsCurrent(d2, session, k)
    requires forall l, c :: IsMember(d2, l, c) && (l != session.lobby || c != session.client) ==>
               IsMember(d, l, c) && d2.lobbies[l].clients[c] == d.lobbies[l].clients[c]
    ensures RecordsOwned(d2, conns[k := p])
  {
    forall l, c | IsMember(d, l, c) ensures d.lobbies[l].clients[c].sender != k {}
  }

  lemma AdmissionKeepsOwners(hash: Hash, s: State, k: Conn, r: Request, locked: bool, draw: Draw)
    requires DirectoryOk(s.dir) && RecordsOwned(s.dir, s.conns)
    requires In(s, k) && s.conns[k].Connected? && Screen(r).None? && Admissible(hash, s.dir, r, locked)
    ensures
      var s2 := ApplySubmit(hash, s, k, r, locked, draw);
      RecordsOwned(s2.dir, s2.conns)
  {
    hide Admit, Admissible, DirectoryOk, SameSettings;
    var s2 := ApplySubmit(hash, s, k, r, locked, draw);
    AdmissionDecided(hash, s.dir, r, locked, draw, k);
    AdmissionFrame(hash, s.dir, r, locked, draw, k);
    AdmissionEffect(hash, s.dir, r, locked, draw, k);
    InsertionKeepsOwners(s.dir, s2.dir, s.conns, k, s2.conns[k], s2.conns[k].session);
  }

  lemma SubmitKeepsInv(hash: Hash, s: State, k: Conn, r: Request, locked: bool, draw: Draw)
    requires Inv(s) && Enabled(s, Submit(k, r, locked, draw))
    ensures Inv(ApplySubmit(hash, s, k, r, locked, draw))
  {
    var s2 := ApplySubmit(hash, s, k, r, locked, draw);
    if Screen(r).None? {
      AdmissionDecided(hash, s.dir, r, locked, draw, k);
    }
    if Screen(r).None? && Admissible(hash, s.dir, r, locked) {
      AdmissionKeepsDirectory(hash, s.dir, r, locked, draw, k);
      AdmissionKeepsOwners(hash, s, k, r, locked, draw);
      AdmissionFrame(hash, s.dir, r, locked, draw, k);
      AdmissionEffect(hash, s.dir, r, locked, draw, k);
      MembershipStepKeepsInv(s, s2, k, r.lobby, draw.token, s2.conns[k]);
    } else {
      GotoKeepsInv(s, k, s2.conns[k]);
      WastedTokenKeepsInv(Goto(s, k, s2.conns[k]), draw.token);
    }
  }

  /** Removing one record, whoever's it was, leaves every other record with its owner. */
  lemma RemovalKeepsOwners(d: Directory, d2: Directory, conns: map<Conn, Phase>, k: Conn, p: Phase)
    requires RecordsOwned(d, conns) && k in conns
    requires forall l, c :: IsMember(d2, l, c) ==>
               IsMember(d, l, c) && d2.lobbies[l].clients[c] == d.lobbies[l].clients[c]
    requires SessionOf(conns[k]) == SessionOf(p)
             || forall l, c :: IsMember(d2, l, c) ==> d2.lobbies[l].clients[c].sender != k
    ensures RecordsOwned(d2, conns[k := p])
  {}

  lemma KickKeepsOwners(s: State, k: Conn, t: Token)
    requires DirectoryOk(s.dir) && RecordsOwned(s.dir, s.conns)
    requires In(s, k) && s.conns[k].Moderating? && KickLands(s.dir, s.conns[k].session, k, s.conns[k].action)
    ensures
      var s2 := ApplyDecide(s, k, t);
      RecordsOwned(s2.dir, s2.conns)
  {
    hide LobbyOk, Moderate;
    var s2 := ApplyDecide(s, k, t);
    KickEffect(s.dir, s.conns[k].session, k, s.conns[k].action, t);
    RemovalKeepsOwners(s.dir, s2.dir, s.conns, k, s2.conns[k]);
  }

  lemma KickIsMembershipStep(s: State, k: Conn, t: Token)
    requires DirectoryOk(s.dir) && Enabled(s, Decide(k, t))
    requires KickLands(s.dir, s.conns[k].session, k, s.conns[k].action)
    ensures
      var s2 := ApplyDecide(s, k, t);
      MembershipStep(s, s2, k, s.conns[k].session.lobby, t, s2.conns[k])
  {
    KickEffect(s.dir, s.conns[k].session, k, s.conns[k].action, t);
  }

  lemma KickKeepsInv(s: State, k: Conn, t: Token)
    requires Inv(s) && Enabled(s, Decide(k, t)) && KickLands(s.dir, s.conns[k].session, k, s.conns[k].action)
    ensures Inv(ApplyDecide(s, k, t))
  {
    var s2 := ApplyDecide(s, k, t);
    KickKeepsOwners(s, k, t);
    KickIsMembershipStep(s, k, t);
    ModerationKeepsDirectory(s.dir, s.conns[k].session, k, s.conns[k].action, t);
    MembershipStepKeepsInv(s, s2, k, s.conns[k].session.lobby, t, s2.conns[k]);
  }

  lemma SameMembersTraffic(s: State, d2: Directory)
    requires Inv(s) && SameMembers(s.dir, d2)
    ensures RecordsOwned(d2, s.conns) && TokensDistinct(d2, s.issued)
    ensures Confined(d2, s.offered) && NoticesExact(d2, s.notices) && WelcomesExact(d2, s.conns)
  {
    forall l, c, k | OwnedBy(s.dir, l, c, k) ensures OwnedBy(d2, l, c, k) {}
    forall n | Exact(s.dir, n) ensures Exact(d2, n) {}
  }

  lemma SameMembersKeepsInv(s: State, d2: Directory)
    requires Inv(s) && SameMembers(s.dir, d2) && DirectoryOk(d2)
    ensures Inv(s.(dir := d2))
  {
    var s2 := s.(dir := d2);
    SameMembersTraffic(s, d2);
    forall m, c | IsMember(s2.dir, m, c) ensures Covered(s2, m, c) {
      CarryCover(s, s2, m, c);
    }
  }

  lemma QuietDecideShape(s: State, k: Conn, t: Token)
    requires In(s, k) && s.conns[k].Moderating? && !KickLands(s.dir, s.conns[k].session, k, s.conns[k].action)
    ensures
      var s2 := ApplyDecide(s, k, t);
      && SameMembers(s.dir, s2.dir)
      && s2 == Goto(s, k, s2.conns[k]).(dir := s2.dir, issued := s.issued + {t})
      && SessionOf(s2.conns[k]) == Some(s.conns[k].session) && !s2.conns[k].Committed?
  {
    QuietModeration(s.dir, s.conns[k].session, k, s.conns[k].action, t);
  }

  lemma QuietDecideKeepsInv(s: State, k: Conn, t: Token)
    requires Inv(s) && In(s, k) && s.conns[k].Moderating?
    requires !KickLands(s.dir, s.conns[k].session, k, s.conns[k].action)
    ensures Inv(ApplyDecide(s, k, t))
  {
    var s2 := ApplyDecide(s, k, t);
    var moved := Goto(s, k, s2.conns[k]);
    QuietDecideShape(s, k, t);
    GotoKeepsInv(s, k, s2.conns[k]);
    ModerationKeepsDirectory(s.dir, s.conns[k].session, k, s.conns[k].action, t);
    SameMembersKeepsInv(moved, s2.dir);
    WastedTokenKeepsInv(moved.(dir := s2.dir), t);
  }

  lemma DecideKeepsInv(s: State, k: Conn, t: Token)
    requires Inv(s) && Enabled(s, Decide(k, t))
    ensures Inv(ApplyDecide(s, k, t))
  {
    if KickLands(s.dir, s.conns[k].session, k, s.conns[k].action) {
      KickKeepsInv(s, k, t);
    } else {
      QuietDecideKeepsInv(s, k, t);
    }
  }

  lemma StaleCleanupKeepsInv(s: State, k: Conn, t: Token)
    requires Inv(s) && k in s.conns && s.conns[k].Closing?
    requires forall l, c :: IsMember(s.dir, l, c) ==> s.dir.lobbies[l].clients[c].sender != k
    ensures Inv(Goto(s, k, Done).(issued := s.issued + {t}))
  {
    hide DirectoryOk, TokensDistinct, Confined, Exact;
    var s2 := Goto(s, k, Done);
    RemovalKeepsOwners(s.dir, s.dir, s.conns, k, Done);
    forall m, c | IsMember(s2.dir, m, c) ensures Covered(s2, m, c) {
      CarryCover(s, s2, m, c);
    }
    WastedTokenKeepsInv(s2, t);
  }

  /** A connection owns at most the one record its session names, so leaving frees all it owned. */
  lemma LeavingKeepsOwners(s: State, k: Conn, next: ClientId, t: Token)
    requires Inv(s) && Enabled(s, Cleanup(k, next, t)) && s.conns[k].left.Some?
    requires OwnedBy(s.dir, s.conns[k].left.value.lobby, s.conns[k].left.value.client, k)
    ensures
      var s2 := ApplyCleanup(s, k, next, t);
      RecordsOwned(s2.dir, s2.conns)
  {
    hide AllCovered, WelcomesExact, NoticesExact, Confined, TrafficIssued, TokensDistinct, LobbyOk, Depart;
    var s2 := ApplyCleanup(s, k, next, t);
    var left := s.conns[k].left.value;
    DepartureEffect(s.dir, left, k, next, t);
    forall l, c | IsMember(s2.dir, l, c)
      ensures IsMember(s.dir, l, c) && s2.dir.lobbies[l].clients[c] == s.dir.lobbies[l].clients[c]
      ensures s2.dir.lobbies[l].clients[c].sender != k
    {
      assert IsMember(s.dir, l, c);
      assert l != left.lobby || c != left.client;
    }
    RemovalKeepsOwners(s.dir, s2.dir, s.conns, k, Done);
  }

  lemma LeavingIsMembershipStep(s: State, k: Conn, next: ClientId, t: Token)
    requires Inv(s) && Enabled(s, Cleanup(k, next, t)) && s.conns[k].left.Some?
    requires OwnedBy(s.dir, s.conns[k].left.value.lobby, s.conns[k].left.value.client, k)
    ensures MembershipStep(s, ApplyCleanup(s, k, next, t), k, s.conns[k].left.value.lobby, t, Done)
  {
    hide AllCovered, WelcomesExact, NoticesExact, Confined, TrafficIssued, TokensDistinct, RecordsOwned;
    hide LobbyOk, Depart;
    DepartureEffect(s.dir, s.conns[k].left.value, k, next, t);
  }

  lemma CleanupKeepsInv(s: State, k: Conn, next: ClientId, t: Token)
    requires Inv(s) && Enabled(s, Cleanup(k, next, t))
    ensures Inv(ApplyCleanup(s, k, next, t))
  {
    var s2 := ApplyCleanup(s, k, next, t);
    var left := s.conns[k].left;
    if left.None? || !OwnedBy(s.dir, left.value.lobby, left.value.client, k) {
      StaleCleanupKeepsInv(s, k, t);
    } else {
      DepartureKeepsDirectory(s.dir, left.value, k, next, t);
      LeavingKeepsOwners(s, k, next, t);
      LeavingIsMembershipStep(s, k, next, t);
      MembershipStepKeepsInv(s, s2, k, left.value.lobby, t, Done);
    }
  }

  // ----- The inductive step -----

  lemma StepKeepsInv(hash: Hash, s: State, a: Label)
    requires Inv(s) && Enabled(s, a)
    ensures Inv(Apply(hash, s, a))
  {
    hide Inv, ApplySubmit, ApplyWelcome, ApplyDecide, ApplyCleanup;
    match a
    case Submit(k, r, locked, draw) => SubmitKeepsInv(hash, s, k, r, locked, draw);
    case Welcome(k) => WelcomeKeepsInv(s, k);
    case Abandon(k) => AbandonKeepsInv(hash, s, k);
    case Decide(k, t) => DecideKeepsInv(s, k, t);
    case Cleanup(k, next, t) => CleanupKeepsInv(s, k, next, t);
    case Deliver(n) => DeliverKeepsInv(hash, s, n);
    case Open(k) => GotoKeepsInv(s, k, Connected);
    case Begin(k, action) => GotoKeepsInv(s, k, Moderating(s.conns[k].session, action));
    case Hangup(k) => GotoKeepsInv(s, k, Closing(SessionOf(s.conns[k])));
  }

  lemma InitInv()
    ensures Inv(Init)
  {}
}
