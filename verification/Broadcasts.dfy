/** What the members of a lobby are told over a whole run, and when the order in which they hear it matters. */
module Broadcasts {
  import opened Options
  import opened Lobbies
  import opened Registration
  import opened Moderation
  import opened Departure
  import opened Views
  import opened Sessions
  import opened Runs
  import opened Histories
  import opened Progress
  import opened Scenarios

  /** What a step has to tell the members of lobby `l`. */
  ghost function NewsOf(hash: Hash, s: State, a: Label, l: LobbyId): seq<News>
    requires Enabled(s, a)
  {
    match a
    case Submit(_, r, locked, _) =>
      if r.lobby == l && Screen(r).None? && Admissible(hash, s.dir, r, locked)
      then [PlayerJoined(r.identity.value)] else []
    case Decide(k, t) =>
      if s.conns[k].session.lobby == l then Moderate(s.dir, s.conns[k].session, k, s.conns[k].action, t).1.news else []
    case Cleanup(k, next, t) =>
      if s.conns[k].left.Some? && s.conns[k].left.value.lobby == l
      then Depart(s.dir, s.conns[k].left.value, k, next, t).1.news else []
    case _ => []
  }

  ghost function NewsAt(hash: Hash, run: Run, i: nat, l: LobbyId): seq<News>
    requires IsRun(hash, run) && i < |run.labels|
  {
    assert StepAt(hash, run, i);
    NewsOf(hash, run.states[i], run.labels[i], l)
  }

  /** All news for `l` from steps `i` to `j`, in the order in which the lobby lock was held. */
  ghost function Told(hash: Hash, run: Run, i: nat, j: nat, l: LobbyId): seq<News>
    requires IsRun(hash, run) && i <= j <= |run.labels|
    decreases j - i
  {
    if i == j then [] else Told(hash, run, i, j - 1, l) + NewsAt(hash, run, j - 1, l)
  }

  // ----- Lock order -----

  ghost predicate Follows(d: Directory, d2: Directory, l: LobbyId, news: seq<News>) {
    l in d.lobbies && l in d2.lobbies ==> Replay(ViewOf(d.lobbies[l]), news) == ViewOf(d2.lobbies[l])
  }

  lemma AdmissionFollows(hash: Hash, d: Directory, r: Request, locked: bool, draw: Draw, k: Conn)
    requires Screen(r).None? && Admissible(hash, d, r, locked)
    ensures Follows(d, Admit(hash, d, r, locked, draw, k).0, r.lobby, [PlayerJoined(r.identity.value)])
  {
    var (d2, c, l) := (Admit(hash, d, r, locked, draw, k).0, r.identity.value, r.lobby);
    hide Admit, Admissible;
    AdmissionShape(hash, d, r, locked, draw, k);
    if l in d.lobbies {
      var client := Client(c, r.playerName, r.virtualIp.value, draw.generation, k);
      ReplayOne(ViewOf(d.lobbies[l]), PlayerJoined(c));
      assert d2.lobbies[l] == Enrol(d.lobbies[l], client, draw.token);
    }
  }

  lemma SubmitFollows(hash: Hash, s: State, a: Label, l: LobbyId)
    requires DirectoryOk(s.dir) && Enabled(s, a) && a.Submit?
    ensures Follows(s.dir, ApplySubmit(hash, s, a.k, a.request, a.locked, a.draw).dir, l, NewsOf(hash, s, a, l))
  {
    hide Admissible, Admit, DirectoryOk;
    if Screen(a.request).None? {
      AdmissionDecided(hash, s.dir, a.request, a.locked, a.draw, a.k);
      if Admissible(hash, s.dir, a.request, a.locked) {
        AdmissionFollows(hash, s.dir, a.request, a.locked, a.draw, a.k);
        AdmissionFrame(hash, s.dir, a.request, a.locked, a.draw, a.k);
      }
    }
  }

  lemma DecideFollows(hash: Hash, s: State, a: Label, l: LobbyId)
    requires DirectoryOk(s.dir) && Enabled(s, a) && a.Decide?
    ensures Follows(s.dir, ApplyDecide(s, a.k, a.token).dir, l, NewsOf(hash, s, a, l))
  {
    hide Moderate, DirectoryOk;
    var (session, action) := (s.conns[a.k].session, s.conns[a.k].action);
    if l in s.dir.lobbies {
      if session.lobby == l {
        NewsTellsAll(s.dir, session, a.k, action, a.token);
      } else if KickLands(s.dir, session, a.k, action) {
        KickEffect(s.dir, session, a.k, action, a.token);
      } else {
        QuietModeration(s.dir, session, a.k, action, a.token);
      }
    }
  }

  lemma CleanupFollows(hash: Hash, s: State, a: Label, l: LobbyId)
    requires DirectoryOk(s.dir) && Enabled(s, a) && a.Cleanup?
    ensures Follows(s.dir, ApplyCleanup(s, a.k, a.next, a.token).dir, l, NewsOf(hash, s, a, l))
  {
    hide Depart, DirectoryOk;
    var left := s.conns[a.k].left;
    if left.Some? {
      if OwnedBy(s.dir, left.value.lobby, left.value.client, a.k) {
        DepartureEffect(s.dir, left.value, a.k, a.next, a.token);
      } else {
        StaleDepartureIsInert(s.dir, left.value, a.k, a.next, a.token);
      }
    }
  }

  /** Any step's news for a lobby carries the picture of it across that step. */
  lemma StepFollows(hash: Hash, s: State, a: Label, l: LobbyId)
    requires DirectoryOk(s.dir) && Enabled(s, a)
    ensures Follows(s.dir, Apply(hash, s, a).dir, l, NewsOf(hash, s, a, l))
  {
    hide ApplySubmit, ApplyDecide, ApplyCleanup, DirectoryOk, Admissible, Moderate, Depart;
    match a
    case Submit(_, _, _, _) => SubmitFollows(hash, s, a, l);
    case Decide(_, _) => DecideFollows(hash, s, a, l);
    case Cleanup(_, _, _) => CleanupFollows(hash, s, a, l);
    case _ =>
  }

  lemma StepAtFollows(hash: Hash, run: Run, i: nat, l: LobbyId)
    requires IsRun(hash, run) && i < |run.labels|
    ensures Follows(run.states[i].dir, run.states[i + 1].dir, l, NewsAt(hash, run, i, l))
  {
    hide Follows, NewsOf, Enabled, Apply;
    At(hash, run, i);
    StepFollows(hash, run.states[i], run.labels[i], l);
  }

  /** The lobby exists at every moment from `i` to `j`. */
  ghost predicate Lasts(run: Run, i: nat, j: nat, l: LobbyId) {
    forall m :: i <= m <= j && m < |run.states| ==> l in run.states[m].dir.lobbies
  }

  /**
   Over every run: whoever has the true picture of a lobby at one moment and
   hears all that is said in lock order has the true picture at every later
   moment of that lobby's life.
   */
  lemma {:induction false} LockOrderTellsAll(hash: Hash, run: Run, i: nat, j: nat, l: LobbyId)
    requires IsRun(hash, run) && i <= j <= |run.labels| && Lasts(run, i, j, l)
    ensures Replay(ViewOf(run.states[i].dir.lobbies[l]), Told(hash, run, i, j, l)) ==
            ViewOf(run.states[j].dir.lobbies[l])
    decreases j - i
  {
    hide NewsAt, ViewOf, StepAt;
    assert l in run.states[j].dir.lobbies;
    if i < j {
      assert l in run.states[j - 1].dir.lobbies;
      LockOrderTellsAll(hash, run, i, j - 1, l);
      StepAtFollows(hash, run, j - 1, l);
      ReplayConcat(ViewOf(run.states[i].dir.lobbies[l]), Told(hash, run, i, j - 1, l), NewsAt(hash, run, j - 1, l));
    }
  }

  /** The same for news that arrives in another order, as long as no two conflicting pieces have changed places. */
  lemma TameDeliveryTellsAll(hash: Hash, run: Run, i: nat, j: nat, l: LobbyId, order: seq<nat>)
    requires IsRun(hash, run) && i <= j <= |run.labels| && Lasts(run, i, j, l)
    requires Arranges(order, |Told(hash, run, i, j, l)|) && Tame(Told(hash, run, i, j, l), order)
    ensures Replay(ViewOf(run.states[i].dir.lobbies[l]), Arranged(Told(hash, run, i, j, l), order)) ==
            ViewOf(run.states[j].dir.lobbies[l])
  {
    LockOrderTellsAll(hash, run, i, j, l);
    TameOrderIsHarmless(ViewOf(run.states[i].dir.lobbies[l]), Told(hash, run, i, j, l), order);
  }

  // ----- A join that is never announced -----

  /** A registration that is given up before its welcome is not announced. */
  function Unannounced(news: seq<News>, p: ClientId): seq<News>
    decreases |news|
  {
    if news == [] then []
    else (if news[0] == PlayerJoined(p) then [] else [news[0]]) + Unannounced(news[1..], p)
  }

  ghost predicate AlikeBut(v: View, w: View, p: ClientId) {
    v.(players := {}) == w.(players := {}) && v.players - {p} == w.players - {p}
  }

  lemma HeardAlike(v: View, w: View, n: News, p: ClientId)
    requires AlikeBut(v, w, p)
    ensures AlikeBut(Heard(v, n), Heard(w, n), p)
    ensures n == PlayerJoined(p) ==> AlikeBut(Heard(v, n), w, p)
    ensures n == PlayerLeft(p) ==> Heard(v, n) == Heard(w, n)
  {
    if n.PlayerJoined? {
      assert v.players + {n.player} - {p} == v.players - {p} + ({n.player} - {p});
      assert w.players + {n.player} - {p} == w.players - {p} + ({n.player} - {p});
    } else if n.PlayerLeft? {
      assert v.players - {n.player} - {p} == v.players - {p} - {n.player};
      assert w.players - {n.player} - {p} == w.players - {p} - {n.player};
    }
  }

  lemma {:induction false} MissedJoins(v: View, w: View, news: seq<News>, p: ClientId)
    requires AlikeBut(v, w, p)
    ensures AlikeBut(Replay(v, news), Replay(w, Unannounced(news, p)), p)
    decreases |news|
  {
    if news != [] {
      HeardAlike(v, w, news[0], p);
      hide AlikeBut, Heard;
      if news[0] == PlayerJoined(p) {
        MissedJoins(Heard(v, news[0]), w, news[1..], p);
        assert Unannounced(news, p) == Unannounced(news[1..], p);
      } else {
        MissedJoins(Heard(v, news[0]), Heard(w, news[0]), news[1..], p);
        assert Unannounced(news, p)[1..] == Unannounced(news[1..], p);
      }
    }
  }

  /**
   Missing the arrival of `p` blurs nothing but whether `p` is in, and hearing
   that `p` left, which cleanup says in any case, restores the true picture.
   */
  lemma MissedJoinHeals(hash: Hash, run: Run, i: nat, j: nat, l: LobbyId, p: ClientId)
    requires IsRun(hash, run) && i <= j <= |run.labels| && Lasts(run, i, j, l)
    ensures
      var heard := Replay(ViewOf(run.states[i].dir.lobbies[l]), Unannounced(Told(hash, run, i, j, l), p));
      var truth := ViewOf(run.states[j].dir.lobbies[l]);
      AlikeBut(truth, heard, p) && Heard(truth, PlayerLeft(p)) == Heard(heard, PlayerLeft(p))
  {
    var v := ViewOf(run.states[i].dir.lobbies[l]);
    LockOrderTellsAll(hash, run, i, j, l);
    var told := Told(hash, run, i, j, l);
    MissedJoins(v, v, told, p);
    HeardAlike(Replay(v, told), Replay(v, Unannounced(told, p)), PlayerLeft(p), p);
  }

  // ----- Conflicting news out of order -----

  function HandOverNews(heir: ClientId): seq<News> {
    [MuteChanged(heir, false), HostChanged(heir)]
  }

  lemma HandOverRuling(d: Directory, session: Session, k: Conn, heir: ClientId, t: Token)
    requires Authorized(d, session, k) && IsMember(d, session.lobby, heir)
    ensures Moderate(d, session, k, TransferHost(heir), t) ==
            (d.(lobbies := d.lobbies[session.lobby := HandedTo(d.lobbies[session.lobby], heir)]),
             Ruling(Handled, None, HandOverNews(heir)))
  {}

  lemma TransferStep(hash: Hash, s: State, k: Conn, heir: ClientId, t: Token)
    requires In(s, k) && s.conns[k].Moderating? && s.conns[k].action == TransferHost(heir) && t !in s.issued
    requires Authorized(s.dir, s.conns[k].session, k) && IsMember(s.dir, s.conns[k].session.lobby, heir)
    ensures
      var (session, s2) := (s.conns[k].session, ApplyDecide(s, k, t));
      && Enabled(s, Decide(k, t))
      && s2.conns == s.conns[k := Registered(session)]
      && s2.dir.lobbies == s.dir.lobbies[session.lobby := HandedTo(s.dir.lobbies[session.lobby], heir)]
      && NewsOf(hash, s, Decide(k, t), session.lobby) == HandOverNews(heir)
  {
    HandOverRuling(s.dir, s.conns[k].session, k, heir, t);
    hide Moderate, HandedTo, HandOverNews, Authorized;
  }

  lemma OwnerIsIndexed(hash: Hash, run: Run, session: Session, k: Conn)
    requires IsRun(hash, run) && IsCurrent(Last(run).dir, session, k)
    ensures session.client in Last(run).dir.index && Last(run).dir.index[session.client] == session.lobby
  {
    IndexIsMembership(hash, run, |run.states| - 1, session.client, session.lobby);
  }

  lemma ToldInTwo(hash: Hash, run: Run, n: nat, l: LobbyId)
    requires IsRun(hash, run) && n + 2 <= |run.labels|
    ensures Told(hash, run, n, n + 2, l) == NewsAt(hash, run, n, l) + NewsAt(hash, run, n + 1, l)
  {
    hide NewsAt, IsRun;
    assert Told(hash, run, n, n + 1, l) == Told(hash, run, n, n, l) + NewsAt(hash, run, n, l);
  }

  /** The current host hands its lobby to another member; nothing else moves. */
  lemma HandOver(hash: Hash, run: Run, k: Conn, heir: ClientId) returns (longer: Run)
    requires IsRun(hash, run) && In(Last(run), k) && Last(run).conns[k].Registered?
    requires Authorized(Last(run).dir, Last(run).conns[k].session, k)
    requires IsMember(Last(run).dir, Last(run).conns[k].session.lobby, heir)
    ensures IsRun(hash, longer) && Continues(run, longer) && |longer.labels| == |run.labels| + 2
    ensures
      var (s, s2, l, n) := (Last(run), Last(longer), Last(run).conns[k].session.lobby, |run.labels|);
      && s2.conns == s.conns && s2.dir.lobbies == s.dir.lobbies[l := HandedTo(s.dir.lobbies[l], heir)]
      && Lasts(longer, n, n + 2, l) && Told(hash, longer, n, n + 2, l) == HandOverNews(heir)
  {
    hide StepAt, Moderate, ApplyDecide, HandOverNews, HandedTo;
    var s := Last(run);
    var (session, n) := (s.conns[k].session, |run.labels|);
    OwnerIsIndexed(hash, run, session, k);
    var begun := Extend(hash, run, Begin(k, TransferHost(heir)));
    assert Last(begun) == Goto(s, k, Moderating(session, TransferHost(heir)));
    var t := FreshToken(s.issued);
    TransferStep(hash, Last(begun), k, heir, t);
    longer := Extend(hash, begun, Decide(k, t));
    assert longer.states[n] == s && longer.states[n + 1] == Last(begun);
    assert longer.labels[n] == Begin(k, TransferHost(heir)) && longer.labels[n + 1] == Decide(k, t);
    assert s.conns[k := Registered(session)] == s.conns;
    ToldInTwo(hash, longer, n, session.lobby);
    assert NewsAt(hash, longer, n, session.lobby) == [];
    assert NewsAt(hash, longer, n + 1, session.lobby) == HandOverNews(heir);
  }

  lemma {:induction false} ToldPrefix(hash: Hash, run: Run, longer: Run, i: nat, j: nat, l: LobbyId)
    requires IsRun(hash, run) && IsRun(hash, longer) && Continues(run, longer) && i <= j <= |run.labels|
    ensures Told(hash, longer, i, j, l) == Told(hash, run, i, j, l)
    decreases j - i
  {
    hide NewsOf, StepAt;
    if i < j {
      ToldPrefix(hash, run, longer, i, j - 1, l);
      assert longer.states[j - 1] == run.states[j - 1] && longer.labels[j - 1] == run.labels[j - 1];
    }
  }

  /** The connection is registered as `c` in the scenario's lobby, and its session is current. */
  ghost predicate Seated(s: State, k: Conn, c: ClientId) {
    In(s, k) && s.conns[k] == Registered(Session(c, LOBBY, 0)) && IsCurrent(s.dir, Session(c, LOBBY, 0), k)
  }

  lemma SeatIsCurrent(hash: Hash, run: Run, k: Conn, c: ClientId)
    requires IsRun(hash, run) && In(Last(run), k) && Last(run).conns[k] == Registered(Session(c, LOBBY, 0))
    requires OwnedBy(Last(run).dir, LOBBY, c, k)
    ensures Seated(Last(run), k, c)
  {
    SenderDecides(hash, run, |run.states| - 1, k, LOBBY, c);
  }

  /** A host and a guest, both welcomed. */
  lemma BothSeated(hash: Hash) returns (run: Run, kh: Conn, kg: Conn)
    ensures IsRun(hash, run) && Seated(Last(run), kh, HOST) && Seated(Last(run), kg, GUEST)
    ensures Last(run).dir.lobbies[LOBBY].clients.Keys == {HOST, GUEST}
  {
    var empty := EmptyRun(hash);
    var founded, k1 := Founded(hash, empty);
    var met, k2, n := Joined(hash, founded, k1, 1);
    var first := Extend(hash, met, Welcome(k1));
    run := Extend(hash, first, Welcome(k2));
    kh, kg := k1, k2;
    assert HOST in map[HOST := kh, GUEST := kg] && GUEST in map[HOST := kh, GUEST := kg];
    SeatIsCurrent(hash, run, kh, HOST);
    SeatIsCurrent(hash, run, kg, GUEST);
  }

  /** The host of a lobby of two, whoever it is, and the other. */
  lemma HostAndOther(hash: Hash) returns (run: Run, ka: Conn, a: ClientId, kb: Conn, b: ClientId)
    ensures IsRun(hash, run) && Seated(Last(run), ka, a) && Seated(Last(run), kb, b) && a != b
    ensures Last(run).dir.lobbies[LOBBY].host == a
  {
    var kh, kg;
    run, kh, kg := BothSeated(hash);
    IndexIsMembership(hash, run, |run.states| - 1, HOST, LOBBY);
    if Last(run).dir.lobbies[LOBBY].host == HOST {
      ka, a, kb, b := kh, HOST, kg, GUEST;
    } else {
      ka, a, kb, b := kg, GUEST, kh, HOST;
    }
  }

  /** Hearing two handovers the wrong way round leaves the picture with the wrong host. */
  lemma CrossedHandovers(v: View, a: ClientId, b: ClientId)
    ensures Replay(v, HandOverNews(a) + HandOverNews(b)).host == b
  {
    ReplayConcat(v, HandOverNews(a), HandOverNews(b));
    ReplayTwo(Replay(v, HandOverNews(a)), MuteChanged(b, false), HostChanged(b));
  }

  /** All that was said between `i` and `m` is heard after all that was said between `m` and `j`. */
  ghost predicate Misled(hash: Hash, run: Run, i: nat, m: nat, j: nat, l: LobbyId)
    requires IsRun(hash, run)
  {
    && i <= m <= j <= |run.labels| && Lasts(run, i, j, l)
    && l in run.states[i].dir.lobbies && l in run.states[j].dir.lobbies
    && Replay(ViewOf(run.states[i].dir.lobbies[l]), Told(hash, run, m, j, l) + Told(hash, run, i, m, l)).host !=
       run.states[j].dir.lobbies[l].host
  }

  /**
   Broadcasts are sent after the lock is released, so conflicting news can
   cross. When a host hands over and is handed the lobby back, a member that
   hears the second handover first ends up with the wrong host.
   */
  lemma CrossedNewsMisleads(hash: Hash)
    ensures exists run, i, m, j, l :: IsRun(hash, run) && Misled(hash, run, i, m, j, l)
  {
    hide StepAt, Told;
    var run, ka, a, kb, b := HostAndOther(hash);
    var n := |run.labels|;
    var there := HandOver(hash, run, ka, b);
    var back := HandOver(hash, there, kb, a);
    ToldPrefix(hash, there, back, n, n + 2, LOBBY);
    CrossedHandovers(ViewOf(Last(run).dir.lobbies[LOBBY]), a, b);
    assert back.states[n] == Last(run) && back.states[n + 4] == Last(back);
    assert Lasts(back, n, n + 4, LOBBY) by {
      forall x | n <= x <= n + 4 ensures LOBBY in back.states[x].dir.lobbies {
        assert x <= n + 2 ==> back.states[x] == there.states[x];
      }
    }
    assert Misled(hash, back, n, n + 2, n + 4, LOBBY);
  }
}
