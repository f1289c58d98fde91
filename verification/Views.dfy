/** What members are told about their lobby, and the picture of it that they keep from what they are told. */
module Views {
  import opened Options
  import opened Lobbies

  datatype News =
    | PlayerJoined(player: ClientId)
    | PlayerLeft(player: ClientId)
    | MuteChanged(player: ClientId, muted: bool)
    | HostChanged(host: ClientId)
    | OptionsChanged(maxPlayers: Option<nat>, isPublic: bool)

  /** The picture: who is in, who is host, who is muted, the cap and whether the lobby is listed. */
  datatype View = View(
    players: set<ClientId>,
    host: ClientId,
    muted: set<ClientId>,
    maxPlayers: Option<nat>,
    isPublic: bool)

  function ViewOf(lobby: Lobby): View {
    View(lobby.clients.Keys, lobby.host, lobby.muted, lobby.maxPlayers, lobby.isPublic)
  }

  /** How one piece of news changes the picture; someone who left is no longer muted either. */
  function Heard(v: View, n: News): View {
    match n
    case PlayerJoined(p) => v.(players := v.players + {p})
    case PlayerLeft(p) => v.(players := v.players - {p}, muted := v.muted - {p})
    case MuteChanged(p, on) => v.(muted := if on then v.muted + {p} else v.muted - {p})
    case HostChanged(h) => v.(host := h)
    case OptionsChanged(cap, public) => v.(maxPlayers := cap, isPublic := public)
  }

  /** A member's picture after hearing the news in order. */
  function Replay(v: View, news: seq<News>): View
    decreases |news|
  {
    if news == [] then v else Replay(Heard(v, news[0]), news[1..])
  }

  lemma ReplayOne(v: View, a: News)
    ensures Replay(v, [a]) == Heard(v, a)
  {}

  lemma ReplayTwo(v: View, a: News, b: News)
    ensures Replay(v, [a, b]) == Heard(Heard(v, a), b)
  {
    assert [a, b][1..] == [b];
    ReplayOne(Heard(v, a), b);
  }

  lemma ReplayThree(v: View, a: News, b: News, c: News)
    ensures Replay(v, [a, b, c]) == Heard(Heard(Heard(v, a), b), c)
  {
    assert [a, b, c][1..] == [b, c];
    ReplayTwo(Heard(v, a), b, c);
  }

  lemma {:induction false} ReplayConcat(v: View, a: seq<News>, b: seq<News>)
    ensures Replay(v, a + b) == Replay(Replay(v, a), b)
    decreases |a|
  {
    if a == [] {
      assert a + b == b;
    } else {
      assert (a + b)[1..] == a[1..] + b;
      ReplayConcat(Heard(v, a[0]), a[1..], b);
    }
  }

  // ----- When the order of news matters -----

  /** The two pieces of news contradict each other, so the later one prevails. */
  predicate Conflicts(a: News, b: News) {
    || (a.PlayerJoined? && b.PlayerLeft? && a.player == b.player)
    || (a.PlayerLeft? && b.PlayerJoined? && a.player == b.player)
    || (a.PlayerLeft? && b == MuteChanged(a.player, true))
    || (b.PlayerLeft? && a == MuteChanged(b.player, true))
    || (a.MuteChanged? && b.MuteChanged? && a.player == b.player && a.muted != b.muted)
    || (a.HostChanged? && b.HostChanged? && a != b)
    || (a.OptionsChanged? && b.OptionsChanged? && a != b)
  }

  lemma PeacefulPairsCommute(v: View, a: News, b: News)
    requires !Conflicts(a, b)
    ensures Heard(Heard(v, a), b) == Heard(Heard(v, b), a)
  {}

  /** Two neighbouring pieces of news may change places, whatever the picture, if and only if they do not conflict. */
  lemma SwapIsHarmlessIffPeaceful(a: News, b: News)
    ensures (forall v :: Heard(Heard(v, a), b) == Heard(Heard(v, b), a)) <==> !Conflicts(a, b)
  {
    if Conflicts(a, b) {
      var v := View({}, ClientId(0), {}, None, false);
      assert Heard(Heard(v, a), b) != Heard(Heard(v, b), a);
    } else {
      forall v ensures Heard(Heard(v, a), b) == Heard(Heard(v, b), a) {
        PeacefulPairsCommute(v, a, b);
      }
    }
  }

  /** `order` lists the positions of a sequence of length `n`, each once. */
  ghost predicate Arranges(order: seq<nat>, n: nat) {
    && |order| == n
    && (forall i :: 0 <= i < |order| ==> order[i] < n)
    && (forall i, j :: 0 <= i < j < |order| ==> order[i] != order[j])
    && (forall q :: 0 <= q < n ==> q in order)
  }

  /** The news as it is heard: first the piece at position `order[0]`, and so on. */
  function Arranged(news: seq<News>, order: seq<nat>): seq<News>
    requires forall i :: 0 <= i < |order| ==> order[i] < |news|
  {
    seq(|order|, i requires 0 <= i < |order| => news[order[i]])
  }

  /** Whatever is heard out of order does not conflict. */
  ghost predicate Tame(news: seq<News>, order: seq<nat>)
    requires forall i :: 0 <= i < |order| ==> order[i] < |news|
  {
    forall i, j :: 0 <= i < j < |order| && order[j] < order[i] ==> !Conflicts(news[order[j]], news[order[i]])
  }

  /** A piece of news that conflicts with nothing before it may be heard first. */
  lemma {:induction false} HeardFirst(v: View, before: seq<News>, n: News, rest: seq<News>)
    requires forall i :: 0 <= i < |before| ==> !Conflicts(before[i], n)
    ensures Replay(v, before + [n] + rest) == Replay(Heard(v, n), before + rest)
    decreases |before|
  {
    if before == [] {
      assert before + [n] + rest == [n] + rest && before + rest == rest;
    } else {
      var b := before[0];
      assert (before + [n] + rest)[1..] == before[1..] + [n] + rest;
      assert (before + rest)[1..] == before[1..] + rest;
      HeardFirst(Heard(v, b), before[1..], n, rest);
      PeacefulPairsCommute(v, b, n);
    }
  }

  /** The order of what is left once position `p` has been heard. */
  function Closed(order: seq<nat>, p: nat): seq<nat>
    requires forall i :: 0 <= i < |order| ==> order[i] != p
  {
    seq(|order|, i requires 0 <= i < |order| => if order[i] < p then order[i] else order[i] - 1)
  }

  lemma ClosedArranges(order: seq<nat>, n: nat)
    requires n > 0 && Arranges(order, n)
    ensures Arranges(Closed(order[1..], order[0]), n - 1)
  {
    var p, closed := order[0], Closed(order[1..], order[0]);
    forall q | 0 <= q < n - 1 ensures q in closed {
      var q0 := if q < p then q else q + 1;
      assert q0 in order;
      var i :| 0 <= i < |order| && order[i] == q0;
      assert closed[i - 1] == q;
    }
  }

  lemma ClosedIsTame(news: seq<News>, order: seq<nat>)
    requires news != [] && Arranges(order, |news|) && Tame(news, order)
    ensures
      var (p, closed) := (order[0], Closed(order[1..], order[0]));
      && (forall i :: 0 <= i < |closed| ==> closed[i] < |news| - 1)
      && Tame(news[..p] + news[p + 1..], closed)
      && Arranged(news[..p] + news[p + 1..], closed) == Arranged(news, order)[1..]
  {
    var p, closed := order[0], Closed(order[1..], order[0]);
    var others := news[..p] + news[p + 1..];
    ClosedArranges(order, |news|);
    hide Conflicts;
    forall i | 0 <= i < |closed| ensures others[closed[i]] == news[order[i + 1]] {
      assert order[1..][i] == order[i + 1];
    }
    forall i, j | 0 <= i < j < |closed| && closed[j] < closed[i]
      ensures !Conflicts(others[closed[j]], others[closed[i]])
    {
      assert order[j + 1] < order[i + 1];
    }
  }

  /** The piece heard first conflicts with nothing that came before it. */
  lemma FirstIsPeaceful(news: seq<News>, order: seq<nat>, q: nat)
    requires news != [] && Arranges(order, |news|) && Tame(news, order) && q < order[0]
    ensures !Conflicts(news[q], news[order[0]])
  {
    assert q in order;
    var j :| 0 <= j < |order| && order[j] == q;
    assert order[j] < order[0];
  }

  /** News heard in any order that keeps conflicting pieces in theirs leaves the same picture. */
  lemma {:induction false} TameOrderIsHarmless(v: View, news: seq<News>, order: seq<nat>)
    requires Arranges(order, |news|) && Tame(news, order)
    ensures Replay(v, Arranged(news, order)) == Replay(v, news)
    decreases |news|
  {
    if news == [] {
      assert Arranged(news, order) == [];
    } else {
      var p := order[0];
      var before, rest := news[..p], news[p + 1..];
      ClosedArranges(order, |news|);
      ClosedIsTame(news, order);
      forall q | 0 <= q < |before| ensures !Conflicts(before[q], news[p]) {
        FirstIsPeaceful(news, order, q);
      }
      hide Conflicts, Tame, Arranges, Heard, Closed;
      HeardFirst(v, before, news[p], rest);
      assert news == before + [news[p]] + rest;
      TameOrderIsHarmless(Heard(v, news[p]), before + rest, Closed(order[1..], p));
      assert Arranged(news, order)[0] == news[p];
    }
  }
}
